/** Reading an integer literal the way Rust's `str::parse::<i64>` does:
    an optional `+` or `-`, then one or more ASCII decimal digits, and a
    value that fits in a signed 64-bit integer. */
module IntLiteral {
  import opened Entities

  const I64_MIN: int := -0x8000_0000_0000_0000
  const I64_MAX: int := 0x7FFF_FFFF_FFFF_FFFF

  const PLUS: byte := 43
  const MINUS: byte := 45
  const ZERO: byte := 48
  const NINE: byte := 57

  predicate InI64(v: int) { I64_MIN <= v <= I64_MAX }

  predicate IsDigit(b: byte) { ZERO <= b <= NINE }

  function DigitValue(b: byte): (d: nat)
    requires IsDigit(b)
    ensures d < 10
  {
    (b - ZERO) as nat
  }

  predicate AllDigits(s: seq<byte>) { forall k :: 0 <= k < |s| ==> IsDigit(s[k]) }

  /** The positional value of a run of decimal digits, most significant first. */
  function Value(s: seq<byte>): (v: nat)
    requires AllDigits(s)
    decreases |s|
  {
    if s == [] then 0 else Value(s[..|s| - 1]) * 10 + DigitValue(s[|s| - 1])
  }

  /** `s` is the decimal text of `v`: digits, or a sign and digits. */
  ghost predicate IsDecimalText(s: seq<byte>, v: int)
  {
    || (|s| > 0 && AllDigits(s) && v == Value(s))
    || (|s| > 1 && s[0] == PLUS && AllDigits(s[1..]) && v == Value(s[1..]))
    || (|s| > 1 && s[0] == MINUS && AllDigits(s[1..]) && v == -(Value(s[1..]) as int))
  }

  /** The digit loop of the parser: from position `i` on, multiply by ten
      and add (or, for a negative literal, subtract) each digit, failing on
      a non-digit or as soon as the running value leaves the i64 range. */
  function Accumulate(digits: seq<byte>, i: nat, acc: int, positive: bool): (r: Option<int>)
    requires i <= |digits|
    decreases |digits| - i
  {
    if i == |digits| then Some(acc)
    else if !IsDigit(digits[i]) then None
    else
      var mul := acc * 10;
      var next := if positive then mul + DigitValue(digits[i]) else mul - DigitValue(digits[i]);
      if !InI64(mul) || !InI64(next) then None
      else Accumulate(digits, i + 1, next, positive)
  }

  /** `str::parse::<i64>`: empty text and a lone sign are rejected; a
      leading `+` or `-` sets the sign; the rest goes through the digit loop. */
  function ParseI64(s: seq<byte>): (r: Option<int>)
  {
    if s == [] then None
    else if (s[0] == PLUS || s[0] == MINUS) && |s| == 1 then None
    else if s[0] == PLUS then Accumulate(s[1..], 0, 0, true)
    else if s[0] == MINUS then Accumulate(s[1..], 0, 0, false)
    else Accumulate(s, 0, 0, true)
  }

  function Signed(positive: bool, v: nat): int { if positive then v else -(v as int) }

  /** A longer run of digits is worth at least as much as its prefix. */
  lemma {:induction false} ValuePrefix(s: seq<byte>, i: nat)
    requires AllDigits(s) && i <= |s|
    ensures AllDigits(s[..i]) && Value(s[..i]) <= Value(s)
    decreases |s|
  {
    if i < |s| {
      var init := s[..|s| - 1];
      assert init[..i] == s[..i];
      ValuePrefix(init, i);
    } else {
      assert s[..i] == s;
    }
  }

  /** The digit loop fails exactly when a non-digit follows position `i`. */
  lemma {:induction false} AccumulateRejectsNonDigit(digits: seq<byte>, i: nat, acc: int, positive: bool)
    requires i <= |digits|
    requires Accumulate(digits, i, acc, positive).Some?
    ensures forall k :: i <= k < |digits| ==> IsDigit(digits[k])
    decreases |digits| - i
  {
    if i < |digits| {
      AccumulateRejectsNonDigit(digits, i + 1, (acc * 10) + Signed(positive, DigitValue(digits[i])), positive);
    }
  }

  /** Over a run of digits, the loop started on the value of the first `i`
      digits yields the value of them all, or fails iff that value is
      outside the i64 range. */
  lemma {:induction false} AccumulateValue(digits: seq<byte>, i: nat, acc: int, positive: bool)
    requires AllDigits(digits) && i <= |digits|
    requires AllDigits(digits[..i]) && acc == Signed(positive, Value(digits[..i])) && InI64(acc)
    ensures Accumulate(digits, i, acc, positive)
         == if InI64(Signed(positive, Value(digits))) then Some(Signed(positive, Value(digits))) else None
    decreases |digits| - i
  {
    if i == |digits| {
      assert digits[..i] == digits;
    } else {
      var d := DigitValue(digits[i]);
      var next := if positive then acc * 10 + d else acc * 10 - d;
      assert digits[..i + 1][..i] == digits[..i];
      assert Value(digits[..i + 1]) == Value(digits[..i]) * 10 + d;
      assert next == Signed(positive, Value(digits[..i + 1]));
      ValuePrefix(digits, i + 1);
      if InI64(next) {
        AccumulateValue(digits, i + 1, next, positive);
      }
    }
  }

  /** What `parse::<i64>` accepts, both ways: it returns `v` exactly when
      the text is the decimal text of `v` and `v` fits in an i64. */
  lemma ParseI64Correct(s: seq<byte>, v: int)
    ensures ParseI64(s) == Some(v) <==> IsDecimalText(s, v) && InI64(v)
  {
    if s != [] && !((s[0] == PLUS || s[0] == MINUS) && |s| == 1) {
      var positive := s[0] != MINUS;
      var digits := if s[0] == PLUS || s[0] == MINUS then s[1..] else s;
      assert ParseI64(s) == Accumulate(digits, 0, 0, positive);
      assert digits[..0] == [];
      if ParseI64(s).Some? {
        AccumulateRejectsNonDigit(digits, 0, 0, positive);
      }
      if AllDigits(digits) {
        AccumulateValue(digits, 0, 0, positive);
      }
    }
  }

  /** The bytes `"42"` read as forty-two. */
  lemma ParseFortyTwo()
    ensures ParseI64([52, 50]) == Some(42)
  {
  }
}
