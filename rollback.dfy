/** Checkpoint and rollback for speculative parsing: a checkpoint records the
    lengths of the span, node, error and block sequences plus the caller's
    token cursor; rolling back truncates those four sequences to the
    recorded lengths and hands the cursor back. */
module Rollback {
  import opened Entities

  datatype RollbackPoint = RollbackPoint(idxSpanStart: nat, idxNodes: nat, idxErrors: nat, idxBlocks: nat, tokenPos: nat)

  /** The four sequences a rollback acts on. */
  datatype Tracked = Tracked(spans: seq<Span>, nodes: seq<AstNode>, errors: seq<SourceError>, blocks: seq<Block>)

  /** `Vec::truncate`: keep the first `n` elements, or all of them when
      there are no more than `n`. */
  function Truncate<T>(s: seq<T>, n: nat): (r: seq<T>)
    ensures r <= s
    ensures |r| == if n <= |s| then n else |s|
  {
    if n <= |s| then s[..n] else s
  }

  /** The checkpoint of state `t` taken at token position `tokenPos`. */
  function Checkpoint(t: Tracked, tokenPos: nat): (rp: RollbackPoint)
  {
    RollbackPoint(|t.spans|, |t.nodes|, |t.errors|, |t.blocks|, tokenPos)
  }

  /** The four sequences after a rollback to `rp`. */
  function Restore(t: Tracked, rp: RollbackPoint): (r: Tracked)
  {
    Tracked(Truncate(t.spans, rp.idxSpanStart), Truncate(t.nodes, rp.idxNodes),
            Truncate(t.errors, rp.idxErrors), Truncate(t.blocks, rp.idxBlocks))
  }

  /** `t1` is `t0` with things appended to any of its four sequences. */
  ghost predicate Extends(t0: Tracked, t1: Tracked)
  {
    t0.spans <= t1.spans && t0.nodes <= t1.nodes && t0.errors <= t1.errors && t0.blocks <= t1.blocks
  }

  /** One append a parser makes between a checkpoint and a rollback: a node
      through `push_node`, or a span, a diagnostic or a block pushed onto
      the public field directly. */
  datatype Append = AppendNode(node: AstNode) | AppendSpan(span: Span) | AppendError(error: SourceError) | AppendBlock(block: Block)

  function Apply(t: Tracked, op: Append): (r: Tracked)
  {
    match op
    case AppendNode(n) => t.(nodes := t.nodes + [n])
    case AppendSpan(s) => t.(spans := t.spans + [s])
    case AppendError(e) => t.(errors := t.errors + [e])
    case AppendBlock(b) => t.(blocks := t.blocks + [b])
  }

  function ApplyAll(t: Tracked, ops: seq<Append>): (r: Tracked)
    decreases |ops|
  {
    if ops == [] then t else ApplyAll(Apply(t, ops[0]), ops[1..])
  }

  /** Each append only extends the four sequences. */
  lemma ApplyGrows(t: Tracked, op: Append)
    ensures Extends(t, Apply(t, op))
  {
  }

  lemma ExtendsTransitive(t0: Tracked, t1: Tracked, t2: Tracked)
    requires Extends(t0, t1) && Extends(t1, t2)
    ensures Extends(t0, t2)
  {
  }

  /** Any sequence of appends only extends the four sequences. */
  lemma {:induction false} ApplyAllExtends(t: Tracked, ops: seq<Append>)
    ensures Extends(t, ApplyAll(t, ops))
    decreases |ops|
  {
    if ops != [] {
      ApplyGrows(t, ops[0]);
      ApplyAllExtends(Apply(t, ops[0]), ops[1..]);
      ExtendsTransitive(t, Apply(t, ops[0]), ApplyAll(Apply(t, ops[0]), ops[1..]));
    }
  }

  /** Rolling back from any extension of the checkpointed state restores that
      state exactly, in content and length, and returns the captured cursor. */
  lemma RollbackAfterExtends(t0: Tracked, t1: Tracked, tokenPos: nat)
    requires Extends(t0, t1)
    ensures Restore(t1, Checkpoint(t0, tokenPos)) == t0
  {
  }

  /** Rollback exactness: checkpoint, perform any appends, roll back, and the
      spans, nodes, errors and blocks are their checkpoint values again, so
      the next node pushed gets the node count the checkpoint captured; the
      cursor handed back is the one the checkpoint was taken with. */
  lemma {:induction false} RollbackExact(t: Tracked, ops: seq<Append>, tokenPos: nat)
    ensures Restore(ApplyAll(t, ops), Checkpoint(t, tokenPos)) == t
    ensures |Restore(ApplyAll(t, ops), Checkpoint(t, tokenPos)).nodes| == |t.nodes|
    ensures Checkpoint(t, tokenPos).tokenPos == tokenPos
  {
    ApplyAllExtends(t, ops);
    RollbackAfterExtends(t, ApplyAll(t, ops), tokenPos);
  }

  /** Rolling back twice to the same point is the same as rolling back once. */
  lemma RestoreIdempotent(t: Tracked, rp: RollbackPoint)
    ensures Restore(Restore(t, rp), rp) == Restore(t, rp)
  {
  }

  /** Rolling back to a point taken later than the current state (its
      recorded lengths at least the current ones) changes nothing, because
      truncating to a longer length is a no-op. */
  lemma RestoreLongerIsNoOp(t: Tracked, rp: RollbackPoint)
    requires rp.idxSpanStart >= |t.spans| && rp.idxNodes >= |t.nodes|
    requires rp.idxErrors >= |t.errors| && rp.idxBlocks >= |t.blocks|
    ensures Restore(t, rp) == t
  {
  }
}
