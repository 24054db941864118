/** The source buffer: every ingested file's bytes, concatenated in call order,
    and the `(name, start, end)` record of where each file landed. */
module SourceBuffer {
  import opened Entities

  /** One entry of `file_offsets`: the file's name and its half-open range. */
  datatype FileOffset = FileOffset(name: string, start: nat, end: nat)

  /** The bytes of `files`, one after another. */
  function Concat(files: seq<seq<byte>>): (r: seq<byte>)
    decreases |files|
  {
    if files == [] then [] else Concat(files[..|files| - 1]) + files[|files| - 1]
  }

  /** `source` holds exactly the files ingested so far, and entry `i` of
      `offsets` names the range that file `i` occupies in it: the last file
      fills the end of the buffer, and the files before it are laid out in
      the bytes before it. */
  ghost predicate Layout(offsets: seq<FileOffset>, files: seq<seq<byte>>, source: seq<byte>)
    decreases |offsets|
  {
    if offsets == [] then files == [] && source == []
    else
      var n := |offsets| - 1;
      && |files| == |offsets|
      && |files[n]| <= |source|
      && var before := source[..|source| - |files[n]|];
         && source == before + files[n]
         && offsets[n].start == |before| && offsets[n].end == |source|
         && Layout(offsets[..n], files[..n], before)
  }

  /** Ingesting a file keeps the layout: its bytes go at the end, and its
      range starts at the old buffer length and ends at the new one. */
  lemma LayoutAppend(offsets: seq<FileOffset>, files: seq<seq<byte>>, source: seq<byte>,
                     name: string, contents: seq<byte>)
    requires Layout(offsets, files, source)
    ensures Layout(offsets + [FileOffset(name, |source|, |source| + |contents|)], files + [contents], source + contents)
  {
    var offsets', files', source' := offsets + [FileOffset(name, |source|, |source| + |contents|)], files + [contents], source + contents;
    assert source'[..|source'| - |contents|] == source;
    assert offsets'[..|offsets|] == offsets && files'[..|files|] == files;
  }

  /** The layout is exactly the concatenation of the files. */
  lemma {:induction false} LayoutConcat(offsets: seq<FileOffset>, files: seq<seq<byte>>, source: seq<byte>)
    requires Layout(offsets, files, source)
    ensures |files| == |offsets| && source == Concat(files)
    decreases |offsets|
  {
    if offsets != [] {
      var n := |offsets| - 1;
      LayoutConcat(offsets[..n], files[..n], source[..|source| - |files[n]|]);
    }
  }

  /** Every recorded range lies inside the buffer and holds exactly that
      file's bytes. */
  lemma {:induction false} LayoutSlice(offsets: seq<FileOffset>, files: seq<seq<byte>>, source: seq<byte>, i: nat)
    requires Layout(offsets, files, source)
    requires i < |offsets|
    ensures offsets[i].start <= offsets[i].end <= |source|
    ensures source[offsets[i].start..offsets[i].end] == files[i]
    decreases |offsets|
  {
    var n := |offsets| - 1;
    var before := source[..|source| - |files[n]|];
    if i < n {
      LayoutSlice(offsets[..n], files[..n], before, i);
      assert offsets[..n][i] == offsets[i] && files[..n][i] == files[i];
      assert source[offsets[i].start..offsets[i].end] == before[offsets[i].start..offsets[i].end];
    } else {
      assert source[|before|..] == files[n];
    }
  }

  /** Ranges come in call order and never overlap: an earlier file ends no
      later than a later one starts. */
  lemma {:induction false} LayoutOrdered(offsets: seq<FileOffset>, files: seq<seq<byte>>, source: seq<byte>, i: nat, j: nat)
    requires Layout(offsets, files, source)
    requires i < j < |offsets|
    ensures offsets[i].end <= offsets[j].start
    decreases |offsets|
  {
    var n := |offsets| - 1;
    var before := source[..|source| - |files[n]|];
    assert offsets[..n][i] == offsets[i];
    if j < n {
      LayoutOrdered(offsets[..n], files[..n], before, i, j);
      assert offsets[..n][j] == offsets[j];
    } else {
      LayoutSlice(offsets[..n], files[..n], before, i);
    }
  }

  /** Successive files are contiguous: the first starts at offset zero and
      each one ends exactly where the next one starts. */
  lemma {:induction false} LayoutContiguous(offsets: seq<FileOffset>, files: seq<seq<byte>>, source: seq<byte>, i: nat)
    requires Layout(offsets, files, source)
    requires i < |offsets|
    ensures offsets[0].start == 0
    ensures i + 1 < |offsets| ==> offsets[i].end == offsets[i + 1].start
    decreases |offsets|
  {
    var n := |offsets| - 1;
    var before := source[..|source| - |files[n]|];
    if n > 0 {
      assert offsets[..n][0] == offsets[0];
      if i + 1 < n {
        LayoutContiguous(offsets[..n], files[..n], before, i);
        assert offsets[..n][i] == offsets[i] && offsets[..n][i + 1] == offsets[i + 1];
      } else {
        LayoutContiguous(offsets[..n], files[..n], before, 0);
        if i + 1 == n {
          LayoutEnd(offsets[..n], files[..n], before);
          assert offsets[..n][i] == offsets[i];
        }
      }
    }
  }

  /** The buffer length is where the last file ends (zero with no files):
      the next file's range starts right there. */
  lemma LayoutEnd(offsets: seq<FileOffset>, files: seq<seq<byte>>, source: seq<byte>)
    requires Layout(offsets, files, source)
    ensures offsets == [] ==> |source| == 0
    ensures offsets != [] ==> offsets[|offsets| - 1].end == |source|
  {
  }
}
