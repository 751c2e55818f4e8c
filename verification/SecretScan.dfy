// The live harness's credential scan of temporary artifacts: a file is read in chunks,
// a tree is walked without following links, and the tree is removed whatever the scan
// found.
module SecretScan {
  import opened Texts

  type Bytes = seq<bv8>

  predicate HoldsSecret(value: Bytes, needles: seq<Bytes>) {
    exists k :: 0 <= k < |needles| && Contains(value, needles[k])
  }

  // _bytes_contain_secret
  method BytesContainSecret(value: Bytes, needles: seq<Bytes>) returns (found: bool)
    ensures found <==> HoldsSecret(value, needles)
  {
    for k := 0 to |needles|
      invariant forall j :: 0 <= j < k ==> !Contains(value, needles[j])
    {
      if Contains(value, needles[k]) { return true; }
    }
    return false;
  }

  // ---------------------------------------------------------------- one file

  // An open file. A read may return any part of what is left, and nothing only at the
  // end.
  class Stream {
    const content: Bytes
    var pos: nat

    ghost predicate Valid() reads this { pos <= |content| }

    constructor (content: Bytes)
      ensures Valid() && this.content == content && pos == 0
    {
      this.content := content;
      this.pos := 0;
    }

    method Read(limit: nat) returns (chunk: Bytes)
      requires Valid() && limit > 0
      modifies this`pos
      ensures Valid() && old(pos) <= pos && chunk == content[old(pos)..pos]
      ensures |chunk| <= limit && (chunk == [] <==> old(pos) == |content|)
    {
      var n: nat := 0;
      if pos < |content| {
        n :| 1 <= n <= limit && n <= |content| - pos;
      }
      chunk := content[pos..pos + n];
      pos := pos + n;
    }
  }

  // max((len(needle) for needle in needles), default=1)
  function Longest(needles: seq<Bytes>): (n: nat)
    ensures needles == [] ==> n == 1
    ensures forall k :: 0 <= k < |needles| ==> |needles[k]| <= n
    ensures needles != [] ==> exists k :: 0 <= k < |needles| && |needles[k]| == n
  {
    if needles == [] then 1
    else if |needles| == 1 then |needles[0]|
    else
      var rest := Longest(needles[..|needles| - 1]);
      var last := |needles[|needles| - 1]|;
      if rest < last then last else rest
  }

  // A needle that occurs in what was read up to a point and in none of what was read
  // before lies within the overlap and the new chunk.
  lemma OccursInWindow(content: Bytes, needle: Bytes, overlap: nat, from: int, pos: int, next: int)
    requires 0 <= from <= pos <= next <= |content| && (from == 0 || from == pos - overlap)
    requires |needle| <= overlap + 1 && !Contains(content[..pos], needle)
    ensures Contains(content[..next], needle) <==> Contains(content[from..next], needle)
  {
    var all, window := content[..next], content[from..next];
    assert window == all[from..next];
    if Contains(all, needle) {
      var i :| 0 <= i <= |all| && OccursAt(all, needle, i);
      if i + |needle| <= pos {
        assert all[0..pos] == content[..pos];
        OccursInPart(all, needle, 0, pos, i);
        assert false;
      }
      OccursInPart(all, needle, from, next, i);
    }
    if Contains(window, needle) {
      var i :| 0 <= i <= |window| && OccursAt(window, needle, i);
      OccursInPart(all, needle, from, next, i + from);
    }
  }

  lemma NothingInTheBeginning(content: Bytes, needles: seq<Bytes>)
    requires forall k :: 0 <= k < |needles| ==> needles[k] != []
    ensures !HoldsSecret(content[..0], needles)
  {
    forall k | 0 <= k < |needles| ensures !Contains(content[..0], needles[k]) {
    }
  }

  lemma WindowHolds(content: Bytes, needles: seq<Bytes>, overlap: nat, from: int, pos: int, next: int)
    requires 0 <= from <= pos <= next <= |content| && (from == 0 || from == pos - overlap)
    requires forall k :: 0 <= k < |needles| ==> |needles[k]| <= overlap + 1
    requires !HoldsSecret(content[..pos], needles)
    ensures HoldsSecret(content[..next], needles) <==> HoldsSecret(content[from..next], needles)
  {
    forall k | 0 <= k < |needles|
      ensures Contains(content[..next], needles[k]) <==> Contains(content[from..next], needles[k])
    {
      OccursInWindow(content, needles[k], overlap, from, pos, next);
    }
  }

  // _regular_file_contains_secret, however the reads split the file.
  method RegularFileContainsSecret(stream: Stream, needles: seq<Bytes>, limit: nat) returns (found: bool)
    requires stream.Valid() && stream.pos == 0 && limit > 0
    modifies stream
    ensures found <==> stream.content != [] && HoldsSecret(stream.content, needles)
  {
    hide HoldsSecret, Longest, Suffix, Scanned;
    var overlap := Longest(needles) - 1;
    var tail: Bytes := [];
    ghost var pos := stream.pos;
    NothingScanned(stream.content, needles, overlap, tail, pos);
    var chunk := stream.Read(limit);
    while chunk != []
      invariant stream.Valid() && pos <= stream.pos && chunk == stream.content[pos..stream.pos]
      invariant chunk == [] <==> pos == |stream.content|
      invariant Scanned(stream.content, needles, overlap, tail, pos)
      decreases |stream.content| - pos
    {
      var value := tail + chunk;
      ChunkScanned(stream.content, needles, overlap, tail, chunk, pos, stream.pos);
      var hit := BytesContainSecret(value, needles);
      if hit { return true; }
      tail := if overlap != 0 then Suffix(value, overlap) else [];
      pos := stream.pos;
      chunk := stream.Read(limit);
    }
    AllScanned(stream.content, needles, overlap, tail);
    return false;
  }

  // Nothing up to pos holds a needle, and tail is what the next chunk may continue.
  ghost predicate Scanned(content: Bytes, needles: seq<Bytes>, overlap: int, tail: Bytes, pos: nat) {
    && |tail| <= pos <= |content| && tail == content[pos - |tail|..pos]
    && (overlap >= 0 ==> |tail| == if overlap <= pos then overlap else pos)
    && (pos > 0 ==> !HoldsSecret(content[..pos], needles))
  }

  lemma NothingScanned(content: Bytes, needles: seq<Bytes>, overlap: int, tail: Bytes, pos: nat)
    requires tail == [] && pos == 0
    ensures Scanned(content, needles, overlap, tail, pos)
  {
  }

  lemma AllScanned(content: Bytes, needles: seq<Bytes>, overlap: int, tail: Bytes)
    requires Scanned(content, needles, overlap, tail, |content|)
    ensures content != [] ==> !HoldsSecret(content, needles)
  {
    assert content[..|content|] == content;
    hide HoldsSecret;
  }

  lemma ChunkScanned(content: Bytes, needles: seq<Bytes>, overlap: int, tail: Bytes, chunk: Bytes, pos: nat, next: nat)
    requires Scanned(content, needles, overlap, tail, pos) && overlap == Longest(needles) - 1
    requires pos < next <= |content| && chunk == content[pos..next]
    ensures
      var value := tail + chunk;
      if HoldsSecret(value, needles) then HoldsSecret(content, needles)
      else Scanned(content, needles, overlap, if overlap != 0 then Suffix(value, overlap) else [], next)
  {
    hide HoldsSecret, Longest, Suffix;
    var from := pos - |tail|;
    assert tail + content[pos..next] == content[from..next];
    WindowFound(content, needles, overlap, from, pos, next);
    TailKept(content, overlap, from, pos, next);
    if HoldsSecret(content[..next], needles) { PrefixHolds(content, next, needles); }
  }

  // What is kept for the next chunk is the end of what was read.
  lemma TailKept(content: Bytes, overlap: int, from: int, pos: int, next: int)
    requires 0 <= from <= pos < next <= |content|
    requires overlap >= 0 ==> pos - from == (if overlap <= pos then overlap else pos)
    ensures
      var tail := if overlap != 0 then Suffix(content[from..next], overlap) else [];
      && |tail| <= next && tail == content[next - |tail|..next]
      && (overlap >= 0 ==> |tail| == if overlap <= next then overlap else next)
  {
  }

  lemma PrefixHolds(content: Bytes, n: nat, needles: seq<Bytes>)
    requires n <= |content| && HoldsSecret(content[..n], needles)
    ensures HoldsSecret(content, needles)
  {
    var k :| 0 <= k < |needles| && Contains(content[..n], needles[k]);
    var i :| 0 <= i <= n && OccursAt(content[..n], needles[k], i);
    assert content[0..n] == content[..n];
    OccursInPart(content, needles[k], 0, n, i);
    assert Contains(content, needles[k]);
  }

  // Scanning the window is scanning everything read so far.
  lemma WindowFound(content: Bytes, needles: seq<Bytes>, overlap: int, from: int, pos: int, next: int)
    requires 0 <= from <= pos < next <= |content| && overlap == Longest(needles) - 1
    requires overlap >= 0 ==> pos - from == (if overlap <= pos then overlap else pos)
    requires pos > 0 ==> !HoldsSecret(content[..pos], needles)
    ensures HoldsSecret(content[..next], needles) <==> HoldsSecret(content[from..next], needles)
  {
    if k :| 0 <= k < |needles| && needles[k] == [] {
      assert OccursAt(content[..next], [], 0) && OccursAt(content[from..next], [], 0);
      assert Contains(content[..next], needles[k]) && Contains(content[from..next], needles[k]);
    } else {
      NothingInTheBeginning(content, needles);
      WindowHolds(content, needles, overlap, from, pos, next);
    }
  }
}
