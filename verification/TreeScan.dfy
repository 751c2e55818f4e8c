// Walking a temporary tree for credentials, and removing it whatever the walk finds.
module TreeScan {
  import opened Texts
  import opened SecretScan

  // A link says whether what it points to is a directory, which is all the walk asks.
  datatype Node =
    | File(content: Bytes)
    | Directory(entries: Entries)
    | Link(target: Bytes, toDirectory: bool)
    | Special

  datatype Entries = NoMore | Entry(name: Bytes, node: Node, rest: Entries)

  // What one attempt to scan came to. Faults are the operating system's errors, which
  // may strike at any entry unless the system is calm; a Failure is any other exception.
  datatype Scan = Completed(found: bool) | Fault | Failure

  // ---------------------------------------------------------------- the whole tree

  // Some name, link target or file below holds a needle; links are not followed.
  predicate NodeHolds(node: Node, needles: seq<Bytes>) {
    match node
    case File(content) => content != [] && HoldsSecret(content, needles)
    case Directory(entries) => EntriesHold(entries, needles)
    case Link(target, _) => HoldsSecret(target, needles)
    case Special => false
  }

  predicate EntriesHold(es: Entries, needles: seq<Bytes>) {
    es.Entry? && (HoldsSecret(es.name, needles) || NodeHolds(es.node, needles) || EntriesHold(es.rest, needles))
  }

  predicate TreeHolds(name: Bytes, es: Entries, needles: seq<Bytes>) {
    HoldsSecret(name, needles) || EntriesHold(es, needles)
  }

  predicate NodePlain(node: Node) {
    !node.Special? && (node.Directory? ==> EntriesPlain(node.entries))
  }

  // Nothing below is other than a file, a directory or a link.
  predicate EntriesPlain(es: Entries) {
    es.Entry? ==> NodePlain(es.node) && EntriesPlain(es.rest)
  }

  // os.walk lists these as directories.
  predicate ListedAsDirectory(node: Node) { node.Directory? || (node.Link? && node.toDirectory) }

  function Size(es: Entries): nat {
    if es.NoMore? then 0 else 1 + NodeSize(es.node) + Size(es.rest)
  }

  function NodeSize(node: Node): nat {
    if node.Directory? then 1 + Size(node.entries) else 0
  }

  // ---------------------------------------------------------------- the walk

  predicate SomeHolds(stack: seq<Entries>, needles: seq<Bytes>) {
    exists k :: 0 <= k < |stack| && EntriesHold(stack[k], needles)
  }

  predicate AllPlain(stack: seq<Entries>) {
    forall k :: 0 <= k < |stack| ==> EntriesPlain(stack[k])
  }

  function StackSize(stack: seq<Entries>): nat {
    if stack == [] then 0 else StackSize(stack[..|stack| - 1]) + 1 + Size(stack[|stack| - 1])
  }

  // The part of a directory that one of the two passes over its listing looks at.
  predicate PassHolds(es: Entries, directories: bool, needles: seq<Bytes>) {
    && es.Entry?
    && (|| (ListedAsDirectory(es.node) == directories
            && (HoldsSecret(es.name, needles) || (!es.node.Directory? && NodeHolds(es.node, needles))))
        || PassHolds(es.rest, directories, needles))
  }

  predicate PassPlain(es: Entries) { es.Entry? ==> !es.node.Special? && PassPlain(es.rest) }

  // The directories a listing leads to, without the links.
  function Subdirectories(es: Entries): seq<Entries> {
    if es.NoMore? then []
    else (if es.node.Directory? then [es.node.entries] else []) + Subdirectories(es.rest)
  }

  lemma {:induction false} SomeHoldsAppend(a: seq<Entries>, b: seq<Entries>, needles: seq<Bytes>)
    ensures SomeHolds(a + b, needles) <==> SomeHolds(a, needles) || SomeHolds(b, needles)
  {
    if SomeHolds(a + b, needles) {
      var k :| 0 <= k < |a + b| && EntriesHold((a + b)[k], needles);
      if k < |a| { assert EntriesHold(a[k], needles); } else { assert EntriesHold(b[k - |a|], needles); }
    }
    if k :| 0 <= k < |a| && EntriesHold(a[k], needles) { assert EntriesHold((a + b)[k], needles); }
    if k :| 0 <= k < |b| && EntriesHold(b[k], needles) { assert EntriesHold((a + b)[k + |a|], needles); }
  }

  // A directory holds a needle where one of its passes sees it or a subdirectory does.
  lemma {:induction false} PassesCoverDirectory(es: Entries, needles: seq<Bytes>)
    ensures EntriesHold(es, needles)
      <==> PassHolds(es, true, needles) || PassHolds(es, false, needles) || SomeHolds(Subdirectories(es), needles)
    ensures EntriesPlain(es) <==> PassPlain(es) && AllPlain(Subdirectories(es))
  {
    if es.Entry? {
      PassesCoverDirectory(es.rest, needles);
      var first := if es.node.Directory? then [es.node.entries] else [];
      var more := Subdirectories(es.rest);
      SomeHoldsAppend(first, more, needles);
      if es.node.Directory? { assert first[0] == es.node.entries; }
      assert AllPlain(first + more) <==> AllPlain(first) && AllPlain(more) by { AllPlainAppend(first, more); }
    }
  }

  lemma AllPlainAppend(a: seq<Entries>, b: seq<Entries>)
    ensures AllPlain(a + b) <==> AllPlain(a) && AllPlain(b)
  {
    if AllPlain(a + b) {
      forall k | 0 <= k < |a| ensures EntriesPlain(a[k]) { assert a[k] == (a + b)[k]; }
      forall k | 0 <= k < |b| ensures EntriesPlain(b[k]) { assert b[k] == (a + b)[k + |a|]; }
    }
  }

  lemma {:induction false} StackSizeAppend(a: seq<Entries>, b: seq<Entries>)
    ensures StackSize(a + b) == StackSize(a) + StackSize(b)
  {
    if b == [] {
      assert a + b == a;
    } else {
      assert (a + b)[..|a + b| - 1] == a + b[..|b| - 1];
      StackSizeAppend(a, b[..|b| - 1]);
    }
  }

  lemma {:induction false} SubdirectoriesAreSmaller(es: Entries)
    ensures StackSize(Subdirectories(es)) <= Size(es)
  {
    if es.Entry? {
      SubdirectoriesAreSmaller(es.rest);
      var first := if es.node.Directory? then [es.node.entries] else [];
      StackSizeAppend(first, Subdirectories(es.rest));
      if es.node.Directory? {
        assert first[..0] == [];
        assert StackSize(first) == 1 + Size(es.node.entries);
      }
    }
  }

  // One pass over a listing: every name, then the link's target, then the file. An
  // entry of no known kind is an error.
  method ScanEntries(es: Entries, directories: bool, needles: seq<Bytes>, limit: nat, calm: bool) returns (r: Scan)
    requires limit > 0
    ensures r.Completed? ==> (r.found <==> PassHolds(es, directories, needles))
    ensures r == Completed(false) && !directories ==> PassPlain(es)
    ensures calm && PassPlain(es) ==> r.Completed?
    ensures calm ==> r != Failure
  {
    var rest := es;
    while rest.Entry?
      invariant PassHolds(es, directories, needles) <==> PassHolds(rest, directories, needles)
      invariant !directories ==> (PassPlain(es) <==> PassPlain(rest))
      invariant PassPlain(es) ==> PassPlain(rest)
      decreases rest
    {
      if ListedAsDirectory(rest.node) == directories {
        var named := BytesContainSecret(rest.name, needles);
        if named { return Completed(true); }
        // lstat, readlink, open and read may each fail; encoding a name may too.
        if !calm { if * { return Fault; } else if * { return Failure; } }
        match rest.node {
          case Link(target, _) =>
            var linked := BytesContainSecret(target, needles);
            if linked { return Completed(true); }
          case File(content) =>
            var stream := new Stream(content);
            var held := RegularFileContainsSecret(stream, needles, limit);
            if held { return Completed(true); }
          case Special => return Fault;
          case Directory(_) =>
        }
      }
      rest := rest.rest;
    }
    return Completed(false);
  }

  // _temporary_tree_contains_secret
  method TreeContainsSecret(name: Bytes, es: Entries, needles: seq<Bytes>, limit: nat, calm: bool) returns (r: Scan)
    requires limit > 0
    ensures r.Completed? ==> (r.found <==> TreeHolds(name, es, needles))
    ensures r == Completed(false) && needles != [] ==> EntriesPlain(es)
    ensures calm && EntriesPlain(es) ==> r.Completed?
    ensures calm ==> r != Failure
  {
    if needles == [] {
      NoNeedles(es);
      return Completed(false);
    }
    var named := BytesContainSecret(name, needles);
    if named { return Completed(true); }
    var stack := [es];
    while stack != []
      invariant SomeHolds(stack, needles) <==> EntriesHold(es, needles)
      invariant AllPlain(stack) <==> EntriesPlain(es)
      decreases StackSize(stack)
    {
      var current := stack[|stack| - 1];
      var below := stack[..|stack| - 1];
      ghost var before := stack;
      assert stack == below + [current];
      SomeHoldsAppend(below, [current], needles);
      AllPlainAppend(below, [current]);
      PassesCoverDirectory(current, needles);
      SubdirectoriesAreSmaller(current);
      StackSizeAppend(below, Subdirectories(current));
      // Listing the directory may fail.
      if !calm { if * { return Fault; } }
      r := ScanEntries(current, true, needles, limit, calm);
      if r != Completed(false) { OneHolds(current, needles); return; }
      r := ScanEntries(current, false, needles, limit, calm);
      if r != Completed(false) { OneHolds(current, needles); return; }
      stack := below + Subdirectories(current);
      OneHolds(current, needles);
      SomeHoldsAppend(below, Subdirectories(current), needles);
      AllPlainAppend(below, Subdirectories(current));
    }
    return Completed(false);
  }

  lemma OneHolds(es: Entries, needles: seq<Bytes>)
    ensures SomeHolds([es], needles) <==> EntriesHold(es, needles)
    ensures AllPlain([es]) <==> EntriesPlain(es)
  {
    assert [es][0] == es;
  }

  lemma {:induction false} NoNeedles(es: Entries)
    ensures !EntriesHold(es, [])
  {
    if es.Entry? {
      NoNeedles(es.rest);
      if es.node.Directory? { NoNeedles(es.node.entries); }
    }
  }

  // ---------------------------------------------------------------- scan, then remove

  // What stands at the path: nothing, something that is not a directory of its own, or
  // a directory, which the harness may own or not.
  datatype Root =
    | Absent
    | LinkOrFile
    | Tree(name: Bytes, owned: bool, entries: Entries)

  datatype Outcome =
    | Returned
    | Refused
    | StatFailed
    | RemovalFailed
    | ScanFailed
    | SecretDetected

  // The place on disk.
  class Disk {
    var root: Root

    constructor (root: Root)
      ensures this.root == root
    {
      this.root := root;
    }

    // shutil.rmtree: all of it, or an error with some of it left.
    method RemoveTree(calm: bool) returns (ok: bool)
      requires root.Tree?
      modifies this
      ensures calm ==> ok
      ensures ok ==> root.Absent?
      ensures !ok ==> root.Tree? && root.name == old(root.name) && root.owned == old(root.owned)
    {
      if !calm {
        if * {
          var left := SomeOf(root.entries);
          root := root.(entries := left);
          return false;
        }
      }
      root := Absent;
      return true;
    }
  }

  method SomeOf(es: Entries) returns (left: Entries) {
    left := es;
    while left.Entry?
      decreases left
    {
      if * { return; }
      left := left.rest;
    }
  }

  // The attempts up to the first that completes or meets more than an operating-system
  // error.
  method ScanAttempts(name: Bytes, seen: seq<Entries>, needles: seq<Bytes>, limit: nat, calm: bool)
    returns (r: Scan, ghost attempts: seq<Scan>)
    requires limit > 0 && seen != []
    // Every attempt before the last met an operating-system error; only when the attempts
    // are used up the last one may, too.
    ensures 1 <= |attempts| <= |seen| && attempts[|attempts| - 1] == r
    ensures forall k :: 0 <= k < |attempts| - 1 ==> attempts[k] == Fault
    ensures r.Fault? ==> |attempts| == |seen|
    ensures r.Completed? ==> (r.found <==> TreeHolds(name, seen[|attempts| - 1], needles))
    ensures r == Completed(false) && needles != [] ==> EntriesPlain(seen[|attempts| - 1])
    ensures calm ==> r != Failure && (EntriesPlain(seen[0]) ==> r.Completed? && |attempts| == 1)
  {
    r, attempts := Fault, [];
    for attempt := 0 to |seen|
      invariant r == Fault && |attempts| == attempt && forall k :: 0 <= k < attempt ==> attempts[k] == Fault
      invariant attempt > 0 ==> !calm || !EntriesPlain(seen[0])
    {
      r := TreeContainsSecret(name, seen[attempt], needles, limit, calm);
      attempts := attempts + [r];
      if !r.Fault? { return; }
    }
  }

  // What the attempt with this number finds: the first the tree as it was, each later
  // one what others have made of it by then.
  function Found(root: Root, later: seq<Entries>, attempt: nat): Entries {
    if attempt == 0 then (if root.Tree? then root.entries else NoMore)
    else if attempt <= |later| then later[attempt - 1]
    else NoMore
  }

  // scan_and_remove_temporary_tree. attempts is how the scans went, if it came to that.
  method ScanAndRemove(disk: Disk, later: seq<Entries>, needles: seq<Bytes>, limit: nat, calm: bool)
    returns (o: Outcome, ghost attempts: seq<Scan>)
    requires limit > 0
    modifies disk
    ensures |attempts| <= 1 + |later|
    ensures old(disk.root).Absent? ==> o in {Returned, StatFailed} && disk.root == old(disk.root)
    ensures old(disk.root).LinkOrFile? ==> o in {Refused, StatFailed} && disk.root == old(disk.root)
    ensures old(disk.root).Tree? && !old(disk.root).owned ==> o in {Refused, StatFailed} && disk.root == old(disk.root)
    ensures old(disk.root).Tree? && old(disk.root).owned ==> (o != StatFailed ==> attempts != [])
    // What was not even looked at is left alone.
    ensures attempts == [] ==> disk.root == old(disk.root) && o in {Returned, Refused, StatFailed}
    // Whatever the scan finds the tree is removed; the last attempt decides what is told,
    // and only once the tree is gone.
    ensures attempts != [] ==>
      var scan, found := attempts[|attempts| - 1], Found(old(disk.root), later, |attempts| - 1);
      && old(disk.root).Tree? && old(disk.root).owned
      && (forall k :: 0 <= k < |attempts| - 1 ==> attempts[k] == Fault)
      && (scan == Fault ==> |attempts| == 1 + |later|)
      && (scan.Completed? ==> (scan.found <==> TreeHolds(old(disk.root).name, found, needles)))
      && (scan == Completed(false) && needles != [] ==> EntriesPlain(found))
      && (if disk.root.Absent? then
            o == if scan == Completed(true) then SecretDetected else if scan == Completed(false) then Returned
                 else ScanFailed
          else disk.root.Tree? && o == RemovalFailed)
    // Without faults a plain tree that the harness owns is removed and judged by what it
    // held when the call began.
    ensures calm && old(disk.root).Tree? && old(disk.root).owned && EntriesPlain(old(disk.root).entries) ==>
      && disk.root.Absent?
      && o == if TreeHolds(old(disk.root).name, old(disk.root).entries, needles) then SecretDetected else Returned
    ensures calm && old(disk.root).Absent? ==> o == Returned
    ensures calm && !old(disk.root).Absent? && !(old(disk.root).Tree? && old(disk.root).owned) ==> o == Refused
  {
    attempts := [];
    // lstat and resolve may fail.
    if !calm { if * { return StatFailed, []; } }
    match disk.root {
      case Absent => return Returned, [];
      case LinkOrFile => return Refused, [];
      case Tree(name, owned, entries) =>
        if !owned { return Refused, []; }
        var scan;
        scan, attempts := ScanAttempts(name, [entries] + later, needles, limit, calm);
        var removed := disk.RemoveTree(calm);
        if !removed { return RemovalFailed, attempts; }
        if !scan.Completed? { return ScanFailed, attempts; }
        if scan.found { return SecretDetected, attempts; }
        return Returned, attempts;
    }
  }
}
