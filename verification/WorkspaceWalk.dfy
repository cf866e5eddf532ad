/**
 The workspace walk: depth first with an explicit stack, over directories whose entries are
 scanned in name order. Proved equal to the recursive walk, which in turn is the list of
 reachable files in component-lexicographic order.
 */
module WorkspaceWalk {
  import opened Common

  type Path = seq<string>

  /** A directory's content; symbolic links and special files are `Other`. */
  datatype Node = File | Dir(entries: seq<Entry>) | Other
  datatype Entry = Entry(name: string, node: Node)

  datatype Item = FileItem(path: Path) | DirItem(path: Path, entries: seq<Entry>)

  const PRUNED_DIR_NAMES: set<string> :=
    {".git", ".hg", ".svn", ".idea", ".mypy_cache", ".next", ".pytest_cache", ".ruff_cache", ".tox", "__pycache__",
     "build", "dist", "node_modules", "site-packages", "target", "venv", ".venv", "vendor"}

  /** A name that may be one component of a path. */
  predicate SafeName(name: string) {
    name != "" && name != "." && name != ".." && '/' !in name && '\\' !in name && 0 as char !in name
  }

  predicate Entered(name: string, recursive: bool) {
    recursive && name !in PRUNED_DIR_NAMES
  }

  // ------------------------------------------------------------------ orders

  predicate NameLess(a: string, b: string) {
    b != [] && (a == [] || a[0] < b[0] || (a[0] == b[0] && NameLess(a[1..], b[1..])))
  }

  /** Lexicographic over components. */
  predicate PathLess(p: Path, q: Path) {
    q != [] && (p == [] || NameLess(p[0], q[0]) || (p[0] == q[0] && PathLess(p[1..], q[1..])))
  }

  predicate Increasing(s: seq<Path>) {
    forall i, j :: 0 <= i < j < |s| ==> PathLess(s[i], s[j])
  }

  lemma {:induction false} NameLessAsymmetric(a: string, b: string)
    requires NameLess(a, b)
    ensures !NameLess(b, a) && a != b
  {
    if a != [] && a[0] == b[0] {
      NameLessAsymmetric(a[1..], b[1..]);
    }
  }

  lemma {:induction false} PathLessAsymmetric(p: Path, q: Path)
    requires PathLess(p, q)
    ensures !PathLess(q, p) && p != q
  {
    if p != [] {
      if NameLess(p[0], q[0]) {
        NameLessAsymmetric(p[0], q[0]);
      } else {
        PathLessAsymmetric(p[1..], q[1..]);
      }
    }
  }

  /** The order of names: by the first character that differs, a proper prefix first. */
  lemma {:induction false} NameOrder(a: string, b: string)
    ensures NameLess(a, b) <==> a < b || exists k: nat :: k < |a| && k < |b| && a[..k] == b[..k] && a[k] < b[k]
  {
    if a != [] && b != [] && a[0] == b[0] {
      NameOrder(a[1..], b[1..]);
      assert a < b <==> a[1..] < b[1..] by {
        assert a == [a[0]] + a[1..] && b == [b[0]] + b[1..];
      }
      if k: nat :| k < |a[1..]| && k < |b[1..]| && a[1..][..k] == b[1..][..k] && a[1..][k] < b[1..][k] {
        assert a[..k + 1] == [a[0]] + a[1..][..k] && b[..k + 1] == [b[0]] + b[1..][..k];
        assert a[k + 1] < b[k + 1];
      }
      if k: nat :| k < |a| && k < |b| && a[..k] == b[..k] && a[k] < b[k] {
        assert a[1..][..k - 1] == a[..k][1..] && b[1..][..k - 1] == b[..k][1..];
        assert a[1..][k - 1] < b[1..][k - 1];
      }
    } else if a != [] && b != [] && a[0] < b[0] {
      assert a[..0] == b[..0];
    }
  }

  predicate DiffersAt(p: Path, q: Path, k: nat) {
    k < |p| && k < |q| && p[..k] == q[..k] && NameLess(p[k], q[k])
  }

  /** The order of paths: by the first component that differs, a directory before what it holds. */
  lemma {:induction false} PathOrder(p: Path, q: Path)
    ensures PathLess(p, q) <==> p < q || exists k: nat :: DiffersAt(p, q, k)
  {
    if p != [] && q != [] {
      NameLessIrreflexive(p[0]);
      if p[0] == q[0] {
        PathOrder(p[1..], q[1..]);
        assert p < q <==> p[1..] < q[1..] by {
          assert p == [p[0]] + p[1..] && q == [q[0]] + q[1..];
        }
        if k: nat :| DiffersAt(p[1..], q[1..], k) {
          assert p[..k + 1] == [p[0]] + p[1..][..k] && q[..k + 1] == [q[0]] + q[1..][..k];
          assert DiffersAt(p, q, k + 1);
        }
        if k: nat :| DiffersAt(p, q, k) {
          assert p[1..][..k - 1] == p[..k][1..] && q[1..][..k - 1] == q[..k][1..];
          assert DiffersAt(p[1..], q[1..], k - 1);
        }
      } else if NameLess(p[0], q[0]) {
        assert DiffersAt(p, q, 0);
      } else {
        forall k: nat | DiffersAt(p, q, k) ensures p[0] == q[0] || NameLess(p[0], q[0]) { FirstToDiffer(p, q, k); }
      }
    }
  }

  lemma FirstToDiffer(p: Path, q: Path, k: nat)
    requires DiffersAt(p, q, k)
    ensures p[0] == q[0] || NameLess(p[0], q[0])
  {
    if k > 0 { assert p[..k][0] == q[..k][0]; }
  }

  lemma NameLessIrreflexive(a: string)
    ensures !NameLess(a, a)
  {
    if NameLess(a, a) { NameLessAsymmetric(a, a); }
  }

  /** Increasing sequences with the same elements are equal: sorting has one outcome. */
  lemma {:induction false} IncreasingUnique(s: seq<Path>, t: seq<Path>)
    requires Increasing(s) && Increasing(t) && forall p :: p in s <==> p in t
    ensures s == t
  {
    if s == [] {
      assert forall i :: 0 <= i < |t| ==> t[i] in t;
    } else {
      assert s[0] in s;
      var i :| 0 <= i < |t| && t[i] == s[0];
      assert t[0] in t;
      var j :| 0 <= j < |s| && s[j] == t[0];
      if i > 0 && j > 0 {
        PathLessAsymmetric(t[0], t[i]);
      }
      assert s[0] == t[0];
      forall p ensures p in s[1..] <==> p in t[1..] {
        SameTail(s, t, p);
        SameTail(t, s, p);
      }
      IncreasingUnique(s[1..], t[1..]);
    }
  }

  lemma SameTail(s: seq<Path>, t: seq<Path>, p: Path)
    requires s != [] && t != [] && Increasing(s) && s[0] == t[0] && forall p :: p in s ==> p in t
    ensures p in s[1..] ==> p in t[1..]
  {
    if p in s[1..] {
      var i :| 1 <= i < |s| && s[i] == p;
      PathLessAsymmetric(s[0], s[i]);
      assert p in t;
    }
  }

  // ------------------------------------------------------------------ the recursive walk

  function Files(entries: seq<Entry>, at: Path, recursive: bool): seq<Path> {
    if entries == [] then [] else FilesOf(entries[0], at, recursive) + Files(entries[1..], at, recursive)
  }

  function FilesOf(e: Entry, at: Path, recursive: bool): seq<Path> {
    if !SafeName(e.name) then []
    else match e.node
         case File => [at + [e.name]]
         case Other => []
         case Dir(entries) => if Entered(e.name, recursive) then Files(entries, at + [e.name], recursive) else []
  }

  /** Entries as the scan delivers them: names strictly increasing, so unique, at every level. */
  predicate Scanned(entries: seq<Entry>) {
    entries == [] ||
    ((forall k :: 1 <= k < |entries| ==> NameLess(entries[0].name, entries[k].name))
     && (entries[0].node.Dir? ==> Scanned(entries[0].node.entries))
     && Scanned(entries[1..]))
  }

  // ------------------------------------------------------------------ what the walk lists

  /** Plain lookup: following these names from directory to directory ends at a file. */
  ghost predicate HoldsFile(entries: seq<Entry>, path: Path)
    decreases |path|
  {
    path != [] && exists e :: e in entries && LeadsToFile(e, path)
  }

  ghost predicate LeadsToFile(e: Entry, path: Path)
    requires path != []
    decreases |path|, 0
  {
    && e.name == path[0]
    && (|path| == 1 ==> e.node.File?)
    && (|path| > 1 ==> e.node.Dir? && HoldsFile(e.node.entries, path[1..]))
  }

  predicate SafeComponents(path: Path) {
    forall i :: 0 <= i < |path| ==>
      path[i] !in {"", ".", ".."} && forall c :: c in path[i] ==> c !in {'/', '\\', 0 as char}
  }

  predicate AvoidsPruned(path: Path) {
    forall i :: 0 <= i < |path| - 1 ==> path[i] !in PRUNED_DIR_NAMES
  }

  /**
   A file the walk must list: it is there, its components are safe names, none of its
   directories is pruned, and without recursion it lies directly at the root.
   */
  ghost predicate Resolves(entries: seq<Entry>, path: Path, recursive: bool) {
    && HoldsFile(entries, path)
    && SafeComponents(path) && AvoidsPruned(path)
    && (!recursive ==> |path| == 1)
  }

  lemma {:induction false} FilesStartAt(entries: seq<Entry>, at: Path, recursive: bool, p: Path)
    requires p in Files(entries, at, recursive)
    ensures at < p
  {
    if p in FilesOf(entries[0], at, recursive) {
      FileStartsAt(entries[0], at, recursive, p);
    } else {
      FilesStartAt(entries[1..], at, recursive, p);
    }
  }

  lemma {:induction false} FileStartsAt(e: Entry, at: Path, recursive: bool, p: Path)
    requires p in FilesOf(e, at, recursive)
    ensures at + [e.name] <= p
  {
    if e.node.Dir? {
      FilesStartAt(e.node.entries, at + [e.name], recursive, p);
    }
  }

  /** The walk lists exactly the files it must. */
  lemma {:induction false} FilesAreResolved(entries: seq<Entry>, at: Path, rel: Path, recursive: bool)
    ensures at + rel in Files(entries, at, recursive) <==> Resolves(entries, rel, recursive)
    decreases entries
  {
    if entries != [] {
      FilesAreResolved(entries[1..], at, rel, recursive);
      FileIsResolved(entries[0], at, rel, recursive);
      assert HoldsFile(entries, rel) <==> HoldsFile([entries[0]], rel) || HoldsFile(entries[1..], rel) by {
        assert entries == [entries[0]] + entries[1..];
      }
    }
  }

  lemma {:induction false} FileIsResolved(e: Entry, at: Path, rel: Path, recursive: bool)
    ensures at + rel in FilesOf(e, at, recursive) <==> Resolves([e], rel, recursive)
    decreases e
  {
    if at + rel in FilesOf(e, at, recursive) {
      FileStartsAt(e, at, recursive, at + rel);
      assert (at + rel)[|at|] == e.name;
    }
    assert rel != [] ==> (HoldsFile([e], rel) <==> LeadsToFile(e, rel)) by {
      assert e in [e];
    }
    if rel != [] && rel[0] == e.name {
      assert at + rel == at + [e.name] + rel[1..];
      assert at + rel == at + [e.name] ==> rel == (at + rel)[|at|..] == [e.name];
      if e.node.Dir? {
        FilesAreResolved(e.node.entries, at + [e.name], rel[1..], recursive);
        FirstAndRest(rel);
      }
    }
  }

  lemma FirstAndRest(path: Path)
    requires path != []
    ensures SafeComponents(path) <==> SafeName(path[0]) && SafeComponents(path[1..])
    ensures |path| > 1 ==> (AvoidsPruned(path) <==> path[0] !in PRUNED_DIR_NAMES && AvoidsPruned(path[1..]))
  {
    assert path == [path[0]] + path[1..];
  }

  // ------------------------------------------------------------------ in order, each once

  lemma {:induction false} PathLessAfter(at: Path, n1: string, n2: string, p: Path, q: Path)
    requires NameLess(n1, n2) && at + [n1] <= p && at + [n2] <= q
    ensures PathLess(p, q)
    decreases |at|
  {
    assert p[|at|] == n1 && q[|at|] == n2;
    if at != [] {
      assert p[0] == at[0] == q[0];
      assert at[1..] + [n1] <= p[1..] && at[1..] + [n2] <= q[1..];
      PathLessAfter(at[1..], n1, n2, p[1..], q[1..]);
    }
  }

  lemma {:induction false} FileComesFrom(entries: seq<Entry>, at: Path, recursive: bool, p: Path) returns (k: nat)
    requires p in Files(entries, at, recursive)
    ensures k < |entries| && p in FilesOf(entries[k], at, recursive)
  {
    if p in FilesOf(entries[0], at, recursive) {
      k := 0;
    } else {
      k := FileComesFrom(entries[1..], at, recursive, p);
      k := k + 1;
    }
  }

  lemma {:induction false} WalkIncreases(entries: seq<Entry>, at: Path, recursive: bool)
    requires Scanned(entries)
    ensures Increasing(Files(entries, at, recursive))
  {
    if entries != [] {
      var e := entries[0];
      var first, rest := FilesOf(e, at, recursive), Files(entries[1..], at, recursive);
      WalkIncreases(entries[1..], at, recursive);
      if e.node.Dir? {
        WalkIncreases(e.node.entries, at + [e.name], recursive);
      }
      forall p, q | p in first && q in rest ensures PathLess(p, q) {
        var k := FileComesFrom(entries[1..], at, recursive, q);
        FileStartsAt(e, at, recursive, p);
        FileStartsAt(entries[k + 1], at, recursive, q);
        PathLessAfter(at, e.name, entries[k + 1].name, p, q);
      }
      ConcatIncreases(first, rest);
    }
  }

  lemma ConcatIncreases(first: seq<Path>, rest: seq<Path>)
    requires Increasing(first) && Increasing(rest) && forall p, q :: p in first && q in rest ==> PathLess(p, q)
    ensures Increasing(first + rest)
  {
    var s := first + rest;
    forall i, j | 0 <= i < j < |s| ensures PathLess(s[i], s[j]) {
      if i < |first| <= j {
        assert s[i] in first && s[j] in rest;
      }
    }
  }

  /** The walk lists what sorting the reachable files lists. */
  lemma WalkIsSorted(entries: seq<Entry>, recursive: bool, sorted: seq<Path>)
    requires Scanned(entries) && Increasing(sorted)
    requires forall p :: p in sorted <==> Resolves(entries, p, recursive)
    ensures Files(entries, [], recursive) == sorted
  {
    WalkIncreases(entries, [], recursive);
    forall p ensures p in Files(entries, [], recursive) <==> p in sorted {
      FilesAreResolved(entries, [], p, recursive);
      assert [] + p == p;
    }
    IncreasingUnique(Files(entries, [], recursive), sorted);
  }

  lemma WalkLists(entries: seq<Entry>, root: Path, recursive: bool)
    ensures forall rel :: root + rel in Files(entries, root, recursive) <==> Resolves(entries, rel, recursive)
    ensures forall p :: p in Files(entries, root, recursive) ==> root < p
    ensures Scanned(entries) ==> Increasing(Files(entries, root, recursive))
  {
    forall rel ensures root + rel in Files(entries, root, recursive) <==> Resolves(entries, rel, recursive) {
      FilesAreResolved(entries, root, rel, recursive);
    }
    forall p | p in Files(entries, root, recursive) ensures root < p {
      FilesStartAt(entries, root, recursive, p);
    }
    if Scanned(entries) { WalkIncreases(entries, root, recursive); }
  }

  // ------------------------------------------------------------------ the stack

  function FilesOfItem(i: Item, recursive: bool): seq<Path> {
    match i
    case FileItem(path) => [path]
    case DirItem(path, entries) => Files(entries, path, recursive)
  }

  /** What is still to come; the top of the stack is its end. */
  function FilesOfStack(stack: seq<Item>, recursive: bool): seq<Path> {
    if stack == [] then []
    else FilesOfItem(stack[|stack| - 1], recursive) + FilesOfStack(stack[..|stack| - 1], recursive)
  }

  function FilesOfItems(items: seq<Item>, recursive: bool): seq<Path> {
    if items == [] then []
    else FilesOfItems(items[..|items| - 1], recursive) + FilesOfItem(items[|items| - 1], recursive)
  }

  function Reversed(items: seq<Item>): seq<Item> {
    if items == [] then [] else [items[|items| - 1]] + Reversed(items[..|items| - 1])
  }

  lemma {:induction false} PushReversed(stack: seq<Item>, items: seq<Item>, recursive: bool)
    ensures FilesOfStack(stack + Reversed(items), recursive) == FilesOfItems(items, recursive) + FilesOfStack(stack, recursive)
    decreases |items|
  {
    if items == [] {
      assert stack + Reversed(items) == stack;
    } else {
      var init, last := items[..|items| - 1], items[|items| - 1];
      assert stack + Reversed(items) == (stack + [last]) + Reversed(init);
      PushReversed(stack + [last], init, recursive);
      PushFiles(stack, last, recursive);
      Regroup(FilesOfItems(init, recursive), FilesOfItem(last, recursive), FilesOfStack(stack, recursive));
    }
  }

  lemma Regroup(a: seq<Path>, b: seq<Path>, c: seq<Path>)
    ensures a + (b + c) == (a + b) + c
  {
  }

  lemma PushFiles(stack: seq<Item>, i: Item, recursive: bool)
    ensures FilesOfStack(stack + [i], recursive) == FilesOfItem(i, recursive) + FilesOfStack(stack, recursive)
  {
    assert (stack + [i])[..|stack|] == stack;
  }

  function Weight(entries: seq<Entry>): nat {
    if entries == [] then 0
    else 1 + (if entries[0].node.Dir? then Weight(entries[0].node.entries) else 0) + Weight(entries[1..])
  }

  function ItemWeight(i: Item): nat {
    1 + (if i.DirItem? then Weight(i.entries) else 0)
  }

  function StackWeight(stack: seq<Item>): nat {
    if stack == [] then 0 else StackWeight(stack[..|stack| - 1]) + ItemWeight(stack[|stack| - 1])
  }

  lemma PushWeight(stack: seq<Item>, i: Item)
    ensures StackWeight(stack + [i]) == StackWeight(stack) + ItemWeight(i)
  {
    assert (stack + [i])[..|stack|] == stack;
  }

  lemma {:induction false} ReversedWeight(stack: seq<Item>, items: seq<Item>)
    ensures StackWeight(stack + Reversed(items)) == StackWeight(stack) + StackWeight(items)
    decreases |items|
  {
    if items == [] {
      assert stack + Reversed(items) == stack;
    } else {
      var init, last := items[..|items| - 1], items[|items| - 1];
      assert stack + Reversed(items) == (stack + [last]) + Reversed(init);
      ReversedWeight(stack + [last], init);
      PushWeight(stack, last);
    }
  }

  // ------------------------------------------------------------------ how far the stack grows

  function Depth(entries: seq<Entry>): nat {
    if entries == [] then 0
    else Max(1 + (if entries[0].node.Dir? then Depth(entries[0].node.entries) else 0), Depth(entries[1..]))
  }

  function Width(entries: seq<Entry>): nat
    decreases entries, 1
  {
    Max(|entries|, WidestBelow(entries))
  }

  function WidestBelow(entries: seq<Entry>): nat
    decreases entries, 0
  {
    if entries == [] then 0
    else Max(if entries[0].node.Dir? then Width(entries[0].node.entries) else 0, WidestBelow(entries[1..]))
  }

  /** An item at depth `d` of a walk of a tree `depth` deep and `width` wide. */
  predicate Fits(i: Item, root: Path, depth: nat, width: nat) {
    && |root| <= |i.path| <= |root| + depth
    && (i.DirItem? ==> |i.path| - |root| + Depth(i.entries) <= depth && Width(i.entries) <= width)
  }

  /** Siblings left waiting above depth `d`: all but one of each level. */
  function Slots(d: nat, width: nat): nat
    requires width > 0
  {
    if d == 0 then 0 else Slots(d - 1, width) + (width - 1)
  }

  lemma {:induction false} SlotsMonotone(a: nat, b: nat, width: nat)
    requires a <= b && width > 0
    ensures Slots(a, width) <= Slots(b, width)
  {
    if a < b { SlotsMonotone(a, b - 1, width); }
  }

  lemma {:induction false} SlotsBound(d: nat, width: nat)
    requires d > 0 && width > 0
    ensures 1 + Slots(d, width) <= d * width
  {
    if d > 1 {
      SlotsBound(d - 1, width);
      assert (d - 1) * width + width == d * width;
    } else {
      assert Slots(d, width) == Slots(0, width) + width - 1;
    }
  }

  /** The k-th item from the bottom has at least k slots above it. */
  predicate Shallow(stack: seq<Item>, root: Path, depth: nat, width: nat)
    requires width > 0
  {
    forall k :: 0 <= k < |stack| ==> Fits(stack[k], root, depth, width) && k <= Slots(|stack[k].path| - |root|, width)
  }

  lemma {:induction false} ReversedItems(items: seq<Item>)
    ensures |Reversed(items)| == |items|
    ensures forall i :: i in Reversed(items) ==> i in items
  {
    if items != [] {
      ReversedItems(items[..|items| - 1]);
    }
  }

  lemma PushKeepsShallow(stack: seq<Item>, items: seq<Item>, root: Path, depth: nat, width: nat, parent: nat)
    requires width > 0 && Shallow(stack, root, depth, width)
    requires |root| <= parent && |stack| <= Slots(parent - |root|, width) && |items| <= width
    requires forall i :: i in items ==> Fits(i, root, depth, width) && |i.path| == parent + 1
    ensures Shallow(stack + Reversed(items), root, depth, width)
  {
    ReversedItems(items);
    var s := stack + Reversed(items);
    forall k | 0 <= k < |s| ensures Fits(s[k], root, depth, width) && k <= Slots(|s[k].path| - |root|, width) {
      if k >= |stack| {
        assert s[k] == Reversed(items)[k - |stack|];
        assert s[k] in items;
      }
    }
  }

  lemma LowSlots(i: Item, below: nat, root: Path, depth: nat, width: nat)
    requires width > 0 && Fits(i, root, depth, width) && below <= Slots(|i.path| - |root|, width)
    ensures below <= Slots(depth, width)
  {
    SlotsMonotone(|i.path| - |root|, depth, width);
  }

  lemma TopIsShallow(stack: seq<Item>, root: Path, depth: nat, width: nat)
    requires width > 0 && Shallow(stack, root, depth, width) && stack != []
    ensures var top := stack[|stack| - 1];
            Fits(top, root, depth, width) && |stack| - 1 <= Slots(|top.path| - |root|, width)
  {
  }

  lemma ShallowMeansSmall(stack: seq<Item>, root: Path, depth: nat, width: nat)
    requires width > 0 && Shallow(stack, root, depth, width)
    ensures |stack| <= 1 + Slots(depth, width)
  {
    if stack != [] {
      TopIsShallow(stack, root, depth, width);
      LowSlots(stack[|stack| - 1], |stack| - 1, root, depth, width);
    }
  }

  lemma {:induction false} PartBounds(entries: seq<Entry>, k: nat)
    requires k < |entries|
    ensures var inner := entries[k].node;
            && Depth(entries) >= 1
            && (inner.Dir? ==> 1 + Depth(inner.entries) <= Depth(entries) && Width(inner.entries) <= WidestBelow(entries))
    decreases k
  {
    if k > 0 { PartBounds(entries[1..], k - 1); }
  }

  predicate ChildItem(i: Item, current: Path, entries: seq<Entry>) {
    |i.path| == |current| + 1 && Fits(i, current, Depth(entries), Width(entries))
  }

  lemma FitsWithin(i: Item, current: Path, entries: seq<Entry>, root: Path, depth: nat, width: nat)
    requires ChildItem(i, current, entries) && Fits(DirItem(current, entries), root, depth, width)
    ensures Fits(i, root, depth, width)
  {
  }

  /** What an entry puts on the stack. */
  function ItemsOf(e: Entry, current: Path, recursive: bool): seq<Item> {
    if !SafeName(e.name) then []
    else match e.node
         case Dir(inner) => if Entered(e.name, recursive) then [DirItem(current + [e.name], inner)] else []
         case File => [FileItem(current + [e.name])]
         case Other => []
  }

  lemma ItemsOfEntry(entries: seq<Entry>, k: nat, current: Path, recursive: bool, before: seq<Item>)
    requires k < |entries|
    ensures var items := ItemsOf(entries[k], current, recursive);
            && FilesOfItems(before + items, recursive) == FilesOfItems(before, recursive) + FilesOf(entries[k], current, recursive)
            && StackWeight(before + items) + Weight(entries[k + 1..]) <= StackWeight(before) + Weight(entries[k..])
            && forall i :: i in items ==> ChildItem(i, current, entries)
  {
    var e, items := entries[k], ItemsOf(entries[k], current, recursive);
    assert entries[k..][0] == e && entries[k..][1..] == entries[k + 1..];
    PartBounds(entries, k);
    if items == [] {
      assert before + items == before;
    } else {
      assert items == [items[0]] && (before + items)[..|before|] == before;
      PushWeight(before, items[0]);
    }
  }

  /** The frontier after `k` entries. */
  predicate FrontierOk(frontier: seq<Item>, entries: seq<Entry>, k: nat, current: Path, recursive: bool)
    requires k <= |entries|
  {
    && FilesOfItems(frontier, recursive) + Files(entries[k..], current, recursive) == Files(entries, current, recursive)
    && StackWeight(frontier) + Weight(entries[k..]) <= Weight(entries)
    && |frontier| <= k
    && forall i :: i in frontier ==> ChildItem(i, current, entries)
  }

  lemma FrontierGrows(frontier: seq<Item>, entries: seq<Entry>, k: nat, current: Path, recursive: bool)
    requires k < |entries| && FrontierOk(frontier, entries, k, current, recursive)
    ensures FrontierOk(frontier + ItemsOf(entries[k], current, recursive), entries, k + 1, current, recursive)
  {
    ItemsOfEntry(entries, k, current, recursive, frontier);
    var before, here := FilesOfItems(frontier, recursive), FilesOf(entries[k], current, recursive);
    var later := Files(entries[k + 1..], current, recursive);
    assert Files(entries[k..], current, recursive) == here + later by {
      assert entries[k..][0] == entries[k] && entries[k..][1..] == entries[k + 1..];
    }
    assert (before + here) + later == before + (here + later);
  }

  /** One directory's share of the stack, in name order. */
  method Frontier(entries: seq<Entry>, current: Path, recursive: bool) returns (frontier: seq<Item>)
    ensures FilesOfItems(frontier, recursive) == Files(entries, current, recursive)
    ensures StackWeight(frontier) <= Weight(entries) && |frontier| <= |entries|
    ensures forall i :: i in frontier ==> ChildItem(i, current, entries)
  {
    frontier := [];
    for k := 0 to |entries|
      invariant FrontierOk(frontier, entries, k, current, recursive)
    {
      var e := entries[k];
      FrontierGrows(frontier, entries, k, current, recursive);
      ghost var grown := frontier + ItemsOf(e, current, recursive);
      if SafeName(e.name) {
        var child := current + [e.name];
        match e.node {
          case Dir(inner) =>
            if Entered(e.name, recursive) {
              frontier := frontier + [DirItem(child, inner)];
            }
          case File => frontier := frontier + [FileItem(child)];
          case Other =>
        }
      }
      assert frontier == grown;
    }
    assert entries[|entries|..] == [];
  }

  /** What each turn of the walk keeps. */
  predicate WalkOk(files: seq<Path>, stack: seq<Item>, root: Path, entries: seq<Entry>, recursive: bool) {
    && files + FilesOfStack(stack, recursive) == Files(entries, root, recursive)
    && Shallow(stack, root, Depth(entries), Max(Width(entries), 1))
  }

  lemma AfterFile(files: seq<Path>, stack: seq<Item>, root: Path, entries: seq<Entry>, recursive: bool)
    requires WalkOk(files, stack, root, entries, recursive) && stack != [] && stack[|stack| - 1].FileItem?
    ensures WalkOk(files + [stack[|stack| - 1].path], stack[..|stack| - 1], root, entries, recursive)
  {
  }

  lemma AfterDir(files: seq<Path>, stack: seq<Item>, root: Path, entries: seq<Entry>, recursive: bool, frontier: seq<Item>)
    requires WalkOk(files, stack, root, entries, recursive) && stack != [] && stack[|stack| - 1].DirItem?
    requires FilesOfItems(frontier, recursive) == FilesOfItem(stack[|stack| - 1], recursive)
    requires StackWeight(frontier) <= Weight(stack[|stack| - 1].entries) && |frontier| <= |stack[|stack| - 1].entries|
    requires forall i :: i in frontier ==> ChildItem(i, stack[|stack| - 1].path, stack[|stack| - 1].entries)
    ensures WalkOk(files, stack[..|stack| - 1] + Reversed(frontier), root, entries, recursive)
    ensures StackWeight(stack[..|stack| - 1] + Reversed(frontier)) < StackWeight(stack)
  {
    var top, rest := stack[|stack| - 1], stack[..|stack| - 1];
    PushReversed(rest, frontier, recursive);
    ReversedWeight(rest, frontier);
    DirKeepsShallow(stack, root, Depth(entries), Max(Width(entries), 1), frontier);
  }

  lemma PopShallow(stack: seq<Item>, root: Path, depth: nat, width: nat)
    requires width > 0 && Shallow(stack, root, depth, width) && stack != []
    ensures var top := stack[|stack| - 1];
            Fits(top, root, depth, width) && |stack| - 1 <= Slots(|top.path| - |root|, width)
    ensures Shallow(stack[..|stack| - 1], root, depth, width)
  {
  }

  lemma DirKeepsShallow(stack: seq<Item>, root: Path, depth: nat, width: nat, frontier: seq<Item>)
    requires width > 0 && Shallow(stack, root, depth, width) && stack != [] && stack[|stack| - 1].DirItem?
    requires |frontier| <= |stack[|stack| - 1].entries|
    requires forall i :: i in frontier ==> ChildItem(i, stack[|stack| - 1].path, stack[|stack| - 1].entries)
    ensures Shallow(stack[..|stack| - 1] + Reversed(frontier), root, depth, width)
  {
    var top := stack[|stack| - 1];
    PopShallow(stack, root, depth, width);
    forall i | i in frontier ensures Fits(i, root, depth, width) {
      FitsWithin(i, top.path, top.entries, root, depth, width);
    }
    PushKeepsShallow(stack[..|stack| - 1], frontier, root, depth, width, |top.path|);
  }

  /** The walk. `peak` is the largest size its stack reaches. */
  method Walk(root: Path, entries: seq<Entry>, recursive: bool) returns (files: seq<Path>, ghost peak: nat)
    ensures files == Files(entries, root, recursive)
    ensures forall rel :: root + rel in files <==> Resolves(entries, rel, recursive)
    ensures forall p :: p in files ==> root < p
    ensures Scanned(entries) ==> Increasing(files)
    ensures peak <= Max(1, Depth(entries) * Width(entries))
  {
    var stack := [DirItem(root, entries)];
    files, peak := [], 1;
    while stack != []
      invariant WalkOk(files, stack, root, entries, recursive)
      invariant |stack| <= peak <= 1 + Slots(Depth(entries), Max(Width(entries), 1))
      decreases StackWeight(stack)
    {
      var current := stack[|stack| - 1];
      ghost var before := stack;
      stack := stack[..|stack| - 1];
      match current {
        case FileItem(path) =>
          AfterFile(files, before, root, entries, recursive);
          files := files + [path];
        case DirItem(path, inner) =>
          var frontier := Frontier(inner, path, recursive);
          AfterDir(files, before, root, entries, recursive, frontier);
          stack := stack + Reversed(frontier);
      }
      ShallowMeansSmall(stack, root, Depth(entries), Max(Width(entries), 1));
      peak := if |stack| > peak then |stack| else peak;
    }
    if Depth(entries) > 0 {
      SlotsBound(Depth(entries), Max(Width(entries), 1));
    }
    WalkLists(entries, root, recursive);
  }
}
