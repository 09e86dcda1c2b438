/** Looking at the current workspace before a restore: the scan and the excluded-state probe. */
module WorkspaceScan {
  import opened Wrappers
  import opened FileTree
  import opened TreeWalk
  import opened SnapshotExtraction

  datatype Kind = DirEntry | FileEntry | SymlinkEntry

  /** Everything within the rollback scope, other than the root. */
  ghost function VisibleEntries(t: Tree): set<Path> {
    set p | p in t && p != [] && Visible(p)
  }

  ghost predicate NoVisibleSpecial(t: Tree) {
    forall p :: p in VisibleEntries(t) ==> !t[p].Special?
  }

  ghost predicate Scannable(t: Tree) {
    NoVisibleSpecial(t) && |VisibleEntries(t)| <= MAX_ARCHIVE_MEMBERS
  }

  predicate IsKind(node: Node, kind: Kind) {
    match kind
    case DirEntry => node.Dir?
    case FileEntry => node.File?
    case SymlinkEntry => node.Symlink?
  }

  /** current lists exactly the visible entries of t, each with its kind. */
  ghost predicate IsScanOf(current: map<Path, Kind>, t: Tree) {
    && current.Keys == VisibleEntries(t)
    && forall p :: p in current ==> IsKind(t[p], current[p])
  }

  lemma VisibleStepwise(p: Path)
    requires p != []
    ensures Visible(p) <==> Visible(Parent(p)) && !IsExcludedName(Name(p))
  {
    if Visible(p) {
      VisiblePrefix(Parent(p), p);
    }
    forall i | 0 <= i < |p| - 1 ensures Parent(p)[i] == p[i] { }
  }

  lemma HiddenBelowHidden(t: Tree, c: Path)
    requires !Visible(c)
    ensures AtOrBelow(VisibleEntries(t), c) == {}
  {
    forall p | p in VisibleEntries(t) ensures p != c && !Below(c, p) {
      if p == c || Below(c, p) { VisiblePrefix(c, p); }
    }
  }

  lemma OneCardinal(s: set<Path>, c: Path, whole: set<Path>)
    requires c !in s && s <= whole && c in whole
    ensures |s + {c}| == |s| + 1 <= |whole|
  {
    CardinalMonotone(s + {c}, whole);
  }

  lemma {:induction false} CardinalMonotone(s: set<Path>, whole: set<Path>)
    requires s <= whole
    ensures |s| <= |whole|
    decreases s
  {
    if s != {} {
      var c :| c in s;
      CardinalMonotone(s - {c}, whole - {c});
    }
  }

  class Scanner {
    const tree: Tree
    var entries: map<Path, Kind>
    var count: nat

    constructor (t: Tree)
      requires WellFormed(t)
      ensures tree == t && entries == map[] && Valid()
    {
      tree, entries, count := t, map[], 0;
    }

    ghost predicate Valid()
      reads this
    {
      && WellFormed(tree)
      && entries.Keys <= VisibleEntries(tree)
      && (forall p :: p in entries ==> IsKind(tree[p], entries[p]))
      && count == |entries.Keys| <= MAX_ARCHIVE_MEMBERS
    }

    method VisitEntry(c: Path) returns (failed: Option<RestoreError>)
      requires Valid()
      requires c in tree && c != [] && Visible(Parent(c))
      requires AtOrBelow(VisibleEntries(tree), c) !! entries.Keys
      modifies this
      ensures failed.None? ==>
                Valid() && entries.Keys == old(entries.Keys) + AtOrBelow(VisibleEntries(tree), c)
      ensures failed.Some? ==> !Scannable(tree)
      decreases StrictlyBelow(tree.Keys, c), 1
    {
      VisibleStepwise(c);
      if IsExcludedName(Name(c)) {
        HiddenBelowHidden(tree, c);
        return None;
      }
      EntryAndBelow(tree, VisibleEntries(tree), c, entries.Keys);
      OneCardinal(entries.Keys, c, VisibleEntries(tree));
      count := count + 1;
      if count > MAX_ARCHIVE_MEMBERS { return Some(TooManyEntries); }
      if tree[c].Symlink? {
        Record(c, SymlinkEntry);
        return None;
      }
      if tree[c].Dir? {
        Record(c, DirEntry);
        failed := Visit(c);
        return;
      }
      if tree[c].File? {
        Record(c, FileEntry);
        return None;
      }
      return Some(UnsupportedEntry);
    }

    method Record(c: Path, kind: Kind)
      requires WellFormed(tree) && entries.Keys <= VisibleEntries(tree)
      requires forall p :: p in entries ==> IsKind(tree[p], entries[p])
      requires c in VisibleEntries(tree) && c !in entries && IsKind(tree[c], kind)
      requires count == |entries.Keys| + 1 <= MAX_ARCHIVE_MEMBERS
      modifies this`entries
      ensures Valid() && entries.Keys == old(entries.Keys) + {c}
    {
      entries := entries[c := kind];
      assert |entries.Keys| == |old(entries.Keys)| + 1;
    }

    method Visit(d: Path) returns (failed: Option<RestoreError>)
      requires Valid()
      requires d in tree && tree[d].Dir? && Visible(d)
      requires StrictlyBelow(VisibleEntries(tree), d) !! entries.Keys
      modifies this
      ensures failed.None? ==>
                Valid() && entries.Keys == old(entries.Keys) + StrictlyBelow(VisibleEntries(tree), d)
      ensures failed.Some? ==> !Scannable(tree)
      decreases StrictlyBelow(tree.Keys, d), 0
    {
      ghost var before := entries.Keys;
      var todo := set q | q in tree && q != [] && Parent(q) == d;
      while todo != {}
        invariant Valid()
        invariant todo <= ChildrenOf(tree, d)
        invariant entries.Keys == before + UnderAny(VisibleEntries(tree), ChildrenOf(tree, d) - todo)
        decreases todo
      {
        var c :| c in todo;
        NextSibling(tree, VisibleEntries(tree), d, todo, c, before);
        FewerBelow(tree, d, c);
        failed := VisitEntry(c);
        if failed.Some? { return; }
        todo := todo - {c};
      }
      failed := None;
      AllSiblings(tree, VisibleEntries(tree), d, ChildrenOf(tree, d), todo);
    }
  }

  /** Lists the rollback-visible entries, or refuses the workspace. */
  method ScanCurrentWorkspace(t: Tree) returns (r: Result<map<Path, Kind>, RestoreError>)
    requires WellFormed(t)
    ensures r.Success? <==> Scannable(t)
    ensures r.Success? ==> IsScanOf(r.value, t)
  {
    var scanner := new Scanner(t);
    var failed := scanner.Visit([]);
    if failed.Some? { return Failure(failed.value); }
    var entries := scanner.entries;
    assert entries.Keys == VisibleEntries(t);
    var paths := entries.Keys;
    forall p | p in VisibleEntries(t) ensures !t[p].Special? {
      assert IsKind(t[p], entries[p]);
    }
    r := Success(entries);
  }

  /** Whether anything out of scope lies below a visible directory. */
  method ContainsExcludedDescendant(t: Tree, d: Path) returns (found: bool)
    requires WellFormed(t) && d in t && t[d].Dir? && Visible(d)
    ensures found <==> Keeps(t, d)
    decreases StrictlyBelow(t.Keys, d)
  {
    var todo := set q | q in t && q != [] && Parent(q) == d;
    while todo != {}
      invariant todo <= ChildrenOf(t, d)
      invariant forall c :: c in ChildrenOf(t, d) - todo ==> Visible(c) && !Keeps(t, c)
      decreases todo
    {
      var c :| c in todo;
      todo := todo - {c};
      VisibleStepwise(c);
      assert Below(d, c);
      if IsExcludedName(Name(c)) { return true; }
      if t[c].Dir? {
        FewerBelow(t, d, c);
        var below := ContainsExcludedDescendant(t, c);
        if below {
          KeepsUpward(t, c);
          return true;
        }
      } else {
        NothingKeptBelowFile(t, c);
      }
    }
    found := false;
    forall q | q in t && Below(d, q) ensures Visible(q) {
      var c := ChildTowards(t, d, q);
      assert c in ChildrenOf(t, d);
      assert c == q || Visible(q) || Keeps(t, c);
    }
  }

  lemma NothingKeptBelowFile(t: Tree, c: Path)
    requires WellFormed(t) && c in t && !t[c].Dir?
    ensures !Keeps(t, c)
  {
    if Keeps(t, c) {
      KeepsIsDirectory(t, c);
      assert false;
    }
  }
}
