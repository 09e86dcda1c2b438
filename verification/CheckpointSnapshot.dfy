/**
 Capturing a workspace: the recursive walk of checkpoint_snapshot.py and the archive it
 produces.  The tree is never written here.
 */
module CheckpointSnapshot {
  import opened Wrappers
  import opened FileTree
  import opened MemberPaths
  import opened ByteCounts
  import opened TreeWalk

  const DEFAULT_MAX_FILES: int := 20_000
  const DEFAULT_MAX_TOTAL_BYTES: int := 512 * 1024 * 1024
  const DEFAULT_MAX_FILE_BYTES: int := 128 * 1024 * 1024

  datatype Limits = Limits(maxFiles: int, maxTotalBytes: int, maxFileBytes: int)

  const DEFAULT_LIMITS := Limits(DEFAULT_MAX_FILES, DEFAULT_MAX_TOTAL_BYTES, DEFAULT_MAX_FILE_BYTES)

  datatype SnapshotError =
    | SymbolicLink
    | UnsupportedEntry
    | FileTooLarge
    | TooManyFiles
    | TooManyBytes

  // ---- what a capture is meant to contain ----

  /** The walk does not enter this entry: the volatile names count for directories only. */
  predicate SkippedEntry(t: Tree, q: Path)
    requires q != []
  {
    || Name(q) in ALWAYS_EXCLUDED_NAMES
    || (Name(q) in VOLATILE_DIRECTORY_NAMES && q in t && t[q].Dir?)
  }

  predicate Skipped(t: Tree, p: Path) {
    exists k :: 1 <= k <= |p| && SkippedEntry(t, p[..k])
  }

  ghost function CapturedPaths(t: Tree): set<Path> {
    set p | p in t && p != [] && !Skipped(t, p)
  }

  ghost function CapturedFiles(t: Tree): map<Path, Bytes> {
    map p | p in CapturedPaths(t) && t[p].File? :: t[p].content
  }

  ghost predicate Capturable(t: Tree, limits: Limits) {
    && (forall p :: p in CapturedPaths(t) ==>
          t[p].Dir? || (t[p].File? && |t[p].content| <= limits.maxFileBytes))
    && (CapturedFiles(t) != map[] ==>
          && |CapturedFiles(t)| <= limits.maxFiles
          && TotalSize(CapturedFiles(t)) <= limits.maxTotalBytes)
  }

  lemma SkippedStepwise(t: Tree, p: Path)
    requires p != []
    ensures Skipped(t, p) <==> Skipped(t, Parent(p)) || SkippedEntry(t, p)
  {
    assert p[..|p|] == p;
    forall k | 1 <= k <= |p| - 1 ensures p[..k] == Parent(p)[..k] { }
    if Skipped(t, Parent(p)) {
      var k :| 1 <= k <= |p| - 1 && SkippedEntry(t, Parent(p)[..k]);
      assert SkippedEntry(t, p[..k]);
    }
    if Skipped(t, p) {
      var k :| 1 <= k <= |p| && SkippedEntry(t, p[..k]);
      assert k == |p| || SkippedEntry(t, Parent(p)[..k]);
    }
  }

  lemma SkippedDownward(t: Tree, p: Path, q: Path)
    requires Skipped(t, p) && (p == q || Below(p, q))
    ensures Skipped(t, q)
  {
    var k :| 1 <= k <= |p| && SkippedEntry(t, p[..k]);
    assert q[..k] == p[..k];
  }

  ghost function FilesAmong(t: Tree, paths: set<Path>): map<Path, Bytes> {
    map p | p in paths && p in CapturedFiles(t) :: CapturedFiles(t)[p]
  }

  lemma FilesAmongWith(t: Tree, paths: set<Path>, c: Path)
    requires c in CapturedPaths(t) && c !in paths
    ensures !t[c].File? ==> FilesAmong(t, paths + {c}) == FilesAmong(t, paths)
    ensures t[c].File? ==>
              && FilesAmong(t, paths + {c}) == FilesAmong(t, paths)[c := t[c].content]
              && |FilesAmong(t, paths + {c})| == |FilesAmong(t, paths)| + 1
              && TotalSize(FilesAmong(t, paths + {c})) == TotalSize(FilesAmong(t, paths)) + |t[c].content|
  {
    if t[c].File? {
      var files := FilesAmong(t, paths);
      assert c in CapturedFiles(t) && c !in files;
      assert FilesAmong(t, paths + {c}) == files[c := t[c].content];
      TotalSizeWith(files, c, t[c].content);
      assert files[c := t[c].content].Keys == files.Keys + {c};
      assert |files[c := t[c].content].Keys| == |files.Keys| + 1;
    } else {
      assert c !in CapturedFiles(t);
      assert FilesAmong(t, paths + {c}) == FilesAmong(t, paths);
    }
  }

  // ---- the walk ----

  /** Each entry comes after the directory that holds it. */
  ghost predicate ParentsFirst(entries: seq<Path>) {
    forall i :: 0 <= i < |entries| ==>
      entries[i] != [] && (Parent(entries[i]) == [] || Parent(entries[i]) in entries[..i])
  }

  ghost predicate Distinct(entries: seq<Path>) {
    forall i, j :: 0 <= i < j < |entries| ==> entries[i] != entries[j]
  }

  ghost function SetOf(entries: seq<Path>): set<Path> {
    set p | p in entries
  }

  /** What the walk has established about the entries it has appended so far. */
  ghost predicate Walked(t: Tree, limits: Limits, entries: seq<Path>) {
    && Distinct(entries) && ParentsFirst(entries)
    && SetOf(entries) <= CapturedPaths(t)
    && (forall p :: p in SetOf(entries) ==>
          t[p].Dir? || (t[p].File? && |t[p].content| <= limits.maxFileBytes))
  }

  lemma WalkedOneMore(t: Tree, limits: Limits, entries: seq<Path>, c: Path)
    requires Walked(t, limits, entries) && c in CapturedPaths(t) && c !in SetOf(entries)
    requires Parent(c) == [] || Parent(c) in SetOf(entries)
    requires t[c].Dir? || (t[c].File? && |t[c].content| <= limits.maxFileBytes)
    ensures Walked(t, limits, entries + [c])
    ensures SetOf(entries + [c]) == SetOf(entries) + {c}
  {
    var longer := entries + [c];
    forall i | 0 <= i < |longer|
      ensures longer[i] != [] && (Parent(longer[i]) == [] || Parent(longer[i]) in longer[..i])
    {
      assert longer[..|entries|] == entries;
      if i < |entries| {
        assert longer[..i] == entries[..i];
      }
    }
  }

  lemma NothingCapturedAt(t: Tree, c: Path)
    requires Skipped(t, c)
    ensures AtOrBelow(CapturedPaths(t), c) == {}
  {
    forall p | p in CapturedPaths(t) ensures p != c && !Below(c, p) {
      if p == c || Below(c, p) { SkippedDownward(t, c, p); }
    }
  }

  class Walker {
    const tree: Tree
    const limits: Limits
    var entries: seq<Path>
    var fileCount: nat
    var totalBytes: nat

    constructor (t: Tree, limits: Limits)
      requires WellFormed(t)
      ensures tree == t && this.limits == limits
      ensures entries == [] && Valid()
    {
      tree, this.limits := t, limits;
      entries, fileCount, totalBytes := [], 0, 0;
    }

    ghost predicate Valid()
      reads this
    {
      && WellFormed(tree)
      && Walked(tree, limits, entries)
      && Counted()
    }

    ghost predicate Counted()
      reads this
    {
      var files := FilesAmong(tree, SetOf(entries));
      && fileCount == |files|
      && totalBytes == TotalSize(files)
      && (files != map[] ==> fileCount <= limits.maxFiles && totalBytes <= limits.maxTotalBytes)
    }

    /** Appends a directory. */
    method TakeDirectory(c: Path)
      requires Valid() && c in CapturedPaths(tree) && tree[c].Dir? && c !in SetOf(entries)
      requires Parent(c) == [] || Parent(c) in SetOf(entries)
      modifies this
      ensures Valid() && SetOf(entries) == old(SetOf(entries)) + {c}
    {
      FilesAmongWith(tree, SetOf(entries), c);
      WalkedOneMore(tree, limits, entries, c);
      entries := entries + [c];
    }

    /** Checks an entry that is not a directory against the limits, and appends it. */
    method TakeFile(c: Path) returns (failed: Option<SnapshotError>)
      requires Valid() && c in CapturedPaths(tree) && !tree[c].Dir? && c !in SetOf(entries)
      requires Parent(c) == [] || Parent(c) in SetOf(entries)
      modifies this
      ensures failed.None? ==> Valid() && SetOf(entries) == old(SetOf(entries)) + {c}
      ensures failed.Some? ==> !Capturable(tree, limits)
    {
      if !tree[c].File? { return Some(UnsupportedEntry); }
      var size := |tree[c].content|;
      if size > limits.maxFileBytes { return Some(FileTooLarge); }
      FilesAmongWith(tree, SetOf(entries), c);
      TotalSizeMonotone(FilesAmong(tree, SetOf(entries) + {c}), CapturedFiles(tree));
      assert c in CapturedFiles(tree);
      fileCount := fileCount + 1;
      totalBytes := totalBytes + size;
      if fileCount > limits.maxFiles { return Some(TooManyFiles); }
      if totalBytes > limits.maxTotalBytes { return Some(TooManyBytes); }
      WalkedOneMore(tree, limits, entries, c);
      entries := entries + [c];
      failed := None;
    }

    /** Appends one entry and, for a directory it enters, everything captured below it. */
    method VisitEntry(c: Path) returns (failed: Option<SnapshotError>)
      requires Valid()
      requires c in tree && c != [] && !Skipped(tree, Parent(c))
      requires Parent(c) == [] || Parent(c) in SetOf(entries)
      requires AtOrBelow(CapturedPaths(tree), c) !! SetOf(entries)
      modifies this
      ensures failed.None? ==> Valid() && SetOf(entries) == old(SetOf(entries)) + AtOrBelow(CapturedPaths(tree), c)
      ensures failed.Some? ==> !Capturable(tree, limits)
      decreases StrictlyBelow(tree.Keys, c), 1
    {
      SkippedStepwise(tree, c);
      if SkippedEntry(tree, c) {
        NothingCapturedAt(tree, c);
        return None;
      }
      if tree[c].Symlink? { return Some(SymbolicLink); }
      EntryAndBelow(tree, CapturedPaths(tree), c, SetOf(entries));
      if tree[c].Dir? {
        TakeDirectory(c);
        failed := Visit(c);
      } else {
        failed := TakeFile(c);
      }
    }

    /** Appends everything captured strictly below d, or reports why the tree is refused. */
    method Visit(d: Path) returns (failed: Option<SnapshotError>)
      requires Valid()
      requires d in tree && tree[d].Dir? && !Skipped(tree, d)
      requires d == [] || d in SetOf(entries)
      requires StrictlyBelow(CapturedPaths(tree), d) !! SetOf(entries)
      modifies this
      ensures failed.None? ==> Valid() && SetOf(entries) == old(SetOf(entries)) + StrictlyBelow(CapturedPaths(tree), d)
      ensures failed.Some? ==> !Capturable(tree, limits)
      decreases StrictlyBelow(tree.Keys, d), 0
    {
      ghost var before := SetOf(entries);
      var todo := set q | q in tree && q != [] && Parent(q) == d;
      while todo != {}
        invariant Valid()
        invariant todo <= ChildrenOf(tree, d)
        invariant SetOf(entries) == before + UnderAny(CapturedPaths(tree), ChildrenOf(tree, d) - todo)
        decreases todo
      {
        var c :| c in todo;
        NextSibling(tree, CapturedPaths(tree), d, todo, c, before);
        FewerBelow(tree, d, c);
        failed := VisitEntry(c);
        if failed.Some? { return; }
        todo := todo - {c};
      }
      failed := None;
      AllSiblings(tree, CapturedPaths(tree), d, ChildrenOf(tree, d), todo);
    }
  }

  // ---- the archive ----

  datatype MemberKind = DirectoryMember | FileMember | LinkMember | OtherMember

  datatype Member = Member(name: string, kind: MemberKind, mode: nat, content: Bytes)

  /**
   Snapshot metadata.  The SHA-256 of the archive is modelled by the archive itself: two
   archives have the same digest exactly when they have the same members.
   */
  datatype Snapshot = Snapshot(
    workspaceRoot: string,
    digest: seq<Member>,
    fileCount: nat,
    totalBytes: nat,
    limits: Limits)

  /**
   How tar stores one entry.  It writes the second and later names of one inode as a link
   to the first; which files those are is given by `links`.
   */
  function MemberOf(t: Tree, links: set<Path>, p: Path): Member
    requires p in t
  {
    match t[p]
    case Dir => Member(Join(p), DirectoryMember, 0, [])
    case File(content, mode) =>
      if p in links then Member(Join(p), LinkMember, mode, [])
      else Member(Join(p), FileMember, mode, content)
    case _ => Member(Join(p), OtherMember, 0, [])
  }

  function ArchiveOf(t: Tree, links: set<Path>, entries: seq<Path>): seq<Member>
    requires forall p :: p in entries ==> p in t
  {
    seq(|entries|, i requires 0 <= i < |entries| => MemberOf(t, links, entries[i]))
  }

  /** An order in which the walk can list everything a capture of t contains. */
  ghost predicate Listing(t: Tree, entries: seq<Path>) {
    Distinct(entries) && ParentsFirst(entries) && SetOf(entries) == CapturedPaths(t)
  }

  ghost predicate IsSnapshotOf(s: Snapshot, root: string, t: Tree, links: set<Path>, limits: Limits) {
    && s.workspaceRoot == root
    && (exists entries :: Listing(t, entries) && ListedArchive(s.digest, t, links, entries))
    && s.fileCount == |CapturedFiles(t)|
    && s.totalBytes == TotalSize(CapturedFiles(t))
    && s.limits == limits
  }

  ghost predicate ListedArchive(archive: seq<Member>, t: Tree, links: set<Path>, entries: seq<Path>) {
    && (forall p :: p in entries ==> p in t)
    && archive == ArchiveOf(t, links, entries)
  }

  /** A capture succeeds exactly on the capturable trees, and then the archive is complete. */
  method CreateWorkspaceSnapshot(root: string, t: Tree, links: set<Path>, limits: Limits)
    returns (r: Result<Snapshot, SnapshotError>)
    requires WellFormed(t)
    ensures r.Success? <==> Capturable(t, limits)
    ensures r.Success? ==> IsSnapshotOf(r.value, root, t, links, limits)
  {
    var walker := new Walker(t, limits);
    var failed := walker.Visit([]);
    if failed.Some? {
      return Failure(failed.value);
    }
    var entries := walker.entries;
    assert SetOf(entries) == CapturedPaths(t);
    assert FilesAmong(t, SetOf(entries)) == CapturedFiles(t);
    assert forall p :: p in entries ==> p in SetOf(entries);
    r := Success(Snapshot(root, ArchiveOf(t, links, entries), walker.fileCount, walker.totalBytes, limits));
    assert Listing(t, entries) && ListedArchive(r.value.digest, t, links, entries);
  }
}
