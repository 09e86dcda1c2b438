/**
 Rebuilding a workspace from a snapshot, in place: checkpoint_restore.py.  A workspace
 remembers every tree it has passed through since a restore began, so that what holds at
 each moment of an interrupted restore can be stated.
 */
module CheckpointRestore {
  import opened Wrappers
  import opened FileTree
  import opened CheckpointSnapshot
  import opened SnapshotExtraction
  import opened WorkspaceScan
  import opened RestorePlan

  /** The snapshot may be restored over t: every check that precedes the first change passes. */
  ghost predicate Restorable(s: Snapshot, archive: seq<Member>, root: string, t: Tree) {
    && archive == s.digest
    && s.workspaceRoot == root
    && Extractable(s)
    && Scannable(t)
    && !ReplacesExcludedState(t, DesiredOf(s.digest))
  }

  lemma {:induction false} RestorableIsConsistent(s: Snapshot)
    requires Extractable(s)
    ensures Consistent(DesiredOf(s.digest))
  {
    DesiredIsConsistent(s.digest, RestoreLimits(s.limits));
  }

  datatype RestoreReport = RestoreReport(restoredFiles: nat, removedEntries: nat)

  class Workspace {
    const root: string
    var tree: Tree
    ghost var origin: Tree
    ghost var trail: seq<Tree>

    constructor (root: string, t: Tree)
      requires WellFormed(t)
      ensures this.root == root && tree == t
    {
      this.root, tree := root, t;
      origin, trail := t, [t];
    }

    /** A restore is under way: only the visible part has moved since origin. */
    ghost predicate Restoring()
      reads this
    {
      && Intermediate(origin, tree)
      && tree in trail
      && forall u :: u in trail ==> Intermediate(origin, u)
    }

    lemma RestoringStarts()
      requires origin == tree && trail == [tree] && WellFormed(tree) && NoVisibleSpecial(tree)
      ensures Restoring()
    {
    }

    // ---- system calls ----

    method Unlink(p: Path)
      requires Restoring() && p in tree && !tree[p].Dir? && p != [] && Visible(p)
      modifies this`tree, this`trail
      ensures Restoring() && tree == old(tree) - {p}
    {
      RemoveLeaf(tree, p);
      tree := tree - {p};
      trail := trail + [tree];
    }

    /** rmdir refuses a directory that is not empty. */
    method Rmdir(p: Path) returns (ok: bool)
      requires Restoring() && p in tree && tree[p].Dir? && p != [] && Visible(p)
      modifies this`tree, this`trail
      ensures Restoring()
      ensures ok <==> Childless(old(tree), p)
      ensures tree == if ok then old(tree) - {p} else old(tree)
    {
      ok := Childless(tree, p);
      if ok {
        RemoveLeaf(tree, p);
        tree := tree - {p};
        trail := trail + [tree];
      }
    }

    method Write(p: Path, node: Node)
      requires Restoring() && InScope(p) && !node.Special?
      requires Parent(p) in tree && tree[Parent(p)].Dir?
      requires if node.Dir? then p !in tree else p in tree ==> !tree[p].Dir?
      modifies this`tree, this`trail
      ensures Restoring() && tree == old(tree)[p := node] && trail == old(trail) + [tree]
    {
      assert ValidName(p[|p| - 1]);
      AddNode(tree, p, node);
      tree := tree[p := node];
      trail := trail + [tree];
    }

    method Rename(src: Path, dst: Path)
      requires Restoring() && InScope(src) && InScope(dst) && src != dst
      requires src in tree && tree[src].File?
      requires Parent(dst) in tree && tree[Parent(dst)].Dir?
      requires dst in tree ==> !tree[dst].Dir?
      modifies this`tree, this`trail
      ensures Restoring() && tree == old(tree)[dst := old(tree)[src]] - {src} && trail == old(trail) + [tree]
    {
      assert ValidName(dst[|dst| - 1]);
      AddNode(tree, dst, tree[src]);
      RemoveLeaf(tree[dst := tree[src]], src);
      tree := tree[dst := tree[src]] - {src};
      trail := trail + [tree];
    }

    // ---- the four phases ----

    /** Phase 1: unlink, deepest first, what is neither a directory nor a file to be rewritten. */
    method UnlinkStale(current: map<Path, Kind>, d: Desired) returns (removed: nat)
      requires Restoring() && tree == origin && IsScanOf(current, tree)
      modifies this`tree, this`trail
      ensures Restoring() && tree == AfterUnlinking(origin, d)
      ensures removed == |StaleLeaves(origin, d, VisibleEntries(origin))|
    {
      removed := 0;
      var todo := current.Keys;
      NothingDone(origin, d, todo);
      while todo != {}
        invariant Restoring()
        invariant todo <= VisibleEntries(origin)
        invariant tree == origin - StaleLeaves(origin, d, VisibleEntries(origin) - todo)
        invariant removed == |StaleLeaves(origin, d, VisibleEntries(origin) - todo)|
        decreases todo
      {
        var p := Deepest(todo);
        OneLeafMore(origin, d, todo, p);
        todo := todo - {p};
        if current[p] == DirEntry { continue; }
        if p in d.contents && current[p] == FileEntry { continue; }
        Unlink(p);
        removed := removed + 1;
      }
      EverythingDone(origin, d, todo);
    }

    /** Tries one directory; a refusal to remove it is an error unless it must be kept. */
    method PruneOne(p: Path) returns (ok: bool, removed: bool)
      requires Restoring() && p in tree && tree[p].Dir? && p != [] && Visible(p)
      modifies this`tree, this`trail
      ensures Restoring()
      ensures removed <==> Childless(old(tree), p)
      ensures tree == if removed then old(tree) - {p} else old(tree)
      ensures ok <==> removed || Keeps(origin, p)
    {
      removed := Rmdir(p);
      ok := true;
      if !removed {
        SameHiddenSameKeeps(origin, tree, p);
        ok := ContainsExcludedDescendant(tree, p);
      }
    }

    /** Phase 2: prune, deepest first, the directories that are neither wanted nor needed. */
    method PruneDirectories(current: map<Path, Kind>, d: Desired)
      returns (ok: bool, removed: nat)
      requires Restoring() && WellFormed(origin) && NoVisibleSpecial(origin) && Consistent(d)
      requires tree == AfterUnlinking(origin, d) && IsScanOf(current, origin)
      modifies this`tree, this`trail
      ensures Restoring()
      ensures Closed(d) ==> ok
      ensures ok ==> tree == AfterPruning(origin, d)
      ensures ok ==> removed == |StaleDirs(origin, d, VisibleEntries(origin))|
    {
      hide IsExcludedName, Pruning, Intermediate, AfterUnlinking, AfterPruning, StaleDirs, Closed, Consistent;
      removed := 0;
      var todo := current.Keys;
      ghost var gone: set<Path> := {};
      PruningStarts(origin, d, todo);
      while todo != {}
        invariant Restoring() && Pruning(origin, d, todo, gone, tree)
        invariant todo <= current.Keys
        invariant removed == |gone|
        decreases todo
      {
        var p := Deepest(todo);
        PruningNext(origin, d, todo, gone, tree, p);
        todo := todo - {p};
        if current[p] != DirEntry || p in d.dirs { continue; }
        var fine, emptied := PruneOne(p);
        if !fine { return false, removed; }
        if emptied {
          gone := gone + {p};
          removed := removed + 1;
        }
      }
      PruningEnds(origin, d, todo, gone, tree);
      ok := true;
    }

    /** mkdir with parents; directories that exist already are left alone. */
    method MkdirParents(p: Path)
      requires Restoring() && (p == [] || InScope(p))
      requires forall a :: a in tree && (a == p || Below(a, p)) ==> tree[a].Dir?
      modifies this`tree, this`trail
      ensures Restoring()
      ensures p in tree && tree[p].Dir?
      ensures forall q :: q in old(tree) ==> q in tree && tree[q] == old(tree)[q]
      ensures forall q :: q in tree && q !in old(tree) ==> (q == p || Below(q, p)) && tree[q].Dir?
      ensures p == [] || Parent(p) in old(tree) ==> tree == old(tree)[p := Dir]
      decreases |p|
    {
      hide IsExcludedName;
      if p in tree { return; }
      assert forall a :: a == Parent(p) || Below(a, Parent(p)) ==> Below(a, p);
      VisiblePrefix(Parent(p), p);
      MkdirParents(Parent(p));
      assert p !in tree;
      Write(p, Dir);
    }

    /**
     Phase 3: make the desired directories, shallowest first.  Lines 1068-1073 of
     checkpoint_restore.py, which would unlink a symlink or a file in the way, are never reached: this
     is the assertion in the loop.
     */
    method MakeDirectories(d: Desired)
      requires Restoring() && Consistent(d) && NothingBlocks(tree, d)
      modifies this`tree, this`trail
      ensures Restoring() && NothingBlocks(tree, d)
      ensures forall p :: p in d.dirs ==> p in tree && tree[p].Dir?
      ensures forall q :: q in tree ==> q in old(tree) || LeadsToDesired(d, q)
      ensures Closed(d) ==> tree == old(tree) + (map p | p in d.dirs :: Dir)
    {
      hide IsExcludedName, Making, WellFormed, Consistent, Closed;
      var todo := d.dirs;
      MakingStarts(tree, d);
      while todo != {}
        invariant Restoring() && todo <= d.dirs && Making(old(tree), d, todo, tree)
        decreases todo
      {
        var p := Shallowest(todo);
        MakingAllows(old(tree), d, todo, tree, p);
        assert p in tree ==> tree[p].Dir?;
        ghost var before := tree;
        MkdirParents(p);
        MakingNext(old(tree), d, todo, before, tree, p);
        todo := todo - {p};
      }
      MakingEnds(old(tree), d, tree);
    }

    /**
     Writes a temporary beside the target, piece by piece, then renames it over the target.
     At every moment the target is what it was or what it will be; a crash may leave a
     temporary with part of the content.
     */
    method AtomicCopy(target: Path, content: Bytes, mode: nat, tmp: string)
      requires Restoring() && InScope(target) && IsTemporaryName(tmp) && Unused(tree, tmp)
      requires tmp !in target
      requires Parent(target) in tree && tree[Parent(target)].Dir?
      requires target in tree ==> tree[target].File?
      modifies this`tree, this`trail
      ensures Restoring()
      ensures tree == old(tree)[target := File(content, mode)]
      ensures old(trail) <= trail
      ensures forall i :: |old(trail)| <= i < |trail| ==>
                SameAt(trail[i], old(tree), target) || SameAt(trail[i], tree, target)
    {
      hide IsExcludedName, Intermediate, Visible, WellFormed;
      var t := Parent(target) + [tmp];
      TemporaryInScope(target, tmp);
      assert Name(t) == tmp && Parent(t) == Parent(target) && tmp in t;
      var initialMode: nat := *;
      Write(t, File([], initialMode));
      FillTemporary(old(tree), t, target, content, initialMode);
      Write(t, File(content, mode));
      Rename(t, target);
      TemporaryIsGone(old(tree), t, target, File(content, initialMode), File(content, mode));
    }

    /** The content goes out in pieces of whatever size the copy uses. */
    method FillTemporary(ghost before: Tree, t: Path, ghost target: Path, content: Bytes, mode: nat)
      requires Restoring() && InScope(t) && Parent(t) in tree && tree[Parent(t)].Dir?
      requires tree == before[t := File([], mode)] && Parent(t) != t && t != target
      modifies this`tree, this`trail
      ensures Restoring() && tree == before[t := File(content, mode)]
      ensures old(trail) <= trail
      ensures forall i :: |old(trail)| <= i < |trail| ==> SameAt(trail[i], before, target)
    {
      hide IsExcludedName, Intermediate, Visible, WellFormed;
      var written: nat := 0;
      assert content[..0] == [];
      while written < |content|
        invariant written <= |content| && Restoring()
        invariant tree == before[t := File(content[..written], mode)]
        invariant Parent(t) in tree && tree[Parent(t)].Dir?
        invariant old(trail) <= trail
        invariant forall i :: |old(trail)| <= i < |trail| ==> SameAt(trail[i], before, target)
      {
        var piece: nat :| 0 < piece <= |content| - written;
        written := written + piece;
        Write(t, File(content[..written], mode));
        assert tree == before[t := File(content[..written], mode)];
      }
      assert content[..written] == content;
    }

    /**
     Phase 4: put every desired file in place.  Lines 1106-1119 of checkpoint_restore.py, which would
     unlink a symlink or remove a directory in the way, are never reached.
     */
    method CopyFiles(d: Desired, tmp: string) returns (restored: nat)
      requires Restoring() && Consistent(d) && NothingBlocks(tree, d)
      requires forall p :: p in d.dirs ==> p in tree && tree[p].Dir?
      requires IsTemporaryName(tmp) && Unused(tree, tmp)
      requires UnusedBy(d, tmp)
      modifies this`tree, this`trail
      ensures Restoring()
      ensures tree == old(tree) + (map p | p in d.contents :: DesiredFile(d, p))
      ensures restored == |d.contents|
    {
      hide IsExcludedName, WellFormed, NoVisibleSpecial, Copying;
      restored := 0;
      var todo := d.contents.Keys;
      CopyingStarts(tree, d);
      while todo != {}
        invariant Restoring() && todo <= d.contents.Keys && Unused(tree, tmp)
        invariant Copying(old(tree), d, todo, tree)
        invariant restored == |d.contents.Keys| - |todo|
        decreases todo
      {
        var p :| p in todo;
        CopyingAllows(old(tree), d, todo, tree, p);
        assert p in tree ==> !tree[p].Symlink? && !tree[p].Dir?;
        AtomicCopy(p, d.contents[p], d.modes[p], tmp);
        todo := todo - {p};
        restored := restored + 1;
      }
      CopyingEnds(old(tree), d, tree);
    }

    /** Refuses the restore when a file would replace a directory that must be kept. */
    method CheckReplacements(current: map<Path, Kind>, d: Desired) returns (ok: bool)
      requires Restoring() && tree == origin && IsScanOf(current, tree) && Consistent(d)
      ensures ok <==> !ReplacesExcludedState(tree, d)
    {
      hide IsExcludedName, Keeps;
      var todo := d.contents.Keys;
      while todo != {}
        invariant todo <= d.contents.Keys
        invariant forall p :: p in d.contents.Keys - todo && p in tree && tree[p].Dir? ==> !Keeps(tree, p)
        decreases todo
      {
        var p :| p in todo;
        todo := todo - {p};
        assert InScope(p);
        if p in current && current[p] == DirEntry {
          var kept := ContainsExcludedDescendant(tree, p);
          if kept { return false; }
        }
      }
      ok := true;
    }

    /** The mutating half: once every check has passed, it cannot fail half-way. */
    method Rebuild(current: map<Path, Kind>, d: Desired, tmp: string)
      returns (r: Result<RestoreReport, RestoreError>)
      requires Restoring() && tree == origin && IsScanOf(current, tree) && Consistent(d)
      requires NoVisibleSpecial(tree) && !ReplacesExcludedState(tree, d)
      requires IsTemporaryName(tmp) && Unused(tree, tmp) && UnusedBy(d, tmp)
      modifies this`tree, this`trail
      ensures Restoring()
      ensures Closed(d) ==> r.Success? && tree == Target(origin, d)
      ensures Closed(d) ==> r.value == ReportOf(origin, d)
    {
      hide IsExcludedName, WellFormed, NoVisibleSpecial, Consistent, Closed, ReplacesExcludedState, Target,
        StaleLeaves, StaleDirs, VisibleEntries, AfterUnlinking, AfterPruning, AfterMkdir, NothingBlocks, Unused,
        UnusedBy;
      ghost var t := tree;
      var unlinked := UnlinkStale(current, d);
      var pruned, removed := PruneDirectories(current, d);
      if !pruned { return Failure(DirectoryNotEmpty); }
      PrunedIsUnblocked(t, d);
      ghost var u := tree;
      MakeDirectories(d);
      PruningUses(t, d, tmp);
      NewDirectoriesAvoid(u, tree, d, tmp);
      var restored := CopyFiles(d, tmp);
      RebuiltIsTarget(t, d, u, tree);
      r := Success(RestoreReport(restored, unlinked + removed));
    }

    /**
     restore_workspace_snapshot.  Every refusal leaves the workspace untouched at every
     moment; otherwise, for an archive that lists parents, the restore succeeds and ends in
     exactly the target.  Whatever happens, only the visible part ever moves.
     */
    method RestoreWorkspaceSnapshot(s: Snapshot, archive: seq<Member>, tmp: string)
      returns (r: Result<RestoreReport, RestoreError>)
      requires WellFormed(tree)
      requires IsTemporaryName(tmp) && Unused(tree, tmp) && UnusedBy(DesiredOf(s.digest), tmp)
      modifies this
      ensures !Restorable(s, archive, root, old(tree)) ==>
                r.Failure? && tree == old(tree) && trail == [old(tree)]
      ensures Restorable(s, archive, root, old(tree)) && Closed(DesiredOf(s.digest)) ==>
                && r.Success?
                && tree == Target(old(tree), DesiredOf(s.digest))
                && r.value == ReportOf(old(tree), DesiredOf(s.digest))
      ensures Restorable(s, archive, root, old(tree)) ==>
                forall u :: u in trail ==> Intermediate(old(tree), u)
      ensures tree in trail
    {
      hide IsExcludedName, WellFormed, Consistent, Closed, NoVisibleSpecial, ReplacesExcludedState, Extractable,
        Target, ReportOf, Unused, UnusedBy, IsScanOf;
      origin, trail := tree, [tree];
      if s.workspaceRoot != root { return Failure(WorkspaceMismatch); }
      if archive != s.digest { return Failure(IntegrityFailure); }
      var extracted := ExtractValidatedSnapshot(s);
      if extracted.Failure? { return Failure(extracted.error); }
      var d := extracted.value;
      RestorableIsConsistent(s);
      var scanned := ScanCurrentWorkspace(tree);
      if scanned.Failure? { return Failure(scanned.error); }
      var current := scanned.value;
      RestoringStarts();
      var safe := CheckReplacements(current, d);
      if !safe { return Failure(WouldDestroyExcludedState); }
      r := Rebuild(current, d, tmp);
    }
  }

  /** The two trees have the same at p, or both nothing. */
  predicate SameAt(t: Tree, u: Tree, p: Path) {
    (p in t <==> p in u) && (p in t ==> t[p] == u[p])
  }

  /** The reported counts: files written, and entries unlinked or pruned. */
  ghost function ReportOf(t: Tree, d: Desired): RestoreReport {
    RestoreReport(|d.contents|, |StaleLeaves(t, d, VisibleEntries(t))| + |StaleDirs(t, d, VisibleEntries(t))|)
  }

  // ---- temporary names ----

  /** ".awb-rollback-" + hex + ".tmp": longer than every excluded name. */
  predicate IsTemporaryName(tmp: string) {
    |tmp| >= 18 && tmp[..14] == ".awb-rollback-" && '/' !in tmp
  }

  /** A fresh uuid: no entry of the tree has this name. */
  ghost predicate Unused(t: Tree, tmp: string) {
    forall p :: p in t ==> tmp !in p
  }

  ghost predicate UnusedBy(d: Desired, tmp: string) {
    forall p :: p in d.dirs || p in d.contents ==> tmp !in p
  }

  lemma TemporaryInScope(target: Path, tmp: string)
    requires InScope(target) && IsTemporaryName(tmp)
    ensures InScope(Parent(target) + [tmp])
  {
    var t := Parent(target) + [tmp];
    VisiblePrefix(Parent(target), target);
    assert !IsExcludedName(tmp);
    assert ValidName(tmp);
    forall k | 0 <= k < |t| ensures ValidName(t[k]) && !IsExcludedName(t[k]) {
      if k < |t| - 1 { assert t[k] == target[k]; }
    }
  }

  lemma TemporaryIsGone(t: Tree, tmp: Path, target: Path, earlier: Node, node: Node)
    requires tmp !in t && tmp != target
    ensures var u := t[tmp := earlier][tmp := node];
            u[target := u[tmp]] - {tmp} == t[target := node]
  {
  }

  /** The copying loop: the files written so far, on top of the tree it started from. */
  ghost predicate Copying(t: Tree, d: Desired, todo: set<Path>, u: Tree) {
    && u == t + (map p | p in d.contents.Keys - todo :: DesiredFile(d, p))
    && (forall p :: p in d.dirs ==> p in u && u[p].Dir?)
    && (forall p :: p in d.contents && p in u ==> u[p].File?)
    && [] in u && u[[]].Dir?
  }

  lemma CopyingStarts(t: Tree, d: Desired)
    requires Consistent(d) && NothingBlocks(t, d) && WellFormed(t)
    requires forall p :: p in d.dirs ==> p in t && t[p].Dir?
    ensures Copying(t, d, d.contents.Keys, t)
  {
    hide IsExcludedName;
  }

  lemma CopyingAllows(t: Tree, d: Desired, todo: set<Path>, u: Tree, p: Path)
    requires Consistent(d) && Copying(t, d, todo, u) && p in todo && todo <= d.contents.Keys
    ensures InScope(p) && Parent(p) in u && u[Parent(p)].Dir?
    ensures p in u ==> u[p].File?
    ensures Copying(t, d, todo - {p}, u[p := DesiredFile(d, p)])
  {
    hide IsExcludedName;
    assert InScope(p);
    if |p| > 1 { assert Parent(p) in d.dirs; } else { assert Parent(p) == []; }
    assert d.contents.Keys - (todo - {p}) == d.contents.Keys - todo + {p};
  }

  lemma CopyingEnds(t: Tree, d: Desired, u: Tree)
    requires Consistent(d) && Copying(t, d, {}, u)
    ensures u == t + (map p | p in d.contents :: DesiredFile(d, p))
  {
  }

  /** No desired path, and nothing above one, is taken by an entry of another kind. */
  ghost predicate NothingBlocks(t: Tree, d: Desired) {
    && (forall p, a :: p in d.dirs && a in t && (a == p || Below(a, p)) ==> t[a].Dir?)
    && (forall p :: p in d.contents && p in t ==> t[p].File?)
  }

  ghost predicate LeadsToDesired(d: Desired, q: Path) {
    exists p :: p in d.dirs && (q == p || Below(q, p))
  }

  lemma NewDirectoriesAvoid(t: Tree, u: Tree, d: Desired, tmp: string)
    requires Unused(t, tmp) && UnusedBy(d, tmp)
    requires forall q :: q in u ==> q in t || LeadsToDesired(d, q)
    ensures Unused(u, tmp)
  {
    forall q | q in u ensures tmp !in q {
      if q !in t {
        var p :| p in d.dirs && (q == p || Below(q, p));
        assert forall k :: 0 <= k < |q| ==> q[k] == p[k];
      }
    }
  }

  /** After pruning, nothing of another kind stands where a desired entry goes. */
  lemma PrunedIsUnblocked(t: Tree, d: Desired)
    requires WellFormed(t) && NoVisibleSpecial(t) && Consistent(d)
    requires !ReplacesExcludedState(t, d)
    ensures NothingBlocks(AfterPruning(t, d), d)
  {
    hide IsExcludedName, WellFormed, AfterPruning;
    var u := AfterPruning(t, d);
    forall p, a | p in d.dirs && a in u && (a == p || Below(a, p)) ensures u[a].Dir? {
      AfterPruningIs(t, d, a);
      assert InScope(p);
      VisiblePrefix(a, p);
      RootIsDirectory(t);
      assert a !in d.contents;
    }
    forall p | p in d.contents && p in u ensures u[p].File? {
      NothingInTheWay(t, d, p);
    }
  }

  lemma RebuiltIsTarget(t: Tree, d: Desired, u: Tree, v: Tree)
    requires WellFormed(t) && NoVisibleSpecial(t) && Consistent(d) && u == AfterPruning(t, d)
    ensures v == u + (map p | p in d.dirs :: Dir) + (map p | p in d.contents :: DesiredFile(d, p))
            ==> v == Target(t, d)
  {
    hide AfterPruning, Target, Consistent, WellFormed, NoVisibleSpecial;
    PhasesReachTarget(t, d);
  }

  lemma PruningUses(t: Tree, d: Desired, tmp: string)
    requires Unused(t, tmp)
    ensures Unused(AfterPruning(t, d), tmp)
  {
  }

  lemma RootIsDirectory(t: Tree)
    requires WellFormed(t)
    ensures [] in t && t[[]].Dir?
  {
  }

  /** The shallowest-first loop: which directories exist, and that parents came first. */
  ghost predicate Making(t: Tree, d: Desired, todo: set<Path>, u: Tree) {
    && NothingBlocks(u, d) && WellFormed(u)
    && (forall p, q :: p in todo && q in d.dirs - todo ==> |q| <= |p|)
    && (forall p :: p in d.dirs - todo ==> p in u && u[p].Dir?)
    && (forall q :: q in u ==> q in t || LeadsToDesired(d, q))
    && (Closed(d) ==> u == t + (map p | p in d.dirs - todo :: Dir))
  }

  lemma MakingStarts(t: Tree, d: Desired)
    requires NothingBlocks(t, d) && WellFormed(t)
    ensures Making(t, d, d.dirs, t)
  {
  }

  lemma MakingAllows(t: Tree, d: Desired, todo: set<Path>, u: Tree, p: Path)
    requires Consistent(d) && Making(t, d, todo, u) && p in todo && todo <= d.dirs
    ensures InScope(p)
    ensures forall a :: a in u && (a == p || Below(a, p)) ==> u[a].Dir?
  {
    hide IsExcludedName, WellFormed, Closed, LeadsToDesired, InScope;
  }

  lemma MakingNext(t: Tree, d: Desired, todo: set<Path>, u: Tree, v: Tree, p: Path)
    requires Consistent(d) && Making(t, d, todo, u) && todo <= d.dirs && WellFormed(v)
    requires p in todo && forall q :: q in todo ==> |p| <= |q|
    requires p in v && v[p].Dir?
    requires forall q :: q in u ==> q in v && v[q] == u[q]
    requires forall q :: q in v && q !in u ==> (q == p || Below(q, p)) && v[q].Dir?
    requires p == [] || Parent(p) in u ==> v == u[p := Dir]
    ensures Making(t, d, todo - {p}, v)
  {
    hide IsExcludedName, WellFormed, Consistent, NothingBlocks, Closed;
    assert d.dirs - (todo - {p}) == d.dirs - todo + {p};
    StillUnblocked(d, u, v, p);
    if Closed(d) {
      ParentIsMade(t, d, todo, u, p);
      OneDirectoryMore(t, d.dirs - todo, p);
    }
  }

  lemma OneDirectoryMore(t: Tree, made: set<Path>, p: Path)
    ensures (t + (map q | q in made :: Dir))[p := Dir] == t + (map q | q in made + {p} :: Dir)
  {
  }

  lemma StillUnblocked(d: Desired, u: Tree, v: Tree, p: Path)
    requires Consistent(d) && NothingBlocks(u, d) && p in d.dirs
    requires forall q :: q in u ==> q in v && v[q] == u[q]
    requires forall q :: q in v && q !in u ==> (q == p || Below(q, p)) && v[q].Dir?
    ensures NothingBlocks(v, d)
  {
    hide IsExcludedName, InScope;
  }

  lemma ParentIsMade(t: Tree, d: Desired, todo: set<Path>, u: Tree, p: Path)
    requires Making(t, d, todo, u) && Closed(d) && p in todo && todo <= d.dirs
    requires forall q :: q in todo ==> |p| <= |q|
    ensures p == [] || Parent(p) in u
  {
    hide IsExcludedName;
    if |p| > 1 {
      assert Parent(p) in d.dirs;
      assert Parent(p) !in todo;
    } else if |p| == 1 {
      assert Parent(p) == [];
    }
  }

  lemma MakingEnds(t: Tree, d: Desired, u: Tree)
    requires Making(t, d, {}, u)
    ensures NothingBlocks(u, d)
    ensures forall p :: p in d.dirs ==> p in u && u[p].Dir?
    ensures forall q :: q in u ==> q in t || LeadsToDesired(d, q)
    ensures Closed(d) ==> u == t + (map p | p in d.dirs :: Dir)
  {
    assert d.dirs - {} == d.dirs;
  }

  /** The deepest-first loop: which directories are gone, and that deeper ones were tried first. */
  ghost predicate Pruning(t: Tree, d: Desired, todo: set<Path>, gone: set<Path>, u: Tree) {
    && todo <= VisibleEntries(t)
    && (forall p, q :: p in todo && q in VisibleEntries(t) - todo ==> |p| <= |q|)
    && gone !! todo && gone <= t.Keys
    && u == AfterUnlinking(t, d) - gone
    && gone == StaleDirs(t, d, VisibleEntries(t) - todo)
  }

  lemma PruningStarts(t: Tree, d: Desired, todo: set<Path>)
    requires todo == VisibleEntries(t)
    ensures Pruning(t, d, todo, {}, AfterUnlinking(t, d))
  {
    hide IsExcludedName;
    NothingDone(t, d, todo);
  }

  lemma PruningEnds(t: Tree, d: Desired, todo: set<Path>, gone: set<Path>, u: Tree)
    requires Pruning(t, d, todo, gone, u) && todo == {}
    ensures u == AfterPruning(t, d) && gone == StaleDirs(t, d, VisibleEntries(t))
  {
    hide IsExcludedName;
    assert VisibleEntries(t) - todo == VisibleEntries(t);
  }

  lemma PruningNext(t: Tree, d: Desired, todo: set<Path>, gone: set<Path>, u: Tree, p: Path)
    requires WellFormed(t) && NoVisibleSpecial(t) && Consistent(d)
    requires Pruning(t, d, todo, gone, u)
    requires p in todo && forall q :: q in todo ==> |q| <= |p|
    ensures p in VisibleEntries(t) && p !in gone
    ensures t[p].Dir? ==> p in u && u[p].Dir?
    ensures !t[p].Dir? || p in d.dirs ==> Pruning(t, d, todo - {p}, gone, u)
    ensures t[p].Dir? && p !in d.dirs ==> (Keeps(t, p) ==> !Childless(u, p))
    ensures t[p].Dir? && p !in d.dirs && Closed(d) ==> (Childless(u, p) <==> !Keeps(t, p))
    ensures t[p].Dir? && p !in d.dirs && !Keeps(t, p) ==> Pruning(t, d, todo - {p}, gone + {p}, u - {p})
    ensures t[p].Dir? && p !in d.dirs && Keeps(t, p) ==> Pruning(t, d, todo - {p}, gone, u)
  {
    hide IsExcludedName, Consistent, Closed, WellFormed, NoVisibleSpecial, Keeps, Childless;
    OneDirMore(t, d, todo, p);
    assert t[p].Dir? ==> !StaleLeaf(t, d, p);
    if t[p].Dir? && p !in d.dirs {
      EmptyUnlessKept(t, d, u, VisibleEntries(t) - todo, p);
    }
    assert u - {p} == AfterUnlinking(t, d) - (gone + {p});
  }

  lemma NothingDone(t: Tree, d: Desired, todo: set<Path>)
    requires todo == VisibleEntries(t)
    ensures t - StaleLeaves(t, d, VisibleEntries(t) - todo) == t
    ensures StaleLeaves(t, d, VisibleEntries(t) - todo) == {}
    ensures StaleDirs(t, d, VisibleEntries(t) - todo) == {}
  {
    assert VisibleEntries(t) - todo == {};
  }

  lemma EverythingDone(t: Tree, d: Desired, todo: set<Path>)
    requires todo == {}
    ensures VisibleEntries(t) - todo == VisibleEntries(t)
  {
  }

  lemma OneLeafMore(t: Tree, d: Desired, todo: set<Path>, p: Path)
    requires p in todo && todo <= VisibleEntries(t)
    ensures var before := StaleLeaves(t, d, VisibleEntries(t) - todo);
            var after := StaleLeaves(t, d, VisibleEntries(t) - (todo - {p}));
            if StaleLeaf(t, d, p)
            then p !in before && after == before + {p} && t - after == t - before - {p} && |after| == |before| + 1
            else after == before
  {
    var before := StaleLeaves(t, d, VisibleEntries(t) - todo);
    assert VisibleEntries(t) - (todo - {p}) == VisibleEntries(t) - todo + {p};
    assert t - (before + {p}) == t - before - {p};
  }

  lemma OneDirMore(t: Tree, d: Desired, todo: set<Path>, p: Path)
    requires p in todo && todo <= VisibleEntries(t)
    ensures var before := StaleDirs(t, d, VisibleEntries(t) - todo);
            StaleDirs(t, d, VisibleEntries(t) - (todo - {p}))
            == if StaleDir(t, d, p) then before + {p} else before
  {
    assert VisibleEntries(t) - (todo - {p}) == VisibleEntries(t) - todo + {p};
  }
}
