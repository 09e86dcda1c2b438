/**
 Capture and restore together: a restore undoes whatever happened since the capture, an
 interrupted restore can be finished, and a finished one is stable.
 */
module UndoTheorems {
  import opened FileTree
  import opened ByteCounts
  import opened CheckpointSnapshot
  import opened SnapshotExtraction
  import opened WorkspaceScan
  import opened RestorePlan
  import opened CheckpointRestore
  import opened SnapshotRestoreTheorems

  // ---- what undoing means, without mentioning archives or phases ----

  ghost predicate SameVisibleFiles(before: Tree, after: Tree) {
    forall p :: Visible(p) ==>
      && (p in after && after[p].File? <==> p in before && before[p].File?)
      && (p in after && after[p].File? ==>
            after[p].content == before[p].content && after[p].mode == before[p].mode % PERMISSION_BITS)
  }

  ghost predicate OnlyFilesAndDirectories(after: Tree) {
    forall p :: p in after && Visible(p) ==> after[p].File? || after[p].Dir?
  }

  /** The visible directories are those captured and those that hold something out of scope. */
  ghost predicate ExpectedDirectories(before: Tree, now: Tree, after: Tree) {
    forall p :: Visible(p) ==>
      (p in after && after[p].Dir? <==>
        || p == []
        || (p in before && before[p].Dir?)
        || (p in now && now[p].Dir? && Keeps(now, p)))
  }

  /** after is before again wherever a checkpoint reaches, and now everywhere else. */
  ghost predicate Undone(before: Tree, now: Tree, after: Tree) {
    && SameVisibleFiles(before, after)
    && OnlyFilesAndDirectories(after)
    && ExpectedDirectories(before, now, after)
    && Hidden(after) == Hidden(now)
  }

  // ---- the permission bits ----

  /** A mode as chmod writes it, in four octal digits. */
  predicate AreDigits(special: nat, owner: nat, group: nat, others: nat) {
    special < 8 && owner < 8 && group < 8 && others < 8
  }

  function Octal(special: nat, owner: nat, group: nat, others: nat): nat {
    512 * special + 64 * owner + 8 * group + others
  }

  /** Of a mode a restore keeps what owner, group and others may do, and nothing of the first digit. */
  lemma RestoredModeIs(special: nat, owner: nat, group: nat, others: nat)
    requires AreDigits(special, owner, group, others)
    ensures Octal(special, owner, group, others) % PERMISSION_BITS == Octal(0, owner, group, others)
  {
  }

  // ---- captured states ----

  lemma CapturedStateIsClosed(t: Tree)
    requires WellFormed(t)
    ensures Closed(CapturedState(t))
  {
    hide IsExcludedName, WellFormed, Skipped;
    var d := CapturedState(t);
    forall p | (p in d.dirs || p in d.contents) && |p| > 1 ensures Parent(p) in d.dirs {
      CapturedFilesAre(t, p);
      CapturedParent(t, p);
    }
  }

  /** Everything in scope is captured; with all names in scope, nothing else is. */
  lemma CapturedIsVisible(t: Tree)
    ensures VisibleEntries(t) <= CapturedPaths(t)
    ensures (forall p :: p in CapturedPaths(t) ==> Visible(p)) ==> CapturedPaths(t) == VisibleEntries(t)
  {
    forall p | p in VisibleEntries(t) ensures !Skipped(t, p) { VisibleIsNotSkipped(t, p); }
  }

  /** An entry that is no directory but has the name of one that would be skipped. */
  predicate IsVolatileLeaf(t: Tree, p: Path) {
    && p in t && p != [] && Visible(Parent(p))
    && !t[p].Dir? && Name(p) in VOLATILE_DIRECTORY_NAMES
  }

  lemma {:induction false} UnskippedIsVisible(t: Tree, p: Path)
    requires WellFormed(t) && p in t && t[p].Dir? && !Skipped(t, p)
    ensures Visible(p)
  {
    if p != [] {
      SkippedStepwise(t, p);
      UnskippedIsVisible(t, Parent(p));
      assert p == Parent(p) + [Name(p)];
    }
  }

  lemma VisibleIsNotSkipped(t: Tree, p: Path)
    requires Visible(p)
    ensures !Skipped(t, p)
  {
    forall k | 1 <= k <= |p| ensures !SkippedEntry(t, p[..k]) {
      assert Name(p[..k]) == p[k - 1];
      assert !IsExcludedName(p[k - 1]);
    }
  }

  lemma VisibleStepwise(p: Path)
    requires p != []
    ensures Visible(p) <==> Visible(Parent(p)) && !IsExcludedName(Name(p))
  {
    assert p == Parent(p) + [Name(p)];
    hide IsExcludedName;
    forall i | 0 <= i < |p| - 1 ensures Parent(p)[i] == p[i] { }
  }

  /**
   What a capture contains, entry by entry: the visible ones, and besides them only files,
   links and special entries in visible directories that have the name of a volatile directory.
   */
  lemma CapturedIs(t: Tree, p: Path)
    requires WellFormed(t)
    ensures p in CapturedPaths(t) <==> p in VisibleEntries(t) || IsVolatileLeaf(t, p)
    ensures p in CapturedPaths(t) ==> Visible(Parent(p)) && (t[p].Dir? ==> Visible(p))
    ensures p in CapturedPaths(t) ==> Name(p) != ".git" && Name(p) != ".ai-workflow"
  {
    if p in t && p != [] {
      SkippedStepwise(t, p);
      VisibleStepwise(p);
      if Visible(Parent(p)) { VisibleIsNotSkipped(t, Parent(p)); }
      if !Skipped(t, Parent(p)) { UnskippedIsVisible(t, Parent(p)); }
    }
  }

  /** Version control, the host's own files, and what tools install or generate, are never entered. */
  lemma NothingIsCapturedBelow(t: Tree, p: Path, name: string)
    requires WellFormed(t) && p in CapturedPaths(t)
    requires name in {".git", ".ai-workflow", ".venv", "venv", "node_modules", "__pycache__", ".pytest_cache",
                      ".mypy_cache", ".ruff_cache", ".cache", ".next", "dist", "build", "coverage"}
    ensures name !in Parent(p)
  {
    assert IsExcludedName(name);
    hide IsExcludedName, Skipped;
    CapturedIs(t, p);
  }

  /** A capture contains exactly what is in scope if and only if there is no such leaf. */
  lemma CaptureIsInScopeIff(t: Tree)
    requires WellFormed(t)
    ensures CapturedPaths(t) == VisibleEntries(t) <==> !exists p :: IsVolatileLeaf(t, p)
  {
    hide Skipped, Visible, WellFormed;
    forall p ensures p in CapturedPaths(t) <==> p in VisibleEntries(t) || IsVolatileLeaf(t, p) { CapturedIs(t, p); }
    forall p | IsVolatileLeaf(t, p) ensures p !in VisibleEntries(t) { VisibleStepwise(p); }
  }

  // ---- the undo theorem ----

  lemma UndoneAt(before: Tree, now: Tree, d: Desired, p: Path)
    requires WellFormed(now) && WellFormed(before) && Consistent(d)
    requires d == CapturedState(before) && CapturedPaths(before) == VisibleEntries(before)
    requires !ReplacesExcludedState(now, d)
    requires Visible(p)
    ensures IsUndoneAt(before, now, Target(now, d), p)
  {
    hide IsExcludedName, Keeps, Skipped, CapturedPaths, Target, InScope;
    TargetIs(now, d, p);
    CapturedFilesAre(before, p);
    RootIsDirectory(before);
    if Keeps(now, p) { KeepsIsDirectory(now, p); }
  }

  lemma HiddenOfTarget(t: Tree, d: Desired)
    requires WellFormed(t) && Consistent(d)
    ensures Hidden(Target(t, d)) == Hidden(t)
  {
    hide IsExcludedName, Target, InScope;
    forall p | !Visible(p)
      ensures p in Target(t, d) <==> p in t
      ensures p in t ==> Target(t, d)[p] == t[p]
    {
      TargetIs(t, d, p);
      assert p !in d.dirs && p !in d.contents && p != [] by {
        if p in d.dirs || p in d.contents { assert InScope(p); InScopeIsVisible(p); }
        RootIsVisible();
      }
    }
    HiddenPointwise(Target(t, d), t);
  }

  lemma InScopeIsVisible(p: Path)
    requires InScope(p)
    ensures Visible(p)
  {
  }

  lemma RootIsVisible()
    ensures Visible([])
  {
  }

  lemma HiddenPointwise(t: Tree, u: Tree)
    requires forall p :: !Visible(p) ==> (p in t <==> p in u) && (p in u ==> t[p] == u[p])
    ensures Hidden(t) == Hidden(u)
  {
    hide Visible;
  }

  /**
   Undo: take a capture of `before` that can be restored over `now`; the restored tree is
   `before` again in every respect a checkpoint covers, whatever `now` is.
   */
  lemma RestoreUndoes(s: Snapshot, root: string, before: Tree, links: set<Path>, limits: Limits, now: Tree)
    requires WellFormed(before) && WellFormed(now)
    requires Capturable(before, limits) && IsSnapshotOf(s, root, before, links, limits)
    requires Restorable(s, s.digest, root, now)
    ensures Closed(DesiredOf(s.digest))
    ensures Undone(before, now, Target(now, DesiredOf(s.digest)))
  {
    hide IsExcludedName, WellFormed, Capturable, IsSnapshotOf, Extractable, Consistent, Closed, Scannable,
      ReplacesExcludedState, Visible, Target, CapturedState, Keeps, DesiredFile, Skipped;
    WhichCapturesAreExtractable(s, root, before, links, limits);
    var d := DesiredOf(s.digest);
    assert d == CapturedState(before);
    CapturedStateIsClosed(before);
    RestorableIsConsistent(s);
    CapturedIsVisible(before);
    forall p | Visible(p) ensures IsUndoneAt(before, now, Target(now, d), p) { UndoneAt(before, now, d, p); }
    HiddenOfTarget(now, d);
    hide IsUndoneAt, Undone;
    EverythingIsUndone(before, now, Target(now, d));
  }

  /** What undoing means at one path. */
  ghost predicate IsUndoneAt(before: Tree, now: Tree, after: Tree, p: Path) {
    && (p in after && after[p].File? <==> p in before && before[p].File?)
    && (p in after && after[p].File? ==>
          after[p].content == before[p].content && after[p].mode == before[p].mode % PERMISSION_BITS)
    && (p in after ==> after[p].File? || after[p].Dir?)
    && (p in after && after[p].Dir? <==>
          p == [] || (p in before && before[p].Dir?) || (p in now && now[p].Dir? && Keeps(now, p)))
  }

  lemma EverythingIsUndone(before: Tree, now: Tree, after: Tree)
    requires forall p :: Visible(p) ==> IsUndoneAt(before, now, after, p)
    requires Hidden(after) == Hidden(now)
    ensures Undone(before, now, after)
  {
    hide Visible, Keeps, Hidden;
  }

  // ---- which checkpoints can be rolled back ----

  /** With the limits every checkpoint is taken with, only the entry count remains to check. */
  lemma DefaultLimitsLeaveTheEntryCount(t: Tree)
    requires Capturable(t, DEFAULT_LIMITS)
    ensures WithinRestoreLimits(t, DEFAULT_LIMITS) <==> |CapturedPaths(t)| <= MAX_ARCHIVE_MEMBERS
  {
    hide Skipped, CapturedPaths, CapturedFiles;
    assert RestoreLimits(DEFAULT_LIMITS) == DEFAULT_LIMITS;
    forall p | p in CapturedFiles(t) ensures |CapturedFiles(t)[p]| <= DEFAULT_MAX_FILE_BYTES {
      CapturedFilesAre(t, p);
    }
  }

  /**
   Exactly when rolling back succeeds: the workspace side of the condition is what a scan of
   the current tree can see, the snapshot side was settled when the checkpoint was taken.
   */
  lemma WhenRollbackSucceeds(s: Snapshot, root: string, before: Tree, links: set<Path>, now: Tree)
    requires WellFormed(before) && WellFormed(now)
    requires Capturable(before, DEFAULT_LIMITS) && IsSnapshotOf(s, root, before, links, DEFAULT_LIMITS)
    ensures Restorable(s, s.digest, root, now) <==>
              && (forall p :: p in CapturedPaths(before) ==> NameSurvives(p))
              && links !! CapturedFiles(before).Keys
              && |CapturedPaths(before)| <= MAX_ARCHIVE_MEMBERS
              && Scannable(now)
              && !(exists p :: p in CapturedFiles(before) && p in now && now[p].Dir? && Keeps(now, p))
  {
    hide IsExcludedName, WellFormed, Capturable, Extractable, Scannable, Visible, Keeps, NameSurvives,
      CapturedPaths, CapturedFiles, WithinRestoreLimits;
    WhichCapturesAreExtractable(s, root, before, links, DEFAULT_LIMITS);
    DefaultLimitsLeaveTheEntryCount(before);
    StateContents(before);
  }

  /** A regular file with the name of a volatile directory is captured, and never restored. */
  lemma VolatileNamedFileBlocksRollback(s: Snapshot, root: string, before: Tree, links: set<Path>, limits: Limits, p: Path)
    requires WellFormed(before) && Capturable(before, limits) && IsSnapshotOf(s, root, before, links, limits)
    requires p in before && before[p].File? && p != []
    requires Name(p) in VOLATILE_DIRECTORY_NAMES && (Parent(p) == [] || Parent(p) in CapturedPaths(before))
    ensures p in CapturedPaths(before)
    ensures forall now :: !Restorable(s, s.digest, root, now)
  {
    hide WellFormed, Capturable, IsSnapshotOf, Extractable;
    SkippedStepwise(before, p);
    assert Name(p) !in ALWAYS_EXCLUDED_NAMES;
    assert !Visible(p) by { assert IsExcludedName(p[|p| - 1]); }
    assert !NameSurvives(p);
    WhichCapturesAreExtractable(s, root, before, links, limits);
  }

  // ---- interrupted and repeated restores ----

  /**
   Convergence: cut a restore anywhere; from the tree it has reached, a full restore ends in
   the tree the uninterrupted one would have produced.  It is accepted exactly if the tree
   has not grown past the entry cap.
   */
  lemma InterruptedRestoreConverges(s: Snapshot, root: string, now: Tree, u: Tree)
    requires WellFormed(now) && Restorable(s, s.digest, root, now) && Intermediate(now, u)
    ensures Restorable(s, s.digest, root, u) <==> |VisibleEntries(u)| <= MAX_ARCHIVE_MEMBERS
    ensures Target(u, DesiredOf(s.digest)) == Target(now, DesiredOf(s.digest))
  {
    hide WellFormed, Extractable, ReplacesExcludedState, NoVisibleSpecial, Target;
    IntermediateStaysRestorable(now, u, DesiredOf(s.digest));
  }

  lemma TargetParents(t: Tree, d: Desired, p: Path)
    requires WellFormed(t) && Consistent(d) && Closed(d) && !ReplacesExcludedState(t, d)
    requires p in Target(t, d) && p != []
    ensures Parent(p) in Target(t, d) && Target(t, d)[Parent(p)].Dir? && ValidName(Name(p))
  {
    hide IsExcludedName, Target, Visible, ValidName;
    TargetIs(t, d, p);
    var q := Parent(p);
    TargetIs(t, d, q);
    if p in d.dirs || p in d.contents {
      assert InScope(p);
      if q == [] { RootIsNotDesired(t, d); } else { assert q in d.dirs; }
      ScopeUpward(p);
      assert Visible(q);
    } else {
      if Visible(p) {
        KeepsUpward(t, p);
        KeepsIsDirectory(t, p);
        KeepsIsDirectory(t, q);
        VisibleStepwise(p);
      } else if Visible(q) {
        assert Below(q, p);
        assert Keeps(t, q);
      } else {
        assert q in d.contents ==> InScope(q);
        if q in d.contents { InScopeIsVisible(q); }
      }
    }
  }

  lemma RootIsNotDesired(t: Tree, d: Desired)
    requires Consistent(d)
    ensures [] !in d.contents
  {
    assert !InScope([]);
  }

  lemma ScopeUpward(p: Path)
    requires InScope(p)
    ensures Visible(Parent(p)) && ValidName(Name(p))
  {
    VisiblePrefix(Parent(p), p);
  }

  lemma TargetIsWellFormed(t: Tree, d: Desired)
    requires WellFormed(t) && Consistent(d) && Closed(d) && !ReplacesExcludedState(t, d)
    ensures WellFormed(Target(t, d))
  {
    hide IsExcludedName, Target, Consistent, Closed, ReplacesExcludedState;
    forall p | p in Target(t, d) && p != []
      ensures Parent(p) in Target(t, d) && Target(t, d)[Parent(p)].Dir? && ValidName(Name(p))
    {
      TargetParents(t, d, p);
    }
    TargetIs(t, d, []);
    RootIsVisible();
    RootIsNotDesired(t, d);
  }

  /** Idempotence: restoring the same snapshot again changes nothing. */
  lemma SecondRestoreChangesNothing(t: Tree, d: Desired)
    requires WellFormed(t) && Consistent(d) && Closed(d) && !ReplacesExcludedState(t, d)
    ensures Target(Target(t, d), d) == Target(t, d)
  {
    hide IsExcludedName, Target, Consistent, Closed, ReplacesExcludedState;
    TargetIsWellFormed(t, d);
    HiddenOfTarget(t, d);
    TargetIsStable(Target(t, d), t, d);
  }
}
