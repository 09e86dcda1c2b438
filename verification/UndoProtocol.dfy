/**
 The undo theorem for whole runs of the host: what a checkpoint row promises, from the
 command it was taken for to the end of its rollback.
 */
module UndoProtocol {
  import opened Wrappers
  import opened FileTree
  import opened CheckpointSnapshot
  import opened SnapshotExtraction
  import opened SnapshotRestoreTheorems
  import opened WorkspaceScan
  import opened RestorePlan
  import opened CheckpointRestore
  import opened UndoTheorems
  import opened HostState
  import opened HostMachine
  import RollbackProtocol
  import GuardedExecution

  ghost predicate RowIsCapture(w: World, c: Id)
    requires c in w.disk.rows
  {
    && c in w.history.taken
    && var t := w.history.taken[c];
    && WellFormed(t.tree) && Capturable(t.tree, DEFAULT_LIMITS)
    && IsSnapshotOf(w.disk.rows[c].snapshot, w.disk.rows[c].workspace, t.tree, t.links, DEFAULT_LIMITS)
  }

  ghost predicate TreesAreFine(w: World) {
    && (forall root :: root in w.trees ==> WellFormed(w.trees[root]))
    && (w.pc.Restoring? ==>
          && WellFormed(w.pc.now) && w.disk.workspace in w.trees
          && Hidden(w.trees[w.disk.workspace]) == Hidden(w.pc.now))
  }

  ghost predicate UndoInv(w: World) {
    && (forall c :: c in w.disk.rows ==> RowIsCapture(w, c))
    && TreesAreFine(w)
  }

  // ---- every step keeps it ----

  /** Rows keep what they captured, and what was captured is not forgotten. */
  ghost predicate CapturesStay(w: World, w': World) {
    && w'.history.taken == w.history.taken
    && forall c :: c in w'.disk.rows ==>
         && c in w.disk.rows
         && w'.disk.rows[c].workspace == w.disk.rows[c].workspace
         && w'.disk.rows[c].snapshot == w.disk.rows[c].snapshot
  }

  lemma StayingKeeps(w: World, w': World)
    requires UndoInv(w) && CapturesStay(w, w') && TreesAreFine(w')
    ensures UndoInv(w')
  {
    hide WellFormed, Capturable, IsSnapshotOf, TreesAreFine;
    forall c | c in w'.disk.rows ensures RowIsCapture(w', c) {
      assert RowIsCapture(w, c);
    }
  }

  lemma ProcessStays(w: World, a: ProcessAction)
    requires UndoInv(w) && ProcessEnabled(w, a)
    ensures CapturesStay(w, ProcessApply(w, a)) && TreesAreFine(ProcessApply(w, a))
  {
    hide WellFormed, Hidden, RequiresRecovery, RowIsCapture, OnlyControlMoves, WithControl;
    if a.WriteControl? { ControlIsHidden(w.trees[w.disk.workspace], a.tree, w.pc.now); }
  }

  /** The host's own files are out of scope. */
  lemma ControlIsHidden(t: Tree, u: Tree, now: Tree)
    requires WellFormed(now) && WellFormed(u) && OnlyControlMoves(t, u) && Hidden(t) == Hidden(now)
    ensures WellFormed(WithControl(now, u)) && Hidden(WithControl(now, u)) == Hidden(u)
  {
    var n := WithControl(now, u);
    forall p | p in n && p != [] ensures Parent(p) in n && n[Parent(p)].Dir? && ValidName(Name(p)) {
      assert |p| > 1 ==> IsControl(Parent(p)) == IsControl(p);
    }
    forall p | !Visible(p) ensures p in n <==> p in u {
      if !IsControl(p) { SameOutside(t, now, p); }
    }
    forall p | !Visible(p) && p in n ensures n[p] == u[p] {
      if !IsControl(p) { SameOutside(t, now, p); }
    }
    forall p | IsControl(p) ensures !Visible(p) { }
    assert Hidden(n) == Hidden(u);
  }

  predicate SameAt(t: Tree, u: Tree, p: Path) {
    (p in t <==> p in u) && (p in t ==> t[p] == u[p])
  }

  lemma SameOutside(t: Tree, u: Tree, p: Path)
    requires Hidden(t) == Hidden(u) && !Visible(p)
    ensures SameAt(t, u, p)
  {
    assert p in Hidden(t) <==> p in Hidden(u);
    assert p in t ==> Hidden(t)[p] == t[p];
    assert p in u ==> Hidden(u)[p] == u[p];
  }

  /** What the host writes there decides nothing: whether a restore is accepted is not about it. */
  lemma ControlDecidesNothing(s: Snapshot, archive: seq<Member>, root: string, t: Tree, u: Tree)
    requires Extractable(s)
    ensures Restorable(s, archive, root, WithControl(t, u)) <==> Restorable(s, archive, root, t)
  {
    hide WellFormed, Extractable, Keeps, WithControl, DesiredOf, Visible;
    var n := WithControl(t, u);
    RestorableIsConsistent(s);
    forall p | Visible(p) ensures SameAt(t, n, p) && (p != [] ==> (Keeps(n, p) <==> Keeps(t, p))) {
      ControlIsElsewhere(t, u, p);
    }
    assert VisibleEntries(n) == VisibleEntries(t);
  }

  lemma ControlIsElsewhere(t: Tree, u: Tree, p: Path)
    requires Visible(p)
    ensures SameAt(t, WithControl(t, u), p)
    ensures p != [] ==> (Keeps(WithControl(t, u), p) <==> Keeps(t, p))
  {
    assert !IsControl(p);
    forall q | p != [] && Below(p, q) ensures !IsControl(q) { assert q[0] == p[0]; }
  }

  lemma FieldsStay(w: World, a: FieldAction)
    requires UndoInv(w) && FieldEnabled(w, a)
    ensures CapturesStay(w, FieldApply(w, a)) && TreesAreFine(FieldApply(w, a))
  {
    hide WellFormed, Hidden, RowIsCapture;
  }

  lemma RollbackCapturesStay(w: World, a: RollbackAction)
    requires RollbackEnabled(w, a) && (WritesRow(a) ==> RollbackProtocol.PcFitsRow(w))
    ensures CapturesStay(w, RollbackApply(w, a))
  {
    if WritesRow(a) {
    } else {
      assert RollbackApply(w, a).disk.rows == w.disk.rows;
    }
  }

  lemma RollbackTreesStay(w: World, a: RollbackAction)
    requires TreesAreFine(w) && RollbackEnabled(w, a) && RestoreAllows(w, a)
    ensures TreesAreFine(RollbackApply(w, a))
  {
    hide WellFormed, Hidden, Restorable, Target, NoVisibleSpecial;
    if a.MoveRestore? {
      assert Intermediate(w.pc.now, a.u);
    } else {
      assert RollbackApply(w, a).trees == w.trees;
    }
  }

  lemma ExecKeeps(w: World, a: ExecAction)
    requires UndoInv(w) && ExecEnabled(w, a)
    ensures UndoInv(ExecApply(w, a))
  {
    hide WellFormed, Capturable, IsSnapshotOf, Hidden, RowIsCapture;
    var w' := ExecApply(w, a);
    forall c | c in w'.disk.rows ensures RowIsCapture(w', c) {
      if c in w.disk.rows { RowStays(w, w', c); } else { FreshRow(w, a, c); }
    }
  }

  lemma RowStays(w: World, w': World, c: Id)
    requires c in w.disk.rows && RowIsCapture(w, c) && c in w'.disk.rows && w'.disk.rows[c] == w.disk.rows[c]
    requires c in w.history.taken ==> c in w'.history.taken && w'.history.taken[c] == w.history.taken[c]
    ensures RowIsCapture(w', c)
  {
    hide WellFormed, Capturable, IsSnapshotOf;
  }

  lemma FreshRow(w: World, a: ExecAction, c: Id)
    requires TreesAreFine(w) && ExecEnabled(w, a) && c !in w.disk.rows && c in ExecApply(w, a).disk.rows
    ensures RowIsCapture(ExecApply(w, a), c)
  {
    hide WellFormed, Capturable, IsSnapshotOf, Hidden;
    assert a.Save? && a.c == c;
  }

  lemma StepKeeps(w: World, a: Action)
    requires UndoInv(w) && RollbackProtocol.RollbackInv(w) && Enabled(w, a)
    ensures UndoInv(Apply(w, a))
  {
    hide UndoInv, CapturesStay, ProcessEnabled, ProcessApply, FieldEnabled, FieldApply, RollbackEnabled, RollbackApply,
      ExecEnabled, ExecApply, RestoreAllows, TreesAreFine, RollbackProtocol.PcFitsRow, RollbackProtocol.RollbackInv;
    var w' := Apply(w, a);
    match a
    case Process(p) => ProcessStays(w, p); StayingKeeps(w, w');
    case Fields(f) => FieldsStay(w, f); StayingKeeps(w, w');
    case Rollback(r) =>
      RollbackProtocol.InvFitsPc(w);
      RollbackCapturesStay(w, r);
      InvHasFineTrees(w);
      RollbackTreesStay(w, r);
      StayingKeeps(w, w');
    case Exec(e) => ExecKeeps(w, e);
  }

  lemma InvHasFineTrees(w: World)
    requires UndoInv(w)
    ensures TreesAreFine(w)
  {
  }

  lemma InitialIsFine(w: World)
    requires Initial(w)
    ensures UndoInv(w)
  {
  }

  lemma {:induction false} RunKeeps(trail: seq<World>, n: nat)
    requires IsRun(trail) && n < |trail|
    ensures UndoInv(trail[n])
  {
    hide UndoInv, Initial, Enabled, Apply, RollbackProtocol.RollbackInv;
    if n == 0 {
      InitialIsFine(trail[0]);
    } else {
      RunKeeps(trail, n - 1);
      RollbackProtocol.RunKeeps(trail, n - 1);
      assert StepAt(trail, n - 1);
      var a :| Enabled(trail[n - 1], a) && trail[n] == Apply(trail[n - 1], a);
      StepKeeps(trail[n - 1], a);
    }
  }

  // ---- the main results ----

  /** The restore of the checkpoint in trail[n] is about to return. */
  ghost predicate RestoreReturns(w: World, archive: seq<Member>) {
    Enabled(w, Rollback(ReturnRestore(archive)))
  }

  /**
   End-to-end undo: in any run, take the command some checkpoint was made for.  Whatever
   that command and everything after it did to the tree, when the rollback of the
   checkpoint returns, the visible files are those of the moment the command started, and
   everything out of scope is as the rollback met it, but for what the host itself wrote.
   */
  lemma RollbackUndoesTheCommand(trail: seq<World>, n: nat, archive: seq<Member>, run: RunId, k: nat)
    requires IsRun(trail) && n < |trail| && RestoreReturns(trail[n], archive)
    requires run in trail[n].history.runs && k < |trail[n].history.runs[run].started|
    requires trail[n].history.runs[run].started[k].checkpoint == Some(trail[n].pc.c)
    ensures var w := trail[n];
            && w.disk.workspace == w.history.runs[run].started[k].workspace
            && w.disk.workspace in w.trees
            && Undone(w.history.runs[run].started[k].tree, w.pc.now, w.trees[w.disk.workspace])
  {
    hide IsRun, WellFormed, Capturable, IsSnapshotOf, Restorable, Target, Undone, Closed, Hidden;
    var w := trail[n];
    var c := w.pc.c;
    RunKeeps(trail, n);
    RollbackProtocol.RunKeeps(trail, n);
    GuardedExecution.ProtectedCommandsHaveTheirCheckpoint(trail, n, run, k, run, k);
    assert RollbackProtocol.IsRolling(w.disk, c);
    assert RowIsCapture(w, c);
    var t := w.history.taken[c];
    var s := w.disk.rows[c].snapshot;
    assert Restorable(s, archive, w.disk.workspace, w.pc.now) by { assert RestoreAllows(w, ReturnRestore(archive)); }
    RestorableHasDigest(s, archive, w.disk.workspace, w.pc.now);
    RestoreUndoes(s, w.disk.workspace, t.tree, t.links, DEFAULT_LIMITS, w.pc.now);
  }

  lemma RestorableHasDigest(s: Snapshot, archive: seq<Member>, root: string, t: Tree)
    requires Restorable(s, archive, root, t)
    ensures Restorable(s, s.digest, root, t)
  {
    hide Extractable, Scannable, ReplacesExcludedState;
  }

  /**
   Whether a rollback is refused is settled by the captured tree and the tree it meets: with
   an intact archive it returns exactly if every captured name survives, no captured file is
   a second link, and neither tree has too many entries, holds an unsupported one, or would
   lose something out of scope to a captured file.
   */
  lemma WhenRollbackReturns(trail: seq<World>, n: nat)
    requires IsRun(trail) && n < |trail| && trail[n].pc.Restoring?
    ensures var w := trail[n];
            && w.pc.c in w.disk.rows && w.pc.c in w.history.taken
            && var before, links, now := w.history.taken[w.pc.c].tree, w.history.taken[w.pc.c].links, w.pc.now;
            && var s := w.disk.rows[w.pc.c].snapshot;
            Restorable(s, s.digest, w.disk.workspace, now) <==>
              && (forall p :: p in CapturedPaths(before) ==> NameSurvives(p))
              && links !! CapturedFiles(before).Keys
              && |CapturedPaths(before)| <= MAX_ARCHIVE_MEMBERS
              && Scannable(now)
              && !(exists p :: p in CapturedFiles(before) && p in now && now[p].Dir? && Keeps(now, p))
  {
    hide IsRun, WellFormed, Capturable, IsSnapshotOf, Restorable, Scannable, Keeps, CapturedPaths, CapturedFiles,
      NameSurvives, Hidden;
    var w := trail[n];
    RunKeeps(trail, n);
    RollbackProtocol.RunKeeps(trail, n);
    assert RollbackProtocol.IsRolling(w.disk, w.pc.c);
    assert RowIsCapture(w, w.pc.c);
    var t := w.history.taken[w.pc.c];
    WhenRollbackSucceeds(w.disk.rows[w.pc.c].snapshot, w.disk.workspace, t.tree, t.links, w.pc.now);
  }

  ghost predicate WritesControlAt(trail: seq<World>, i: nat) {
    exists tree :: i < |trail| - 1 && Enabled(trail[i], Process(WriteControl(tree)))
                   && trail[i + 1] == Apply(trail[i], Process(WriteControl(tree)))
  }

  /** A step within a restore moves nothing out of scope, unless the host writes its own files. */
  lemma StepSparesHiddenState(w: World, a: Action, p: Path)
    requires UndoInv(w) && Enabled(w, a) && w.pc.Restoring? && Apply(w, a).pc.Restoring? && !Visible(p)
    ensures var w' := Apply(w, a);
            && w'.disk.workspace == w.disk.workspace && w.disk.workspace in w'.trees
            && (SameAt(w.trees[w.disk.workspace], w'.trees[w.disk.workspace], p)
                || (IsControl(p) && a.Process? && a.process.WriteControl?))
  {
    hide WellFormed, Hidden, Restorable, Target, NoVisibleSpecial, RowIsCapture, RequiresRecovery, RestoredMemory;
    if a.Rollback? && a.rollback.MoveRestore? {
      assert Intermediate(w.pc.now, a.rollback.u);
      SameOutside(w.trees[w.disk.workspace], a.rollback.u, p);
    }
  }

  /**
   A rollback touches nothing out of scope, wherever it is cut off: from one moment of a
   restore to any later one, such a path changes only if it belongs to the host's own files
   and the host has written them in between.
   */
  lemma {:induction false} InterruptedRollbackSparesHiddenState(trail: seq<World>, k: nat, n: nat, p: Path)
    requires IsRun(trail) && k <= n < |trail| && !Visible(p)
    requires forall i :: k <= i <= n ==> trail[i].pc.Restoring?
    ensures var root := trail[k].disk.workspace;
            && trail[n].disk.workspace == root && root in trail[k].trees && root in trail[n].trees
            && (SameAt(trail[k].trees[root], trail[n].trees[root], p)
                || (IsControl(p) && exists i :: k <= i < n && WritesControlAt(trail, i)))
  {
    hide Enabled, Apply, Initial, SameAt, Visible, UndoInv, IsControl;
    RunKeeps(trail, n);
    if k < n {
      InterruptedRollbackSparesHiddenState(trail, k, n - 1, p);
      RunKeeps(trail, n - 1);
      assert StepAt(trail, n - 1);
      var a :| Enabled(trail[n - 1], a) && trail[n] == Apply(trail[n - 1], a);
      StepSparesHiddenState(trail[n - 1], a, p);
      if a.Process? && a.process.WriteControl? {
        assert a == Process(WriteControl(a.process.tree)) && WritesControlAt(trail, n - 1);
      }
      if SameAt(trail[n - 1].trees[trail[k].disk.workspace], trail[n].trees[trail[k].disk.workspace], p) {
        SameAtTwice(trail[k].trees[trail[k].disk.workspace], trail[n - 1].trees[trail[k].disk.workspace],
                    trail[n].trees[trail[k].disk.workspace], p);
      }
    } else {
      InvHasFineTrees(trail[n]);
      SameAsItself(trail[n].trees[trail[n].disk.workspace], p);
    }
  }

  lemma SameAtTwice(t: Tree, u: Tree, v: Tree, p: Path)
    ensures SameAt(t, u, p) && SameAt(u, v, p) ==> SameAt(t, v, p)
  {
  }

  lemma SameAsItself(t: Tree, p: Path)
    ensures SameAt(t, t, p)
  {
  }
}
