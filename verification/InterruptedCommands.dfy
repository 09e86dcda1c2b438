/**
 What a restart makes of a process that died while a command was out: whether it asks is
 decided by what is durable at that moment, and that by the crash boundary before the command
 and by whoever has persisted since.
 */
module InterruptedCommands {
  import opened Wrappers
  import opened HostState
  import opened HostMachine
  import RollbackProtocol
  import SnapshotFreshness

  /** A command has been announced, and may be running. */
  predicate IsOut(w: World) {
    w.pc.Window? && (w.pc.phase.Announced? || w.pc.phase.Executing?)
  }

  /** A snapshot that makes a restart ask. */
  predicate CallsForRecovery(r: Runtime) {
    IsUnderWay(r) || r.context.Some?
  }

  /** Every restart comes up paused, with nothing pending, and waits for a decision. */
  ghost predicate EveryRestartAsks(d: Disk) {
    forall found :: Finds(d, found) ==>
      var m := RestoredMemory(d, found);
      m.lifecycle.RecoveryRequired? && m.status.RecoveryRequired? && m.paused && m.pending == map[] && !m.executing
  }

  lemma NothingRollsInWindow(w: World)
    requires RollbackProtocol.RollbackInv(w) && w.pc.Window?
    ensures forall found :: Finds(w.disk, found) <==> found == None
  {
    forall c | c in w.disk.rows ensures !IsRollingBackIn(w.disk, c) {
      assert !RollbackProtocol.IsRolling(w.disk, c);
    }
  }

  /** Within a window, the durable snapshot alone decides. */
  lemma DiskDecides(w: World)
    requires RollbackProtocol.RollbackInv(w) && w.pc.Window?
    ensures EveryRestartAsks(w.disk) <==> w.disk.runtime.Some? && CallsForRecovery(w.disk.runtime.value)
  {
    hide RollbackProtocol.RollbackInv, RestoredMemory, Finds;
    NothingRollsInWindow(w);
    RestartNeverResumes(w.disk, None);
  }

  /** Only writing a snapshot that somebody else has taken changes what is durable while a command is out. */
  lemma DurableWhileOut(w: World, a: Action)
    requires Enabled(w, a) && IsOut(w) && IsOut(Apply(w, a))
    ensures Apply(w, a).disk.runtime ==
            if a.Fields? && a.fields.WriteSnapshot? then Some(w.drafts[a.fields.thread]) else w.disk.runtime
  {
    hide RestoredMemory, RestoreAllows;
  }

  /**
   Step by step while a command is out: a restart asks afterwards exactly if it asked before
   and no other thread's snapshot is written, or one is that calls for a recovery.
   */
  lemma AskingWhileOutIff(trail: seq<World>, n: nat, a: Action)
    requires IsRun(trail) && n + 1 < |trail| && Enabled(trail[n], a) && trail[n + 1] == Apply(trail[n], a)
    requires IsOut(trail[n]) && IsOut(trail[n + 1])
    ensures EveryRestartAsks(trail[n + 1].disk) <==>
              if a.Fields? && a.fields.WriteSnapshot? then CallsForRecovery(trail[n].drafts[a.fields.thread])
              else EveryRestartAsks(trail[n].disk)
  {
    hide IsRun, RollbackProtocol.RollbackInv, EveryRestartAsks, CallsForRecovery;
    RollbackProtocol.RunKeeps(trail, n);
    RollbackProtocol.RunKeeps(trail, n + 1);
    DiskDecides(trail[n]);
    DiskDecides(trail[n + 1]);
    DurableWhileOut(trail[n], a);
  }

  /** The step may put the fields of a host at work aside: a pause, a fault, an error. */
  predicate SetsFieldsAside(w: World, a: Action) {
    a.Fields? && w.memory.Some? && FieldEnabled(w, a.fields) && FieldApply(w, a.fields).memory.Some?
    && !CallsForRecovery(RuntimeSnapshot(FieldApply(w, a.fields).memory.value))
  }

  /** From the moment the fields say running to the end of the command. */
  predicate IsUnderTheCommand(w: World) {
    w.pc.Window? && (w.pc.phase.Starting? || w.pc.phase.Announced? || w.pc.phase.Executing?)
  }

  /** Somebody has put the run aside before the command was announced, or made it durable after. */
  predicate Overrides(w: World, a: Action) {
    if IsOut(w) then a.Fields? && a.fields.WriteSnapshot? && a.fields.thread in w.drafts
                     && !CallsForRecovery(w.drafts[a.fields.thread])
    else SetsFieldsAside(w, a)
  }

  ghost predicate OverridesAt(trail: seq<World>, i: nat) {
    exists a :: i < |trail| - 1 && Enabled(trail[i], a) && trail[i + 1] == Apply(trail[i], a) && Overrides(trail[i], a)
  }

  /** What is durable, or will be at the announcement, calls for a recovery. */
  predicate IsRemembered(w: World) {
    && w.memory.Some?
    && (w.pc.Window? && w.pc.phase.Starting? ==>
          && CallsForRecovery(RuntimeSnapshot(w.memory.value)) && (w.own.Some? ==> CallsForRecovery(w.own.value)))
    && (IsOut(w) ==> w.disk.runtime.Some? && CallsForRecovery(w.disk.runtime.value))
  }

  lemma FieldsRemember(w: World, f: FieldAction)
    requires FieldEnabled(w, f) && IsUnderTheCommand(w) && IsRemembered(w) && !Overrides(w, Fields(f))
    ensures IsRemembered(FieldApply(w, f))
  {
    hide IsUnderWay;
  }

  lemma ExecRemembers(w: World, a: ExecAction)
    requires ExecEnabled(w, a) && IsUnderTheCommand(w) && IsRemembered(w) && IsUnderTheCommand(ExecApply(w, a))
    ensures IsRemembered(ExecApply(w, a))
  {
    hide IsUnderWay;
  }

  lemma StepRemembers(w: World, a: Action)
    requires Enabled(w, a) && IsUnderTheCommand(w) && IsUnderTheCommand(Apply(w, a))
    requires IsRemembered(w) && !Overrides(w, a)
    ensures IsRemembered(Apply(w, a))
  {
    hide RestoredMemory, RestoreAllows, CallsForRecovery, FieldEnabled, FieldApply, ExecEnabled, ExecApply;
    match a
    case Process(_) =>
    case Fields(f) => FieldsRemember(w, f);
    case Rollback(_) =>
    case Exec(e) => ExecRemembers(w, e);
  }

  lemma SetRunningIsRemembered(trail: seq<World>, s: nat)
    requires IsRun(trail) && s < |trail| && Enabled(trail[s], Exec(SetRunning))
    ensures IsRemembered(Apply(trail[s], Exec(SetRunning)))
  {
    hide IsRun;
    SnapshotFreshness.RunAgrees(trail, s);
    assert SnapshotFreshness.OwnAgrees(trail[s]);
  }

  lemma {:induction false} CommandIsRemembered(trail: seq<World>, s: nat, n: nat)
    requires IsRun(trail) && s < n < |trail| && Enabled(trail[s], Exec(SetRunning))
    requires trail[s + 1] == Apply(trail[s], Exec(SetRunning))
    requires forall i :: s < i <= n ==> IsUnderTheCommand(trail[i])
    requires forall i :: s < i < n ==> !OverridesAt(trail, i)
    ensures IsRemembered(trail[n])
  {
    hide Enabled, Apply, IsRemembered, Overrides, IsUnderTheCommand;
    if n == s + 1 {
      SetRunningIsRemembered(trail, s);
    } else {
      CommandIsRemembered(trail, s, n - 1);
      assert StepAt(trail, n - 1);
      var a :| Enabled(trail[n - 1], a) && trail[n] == Apply(trail[n - 1], a);
      assert !OverridesAt(trail, n - 1);
      StepRemembers(trail[n - 1], a);
    }
  }

  /** At the announcement itself the snapshot taken for it decides. */
  lemma AskingAtTheAnnouncementIff(trail: seq<World>, n: nat)
    requires IsRun(trail) && n + 1 < |trail| && Enabled(trail[n], Exec(AnnounceCommand))
    requires trail[n + 1] == Apply(trail[n], Exec(AnnounceCommand))
    ensures EveryRestartAsks(trail[n + 1].disk) <==> CallsForRecovery(trail[n].own.value)
  {
    hide IsRun, RollbackProtocol.RollbackInv, EveryRestartAsks, CallsForRecovery;
    RollbackProtocol.RunKeeps(trail, n + 1);
    DiskDecides(trail[n + 1]);
  }

  /**
   A command that is cut off is asked about: at every moment from its announcement to its end,
   a crash and a restart come up paused in recovery_required with nothing pending, unless
   somebody has put the run aside before the announcement, or has persisted after it a
   snapshot that says so.
   */
  lemma CutOffCommandIsAskedAbout(trail: seq<World>, s: nat, n: nat)
    requires IsRun(trail) && s < n < |trail| && Enabled(trail[s], Exec(SetRunning))
    requires trail[s + 1] == Apply(trail[s], Exec(SetRunning))
    requires forall i :: s < i <= n ==> IsUnderTheCommand(trail[i])
    requires forall i :: s < i < n ==> !OverridesAt(trail, i)
    requires IsOut(trail[n])
    ensures EveryRestartAsks(trail[n].disk)
  {
    hide IsRun, RollbackProtocol.RollbackInv, EveryRestartAsks, CallsForRecovery, Overrides, Enabled, Apply;
    CommandIsRemembered(trail, s, n);
    RollbackProtocol.RunKeeps(trail, n);
    DiskDecides(trail[n]);
  }

  // ---- what lifts a pause ----

  /** The three ways to go on: a message, an approved course change, a decision on a host that is not guarded. */
  predicate LiftsThePause(w: World, a: Action) {
    match a
    case Fields(Message(_, _, paused, _)) => !paused
    case Fields(ResolveOther(id, approve, sent)) =>
      && approve && !sent.exhausted
      && w.memory.Some? && id in w.memory.value.pending && w.memory.value.pending[id].CourseChange?
    case Rollback(ClearFields) => w.pc.Expiring? && w.pc.prepare && w.memory.Some? && !w.memory.value.guarded
    case _ => false
  }

  lemma FieldsAndPause(w: World, f: FieldAction)
    requires FieldEnabled(w, f) && w.memory.value.paused
    ensures FieldApply(w, f).memory.Some?
    ensures !FieldApply(w, f).memory.value.paused <==> LiftsThePause(w, Fields(f))
  {
  }

  lemma RollbackAndPause(w: World, r: RollbackAction)
    requires RollbackEnabled(w, r) && w.memory.value.paused
    ensures RollbackApply(w, r).memory.Some?
    ensures !RollbackApply(w, r).memory.value.paused <==> LiftsThePause(w, Rollback(r))
  {
  }

  lemma ExecAndPause(w: World, e: ExecAction)
    requires ExecEnabled(w, e) && w.memory.value.paused
    ensures ExecApply(w, e).memory.Some? && ExecApply(w, e).memory.value.paused
  {
  }

  /** While the process lives, exactly these lift a pause, and nothing else ever does. */
  lemma PauseIsLiftedIff(w: World, a: Action)
    requires Enabled(w, a) && w.memory.Some? && w.memory.value.paused && Apply(w, a).memory.Some?
    ensures !Apply(w, a).memory.value.paused <==> LiftsThePause(w, a)
  {
    hide LiftsThePause, FieldEnabled, FieldApply, RollbackEnabled, RollbackApply, ExecEnabled, ExecApply, RestoreAllows;
    match a
    case Process(_) => NoProcessLifts(w, a);
    case Fields(f) => FieldsAndPause(w, f);
    case Rollback(r) => RollbackAndPause(w, r);
    case Exec(e) => ExecAndPause(w, e); NoProcessLifts(w, a);
  }

  lemma NoProcessLifts(w: World, a: Action)
    requires a.Process? || a.Exec?
    ensures !LiftsThePause(w, a)
  {
  }
}
