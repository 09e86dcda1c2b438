/**
 Who may do what at the same time.  Any number of threads (the message thread, response
 workers, the Telegram thread, send timers) call the operations of the orchestrator; those
 that touch checkpoints or run commands share one re-entrant lock.  Pausing and resuming do
 not take it.
 */
module LockProtocol {
  import opened Wrappers
  import HostMachine

  type ThreadId = nat

  /** Where a thread is. */
  datatype Pc =
    | Idle
    // rollback_checkpoint
    | RollFlag                 // unlocked check of command_execution_active
    | RollPaused               // unlocked check of paused
    | RollLock                 // with self.lock
    | RollFlagAgain
    | RollPausedAgain
    | Restoring                // everything after the checks
    // accept_checkpoint
    | AcceptFlag
    | AcceptLock
    | AcceptFlagAgain
    | Accepting
    // resolve_recovery
    | DecideLock
    | Deciding
    // resolve_approval and process_assistant_response
    | RunLock
    | Inside
    | Opening                  // _run_command_and_continue: is a window already active?
    | Setting                  // command_execution_active = True
    | InWindow
    | Raised                   // RuntimeError: already active
    // a send timer, or a send from inside: dispatch
    | TimerLock
    | Dispatching
    | SendLock(inWindow: bool)
    | Sending(inWindow: bool)
    // the end of the with block
    | Leaving

  datatype Call = Rollback | Accept | Decide | Run | Timer

  datatype World = World(owner: Option<ThreadId>, depth: nat, flag: bool, paused: bool, pcs: map<ThreadId, Pc>)

  datatype Action =
    | Begin(t: ThreadId, call: Call)
    | CheckFlag(t: ThreadId)
    | CheckPaused(t: ThreadId)
    | Acquire(t: ThreadId)
    | Open(t: ThreadId)          // the response or the approval has commands to run
    | SetFlag(t: ThreadId)
    | Send(t: ThreadId)          // _send_result_to_chatgpt without a delay
    | CloseWindow(t: ThreadId)   // the loop returns or raises: finally
    | Finish(t: ThreadId)        // the locked part is done
    | Release(t: ThreadId)
    | SetPaused(value: bool)     // pause, resume, a safety signal, a refused budget
    | Crash

  predicate Initial(w: World) {
    w.owner == None && w.depth == 0 && !w.flag && w.pcs == map[]
  }

  function PcOf(w: World, t: ThreadId): Pc {
    if t in w.pcs then w.pcs[t] else Idle
  }

  predicate WantsLock(pc: Pc) {
    pc.RollLock? || pc.AcceptLock? || pc.DecideLock? || pc.RunLock? || pc.TimerLock? || pc.SendLock?
  }

  predicate IsBody(pc: Pc) {
    pc.Restoring? || pc.Accepting? || pc.Deciding? || pc.Inside? || pc.Dispatching? || pc.Raised?
  }

  predicate Enabled(w: World, a: Action) {
    match a
    case Begin(t, _) => PcOf(w, t).Idle?
    case CheckFlag(t) =>
      var pc := PcOf(w, t);
      pc.RollFlag? || pc.RollFlagAgain? || pc.AcceptFlag? || pc.AcceptFlagAgain? || pc.Opening?
    case CheckPaused(t) => PcOf(w, t).RollPaused? || PcOf(w, t).RollPausedAgain?
    case Acquire(t) => WantsLock(PcOf(w, t)) && (w.owner.None? || w.owner == Some(t))
    case Open(t) => PcOf(w, t).Inside?
    case SetFlag(t) => PcOf(w, t).Setting?
    case Send(t) => PcOf(w, t).Inside? || PcOf(w, t).InWindow?
    case CloseWindow(t) => PcOf(w, t).InWindow?
    case Finish(t) => IsBody(PcOf(w, t))
    case Release(t) => PcOf(w, t).Leaving? || PcOf(w, t).Sending?
    case SetPaused(_) => true
    case Crash => true
  }

  function FirstOf(call: Call): Pc {
    match call
    case Rollback => RollFlag
    case Accept => AcceptFlag
    case Decide => DecideLock
    case Run => RunLock
    case Timer => TimerLock
  }

  /** A check that finds the flag set turns the caller away; one that does not lets it go on. */
  function AfterFlag(pc: Pc, flag: bool): Pc {
    match pc
    case RollFlag => if flag then Idle else RollPaused
    case RollFlagAgain => if flag then Leaving else RollPausedAgain
    case AcceptFlag => if flag then Idle else AcceptLock
    case AcceptFlagAgain => if flag then Leaving else Accepting
    case Opening => if flag then Raised else Setting
    case _ => pc
  }

  function AfterPaused(pc: Pc, paused: bool): Pc {
    match pc
    case RollPaused => if paused then RollLock else Idle
    case RollPausedAgain => if paused then Restoring else Leaving
    case _ => pc
  }

  function AfterAcquire(pc: Pc): Pc {
    match pc
    case RollLock => RollFlagAgain
    case AcceptLock => AcceptFlagAgain
    case DecideLock => Deciding
    case RunLock => Inside
    case TimerLock => Dispatching
    case SendLock(inWindow) => Sending(inWindow)
    case _ => pc
  }

  function AfterRelease(pc: Pc): Pc {
    match pc
    case Sending(inWindow) => if inWindow then InWindow else Inside
    case _ => Idle
  }

  function Moved(w: World, t: ThreadId, pc: Pc): World {
    w.(pcs := w.pcs[t := pc])
  }

  function Apply(w: World, a: Action): World
    requires Enabled(w, a)
  {
    match a
    case Begin(t, call) => Moved(w, t, FirstOf(call))
    case CheckFlag(t) => Moved(w, t, AfterFlag(PcOf(w, t), w.flag))
    case CheckPaused(t) => Moved(w, t, AfterPaused(PcOf(w, t), w.paused))
    case Acquire(t) => Moved(w, t, AfterAcquire(PcOf(w, t))).(owner := Some(t), depth := w.depth + 1)
    case Open(t) => Moved(w, t, Opening)
    case SetFlag(t) => Moved(w, t, InWindow).(flag := true)
    case Send(t) => Moved(w, t, SendLock(PcOf(w, t).InWindow?))
    case CloseWindow(t) => Moved(w, t, Leaving).(flag := false)
    case Finish(t) => Moved(w, t, Leaving)
    case Release(t) =>
      var w' := Moved(w, t, AfterRelease(PcOf(w, t)));
      if w.depth <= 1 then w'.(owner := None, depth := 0) else w'.(depth := w.depth - 1)
    case SetPaused(value) => w.(paused := value)
    case Crash => World(None, 0, false, w.paused, map[])
  }

  ghost predicate IsRun(trail: seq<World>) {
    && trail != [] && Initial(trail[0])
    && forall i :: 0 <= i < |trail| - 1 ==> StepAt(trail, i)
  }

  ghost predicate StepAt(trail: seq<World>, i: nat)
    requires i < |trail| - 1
  {
    exists a :: Enabled(trail[i], a) && trail[i + 1] == Apply(trail[i], a)
  }

  // ---- what every step keeps ----

  /** How often a thread at this point has entered the lock without leaving it. */
  function Holds(pc: Pc): nat {
    match pc
    case Idle => 0
    case RollFlag => 0
    case RollPaused => 0
    case AcceptFlag => 0
    case Sending(_) => 2
    case SendLock(_) => 1
    case _ => if WantsLock(pc) then 0 else 1
  }

  /** The thread has set the flag and not yet cleared it. */
  predicate HasWindow(pc: Pc) {
    pc.InWindow? || (pc.SendLock? && pc.inWindow) || (pc.Sending? && pc.inWindow)
  }

  /** The lock is held as the program points say, and the flag is up exactly during a window. */
  ghost predicate Inv(w: World) {
    && (w.owner.None? <==> w.depth == 0)
    && (forall t: ThreadId :: Holds(PcOf(w, t)) == if w.owner == Some(t) then w.depth else 0)
    && (w.flag <==> w.owner.Some? && HasWindow(PcOf(w, w.owner.value)))
    && (forall t: ThreadId :: !PcOf(w, t).Raised?)
  }

  lemma MovingKeeps(w: World, t: ThreadId, pc: Pc)
    requires Inv(w) && Holds(pc) == Holds(PcOf(w, t)) && HasWindow(pc) == HasWindow(PcOf(w, t)) && !pc.Raised?
    ensures Inv(Moved(w, t, pc))
  {
    hide Holds, HasWindow;
    var w' := Moved(w, t, pc);
    forall u: ThreadId ensures PcOf(w', u) == if u == t then pc else PcOf(w, u) { }
    forall u: ThreadId
      ensures Holds(PcOf(w', u)) == (if w.owner == Some(u) then w.depth else 0) && !PcOf(w', u).Raised?
    {
      assert Holds(PcOf(w, u)) == if w.owner == Some(u) then w.depth else 0;
    }
  }

  /** Whoever finds the flag set does so without the lock. */
  lemma FlagIsDownInside(w: World, t: ThreadId)
    requires Inv(w) && Holds(PcOf(w, t)) > 0 && !HasWindow(PcOf(w, t))
    ensures !w.flag && w.owner == Some(t)
  {
    hide Holds, HasWindow;
  }

  lemma CheckingKeeps(w: World, a: Action)
    requires Inv(w) && Enabled(w, a) && (a.CheckFlag? || a.CheckPaused?)
    ensures Inv(Apply(w, a))
  {
    var pc := PcOf(w, a.t);
    if Holds(pc) > 0 { FlagIsDownInside(w, a.t); }
    var pc' := if a.CheckFlag? then AfterFlag(pc, w.flag) else AfterPaused(pc, w.paused);
    assert Holds(pc') == Holds(pc);
    MovingKeeps(w, a.t, pc');
  }

  lemma WalkingKeeps(w: World, a: Action)
    requires Inv(w) && Enabled(w, a) && (a.Begin? || a.Open? || a.Send? || a.Finish?)
    ensures Inv(Apply(w, a))
  {
    var pc' := match a
      case Begin(t, call) => FirstOf(call)
      case Open(t) => Opening
      case Send(t) => SendLock(PcOf(w, t).InWindow?)
      case _ => Leaving;
    MovingKeeps(w, a.t, pc');
  }

  lemma LockingKeeps(w: World, a: Action)
    requires Inv(w) && Enabled(w, a) && (a.Acquire? || a.Release?)
    ensures Inv(Apply(w, a))
  {
    var w' := Apply(w, a);
    forall u: ThreadId ensures u != a.t ==> PcOf(w', u) == PcOf(w, u) { }
    assert Holds(PcOf(w, a.t)) == if w.owner == Some(a.t) then w.depth else 0;
    forall u: ThreadId
      ensures Holds(PcOf(w', u)) == (if w'.owner == Some(u) then w'.depth else 0) && !PcOf(w', u).Raised?
    {
      assert Holds(PcOf(w, u)) == if w.owner == Some(u) then w.depth else 0;
    }
  }

  lemma FlaggingKeeps(w: World, a: Action)
    requires Inv(w) && Enabled(w, a) && (a.SetFlag? || a.CloseWindow?)
    ensures Inv(Apply(w, a))
  {
    var w' := Apply(w, a);
    assert w.owner == Some(a.t) by { assert Holds(PcOf(w, a.t)) == 1; }
    forall u: ThreadId ensures u != a.t ==> PcOf(w', u) == PcOf(w, u) { }
  }

  lemma PausingKeeps(w: World, value: bool)
    requires Inv(w)
    ensures Inv(w.(paused := value))
  {
    hide Holds, HasWindow;
    var w' := w.(paused := value);
    forall u: ThreadId
      ensures Holds(PcOf(w', u)) == (if w.owner == Some(u) then w.depth else 0) && !PcOf(w', u).Raised?
    {
      assert PcOf(w', u) == PcOf(w, u);
    }
  }

  lemma StepKeeps(w: World, a: Action)
    requires Inv(w) && Enabled(w, a)
    ensures Inv(Apply(w, a))
  {
    match a
    case SetPaused(value) => PausingKeeps(w, value);
    case Crash =>
    case Acquire(_) => hide Inv, Enabled, Apply; LockingKeeps(w, a);
    case Release(_) => hide Inv, Enabled, Apply; LockingKeeps(w, a);
    case SetFlag(_) => hide Inv, Enabled, Apply; FlaggingKeeps(w, a);
    case CloseWindow(_) => hide Inv, Enabled, Apply; FlaggingKeeps(w, a);
    case CheckFlag(_) => hide Inv, Enabled, Apply; CheckingKeeps(w, a);
    case CheckPaused(_) => hide Inv, Enabled, Apply; CheckingKeeps(w, a);
    case _ => hide Inv, Enabled, Apply; WalkingKeeps(w, a);
  }

  lemma {:induction false} RunKeeps(trail: seq<World>, n: nat)
    requires IsRun(trail) && n < |trail|
    ensures Inv(trail[n])
  {
    hide Enabled, Apply;
    if n > 0 {
      hide Inv, Initial;
      RunKeeps(trail, n - 1);
      assert StepAt(trail, n - 1);
      var a :| Enabled(trail[n - 1], a) && trail[n] == Apply(trail[n - 1], a);
      StepKeeps(trail[n - 1], a);
    }
  }

  // ---- the main results ----

  /** The part of an operation that must not overlap with another one. */
  predicate IsCritical(pc: Pc) {
    pc.Restoring? || pc.Accepting? || pc.Deciding? || HasWindow(pc)
  }

  /**
   Mutual exclusion: no two threads are at the same time in a restore, an acceptance, a
   decision or a command window, so at most one window is open.  The flag is up exactly
   while one is, also when the loop ends with an exception.
   */
  lemma NoTwoOverlap(trail: seq<World>, n: nat, t: ThreadId, u: ThreadId)
    requires IsRun(trail) && n < |trail|
    ensures IsCritical(PcOf(trail[n], t)) && IsCritical(PcOf(trail[n], u)) ==> t == u
    ensures trail[n].flag <==> exists s: ThreadId :: HasWindow(PcOf(trail[n], s))
  {
    hide IsRun;
    RunKeeps(trail, n);
    var w := trail[n];
    assert Holds(PcOf(w, t)) == if w.owner == Some(t) then w.depth else 0;
    assert Holds(PcOf(w, u)) == if w.owner == Some(u) then w.depth else 0;
    if w.flag { assert HasWindow(PcOf(w, w.owner.value)); }
    if s: ThreadId :| HasWindow(PcOf(w, s)) {
      assert Holds(PcOf(w, s)) == if w.owner == Some(s) then w.depth else 0;
    }
  }

  /** Inside the lock, at or after a look at the flag, and not in a window of one's own. */
  predicate IsPastLook(pc: Pc) {
    || pc.Opening? || pc.Setting? || pc.RollFlagAgain? || pc.RollPausedAgain? || pc.AcceptFlagAgain?
    || pc.Restoring? || pc.Accepting? || pc.Deciding?
  }

  /**
   Nobody ever sees "a window is already active", and the second look at the flag never
   finds what the first one did not: both are taken under the lock that a window holds.
   */
  lemma SecondLookIsClear(trail: seq<World>, n: nat, t: ThreadId)
    requires IsRun(trail) && n < |trail|
    ensures var pc := PcOf(trail[n], t);
            && !pc.Raised?
            && (IsPastLook(pc) ==> !trail[n].flag)
  {
    hide IsRun;
    RunKeeps(trail, n);
    var pc := PcOf(trail[n], t);
    if Holds(pc) > 0 && !HasWindow(pc) { FlagIsDownInside(trail[n], t); }
  }

  /** A thread gets into a restore only when the run is paused, and into one or an acceptance only outside all windows. */
  lemma RestoringBeginsPaused(w: World, a: Action, t: ThreadId)
    requires Enabled(w, a) && PcOf(Apply(w, a), t) != PcOf(w, t)
    ensures PcOf(Apply(w, a), t).Restoring? ==> a == CheckPaused(t) && w.paused && w.owner == Apply(w, a).owner
    ensures PcOf(Apply(w, a), t).Accepting? || PcOf(Apply(w, a), t).RollPausedAgain? ==> a == CheckFlag(t) && !w.flag
    ensures PcOf(Apply(w, a), t).InWindow? && !PcOf(w, t).Sending? ==> a == SetFlag(t) && PcOf(w, t).Setting?
    ensures PcOf(Apply(w, a), t).Setting? ==> a == CheckFlag(t) && !w.flag
  {
  }

  predicate MovesOn(a: Action, t: ThreadId) {
    match a
    case Begin(u, _) => u == t
    case SetPaused(_) => false
    case Crash => false
    case _ => a.t == t
  }

  /** The lock is re-entrant for a reason: its holder can always go on, also to send from a window. */
  lemma HolderIsNeverStuck(trail: seq<World>, n: nat)
    requires IsRun(trail) && n < |trail| && trail[n].owner.Some?
    ensures exists a :: Enabled(trail[n], a) && MovesOn(a, trail[n].owner.value)
  {
    hide IsRun;
    RunKeeps(trail, n);
    var w := trail[n];
    var t := w.owner.value;
    assert Holds(PcOf(w, t)) == w.depth > 0;
    var next := match PcOf(w, t)
      case RollFlagAgain => CheckFlag(t)
      case RollPausedAgain => CheckPaused(t)
      case AcceptFlagAgain => CheckFlag(t)
      case Opening => CheckFlag(t)
      case Setting => SetFlag(t)
      case InWindow => CloseWindow(t)
      case SendLock(_) => Acquire(t)
      case Sending(_) => Release(t)
      case Leaving => Release(t)
      case _ => Finish(t);
    assert Enabled(w, next) && MovesOn(next, t);
  }

  // ---- the second look at paused is needed ----

  lemma OneStepMore(trail: seq<World>, a: Action) returns (longer: seq<World>)
    requires IsRun(trail) && Enabled(trail[|trail| - 1], a)
    ensures IsRun(longer) && longer == trail + [Apply(trail[|trail| - 1], a)]
  {
    hide Initial, Enabled, Apply;
    longer := trail + [Apply(trail[|trail| - 1], a)];
    forall i | 0 <= i < |longer| - 1 ensures StepAt(longer, i) {
      if i < |trail| - 1 {
        assert StepAt(trail, i);
        assert longer[i] == trail[i] && longer[i + 1] == trail[i + 1];
      } else {
        assert longer[i] == trail[|trail| - 1];
        assert Enabled(longer[i], a) && longer[i + 1] == Apply(longer[i], a);
      }
    }
  }

  /** The run is resumed between the two looks: the rollback is turned away under the lock. */
  lemma ResumedBetweenLooks() returns (trail: seq<World>)
    ensures IsRun(trail) && |trail| >= 2
    ensures var w := trail[|trail| - 2];
            && PcOf(w, 1).RollPausedAgain? && !w.paused && !w.flag
            && trail[|trail| - 1] == Apply(w, CheckPaused(1)) && PcOf(trail[|trail| - 1], 1).Leaving?
  {
    trail := [World(None, 0, false, true, map[])];
    assert IsRun(trail);
    hide IsRun;
    trail := OneStepMore(trail, Begin(1, Rollback));
    trail := OneStepMore(trail, CheckFlag(1));
    trail := OneStepMore(trail, CheckPaused(1));
    trail := OneStepMore(trail, SetPaused(false));
    trail := OneStepMore(trail, Acquire(1));
    trail := OneStepMore(trail, CheckFlag(1));
    trail := OneStepMore(trail, CheckPaused(1));
  }

  // ---- one program counter is enough ----

  /** What the holder of the lock is about; nothing, when nobody changes rows, trees or runs. */
  datatype Kind = Nothing | RollingBack | Resolving | Running

  function KindOf(pc: Pc): Kind {
    if pc.Restoring? then RollingBack
    else if pc.Deciding? then Resolving
    else if HasWindow(pc) then Running
    else Nothing
  }

  /** The view that HostMachine takes: what the one thread is about that is about anything. */
  function View(w: World): Kind {
    if w.owner.None? then Nothing else KindOf(PcOf(w, w.owner.value))
  }

  function HostKind(pc: HostMachine.Pc): Kind {
    if pc.Free? then Nothing
    else if HostMachine.InResolution(pc) then Resolving
    else if HostMachine.InRollback(pc) then RollingBack
    else Running
  }

  /**
   HostMachine has one program counter.  Among the threads there is at most one that is about
   anything, it is the one in view, and the view changes only from nothing and to nothing,
   as the program counter does.
   */
  lemma OnlyTheHolderIsBusy(trail: seq<World>, n: nat, t: ThreadId)
    requires IsRun(trail) && n + 1 < |trail|
    ensures KindOf(PcOf(trail[n], t)) != Nothing ==> View(trail[n]) == KindOf(PcOf(trail[n], t))
    ensures KindChanges(View(trail[n]), View(trail[n + 1]))
  {
    hide Enabled, Apply, Initial;
    RunKeeps(trail, n);
    var w := trail[n];
    assert Holds(PcOf(w, t)) == if w.owner == Some(t) then w.depth else 0;
    assert StepAt(trail, n);
    var a :| Enabled(w, a) && trail[n + 1] == Apply(w, a);
    ViewChanges(w, a);
  }

  lemma ViewChanges(w: World, a: Action)
    requires Inv(w) && Enabled(w, a)
    ensures KindChanges(View(w), View(Apply(w, a)))
  {
    if w.owner.Some? {
      assert Holds(PcOf(w, w.owner.value)) == w.depth > 0;
    }
  }

  predicate KindChanges(k: Kind, k': Kind) {
    k' == k || k == Nothing || k' == Nothing
  }

  lemma HostRollbackChanges(w: HostMachine.World, a: HostMachine.RollbackAction)
    requires HostMachine.RollbackEnabled(w, a)
    ensures KindChanges(HostKind(w.pc), HostKind(HostMachine.RollbackApply(w, a).pc))
  {
  }

  lemma HostExecChanges(w: HostMachine.World, a: HostMachine.ExecAction)
    requires HostMachine.ExecEnabled(w, a)
    ensures KindChanges(HostKind(w.pc), HostKind(HostMachine.ExecApply(w, a).pc))
  {
  }

  lemma HostFieldsChange(w: HostMachine.World, a: HostMachine.FieldAction)
    requires HostMachine.FieldEnabled(w, a)
    ensures HostMachine.FieldApply(w, a).pc == w.pc
  {
  }

  lemma HostCounterChanges(w: HostMachine.World, a: HostMachine.Action)
    requires HostMachine.Enabled(w, a)
    ensures KindChanges(HostKind(w.pc), HostKind(HostMachine.Apply(w, a).pc))
  {
    assert HostKind(HostMachine.Free) == Nothing;
    hide HostMachine.FieldApply, HostMachine.FieldEnabled, HostMachine.RollbackApply, HostMachine.RollbackEnabled,
      HostMachine.ExecApply, HostMachine.ExecEnabled, HostMachine.RestoreAllows, HostKind;
    match a
    case Process(p) =>
    case Fields(f) => HostFieldsChange(w, f);
    case Rollback(r) => HostRollbackChanges(w, r);
    case Exec(e) => HostExecChanges(w, e);
  }
}
