/**
 What the native host keeps: the rows and the runtime snapshot that survive a crash, the
 fields that do not, and what a restart makes of the former.
 */
module HostState {
  import opened Wrappers
  import opened FileTree
  import opened CheckpointSnapshot
  import Policy

  type Id = nat

  type ApprovalId = nat

  type RunId = nat

  type ThreadId = nat

  // ---- checkpoint rows ----

  datatype Status = Ready | Accepted | RollingBack | RolledBack | RollbackFailed | Invalid

  const CHECKPOINT_TRANSITIONS: map<Status, set<Status>> := map[
    Ready := {Accepted, RollingBack, Invalid},
    RollingBack := {RolledBack, RollbackFailed, Invalid},
    Accepted := {},
    RolledBack := {},
    RollbackFailed := {},
    Invalid := {}
  ]

  predicate Allowed(current: Status, target: Status) {
    current in CHECKPOINT_TRANSITIONS && target in CHECKPOINT_TRANSITIONS[current]
  }

  datatype Row = Row(status: Status, workspace: string, snapshot: Snapshot)

  // ---- the orchestrator's fields ----

  datatype Lifecycle =
    | Setup | Planning | ReadyToArm | Running | ChangeReview | Finishing | Idle | Paused
    | BudgetExhausted | ProtocolError | ProtocolBlocked | Complete | Recovering | RecoveryRequired

  datatype Activity =
    | Idle | Planning | PlanningError | ReadyToArm | Arming | Running | Validating | Checkpointing
    | Reporting | WaitingLlm | WaitingChatgpt | WaitingApproval | ChangeReview | Finishing | Complete
    | Recovering | RecoveryRequired | Cooldown | Paused | ProviderGuard | BudgetExhausted | Blocked
    | Failed | Error | ProtocolBlocked | ProjectStateError

  const RECOVERY_LIFECYCLES: set<Lifecycle> := {
    Lifecycle.Planning, Lifecycle.Running, Lifecycle.ChangeReview, Lifecycle.Finishing,
    Lifecycle.Recovering, Lifecycle.RecoveryRequired
  }

  const RECOVERY_STATUSES: set<Activity> := {
    Activity.Arming, Activity.Running, Activity.Validating, Activity.Reporting, Activity.WaitingLlm,
    Activity.WaitingChatgpt, Activity.WaitingApproval, Activity.ChangeReview, Activity.Finishing,
    Activity.Recovering, Activity.RecoveryRequired, Activity.Cooldown
  }

  /** Which checkpoint a recovery is about, and the status last seen for it. */
  datatype Context = Context(id: Id, status: Status)

  datatype Runtime = Runtime(
    lifecycle: Lifecycle, status: Activity, paused: bool, guarded: bool, context: Option<Context>)

  datatype ApprovalState = Pending | Approved | Rejected | Expired

  datatype Disk = Disk(
    runtime: Option<Runtime>,
    rows: map<Id, Row>,
    approvals: map<ApprovalId, ApprovalState>,
    workspace: string)

  /** What an approval continues with; continuations exist in memory only. */
  datatype Continuation =
    | CommandAt(run: RunId, index: nat)
    | ContractDecision
    | CourseChange

  datatype Memory = Memory(
    lifecycle: Lifecycle,
    status: Activity,
    paused: bool,
    guarded: bool,
    pending: map<ApprovalId, Continuation>,
    context: Option<Context>,
    executing: bool)

  /** The checkpoint a snapshot or the memory is about. */
  function ContextId(context: Option<Context>): Option<Id> {
    if context.Some? then Some(context.value.id) else None
  }

  function RuntimeSnapshot(m: Memory): Runtime {
    Runtime(m.lifecycle, m.status, m.paused, m.guarded, m.context)
  }

  // ---- restart ----

  predicate RequiresRecovery(r: Runtime) {
    r.lifecycle in RECOVERY_LIFECYCLES || r.status in RECOVERY_STATUSES
  }

  predicate IsRollingBackIn(d: Disk, c: Id) {
    c in d.rows && d.rows[c].status == RollingBack && d.rows[c].workspace == d.workspace
  }

  /** A possible answer to: which row of this workspace is rolling back? */
  ghost predicate Finds(d: Disk, found: Option<Id>) {
    match found
    case Some(c) => IsRollingBackIn(d, c)
    case None => forall c :: c in d.rows ==> !IsRollingBackIn(d, c)
  }

  /** The remembered context with the status its row has by now. */
  function Reconcile(d: Disk, context: Context): Context {
    if context.id in d.rows then Context(context.id, d.rows[context.id].status) else context
  }

  function RecoveredContext(d: Disk, found: Option<Id>): Option<Context> {
    if found.Some? then Some(Reconcile(d, Context(found.value, RollingBack)))
    else if d.runtime.Some? && d.runtime.value.context.Some? then
      Some(Reconcile(d, d.runtime.value.context.value))
    else None
  }

  const FRESH_MEMORY := Memory(Lifecycle.Setup, Activity.Idle, false, false, map[], None, false)

  /** The memory a restart builds.  Nothing executable is ever taken from the disk. */
  function RestoredMemory(d: Disk, found: Option<Id>): Memory {
    var context := RecoveredContext(d, found);
    if d.runtime.None? && found.None? then FRESH_MEMORY
    else
      var snapshot :=
        if d.runtime.Some? then d.runtime.value
        else Runtime(Lifecycle.Recovering, Activity.Recovering, true, false, context);
      if RequiresRecovery(snapshot) || context.Some? then
        Memory(Lifecycle.RecoveryRequired, Activity.RecoveryRequired, true, snapshot.guarded, map[], context, false)
      else if snapshot.guarded then
        Memory(Lifecycle.Paused, Activity.ProviderGuard, true, true, map[], None, false)
      else
        Memory(snapshot.lifecycle, snapshot.status, snapshot.paused, false, map[], None, false)
  }

  /** Restarting again, with or without anything persisted in between, changes nothing. */
  lemma RestartIsIdempotent(d: Disk, found: Option<Id>)
    requires Finds(d, found)
    ensures var m := RestoredMemory(d, found);
            RestoredMemory(d.(runtime := Some(RuntimeSnapshot(m))), found) == m
    ensures RestoredMemory(d, found).lifecycle != Lifecycle.RecoveryRequired ==>
              found == None && (d.runtime.Some? ==> !RequiresRecovery(d.runtime.value) && d.runtime.value.context.None?)
  {
  }

  /** Something was under way: a lifecycle or a status that somebody works in or waits in. */
  predicate IsUnderWay(r: Runtime) {
    || r.lifecycle.Planning? || r.lifecycle.Running? || r.lifecycle.ChangeReview? || r.lifecycle.Finishing?
    || r.lifecycle.Recovering? || r.lifecycle.RecoveryRequired?
    || r.status.Arming? || r.status.Running? || r.status.Validating? || r.status.Reporting?
    || r.status.WaitingLlm? || r.status.WaitingChatgpt? || r.status.WaitingApproval? || r.status.ChangeReview?
    || r.status.Finishing? || r.status.Recovering? || r.status.RecoveryRequired? || r.status.Cooldown?
  }

  /**
   Whatever is on the disk, a restart never comes up in the middle of something.  It asks,
   paused and with nothing pending, exactly if something was under way, a checkpoint is
   named or a row is rolling back; otherwise a guarded host comes up paused, and any other
   as it was.
   */
  lemma RestartNeverResumes(d: Disk, found: Option<Id>)
    ensures var m := RestoredMemory(d, found);
            var asks := found.Some? || (d.runtime.Some? && (IsUnderWay(d.runtime.value) || d.runtime.value.context.Some?));
            && m.pending == map[] && !m.executing
            && (asks <==> m.lifecycle.RecoveryRequired?) && (asks <==> m.status.RecoveryRequired?)
            && (asks ==> m.paused && m.guarded == (d.runtime.Some? && d.runtime.value.guarded))
            && (!asks ==> m.context.None? && !IsUnderWay(RuntimeSnapshot(m)))
            && (!asks && d.runtime.Some? && m.guarded ==>
                  m.paused && m.lifecycle.Paused? && m.status.ProviderGuard? && d.runtime.value.guarded)
            && (!asks && d.runtime.Some? && !m.guarded ==> RuntimeSnapshot(m) == d.runtime.value)
            && (d.runtime.None? && found.None? ==> m == FRESH_MEMORY)
  {
  }

  // ---- what has happened, for stating properties of whole runs ----

  datatype Command = Command(text: string, llm: Option<Policy.Risk>)

  /** A command was handed to the local process. */
  datatype Start = Start(
    index: nat,
    approval: Option<ApprovalId>,
    risk: Policy.EffectiveRisk,
    checkpoint: Option<Id>,
    epoch: nat,
    workspace: string,
    tree: Tree)

  datatype RunRecord = RunRecord(commands: seq<Command>, started: seq<Start>, outcomes: seq<bool>)

  datatype Issue = Issue(run: RunId, index: nat, epoch: nat)

  /** The tree a checkpoint captured, and the command it was taken for. */
  datatype Taken = Taken(tree: Tree, links: set<Path>, run: RunId, index: nat)

  /**
   Which snapshots are older than the last change of the checkpoint in question.  context
   is the checkpoint the memory was last about; oldDrafts are the threads that took their
   snapshot before that; diskIsOld says that the snapshot on the disk was taken before it.
   */
  datatype Freshness = Freshness(context: Option<Id>, oldDrafts: set<ThreadId>, diskIsOld: bool)

  /**
   epoch counts the crashes.  open is the checkpoint claimed last for which neither a
   completion nor a human decision has been made, unless a restart has lost sight of it.
   settled are those whose rollback or decision has reached the disk in full.
   */
  datatype History = History(
    epoch: nat,
    open: Option<Id>,
    freshness: Freshness,
    entered: multiset<Id>,
    returned: set<Id>,
    settled: set<Id>,
    runs: map<RunId, RunRecord>,
    issued: map<ApprovalId, Issue>,
    taken: map<Id, Taken>)

  const NO_HISTORY := History(0, None, Freshness(None, {}, false), multiset{}, {}, {}, map[], map[], map[])
}
