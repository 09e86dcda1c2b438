/**
 The host as a state machine over its steps.  Between any two steps the process may crash.
 One lock serialises rollback, recovery decisions, approvals and command windows; pc says how
 far its holder has come (see LockProtocol, and ThreadedHost for why one counter is enough).
 Everything that happens outside the lock may interleave.  In particular a thread first takes
 a snapshot of the fields and writes it some time later: what it writes may be out of date.
 */
module HostMachine {
  import opened Wrappers
  import opened FileTree
  import opened CheckpointSnapshot
  import opened SnapshotExtraction
  import opened RestorePlan
  import opened CheckpointRestore
  import opened HostState
  import Policy

  /** How far a command has come within a command window. */
  datatype Phase =
    | Choosing
    | Armed(risk: Policy.EffectiveRisk, checkpoint: Option<Id>)
    | Starting(risk: Policy.EffectiveRisk, checkpoint: Option<Id>)
    | Announced(risk: Policy.EffectiveRisk, checkpoint: Option<Id>)
    | Executing
    | Reporting

  datatype Pc =
    | Free
    // rollback_checkpoint
    | Begun(c: Id)
    | Announcing(c: Id)
    | Won(c: Id)
    | Named(c: Id)
    | Entering(c: Id)
    | Restoring(c: Id, now: Tree)  // the tree it met, but the host's own files as they are by now
    | Returned(c: Id)
    | Reviewed(c: Id)
    | Completed(c: Id)
    | Finished(c: Id)
    | Refused(c: Id)
    | MarkedFailed(c: Id)
    // resolve_recovery
    | Deciding(prepare: bool)
    | Expiring(prepare: bool, decided: Option<Id>)
    | Sealing(decided: Option<Id>)
    // _run_command_and_continue
    | Window(run: RunId, index: nat, approval: Option<ApprovalId>, workspace: string, phase: Phase)

  /**
   drafts are the snapshots that other threads have taken and not yet written; own is the
   one that the lock holder has taken.
   */
  datatype World = World(
    disk: Disk,
    memory: Option<Memory>,
    drafts: map<ThreadId, Runtime>,
    own: Option<Runtime>,
    trees: map<string, Tree>,
    pc: Pc,
    history: History)

  ghost predicate Initial(w: World) {
    && w.disk.runtime == None && w.disk.rows == map[] && w.disk.approvals == map[]
    && w.memory == None && w.drafts == map[] && w.own == None && w.pc == Free && w.history == NO_HISTORY
    && forall root :: root in w.trees ==> WellFormed(w.trees[root])
  }

  /** How reporting to the model may leave the fields: as they were, or stopped by the budget. */
  datatype Sent = Sent(exhausted: bool, status: Activity)

  function AfterSending(m: Memory, sent: Sent): Memory {
    if sent.exhausted then
      m.(paused := true, lifecycle := Lifecycle.BudgetExhausted, status := sent.status)
    else m.(status := sent.status)
  }

  // ---- the process and its environment ----

  datatype ProcessAction =
    | Crash
    | Boot(found: Option<Id>)
    | Edit(root: string, tree: Tree)
    | WriteControl(tree: Tree)                    // unlocked, while a restore is under way

  // ---- everything the host does besides rollback, decisions and command windows ----

  datatype FieldAction =
    | TakeSnapshot(thread: ThreadId)              // emit_event on any thread: the argument
    | WriteSnapshot(thread: ThreadId)             // and then the write
    | TakeOwn                                     // the lock holder takes its own
    | ProjectStateFault                           // roadmap commit failed, outside the lock
    | ResponseError                               // a response could not be processed, outside the lock
    | Message(lifecycle: Lifecycle, status: Activity, paused: bool, guarded: bool)
    | SetWorkspace(root: string)
    | Accept(c: Id)
    | AskHuman(id: ApprovalId, courseChange: bool)
    | ResolveOther(id: ApprovalId, approve: bool, sent: Sent)
    | RejectCommand(id: ApprovalId, sent: Sent)

  predicate InRollback(pc: Pc) {
    !pc.Free? && !pc.Window? && !InResolution(pc)
  }

  predicate InResolution(pc: Pc) {
    pc.Deciding? || pc.Expiring? || pc.Sealing?
  }

  /** The message thread can act: it is not inside a rollback or a decision, and the gate is open. */
  predicate MessagesPass(w: World) {
    w.memory.Some? && w.memory.value.lifecycle != Lifecycle.RecoveryRequired
    && !InRollback(w.pc) && !InResolution(w.pc)
  }

  /**
   The workspace that must not be touched from outside just now.  During a restore the host
   still writes its own files there.
   */
  predicate HeldStill(w: World, root: string) {
    match w.pc
    case Restoring(_, _) => root == w.disk.workspace
    case Window(_, _, _, ws, phase) => root == ws && (phase.Armed? || phase.Starting? || phase.Announced?)
    case _ => false
  }

  ghost predicate ProcessEnabled(w: World, a: ProcessAction) {
    match a
    case Crash => w.memory.Some?
    case Boot(found) => w.memory.None? && Finds(w.disk, found)
    case Edit(root, tree) => WellFormed(tree) && !HeldStill(w, root)
    case WriteControl(tree) =>
      && w.memory.Some? && w.pc.Restoring? && w.disk.workspace in w.trees
      && WellFormed(tree) && OnlyControlMoves(w.trees[w.disk.workspace], tree)
  }

  /** The files the host keeps in a workspace of its own: the roadmap and its history. */
  predicate IsControl(p: Path) {
    p != [] && p[0] == ".ai-workflow"
  }

  ghost predicate OnlyControlMoves(t: Tree, u: Tree) {
    forall p :: !IsControl(p) ==> (p in t <==> p in u) && (p in t ==> u[p] == t[p])
  }

  /** t, but with the host's own files as they are in u. */
  ghost function WithControl(t: Tree, u: Tree): Tree {
    map p | p in t.Keys + u.Keys && if IsControl(p) then p in u else p in t :: if IsControl(p) then u[p] else t[p]
  }

  function DiskContext(d: Disk): Option<Id> {
    if d.runtime.Some? then ContextId(d.runtime.value.context) else None
  }

  /** A restart that does not ask about the open checkpoint has lost sight of it. */
  function Booted(w: World, m: Memory): World {
    var id := ContextId(m.context);
    w.(memory := Some(m),
       history := w.history.(
         open := if w.history.open == id then id else None,
         freshness := Freshness(id, {}, DiskContext(w.disk) != id)))
  }

  ghost function ProcessApply(w: World, a: ProcessAction): World
    requires ProcessEnabled(w, a)
  {
    match a
    case Crash =>
      w.(memory := None, drafts := map[], own := None, pc := Free,
         history := w.history.(epoch := w.history.epoch + 1, freshness := w.history.freshness.(oldDrafts := {})))
    case Boot(found) => Booted(w, RestoredMemory(w.disk, found))
    case Edit(root, tree) => w.(trees := w.trees[root := tree])
    case WriteControl(tree) =>
      w.(trees := w.trees[w.disk.workspace := tree], pc := Restoring(w.pc.c, WithControl(w.pc.now, tree)))
  }

  predicate FieldEnabled(w: World, a: FieldAction) {
    w.memory.Some? &&
    var m := w.memory.value;
    match a
    case TakeSnapshot(_) => true
    case WriteSnapshot(t) => t in w.drafts
    case TakeOwn => w.own.None? && IsAboutToPersist(w.pc)
    case ProjectStateFault => true
    case ResponseError => true
    case Message(lifecycle, _, _, _) =>
      MessagesPass(w) && lifecycle != Lifecycle.RecoveryRequired && lifecycle != Lifecycle.Recovering
    case SetWorkspace(_) => MessagesPass(w)
    case Accept(c) => MessagesPass(w) && w.pc.Free? && !m.executing && IsReadyHere(w.disk, c)
    case AskHuman(id, _) => w.pc.Free? && !m.paused && id !in w.disk.approvals
    case ResolveOther(id, _, _) => w.pc.Free? && id in m.pending && !m.pending[id].CommandAt?
    case RejectCommand(id, _) => w.pc.Free? && id in m.pending && m.pending[id].CommandAt?
  }

  predicate IsReadyHere(d: Disk, c: Id) {
    c in d.rows && d.rows[c].workspace == d.workspace && d.rows[c].status == Ready
  }

  /** The lock holder's next durable write is one of the runtime state. */
  predicate IsAboutToPersist(pc: Pc) {
    pc.Begun? || pc.Named? || pc.Finished? || pc.Sealing? || (pc.Window? && pc.phase.Starting?)
  }

  /** put_runtime_state, with whatever snapshot was taken for it. */
  function Written(w: World, r: Runtime, isOld: bool): World {
    w.(disk := w.disk.(runtime := Some(r)),
       history := w.history.(freshness := w.history.freshness.(diskIsOld := isOld)))
  }

  /** The lock holder writes the snapshot it has taken; it is never older than the last change. */
  function Persisted(w: World): World
    requires w.own.Some?
  {
    Written(w, w.own.value, false).(own := None)
  }

  /** From now on the memory is about another checkpoint, or none: every snapshot is old. */
  function Refocused(w: World, id: Option<Id>): History {
    w.history.(freshness := Freshness(id, w.drafts.Keys, true))
  }

  function WithStatus(d: Disk, c: Id, status: Status): Disk
    requires c in d.rows
  {
    d.(rows := d.rows[c := d.rows[c].(status := status)])
  }

  function Forget(m: Memory, id: ApprovalId): Memory {
    m.(pending := m.pending - {id})
  }

  /** The fields after a decision about the roadmap or a contract, before anything is sent. */
  function AfterDecision(m: Memory, what: Continuation, approve: bool): Memory {
    if !what.CourseChange? then m.(status := Activity.Idle)
    else if approve then m.(lifecycle := Lifecycle.Running, status := Activity.Idle, paused := false)
    else m.(lifecycle := Lifecycle.Running, status := Activity.Idle)
  }

  function FieldApply(w: World, a: FieldAction): World
    requires FieldEnabled(w, a)
  {
    var m := w.memory.value;
    match a
    case TakeSnapshot(t) =>
      w.(drafts := w.drafts[t := RuntimeSnapshot(m)],
         history := w.history.(freshness := w.history.freshness.(oldDrafts := w.history.freshness.oldDrafts - {t})))
    case WriteSnapshot(t) =>
      var isOld := t in w.history.freshness.oldDrafts;
      var w' := Written(w, w.drafts[t], isOld);
      w'.(drafts := w.drafts - {t},
          history := w'.history.(freshness := w'.history.freshness.(oldDrafts := w.history.freshness.oldDrafts - {t})))
    case TakeOwn => w.(own := Some(RuntimeSnapshot(m)))
    case ProjectStateFault =>
      w.(memory := Some(m.(paused := true, status := Activity.ProjectStateError)))
    case ResponseError => w.(memory := Some(m.(status := Activity.Error)))
    case Message(lifecycle, status, paused, guarded) =>
      w.(memory := Some(m.(lifecycle := lifecycle, status := status, paused := paused, guarded := guarded)))
    case SetWorkspace(root) => w.(disk := w.disk.(workspace := root))
    case Accept(c) => w.(disk := WithStatus(w.disk, c, Accepted))
    case AskHuman(id, courseChange) =>
      w.(memory := Some(m.(pending := m.pending[id := if courseChange then CourseChange else ContractDecision],
                           status := Activity.WaitingApproval)),
         disk := w.disk.(approvals := w.disk.approvals[id := Pending]))
    case ResolveOther(id, approve, sent) =>
      w.(memory := Some(AfterSending(AfterDecision(Forget(m, id), m.pending[id], approve), sent)),
         disk := w.disk.(approvals := w.disk.approvals[id := if approve then Approved else Rejected]))
    case RejectCommand(id, sent) =>
      w.(memory := Some(AfterSending(Forget(m, id), sent)),
         disk := w.disk.(approvals := w.disk.approvals[id := Rejected]))
  }

  // ---- rollback_checkpoint and resolve_recovery ----

  datatype RollbackAction =
    | Begin(c: Id)                    // checks, and the fields say recovering
    | Announce                        // first crash boundary
    | Claim                           // compare-and-set ready -> rolling_back
    | NameCheckpoint                  // checkpoint_recovery_context
    | ConfirmClaim                    // second crash boundary
    | EnterRestore                    // restore_workspace_snapshot is called
    | MoveRestore(u: Tree)            // one of its system calls
    | ReturnRestore(archive: seq<Member>)
    | RefuseRestore(archive: seq<Member>)
    | PutReview                       // raw put_checkpoint with the Git evidence
    | CompleteRow                     // compare-and-set rolling_back -> rolled_back
    | FinishFields
    | SealRollback                    // persist the finished state
    | FailRow                         // compare-and-set rolling_back -> rollback_failed
    | FailFields
    | BeginDecision(decision: bool)   // resolve_recovery, behind the gate
    | InvalidateRow
    | ClearFields
    | SealDecision

  predicate RollbackEnabled(w: World, a: RollbackAction) {
    w.memory.Some? &&
    var m := w.memory.value;
    match a
    case Begin(c) =>
      w.pc.Free? && m.lifecycle != Lifecycle.RecoveryRequired && m.paused && !m.executing && IsReadyHere(w.disk, c)
    case Announce => w.pc.Begun? && w.own.Some?
    case Claim => w.pc.Announcing? && w.pc.c in w.disk.rows && w.disk.rows[w.pc.c].status == Ready
    case NameCheckpoint => w.pc.Won?
    case ConfirmClaim => w.pc.Named? && w.own.Some?
    case EnterRestore => w.pc.Entering? && w.disk.workspace in w.trees
    case MoveRestore(_) => w.pc.Restoring?
    case ReturnRestore(_) => w.pc.Restoring?
    case RefuseRestore(_) => w.pc.Restoring?
    case PutReview => w.pc.Returned? && w.pc.c in w.disk.rows
    case CompleteRow => w.pc.Reviewed? && w.pc.c in w.disk.rows && w.disk.rows[w.pc.c].status == RollingBack
    case FinishFields => w.pc.Completed?
    case SealRollback => w.pc.Finished? && w.own.Some?
    case FailRow => w.pc.Refused? && w.pc.c in w.disk.rows && w.disk.rows[w.pc.c].status == RollingBack
    case FailFields => w.pc.MarkedFailed?
    case BeginDecision(_) => w.pc.Free? && m.lifecycle == Lifecycle.RecoveryRequired
    case InvalidateRow => w.pc.Deciding?
    case ClearFields => w.pc.Expiring?
    case SealDecision => w.pc.Sealing? && w.own.Some?
  }

  /** What the restore itself guarantees: see CheckpointRestore.Workspace.RestoreWorkspaceSnapshot. */
  ghost predicate RestoreAllows(w: World, a: RollbackAction)
    requires RollbackEnabled(w, a)
  {
    if !w.pc.Restoring? then true
    else
      var c, now, root := w.pc.c, w.pc.now, w.disk.workspace;
      && c in w.disk.rows && root in w.trees
      && var s := w.disk.rows[c].snapshot;
      match a
      case MoveRestore(u) => Intermediate(now, u)
      case ReturnRestore(archive) =>
        && Restorable(s, archive, root, now) && w.trees[root] == Target(now, DesiredOf(s.digest))
      case RefuseRestore(archive) => !Restorable(s, archive, root, now) && w.trees[root] == now
      case _ => true
  }

  predicate MustInvalidate(w: World)
    requires w.memory.Some?
  {
    var context := w.memory.value.context;
    && context.Some? && context.value.id in w.disk.rows
    && w.disk.rows[context.value.id].status == RollingBack
  }

  function Failing(m: Memory, c: Id): Memory {
    m.(lifecycle := Lifecycle.RecoveryRequired, status := Activity.RecoveryRequired, paused := true,
       context := Some(Context(c, RollbackFailed)))
  }

  function Cleared(m: Memory, prepare: bool): Memory {
    var n := m.(pending := map[], context := None);
    if prepare && !m.guarded then
      n.(paused := false, lifecycle := Lifecycle.Idle, status := Activity.Idle)
    else
      n.(paused := true, lifecycle := Lifecycle.Paused,
         status := if m.guarded then Activity.ProviderGuard else Activity.Paused)
  }

  function ExpireAll(approvals: map<ApprovalId, ApprovalState>): map<ApprovalId, ApprovalState> {
    map id | id in approvals :: if approvals[id] == Pending then Expired else approvals[id]
  }

  ghost function RollbackApply(w: World, a: RollbackAction): World
    requires RollbackEnabled(w, a)
  {
    var m := w.memory.value;
    var h := w.history;
    match a
    case Begin(c) =>
      w.(memory := Some(m.(paused := true, lifecycle := Lifecycle.Recovering, status := Activity.Recovering)),
         pc := Begun(c))
    case Announce => Persisted(w).(pc := Announcing(w.pc.c))
    case Claim =>
      w.(disk := WithStatus(w.disk, w.pc.c, RollingBack), pc := Won(w.pc.c),
         history := h.(open := Some(w.pc.c)))
    case NameCheckpoint =>
      w.(memory := Some(m.(context := Some(Context(w.pc.c, RollingBack)))), pc := Named(w.pc.c),
         history := Refocused(w, Some(w.pc.c)))
    case ConfirmClaim => Persisted(w).(pc := Entering(w.pc.c))
    case EnterRestore =>
      w.(pc := Restoring(w.pc.c, w.trees[w.disk.workspace]),
         history := h.(entered := h.entered + multiset{w.pc.c}))
    case MoveRestore(u) => w.(trees := w.trees[w.disk.workspace := u])
    case ReturnRestore(_) => w.(pc := Returned(w.pc.c), history := h.(returned := h.returned + {w.pc.c}))
    case RefuseRestore(_) => w.(pc := Refused(w.pc.c))
    case PutReview => w.(disk := WithStatus(w.disk, w.pc.c, RollingBack), pc := Reviewed(w.pc.c))
    case CompleteRow => w.(disk := WithStatus(w.disk, w.pc.c, RolledBack), pc := Completed(w.pc.c))
    case FinishFields =>
      w.(memory := Some(m.(context := None, paused := true, lifecycle := Lifecycle.Paused, status := Activity.Paused)),
         pc := Finished(w.pc.c), history := Refocused(w, None).(open := None))
    case SealRollback =>
      var w' := Persisted(w);
      w'.(pc := Free, history := w'.history.(settled := h.settled + {w.pc.c}))
    case FailRow => w.(disk := WithStatus(w.disk, w.pc.c, RollbackFailed), pc := MarkedFailed(w.pc.c))
    case FailFields => w.(memory := Some(Failing(m, w.pc.c)), pc := Free)
    case BeginDecision(prepare) => w.(pc := Deciding(prepare))
    case InvalidateRow =>
      var decided := if m.context.Some? then Some(m.context.value.id) else None;
      w.(disk := if MustInvalidate(w) then WithStatus(w.disk, m.context.value.id, Invalid) else w.disk,
         pc := Expiring(w.pc.prepare, decided), history := h.(open := None))
    case ClearFields =>
      w.(disk := w.disk.(approvals := ExpireAll(w.disk.approvals)),
         memory := Some(Cleared(m, w.pc.prepare)), pc := Sealing(w.pc.decided), history := Refocused(w, None))
    case SealDecision =>
      var w' := Persisted(w);
      w'.(pc := Free,
          history := w'.history.(settled := h.settled + if w.pc.decided.Some? then {w.pc.decided.value} else {}))
  }

  /** The steps that write a checkpoint's row. */
  predicate WritesRow(a: RollbackAction) {
    a.Claim? || a.PutReview? || a.CompleteRow? || a.FailRow? || a.InvalidateRow?
  }

  // ---- _run_command_and_continue ----

  datatype ExecAction =
    | StartContract(run: RunId, commands: seq<Command>)
    | Approve(id: ApprovalId)
    | Block(local: Policy.Decision, sent: Sent)
    | Ask(local: Policy.Decision, autoRun: bool, id: ApprovalId)
    | SaveFails(local: Policy.Decision, autoRun: bool, sent: Sent)
    | Save(local: Policy.Decision, autoRun: bool, c: Id, snapshot: Snapshot, links: set<Path>)
    | Arm(local: Policy.Decision, autoRun: bool)
    | SetRunning                     // the fields say running
    | AnnounceCommand                // the explicit crash boundary
    | Run
    | Mutate(tree: Tree)
    | End(ok: bool)
    | Leave(sent: Sent)

  predicate ExecPhase(w: World, phase: Phase) {
    w.memory.Some? && w.pc.Window? && w.pc.phase == phase
    && w.pc.run in w.history.runs && w.pc.workspace in w.trees
  }

  /** The loop is about to deal with an existing command. */
  predicate AtCommand(w: World) {
    ExecPhase(w, Choosing) && w.pc.index < |w.history.runs[w.pc.run].commands|
  }

  function RiskAt(w: World, local: Policy.Decision): Policy.EffectiveRisk
    requires AtCommand(w)
  {
    Policy.MergeRisk(local, w.history.runs[w.pc.run].commands[w.pc.index].llm)
  }

  predicate NeedsDecision(risk: Policy.EffectiveRisk, autoRun: bool, approval: Option<ApprovalId>) {
    (risk.level == Policy.Approval || !autoRun) && approval.None?
  }

  predicate Proceeds(w: World, local: Policy.Decision, autoRun: bool) {
    AtCommand(w) && RiskAt(w, local).level != Policy.Blocked
    && !NeedsDecision(RiskAt(w, local), autoRun, w.pc.approval)
  }

  ghost predicate ExecEnabled(w: World, a: ExecAction) {
    w.memory.Some? &&
    var m := w.memory.value;
    match a
    case StartContract(run, commands) =>
      w.pc.Free? && !m.paused && run !in w.history.runs && w.disk.workspace in w.trees
    case Approve(id) =>
      w.pc.Free? && id in m.pending && m.pending[id].CommandAt? && w.disk.workspace in w.trees
    case Block(local, _) => AtCommand(w) && RiskAt(w, local).level == Policy.Blocked
    case Ask(local, autoRun, id) =>
      AtCommand(w) && RiskAt(w, local).level != Policy.Blocked
      && NeedsDecision(RiskAt(w, local), autoRun, w.pc.approval) && id !in w.disk.approvals
    case SaveFails(local, autoRun, _) =>
      Proceeds(w, local, autoRun) && Policy.RequiresCheckpoint(RiskAt(w, local).risk)
    case Save(local, autoRun, c, snapshot, links) =>
      && Proceeds(w, local, autoRun) && Policy.RequiresCheckpoint(RiskAt(w, local).risk)
      && c !in w.disk.rows
      && Capturable(w.trees[w.pc.workspace], DEFAULT_LIMITS)
      && IsSnapshotOf(snapshot, w.pc.workspace, w.trees[w.pc.workspace], links, DEFAULT_LIMITS)
    case Arm(local, autoRun) =>
      Proceeds(w, local, autoRun) && !Policy.RequiresCheckpoint(RiskAt(w, local).risk)
    case SetRunning => w.pc.Window? && w.pc.phase.Armed?
    case AnnounceCommand => w.pc.Window? && w.pc.phase.Starting? && w.own.Some?
    case Run =>
      w.pc.Window? && w.pc.phase.Announced? && w.pc.run in w.history.runs && w.pc.workspace in w.trees
    case Mutate(tree) => ExecPhase(w, Executing) && WellFormed(tree)
    case End(_) => ExecPhase(w, Executing)
    case Leave(_) =>
      (ExecPhase(w, Choosing) && w.pc.index >= |w.history.runs[w.pc.run].commands|) || ExecPhase(w, Phase.Reporting)
  }

  function Leaving(m: Memory, sent: Sent): Memory {
    AfterSending(m, sent).(executing := false)
  }

  ghost function ExecApply(w: World, a: ExecAction): World
    requires ExecEnabled(w, a)
  {
    var m := w.memory.value;
    var h := w.history;
    match a
    case StartContract(run, commands) =>
      w.(memory := Some(m.(executing := true, status := Activity.Validating,
                           lifecycle := if m.lifecycle == Lifecycle.Finishing then m.lifecycle else Lifecycle.Running)),
         pc := Window(run, 0, None, w.disk.workspace, Choosing),
         history := h.(runs := h.runs[run := RunRecord(commands, [], [])]))
    case Approve(id) =>
      var next := m.pending[id];
      w.(memory := Some(Forget(m, id).(executing := true)),
         disk := w.disk.(approvals := w.disk.approvals[id := Approved]),
         pc := Window(next.run, next.index, Some(id), w.disk.workspace, Choosing))
    case Block(_, sent) => w.(memory := Some(Leaving(m, sent)), pc := Free)
    case Ask(_, _, id) =>
      w.(memory := Some(m.(executing := false, status := Activity.WaitingApproval,
                           pending := m.pending[id := CommandAt(w.pc.run, w.pc.index)])),
         disk := w.disk.(approvals := w.disk.approvals[id := Pending]), pc := Free,
         history := h.(issued := h.issued[id := Issue(w.pc.run, w.pc.index, h.epoch)]))
    case SaveFails(_, _, sent) => w.(memory := Some(Leaving(m, sent)), pc := Free)
    case Save(local, _, c, snapshot, links) =>
      w.(disk := w.disk.(rows := w.disk.rows[c := Row(Ready, w.pc.workspace, snapshot)]),
         pc := w.pc.(phase := Armed(RiskAt(w, local), Some(c))),
         history := h.(taken := h.taken[c := Taken(w.trees[w.pc.workspace], links, w.pc.run, w.pc.index)]))
    case Arm(local, _) => w.(pc := w.pc.(phase := Armed(RiskAt(w, local), None)))
    case SetRunning =>
      w.(memory := Some(m.(status := Activity.Running)),
         pc := w.pc.(phase := Starting(w.pc.phase.risk, w.pc.phase.checkpoint)))
    case AnnounceCommand =>
      Persisted(w).(pc := w.pc.(phase := Announced(w.pc.phase.risk, w.pc.phase.checkpoint)))
    case Run =>
      var start := Start(w.pc.index, w.pc.approval, w.pc.phase.risk, w.pc.phase.checkpoint, h.epoch,
                         w.pc.workspace, w.trees[w.pc.workspace]);
      var r := h.runs[w.pc.run];
      w.(pc := w.pc.(phase := Executing),
         history := h.(runs := h.runs[w.pc.run := r.(started := r.started + [start])]))
    case Mutate(tree) => w.(trees := w.trees[w.pc.workspace := tree])
    case End(ok) =>
      var r := h.runs[w.pc.run];
      w.(pc := if ok then Window(w.pc.run, w.pc.index + 1, None, w.pc.workspace, Choosing)
               else w.pc.(phase := Phase.Reporting),
         history := h.(runs := h.runs[w.pc.run := r.(outcomes := r.outcomes + [ok])]))
    case Leave(sent) => w.(memory := Some(Leaving(m, sent)), pc := Free)
  }

  // ---- runs ----

  datatype Action =
    | Process(process: ProcessAction)
    | Fields(fields: FieldAction)
    | Rollback(rollback: RollbackAction)
    | Exec(exec: ExecAction)

  ghost predicate Enabled(w: World, a: Action) {
    match a
    case Process(p) => ProcessEnabled(w, p)
    case Fields(f) => FieldEnabled(w, f)
    case Rollback(r) => RollbackEnabled(w, r) && RestoreAllows(w, r)
    case Exec(e) => ExecEnabled(w, e)
  }

  ghost function Apply(w: World, a: Action): World
    requires Enabled(w, a)
  {
    match a
    case Process(p) => ProcessApply(w, p)
    case Fields(f) => FieldApply(w, f)
    case Rollback(r) => RollbackApply(w, r)
    case Exec(e) => ExecApply(w, e)
  }

  ghost predicate Next(w: World, w': World) {
    exists a :: Enabled(w, a) && w' == Apply(w, a)
  }

  /** A run of the host: any number of steps, crashes and restarts from an empty disk. */
  ghost predicate IsRun(trail: seq<World>) {
    && trail != [] && Initial(trail[0])
    && forall i :: 0 <= i < |trail| - 1 ==> StepAt(trail, i)
  }

  ghost predicate StepAt(trail: seq<World>, i: nat)
    requires i < |trail| - 1
  {
    Next(trail[i], trail[i + 1])
  }
}
