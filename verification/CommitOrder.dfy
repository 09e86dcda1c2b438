/**
 Two stores, one order: the roadmap file of the configured workspace is committed before the
 runtime state says that the project is ready or complete.  Responses are handled by workers
 that look at the lifecycle and the workspace before they take the lock.  Messages, changes of
 the configuration, other updates of a roadmap and crashes may come in between; and whoever
 writes, a roadmap or the runtime state, has read some time before.
 */
module CommitOrder {
  import opened Wrappers
  import opened HostState
  import ProjectState

  /** A workspace directory, each with a roadmap file of its own. */
  type Root = nat

  /** What matters about a response: a plan that may be armed, the closing marker, or neither. */
  datatype Text = Plan | Done | Other

  /** How far a worker has come with its response. */
  datatype Worker =
    | Received(prior: Lifecycle, text: Text)
    | Located(prior: Lifecycle, text: Text, root: Root, ready: bool)    // ready: the directory exists
    | Loaded(prior: Lifecycle, text: Text, root: Root, found: Option<ProjectState.Status>)
    | Committed(prior: Lifecycle, text: Text, root: Root, ready: bool)
    | Deciding(outcome: Lifecycle)                                      // under the lock

  datatype Change = Advance | CourseChange

  /** Another update of a roadmap that has read the file and not yet written it. */
  datatype Update = Update(root: Root, found: Option<ProjectState.Status>, change: Change)

  datatype World = World(
    runtime: Option<Lifecycle>,
    roadmaps: map<Root, ProjectState.Status>,
    root: Root,
    memory: Option<Lifecycle>,
    paused: bool,
    drafts: map<nat, Lifecycle>,
    workers: map<nat, Worker>,
    updates: map<nat, Update>)

  datatype Action =
    | Message(lifecycle: Lifecycle)          // any handler of the message thread
    | SetWorkspace(root: Root)               // set_config, or a save over an older configuration
    | Receive(id: nat, text: Text)           // prior_lifecycle is read, without the lock
    | Locate(id: nat, ready: bool)           // and then the workspace
    | Load(id: nat)                          // the roadmap part: what is there,
    | Commit(id: nat)                        // and what is written
    | Decide(id: nat, other: Lifecycle)      // the runtime part, under the lock
    | Assign(id: nat)
    | ReadRoadmap(id: nat, root: Root, change: Change)    // an advance, or an approved course change
    | WriteRoadmap(id: nat)
    | TakeSnapshot(thread: nat)              // any persist: the argument
    | WriteSnapshot(thread: nat)             // and then the write
    | Crash
    | Boot

  /** A new installation; the workspaces may have roadmaps already. */
  predicate Initial(w: World) {
    && w.runtime == None && w.memory == Some(Lifecycle.Setup) && !w.paused
    && w.drafts == map[] && w.workers == map[] && w.updates == map[]
  }

  predicate IsTerminal(l: Lifecycle) {
    l == Lifecycle.ReadyToArm || l == Lifecycle.Complete
  }

  function RoadmapAt(w: World, root: Root): Option<ProjectState.Status> {
    if root in w.roadmaps then Some(w.roadmaps[root]) else None
  }

  /** The one that counts. */
  function Roadmap(w: World): Option<ProjectState.Status> {
    RoadmapAt(w, w.root)
  }

  predicate Enabled(w: World, a: Action) {
    w.memory.Some? != a.Boot? &&
    match a
    case Message(lifecycle) => !IsTerminal(lifecycle)
    case Receive(id, _) => id !in w.workers
    case Locate(id, _) => id in w.workers && w.workers[id].Received?
    case Load(id) => id in w.workers && w.workers[id].Located?
    case Commit(id) => id in w.workers && w.workers[id].Loaded?
    case Decide(id, other) => id in w.workers && w.workers[id].Committed? && !IsTerminal(other)
    case Assign(id) => id in w.workers && w.workers[id].Deciding?
    case ReadRoadmap(id, _, _) => id !in w.updates
    case WriteRoadmap(id) =>
      id in w.updates && (w.updates[id].change.Advance? ==> w.updates[id].found == Some(ProjectState.Active))
    case WriteSnapshot(t) => t in w.drafts
    case _ => true
  }

  /** The roadmap after the commit a response calls for; None if it fails and the response goes no further. */
  function RoadmapAfter(roadmap: Option<ProjectState.Status>, prior: Lifecycle, text: Text)
    : Option<Option<ProjectState.Status>>
  {
    if prior == Lifecycle.Planning && text == Plan then
      Some(if roadmap.None? then Some(ProjectState.Active) else roadmap)
    else if prior == Lifecycle.Finishing && text == Done then
      if roadmap.None? then None else Some(Some(ProjectState.Complete))
    else Some(roadmap)
  }

  /** The lifecycle after the locked part: the text counts for what the lifecycle is by now. */
  function LifecycleAfter(l: Lifecycle, text: Text, other: Lifecycle): Lifecycle {
    if l == Lifecycle.Planning then (if text == Plan then Lifecycle.ReadyToArm else l)
    else if l == Lifecycle.Finishing && text == Done then Lifecycle.Complete
    else other
  }

  /** A commit goes by what the worker has found; it writes only if that has to change. */
  function Committing(w: World, id: nat): World
    requires id in w.workers && w.workers[id].Loaded?
  {
    var k := w.workers[id];
    var after := RoadmapAfter(k.found, k.prior, k.text);
    if after.None? then w.(paused := true, workers := w.workers - {id})
    else
      w.(workers := w.workers[id := Committed(k.prior, k.text, k.root, true)],
         roadmaps := if after.value == k.found || after.value.None? then w.roadmaps
                     else w.roadmaps[k.root := after.value.value])
  }

  function Apply(w: World, a: Action): World
    requires Enabled(w, a)
  {
    match a
    case Message(lifecycle) => w.(memory := Some(lifecycle), paused := lifecycle == Lifecycle.Paused)
    case SetWorkspace(root) => w.(root := root)
    case Receive(id, text) => w.(workers := w.workers[id := Received(w.memory.value, text)])
    case Locate(id, ready) =>
      w.(workers := w.workers[id := Located(w.workers[id].prior, w.workers[id].text, w.root, ready)])
    case Load(id) =>
      var k := w.workers[id];
      w.(workers := w.workers[id :=
           if k.ready then Loaded(k.prior, k.text, k.root, RoadmapAt(w, k.root))
           else Committed(k.prior, k.text, k.root, false)])
    case Commit(id) => Committing(w, id)
    case Decide(id, other) =>
      w.(workers := if w.paused then w.workers - {id}
                    else w.workers[id := Deciding(LifecycleAfter(w.memory.value, w.workers[id].text, other))])
    case Assign(id) =>
      var l := w.workers[id].outcome;
      w.(memory := Some(l), paused := l == Lifecycle.Complete || w.paused, workers := w.workers - {id})
    case ReadRoadmap(id, root, change) => w.(updates := w.updates[id := Update(root, RoadmapAt(w, root), change)])
    case WriteRoadmap(id) =>
      w.(roadmaps := w.roadmaps[w.updates[id].root := ProjectState.Active], updates := w.updates - {id})
    case TakeSnapshot(t) => w.(drafts := w.drafts[t := w.memory.value])
    case WriteSnapshot(t) => w.(runtime := Some(w.drafts[t]), drafts := w.drafts - {t})
    case Crash => w.(memory := None, drafts := map[], workers := map[], updates := map[])
    case Boot => w.(memory := Some(Restarted(w.runtime)), paused := Restarted(w.runtime) == Lifecycle.RecoveryRequired)
  }

  /** In-flight states come back as recovery_required, the others as they were. */
  function Restarted(runtime: Option<Lifecycle>): Lifecycle {
    if runtime.None? then Lifecycle.Setup
    else if runtime.value in RECOVERY_LIFECYCLES then Lifecycle.RecoveryRequired
    else runtime.value
  }

  /** As HostState restores a lifecycle, when the status alone calls for nothing and nobody is guarded. */
  lemma RestartsAlike(d: Disk)
    requires d.runtime.Some? && d.runtime.value.context.None? && !d.runtime.value.guarded
    requires d.runtime.value.status !in RECOVERY_STATUSES
    ensures Restarted(Some(d.runtime.value.lifecycle)) == RestoredMemory(d, None).lifecycle
    ensures Restarted(None) == RestoredMemory(d.(runtime := None), None).lifecycle
  {
  }

  // ---- the order ----

  /** A runtime state that says so has a roadmap that says so. */
  predicate Backed(l: Option<Lifecycle>, roadmap: Option<ProjectState.Status>) {
    && (l == Some(Lifecycle.ReadyToArm) ==> roadmap.Some?)
    && (l == Some(Lifecycle.Complete) ==> roadmap == Some(ProjectState.Complete))
  }

  /** A worker that has committed to this root, or decided, will say no more than the roadmap does. */
  predicate WorkerIsBacked(k: Worker, root: Root, roadmap: Option<ProjectState.Status>) {
    match k
    case Committed(prior, text, at, ready) => ready && at == root ==> RoadmapAfter(roadmap, prior, text) == Some(roadmap)
    case Deciding(outcome) => Backed(Some(outcome), roadmap)
    case _ => true
  }

  /** The roadmap at root backs everything that is durable or may become so. */
  ghost predicate IsBackedBy(w: World, root: Root) {
    var roadmap := RoadmapAt(w, root);
    && Backed(w.memory, roadmap) && Backed(w.runtime, roadmap)
    && (forall t :: t in w.drafts ==> Backed(Some(w.drafts[t]), roadmap))
    && (forall id :: id in w.workers ==> WorkerIsBacked(w.workers[id], root, roadmap))
  }

  ghost predicate InOrder(w: World) {
    IsBackedBy(w, w.root)
  }

  /**
   The commit that the lifecycle calls for has not been made: a message has moved the
   lifecycle, or the workspace, since the worker looked, or there was no directory.
   */
  predicate SkipsCommit(w: World, a: Action) {
    && a.Decide? && w.memory.Some? && a.id in w.workers && w.workers[a.id].Committed? && !w.paused
    && (w.memory.value != w.workers[a.id].prior || w.root != w.workers[a.id].root || !w.workers[a.id].ready)
    && RoadmapAfter(Roadmap(w), w.memory.value, w.workers[a.id].text) != Some(Roadmap(w))
  }

  /** The worker found that nothing had to be written, and by now something has. */
  predicate CommitsOutOfDate(w: World, a: Action) {
    && a.Commit? && a.id in w.workers && w.workers[a.id].Loaded? && w.workers[a.id].root == w.root
    && (var k := w.workers[a.id];
        && RoadmapAfter(k.found, k.prior, k.text) == Some(k.found)
        && RoadmapAfter(Roadmap(w), k.prior, k.text) != Some(Roadmap(w)))
  }

  /** The step writes that the configured project is active. */
  predicate WritesActive(w: World, a: Action) {
    match a
    case WriteRoadmap(id) => id in w.updates && w.updates[id].root == w.root
    case Commit(id) =>
      && id in w.workers && w.workers[id].Loaded? && w.workers[id].root == w.root && w.workers[id].found.None?
      && w.workers[id].prior == Lifecycle.Planning && w.workers[id].text == Plan
    case _ => false
  }

  /** The project is complete, or about to be. */
  ghost predicate NeedsComplete(w: World) {
    || w.memory == Some(Lifecycle.Complete) || w.runtime == Some(Lifecycle.Complete)
    || (exists t :: t in w.drafts && w.drafts[t] == Lifecycle.Complete)
    || (exists id :: id in w.workers && ClosesProject(w.workers[id], w.root))
  }

  predicate ClosesProject(k: Worker, root: Root) {
    match k
    case Committed(prior, text, at, ready) => ready && at == root && prior == Lifecycle.Finishing && text == Done
    case Deciding(outcome) => outcome == Lifecycle.Complete
    case _ => false
  }

  ghost predicate Reopens(w: World, a: Action) {
    WritesActive(w, a) && NeedsComplete(w)
  }

  /** The new workspace has a roadmap that says less than the runtime state or a worker does. */
  ghost predicate SwitchesAway(w: World, a: Action) {
    a.SetWorkspace? && !IsBackedBy(w, a.root)
  }

  ghost predicate IsDisorderly(w: World, a: Action) {
    SkipsCommit(w, a) || CommitsOutOfDate(w, a) || Reopens(w, a) || SwitchesAway(w, a)
  }

  /** An active roadmap backs everything exactly if nothing needs it to be complete. */
  lemma ActiveIsEnoughIff(w: World)
    requires Roadmap(w) == Some(ProjectState.Active)
    ensures InOrder(w) <==> !NeedsComplete(w)
  {
    if NeedsComplete(w) && w.memory != Some(Lifecycle.Complete) && w.runtime != Some(Lifecycle.Complete) {
      if t :| t in w.drafts && w.drafts[t] == Lifecycle.Complete {
        assert !Backed(Some(w.drafts[t]), Roadmap(w));
      } else {
        var id :| id in w.workers && ClosesProject(w.workers[id], w.root);
        assert !WorkerIsBacked(w.workers[id], w.root, Roadmap(w));
      }
    }
  }

  lemma UpdateBreaksIff(w: World, a: Action)
    requires InOrder(w) && Enabled(w, a) && a.WriteRoadmap?
    ensures !InOrder(Apply(w, a)) <==> Reopens(w, a)
  {
    var w' := Apply(w, a);
    if w.updates[a.id].root == w.root {
      ActiveIsEnoughIff(w');
      assert NeedsComplete(w') <==> NeedsComplete(w);
    } else {
      assert Roadmap(w') == Roadmap(w);
    }
  }

  lemma CommitBreaksIff(w: World, a: Action)
    requires InOrder(w) && Enabled(w, a) && a.Commit?
    ensures !InOrder(Apply(w, a)) <==> CommitsOutOfDate(w, a) || Reopens(w, a)
  {
    var w', k := Apply(w, a), w.workers[a.id];
    forall id | id in w'.workers && id != a.id ensures id in w.workers && w'.workers[id] == w.workers[id] { }
    if WritesActive(w, a) {
      ActiveIsEnoughIff(w');
      assert a.id in w'.workers && !ClosesProject(w'.workers[a.id], w.root) && !ClosesProject(k, w.root);
      CommitNeedsNoMore(w, w', a.id);
    } else if CommitsOutOfDate(w, a) {
      assert !WorkerIsBacked(w'.workers[a.id], w'.root, Roadmap(w'));
    } else {
      forall id | id in w'.workers ensures WorkerIsBacked(w'.workers[id], w'.root, Roadmap(w')) {
        if id != a.id { assert WorkerIsBacked(w.workers[id], w.root, Roadmap(w)); }
      }
    }
  }

  lemma CommitNeedsNoMore(w: World, w': World, id: nat)
    requires w'.memory == w.memory && w'.runtime == w.runtime && w'.drafts == w.drafts && w'.root == w.root
    requires id in w.workers && id in w'.workers && w'.workers == w.workers[id := w'.workers[id]]
    requires !ClosesProject(w.workers[id], w.root) && !ClosesProject(w'.workers[id], w.root)
    ensures NeedsComplete(w') <==> NeedsComplete(w)
  {
    if x :| x in w.workers && ClosesProject(w.workers[x], w.root) {
      assert x in w'.workers && w'.workers[x] == w.workers[x];
    }
  }

  /** Exactly four kinds of step break the order; every other step, crash or restart keeps it. */
  lemma OrderBreaksIff(w: World, a: Action)
    requires InOrder(w) && Enabled(w, a)
    ensures !InOrder(Apply(w, a)) <==> IsDisorderly(w, a)
  {
    match a
    case Commit(_) => CommitBreaksIff(w, a);
    case WriteRoadmap(_) => UpdateBreaksIff(w, a);
    case Decide(_, _) => DecisionBreaksIff(w, a);
    case SetWorkspace(root) => assert RoadmapAt(Apply(w, a), root) == RoadmapAt(w, root);
    case _ => OthersKeep(w, a);
  }

  lemma DecisionBreaksIff(w: World, a: Action)
    requires InOrder(w) && Enabled(w, a) && a.Decide?
    ensures !InOrder(Apply(w, a)) <==> SkipsCommit(w, a)
  {
    var w' := Apply(w, a);
    assert WorkerIsBacked(w.workers[a.id], w.root, Roadmap(w));
    forall id | id in w'.workers && id != a.id ensures id in w.workers && w'.workers[id] == w.workers[id] { }
    if !w.paused { assert a.id in w'.workers; }
  }

  lemma OthersKeep(w: World, a: Action)
    requires InOrder(w) && Enabled(w, a)
    requires !a.Commit? && !a.WriteRoadmap? && !a.Decide? && !a.SetWorkspace?
    ensures InOrder(Apply(w, a))
  {
    var w' := Apply(w, a);
    assert Roadmap(w') == Roadmap(w);
    if a.Assign? { assert WorkerIsBacked(w.workers[a.id], w.root, Roadmap(w)); }
    forall id | id in w'.workers ensures WorkerIsBacked(w'.workers[id], w'.root, Roadmap(w')) {
      if id in w.workers { assert WorkerIsBacked(w.workers[id], w.root, Roadmap(w)); }
    }
  }

  /** An advance reopens a project only on a reading that is out of date. */
  lemma AdvanceReopensOnOldReading(w: World, a: Action)
    requires InOrder(w) && Enabled(w, a) && Reopens(w, a) && a.WriteRoadmap? && w.updates[a.id].change.Advance?
    ensures w.updates[a.id].found == Some(ProjectState.Active) && Roadmap(w) == Some(ProjectState.Complete)
  {
    if id :| id in w.workers && ClosesProject(w.workers[id], w.root) {
      assert WorkerIsBacked(w.workers[id], w.root, Roadmap(w));
    }
  }

  /**
   Besides messages and restarts two things pause a run, and nothing lifts a pause: a closing
   response that finds no roadmap, which goes no further and changes nothing else, and the
   completion of the project.
   */
  lemma PausesIff(w: World, a: Action)
    requires Enabled(w, a) && !a.Message? && !a.Boot?
    ensures Apply(w, a).paused <==>
              || w.paused || (a.Assign? && w.workers[a.id].outcome.Complete?)
              || (a.Commit? && w.workers[a.id].prior.Finishing? && w.workers[a.id].text.Done? && w.workers[a.id].found.None?)
    ensures a.Commit? && Apply(w, a).paused && !w.paused ==>
              Apply(w, a) == w.(paused := true, workers := w.workers - {a.id})
  {
  }

  // ---- runs ----

  /** Where the steps lead, if all of them are possible. */
  function RunOf(start: World, actions: seq<Action>): Option<World> {
    if actions == [] then Some(start)
    else
      var before, a := RunOf(start, actions[..|actions| - 1]), actions[|actions| - 1];
      if before.Some? && Enabled(before.value, a) then Some(Apply(before.value, a)) else None
  }

  /** None of the four kinds of step is among them. */
  ghost predicate IsOrderly(start: World, actions: seq<Action>) {
    actions == []
    || (var before, a := RunOf(start, actions[..|actions| - 1]), actions[|actions| - 1];
        && IsOrderly(start, actions[..|actions| - 1])
        && (before.Some? ==> !IsDisorderly(before.value, a)))
  }

  lemma {:induction false} OrderlyRunsKeepOrder(start: World, actions: seq<Action>)
    requires InOrder(start) && RunOf(start, actions).Some? && IsOrderly(start, actions)
    ensures InOrder(RunOf(start, actions).value)
  {
    hide Enabled, Apply, IsDisorderly, InOrder;
    if actions != [] {
      OrderlyRunsKeepOrder(start, actions[..|actions| - 1]);
      OrderBreaksIff(RunOf(start, actions[..|actions| - 1]).value, actions[|actions| - 1]);
    }
  }

  /**
   The runtime is never ahead of the roadmap: in every run without the four kinds of step,
   crashes and changes of the workspace included, what is durable says ready_to_arm only with
   a committed roadmap in the configured workspace, and complete only with one that is complete.
   */
  lemma RuntimeIsNeverAhead(start: World, actions: seq<Action>)
    requires Initial(start) && RunOf(start, actions).Some? && IsOrderly(start, actions)
    ensures var end := RunOf(start, actions).value;
            && (end.runtime == Some(Lifecycle.Complete) ==> Roadmap(end) == Some(ProjectState.Complete))
            && (end.runtime == Some(Lifecycle.ReadyToArm) ==> Roadmap(end).Some?)
  {
    OrderlyRunsKeepOrder(start, actions);
  }

  /** Nothing of a process outlives it. */
  predicate IsSane(w: World) {
    w.memory.None? ==> w.drafts == map[] && w.workers == map[]
  }

  lemma OneStepMore(start: World, actions: seq<Action>, a: Action)
    requires RunOf(start, actions).Some? && Enabled(RunOf(start, actions).value, a)
    ensures RunOf(start, actions + [a]) == Some(Apply(RunOf(start, actions).value, a))
    ensures IsOrderly(start, actions + [a]) <==>
              IsOrderly(start, actions) && !IsDisorderly(RunOf(start, actions).value, a)
  {
    hide Enabled, Apply, IsDisorderly;
    assert (actions + [a])[..|actions|] == actions;
  }

  /** What is in memory can be made durable. */
  lemma PersistNow(start: World, actions: seq<Action>) returns (longer: seq<Action>)
    requires RunOf(start, actions).Some? && RunOf(start, actions).value.memory.Some?
    ensures RunOf(start, longer).Some? && (IsOrderly(start, actions) ==> IsOrderly(start, longer))
    ensures var w, w' := RunOf(start, actions).value, RunOf(start, longer).value;
            w' == w.(runtime := w.memory, drafts := w'.drafts)
  {
    OneStepMore(start, actions, TakeSnapshot(0));
    longer := actions + [TakeSnapshot(0)];
    OneStepMore(start, longer, WriteSnapshot(0));
    longer := longer + [WriteSnapshot(0)];
  }

  /** A worker that has decided says so, and it becomes durable. */
  lemma AssignNow(start: World, actions: seq<Action>, id: nat) returns (longer: seq<Action>)
    requires RunOf(start, actions).Some? && RunOf(start, actions).value.memory.Some?
    requires var w := RunOf(start, actions).value; id in w.workers && w.workers[id].Deciding?
    ensures RunOf(start, longer).Some? && (IsOrderly(start, actions) ==> IsOrderly(start, longer))
    ensures var w, w' := RunOf(start, actions).value, RunOf(start, longer).value;
            && w'.runtime == w'.memory == Some(w.workers[id].outcome)
            && w'.roadmaps == w.roadmaps && w'.root == w.root && w'.updates == w.updates
            && w'.workers == w.workers - {id}
  {
    OneStepMore(start, actions, Assign(id));
    longer := actions + [Assign(id)];
    longer := PersistNow(start, longer);
  }

  /** A worker that has committed too little can still go on to say more. */
  lemma FinishNow(w: World, id: nat) returns (longer: seq<Action>)
    requires w.memory.Some? && id in w.workers && !WorkerIsBacked(w.workers[id], w.root, Roadmap(w))
    ensures RunOf(w, longer).Some? && IsOrderly(w, longer)
    ensures !Backed(RunOf(w, longer).value.runtime, Roadmap(RunOf(w, longer).value))
  {
    var k := w.workers[id];
    longer := [];
    assert RunOf(w, []) == Some(w);
    if k.Committed? {
      OneStepMore(w, [], Message(k.prior));
      longer := [] + [Message(k.prior)];
      OneStepMore(w, longer, Decide(id, Lifecycle.Idle));
      longer := longer + [Decide(id, Lifecycle.Idle)];
    }
    longer := AssignNow(w, longer, id);
  }

  /**
   The order is exactly what has to hold: it holds if and only if no continuation without
   the four kinds of step makes something durable that the roadmap does not back.
   */
  lemma OrderIsWhatIsNeeded(w: World)
    requires IsSane(w)
    ensures InOrder(w) <==>
              forall actions: seq<Action> :: RunOf(w, actions).Some? && IsOrderly(w, actions) ==>
                Backed(RunOf(w, actions).value.runtime, Roadmap(RunOf(w, actions).value))
  {
    hide Enabled, Apply, IsDisorderly, RunOf, IsOrderly;
    if InOrder(w) {
      forall actions: seq<Action> | RunOf(w, actions).Some? && IsOrderly(w, actions)
        ensures Backed(RunOf(w, actions).value.runtime, Roadmap(RunOf(w, actions).value))
      {
        OrderlyRunsKeepOrder(w, actions);
      }
    } else {
      var actions := Violation(w);
      assert !Backed(RunOf(w, actions).value.runtime, Roadmap(RunOf(w, actions).value));
    }
  }

  lemma WriteNow(w: World, t: nat) returns (longer: seq<Action>)
    requires w.memory.Some? && t in w.drafts
    ensures RunOf(w, longer).Some? && IsOrderly(w, longer)
    ensures RunOf(w, longer).value == w.(runtime := Some(w.drafts[t]), drafts := w.drafts - {t})
  {
    OneStepMore(w, [], WriteSnapshot(t));
    longer := [] + [WriteSnapshot(t)];
  }

  lemma Violation(w: World) returns (actions: seq<Action>)
    requires IsSane(w) && !InOrder(w)
    ensures RunOf(w, actions).Some? && IsOrderly(w, actions)
    ensures !Backed(RunOf(w, actions).value.runtime, Roadmap(RunOf(w, actions).value))
  {
    hide Enabled, Apply, IsDisorderly, WorkerIsBacked;
    actions := [];
    if !Backed(w.runtime, Roadmap(w)) {
    } else if !Backed(w.memory, Roadmap(w)) {
      actions := PersistNow(w, []);
    } else if t :| t in w.drafts && !Backed(Some(w.drafts[t]), Roadmap(w)) {
      actions := WriteNow(w, t);
    } else {
      var id :| id in w.workers && !WorkerIsBacked(w.workers[id], w.root, Roadmap(w));
      actions := FinishNow(w, id);
    }
  }

  // ---- each kind of step does happen ----

  const START := World(None, map[], 0, Some(Lifecycle.Setup), false, map[], map[], map[])

  /** Another step of the run. */
  lemma Then(actions: seq<Action>, a: Action) returns (longer: seq<Action>)
    requires RunOf(START, actions).Some? && Enabled(RunOf(START, actions).value, a)
    ensures RunOf(START, longer) == Some(Apply(RunOf(START, actions).value, a))
  {
    OneStepMore(START, actions, a);
    longer := actions + [a];
  }

  /** A response is received, and the roadmap is read for its commit. */
  lemma Looked(actions: seq<Action>, id: nat, text: Text) returns (longer: seq<Action>)
    requires RunOf(START, actions).Some?
    requires var w := RunOf(START, actions).value; w.memory.Some? && id !in w.workers
    ensures RunOf(START, longer).Some?
    ensures var w := RunOf(START, actions).value;
            RunOf(START, longer).value == w.(workers := w.workers[id := Loaded(w.memory.value, text, w.root, Roadmap(w))])
  {
    var w := RunOf(START, actions).value;
    longer := Then(actions, Receive(id, text));
    longer := Then(longer, Locate(id, true));
    longer := Then(longer, Load(id));
    assert RunOf(START, longer).value.workers == w.workers[id := Loaded(w.memory.value, text, w.root, Roadmap(w))];
  }

  /** A response is received and taken through its roadmap commit. */
  lemma Responded(actions: seq<Action>, id: nat, text: Text) returns (longer: seq<Action>)
    requires RunOf(START, actions).Some?
    requires var w := RunOf(START, actions).value;
             && w.memory.Some? && id !in w.workers && RoadmapAfter(Roadmap(w), w.memory.value, text).Some?
             && RoadmapAfter(Roadmap(w), w.memory.value, text).value.Some?
    ensures RunOf(START, longer).Some?
    ensures var w := RunOf(START, actions).value;
            RunOf(START, longer).value ==
            w.(workers := w.workers[id := Committed(w.memory.value, text, w.root, true)],
               roadmaps := w.roadmaps[w.root := RoadmapAfter(Roadmap(w), w.memory.value, text).value.value])
  {
    var w := RunOf(START, actions).value;
    longer := Looked(actions, id, text);
    longer := Then(longer, Commit(id));
    var w' := RunOf(START, longer).value;
    assert w'.workers == w.workers[id := Committed(w.memory.value, text, w.root, true)];
    assert w'.roadmaps == w.roadmaps[w.root := RoadmapAfter(Roadmap(w), w.memory.value, text).value.value];
  }

  /** The locked part of a response that is allowed to decide, made durable. */
  lemma Concluded(actions: seq<Action>, id: nat) returns (longer: seq<Action>)
    requires RunOf(START, actions).Some?
    requires var w := RunOf(START, actions).value;
             w.memory.Some? && !w.paused && id in w.workers && w.workers[id].Committed?
    ensures RunOf(START, longer).Some?
    ensures var w, w' := RunOf(START, actions).value, RunOf(START, longer).value;
            && w'.runtime == w'.memory == Some(LifecycleAfter(w.memory.value, w.workers[id].text, Lifecycle.Idle))
            && w'.roadmaps == w.roadmaps && w'.root == w.root && w'.updates == w.updates
            && w'.workers == w.workers - {id}
  {
    var w := RunOf(START, actions).value;
    OneStepMore(START, actions, Decide(id, Lifecycle.Idle));
    longer := actions + [Decide(id, Lifecycle.Idle)];
    longer := AssignNow(START, longer, id);
    assert RunOf(START, longer).value.workers == w.workers - {id};
  }

  /** A plan has been committed, and its worker is about to go on. */
  lemma Planned() returns (actions: seq<Action>)
    ensures RunOf(START, actions) ==
            Some(World(None, map[0 := ProjectState.Active], 0, Some(Lifecycle.Planning), false, map[],
                       map[0 := Committed(Lifecycle.Planning, Plan, 0, true)], map[]))
  {
    assert RunOf(START, []) == Some(START);
    OneStepMore(START, [], Message(Lifecycle.Planning));
    actions := [] + [Message(Lifecycle.Planning)];
    actions := Responded(actions, 0, Plan);
  }

  predicate IsAhead(w: World, l: Lifecycle, roadmap: Option<ProjectState.Status>) {
    w.runtime == Some(l) && Roadmap(w) == roadmap
  }

  /** The lifecycle moves while a worker is under way: durably complete, over an active roadmap. */
  lemma CompleteWithoutCommit() returns (actions: seq<Action>)
    ensures RunOf(START, actions).Some?
    ensures IsAhead(RunOf(START, actions).value, Lifecycle.Complete, Some(ProjectState.Active))
  {
    actions := Planned();
    actions := Responded(actions, 1, Done);
    actions := Then(actions, Message(Lifecycle.Finishing));
    actions := Concluded(actions, 1);
  }

  /** A course change is approved after the end: durably complete, over an active roadmap. */
  lemma CompleteAndReopened() returns (actions: seq<Action>)
    ensures RunOf(START, actions).Some?
    ensures IsAhead(RunOf(START, actions).value, Lifecycle.Complete, Some(ProjectState.Active))
  {
    actions := Planned();
    actions := Then(actions, Message(Lifecycle.Finishing));
    actions := Responded(actions, 1, Done);
    actions := Concluded(actions, 1);
    actions := Then(actions, ReadRoadmap(0, 0, Change.CourseChange));
    actions := Then(actions, WriteRoadmap(0));
  }

  /**
   An advance in the locked part of another response has read the roadmap before the closing
   commit and writes it after: durably complete, over an active roadmap.
   */
  lemma CompleteAndAdvanced() returns (actions: seq<Action>)
    ensures RunOf(START, actions).Some?
    ensures IsAhead(RunOf(START, actions).value, Lifecycle.Complete, Some(ProjectState.Active))
  {
    actions := Planned();
    actions := Then(actions, Message(Lifecycle.Finishing));
    actions := Then(actions, ReadRoadmap(0, 0, Change.Advance));
    actions := Responded(actions, 1, Done);
    actions := Then(actions, WriteRoadmap(0));
    actions := Concluded(actions, 1);
  }

  /** The workspace is changed when the plan is ready: durably ready, without a roadmap. */
  lemma ReadyElsewhere() returns (actions: seq<Action>)
    ensures RunOf(START, actions).Some?
    ensures IsAhead(RunOf(START, actions).value, Lifecycle.ReadyToArm, None)
  {
    actions := Planned();
    actions := Concluded(actions, 0);
    actions := Then(actions, SetWorkspace(1));
  }

  /** The project is closed, and a second closing worker has found it so. */
  lemma ClosedTwice() returns (actions: seq<Action>)
    ensures RunOf(START, actions).Some?
    ensures var w := RunOf(START, actions).value;
            && w.memory == Some(Lifecycle.Finishing) && w.root == 0 && !w.paused && 0 !in w.updates
            && 2 in w.workers && w.workers[2] == Loaded(Lifecycle.Finishing, Done, 0, Some(ProjectState.Complete))
  {
    actions := Planned();
    actions := Then(actions, Message(Lifecycle.Finishing));
    actions := Responded(actions, 1, Done);
    actions := Looked(actions, 2, Done);
  }

  /**
   A closing worker finds the project closed already, a course change reopens it, and the
   worker goes on: durably complete, over an active roadmap.
   */
  lemma CompleteOnOldReading() returns (actions: seq<Action>)
    ensures RunOf(START, actions).Some?
    ensures IsAhead(RunOf(START, actions).value, Lifecycle.Complete, Some(ProjectState.Active))
  {
    actions := ClosedTwice();
    actions := Then(actions, ReadRoadmap(0, 0, Change.CourseChange));
    actions := Then(actions, WriteRoadmap(0));
    actions := Then(actions, Commit(2));
    actions := Concluded(actions, 2);
  }
}
