/**
 The threads of LockProtocol at work on the state of HostMachine.  Each thread has a program
 counter of its own, and looks at no other: what it does depends on its own place and on the
 shared state only.  Every run of the threads is nevertheless a run of HostMachine, whose one
 counter is that of the thread that holds the lock.
 */
module ThreadedHost {
  import opened Wrappers
  import L = LockProtocol
  import HostState
  import H = HostMachine

  /** The thread that reads messages; only it rolls back and resolves recoveries. */
  const MESSAGES: L.ThreadId := 0

  /** host is the shared state; its own counter is not used and stays at Free. */
  datatype World = World(threads: L.World, counters: map<L.ThreadId, H.Pc>, host: H.World)

  function CounterOf(w: World, t: L.ThreadId): H.Pc {
    if t in w.counters then w.counters[t] else H.Free
  }

  /** The shared state as t takes it. */
  function SeenBy(w: World, t: L.ThreadId): H.World {
    w.host.(pc := CounterOf(w, t))
  }

  /** The state of HostMachine: the counter is that of the lock holder. */
  function Merged(w: World): H.World {
    w.host.(pc := if w.threads.owner.Some? then CounterOf(w, w.threads.owner.value) else H.Free)
  }

  ghost predicate Initial(w: World) {
    L.Initial(w.threads) && w.counters == map[] && w.host.pc == H.Free && H.Initial(w.host)
  }

  /** A thread with this counter may be at this place: whatever it is about, it does there. */
  predicate Belongs(counter: H.Pc, place: L.Pc) {
    counter == H.Free || L.HostKind(counter) == L.KindOf(place)
  }

  /** Steps that the source takes while it holds the lock. */
  predicate IsLocked(a: H.Action) {
    match a
    case Process(_) => false
    case Fields(f) => f.TakeOwn? || f.Accept? || f.AskHuman? || f.ResolveOther? || f.RejectCommand?
    case Rollback(_) => true
    case Exec(_) => true
  }

  predicate IsForMessages(call: L.Call) {
    call.Rollback? || call.Decide?
  }

  datatype Action =
    | Walk(walk: L.Action)                     // a thread goes on to another place
    | Act(t: L.ThreadId, act: H.Action)        // the lock holder does something there
    | Outside(t: L.ThreadId, fields: H.FieldAction)
    | Around(process: H.ProcessAction)
    | Die

  ghost predicate Enabled(w: World, a: Action) {
    match a
    case Walk(walk) =>
      && w.host.memory.Some? && !walk.Crash? && !walk.SetPaused? && L.Enabled(w.threads, walk)
      && (walk.Begin? && IsForMessages(walk.call) ==> walk.t == MESSAGES)
      && Belongs(CounterOf(w, walk.t), L.PcOf(L.Apply(w.threads, walk), walk.t))
    case Act(t, act) =>
      && w.threads.owner == Some(t) && IsLocked(act) && H.Enabled(SeenBy(w, t), act)
      && Belongs(H.Apply(SeenBy(w, t), act).pc, L.PcOf(w.threads, t))
    case Outside(t, fields) =>
      && !IsLocked(H.Fields(fields)) && H.FieldEnabled(SeenBy(w, t), fields)
      && (fields.Message? || fields.SetWorkspace? ==> t == MESSAGES)
    case Around(process) => !process.Crash? && H.ProcessEnabled(Merged(w), process)
    case Die => w.host.memory.Some?
  }

  ghost function Apply(w: World, a: Action): World
    requires Enabled(w, a)
  {
    match a
    case Walk(walk) => w.(threads := L.Apply(w.threads, walk))
    case Act(t, act) => Done(w, t, H.Apply(SeenBy(w, t), act))
    case Outside(t, fields) => Done(w, t, H.FieldApply(SeenBy(w, t), fields))
    case Around(process) =>
      var result := H.ProcessApply(Merged(w), process);
      if w.threads.owner.Some? then Done(w, w.threads.owner.value, result) else Done(w, MESSAGES, result)
    case Die =>
      Done(w.(threads := L.Apply(w.threads, L.Crash), counters := map[]), MESSAGES, H.ProcessApply(Merged(w), H.Crash))
  }

  /** t has brought about result; the threads read the paused field in it. */
  function Done(w: World, t: L.ThreadId, result: H.World): World {
    var paused := if result.memory.Some? then result.memory.value.paused else w.threads.paused;
    World(w.threads.(paused := paused), w.counters[t := result.pc], result.(pc := H.Free))
  }

  ghost predicate IsRun(trail: seq<World>) {
    && trail != [] && Initial(trail[0])
    && forall i :: 0 <= i < |trail| - 1 ==> StepAt(trail, i)
  }

  ghost predicate StepAt(trail: seq<World>, i: nat)
    requires i < |trail| - 1
  {
    exists a :: Enabled(trail[i], a) && trail[i + 1] == Apply(trail[i], a)
  }

  // ---- what every step keeps ----

  /** On the way to a restore or a decision, or at it. */
  predicate IsMessagePlace(pc: L.Pc) {
    pc.RollFlag? || pc.RollPaused? || pc.RollLock? || pc.RollFlagAgain? || pc.RollPausedAgain? || pc.Restoring?
    || pc.DecideLock? || pc.Deciding?
  }

  ghost predicate Inv(w: World) {
    && L.Inv(w.threads)
    && w.host.pc == H.Free
    && (forall t: L.ThreadId :: Belongs(CounterOf(w, t), L.PcOf(w.threads, t)))
    && (forall t: L.ThreadId :: IsMessagePlace(L.PcOf(w.threads, t)) ==> t == MESSAGES)
  }

  /** Only the lock holder is about anything. */
  lemma OthersAreFree(w: World, t: L.ThreadId)
    requires Inv(w) && w.threads.owner != Some(t)
    ensures CounterOf(w, t) == H.Free
  {
    assert L.Holds(L.PcOf(w.threads, t)) == 0;
    assert Belongs(CounterOf(w, t), L.PcOf(w.threads, t));
  }

  lemma DoneKeeps(w: World, t: L.ThreadId, result: H.World)
    requires Inv(w) && Belongs(result.pc, L.PcOf(w.threads, t))
    ensures Inv(Done(w, t, result))
  {
    hide L.Inv, Belongs;
    var w' := Done(w, t, result);
    L.PausingKeeps(w.threads, w'.threads.paused);
    forall u: L.ThreadId
      ensures L.PcOf(w'.threads, u) == L.PcOf(w.threads, u)
      ensures CounterOf(w', u) == if u == t then result.pc else CounterOf(w, u)
    {
    }
  }

  /** What the lock holder brings about is what HostMachine's own step would. */
  lemma HolderIsMerged(w: World, t: L.ThreadId, result: H.World)
    requires Inv(w) && w.threads.owner == Some(t)
    ensures SeenBy(w, t) == Merged(w) && Merged(Done(w, t, result)) == result
  {
  }

  lemma MessagePlaceIsReached(threads: L.World, walk: L.Action)
    requires L.Enabled(threads, walk) && !walk.Crash? && !walk.SetPaused?
    requires IsMessagePlace(L.PcOf(L.Apply(threads, walk), walk.t))
    ensures IsMessagePlace(L.PcOf(threads, walk.t)) || (walk.Begin? && IsForMessages(walk.call))
  {
  }

  lemma OthersStay(threads: L.World, walk: L.Action, u: L.ThreadId)
    requires L.Enabled(threads, walk) && !walk.Crash? && !walk.SetPaused? && u != walk.t
    ensures L.PcOf(L.Apply(threads, walk), u) == L.PcOf(threads, u)
  {
  }

  lemma WalkKeeps(w: World, walk: L.Action)
    requires Inv(w) && Enabled(w, Walk(walk))
    ensures Inv(Apply(w, Walk(walk)))
  {
    hide L.Inv, L.Enabled, L.Apply, L.PcOf, Belongs, IsMessagePlace, IsForMessages;
    L.StepKeeps(w.threads, walk);
    var w' := Apply(w, Walk(walk));
    forall u: L.ThreadId
      ensures Belongs(CounterOf(w', u), L.PcOf(w'.threads, u))
      ensures IsMessagePlace(L.PcOf(w'.threads, u)) ==> u == MESSAGES
    {
      assert CounterOf(w', u) == CounterOf(w, u);
      if u != walk.t {
        OthersStay(w.threads, walk, u);
      } else if IsMessagePlace(L.PcOf(w'.threads, u)) {
        MessagePlaceIsReached(w.threads, walk);
      }
    }
  }

  /** The counter of whoever gets the lock, or gives it back, is at Free. */
  lemma WalkStutters(w: World, walk: L.Action)
    requires Inv(w) && Enabled(w, Walk(walk)) && Inv(Apply(w, Walk(walk)))
    ensures Merged(Apply(w, Walk(walk))) == Merged(w)
  {
    hide Inv;
    var w' := Apply(w, Walk(walk));
    if w'.threads.owner != w.threads.owner {
      if w.threads.owner.Some? { OthersAreFree(w', w.threads.owner.value); }
      if w'.threads.owner.Some? { OthersAreFree(w, w'.threads.owner.value); }
    }
  }

  lemma ActSimulates(w: World, t: L.ThreadId, act: H.Action)
    requires Inv(w) && Enabled(w, Act(t, act))
    ensures var w' := Apply(w, Act(t, act)); Inv(w') && H.Next(Merged(w), Merged(w'))
  {
    hide Inv, L.Inv, H.Enabled, H.Apply, Belongs, IsLocked;
    var result := H.Apply(SeenBy(w, t), act);
    HolderIsMerged(w, t, result);
    DoneKeeps(w, t, result);
    assert H.Enabled(Merged(w), act) && Merged(Apply(w, Act(t, act))) == H.Apply(Merged(w), act);
  }

  lemma FieldsDoNotLook(h: H.World, fields: H.FieldAction, pc: H.Pc)
    requires !IsLocked(H.Fields(fields)) && H.FieldEnabled(h, fields)
    requires fields.Message? || fields.SetWorkspace? ==> H.MessagesPass(h.(pc := pc))
    ensures H.FieldEnabled(h.(pc := pc), fields)
    ensures H.FieldApply(h.(pc := pc), fields) == H.FieldApply(h, fields).(pc := pc)
    ensures H.FieldApply(h, fields).pc == h.pc
  {
  }

  lemma MessagesPassMerged(w: World)
    requires Inv(w) && H.MessagesPass(SeenBy(w, MESSAGES))
    ensures H.MessagesPass(Merged(w))
  {
    if w.threads.owner.Some? {
      var t := w.threads.owner.value;
      assert Belongs(CounterOf(w, t), L.PcOf(w.threads, t));
      assert IsMessagePlace(L.PcOf(w.threads, t)) ==> t == MESSAGES;
    }
  }

  lemma OutsideSimulates(w: World, t: L.ThreadId, fields: H.FieldAction)
    requires Inv(w) && Enabled(w, Outside(t, fields))
    ensures var w' := Apply(w, Outside(t, fields)); Inv(w') && H.Next(Merged(w), Merged(w'))
  {
    if fields.Message? || fields.SetWorkspace? { MessagesPassMerged(w); }
    FieldsDoNotLook(SeenBy(w, t), fields, Merged(w).pc);
    assert Belongs(CounterOf(w, t), L.PcOf(w.threads, t));
    hide L.Inv, H.FieldEnabled, H.FieldApply, Belongs, H.MessagesPass, IsLocked, L.HostKind;
    var result := H.FieldApply(SeenBy(w, t), fields);
    DoneKeeps(w, t, result);
    var w' := Done(w, t, result);
    assert SeenBy(w, t).(pc := Merged(w).pc) == Merged(w);
    assert Merged(w') == H.FieldApply(Merged(w), fields);
    assert H.Enabled(Merged(w), H.Fields(fields)) && H.Apply(Merged(w), H.Fields(fields)) == Merged(w');
  }

  lemma AroundSimulates(w: World, process: H.ProcessAction)
    requires Inv(w) && Enabled(w, Around(process))
    ensures var w' := Apply(w, Around(process)); Inv(w') && H.Next(Merged(w), Merged(w'))
  {
    var t := if w.threads.owner.Some? then w.threads.owner.value else MESSAGES;
    assert Belongs(CounterOf(w, t), L.PcOf(w.threads, t));
    hide Inv, L.Inv, L.KindOf, HostState.RestoredMemory, H.WithControl, H.OnlyControlMoves;
    var result := H.ProcessApply(Merged(w), process);
    if w.threads.owner.None? { OthersAreFree(w, t); }
    DoneKeeps(w, t, result);
    assert H.Enabled(Merged(w), H.Process(process)) && H.Apply(Merged(w), H.Process(process)) == result;
    assert Merged(Done(w, t, result)) == result;
  }

  lemma DieSimulates(w: World)
    requires Inv(w) && Enabled(w, Die)
    ensures var w' := Apply(w, Die); Inv(w') && H.Next(Merged(w), Merged(w'))
  {
    L.StepKeeps(w.threads, L.Crash);
    var result := H.ProcessApply(Merged(w), H.Crash);
    var none := w.(threads := L.Apply(w.threads, L.Crash), counters := map[]);
    assert Inv(none);
    hide Inv, L.Inv;
    DoneKeeps(none, MESSAGES, result);
    assert H.Enabled(Merged(w), H.Process(H.Crash)) && H.Apply(Merged(w), H.Process(H.Crash)) == result;
  }

  // ---- the main result ----

  lemma StepSimulates(w: World, a: Action)
    requires Inv(w) && Enabled(w, a)
    ensures Inv(Apply(w, a))
    ensures Merged(Apply(w, a)) == Merged(w) || H.Next(Merged(w), Merged(Apply(w, a)))
  {
    hide Inv, Enabled, Apply, Merged;
    match a
    case Walk(walk) => WalkKeeps(w, walk); WalkStutters(w, walk);
    case Act(t, act) => ActSimulates(w, t, act);
    case Outside(t, fields) => OutsideSimulates(w, t, fields);
    case Around(process) => AroundSimulates(w, process);
    case Die => DieSimulates(w);
  }

  lemma HostOneStepMore(hosts: seq<H.World>, h: H.World) returns (longer: seq<H.World>)
    requires H.IsRun(hosts) && H.Next(hosts[|hosts| - 1], h)
    ensures H.IsRun(longer) && longer == hosts + [h]
  {
    hide H.Initial, H.Next;
    longer := hosts + [h];
    forall i | 0 <= i < |longer| - 1 ensures H.StepAt(longer, i) {
      if i < |hosts| - 1 {
        assert H.StepAt(hosts, i);
        assert longer[i] == hosts[i] && longer[i + 1] == hosts[i + 1];
      } else {
        assert longer[i] == hosts[|hosts| - 1];
      }
    }
  }

  /** hosts goes through the merged state of every moment, in the same order; at[n] is where that of n is. */
  ghost predicate Follows(hosts: seq<H.World>, at: seq<nat>, trail: seq<World>) {
    && |at| == |trail| > 0 && at[|at| - 1] == |hosts| - 1
    && (forall n :: 0 <= n < |trail| ==> at[n] < |hosts| && hosts[at[n]] == Merged(trail[n]))
    && (forall n :: 0 <= n < |trail| - 1 ==> at[n] <= at[n + 1] <= at[n] + 1)
  }

  /**
   One counter is enough: any run of any number of threads, each with a counter of its own,
   is a run of HostMachine, but for the moments at which its state stays as it is.
   */
  lemma {:induction false} OneCounterIsEnough(trail: seq<World>) returns (hosts: seq<H.World>, at: seq<nat>)
    requires IsRun(trail)
    ensures H.IsRun(hosts) && Follows(hosts, at, trail) && Inv(trail[|trail| - 1])
    decreases |trail|
  {
    if |trail| == 1 {
      InitialMerges(trail[0]);
      hosts, at := [Merged(trail[0])], [0];
    } else {
      var m := |trail| - 1;
      PrefixIsRun(trail, m);
      assert StepAt(trail, m - 1);
      hide Inv, Enabled, Apply, H.IsRun, H.Next, IsRun, Follows;
      hosts, at := OneCounterIsEnough(trail[..m]);
      assert trail[..m][m - 1] == trail[m - 1];
      var a :| Enabled(trail[m - 1], a) && trail[m] == Apply(trail[m - 1], a);
      StepSimulates(trail[m - 1], a);
      assert trail == trail[..m] + [trail[m]];
      hosts, at := FollowsOneMore(hosts, at, trail[..m], trail[m]);
    }
  }

  lemma FollowsOneMore(hosts: seq<H.World>, at: seq<nat>, trail: seq<World>, w: World)
    returns (longer: seq<H.World>, at': seq<nat>)
    requires H.IsRun(hosts) && Follows(hosts, at, trail)
    requires Merged(w) == Merged(trail[|trail| - 1]) || H.Next(Merged(trail[|trail| - 1]), Merged(w))
    ensures H.IsRun(longer) && Follows(longer, at', trail + [w])
  {
    hide H.IsRun, H.Next, Merged;
    longer := hosts;
    if Merged(w) != Merged(trail[|trail| - 1]) {
      longer := HostOneStepMore(hosts, Merged(w));
    }
    at' := at + [|longer| - 1];
  }

  lemma InitialMerges(w: World)
    requires Initial(w)
    ensures Inv(w) && H.IsRun([Merged(w)])
  {
    assert Merged(w) == w.host;
  }

  lemma PrefixIsRun(trail: seq<World>, m: nat)
    requires IsRun(trail) && 0 < m <= |trail|
    ensures IsRun(trail[..m])
  {
    hide Initial, Enabled, Apply;
    forall i | 0 <= i < m - 1 ensures StepAt(trail[..m], i) {
      assert StepAt(trail, i);
      assert trail[..m][i] == trail[i] && trail[..m][i + 1] == trail[i + 1];
    }
  }
}
