/**
 The budget across crashes and resets: dispatch checks, records, persists and only then emits
 a prompt.  Every thread takes its snapshot of the budget first and writes it some time later.
 A reset, or another provider, begins a new session over whatever is stored, pending and under
 way.  The configuration is fixed and the clock does not go back.
 */
module BudgetProtocol {
  import opened Wrappers
  import opened RunBudget

  /** A prompt, numbered in the order of recording: when it was allowed, and the instant recorded for it. */
  datatype Prompt = Prompt(serial: nat, session: nat, generation: nat, allowedAt: real, recordedAt: real)

  /** A snapshot of the budget, and how many prompts had been recorded when it was taken. */
  datatype Snapshot = Snapshot(payload: Payload, upTo: nat)

  /** How far dispatch has come with the next prompt; it holds the lock throughout. */
  datatype Dispatch =
    | Idle
    | Called
    | Checked(allowedAt: real)
    | Recorded(prompt: Prompt)
    | Snapped(prompt: Prompt, own: Snapshot)
    | Durable(prompt: Prompt)

  type ThreadId = nat

  /**
   timer is when the pending send timer is due, loose are the timers that nobody can cancel any
   more, and calls counts the calls of dispatch that wait for the lock.  drafts are the
   snapshots that other threads have taken and not yet written.

   The rest is what has happened since the last reset, which was at begun: emitted are the
   prompts recorded and sent since then, sentAt the instants at which they went out, leftovers
   counts those recorded before and sent since, and generation the restarts that have forgotten
   a prompt of the last hour.  recorded and session count over all sessions.
   */
  datatype World = World(
    config: Config,
    clock: real,
    budget: Option<State>,
    disk: Option<Snapshot>,
    drafts: map<ThreadId, Snapshot>,
    timer: Option<real>,
    loose: multiset<real>,
    calls: nat,
    dispatch: Dispatch,
    recorded: nat,
    session: nat,
    begun: real,
    emitted: seq<Prompt>,
    sentAt: seq<real>,
    leftovers: nat,
    generation: nat)

  datatype Action =
    | Tick(to: real)
    | Request                 // _send_result_to_chatgpt: decide, then dispatch or arm the timer
    | TimerFires
    | LooseFires(due: real)
    | Enter                   // a call of dispatch gets the lock
    | Drop                    // and finds the run paused or guarded
    | Check                   // the decision inside dispatch
    | Record                  // record_send
    | Snap                    // _persist_runtime_state inside dispatch: the argument
    | Store                   // and then the write
    | Emit                    // send_to_llm
    | TakeSnapshot(thread: ThreadId)    // any other persist: the argument
    | WriteSnapshot(thread: ThreadId)   // and then the write
    | BlockBudget(reason: string, until: Cooldown)
    | Reset(provider: string) // reset, or set_provider with another one
    | Crash
    | Boot

  /** A new installation. */
  predicate Initial(w: World) {
    && w.clock > 0.0 && w == Fresh(w.config, w.clock)
  }

  function Fresh(config: Config, now: real): World {
    World(config, now, Some(FreshState("chatgpt", now)), None, map[], None, multiset{}, 0, Idle, 0, 0, now, [], [], 0, 0)
  }

  predicate Enabled(w: World, a: Action) {
    match a
    case Tick(to) => to >= w.clock
    case Request => w.budget.Some?
    case TimerFires => w.budget.Some? && w.timer.Some? && w.timer.value <= w.clock
    case LooseFires(due) => w.budget.Some? && due in w.loose && due <= w.clock
    case Enter => w.budget.Some? && w.dispatch.Idle? && w.calls > 0
    case Drop => w.budget.Some? && w.dispatch.Called?
    case Check => w.budget.Some? && w.dispatch.Called?
    case Record => w.budget.Some? && w.dispatch.Checked?
    case Snap => w.budget.Some? && w.dispatch.Recorded?
    case Store => w.budget.Some? && w.dispatch.Snapped?
    case Emit => w.budget.Some? && w.dispatch.Durable?
    case TakeSnapshot(_) => w.budget.Some?
    case WriteSnapshot(t) => w.budget.Some? && t in w.drafts
    case BlockBudget(_, _) => w.budget.Some?
    case Reset(_) => w.budget.Some?
    case Crash => w.budget.Some?
    case Boot => w.budget.None?
  }

  /** A refusal sends nothing; a wait arms the timer, replacing a pending one; no wait calls dispatch. */
  function Requested(w: World): World
    requires w.budget.Some?
  {
    var d := DecisionOf(w.budget.value, w.clock, w.config);
    var w' := w.(budget := Some(Pruned(w.budget.value, w.clock)));
    if !d.allowed then w'
    else if d.delay.Some? && d.delay.value > 0.05 then w'.(timer := Some(w.clock + d.delay.value))
    else w'.(calls := w.calls + 1)
  }

  function Taken(w: World): Snapshot
    requires w.budget.Some?
  {
    Snapshot(Export(w.budget.value), w.recorded)
  }

  function DiskTurns(w: World): seq<real> {
    if w.disk.Some? then w.disk.value.payload.turnTimestamps else []
  }

  function DiskUpTo(w: World): nat {
    if w.disk.Some? then w.disk.value.upTo else 0
  }

  predicate HasPrompt(d: Dispatch) {
    d.Recorded? || d.Snapped? || d.Durable?
  }

  /** The prompt under way was recorded in this session. */
  predicate IsOwn(w: World) {
    HasPrompt(w.dispatch) && w.dispatch.prompt.session == w.session
  }

  /** The prompts of the session that are out, or will be as soon as the dispatcher goes on. */
  function Outgoing(w: World): seq<Prompt> {
    if w.dispatch.Durable? && IsOwn(w) then w.emitted + [w.dispatch.prompt] else w.emitted
  }

  predicate IsRecent(w: World, p: Prompt) {
    p.generation == w.generation && p.recordedAt > w.clock - HOUR
  }

  /** The snapshot was taken before some prompt of the last hour was recorded. */
  predicate Predates(w: World, upTo: nat) {
    exists i :: 0 <= i < |Outgoing(w)| && IsRecent(w, Outgoing(w)[i]) && Outgoing(w)[i].serial >= upTo
  }

  /** What is durable does not account for every prompt of the last hour. */
  predicate Forgets(w: World) {
    Predates(w, DiskUpTo(w))
  }

  function Apply(w: World, a: Action): World
    requires Enabled(w, a)
  {
    match a
    case Tick(to) => w.(clock := to)
    case Request => Requested(w)
    case TimerFires => w.(timer := None, calls := w.calls + 1)
    case LooseFires(due) => w.(loose := w.loose - multiset{due}, calls := w.calls + 1)
    case Enter =>
      w.(calls := w.calls - 1, dispatch := Called, timer := None,
         loose := if w.timer.Some? then w.loose + multiset{w.timer.value} else w.loose)
    case Drop => w.(dispatch := Idle)
    case Check =>
      w.(budget := Some(Pruned(w.budget.value, w.clock)),
         dispatch := if DecisionOf(w.budget.value, w.clock, w.config).allowed then Checked(w.clock) else Idle)
    case Record =>
      w.(budget := Some(WithTurn(w.budget.value, w.clock)), recorded := w.recorded + 1,
         dispatch := Recorded(Prompt(w.recorded, w.session, w.generation, w.dispatch.allowedAt, w.clock)))
    case Snap => w.(dispatch := Snapped(w.dispatch.prompt, Taken(w)))
    case Store => w.(disk := Some(w.dispatch.own), dispatch := Durable(w.dispatch.prompt))
    case Emit =>
      if IsOwn(w) then
        w.(emitted := w.emitted + [w.dispatch.prompt], sentAt := w.sentAt + [w.clock], dispatch := Idle)
      else w.(leftovers := w.leftovers + 1, dispatch := Idle)
    case TakeSnapshot(t) => w.(drafts := w.drafts[t := Taken(w)])
    case WriteSnapshot(t) => w.(disk := Some(w.drafts[t]), drafts := w.drafts - {t})
    case BlockBudget(reason, until) =>
      w.(budget := Some(w.budget.value.(blockReason := reason, cooldownUntil := until)))
    case Reset(provider) =>
      w.(budget := Some(FreshState(provider, w.clock)), session := w.session + 1, begun := w.clock,
         emitted := [], sentAt := [], leftovers := 0, generation := 0,
         dispatch := if w.dispatch.Checked? then Checked(w.clock) else w.dispatch)
    case Crash =>
      w.(budget := None, drafts := map[], timer := None, loose := multiset{}, calls := 0, dispatch := Idle)
    case Boot =>
      w.(budget := Some(if w.disk.Some? then Restore(w.disk.value.payload, w.clock) else FreshState("chatgpt", w.clock)),
         begun := if w.disk.Some? then w.begun else w.clock,
         generation := w.generation + if Forgets(w) then 1 else 0)
  }

  ghost predicate IsRun(trail: seq<World>) {
    && trail != [] && Initial(trail[0])
    && forall i :: 0 <= i < |trail| - 1 ==> StepAt(trail, i)
  }

  ghost predicate StepAt(trail: seq<World>, i: nat)
    requires i < |trail| - 1
  {
    exists a :: Enabled(trail[i], a) && trail[i + 1] == Apply(trail[i], a)
  }

  // ---- counting ----

  /** How many of the instants lie after x. */
  function CountAfter(ts: seq<real>, x: real): nat {
    if ts == [] then 0
    else CountAfter(ts[..|ts| - 1], x) + if ts[|ts| - 1] > x then 1 else 0
  }

  /** How many of the instants lie in [x, y). */
  function CountIn(ts: seq<real>, x: real, y: real): nat {
    if ts == [] then 0
    else CountIn(ts[..|ts| - 1], x, y) + if x <= ts[|ts| - 1] < y then 1 else 0
  }

  lemma CountAfterOneMore(ts: seq<real>, t: real, x: real)
    ensures CountAfter(ts + [t], x) == CountAfter(ts, x) + if t > x then 1 else 0
  {
    assert (ts + [t])[..|ts|] == ts;
  }

  lemma CountInOneMore(ts: seq<real>, t: real, x: real, y: real)
    ensures CountIn(ts + [t], x, y) == CountIn(ts, x, y) + if x <= t < y then 1 else 0
  {
    assert (ts + [t])[..|ts|] == ts;
  }

  /** Pruning forgets nothing of the last hour, and keeps nothing older. */
  lemma {:induction false} PruningKeepsTheHour(turns: seq<real>, now: real, x: real)
    ensures x >= now - HOUR ==> CountAfter(Recent(turns, now), x) == CountAfter(turns, x)
    ensures x <= now - HOUR ==> CountAfter(Recent(turns, now), x) == |Recent(turns, now)|
  {
    if turns != [] {
      var init, last := turns[..|turns| - 1], turns[|turns| - 1];
      PruningKeepsTheHour(init, now, x);
      CountAfterOneMore(Recent(init, now), last, x);
    }
  }

  lemma {:induction false} WindowIsAfter(ts: seq<real>, x: real, y: real, z: real)
    requires z < x
    ensures CountIn(ts, x, y) <= CountAfter(ts, z)
  {
    if ts != [] {
      WindowIsAfter(ts[..|ts| - 1], x, y, z);
    }
  }

  lemma {:induction false} LaterCountsMore(ts: seq<real>, ts': seq<real>, x: real)
    requires |ts| == |ts'| && forall i :: 0 <= i < |ts| ==> ts[i] <= ts'[i]
    ensures CountAfter(ts, x) <= CountAfter(ts', x)
  {
    if ts != [] {
      LaterCountsMore(ts[..|ts| - 1], ts'[..|ts'| - 1], x);
    }
  }

  /** How many of the instants lie in the half-open hour from x. */
  function InHourFrom(ts: seq<real>, x: real): nat {
    CountIn(ts, x, x + HOUR)
  }

  /** No half-open hour contains more than n of the instants. */
  ghost predicate HourlyBounded(ts: seq<real>, n: int) {
    forall x :: InHourFrom(ts, x) <= n
  }

  lemma OnePromptMore(ts: seq<real>, t: real, since: real, n: int)
    requires HourlyBounded(ts, n) && CountAfter(ts, since - HOUR) < n && since <= t
    ensures HourlyBounded(ts + [t], n)
  {
    forall x ensures InHourFrom(ts + [t], x) <= n {
      CountInOneMore(ts, t, x, x + HOUR);
      assert InHourFrom(ts, x) <= n;
      if x <= t < x + HOUR {
        WindowIsAfter(ts, x, x + HOUR, since - HOUR);
      }
    }
  }

  function AllowedAt(ps: seq<Prompt>): (ts: seq<real>)
    ensures |ts| == |ps| && forall i :: 0 <= i < |ps| ==> ts[i] == ps[i].allowedAt
  {
    seq(|ps|, i requires 0 <= i < |ps| => ps[i].allowedAt)
  }

  function RecordedAt(ps: seq<Prompt>): (ts: seq<real>)
    ensures |ts| == |ps| && forall i :: 0 <= i < |ps| ==> ts[i] == ps[i].recordedAt
  {
    seq(|ps|, i requires 0 <= i < |ps| => ps[i].recordedAt)
  }

  /** The prompts of one generation. */
  function Of(ps: seq<Prompt>, generation: nat): seq<Prompt> {
    if ps == [] then []
    else Of(ps[..|ps| - 1], generation) + if ps[|ps| - 1].generation == generation then [ps[|ps| - 1]] else []
  }

  /** And those of them that were recorded when k prompts had been. */
  function Known(ps: seq<Prompt>, generation: nat, k: nat): seq<Prompt> {
    if ps == [] then []
    else
      var p := ps[|ps| - 1];
      Known(ps[..|ps| - 1], generation, k) + if p.generation == generation && p.serial < k then [p] else []
  }

  lemma OneMore(ps: seq<Prompt>, p: Prompt, generation: nat, k: nat)
    ensures Of(ps + [p], generation) == if p.generation == generation then Of(ps, generation) + [p] else Of(ps, generation)
    ensures Known(ps + [p], generation, k) ==
            if p.generation == generation && p.serial < k then Known(ps, generation, k) + [p] else Known(ps, generation, k)
  {
    assert (ps + [p])[..|ps|] == ps;
  }

  lemma RecordedOneMore(ps: seq<Prompt>, p: Prompt, x: real)
    ensures CountAfter(RecordedAt(ps + [p]), x) == CountAfter(RecordedAt(ps), x) + if p.recordedAt > x then 1 else 0
  {
    assert RecordedAt(ps + [p]) == RecordedAt(ps) + [p.recordedAt];
    CountAfterOneMore(RecordedAt(ps), p.recordedAt, x);
  }

  lemma {:induction false} KnownIsFewer(ps: seq<Prompt>, generation: nat, k: nat, x: real)
    ensures CountAfter(RecordedAt(Known(ps, generation, k)), x) <= CountAfter(RecordedAt(Of(ps, generation)), x)
  {
    if ps != [] {
      var init, p := ps[..|ps| - 1], ps[|ps| - 1];
      KnownIsFewer(init, generation, k, x);
      assert init + [p] == ps;
      OneMore(init, p, generation, k);
      RecordedOneMore(Known(init, generation, k), p, x);
      RecordedOneMore(Of(init, generation), p, x);
    }
  }

  predicate NothingLater(ps: seq<Prompt>, generation: nat, k: nat, x: real) {
    forall i :: 0 <= i < |ps| && ps[i].generation == generation && ps[i].recordedAt > x ==> ps[i].serial < k
  }

  /** What was known at a time is all there is, if nothing younger than x was recorded later. */
  lemma {:induction false} KnownIsAll(ps: seq<Prompt>, generation: nat, k: nat, x: real)
    requires NothingLater(ps, generation, k, x)
    ensures CountAfter(RecordedAt(Known(ps, generation, k)), x) == CountAfter(RecordedAt(Of(ps, generation)), x)
  {
    if ps != [] {
      var init, p := ps[..|ps| - 1], ps[|ps| - 1];
      assert NothingLater(init, generation, k, x) by { assert forall i :: 0 <= i < |init| ==> init[i] == ps[i]; }
      KnownIsAll(init, generation, k, x);
      assert init + [p] == ps;
      OneMore(init, p, generation, k);
      RecordedOneMore(Known(init, generation, k), p, x);
      RecordedOneMore(Of(init, generation), p, x);
    }
  }

  lemma {:induction false} NoneOfLater(ps: seq<Prompt>, generation: nat, k: nat)
    requires forall i :: 0 <= i < |ps| ==> ps[i].generation < generation
    ensures Of(ps, generation) == [] && Known(ps, generation, k) == []
  {
    if ps != [] {
      var init := ps[..|ps| - 1];
      assert forall i :: 0 <= i < |init| ==> init[i] == ps[i];
      NoneOfLater(init, generation, k);
    }
  }

  // ---- what every step keeps ----

  function Cap(config: Config): int {
    if MaxHour(config) <= MaxSession(config) then MaxHour(config) else MaxSession(config)
  }

  /** Everything of the session that may turn out to have been emitted. */
  function Committed(w: World): seq<Prompt> {
    if IsOwn(w) then w.emitted + [w.dispatch.prompt] else w.emitted
  }

  /** The list accounts for these prompts, as far as they are of the last hour. */
  ghost predicate Knows(turns: seq<real>, ps: seq<Prompt>, clock: real) {
    forall x :: x >= clock - HOUR ==> CountAfter(RecordedAt(ps), x) <= CountAfter(turns, x)
  }

  /** A snapshot accounts for all prompts recorded before it was taken. */
  ghost predicate SnapshotKnows(w: World, s: Snapshot) {
    s.upTo <= w.recorded && Knows(s.payload.turnTimestamps, Known(Committed(w), w.generation, s.upTo), w.clock)
  }

  ghost predicate TurnsAreKnown(w: World) {
    && (w.budget.Some? ==> Knows(w.budget.value.turnTimestamps, Of(Committed(w), w.generation), w.clock))
    && (w.disk.Some? ==> SnapshotKnows(w, w.disk.value))
    && (forall t :: t in w.drafts ==> SnapshotKnows(w, w.drafts[t]))
    && (w.dispatch.Snapped? ==> SnapshotKnows(w, w.dispatch.own))
    && (w.dispatch.Snapped? && IsOwn(w) ==> w.dispatch.own.upTo > w.dispatch.prompt.serial)
    && (w.disk.None? ==> w.emitted == [] && !w.dispatch.Durable?)
    && (w.budget.None? ==> w.drafts == map[] && w.dispatch.Idle?)
  }

  ghost predicate SerialsFit(w: World) {
    && (forall i :: 0 <= i < |Committed(w)| ==>
          Committed(w)[i].serial < w.recorded && Committed(w)[i].generation <= w.generation)
    && (IsOwn(w) ==> w.dispatch.prompt.serial == w.recorded - 1 && w.dispatch.prompt.generation == w.generation)
    && (HasPrompt(w.dispatch) && !IsOwn(w) ==> w.emitted == [] && w.leftovers == 0 && w.dispatch.prompt.session < w.session)
    && w.leftovers <= 1
  }

  /** The prompt under way still fits: it was allowed with room to spare. */
  ghost predicate HasRoom(w: World, allowedAt: real) {
    var mine := Of(w.emitted, w.generation);
    && CountAfter(RecordedAt(mine), allowedAt - HOUR) < Cap(w.config)
    && CountAfter(AllowedAt(mine), allowedAt - HOUR) < Cap(w.config)
  }

  ghost predicate UnderWay(w: World) {
    match w.dispatch
    case Idle => true
    case Called => true
    case Checked(t) => HasRoom(w, t) && t <= w.clock
    case _ => IsOwn(w) ==> HasRoom(w, w.dispatch.prompt.allowedAt) && w.dispatch.prompt.allowedAt <= w.dispatch.prompt.recordedAt <= w.clock
  }

  /** No hour holds more prompts of one generation than the cap. */
  ghost predicate GenerationFits(w: World, generation: nat) {
    var mine := Of(w.emitted, generation);
    mine != [] ==>
      && HourlyBounded(RecordedAt(mine), Cap(w.config))
      && HourlyBounded(AllowedAt(mine), Cap(w.config))
  }

  ghost predicate EmittedFits(w: World) {
    && (forall i :: 0 <= i < |w.emitted| ==> w.emitted[i].allowedAt <= w.emitted[i].recordedAt)
    && forall g: nat :: GenerationFits(w, g)
  }

  /** Prompts go out one after another, each after it was recorded and before the next is allowed. */
  ghost predicate SentInOrder(w: World) {
    && |w.sentAt| == |w.emitted|
    && (forall i :: 0 <= i < |w.emitted| ==> w.emitted[i].recordedAt <= w.sentAt[i] <= w.clock)
    && (forall i, j :: 0 <= i < j < |w.emitted| ==> w.sentAt[i] <= w.emitted[j].allowedAt)
    && (w.dispatch.Checked? ==> forall i :: 0 <= i < |w.sentAt| ==> w.sentAt[i] <= w.dispatch.allowedAt)
    && (IsOwn(w) ==> forall i :: 0 <= i < |w.sentAt| ==> w.sentAt[i] <= w.dispatch.prompt.allowedAt)
  }

  predicate WithinSession(w: World, allowedAt: real) {
    w.begun <= allowedAt && (allowedAt - w.begun) / 60.0 < MaxRuntimeMinutes(w.config)
  }

  /** No budget, live or stored, has begun after the session. */
  predicate StartFits(w: World, started: real) {
    0.0 < started <= w.begun
  }

  /** All prompts of the session were allowed within its runtime, which a restart does not extend. */
  ghost predicate SessionFits(w: World) {
    && 0.0 < w.begun <= w.clock
    && (w.disk.Some? ==> StartFits(w, w.disk.value.payload.sessionStartedAt))
    && (w.budget.Some? ==> StartFits(w, w.budget.value.sessionStartedAt))
    && (forall t :: t in w.drafts ==> StartFits(w, w.drafts[t].payload.sessionStartedAt))
    && (w.dispatch.Snapped? ==> StartFits(w, w.dispatch.own.payload.sessionStartedAt))
    && (forall p :: p in w.emitted ==> WithinSession(w, p.allowedAt))
    && (w.dispatch.Checked? ==> WithinSession(w, w.dispatch.allowedAt))
    && (IsOwn(w) ==> WithinSession(w, w.dispatch.prompt.allowedAt))
  }

  ghost predicate Inv(w: World) {
    TurnsAreKnown(w) && SerialsFit(w) && UnderWay(w) && EmittedFits(w) && SentInOrder(w) && SessionFits(w) && w.clock > 0.0
  }

  lemma KnowsWhatIsRecent(turns: seq<real>, ps: seq<Prompt>, clock: real, later: real)
    requires Knows(turns, ps, clock) && clock <= later
    ensures Knows(turns, ps, later) && Knows(Recent(turns, later), ps, later)
  {
    forall x | x >= later - HOUR ensures CountAfter(RecordedAt(ps), x) <= CountAfter(Recent(turns, later), x) {
      PruningKeepsTheHour(turns, later, x);
    }
  }

  lemma KnowsOneMore(turns: seq<real>, ps: seq<Prompt>, p: Prompt, clock: real)
    requires Knows(turns, ps, clock)
    ensures Knows(turns + [p.recordedAt], ps + [p], clock)
  {
    forall x | x >= clock - HOUR
      ensures CountAfter(RecordedAt(ps + [p]), x) <= CountAfter(turns + [p.recordedAt], x)
    {
      RecordedOneMore(ps, p, x);
      CountAfterOneMore(turns, p.recordedAt, x);
    }
  }

  lemma KnowsFewer(turns: seq<real>, ps: seq<Prompt>, p: Prompt, clock: real)
    requires Knows(turns, ps + [p], clock)
    ensures Knows(turns, ps, clock)
  {
    forall x | x >= clock - HOUR ensures CountAfter(RecordedAt(ps), x) <= CountAfter(turns, x) {
      RecordedOneMore(ps, p, x);
    }
  }

  lemma CheckLeavesRoom(w: World)
    requires TurnsAreKnown(w) && EmittedFits(w) && Enabled(w, Check)
    requires DecisionOf(w.budget.value, w.clock, w.config).allowed
    ensures HasRoom(w, w.clock)
  {
    hide Of, Known, CountAfter, GenerationFits;
    var s := w.budget.value;
    var mine := Of(w.emitted, w.generation);
    PruningKeepsTheHour(s.turnTimestamps, w.clock, w.clock - HOUR);
    assert CountAfter(RecordedAt(mine), w.clock - HOUR) <= CountAfter(s.turnTimestamps, w.clock - HOUR);
    OfIsPart(w.emitted, w.generation);
    assert forall i :: 0 <= i < |mine| ==> mine[i] in mine;
    LaterCountsMore(AllowedAt(mine), RecordedAt(mine), w.clock - HOUR);
  }

  lemma {:induction false} OfIsPart(ps: seq<Prompt>, generation: nat)
    ensures forall q :: q in Of(ps, generation) ==> q in ps
  {
    if ps != [] { OfIsPart(ps[..|ps| - 1], generation); }
  }

  lemma NoneBounded(ts: seq<real>, n: int)
    requires ts == [] && n >= 0
    ensures HourlyBounded(ts, n)
  {
  }

  // ---- what is known ----

  ghost predicate TurnsInv(w: World) {
    TurnsAreKnown(w) && SerialsFit(w)
  }

  lemma TakenKnows(w: World)
    requires TurnsAreKnown(w) && w.budget.Some?
    ensures SnapshotKnows(w, Taken(w))
  {
    hide Of, Known, CountAfter;
    var ps, turns := Committed(w), w.budget.value.turnTimestamps;
    forall x | x >= w.clock - HOUR
      ensures CountAfter(RecordedAt(Known(ps, w.generation, w.recorded)), x) <= CountAfter(turns, x)
    {
      KnownIsFewer(ps, w.generation, w.recorded, x);
    }
  }

  /** A snapshot keeps accounting for what it accounts for. */
  lemma StaysKnown(w: World, w': World, s: Snapshot)
    requires SnapshotKnows(w, s)
    requires Committed(w') == Committed(w) && w'.generation == w.generation && w'.recorded == w.recorded
    requires w'.clock >= w.clock
    ensures SnapshotKnows(w', s)
  {
    hide Of, Known, CountAfter;
  }

  lemma StoringKeepsTurns(w: World, a: Action)
    requires TurnsInv(w) && Enabled(w, a) && (a.TakeSnapshot? || a.WriteSnapshot? || a.Snap? || a.Store? || a.Emit?)
    ensures TurnsInv(Apply(w, a))
  {
    hide Knows, Export, Of, Known, SnapshotKnows;
    var w' := Apply(w, a);
    assert SnapshotKnows(w, Taken(w)) by { TakenKnows(w); }
    assert Committed(w') == Committed(w);
    forall s | SnapshotKnows(w, s) ensures SnapshotKnows(w', s) { StaysKnown(w, w', s); }
    assert SerialsFit(w') && Taken(w).upTo == w.recorded;
  }

  predicate IsCalling(a: Action) {
    a.TimerFires? || a.LooseFires? || a.Enter?
  }

  /** A decision drops only what is older than an hour. */
  lemma DecidingKeepsTurns(w: World, a: Action)
    requires TurnsInv(w) && Enabled(w, a) && (a.Check? || a.Request?)
    ensures TurnsInv(Apply(w, a))
  {
    hide Of, Known, SnapshotKnows, DecisionOf;
    var w' := Apply(w, a);
    assert Committed(w') == Committed(w);
    forall s | SnapshotKnows(w, s) ensures SnapshotKnows(w', s) { StaysKnown(w, w', s); }
    KnowsWhatIsRecent(w.budget.value.turnTimestamps, Of(Committed(w), w.generation), w.clock, w.clock);
    hide Knows, Recent;
  }

  lemma CallingKeepsTurns(w: World, a: Action)
    requires TurnsInv(w) && Enabled(w, a) && (IsCalling(a) || a.Drop? || a.BlockBudget?)
    ensures TurnsInv(Apply(w, a))
  {
    hide Of, Known, SnapshotKnows, Knows;
    var w' := Apply(w, a);
    assert Committed(w') == Committed(w);
    forall s | SnapshotKnows(w, s) ensures SnapshotKnows(w', s) { StaysKnown(w, w', s); }
  }

  /** A new session has nothing to account for yet. */
  lemma ResetKeepsTurns(w: World, a: Action)
    requires TurnsInv(w) && Enabled(w, a) && a.Reset?
    ensures TurnsInv(Apply(w, a))
  {
    hide SnapshotKnows, Knows, Known;
    var w' := Apply(w, a);
    assert !IsOwn(w') by { NotOwnAfterReset(w, a); }
    assert Committed(w') == [];
    hide IsOwn;
    if w.disk.Some? { NothingKnown(w, w', w.disk.value); }
    forall t | t in w.drafts ensures SnapshotKnows(w', w.drafts[t]) { NothingKnown(w, w', w.drafts[t]); }
    if w.dispatch.Snapped? { NothingKnown(w, w', w.dispatch.own); }
    NothingToKnow([], w.clock);
  }

  lemma NothingKnown(w: World, w': World, s: Snapshot)
    requires SnapshotKnows(w, s) && w'.recorded == w.recorded && Committed(w') == []
    ensures SnapshotKnows(w', s)
  {
    NothingToKnow(s.payload.turnTimestamps, w'.clock);
  }

  lemma TickKeepsTurns(w: World, a: Action)
    requires TurnsInv(w) && Enabled(w, a) && a.Tick?
    ensures TurnsInv(Apply(w, a))
  {
    hide Of, Known, SnapshotKnows, CountAfter;
    var w' := Apply(w, a);
    assert Committed(w') == Committed(w);
    forall s | SnapshotKnows(w, s) ensures SnapshotKnows(w', s) { StaysKnown(w, w', s); }
  }

  lemma RecordKeepsTurns(w: World)
    requires TurnsInv(w) && Enabled(w, Record)
    ensures TurnsInv(Apply(w, Record))
  {
    hide Of, Known, Knows, CountAfter;
    var w' := Apply(w, Record);
    var p := w'.dispatch.prompt;
    OneMore(w.emitted, p, w.generation, 0);
    KnowsOneMore(w.budget.value.turnTimestamps, Of(w.emitted, w.generation), p, w.clock);
    forall s | SnapshotKnows(w, s) ensures SnapshotKnows(w', s) {
      OneMore(w.emitted, p, w.generation, s.upTo);
    }
    hide SnapshotKnows;
  }

  lemma CrashKeepsTurns(w: World)
    requires TurnsInv(w) && Enabled(w, Crash)
    ensures TurnsInv(Apply(w, Crash))
  {
    hide Of, Known, Knows, CountAfter;
    var w' := Apply(w, Crash);
    if w.disk.Some? { CutOffStaysKnown(w, w.disk.value); }
    assert HasPrompt(w.dispatch) ==> forall i :: 0 <= i < |w.emitted| ==> Committed(w)[i] == w.emitted[i];
  }

  lemma CutOffStaysKnown(w: World, s: Snapshot)
    requires SnapshotKnows(w, s) && Enabled(w, Crash)
    ensures SnapshotKnows(Apply(w, Crash), s)
  {
    hide Of, Known, Knows, CountAfter;
    if IsOwn(w) {
      OneMore(w.emitted, w.dispatch.prompt, w.generation, s.upTo);
      if w.dispatch.prompt.generation == w.generation && w.dispatch.prompt.serial < s.upTo {
        KnowsFewer(s.payload.turnTimestamps, Known(w.emitted, w.generation, s.upTo), w.dispatch.prompt, w.clock);
      }
    }
  }

  /** A restart that forgets nothing knows what its predecessors knew; one that forgets starts afresh. */
  lemma BootKnows(w: World)
    requires TurnsInv(w) && Enabled(w, Boot)
    ensures var w' := Apply(w, Boot);
            && Knows(w'.budget.value.turnTimestamps, Of(w'.emitted, w'.generation), w'.clock)
            && (w'.disk.Some? ==> SnapshotKnows(w', w'.disk.value))
  {
    hide CountAfter;
    var w' := Apply(w, Boot);
    if Forgets(w) {
      NoneOfLater(w.emitted, w'.generation, DiskUpTo(w));
      NothingToKnow(DiskTurns(w), w.clock);
    } else if w.disk.None? {
      NothingToKnow([], w.clock);
    } else {
      forall x | x >= w.clock - HOUR
        ensures CountAfter(RecordedAt(Of(w.emitted, w.generation)), x) <= CountAfter(DiskTurns(w), x)
      {
        assert Outgoing(w) == w.emitted;
        assert NothingLater(w.emitted, w.generation, DiskUpTo(w), x);
        KnownIsAll(w.emitted, w.generation, DiskUpTo(w), x);
      }
    }
  }

  lemma NothingToKnow(turns: seq<real>, clock: real)
    ensures Knows(turns, [], clock)
  {
  }

  lemma BootKeepsTurns(w: World)
    requires TurnsInv(w) && Enabled(w, Boot)
    ensures TurnsInv(Apply(w, Boot))
  {
    BootKnows(w);
    hide Knows, SnapshotKnows, Of, Forgets, Restore;
  }

  lemma TurnsKeep(w: World, a: Action)
    requires TurnsInv(w) && Enabled(w, a)
    ensures TurnsInv(Apply(w, a))
  {
    hide TurnsInv, Enabled, Apply;
    match a
    case Tick(_) => TickKeepsTurns(w, a);
    case Record => RecordKeepsTurns(w);
    case Crash => CrashKeepsTurns(w);
    case Boot => BootKeepsTurns(w);
    case Check => DecidingKeepsTurns(w, a);
    case Request => DecidingKeepsTurns(w, a);
    case TimerFires => CallingKeepsTurns(w, a);
    case LooseFires(_) => CallingKeepsTurns(w, a);
    case Enter => CallingKeepsTurns(w, a);
    case Reset(_) => ResetKeepsTurns(w, a);
    case Drop => CallingKeepsTurns(w, a);
    case BlockBudget(_, _) => CallingKeepsTurns(w, a);
    case _ => StoringKeepsTurns(w, a);
  }

  // ---- what has been emitted ----

  ghost predicate RoomInv(w: World) {
    UnderWay(w) && EmittedFits(w)
  }

  /** Room and bounds depend on what has been emitted, not on what is stored. */
  lemma RoomStays(w: World, w': World)
    requires w'.emitted == w.emitted && w'.generation == w.generation && w'.config == w.config && w'.clock >= w.clock
    ensures forall t: real :: HasRoom(w, t) ==> HasRoom(w', t)
  {
    hide Of, CountAfter;
  }

  lemma BoundsStay(w: World, w': World)
    requires EmittedFits(w) && w'.emitted == w.emitted && w'.config == w.config
    ensures EmittedFits(w')
  {
    hide Of, HourlyBounded;
    forall g: nat ensures GenerationFits(w', g) { assert GenerationFits(w, g); }
  }

  lemma EmitKeepsRoom(w: World)
    requires RoomInv(w) && SerialsFit(w) && Enabled(w, Emit)
    ensures RoomInv(Apply(w, Emit))
  {
    hide GenerationFits, HasRoom;
    if IsOwn(w) {
      forall g: nat ensures GenerationFits(Apply(w, Emit), g) { OneEmittedMore(w, g); }
    } else {
      BoundsStay(w, Apply(w, Emit));
    }
  }

  lemma OnePromptFits(mine: seq<Prompt>, p: Prompt, n: int)
    requires mine != [] ==> HourlyBounded(RecordedAt(mine), n) && HourlyBounded(AllowedAt(mine), n)
    requires CountAfter(RecordedAt(mine), p.allowedAt - HOUR) < n && CountAfter(AllowedAt(mine), p.allowedAt - HOUR) < n
    requires p.allowedAt <= p.recordedAt
    ensures HourlyBounded(RecordedAt(mine + [p]), n) && HourlyBounded(AllowedAt(mine + [p]), n)
  {
    hide HourlyBounded, CountAfter;
    assert RecordedAt(mine + [p]) == RecordedAt(mine) + [p.recordedAt];
    assert AllowedAt(mine + [p]) == AllowedAt(mine) + [p.allowedAt];
    if mine == [] {
      NoneBounded(RecordedAt(mine), n);
      NoneBounded(AllowedAt(mine), n);
    }
    OnePromptMore(RecordedAt(mine), p.recordedAt, p.allowedAt, n);
    OnePromptMore(AllowedAt(mine), p.allowedAt, p.allowedAt, n);
  }

  lemma OneEmittedMore(w: World, generation: nat)
    requires EmittedFits(w) && SerialsFit(w) && UnderWay(w) && Enabled(w, Emit) && IsOwn(w)
    ensures GenerationFits(Apply(w, Emit), generation)
  {
    hide HourlyBounded, Of, CountAfter;
    var p, n, mine := w.dispatch.prompt, Cap(w.config), Of(w.emitted, generation);
    assert GenerationFits(w, generation);
    OneMore(w.emitted, p, generation, 0);
    if p.generation == generation { OnePromptFits(mine, p, n); }
  }

  lemma ResetKeepsRoom(w: World, a: Action)
    requires RoomInv(w) && TurnsInv(w) && Enabled(w, a) && a.Reset?
    ensures RoomInv(Apply(w, a))
  {
    hide TurnsAreKnown, EmittedFits, CountAfter, HourlyBounded, IsOwn;
    var w' := Apply(w, a);
    assert IsOwn(w') ==> false by { NotOwnAfterReset(w, a); }
    if w.dispatch.Checked? { assert HasRoom(w', w.clock) by { RoomInNewSession(w, w', w.dispatch.allowedAt, w.clock); } }
    assert EmittedFits(w') by { NothingEmittedFits(w'); }
  }

  lemma NotOwnAfterReset(w: World, a: Action)
    requires SerialsFit(w) && Enabled(w, a) && a.Reset?
    ensures !IsOwn(Apply(w, a))
  {
  }

  lemma NothingEmittedFits(w: World)
    requires w.emitted == []
    ensures EmittedFits(w)
  {
  }

  lemma RoomInNewSession(w: World, w': World, t: real, t': real)
    requires HasRoom(w, t) && w'.config == w.config && w'.emitted == []
    ensures HasRoom(w', t')
  {
  }

  lemma DownIsIdle(w: World)
    requires TurnsInv(w)
    ensures w.budget.None? ==> w.drafts == map[] && w.dispatch.Idle?
    ensures w.disk.None? ==> w.emitted == [] && !w.dispatch.Durable?
  {
  }

  lemma RoomKeeps(w: World, a: Action)
    requires RoomInv(w) && TurnsInv(w) && Enabled(w, a)
    ensures RoomInv(Apply(w, a))
  {
    hide GenerationFits, TurnsAreKnown, EmittedFits;
    if a.Emit? {
      EmitKeepsRoom(w);
    } else if a.Reset? {
      ResetKeepsRoom(w, a);
    } else {
      var w' := Apply(w, a);
      if a.Check? && w'.dispatch.Checked? { CheckLeavesRoom(w); }
      hide HasRoom, DecisionOf;
      BoundsStay(w, w');
      DownIsIdle(w);
      if !a.Boot? { RoomStays(w, w'); }
    }
  }

  // ---- order and session ----

  lemma OrderKeeps(w: World, a: Action)
    requires SentInOrder(w) && UnderWay(w) && Enabled(w, a)
    ensures SentInOrder(Apply(w, a))
  {
    if a.Emit? || a.Check? || a.Record? || a.Reset? {
      DispatchKeepsOrder(w, a);
    } else {
      OthersKeepOrder(w, a);
    }
  }

  lemma DispatchKeepsOrder(w: World, a: Action)
    requires SentInOrder(w) && UnderWay(w) && Enabled(w, a) && (a.Emit? || a.Check? || a.Record? || a.Reset?)
    ensures SentInOrder(Apply(w, a))
  {
    hide HasRoom, Recent, DecisionOf;
  }

  lemma OthersKeepOrder(w: World, a: Action)
    requires SentInOrder(w) && Enabled(w, a) && !a.Emit? && !a.Check? && !a.Record? && !a.Reset?
    ensures SentInOrder(Apply(w, a))
  {
    var w' := Apply(w, a);
    hide Export, Restore, Recent, Predates, DecisionOf;
    assert w'.emitted == w.emitted && w'.sentAt == w.sentAt && w'.clock >= w.clock;
    assert IsOwn(w') ==> IsOwn(w) && w'.dispatch.prompt == w.dispatch.prompt;
  }

  /** What is stored and taken keeps the start of its session. */
  lemma StartsKeep(w: World, a: Action)
    requires SessionFits(w) && Enabled(w, a) && IsStoring(a)
    ensures SessionFits(Apply(w, a))
  {
    assert forall t: real :: WithinSession(Apply(w, a), t) <==> WithinSession(w, t);
    hide WithinSession;
  }

  predicate IsStoring(a: Action) {
    a.TakeSnapshot? || a.WriteSnapshot? || a.Snap? || a.Store?
  }

  lemma OthersKeepSession(w: World, a: Action)
    requires SessionFits(w) && TurnsInv(w) && Enabled(w, a)
    requires !IsStoring(a) && !a.Check? && !a.Record? && !a.Emit? && !a.Reset?
    ensures SessionFits(Apply(w, a))
  {
    DownIsIdle(w);
    hide TurnsInv;
    if a.Boot? { BootKeepsSession(w, a); } else { RunningKeepsSession(w, a); }
  }

  lemma BootKeepsSession(w: World, a: Action)
    requires SessionFits(w) && Enabled(w, a) && a.Boot? && w.drafts == map[] && w.dispatch.Idle?
    requires w.disk.None? ==> w.emitted == []
    ensures SessionFits(Apply(w, a))
  {
    hide Predates;
  }

  lemma RunningKeepsSession(w: World, a: Action)
    requires SessionFits(w) && Enabled(w, a)
    requires !IsStoring(a) && !a.Check? && !a.Record? && !a.Emit? && !a.Reset? && !a.Boot?
    ensures SessionFits(Apply(w, a))
  {
    KeepsStarts(w, a);
    hide Enabled, Apply;
    SameStartsFit(w, Apply(w, a));
  }

  /** What matters about a session is as it was. */
  predicate SameStarts(w: World, w': World) {
    && w'.config == w.config && w'.begun == w.begun && w'.clock >= w.clock && w'.emitted == w.emitted
    && w'.disk == w.disk && (w'.drafts == w.drafts || w'.drafts == map[])
    && (w'.budget.Some? ==> w.budget.Some? && w'.budget.value.sessionStartedAt == w.budget.value.sessionStartedAt)
    && w'.session == w.session && (w'.dispatch == w.dispatch || w'.dispatch.Idle? || w'.dispatch.Called?)
  }

  lemma KeepsStarts(w: World, a: Action)
    requires Enabled(w, a)
    requires !IsStoring(a) && !a.Check? && !a.Record? && !a.Emit? && !a.Reset? && !a.Boot?
    ensures SameStarts(w, Apply(w, a))
  {
    hide Recent, DecisionOf;
  }

  lemma SameStartsFit(w: World, w': World)
    requires SessionFits(w) && SameStarts(w, w')
    ensures SessionFits(w')
  {
    assert forall t: real :: WithinSession(w', t) <==> WithinSession(w, t);
  }

  lemma PromptsKeep(w: World, a: Action)
    requires SessionFits(w) && TurnsInv(w) && Enabled(w, a) && (a.Check? || a.Record? || a.Emit?)
    ensures SessionFits(Apply(w, a))
  {
    DownIsIdle(w);
    hide Recent, Predates, TurnsInv;
  }

  lemma NewSessionFits(w: World, a: Action)
    requires SessionFits(w) && TurnsInv(w) && Enabled(w, a) && a.Reset? && w.clock > 0.0
    ensures SessionFits(Apply(w, a))
  {
    NotOwnAfterReset(w, a);
    hide TurnsInv, IsOwn;
  }

  lemma SessionKeeps(w: World, a: Action)
    requires SessionFits(w) && TurnsInv(w) && Enabled(w, a) && w.clock > 0.0
    ensures SessionFits(Apply(w, a))
  {
    hide SessionFits, TurnsInv, Enabled, Apply;
    match a
    case Check => PromptsKeep(w, a);
    case Record => PromptsKeep(w, a);
    case Emit => PromptsKeep(w, a);
    case Reset(_) => NewSessionFits(w, a);
    case _ =>
      if IsStoring(a) { StartsKeep(w, a); } else { OthersKeepSession(w, a); }
  }

  lemma StepKeeps(w: World, a: Action)
    requires Inv(w) && Enabled(w, a)
    ensures Inv(Apply(w, a))
  {
    hide Apply, Enabled, SerialsFit, UnderWay, EmittedFits, SentInOrder, SessionFits;
    TurnsKeep(w, a);
    RoomKeeps(w, a);
    OrderKeeps(w, a);
    SessionKeeps(w, a);
    ClockStaysPositive(w, a);
  }

  lemma ClockStaysPositive(w: World, a: Action)
    requires Enabled(w, a) && w.clock > 0.0
    ensures Apply(w, a).clock > 0.0
  {
  }

  lemma ConfigIsFixed(w: World, a: Action)
    requires Enabled(w, a)
    ensures Apply(w, a).config == w.config
  {
  }

  lemma {:induction false} RunKeeps(trail: seq<World>, n: nat)
    requires IsRun(trail) && n < |trail|
    ensures Inv(trail[n]) && trail[n].config == trail[0].config
  {
    hide Enabled, Apply;
    if n > 0 {
      hide Inv, Initial;
      RunKeeps(trail, n - 1);
      assert StepAt(trail, n - 1);
      var a :| Enabled(trail[n - 1], a) && trail[n] == Apply(trail[n - 1], a);
      StepKeeps(trail[n - 1], a);
      ConfigIsFixed(trail[n - 1], a);
    }
  }

  // ---- which writes make a restart forget a prompt ----

  /**
   Exactly one kind of step makes what is durable forget a prompt: writing a snapshot that
   was taken before a prompt of the last hour was recorded.
   */
  lemma ForgettingSteps(w: World, a: Action)
    requires Inv(w) && Enabled(w, a) && !Forgets(w)
    ensures Forgets(Apply(w, a)) <==> a.WriteSnapshot? && Predates(w, w.drafts[a.thread].upTo)
  {
    hide TurnsAreKnown, UnderWay, EmittedFits, SentInOrder, SessionFits;
    if a.WriteSnapshot? {
      assert Outgoing(Apply(w, a)) == Outgoing(w);
    } else if a.Store? {
      StoreForgetsNothing(w, a);
    } else if a.Reset? {
      ResetForgetsNothing(w, a);
    } else {
      OthersForgetNothing(w, a);
    }
  }

  lemma StoreForgetsNothing(w: World, a: Action)
    requires Inv(w) && Enabled(w, a) && a.Store?
    ensures !Forgets(Apply(w, a))
  {
    hide UnderWay, EmittedFits, SentInOrder, SessionFits, TurnsAreKnown;
    StoredIsYoung(w);
    var w' := Apply(w, a);
    forall i | 0 <= i < |Outgoing(w')| ensures Outgoing(w')[i].serial < DiskUpTo(w') {
      assert i < |Committed(w)| && Outgoing(w')[i] == Committed(w)[i];
    }
  }

  lemma OthersForgetNothing(w: World, a: Action)
    requires Enabled(w, a) && !Forgets(w) && !a.WriteSnapshot? && !a.Store? && !a.Reset?
    ensures !Forgets(Apply(w, a))
  {
    var w' := Apply(w, a);
    OutgoingShrinks(w, a);
    forall i | 0 <= i < |Outgoing(w')| && IsRecent(w', Outgoing(w')[i])
      ensures Outgoing(w')[i].serial < DiskUpTo(w')
    {
      assert Outgoing(w)[i] == Outgoing(w')[i];
    }
  }

  lemma OutgoingShrinks(w: World, a: Action)
    requires Enabled(w, a) && !Forgets(w) && !a.WriteSnapshot? && !a.Store? && !a.Reset?
    ensures var w' := Apply(w, a);
            && Outgoing(w') <= Outgoing(w) && w'.disk == w.disk && w'.generation == w.generation && w'.clock >= w.clock
  {
    hide DecisionOf, Recent, Restore;
  }

  lemma StoredIsYoung(w: World)
    requires TurnsAreKnown(w)
    ensures w.dispatch.Snapped? && IsOwn(w) ==> w.dispatch.own.upTo > w.dispatch.prompt.serial
  {
  }

  ghost predicate WritesOldAt(trail: seq<World>, k: nat)
    requires k < |trail| - 1
  {
    exists t :: t in trail[k].drafts && trail[k].budget.Some? && trail[k + 1] == Apply(trail[k], WriteSnapshot(t))
                && Predates(trail[k], trail[k].drafts[t].upTo)
  }

  /** A session begins, with the first start of the host or with a reset. */
  ghost predicate BeginsAt(trail: seq<World>, m: nat)
    requires m < |trail|
  {
    m == 0 || exists provider ::
      Enabled(trail[m - 1], Reset(provider)) && trail[m] == Apply(trail[m - 1], Reset(provider))
  }

  /** As long as no such snapshot is written in a session, no restart forgets anything of it. */
  lemma {:induction false} OnlyOldWritesForget(trail: seq<World>, m: nat, n: nat)
    requires IsRun(trail) && m <= n < |trail| && BeginsAt(trail, m)
    requires forall k: nat :: m <= k < n ==> !WritesOldAt(trail, k)
    ensures trail[n].generation == 0 && !Forgets(trail[n])
  {
    hide Inv, Apply, Enabled, Forgets, Predates, WritesOldAt, Initial;
    if n == m {
      NothingToForget(trail, m);
    } else {
      OnlyOldWritesForget(trail, m, n - 1);
      RunKeeps(trail, n - 1);
      assert StepAt(trail, n - 1);
      var a :| Enabled(trail[n - 1], a) && trail[n] == Apply(trail[n - 1], a);
      ForgettingSteps(trail[n - 1], a);
      if Forgets(trail[n]) { OldWriteIsSeen(trail, n - 1, a); }
      OnlyForgettingCounts(trail[n - 1], a);
    }
  }

  lemma NothingToForget(trail: seq<World>, m: nat)
    requires IsRun(trail) && m < |trail| && BeginsAt(trail, m)
    ensures trail[m].generation == 0 && !Forgets(trail[m])
  {
    hide StepAt;
    if m > 0 {
      hide Initial;
      RunKeeps(trail, m - 1);
      var provider :| Enabled(trail[m - 1], Reset(provider)) && trail[m] == Apply(trail[m - 1], Reset(provider));
      ResetForgetsNothing(trail[m - 1], Reset(provider));
    }
  }

  lemma ResetForgetsNothing(w: World, a: Action)
    requires SerialsFit(w) && Enabled(w, a) && a.Reset?
    ensures Apply(w, a).generation == 0 && !Forgets(Apply(w, a))
  {
    NotOwnAfterReset(w, a);
    hide IsOwn;
  }

  lemma OldWriteIsSeen(trail: seq<World>, k: nat, a: Action)
    requires k < |trail| - 1 && Enabled(trail[k], a) && trail[k + 1] == Apply(trail[k], a)
    requires a.WriteSnapshot? && Predates(trail[k], trail[k].drafts[a.thread].upTo)
    ensures WritesOldAt(trail, k)
  {
    hide Predates;
  }

  lemma OnlyForgettingCounts(w: World, a: Action)
    requires Enabled(w, a)
    ensures Apply(w, a).generation == if a.Reset? then 0 else w.generation + if a.Boot? && Forgets(w) then 1 else 0
  {
    hide Forgets;
  }

  // ---- the sliding window ----

  function Dates(ps: seq<Prompt>, byAllowed: bool): seq<real> {
    if byAllowed then AllowedAt(ps) else RecordedAt(ps)
  }

  /** How many prompts of the generations below g are dated within [x, y). */
  function CountBelow(ps: seq<Prompt>, byAllowed: bool, g: nat, x: real, y: real): nat {
    if g == 0 then 0
    else CountBelow(ps, byAllowed, g - 1, x, y) + CountIn(Dates(Of(ps, g - 1), byAllowed), x, y)
  }

  function DateOf(p: Prompt, byAllowed: bool): real {
    if byAllowed then p.allowedAt else p.recordedAt
  }

  predicate Within(t: real, x: real, y: real) {
    x <= t < y
  }

  lemma DatesOneMore(ps: seq<Prompt>, p: Prompt, byAllowed: bool, x: real, y: real)
    ensures CountIn(Dates(ps + [p], byAllowed), x, y) ==
            CountIn(Dates(ps, byAllowed), x, y) + if Within(DateOf(p, byAllowed), x, y) then 1 else 0
  {
    var t := DateOf(p, byAllowed);
    assert Dates(ps + [p], byAllowed) == Dates(ps, byAllowed) + [t];
    CountInOneMore(Dates(ps, byAllowed), t, x, y);
  }

  lemma OneMoreOf(ps: seq<Prompt>, p: Prompt, byAllowed: bool, g: nat, x: real, y: real)
    ensures CountIn(Dates(Of(ps + [p], g), byAllowed), x, y) ==
            CountIn(Dates(Of(ps, g), byAllowed), x, y)
            + if p.generation == g && Within(DateOf(p, byAllowed), x, y) then 1 else 0
  {
    hide CountIn, Dates, Of, Within, DateOf;
    OneMore(ps, p, g, 0);
    DatesOneMore(Of(ps, g), p, byAllowed, x, y);
  }

  lemma {:induction false} BelowOneMore(ps: seq<Prompt>, p: Prompt, byAllowed: bool, g: nat, x: real, y: real)
    ensures CountBelow(ps + [p], byAllowed, g, x, y) ==
            CountBelow(ps, byAllowed, g, x, y) + if p.generation < g && Within(DateOf(p, byAllowed), x, y) then 1 else 0
  {
    hide CountIn, Dates, Of, Within, DateOf;
    if g > 0 {
      BelowOneMore(ps, p, byAllowed, g - 1, x, y);
      OneMoreOf(ps, p, byAllowed, g - 1, x, y);
    }
  }

  lemma {:induction false} NoneBelow(byAllowed: bool, g: nat, x: real, y: real)
    ensures CountBelow([], byAllowed, g, x, y) == 0
  {
    if g > 0 { NoneBelow(byAllowed, g - 1, x, y); }
  }

  /** Every prompt is of some generation. */
  lemma {:induction false} GenerationsAddUp(ps: seq<Prompt>, byAllowed: bool, g: nat, x: real, y: real)
    requires forall i :: 0 <= i < |ps| ==> ps[i].generation < g
    ensures CountIn(Dates(ps, byAllowed), x, y) == CountBelow(ps, byAllowed, g, x, y)
  {
    if ps == [] {
      NoneBelow(byAllowed, g, x, y);
    } else {
      var init, p := ps[..|ps| - 1], ps[|ps| - 1];
      assert forall i :: 0 <= i < |init| ==> init[i] == ps[i];
      GenerationsAddUp(init, byAllowed, g, x, y);
      assert init + [p] == ps;
      BelowOneMore(init, p, byAllowed, g, x, y);
      DatesOneMore(init, p, byAllowed, x, y);
    }
  }

  lemma {:induction false} BelowIsBounded(w: World, byAllowed: bool, g: nat, x: real)
    requires EmittedFits(w) && Cap(w.config) >= 0
    ensures CountBelow(w.emitted, byAllowed, g, x, x + HOUR) <= g * Cap(w.config)
  {
    hide Of;
    if g > 0 {
      BelowIsBounded(w, byAllowed, g - 1, x);
      assert GenerationFits(w, g - 1);
      var mine := Dates(Of(w.emitted, g - 1), byAllowed);
      assert InHourFrom(mine, x) <= Cap(w.config);
      assert g * Cap(w.config) == (g - 1) * Cap(w.config) + Cap(w.config);
    }
  }

  lemma EmittedMeansRoom(w: World)
    requires Inv(w) && w.emitted != []
    ensures Cap(w.config) > 0
  {
    hide HourlyBounded, Knows, CountAfter;
    var last := w.emitted[|w.emitted| - 1];
    var mine := Of(w.emitted, last.generation);
    assert GenerationFits(w, last.generation) && mine != [];
    CapIsPositive(RecordedAt(mine), Cap(w.config));
  }

  lemma AllGenerations(w: World, byAllowed: bool)
    requires Inv(w) && w.emitted != []
    ensures HourlyBounded(Dates(w.emitted, byAllowed), (w.generation + 1) * Cap(w.config))
  {
    hide Knows, CountAfter, HasRoom, GenerationFits;
    EmittedMeansRoom(w);
    forall x ensures InHourFrom(Dates(w.emitted, byAllowed), x) <= (w.generation + 1) * Cap(w.config) {
      assert forall i :: 0 <= i < |w.emitted| ==> w.emitted[i] == Committed(w)[i];
      GenerationsAddUp(w.emitted, byAllowed, w.generation + 1, x, x + HOUR);
      BelowIsBounded(w, byAllowed, w.generation + 1, x);
    }
  }

  /** Prompts go out one at a time, so at most one that goes out in a window was recorded before it. */
  lemma {:induction false} OneMayStall(ps: seq<Prompt>, ts: seq<real>, x: real, y: real)
    requires |ts| == |ps| && forall i :: 0 <= i < |ps| ==> ps[i].allowedAt <= ps[i].recordedAt <= ts[i]
    requires forall i, j :: 0 <= i < j < |ps| ==> ts[i] <= ps[j].allowedAt
    ensures CountIn(ts, x, y) <= CountIn(RecordedAt(ps), x, y) + 1
    ensures ps != [] && ts[|ts| - 1] < x ==> CountIn(ts, x, y) == 0
  {
    if ps != [] {
      var init, p := ps[..|ps| - 1], ps[|ps| - 1];
      OneMayStall(init, ts[..|ts| - 1], x, y);
      assert init + [p] == ps;
      DatesOneMore(init, p, false, x, y);
    }
  }

  /**
   The sliding window across crashes, in every session, whatever was stored, pending and under
   way when the reset began it.  Between two restarts that forget a prompt, no half-open hour
   contains more prompts than the smaller of the two turn limits, dated by the instant they
   were allowed or recorded.  Over the whole session each such restart allows that many more;
   since a send may stall once its prompt is durable, at most one more goes out within an hour
   than was recorded in it; and at most one goes out that was recorded before the reset.
   */
  lemma NoHourHoldsMoreThanTheCap(trail: seq<World>, n: nat, generation: nat, x: real)
    requires IsRun(trail) && n < |trail|
    ensures trail[n].leftovers <= 1
    ensures var w := trail[n];
            w.emitted != [] ==>
              && InHourFrom(RecordedAt(Of(w.emitted, generation)), x) <= Cap(w.config)
              && InHourFrom(AllowedAt(Of(w.emitted, generation)), x) <= Cap(w.config)
              && InHourFrom(RecordedAt(w.emitted), x) <= (w.generation + 1) * Cap(w.config)
              && InHourFrom(AllowedAt(w.emitted), x) <= (w.generation + 1) * Cap(w.config)
              && InHourFrom(w.sentAt, x) <= (w.generation + 1) * Cap(w.config) + 1
  {
    hide IsRun, Of, Inv, CountIn, Cap;
    RunKeeps(trail, n);
    var w := trail[n];
    OneLeftover(w);
    if w.emitted != [] {
      OneGeneration(w, generation, x);
      AllGenerations(w, false);
      AllGenerations(w, true);
      StallsOnce(w, x);
    }
  }

  lemma OneLeftover(w: World)
    requires Inv(w)
    ensures w.leftovers <= 1
  {
  }

  lemma OneGeneration(w: World, generation: nat, x: real)
    requires Inv(w) && w.emitted != []
    ensures InHourFrom(RecordedAt(Of(w.emitted, generation)), x) <= Cap(w.config)
    ensures InHourFrom(AllowedAt(Of(w.emitted, generation)), x) <= Cap(w.config)
  {
    EmittedMeansRoom(w);
    hide Of, CountAfter, Cap, TurnsAreKnown, SerialsFit, SessionFits, SentInOrder, UnderWay;
    assert GenerationFits(w, generation);
  }

  lemma StallsOnce(w: World, x: real)
    requires Inv(w)
    ensures InHourFrom(w.sentAt, x) <= InHourFrom(RecordedAt(w.emitted), x) + 1
  {
    hide CountIn, TurnsAreKnown, SerialsFit, SessionFits, UnderWay;
    OneMayStall(w.emitted, w.sentAt, x, x + HOUR);
  }

  lemma {:induction false} HoursAddUp(ts: seq<real>, start: real, hours: nat, n: int)
    requires HourlyBounded(ts, n) && n >= 0
    ensures CountIn(ts, start, start + hours as real * HOUR) <= hours * n
  {
    if hours == 0 {
      EmptyWindow(ts, start);
    } else {
      HoursAddUp(ts, start, hours - 1, n);
      var split := start + (hours - 1) as real * HOUR;
      assert start + hours as real * HOUR == split + HOUR;
      WindowsJoin(ts, start, split, split + HOUR);
      assert InHourFrom(ts, split) <= n;
      assert hours * n == (hours - 1) * n + n;
    }
  }

  lemma {:induction false} EmptyWindow(ts: seq<real>, x: real)
    ensures CountIn(ts, x, x) == 0
  {
    if ts != [] { EmptyWindow(ts[..|ts| - 1], x); }
  }

  lemma {:induction false} WindowsJoin(ts: seq<real>, x: real, y: real, z: real)
    requires x <= y <= z
    ensures CountIn(ts, x, z) == CountIn(ts, x, y) + CountIn(ts, y, z)
  {
    if ts != [] { WindowsJoin(ts[..|ts| - 1], x, y, z); }
  }

  lemma {:induction false} AllWithin(ts: seq<real>, x: real, y: real)
    requires forall i :: 0 <= i < |ts| ==> x <= ts[i] < y
    ensures CountIn(ts, x, y) == |ts|
  {
    if ts != [] { AllWithin(ts[..|ts| - 1], x, y); }
  }

  /**
   The session total: for any number of hours that covers the configured runtime, a session
   emits at most that many times the cap, once for each restart that forgot a prompt and once
   more.
   */
  lemma SessionTotalIsBounded(trail: seq<World>, n: nat, hours: nat)
    requires IsRun(trail) && n < |trail|
    requires hours as real * 60.0 >= MaxRuntimeMinutes(trail[n].config)
    ensures var w := trail[n]; w.emitted != [] ==> |w.emitted| <= hours * ((w.generation + 1) * Cap(w.config))
  {
    hide IsRun, HourlyBounded, Of, Knows, HasRoom, CountAfter;
    RunKeeps(trail, n);
    var w := trail[n];
    if w.emitted != [] {
      var start := w.begun;
      var ts := AllowedAt(w.emitted);
      forall i | 0 <= i < |ts| ensures start <= ts[i] < start + hours as real * HOUR {
        assert w.emitted[i] in w.emitted;
        assert ts[i] - start < MaxRuntimeMinutes(w.config) * 60.0;
      }
      AllGenerations(w, true);
      CapIsPositive(ts, (w.generation + 1) * Cap(w.config));
      HoursAddUp(ts, start, hours, (w.generation + 1) * Cap(w.config));
      AllWithin(ts, start, start + hours as real * HOUR);
    }
  }

  lemma CapIsPositive(ts: seq<real>, n: int)
    requires HourlyBounded(ts, n) && ts != []
    ensures n > 0
  {
    var x := ts[|ts| - 1];
    assert InHourFrom(ts, x) <= n;
  }

  // ---- where the limits fail ----

  lemma LongerRun(trail: seq<World>, a: Action) returns (longer: seq<World>)
    requires IsRun(trail) && Enabled(trail[|trail| - 1], a)
    ensures IsRun(longer) && longer == trail + [Apply(trail[|trail| - 1], a)]
  {
    hide Initial, Enabled, Apply;
    longer := trail + [Apply(trail[|trail| - 1], a)];
    forall i | 0 <= i < |longer| - 1 ensures StepAt(longer, i) {
      if i < |trail| - 1 {
        assert StepAt(trail, i);
        var b :| Enabled(trail[i], b) && trail[i + 1] == Apply(trail[i], b);
        assert Enabled(longer[i], b) && longer[i + 1] == Apply(longer[i], b);
      } else {
        assert Enabled(longer[i], a) && longer[i + 1] == Apply(longer[i], a);
      }
    }
  }

  /** The budget allows a prompt now, and has no turn to drop or to wait for. */
  predicate IsClear(w: World) {
    && w.budget.Some? && w.dispatch.Idle?
    && DecisionOf(w.budget.value, w.clock, w.config) == Decision(true, false, NoReason, Some(0.0))
    && Recent(w.budget.value.turnTimestamps, w.clock) == []
  }

  function Turned(s: State, now: real): State {
    s.(turnTimestamps := [now], lastTurnAt := now)
  }

  /** From a request that need not wait to the recorded prompt. */
  lemma OneRecord(trail: seq<World>) returns (longer: seq<World>)
    requires IsRun(trail) && IsClear(trail[|trail| - 1])
    ensures IsRun(longer) && longer[0] == trail[0]
    ensures var w, w' := trail[|trail| - 1], longer[|longer| - 1];
            w' == w.(budget := Some(Turned(w.budget.value, w.clock)), recorded := w.recorded + 1,
                     dispatch := Recorded(Prompt(w.recorded, w.session, w.generation, w.clock, w.clock)),
                     timer := None, loose := w'.loose)
  {
    hide StepAt, Initial;
    longer := LongerRun(trail, Request);
    longer := LongerRun(longer, Enter);
    assert longer[|longer| - 1].budget.value.turnTimestamps == [];
    assert Recent([], trail[|trail| - 1].clock) == [];
    longer := LongerRun(longer, Check);
    assert longer[|longer| - 1].budget.value.turnTimestamps + [trail[|trail| - 1].clock] == [trail[|trail| - 1].clock];
    longer := LongerRun(longer, Record);
  }

  /** And on to the prompt it sends. */
  lemma OnePrompt(trail: seq<World>) returns (longer: seq<World>)
    requires IsRun(trail) && IsClear(trail[|trail| - 1])
    ensures IsRun(longer) && longer[0] == trail[0]
    ensures var w, w' := trail[|trail| - 1], longer[|longer| - 1];
            w' == w.(budget := Some(Turned(w.budget.value, w.clock)), recorded := w.recorded + 1,
                     emitted := w.emitted + [Prompt(w.recorded, w.session, w.generation, w.clock, w.clock)],
                     sentAt := w.sentAt + [w.clock], disk := w'.disk, timer := None, loose := w'.loose)
  {
    hide StepAt, Initial;
    longer := OneRecord(trail);
    longer := StoreAndEmit(longer);
  }

  lemma StoreAndEmit(trail: seq<World>) returns (longer: seq<World>)
    requires IsRun(trail) && trail[|trail| - 1].budget.Some? && trail[|trail| - 1].dispatch.Recorded? && IsOwn(trail[|trail| - 1])
    ensures IsRun(longer) && longer[0] == trail[0]
    ensures var w := trail[|trail| - 1];
            longer[|longer| - 1] ==
            w.(disk := Some(Taken(w)), dispatch := Idle, emitted := w.emitted + [w.dispatch.prompt],
               sentAt := w.sentAt + [w.clock])
  {
    hide StepAt, Initial;
    longer := LongerRun(trail, Snap);
    longer := LongerRun(longer, Store);
    longer := LongerRun(longer, Emit);
  }

  const START: real := 1.0

  /** With a longer runtime: a session that sends two prompts although its limit is one. */
  lemma TwoPromptsDespiteALimitOfOne(minutes: real) returns (trail: seq<World>)
    requires minutes > 60.0
    ensures IsRun(trail) && trail[0].config == Config(1, 1, minutes, 8.0)
    ensures var w := trail[|trail| - 1]; w.config == trail[0].config && |w.emitted| == 2 && w.generation == 0
  {
    trail := OnePrompt([Fresh(Config(1, 1, minutes, 8.0), START)]);
    var later := START + HOUR;
    OldTurnsAreDropped([START], later);
    trail := LongerRun(trail, Tick(later));
    trail := OnePrompt(trail);
  }

  /** A worker holds a snapshot from before the first prompt, writes it after, and the host crashes. */
  lemma OldSnapshotIsWritten(config: Config) returns (trail: seq<World>)
    requires DecisionOf(FreshState("chatgpt", START), START, config) == Decision(true, false, NoReason, Some(0.0))
    ensures IsRun(trail) && trail[0].config == config
    ensures var w := trail[|trail| - 1];
            && w.budget.None? && w.dispatch.Idle? && w.clock == START && w.config == config
            && w.disk == Some(Snapshot(Export(FreshState("chatgpt", START)), 0))
            && w.emitted == [Prompt(0, 0, 0, START, START)] && w.sentAt == [START] && w.generation == 0 && w.recorded == 1
            && w.session == 0
  {
    hide StepAt, Initial, DecisionOf;
    trail := OnePromptAfterSnapshot(config);
    trail := LongerRun(trail, WriteSnapshot(7));
    trail := LongerRun(trail, Crash);
  }

  lemma OnePromptAfterSnapshot(config: Config) returns (trail: seq<World>)
    requires DecisionOf(FreshState("chatgpt", START), START, config) == Decision(true, false, NoReason, Some(0.0))
    ensures IsRun(trail) && trail[0].config == config
    ensures var w := trail[|trail| - 1];
            && w.budget.Some? && w.dispatch.Idle? && w.clock == START && w.config == config && w.session == 0
            && w.drafts == map[7 := Snapshot(Export(FreshState("chatgpt", START)), 0)]
            && w.emitted == [Prompt(0, 0, 0, START, START)] && w.sentAt == [START] && w.generation == 0 && w.recorded == 1
  {
    hide StepAt, Initial, DecisionOf;
    var w0 := Fresh(config, START);
    assert IsRun([w0]) by { FreshIsInitial(config); }
    trail := LongerRun([w0], TakeSnapshot(7));
    trail := OnePrompt(trail);
  }

  lemma FreshIsInitial(config: Config)
    ensures Initial(Fresh(config, START))
  {
  }

  /**
   The hourly limit is not a limit on every session: with both limits at one, and whatever
   the runtime, two prompts go out at the same instant.
   */
  lemma TwoPromptsAtOnce(minutes: real) returns (trail: seq<World>)
    requires minutes > 0.0
    ensures IsRun(trail) && trail[0].config == Config(1, 1, minutes, 8.0)
    ensures var w := trail[|trail| - 1];
            && w.config == trail[0].config && Cap(w.config) == 1 && w.sentAt == [START, START] && w.generation == 1
            && RecordedAt(w.emitted) == [START, START] && InHourFrom(RecordedAt(w.emitted), START) == 2
  {
    hide StepAt, Initial;
    var config := Config(1, 1, minutes, 8.0);
    trail := OldSnapshotIsWritten(config);
    assert Outgoing(trail[|trail| - 1])[0].serial >= 0;
    assert Forgets(trail[|trail| - 1]);
    trail := LongerRun(trail, Boot);
    trail := OnePrompt(trail);
    TwiceAtOnce(trail[|trail| - 1].emitted);
  }

  lemma TwiceAtOnce(ps: seq<Prompt>)
    requires ps == [Prompt(0, 0, 0, START, START), Prompt(1, 0, 1, START, START)]
    ensures RecordedAt(ps) == [START, START] && InHourFrom(RecordedAt(ps), START) == 2
  {
    assert RecordedAt(ps) == [START, START];
    assert [START, START] == [START] + [START];
    CountInOneMore([START], START, START, START + HOUR);
    assert [START][..0] == [];
  }

  /** The one that stalls may make a difference: with a limit of one, two go out at the same instant. */
  lemma TwoSendsAtOnce() returns (trail: seq<World>)
    ensures IsRun(trail)
    ensures var w := trail[|trail| - 1];
            && Cap(w.config) == 1 && w.generation == 0
            && w.sentAt == [START + HOUR, START + HOUR] && RecordedAt(w.emitted) == [START, START + HOUR]
  {
    hide StepAt, Initial;
    var w0 := Fresh(Config(1, 1, 90.0, 8.0), START);
    assert IsRun([w0]) by { FreshIsInitial(w0.config); }
    trail := Stalled([w0]);
    OldTurnsAreDropped([START], START + HOUR);
    trail := OnePrompt(trail);
    assert RecordedAt(trail[|trail| - 1].emitted) == [START, START + HOUR];
  }

  /** A prompt recorded before a reset goes out after it, and the new session sends its full limit as well. */
  lemma PromptAcrossReset() returns (trail: seq<World>)
    ensures IsRun(trail)
    ensures var w := trail[|trail| - 1];
            && Cap(w.config) == 1 && w.session == 1 && w.generation == 0 && w.clock == w.begun == START
            && w.leftovers == 1 && w.sentAt == [START]
  {
    hide StepAt, Initial;
    var config := Config(1, 1, 90.0, 8.0);
    assert IsRun([Fresh(config, START)]) by { FreshIsInitial(config); }
    trail := OneRecord([Fresh(config, START)]);
    trail := LongerRun(trail, Reset("chatgpt"));
    trail := LeftoverGoesOut(trail);
    trail := OnePrompt(trail);
  }

  lemma LeftoverGoesOut(trail: seq<World>) returns (longer: seq<World>)
    requires IsRun(trail)
    requires var w := trail[|trail| - 1]; w.budget.Some? && w.dispatch.Recorded? && !IsOwn(w)
    ensures IsRun(longer)
    ensures var w := trail[|trail| - 1];
            longer[|longer| - 1] == w.(disk := Some(Taken(w)), dispatch := Idle, leftovers := w.leftovers + 1)
  {
    hide StepAt, Initial;
    longer := LongerRun(trail, Snap);
    longer := LongerRun(longer, Store);
    longer := LongerRun(longer, Emit);
  }

  lemma Stalled(trail: seq<World>) returns (longer: seq<World>)
    requires IsRun(trail) && trail[|trail| - 1] == Fresh(Config(1, 1, 90.0, 8.0), START)
    ensures IsRun(longer)
    ensures var w := longer[|longer| - 1];
            && w.config == Config(1, 1, 90.0, 8.0) && w.dispatch.Idle? && w.clock == START + HOUR && w.generation == 0
            && w.budget == Some(FreshState("chatgpt", START).(turnTimestamps := [START], lastTurnAt := START))
            && w.sentAt == [START + HOUR] && w.emitted == [Prompt(0, 0, 0, START, START)] && w.recorded == 1
            && w.session == 0 && w.begun == START
  {
    hide StepAt, Initial;
    longer := OneRecord(trail);
    longer := LongerRun(longer, Tick(START + HOUR));
    longer := StoreAndEmit(longer);
  }

  /**
   Exactly when the session limit limits the session.  For a configured runtime of so many
   minutes, no session in which no restart forgets a prompt exceeds its session limit, under
   any limits, if and only if the runtime is at most the hour after which turns are forgotten.
   */
  lemma SessionLimitHoldsIffRuntimeIsAnHour(minutes: real)
    requires minutes != 0.0
    ensures (forall trail: seq<World> ::
               IsRun(trail) && MaxRuntimeMinutes(trail[0].config) == minutes
               && trail[|trail| - 1].emitted != [] && trail[|trail| - 1].generation == 0 ==>
                 |trail[|trail| - 1].emitted| <= MaxSession(trail[0].config))
            <==> minutes <= 60.0
  {
    hide StepAt, Initial, Inv;
    if minutes <= 60.0 {
      forall trail: seq<World> |
        IsRun(trail) && MaxRuntimeMinutes(trail[0].config) == minutes
        && trail[|trail| - 1].emitted != [] && trail[|trail| - 1].generation == 0
        ensures |trail[|trail| - 1].emitted| <= MaxSession(trail[0].config)
      {
        RunKeeps(trail, |trail| - 1);
        SessionTotalIsBounded(trail, |trail| - 1, 1);
      }
    } else {
      var trail := TwoPromptsDespiteALimitOfOne(minutes);
      assert |trail[|trail| - 1].emitted| == 2;
    }
  }
}
