/**
 The operations on a roadmap when several threads carry them out: a course change that is
 approved does not take the lock that a response holds.  Each operation reads the file first
 and writes it some time later.
 */
module ProjectRaces {
  import opened Wrappers
  import opened ProjectState

  type ThreadId = nat

  /** readings are the states that operations under way have read. */
  datatype World = World(file: Option<State>, readings: map<ThreadId, Option<State>>)

  datatype Action =
    | Read(thread: ThreadId)
    | Write(thread: ThreadId, op: Op)   // a refused operation writes nothing
    | Crash

  const START := World(None, map[])

  predicate Enabled(w: World, a: Action) {
    match a
    case Read(_) => true
    case Write(t, _) => t in w.readings
    case Crash => true
  }

  function Apply(w: World, a: Action): World
    requires Enabled(w, a)
  {
    match a
    case Read(t) => w.(readings := w.readings[t := w.file])
    case Write(t, op) =>
      var r := Outcome(w.readings[t], op);
      w.(file := if r.Success? && Some(r.value) != w.readings[t] then Some(r.value) else w.file,
         readings := w.readings - {t})
    case Crash => w.(readings := map[])
  }

  /** Where the steps lead, if all of them are possible. */
  function RunOf(actions: seq<Action>): Option<World> {
    if actions == [] then Some(START)
    else
      var before, a := RunOf(actions[..|actions| - 1]), actions[|actions| - 1];
      if before.Some? && Enabled(before.value, a) then Some(Apply(before.value, a)) else None
  }

  ghost predicate AllSound(w: World) {
    && (w.file.Some? ==> Sound(w.file.value))
    && (forall t :: t in w.readings && w.readings[t].Some? ==> Sound(w.readings[t].value))
    && (w.file.None? ==> forall t :: t in w.readings ==> w.readings[t].None?)
  }

  lemma StepKeepsSound(w: World, a: Action)
    requires AllSound(w) && Enabled(w, a)
    ensures AllSound(Apply(w, a))
    ensures w.file.Some? ==> Apply(w, a).file.Some?
  {
    hide Sound, Outcome;
    if a.Write? { OpKeepsSound(w.readings[a.thread], a.op); AfterIsOutcome(w.readings[a.thread], a.op); }
  }

  lemma AfterIsOutcome(file: Option<State>, op: Op)
    ensures Outcome(file, op).Success? ==> After(file, op) == Some(Outcome(file, op).value)
  {
  }

  /** Races never make the roadmap unsound: in every interleaving each state is one that some run could have. */
  lemma {:induction false} EveryInterleavingIsSound(actions: seq<Action>)
    requires RunOf(actions).Some?
    ensures AllSound(RunOf(actions).value)
    ensures RunOf(actions).value.file.Some? ==> Sound(RunOf(actions).value.file.value)
  {
    if actions != [] {
      hide Sound;
      EveryInterleavingIsSound(actions[..|actions| - 1]);
      StepKeepsSound(RunOf(actions[..|actions| - 1]).value, actions[|actions| - 1]);
    }
  }

  /** The operation is accepted and changes what it has read. */
  predicate Writes(file: Option<State>, op: Op) {
    Outcome(file, op).Success? && Some(Outcome(file, op).value) != file
  }

  /**
   An operation does to the file what it does in a sequential run if its reading is still
   current.  The revision counts the write exactly if the reading is of the same revision.
   */
  lemma CurrentReadingIsEnough(w: World, t: ThreadId, op: Op)
    requires AllSound(w) && Enabled(w, Write(t, op))
    ensures w.readings[t] == w.file ==> Apply(w, Write(t, op)).file == After(w.file, op)
    ensures !Writes(w.readings[t], op) ==> Apply(w, Write(t, op)).file == w.file
    ensures Writes(w.readings[t], op) && w.readings[t].Some? && w.file.Some? ==>
              (Apply(w, Write(t, op)).file.value.revision == w.file.value.revision + 1 <==>
                 w.readings[t].value.revision == w.file.value.revision)
  {
  }

  // ---- an update that is lost ----

  lemma OneStepMore(actions: seq<Action>, a: Action)
    requires RunOf(actions).Some? && Enabled(RunOf(actions).value, a)
    ensures RunOf(actions + [a]) == Some(Apply(RunOf(actions).value, a))
  {
    assert (actions + [a])[..|actions|] == actions;
  }

  lemma NothingToStrip(s: string)
    requires |s| == 1 && !IsSpace(s[0])
    ensures Strip(s) == s
  {
  }

  lemma PositionWithoutStages(phase: Phase)
    requires |phase.id| == 1 && !IsSpace(phase.id[0]) && phase.stages == []
    ensures PositionsOfPhase(phase) == [Position(phase.id, "")]
  {
    NothingToStrip(phase.id);
    hide Strip;
  }

  lemma TwoPositions(a: Phase, b: Phase)
    requires |a.id| == 1 && !IsSpace(a.id[0]) && a.stages == []
    requires |b.id| == 1 && !IsSpace(b.id[0]) && b.stages == []
    ensures Positions([a, b]) == [Position(a.id, ""), Position(b.id, "")]
  {
    PositionWithoutStages(a);
    PositionWithoutStages(b);
    hide PositionsOfPhase;
    assert [b][1..] == [] && Positions([]) == [];
    assert Positions([b]) == [Position(b.id, "")];
    assert [a, b][1..] == [b];
  }

  /**
   A course change reads the roadmap, a response advances it, the course change writes: the
   project is back at the first position, and the revision tells of one write instead of two.
   */
  lemma AdvanceIsLost(a: Phase, b: Phase) returns (actions: seq<Action>)
    requires |a.id| == 1 && !IsSpace(a.id[0]) && a.stages == []
    requires |b.id| == 1 && !IsSpace(b.id[0]) && b.stages == [] && b.id != a.id
    ensures RunOf(actions).Some?
    ensures RunOf(actions).value.file == Some(State(2, Active, [a, b], Some(Position(a.id, "")), []))
  {
    hide Positions, Outcome, RunOf, IsSpace;
    var first := State(1, Active, [a, b], Some(Position(a.id, "")), []);
    TwoPositions(a, b);
    Begins(first, a, b);
    Advances(first, a, b);
    Changes(first, a, b);
    actions := ReadTwice(first, Initialize([a, b], Position("", "")));
    OneStepMore(actions, Write(1, Advance(Position(b.id, ""))));
    actions := actions + [Write(1, Advance(Position(b.id, "")))];
    OneStepMore(actions, Write(2, ChangeCourse([], Position("", ""))));
    actions := actions + [Write(2, ChangeCourse([], Position("", "")))];
  }

  /** Two threads have read the first roadmap. */
  lemma ReadTwice(first: State, op: Op) returns (actions: seq<Action>)
    requires Outcome(None, op) == Success(first)
    ensures RunOf(actions) == Some(World(Some(first), map[1 := Some(first), 2 := Some(first)]))
  {
    NothingHappened();
    hide Outcome, RunOf;
    OneStepMore([], Read(0));
    actions := [] + [Read(0)];
    OneStepMore(actions, Write(0, op));
    actions := actions + [Write(0, op)];
    OneStepMore(actions, Read(1));
    actions := actions + [Read(1)];
    OneStepMore(actions, Read(2));
    actions := actions + [Read(2)];
  }

  lemma NothingHappened()
    ensures RunOf([]) == Some(START)
  {
  }

  lemma Begins(s: State, a: Phase, b: Phase)
    requires Positions([a, b]) == [Position(a.id, ""), Position(b.id, "")]
    requires s == State(1, Active, [a, b], Some(Position(a.id, "")), [])
    ensures Outcome(None, Initialize([a, b], Position("", ""))) == Success(s)
  {
    hide Positions;
  }

  lemma Changes(s: State, a: Phase, b: Phase)
    requires Positions([a, b]) == [Position(a.id, ""), Position(b.id, "")] && a.id != ""
    requires s == State(1, Active, [a, b], Some(Position(a.id, "")), [])
    ensures Outcome(Some(s), ChangeCourse([], Position("", ""))) == Success(s.(revision := 2))
  {
    hide Positions;
    assert CompletedPairs([]) == [] && Those([], Positions([a, b])) == [];
  }

  lemma Advances(s: State, a: Phase, b: Phase)
    requires Positions([a, b]) == [Position(a.id, ""), Position(b.id, "")] && b.id != a.id
    requires s == State(1, Active, [a, b], Some(Position(a.id, "")), [])
    ensures Outcome(Some(s), Advance(Position(b.id, ""))).Success?
    ensures Outcome(Some(s), Advance(Position(b.id, ""))).value.revision == 2
  {
    hide Positions;
    assert IndexOf(Positions([a, b]), Position(a.id, "")) == 0;
  }
}
