/**
 The roadmap of a project: where it stands, what is done, and the only ways it moves.
 */
module ProjectState {
  import opened Wrappers

  datatype Position = Position(phase: string, stage: string)

  datatype Phase = Phase(id: string, title: string, stages: seq<string>)

  datatype Status = Active | Complete

  datatype State = State(
    revision: nat,
    status: Status,
    roadmap: seq<Phase>,
    current: Option<Position>,
    completed: seq<Position>)

  datatype Error =
    | NoPositions
    | NotInitialized
    | InvalidCurrent
    | NotTheNextPosition

  // ---- positions ----

  predicate IsSpace(c: char) {
    c in {' ', '\t', '\n', '\r', '\U{000B}', '\U{000C}'}
  }

  function StripLeft(s: string): (r: string)
    ensures r == "" || !IsSpace(r[0])
    ensures |r| <= |s| && s[|s| - |r|..] == r
  {
    if s != "" && IsSpace(s[0]) then StripLeft(s[1..]) else s
  }

  function StripRight(s: string): (r: string)
    ensures r == "" || !IsSpace(r[|r| - 1])
    ensures |r| <= |s| && s[..|r|] == r
  {
    if s != "" && IsSpace(s[|s| - 1]) then StripRight(s[..|s| - 1]) else s
  }

  function Strip(s: string): (r: string)
    ensures |r| <= |s|
  {
    StripRight(StripLeft(s))
  }

  function StagesOf(stages: seq<string>): seq<string> {
    if stages == [] then []
    else
      var first := Strip(stages[0]);
      if first == "" then StagesOf(stages[1..]) else [first] + StagesOf(stages[1..])
  }

  function PositionsOfPhase(phase: Phase): seq<Position> {
    var id, stages := Strip(phase.id), StagesOf(phase.stages);
    if id == "" then []
    else if stages == [] then [Position(id, "")]
    else seq(|stages|, i requires 0 <= i < |stages| => Position(id, stages[i]))
  }

  function Positions(roadmap: seq<Phase>): seq<Position> {
    if roadmap == [] then [] else PositionsOfPhase(roadmap[0]) + Positions(roadmap[1..])
  }

  function IndexOf(ps: seq<Position>, p: Position): (i: nat)
    requires p in ps
    ensures i < |ps| && ps[i] == p && p !in ps[..i]
  {
    if ps[0] == p then 0
    else
      var i := 1 + IndexOf(ps[1..], p);
      assert ps[..i] == [ps[0]] + ps[1..][..i - 1];
      i
  }

  /** The completed positions without repetitions, in the order they were first completed. */
  function CompletedPairs(completed: seq<Position>): (r: seq<Position>)
    ensures forall p :: p in r ==> p in completed
    ensures IsDistinct(r)
  {
    if completed == [] then []
    else
      var rest := CompletedPairs(completed[..|completed| - 1]);
      var last := completed[|completed| - 1];
      if last.phase != "" && last !in rest then rest + [last] else rest
  }

  predicate IsDistinct(ps: seq<Position>) {
    forall i, j :: 0 <= i < j < |ps| ==> ps[i] != ps[j]
  }

  function NextOf(positions: seq<Position>, current: Position): Option<Position> {
    if current !in positions then None
    else
      var i := IndexOf(positions, current);
      if i + 1 < |positions| then Some(positions[i + 1]) else None
  }

  function With(completed: seq<Position>, p: Position): (r: seq<Position>)
    ensures IsDistinct(completed) ==> IsDistinct(r)
    ensures forall q :: q in r <==> q in completed || q == p
  {
    if p in completed then completed else completed + [p]
  }

  function Those(ps: seq<Position>, keep: seq<Position>): (r: seq<Position>)
    ensures forall p :: p in r <==> p in ps && p in keep
    ensures IsDistinct(ps) ==> IsDistinct(r)
  {
    if ps == [] then []
    else
      var rest := Those(ps[..|ps| - 1], keep);
      var last := ps[|ps| - 1];
      assert forall p :: p in ps <==> p in ps[..|ps| - 1] || p == last;
      if last in keep then rest + [last] else rest
  }

  function FirstNotIn(ps: seq<Position>, done: seq<Position>, otherwise: Position): (p: Position)
    ensures p in ps || p == otherwise
    ensures (exists q :: q in ps && q !in done) ==> p in ps && p !in done
  {
    if ps == [] then otherwise
    else if ps[0] !in done then ps[0]
    else FirstNotIn(ps[1..], done, otherwise)
  }

  // ---- the four operations, as functions on the state that is on disk ----

  function Initialized(roadmap: seq<Phase>, preferred: Position): Result<State, Error> {
    var positions := Positions(roadmap);
    if positions == [] then Failure(NoPositions)
    else
      var current := if preferred.phase != "" && preferred in positions then preferred else positions[0];
      Success(State(1, Active, roadmap, Some(current), []))
  }

  /** The state after an advance; asking for the current position again changes nothing. */
  function Advanced(s: State, target: Position): Result<State, Error> {
    var positions := Positions(s.roadmap);
    if s.current.None? || s.current.value !in positions then Failure(InvalidCurrent)
    else if target == s.current.value then Success(s)
    else if NextOf(positions, s.current.value) != Some(target) then Failure(NotTheNextPosition)
    else
      Success(s.(completed := With(CompletedPairs(s.completed), s.current.value),
                 current := Some(target), status := Active, revision := s.revision + 1))
  }

  function Completed(s: State): State {
    var completed := CompletedPairs(s.completed);
    s.(completed := if s.current.Some? then With(completed, s.current.value) else completed,
       current := None, status := Complete, revision := s.revision + 1)
  }

  function CourseChanged(s: State, replacement: seq<Phase>, proposed: Position): Result<State, Error> {
    var roadmap := if replacement == [] then s.roadmap else replacement;
    var positions := Positions(roadmap);
    if positions == [] then Failure(NoPositions)
    else
      var completed := Those(CompletedPairs(s.completed), positions);
      var current :=
        if proposed.phase != "" && proposed in positions then proposed
        else if s.current.Some? && s.current.value in positions && s.current.value !in completed then s.current.value
        else FirstNotIn(positions, completed, positions[0]);
      Success(s.(roadmap := roadmap, completed := completed, current := Some(current), status := Active,
                 revision := s.revision + 1))
  }

  // ---- runs ----

  datatype Op =
    | Initialize(roadmap: seq<Phase>, preferred: Position)
    | Advance(target: Position)
    | Finish
    | ChangeCourse(replacement: seq<Phase>, proposed: Position)

  /** What an operation makes of the file; a refusal leaves it alone. */
  function Outcome(file: Option<State>, op: Op): Result<State, Error> {
    match op
    case Initialize(roadmap, preferred) =>
      if file.Some? then Success(file.value) else Initialized(roadmap, preferred)
    case Advance(target) =>
      if file.None? then Failure(NotInitialized) else Advanced(file.value, target)
    case Finish =>
      if file.None? then Failure(NotInitialized) else Success(Completed(file.value))
    case ChangeCourse(replacement, proposed) =>
      if file.Some? then CourseChanged(file.value, replacement, proposed)
      else if replacement == [] then Failure(NotInitialized)
      else Initialized(replacement, proposed)
  }

  function After(file: Option<State>, op: Op): Option<State> {
    var r := Outcome(file, op);
    if r.Success? then Some(r.value) else file
  }

  function AfterAll(file: Option<State>, ops: seq<Op>): Option<State> {
    if ops == [] then file else After(AfterAll(file, ops[..|ops| - 1]), ops[|ops| - 1])
  }

  predicate Sound(s: State) {
    var positions := Positions(s.roadmap);
    && IsDistinct(s.completed)
    && (forall p :: p in s.completed ==> p in positions)
    && (s.status == Active ==> s.current.Some? && s.current.value in positions)
    && (s.status == Complete ==> s.current.None?)
    && s.revision >= 1
  }

  lemma {:induction false} PairsAreAllOf(completed: seq<Position>)
    requires IsDistinct(completed) && forall p :: p in completed ==> p.phase != ""
    ensures CompletedPairs(completed) == completed
  {
    if completed != [] {
      var init := completed[..|completed| - 1];
      forall p | p in init ensures p.phase != "" { assert p in completed; }
      PairsAreAllOf(init);
    }
  }

  lemma {:induction false} PositionsHavePhases(roadmap: seq<Phase>)
    ensures forall p :: p in Positions(roadmap) ==> p.phase != ""
  {
    if roadmap != [] {
      PositionsHavePhases(roadmap[1..]);
      assert forall p :: p in PositionsOfPhase(roadmap[0]) ==> p.phase != "";
    }
  }

  lemma OpKeepsSound(file: Option<State>, op: Op)
    requires file.Some? ==> Sound(file.value)
    ensures After(file, op).Some? ==> Sound(After(file, op).value)
    ensures file.Some? ==> After(file, op).Some?
    ensures file.None? && After(file, op).Some? ==> After(file, op).value.revision == 1
    ensures file.Some? && After(file, op) != file ==> After(file, op).value.revision == file.value.revision + 1
  {
    hide Positions;
  }

  /**
   Whatever sequence of operations is applied, accepted or refused: what is completed is
   free of repetitions and belongs to the roadmap, there is a current position exactly while
   the project is active, and the revision counts the writes.
   */
  lemma {:induction false} EveryRunIsSound(ops: seq<Op>)
    ensures AfterAll(None, ops).Some? ==> Sound(AfterAll(None, ops).value)
    ensures ops != [] ==>
              var before, after := AfterAll(None, ops[..|ops| - 1]), AfterAll(None, ops);
              && (before.Some? ==> after.Some?)
              && (before.Some? && after != before ==> after.value.revision == before.value.revision + 1)
              && (before.None? && after.Some? ==> after.value.revision == 1)
  {
    hide Sound, Outcome, After;
    if ops != [] {
      EveryRunIsSound(ops[..|ops| - 1]);
      OpKeepsSound(AfterAll(None, ops[..|ops| - 1]), ops[|ops| - 1]);
    }
  }

  // ---- advancing through a roadmap without repetitions ----

  /** From the position at index start, the project has come to index k. */
  predicate HasComeTo(s: State, start: nat, k: nat) {
    var positions := Positions(s.roadmap);
    && start <= k < |positions| && s.status == Active
    && s.current == Some(positions[k]) && s.completed == positions[start..k]
  }

  lemma OnlyNextIsAccepted(s: State, start: nat, k: nat, target: Position)
    requires IsDistinct(Positions(s.roadmap)) && HasComeTo(s, start, k)
    ensures var positions := Positions(s.roadmap);
            if k + 1 < |positions| && target == positions[k + 1] then
              Advanced(s, target).Success? && HasComeTo(Advanced(s, target).value, start, k + 1)
            else
              Advanced(s, target).Success? ==> Advanced(s, target).value == s
    ensures Advanced(s, target).Success? ==> Advanced(s, target).value.roadmap == s.roadmap
  {
    hide Positions;
    var positions := Positions(s.roadmap);
    assert IndexOf(positions, positions[k]) == k;
    SliceIsKept(s.roadmap, start, k);
    if k + 1 < |positions| {
      assert positions[start..k] + [positions[k]] == positions[start..k + 1];
      assert positions[k] !in positions[start..k];
    }
  }

  lemma SliceIsKept(roadmap: seq<Phase>, start: nat, k: nat)
    requires IsDistinct(Positions(roadmap)) && start <= k < |Positions(roadmap)|
    ensures CompletedPairs(Positions(roadmap)[start..k]) == Positions(roadmap)[start..k]
  {
    hide Positions;
    PositionsHavePhases(roadmap);
    var slice := Positions(roadmap)[start..k];
    forall p | p in slice ensures p.phase != "" { assert p in Positions(roadmap); }
    PairsAreAllOf(slice);
  }

  function AdvancedThrough(s: State, targets: seq<Position>): State {
    if targets == [] then s
    else
      var before := AdvancedThrough(s, targets[..|targets| - 1]);
      var r := Advanced(before, targets[|targets| - 1]);
      if r.Success? then r.value else before
  }

  /**
   With distinct positions and no course change, whatever the model asks for: what is
   completed is always exactly the stretch from the start to the current position, which
   never moves back and moves by one step at a time.
   */
  lemma {:induction false} CompletedIsTheStretchBehind(s: State, start: nat, targets: seq<Position>) returns (k: nat)
    requires IsDistinct(Positions(s.roadmap)) && HasComeTo(s, start, start)
    ensures AdvancedThrough(s, targets).roadmap == s.roadmap
    ensures HasComeTo(AdvancedThrough(s, targets), start, k)
    ensures k <= start + |targets|
    ensures Completed(AdvancedThrough(s, targets)).completed == Positions(s.roadmap)[start..k + 1]
  {
    hide Positions, Advanced, Completed, IsDistinct;
    if targets == [] {
      k := start;
    } else {
      var earlier := CompletedIsTheStretchBehind(s, start, targets[..|targets| - 1]);
      var before := AdvancedThrough(s, targets[..|targets| - 1]);
      var target := targets[|targets| - 1];
      OnlyNextIsAccepted(before, start, earlier, target);
      var moved := earlier + 1 < |Positions(s.roadmap)| && target == Positions(s.roadmap)[earlier + 1];
      k := if moved then earlier + 1 else earlier;
    }
    FinishingTheStretch(AdvancedThrough(s, targets), start, k);
  }

  lemma FinishingTheStretch(s: State, start: nat, k: nat)
    requires IsDistinct(Positions(s.roadmap)) && HasComeTo(s, start, k)
    ensures Completed(s).completed == Positions(s.roadmap)[start..k + 1]
  {
    hide Positions;
    SliceIsKept(s.roadmap, start, k);
    var positions := Positions(s.roadmap);
    assert positions[start..k] + [positions[k]] == positions[start..k + 1];
    assert positions[k] !in positions[start..k];
  }

  // ---- roadmaps with repetitions ----

  predicate IsFirst(ps: seq<Position>, i: nat)
    requires i < |ps|
  {
    ps[i] !in ps[..i]
  }

  /** Where n accepted advances lead from index i; lookups always find the first occurrence. */
  function IndexAfter(ps: seq<Position>, i: nat, n: nat): (j: nat)
    requires i < |ps|
    ensures j < |ps|
  {
    if n == 0 then IndexOf(ps, ps[i])
    else
      var j := IndexAfter(ps, i, n - 1);
      if j + 1 < |ps| then IndexOf(ps, ps[j + 1]) else j
  }

  lemma {:induction false} StuckBefore(ps: seq<Position>, start: nat, i: nat, n: nat)
    requires start < i < |ps| && !IsFirst(ps, i)
    ensures IndexAfter(ps, start, n) < i
  {
    if n == 0 {
      FirstIsNotLater(ps, start);
    } else {
      StuckBefore(ps, start, i, n - 1);
      var j := IndexAfter(ps, start, n - 1);
      FirstIsNotLater(ps, j + 1);
      if j + 1 == i { assert ps[i] in ps[..i]; }
    }
  }

  lemma FirstIsNotLater(ps: seq<Position>, i: nat)
    requires i < |ps|
    ensures IndexOf(ps, ps[i]) <= i
    ensures IsFirst(ps, i) <==> IndexOf(ps, ps[i]) == i
  {
    var f := IndexOf(ps, ps[i]);
    if f < i { assert ps[..i][f] == ps[i]; }
  }

  lemma {:induction false} StraightThrough(ps: seq<Position>, start: nat, n: nat)
    requires start + n < |ps| && IsFirst(ps, start)
    requires forall i :: start < i < |ps| ==> IsFirst(ps, i)
    ensures IndexAfter(ps, start, n) == start + n
  {
    FirstIsNotLater(ps, start + n);
    if n > 0 {
      StraightThrough(ps, start, n - 1);
    }
  }

  lemma IndexAfterIsFirst(ps: seq<Position>, i: nat, n: nat)
    requires i < |ps|
    ensures IndexOf(ps, ps[IndexAfter(ps, i, n)]) == IndexAfter(ps, i, n)
  {
    if n > 0 && IndexAfter(ps, i, n - 1) + 1 == |ps| { IndexAfterIsFirst(ps, i, n - 1); }
  }

  /** Advances to the position that is next, if there is one. */
  function AdvancedToNext(s: State): State {
    if s.current.None? then s
    else
      var next := NextOf(Positions(s.roadmap), s.current.value);
      if next.None? then s
      else
        var r := Advanced(s, next.value);
        if r.Success? then r.value else s
  }

  function Walk(s: State, n: nat): State {
    if n == 0 then s else AdvancedToNext(Walk(s, n - 1))
  }

  predicate IsAtTheEnd(s: State) {
    s.current.Some? && s.current.value in Positions(s.roadmap) && NextOf(Positions(s.roadmap), s.current.value).None?
  }

  lemma OneAdvance(s: State, j: nat)
    requires j < |Positions(s.roadmap)| && s.current == Some(Positions(s.roadmap)[j])
    requires IndexOf(Positions(s.roadmap), Positions(s.roadmap)[j]) == j
    ensures var ps := Positions(s.roadmap);
            && AdvancedToNext(s).roadmap == s.roadmap
            && AdvancedToNext(s).current == (if j + 1 < |ps| then Some(ps[j + 1]) else Some(ps[j]))
            && (IsAtTheEnd(s) <==> j == |ps| - 1)
  {
    hide Positions, CompletedPairs, With, IndexOf;
  }

  lemma {:induction false} WalkFollowsTheIndex(s: State, start: nat, n: nat)
    requires start < |Positions(s.roadmap)| && s.current == Some(Positions(s.roadmap)[start])
    ensures Walk(s, n).roadmap == s.roadmap
    ensures Walk(s, n).current == Some(Positions(s.roadmap)[IndexAfter(Positions(s.roadmap), start, n)])
    ensures IsAtTheEnd(Walk(s, n)) <==>
              IndexAfter(Positions(s.roadmap), start, n) == |Positions(s.roadmap)| - 1
  {
    hide Positions, AdvancedToNext, IsAtTheEnd;
    var ps := Positions(s.roadmap);
    IndexAfterIsFirst(ps, start, n);
    if n > 0 {
      WalkFollowsTheIndex(s, start, n - 1);
      IndexAfterIsFirst(ps, start, n - 1);
      OneAdvance(Walk(s, n - 1), IndexAfter(ps, start, n - 1));
    }
    OneAdvance(Walk(s, n), IndexAfter(ps, start, n));
  }

  /**
   Exactly when advancing comes to an end: from its start, which is always a first
   occurrence, a project can be advanced to the end of its roadmap if and only if no
   position behind the start repeats an earlier one.  Otherwise it cycles: an advance past
   the repetition leads back to its first occurrence.
   */
  lemma AdvancingEndsIff(s: State, start: nat)
    requires start < |Positions(s.roadmap)| && s.current == Some(Positions(s.roadmap)[start])
    requires IsFirst(Positions(s.roadmap), start)
    ensures (exists n :: IsAtTheEnd(Walk(s, n)))
            <==> forall i :: start < i < |Positions(s.roadmap)| ==> IsFirst(Positions(s.roadmap), i)
  {
    hide Positions, Walk, IsAtTheEnd, IsFirst;
    var ps := Positions(s.roadmap);
    if forall i :: start < i < |ps| ==> IsFirst(ps, i) {
      StraightThrough(ps, start, |ps| - 1 - start);
      WalkFollowsTheIndex(s, start, |ps| - 1 - start);
    } else {
      var i :| start < i < |ps| && !IsFirst(ps, i);
      forall n: nat ensures !IsAtTheEnd(Walk(s, n)) {
        StuckBefore(ps, start, i, n);
        WalkFollowsTheIndex(s, start, n);
      }
    }
  }
}
