/**
 Which positions a roadmap has, and in which order: every stage of every phase, by its
 stripped name, and the phase itself if it has none.
 */
module RoadmapPositions {
  import opened Wrappers
  import opened ProjectState

  // ---- stripping ----

  /** r is the part of s from i on, and all around it is white space. */
  predicate IsCoreAt(r: string, s: string, i: nat) {
    && i + |r| <= |s| && (forall k :: 0 <= k < |r| ==> r[k] == s[i + k])
    && (r == "" || (!IsSpace(r[0]) && !IsSpace(r[|r| - 1])))
    && (forall k :: 0 <= k < i ==> IsSpace(s[k]))
    && (forall k :: i + |r| <= k < |s| ==> IsSpace(s[k]))
  }

  lemma {:induction false} LeftIsBlank(s: string)
    ensures forall k :: 0 <= k < |s| - |StripLeft(s)| ==> IsSpace(s[k])
    ensures forall k :: 0 <= k < |StripLeft(s)| ==> StripLeft(s)[k] == s[|s| - |StripLeft(s)| + k]
  {
    if s != "" && IsSpace(s[0]) {
      var rest := s[1..];
      LeftIsBlank(rest);
      forall k | 0 <= k < |s| - |StripLeft(s)| ensures IsSpace(s[k]) {
        if k > 0 { assert s[k] == rest[k - 1]; }
      }
    }
  }

  lemma {:induction false} RightIsBlank(s: string)
    ensures forall k :: |StripRight(s)| <= k < |s| ==> IsSpace(s[k])
    ensures forall k :: 0 <= k < |StripRight(s)| ==> StripRight(s)[k] == s[k]
  {
    if s != "" && IsSpace(s[|s| - 1]) {
      var rest := s[..|s| - 1];
      RightIsBlank(rest);
      forall k | |StripRight(s)| <= k < |s| ensures IsSpace(s[k]) {
        if k < |s| - 1 { assert s[k] == rest[k]; }
      }
    }
  }

  lemma StripIsCore(s: string) returns (i: nat)
    ensures IsCoreAt(Strip(s), s, i)
  {
    LeftIsBlank(s);
    RightIsBlank(StripLeft(s));
    EndsAreSolid(s);
    i := CoreOfCore(s, StripLeft(s), Strip(s));
  }

  lemma CoreOfCore(s: string, left: string, r: string) returns (i: nat)
    requires |r| <= |left| <= |s|
    requires forall k :: 0 <= k < |s| - |left| ==> IsSpace(s[k])
    requires forall k :: 0 <= k < |left| ==> left[k] == s[|s| - |left| + k]
    requires forall k :: |r| <= k < |left| ==> IsSpace(left[k])
    requires forall k :: 0 <= k < |r| ==> r[k] == left[k]
    requires r != "" ==> !IsSpace(r[0]) && !IsSpace(r[|r| - 1])
    ensures IsCoreAt(r, s, i)
  {
    i := |s| - |left|;
    forall k | i + |r| <= k < |s| ensures IsSpace(s[k]) { assert left[k - i] == s[k]; }
  }

  lemma EndsAreSolid(s: string)
    ensures Strip(s) != "" ==> !IsSpace(Strip(s)[0]) && !IsSpace(Strip(s)[|Strip(s)| - 1])
  {
    var left := StripLeft(s);
    RightIsBlank(left);
  }

  /** Stripping yields the one part that is surrounded by white space and begins and ends with none. */
  lemma StripIs(s: string, r: string, i: nat)
    requires IsCoreAt(r, s, i)
    ensures r == Strip(s)
  {
    hide Strip;
    var j := StripIsCore(s);
    var t := Strip(s);
    assert t != "" ==> t[0] == s[j] && t[|t| - 1] == s[j + |t| - 1];
    assert r != "" ==> r[0] == s[i] && r[|r| - 1] == s[i + |r| - 1];
  }

  // ---- which positions, and in which order ----

  predicate HasStage(stages: seq<string>) {
    exists i :: 0 <= i < |stages| && Strip(stages[i]) != ""
  }

  /** A phase without an id has no position; one without stages has itself; any other each of its stages. */
  predicate IsListed(p: Position, phase: Phase) {
    && p.phase == Strip(phase.id) != ""
    && if HasStage(phase.stages) then
         exists i :: 0 <= i < |phase.stages| && p.stage == Strip(phase.stages[i]) != ""
       else p.stage == ""
  }

  lemma {:induction false} WhichStages(stages: seq<string>, stage: string)
    ensures stage in StagesOf(stages) <==> exists i :: 0 <= i < |stages| && stage == Strip(stages[i]) != ""
    ensures StagesOf(stages) != [] <==> HasStage(stages)
  {
    hide Strip;
    if stages != [] {
      var rest := stages[1..];
      WhichStages(rest, stage);
      assert forall i :: 0 <= i < |rest| ==> rest[i] == stages[i + 1];
      assert HasStage(stages) <==> Strip(stages[0]) != "" || HasStage(rest);
      assert (exists i :: 0 <= i < |stages| && stage == Strip(stages[i]) != "") <==>
          stage == Strip(stages[0]) != "" || exists i :: 0 <= i < |rest| && stage == Strip(rest[i]) != "";
    }
  }

  lemma WhichPositionsOfPhase(phase: Phase, p: Position)
    ensures p in PositionsOfPhase(phase) <==> IsListed(p, phase)
  {
    hide Strip, StagesOf;
    WhichStages(phase.stages, p.stage);
    var stages := StagesOf(phase.stages);
    if p.phase == Strip(phase.id) && p.stage in stages {
      var i :| 0 <= i < |stages| && stages[i] == p.stage;
      assert Strip(phase.id) != "" ==> PositionsOfPhase(phase)[i] == p;
    }
  }

  /** A roadmap has exactly the positions that one of its phases lists. */
  lemma {:induction false} WhichPositions(roadmap: seq<Phase>, p: Position)
    ensures p in Positions(roadmap) <==> exists i :: 0 <= i < |roadmap| && IsListed(p, roadmap[i])
  {
    hide IsListed, PositionsOfPhase;
    if roadmap != [] {
      WhichPositionsOfPhase(roadmap[0], p);
      WhichPositions(roadmap[1..], p);
      forall i | 1 <= i < |roadmap| ensures roadmap[i] == roadmap[1..][i - 1] { }
    }
  }

  lemma StagesOfHead(stages: seq<string>)
    ensures stages == [] ==> StagesOf(stages) == []
    ensures stages != [] ==>
              StagesOf(stages) == (if Strip(stages[0]) == "" then [] else [Strip(stages[0])]) + StagesOf(stages[1..])
  {
  }

  lemma {:induction false} StagesInOrder(a: seq<string>, b: seq<string>)
    ensures StagesOf(a + b) == StagesOf(a) + StagesOf(b)
  {
    hide StagesOf, Strip;
    StagesOfHead(a);
    StagesOfHead(a + b);
    if a == [] {
      assert a + b == b;
    } else {
      var rest := a[1..];
      StagesInOrder(rest, b);
      assert (a + b)[1..] == rest + b && (a + b)[0] == a[0];
      var head, x, y := if Strip(a[0]) == "" then [] else [Strip(a[0])], StagesOf(rest), StagesOf(b);
      assert (head + x) + y == head + (x + y);
    }
  }

  lemma PositionsOfHead(roadmap: seq<Phase>)
    ensures roadmap == [] ==> Positions(roadmap) == []
    ensures roadmap != [] ==> Positions(roadmap) == PositionsOfPhase(roadmap[0]) + Positions(roadmap[1..])
  {
  }

  /** The positions of the first part of a roadmap come first, and nothing is dropped or added. */
  lemma {:induction false} PositionsInOrder(a: seq<Phase>, b: seq<Phase>)
    ensures Positions(a + b) == Positions(a) + Positions(b)
  {
    hide Positions, PositionsOfPhase;
    PositionsOfHead(a);
    PositionsOfHead(a + b);
    if a == [] {
      assert a + b == b;
    } else {
      var rest := a[1..];
      PositionsInOrder(rest, b);
      assert (a + b)[1..] == rest + b && (a + b)[0] == a[0];
      var head, x, y := PositionsOfPhase(a[0]), Positions(rest), Positions(b);
      assert (head + x) + y == head + (x + y);
    }
  }

  /** And so do, within a phase, those of the first part of its stages. */
  lemma PositionsOfPhaseInOrder(phase: Phase, a: seq<string>, b: seq<string>)
    requires HasStage(a) && HasStage(b)
    ensures PositionsOfPhase(phase.(stages := a + b)) ==
            PositionsOfPhase(phase.(stages := a)) + PositionsOfPhase(phase.(stages := b))
  {
    hide Strip, StagesOf;
    StagesInOrder(a, b);
    WhichStages(a, "");
    WhichStages(b, "");
  }

  // ---- where a project stands after its roadmap is set or changed ----

  /** Everything listed before p is done. */
  predicate IsFirstOpen(positions: seq<Position>, done: seq<Position>, p: Position) {
    exists k :: 0 <= k < |positions| && positions[k] == p && p !in done
                && forall i :: 0 <= i < k ==> positions[i] in done
  }

  lemma {:induction false} FirstOpenIsFound(positions: seq<Position>, done: seq<Position>, otherwise: Position)
    ensures var p := FirstNotIn(positions, done, otherwise);
            IsFirstOpen(positions, done, p) || (p == otherwise && forall q :: q in positions ==> q in done)
  {
    if positions != [] && positions[0] in done {
      var rest := positions[1..];
      FirstOpenIsFound(rest, done, otherwise);
      var p := FirstNotIn(rest, done, otherwise);
      if IsFirstOpen(rest, done, p) {
        var k :| 0 <= k < |rest| && rest[k] == p && p !in done && forall i :: 0 <= i < k ==> rest[i] in done;
        assert positions[k + 1] == p;
        forall i | 0 <= i < k + 1 ensures positions[i] in done { if i > 0 { assert positions[i] == rest[i - 1]; } }
      }
    }
  }

  /** p stands before q. */
  predicate Precedes(ps: seq<Position>, p: Position, q: Position) {
    exists i, j :: 0 <= i < j < |ps| && ps[i] == p && ps[j] == q
  }

  lemma {:induction false} ThoseInOrder(ps: seq<Position>, keep: seq<Position>, p: Position, q: Position)
    requires Precedes(Those(ps, keep), p, q)
    ensures Precedes(ps, p, q)
  {
    var init, last := ps[..|ps| - 1], ps[|ps| - 1];
    var rest, all := Those(init, keep), Those(ps, keep);
    var i, j :| 0 <= i < j < |all| && all[i] == p && all[j] == q;
    if j < |rest| {
      assert Precedes(rest, p, q);
      ThoseInOrder(init, keep, p, q);
      var a, b :| 0 <= a < b < |init| && init[a] == p && init[b] == q;
      assert ps[a] == p && ps[b] == q;
    } else {
      assert p in rest;
      var a :| 0 <= a < |init| && init[a] == p;
      assert ps[a] == p && ps[|ps| - 1] == q;
    }
  }

  /** The positions that a course change makes the listed ones. */
  function ListedAfter(s: State, replacement: seq<Phase>): seq<Position> {
    Positions(if replacement == [] then s.roadmap else replacement)
  }

  /**
   A course change on a sound state is accepted exactly if something is listed then; what was
   done and is still listed stays done, in the same order, and nothing else is.
   */
  lemma WhatCourseChangeKeeps(s: State, replacement: seq<Phase>, proposed: Position)
    requires Sound(s)
    ensures var listed, r := ListedAfter(s, replacement), CourseChanged(s, replacement, proposed);
            && (r.Success? <==> listed != [])
            && (r.Success? ==>
                  && Positions(r.value.roadmap) == listed && r.value.status == Active
                  && r.value.revision == s.revision + 1
                  && (forall p :: p in r.value.completed <==> p in s.completed && p in listed)
                  && (forall p, q :: Precedes(r.value.completed, p, q) ==> Precedes(s.completed, p, q)))
  {
    PositionsHavePhases(s.roadmap);
    PairsAreAllOf(s.completed);
    var listed := ListedAfter(s, replacement);
    var completed := Those(s.completed, listed);
    hide Positions, CompletedPairs, Those, FirstNotIn, Precedes;
    forall p, q | Precedes(completed, p, q) ensures Precedes(s.completed, p, q) {
      ThoseInOrder(s.completed, listed, p, q);
    }
  }

  /**
   It leads to the proposed position if that is listed; else it stays where the project is if
   that is listed and open; else it leads to the first listed position that is open, or back
   to the very first one if none is.
   */
  lemma WhereCourseChangeLeads(s: State, replacement: seq<Phase>, proposed: Position)
    requires Sound(s) && CourseChanged(s, replacement, proposed).Success?
    ensures var listed, r := ListedAfter(s, replacement), CourseChanged(s, replacement, proposed).value;
            r.current.Some? &&
            var now := r.current.value;
            if proposed.phase != "" && proposed in listed then now == proposed
            else if s.current.Some? && s.current.value in listed && s.current.value !in s.completed then
              now == s.current.value
            else
              IsFirstOpen(listed, r.completed, now)
              || (now == listed[0] && forall p :: p in listed ==> p in s.completed)
  {
    PositionsHavePhases(s.roadmap);
    PairsAreAllOf(s.completed);
    var listed := ListedAfter(s, replacement);
    FirstOpenIsFound(listed, Those(s.completed, listed), listed[0]);
    hide Positions, CompletedPairs, Those, FirstNotIn, IsFirstOpen;
  }

  /** A first roadmap is accepted exactly if it lists a position, and starts at the preferred one, or else at its first. */
  lemma WhereProjectsBegin(roadmap: seq<Phase>, preferred: Position)
    ensures var r := Initialized(roadmap, preferred);
            && (r.Success? <==> Positions(roadmap) != [])
            && (r.Success? ==>
                  && Sound(r.value) && r.value.status == Active && r.value.revision == 1 && r.value.completed == []
                  && r.value.roadmap == roadmap
                  && (preferred in Positions(roadmap) ==> r.value.current == Some(preferred))
                  && (preferred !in Positions(roadmap) ==> r.value.current == Some(Positions(roadmap)[0])))
  {
    PositionsHavePhases(roadmap);
    hide Positions;
  }

  // ---- roadmaps in which everything has a name of its own ----

  predicate AreNames(names: seq<string>) {
    && (forall i :: 0 <= i < |names| ==> Strip(names[i]) != "")
    && (forall i, j :: 0 <= i < j < |names| ==> Strip(names[i]) != Strip(names[j]))
  }

  function Ids(roadmap: seq<Phase>): (ids: seq<string>)
    ensures |ids| == |roadmap| && forall i :: 0 <= i < |roadmap| ==> ids[i] == roadmap[i].id
  {
    seq(|roadmap|, i requires 0 <= i < |roadmap| => roadmap[i].id)
  }

  predicate IsNamed(roadmap: seq<Phase>) {
    AreNames(Ids(roadmap)) && forall i :: 0 <= i < |roadmap| ==> AreNames(roadmap[i].stages)
  }

  function Width(phase: Phase): nat {
    if phase.stages == [] then 1 else |phase.stages|
  }

  /** How many positions stand before phase i. */
  function Offset(roadmap: seq<Phase>, i: nat): nat
    requires i <= |roadmap|
  {
    if i == 0 then 0 else Offset(roadmap, i - 1) + Width(roadmap[i - 1])
  }

  /** The position that phase i lists as its number j. */
  function ListedAt(roadmap: seq<Phase>, i: nat, j: nat): Position
    requires i < |roadmap| && j < Width(roadmap[i])
  {
    Position(Strip(roadmap[i].id), if roadmap[i].stages == [] then "" else Strip(roadmap[i].stages[j]))
  }

  lemma {:induction false} AllStagesAreKept(stages: seq<string>)
    requires AreNames(stages)
    ensures |StagesOf(stages)| == |stages| && forall j :: 0 <= j < |stages| ==> StagesOf(stages)[j] == Strip(stages[j])
  {
    if stages != [] {
      AllStagesAreKept(stages[1..]);
    }
  }

  lemma PositionsOfNamedPhase(phase: Phase)
    requires Strip(phase.id) != "" && AreNames(phase.stages)
    ensures |PositionsOfPhase(phase)| == Width(phase)
    ensures forall j :: 0 <= j < Width(phase) ==> PositionsOfPhase(phase)[j] == ListedAt([phase], 0, j)
  {
    hide Strip;
    AllStagesAreKept(phase.stages);
  }

  lemma {:induction false} PositionsUpTo(roadmap: seq<Phase>, i: nat)
    requires IsNamed(roadmap) && i <= |roadmap|
    ensures |Positions(roadmap[..i])| == Offset(roadmap, i)
  {
    hide Strip, PositionsOfPhase;
    if i > 0 {
      PositionsUpTo(roadmap, i - 1);
      assert roadmap[..i] == roadmap[..i - 1] + [roadmap[i - 1]];
      PositionsInOrder(roadmap[..i - 1], [roadmap[i - 1]]);
      assert Ids(roadmap)[i - 1] == roadmap[i - 1].id;
      PositionsOfNamedPhase(roadmap[i - 1]);
      assert Positions([roadmap[i - 1]]) == PositionsOfPhase(roadmap[i - 1]);
    }
  }

  /** Then every phase has its positions one after the other, behind those of the phases before it. */
  lemma PositionsAreListed(roadmap: seq<Phase>, i: nat, j: nat)
    requires IsNamed(roadmap) && i < |roadmap| && j < Width(roadmap[i])
    ensures |Positions(roadmap)| == Offset(roadmap, |roadmap|)
    ensures Offset(roadmap, i) + j < |Positions(roadmap)|
    ensures Positions(roadmap)[Offset(roadmap, i) + j] == ListedAt(roadmap, i, j)
  {
    hide Strip, PositionsOfPhase;
    assert roadmap == roadmap[..|roadmap|] && roadmap == roadmap[..i + 1] + roadmap[i + 1..];
    assert roadmap[..i + 1] == roadmap[..i] + [roadmap[i]];
    PositionsUpTo(roadmap, |roadmap|);
    PositionsUpTo(roadmap, i);
    PositionsUpTo(roadmap, i + 1);
    PositionsInOrder(roadmap[..i + 1], roadmap[i + 1..]);
    PositionsInOrder(roadmap[..i], [roadmap[i]]);
    assert Ids(roadmap)[i] == roadmap[i].id;
    PositionsOfNamedPhase(roadmap[i]);
    assert Positions([roadmap[i]]) == PositionsOfPhase(roadmap[i]);
  }

  lemma {:induction false} NamedIsDistinct(roadmap: seq<Phase>, i: nat)
    requires IsNamed(roadmap) && i <= |roadmap|
    ensures IsDistinct(Positions(roadmap[..i]))
    ensures forall p :: p in Positions(roadmap[..i]) ==> exists k :: 0 <= k < i && p.phase == Strip(roadmap[k].id)
  {
    hide Strip, PositionsOfPhase;
    if i > 0 {
      NamedIsDistinct(roadmap, i - 1);
      var init, last := roadmap[..i - 1], roadmap[i - 1];
      assert roadmap[..i] == init + [last];
      PositionsInOrder(init, [last]);
      assert Positions([last]) == PositionsOfPhase(last);
      assert forall k :: 0 <= k < i ==> Ids(roadmap)[k] == roadmap[k].id;
      PositionsOfNamedPhase(last);
      forall p | p in PositionsOfPhase(last) ensures p.phase == Strip(last.id) { WhichPositionsOfPhase(last, p); }
      forall p | p in Positions(init) ensures p.phase != Strip(last.id) { }
    }
  }

  lemma AdvanceIsAccepted(s: State, n: nat)
    requires IsDistinct(Positions(s.roadmap)) && HasComeTo(s, 0, n) && n + 1 < |Positions(s.roadmap)|
    ensures var r := Advanced(s, Positions(s.roadmap)[n + 1]);
            r.Success? && r.value.roadmap == s.roadmap && HasComeTo(r.value, 0, n + 1)
  {
    OnlyNextIsAccepted(s, 0, n, Positions(s.roadmap)[n + 1]);
  }

  /** The advances that visit all positions behind the first one, in order. */
  function Targets(roadmap: seq<Phase>, n: nat): seq<Position>
    requires n < |Positions(roadmap)|
  {
    Positions(roadmap)[1..n + 1]
  }

  lemma {:induction false} EveryAdvanceIsAccepted(s: State, n: nat)
    requires IsDistinct(Positions(s.roadmap)) && HasComeTo(s, 0, 0) && n < |Positions(s.roadmap)|
    ensures AdvancedThrough(s, Targets(s.roadmap, n)).roadmap == s.roadmap
    ensures HasComeTo(AdvancedThrough(s, Targets(s.roadmap, n)), 0, n)
    ensures n + 1 < |Positions(s.roadmap)| ==>
              Advanced(AdvancedThrough(s, Targets(s.roadmap, n)), Positions(s.roadmap)[n + 1]).Success?
  {
    hide Positions, Advanced, HasComeTo, IsDistinct;
    if n > 0 {
      EveryAdvanceIsAccepted(s, n - 1);
      var targets := Targets(s.roadmap, n);
      assert |targets| == n && targets[n - 1] == Positions(s.roadmap)[n];
      assert targets[..n - 1] == Targets(s.roadmap, n - 1);
      AdvanceIsAccepted(AdvancedThrough(s, Targets(s.roadmap, n - 1)), n - 1);
    }
    if n + 1 < |Positions(s.roadmap)| { AdvanceIsAccepted(AdvancedThrough(s, Targets(s.roadmap, n)), n); }
  }

  /**
   From the beginning of the roadmap, advancing in order comes to p as number n, which is
   accepted when its turn comes; and closing out at the end completes p as number n of all.
   */
  predicate IsReached(roadmap: seq<Phase>, n: nat, p: Position) {
    && n < |Positions(roadmap)|
    && var start := Initialized(roadmap, Position("", ""));
    && start.Success?
    && AdvancedThrough(start.value, Targets(roadmap, n)).current == Some(p)
    && (n > 0 ==> Advanced(AdvancedThrough(start.value, Targets(roadmap, n - 1)), p).Success?)
    && var done := Completed(AdvancedThrough(start.value, Targets(roadmap, |Positions(roadmap)| - 1))).completed;
    |done| == |Positions(roadmap)| && done[n] == p
  }

  lemma EveryPositionIsReached(roadmap: seq<Phase>, n: nat)
    requires IsDistinct(Positions(roadmap)) && n < |Positions(roadmap)|
    ensures IsReached(roadmap, n, Positions(roadmap)[n])
  {
    hide Positions, Advanced, AdvancedThrough, Completed, IsDistinct;
    var s, last := Initialized(roadmap, Position("", "")).value, |Positions(roadmap)| - 1;
    assert HasComeTo(s, 0, 0);
    EveryAdvanceIsAccepted(s, n);
    if n > 0 { EveryAdvanceIsAccepted(s, n - 1); }
    EveryAdvanceIsAccepted(s, last);
    FinishingTheStretch(AdvancedThrough(s, Targets(roadmap, last)), 0, last);
    assert Positions(roadmap)[0..last + 1] == Positions(roadmap);
  }

  /**
   If every phase, and every stage within its phase, has a name of its own, every listed stage
   is reached, after all those listed before it; and there is nothing else to complete.
   */
  lemma EveryListedStageIsReached(roadmap: seq<Phase>, i: nat, j: nat)
    requires IsNamed(roadmap) && i < |roadmap| && j < Width(roadmap[i])
    ensures IsReached(roadmap, Offset(roadmap, i) + j, ListedAt(roadmap, i, j))
    ensures |Positions(roadmap)| == Offset(roadmap, |roadmap|)
  {
    hide Positions, IsNamed, IsReached, IsDistinct, Strip, ListedAt, Offset;
    PositionsAreListed(roadmap, i, j);
    assert roadmap[..|roadmap|] == roadmap;
    NamedIsDistinct(roadmap, |roadmap|);
    EveryPositionIsReached(roadmap, Offset(roadmap, i) + j);
  }
}
