/**
 The text of ROADMAP.md: a part for people, then the machine state between two markers.
 What is read back does not depend on what the human part says.
 */
module RoadmapFile {
  import opened Wrappers
  import opened ProjectState
  import opened ProjectFiles
  import opened RoadmapPositions

  const STATE_BEGIN: string := "<!-- AI_WORKFLOW_STATE_BEGIN -->"
  const STATE_END: string := "<!-- AI_WORKFLOW_STATE_END -->"

  const MACHINE_HEADING: seq<string> := [
    "## Machine State",
    "",
    "This block is parsed by AI Workflow Bridge. Do not edit it manually while a run is active.",
    ""
  ]

  /** The lines for people come from the state, too; here they may be anything. */
  function RenderRoadmap(human: seq<string>, machine: string): string {
    JoinLines(human + MACHINE_HEADING + [STATE_BEGIN, machine, STATE_END, ""])
  }

  // ---- searching ----

  predicate OccursAt(text: string, marker: string, i: nat) {
    i + |marker| <= |text| && text[i..i + |marker|] == marker
  }

  predicate Contains(text: string, marker: string) {
    exists i: nat {:trigger OccursAt(text, marker, i)} :: i <= |text| && OccursAt(text, marker, i)
  }

  function FirstFrom(text: string, marker: string, i: nat): (r: Option<nat>)
    ensures r.Some? ==> OccursAt(text, marker, r.value) && r.value >= i
    ensures r.Some? ==> forall j: nat :: i <= j < r.value ==> !OccursAt(text, marker, j)
    ensures r.None? ==> forall j: nat :: j >= i ==> !OccursAt(text, marker, j)
    decreases |text| - i
  {
    if i + |marker| > |text| then None
    else if OccursAt(text, marker, i) then Some(i)
    else FirstFrom(text, marker, i + 1)
  }

  function LastUpTo(text: string, marker: string, n: nat): (r: Option<nat>)
    ensures r.Some? ==> OccursAt(text, marker, r.value) && r.value < n
    ensures r.Some? ==> forall j: nat :: r.value < j < n ==> !OccursAt(text, marker, j)
    ensures r.None? ==> forall j: nat :: j < n ==> !OccursAt(text, marker, j)
  {
    if n == 0 then None
    else if OccursAt(text, marker, n - 1) then Some(n - 1)
    else LastUpTo(text, marker, n - 1)
  }

  /** After the last begin marker, before the first end marker behind it, without the margins. */
  function Extract(text: string): Option<string> {
    var begin := LastUpTo(text, STATE_BEGIN, |text| + 1);
    if begin.None? || FirstFrom(text, STATE_END, 0).None? then None
    else
      var rest := text[begin.value + |STATE_BEGIN|..];
      var end := FirstFrom(rest, STATE_END, 0);
      Some(Strip(if end.Some? then rest[..end.value] else rest))
  }

  // ---- shape of the rendered text ----

  lemma {:induction false} JoinAppends(lines: seq<string>, more: seq<string>)
    requires lines != [] && more != []
    ensures JoinLines(lines + more) == JoinLines(lines) + "\n" + JoinLines(more)
  {
    if |lines| == 1 {
      assert (lines + more)[1..] == more;
    } else {
      assert (lines + more)[1..] == lines[1..] + more;
      JoinAppends(lines[1..], more);
    }
  }

  function Document(head: string, machine: string): string {
    head + "\n" + STATE_BEGIN + "\n" + machine + "\n" + STATE_END + "\n"
  }

  lemma RenderedShape(human: seq<string>, machine: string) returns (head: string)
    ensures RenderRoadmap(human, machine) == Document(head, machine)
  {
    assert |MACHINE_HEADING| == 4;
    hide STATE_BEGIN, STATE_END, MACHINE_HEADING;
    head := JoinLines(human + MACHINE_HEADING);
    JoinAppends(human + MACHINE_HEADING, [STATE_BEGIN, machine, STATE_END, ""]);
    MachinePart(machine);
    assert RenderRoadmap(human, machine) == head + "\n" + (STATE_BEGIN + "\n" + machine + "\n" + STATE_END + "\n");
  }

  lemma MachinePart(machine: string)
    ensures JoinLines([STATE_BEGIN, machine, STATE_END, ""]) == STATE_BEGIN + "\n" + machine + "\n" + STATE_END + "\n"
  {
    hide STATE_BEGIN, STATE_END;
    assert JoinLines([STATE_END, ""]) == STATE_END + "\n" + JoinLines([""]);
    assert JoinLines([machine, STATE_END, ""]) == machine + "\n" + JoinLines([STATE_END, ""]);
    assert JoinLines([STATE_BEGIN, machine, STATE_END, ""]) == STATE_BEGIN + "\n" + JoinLines([machine, STATE_END, ""]);
  }

  // ---- where the markers are ----

  /** A marker has no line break, so an occurrence does not reach across one. */
  lemma StaysInLine(text: string, marker: string, i: nat, k: nat)
    requires '\n' !in marker && OccursAt(text, marker, i) && k < |text| && text[k] == '\n'
    ensures k < i || i + |marker| <= k
  {
  }

  lemma MarkersHaveNoBreaks()
    ensures '\n' !in STATE_BEGIN && '\n' !in STATE_END
    ensures |STATE_BEGIN| == 32 && |STATE_END| == 30
  {
  }

  /** The part of the text after the begin marker. */
  function Behind(machine: string): string {
    "\n" + machine + "\n" + STATE_END + "\n"
  }

  lemma BeginIsOurs(head: string, machine: string)
    ensures OccursAt(Document(head, machine), STATE_BEGIN, |head| + 1)
    ensures Document(head, machine)[|head| + 1 + |STATE_BEGIN|..] == Behind(machine)
    ensures OccursAt(Behind(machine), STATE_END, |machine| + 2)
    ensures OccursAt(Document(head, machine), STATE_END, |head| + 1 + |STATE_BEGIN| + |machine| + 2)
  {
    hide STATE_BEGIN, STATE_END;
    var text := Document(head, machine);
    var before := head + "\n";
    assert text == before + STATE_BEGIN + Behind(machine);
    assert text[|before|..|before| + |STATE_BEGIN|] == STATE_BEGIN;
    var start := "\n" + machine + "\n";
    assert Behind(machine) == start + STATE_END + "\n";
    assert Behind(machine)[|start|..|start| + |STATE_END|] == STATE_END;
    var upTo := before + STATE_BEGIN + start;
    assert text == upTo + STATE_END + "\n";
    assert text[|upTo|..|upTo| + |STATE_END|] == STATE_END;
  }

  /** Behind the marker, an occurrence of either marker before our end marker is in the machine state. */
  lemma InTheMachineState(machine: string, marker: string, i: nat)
    requires '\n' !in marker && marker != ""
    requires OccursAt(Behind(machine), marker, i) && i < |machine| + 2
    ensures i >= 1 && OccursAt(machine, marker, i - 1)
  {
    hide STATE_BEGIN, STATE_END;
    var rest := Behind(machine);
    assert rest[0] == '\n' && rest[|machine| + 1] == '\n';
    StaysInLine(rest, marker, i, 0);
    StaysInLine(rest, marker, i, |machine| + 1);
    assert rest[1..|machine| + 1] == machine;
    assert machine[i - 1..i - 1 + |marker|] == rest[i..i + |marker|];
  }

  lemma MachineOccurs(machine: string, marker: string, i: nat)
    requires OccursAt(machine, marker, i)
    ensures OccursAt(Behind(machine), marker, i + 1)
  {
    hide STATE_BEGIN, STATE_END;
    var rest := Behind(machine);
    assert rest[1..|machine| + 1] == machine;
    assert rest[i + 1..i + 1 + |marker|] == machine[i..i + |marker|];
  }

  /** The begin marker does not fit into the line of the end marker. */
  lemma BeginIsNotBehind(machine: string, i: nat)
    requires OccursAt(Behind(machine), STATE_BEGIN, i)
    ensures i < |machine| + 2
  {
    MarkersHaveNoBreaks();
    hide STATE_BEGIN, STATE_END;
    var rest := Behind(machine);
    assert |rest| == |machine| + 2 + |STATE_END| + 1;
    assert rest[|rest| - 1] == '\n';
    StaysInLine(rest, STATE_BEGIN, i, |rest| - 1);
  }

  lemma ShiftOccurrence(text: string, marker: string, d: nat, i: nat)
    requires d <= |text|
    ensures OccursAt(text[d..], marker, i) <==> OccursAt(text, marker, d + i)
  {
    if d + i + |marker| <= |text| {
      assert text[d..][i..i + |marker|] == text[d + i..d + i + |marker|];
    }
  }

  /** An occurrence after the begin marker is behind its line break, too. */
  lemma LaterBeginIsBehind(head: string, machine: string, j: nat)
    requires OccursAt(Document(head, machine), STATE_BEGIN, j) && j > |head| + 1
    ensures j >= |head| + 1 + |STATE_BEGIN|
    ensures OccursAt(Behind(machine), STATE_BEGIN, j - (|head| + 1 + |STATE_BEGIN|))
  {
    MarkersHaveNoBreaks();
    BeginIsOurs(head, machine);
    hide STATE_BEGIN, STATE_END;
    var text := Document(head, machine);
    var d := |head| + 1 + |STATE_BEGIN|;
    assert text[d..][0] == '\n';
    StaysInLine(text, STATE_BEGIN, j, d);
    ShiftOccurrence(text, STATE_BEGIN, d, j - d);
  }

  // ---- the round trip ----

  lemma BreakIsSpace()
    ensures IsSpace('\n')
  {
  }

  lemma StripMargins(machine: string)
    requires machine != "" && Strip(machine) == machine
    ensures Strip("\n" + machine + "\n") == machine
  {
    BreakIsSpace();
    EndsAreSolid(machine);
    hide IsSpace, Strip;
    StripIs("\n" + machine + "\n", machine, 1);
  }

  lemma LastBeginIsOurs(head: string, machine: string)
    requires !Contains(machine, STATE_BEGIN)
    ensures LastUpTo(Document(head, machine), STATE_BEGIN, |Document(head, machine)| + 1) == Some(|head| + 1)
  {
    MarkersHaveNoBreaks();
    BeginIsOurs(head, machine);
    hide STATE_BEGIN, STATE_END, Contains;
    var text := Document(head, machine);
    forall j: nat | j > |head| + 1 ensures !OccursAt(text, STATE_BEGIN, j) {
      if OccursAt(text, STATE_BEGIN, j) {
        LaterBeginIsBehind(head, machine, j);
        var i := j - (|head| + 1 + |STATE_BEGIN|);
        BeginIsNotBehind(machine, i);
        InTheMachineState(machine, STATE_BEGIN, i);
        ContainsIt(machine, STATE_BEGIN, i - 1);
        assert false;
      }
    }
    hide Document;
  }

  lemma FirstEndIsOurs(machine: string)
    requires !Contains(machine, STATE_END)
    ensures FirstFrom(Behind(machine), STATE_END, 0) == Some(|machine| + 2)
    ensures Behind(machine)[..|machine| + 2] == "\n" + machine + "\n"
  {
    MarkersHaveNoBreaks();
    BeginIsOurs("", machine);
    hide STATE_BEGIN, STATE_END, Contains;
    var rest := Behind(machine);
    forall j: nat | j < |machine| + 2 ensures !OccursAt(rest, STATE_END, j) {
      if OccursAt(rest, STATE_END, j) {
        InTheMachineState(machine, STATE_END, j);
        ContainsIt(machine, STATE_END, j - 1);
        assert false;
      }
    }
  }

  lemma ReadsBack(head: string, machine: string)
    requires machine != "" && Strip(machine) == machine
    requires !Contains(machine, STATE_BEGIN) && !Contains(machine, STATE_END)
    ensures Extract(Document(head, machine)) == Some(machine)
  {
    BeginIsOurs(head, machine);
    LastBeginIsOurs(head, machine);
    FirstEndIsOurs(machine);
    StripMargins(machine);
    hide STATE_BEGIN, STATE_END, Contains, Document, Behind, Strip;
  }

  lemma ContainsIt(text: string, marker: string, i: nat)
    requires OccursAt(text, marker, i)
    ensures Contains(text, marker)
  {
  }

  /** What lies between the begin marker found at `begin` and the next end marker is this short. */
  lemma ExtractIsWithin(text: string, begin: nat, end: nat)
    requires LastUpTo(text, STATE_BEGIN, |text| + 1) == Some(begin)
    requires OccursAt(text, STATE_END, end) && end >= begin + |STATE_BEGIN|
    ensures Extract(text).Some? && |Extract(text).value| <= end - (begin + |STATE_BEGIN|)
  {
    hide STATE_BEGIN, STATE_END, Strip;
    var from := begin + |STATE_BEGIN|;
    ShiftOccurrence(text, STATE_END, from, end - from);
  }

  lemma CutByBegin(head: string, machine: string)
    requires Contains(machine, STATE_BEGIN)
    ensures Extract(Document(head, machine)).Some?
    ensures |Extract(Document(head, machine)).value| < |machine|
  {
    MarkersHaveNoBreaks();
    BeginIsOurs(head, machine);
    hide STATE_BEGIN, STATE_END, Extract;
    var text, d := Document(head, machine), |head| + 1 + |STATE_BEGIN|;
    var i: nat :| i <= |machine| && OccursAt(machine, STATE_BEGIN, i);
    MachineOccurs(machine, STATE_BEGIN, i);
    ShiftOccurrence(text, STATE_BEGIN, d, i + 1);
    hide Document, OccursAt;
    var begin := LastUpTo(text, STATE_BEGIN, |text| + 1).value;
    LaterBeginEndsInTime(head, machine, begin);
    ExtractIsWithin(text, begin, d + |machine| + 2);
  }

  /** A later begin marker is over before our end marker begins. */
  lemma LaterBeginEndsInTime(head: string, machine: string, j: nat)
    requires OccursAt(Document(head, machine), STATE_BEGIN, j) && j > |head| + 1
    ensures |head| + 1 + |STATE_BEGIN| < j && j + |STATE_BEGIN| <= |head| + 1 + |STATE_BEGIN| + |machine| + 2
  {
    MarkersHaveNoBreaks();
    LaterBeginIsBehind(head, machine, j);
    hide STATE_BEGIN, STATE_END, Document, Behind;
    var i := j - (|head| + 1 + |STATE_BEGIN|);
    BeginIsNotBehind(machine, i);
    InTheMachineState(machine, STATE_BEGIN, i);
  }

  lemma CutByEnd(head: string, machine: string)
    requires !Contains(machine, STATE_BEGIN) && Contains(machine, STATE_END)
    ensures Extract(Document(head, machine)).Some?
    ensures |Extract(Document(head, machine)).value| < |machine|
  {
    MarkersHaveNoBreaks();
    BeginIsOurs(head, machine);
    LastBeginIsOurs(head, machine);
    hide STATE_BEGIN, STATE_END, Extract;
    var text, d := Document(head, machine), |head| + 1 + |STATE_BEGIN|;
    var i: nat :| i <= |machine| && OccursAt(machine, STATE_END, i);
    MachineOccurs(machine, STATE_END, i);
    ShiftOccurrence(text, STATE_END, d, i + 1);
    ExtractIsWithin(text, |head| + 1, d + i + 1);
  }

  /**
   The round trip, exactly: whatever the part for people says, reading ROADMAP.md yields the
   machine state that was rendered if and only if that state contains neither marker.
   */
  lemma RoadmapRoundTripIff(human: seq<string>, machine: string)
    requires machine != "" && Strip(machine) == machine
    ensures Extract(RenderRoadmap(human, machine)) == Some(machine)
            <==> !Contains(machine, STATE_BEGIN) && !Contains(machine, STATE_END)
  {
    var head := RenderedShape(human, machine);
    hide Extract, RenderRoadmap, Document, Contains, STATE_BEGIN, STATE_END;
    if !Contains(machine, STATE_BEGIN) && !Contains(machine, STATE_END) {
      ReadsBack(head, machine);
    } else if Contains(machine, STATE_BEGIN) {
      CutByBegin(head, machine);
    } else {
      CutByEnd(head, machine);
    }
  }
}
