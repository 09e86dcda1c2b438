/**
 The two files under the control directory: the roadmap, replaced as a whole, and the
 history, which only grows.  The roadmap is always written first.
 */
module ProjectFiles {
  import opened Wrappers
  import opened ProjectState

  const HISTORY_HEADER: string :=
    "# AI Workflow History\n\nAppend-only project lifecycle history managed by AI Workflow Bridge.\n\n"

  function JoinLines(lines: seq<string>): string {
    if lines == [] then ""
    else if |lines| == 1 then lines[0]
    else lines[0] + "\n" + JoinLines(lines[1..])
  }

  function Bullets(lines: seq<string>): seq<string> {
    seq(|lines|, i requires 0 <= i < |lines| => "- " + lines[i])
  }

  predicate EndsLine(text: string) {
    text != "" && text[|text| - 1] == '\n'
  }

  function WithEntry(text: string, stamp: string, lines: seq<string>): (longer: string)
    ensures text <= longer && EndsLine(longer)
  {
    var closed := if text != "" && !EndsLine(text) then text + "\n" else text;
    closed + JoinLines(["## " + stamp] + Bullets(lines) + [""]) + "\n"
  }

  // ---- what the history says ----

  /** One line for each thing that happened. */
  function Listed(lines: seq<string>): string {
    if lines == [] then "" else "- " + lines[0] + "\n" + Listed(lines[1..])
  }

  /** An entry: its time, its lines, and an empty line. */
  function Entry(stamp: string, lines: seq<string>): string {
    "## " + stamp + "\n" + Listed(lines) + "\n"
  }

  lemma JoinLinesHead(first: string, rest: seq<string>)
    ensures JoinLines([first] + rest) == if rest == [] then first else first + "\n" + JoinLines(rest)
  {
    assert ([first] + rest)[1..] == rest;
  }

  lemma {:induction false} BulletsAreListed(lines: seq<string>)
    ensures JoinLines(Bullets(lines) + [""]) == Listed(lines)
  {
    hide JoinLines;
    if lines == [] {
      JoinLinesHead("", []);
      assert Bullets(lines) + [""] == [""] + [];
    } else {
      var rest := lines[1..];
      BulletsAreListed(rest);
      assert Bullets(lines) + [""] == ["- " + lines[0]] + (Bullets(rest) + [""]);
      JoinLinesHead("- " + lines[0], Bullets(rest) + [""]);
    }
  }

  /** Appending closes an open line, if there is one, and adds exactly one entry. */
  lemma EntryIsAppended(text: string, stamp: string, lines: seq<string>)
    ensures WithEntry(text, stamp, lines) ==
            (if text == "" || EndsLine(text) then text else text + "\n") + Entry(stamp, lines)
  {
    var closed := if text == "" || EndsLine(text) then text else text + "\n";
    BulletsAreListed(lines);
    JoinLinesHead("## " + stamp, Bullets(lines) + [""]);
    assert ["## " + stamp] + (Bullets(lines) + [""]) == ["## " + stamp] + Bullets(lines) + [""];
    hide Listed, JoinLines, Bullets;
    var body := "## " + stamp + "\n" + Listed(lines);
    assert closed + body + "\n" == closed + (body + "\n");
  }

  datatype Happening = Happening(stamp: string, lines: seq<string>)

  function HistoryOf(happenings: seq<Happening>): string {
    if happenings == [] then HISTORY_HEADER
    else
      var last := happenings[|happenings| - 1];
      WithEntry(HistoryOf(happenings[..|happenings| - 1]), last.stamp, last.lines)
  }

  function EntriesOf(happenings: seq<Happening>): string {
    if happenings == [] then ""
    else
      var last := happenings[|happenings| - 1];
      EntriesOf(happenings[..|happenings| - 1]) + Entry(last.stamp, last.lines)
  }

  /** So the history is its header and then what happened, entry after entry, and nothing else. */
  lemma {:induction false} HistoryIsALog(happenings: seq<Happening>)
    ensures HistoryOf(happenings) == HISTORY_HEADER + EntriesOf(happenings) && EndsLine(HistoryOf(happenings))
  {
    hide WithEntry, Entry;
    if happenings != [] {
      var init, last := happenings[..|happenings| - 1], happenings[|happenings| - 1];
      HistoryIsALog(init);
      EntryIsAppended(HistoryOf(init), last.stamp, last.lines);
      assert HISTORY_HEADER + EntriesOf(init) + Entry(last.stamp, last.lines) ==
             HISTORY_HEADER + (EntriesOf(init) + Entry(last.stamp, last.lines));
    }
  }

  function Label(p: Position): string {
    if p.stage == "" then p.phase else p.phase + " / " + p.stage
  }

  lemma LabelHasSlashIff(p: Position)
    requires '/' !in p.phase
    ensures p.stage != "" ==> |Label(p)| > |p.phase| + 1 && Label(p)[|p.phase| + 1] == '/'
    ensures p.stage != "" ==> forall k :: 0 <= k <= |p.phase| ==> Label(p)[k] != '/'
    ensures '/' in Label(p) <==> p.stage != ""
  {
    if p.stage != "" {
      assert Label(p) == (p.phase + " ") + ("/" + (" " + p.stage));
      assert Label(p)[..|p.phase| + 1] == p.phase + " ";
    }
  }

  /** A label says which position is meant, unless a phase has a slash in its id. */
  lemma LabelsDiffer(p: Position, q: Position)
    requires '/' !in p.phase && '/' !in q.phase && Label(p) == Label(q)
    ensures p == q
  {
    LabelHasSlashIff(p);
    LabelHasSlashIff(q);
    if p.stage != "" {
      var s, m := Label(p), |p.phase|;
      assert |q.phase| == m;
      assert s[..m] == p.phase && s[m + 3..] == p.stage;
      assert s[..m] == q.phase && s[m + 3..] == q.stage;
    }
  }

  /** What a crash may leave behind: the roadmap as decoded, and the text of the history. */
  datatype Files = Files(roadmap: Option<State>, history: Option<string>)

  /** The history with one entry more; it begins with its header. */
  function Extended(history: Option<string>, stamp: string, lines: seq<string>): string {
    WithEntry(if history.Some? then history.value else HISTORY_HEADER, stamp, lines)
  }

  function CompletedLine(p: Position): string {
    "Completed `" + Label(p) + "`."
  }

  function StartedLine(p: Position): string {
    "Started `" + Label(p) + "`."
  }

  class ControlDirectory {
    var roadmap: Option<State>
    var history: Option<string>
    ghost var trail: seq<Files>

    ghost function Now(): Files
      reads this
    {
      Files(roadmap, history)
    }

    constructor ()
      ensures roadmap == None && history == None && trail == [Now()]
    {
      roadmap, history, trail := None, None, [Files(None, None)];
    }

    /** _write_state: an atomic replacement. */
    method WriteState(s: State)
      modifies this
      ensures roadmap == Some(s) && history == old(history) && trail == old(trail) + [Now()]
    {
      roadmap := Some(s);
      trail := trail + [Now()];
    }

    method AppendHistory(stamp: string, lines: seq<string>)
      modifies this
      ensures roadmap == old(roadmap) && trail == old(trail) + [Now()]
      ensures history == Some(Extended(old(history), stamp, lines))
    {
      var text := HISTORY_HEADER;
      if history.Some? { text := history.value; }
      if text != "" && text[|text| - 1] != '\n' { text := text + "\n"; }
      var entry: seq<string> := ["## " + stamp];
      for i := 0 to |lines|
        invariant entry == ["## " + stamp] + Bullets(lines)[..i]
      {
        entry := entry + ["- " + lines[i]];
      }
      assert entry == ["## " + stamp] + Bullets(lines);
      history := Some(text + JoinLines(entry + [""]) + "\n");
      trail := trail + [Now()];
    }

    /** A write, then an entry: at every moment the roadmap is the old one or the new one. */
    method Commit(s: State, stamp: string, lines: seq<string>)
      modifies this
      ensures roadmap == Some(s) && history == Some(Extended(old(history), stamp, lines))
      ensures old(history).Some? ==> old(history).value <= history.value
      ensures trail == old(trail) + [Files(Some(s), old(history)), Now()]
    {
      WriteState(s);
      AppendHistory(stamp, lines);
    }

    /** Called when there is no roadmap yet. */
    method InitializeProjectState(phases: seq<Phase>, preferred: Position, stamp: string, reason: string)
      returns (r: Result<State, Error>)
      requires roadmap.None?
      modifies this
      ensures r == Outcome(old(roadmap), Initialize(phases, preferred))
      ensures roadmap == After(old(roadmap), Initialize(phases, preferred))
      ensures old(history).Some? ==> history.Some? && old(history).value <= history.value
      ensures r.Success? ==> trail == old(trail) + [Files(roadmap, old(history)), Now()]
      ensures r.Success? ==>
                var lines := ["Roadmap initialized: " + reason + ".", StartedLine(roadmap.value.current.value)];
                history == Some(Extended(old(history), stamp, lines))
      ensures r.Failure? ==> Now() == old(Now()) && trail == old(trail)
    {
      hide Positions, Label, WithEntry;
      var positions := Positions(phases);
      if positions == [] { return Failure(NoPositions); }
      var current := positions[0];
      if preferred.phase != "" && preferred in positions { current := preferred; }
      var s := State(1, Active, phases, Some(current), []);
      Commit(s, stamp, ["Roadmap initialized: " + reason + ".", StartedLine(current)]);
      r := Success(s);
    }

    method AdvanceProjectState(target: Position, stamp: string) returns (r: Result<State, Error>)
      modifies this
      ensures r == Outcome(old(roadmap), Advance(target))
      ensures roadmap == After(old(roadmap), Advance(target))
      ensures old(history).Some? ==> history.Some? && old(history).value <= history.value
      ensures roadmap == old(roadmap) ==> Now() == old(Now()) && trail == old(trail)
      ensures roadmap != old(roadmap) ==> trail == old(trail) + [Files(roadmap, old(history)), Now()]
      ensures roadmap != old(roadmap) ==>
                && old(roadmap).Some? && old(roadmap).value.current.Some?
                && var left, entered := old(roadmap).value.current.value, roadmap.value.current.value;
                history == Some(Extended(old(history), stamp, [CompletedLine(left), StartedLine(entered)]))
    {
      hide Positions, CompletedPairs, IndexOf, WithEntry, Label;
      if roadmap.None? { return Failure(NotInitialized); }
      var s := roadmap.value;
      var positions := Positions(s.roadmap);
      if s.current.None? || s.current.value !in positions { return Failure(InvalidCurrent); }
      var current := s.current.value;
      if target == current { return Success(s); }
      var i := IndexOf(positions, current);
      if !(i + 1 < |positions| && positions[i + 1] == target) { return Failure(NotTheNextPosition); }
      var completed := CompletedPairs(s.completed);
      if current !in completed { completed := completed + [current]; }
      var next := s.(completed := completed, current := Some(target), status := Active, revision := s.revision + 1);
      Commit(next, stamp, [CompletedLine(current), StartedLine(target)]);
      r := Success(next);
    }

    method CompleteProjectState(stamp: string) returns (r: Result<State, Error>)
      modifies this
      ensures r == Outcome(old(roadmap), Finish)
      ensures roadmap == After(old(roadmap), Finish)
      ensures old(history).Some? ==> history.Some? && old(history).value <= history.value
      ensures r.Failure? ==> Now() == old(Now()) && trail == old(trail)
      ensures r.Success? ==> trail == old(trail) + [Files(roadmap, old(history)), Now()]
      ensures r.Success? ==>
                var left := old(roadmap).value.current;
                var lines := if left.Some? then [CompletedLine(left.value)] else [];
                history == Some(Extended(old(history), stamp, lines + ["Project marked complete after guarded closeout."]))
    {
      hide Label, WithEntry;
      if roadmap.None? { return Failure(NotInitialized); }
      var s := roadmap.value;
      var completed := CompletedPairs(s.completed);
      var lines: seq<string> := [];
      if s.current.Some? {
        if s.current.value !in completed { completed := completed + [s.current.value]; }
        lines := [CompletedLine(s.current.value)];
      }
      var done := s.(completed := completed, current := None, status := Complete, revision := s.revision + 1);
      Commit(done, stamp, lines + ["Project marked complete after guarded closeout."]);
      r := Success(done);
    }

    method ApplyCourseChange(replacement: seq<Phase>, proposed: Position, stamp: string, summary: string)
      returns (r: Result<State, Error>)
      modifies this
      ensures r == Outcome(old(roadmap), ChangeCourse(replacement, proposed))
      ensures roadmap == After(old(roadmap), ChangeCourse(replacement, proposed))
      ensures old(history).Some? ==> history.Some? && old(history).value <= history.value
      ensures r.Failure? ==> Now() == old(Now()) && trail == old(trail)
      ensures r.Success? ==> trail == old(trail) + [Files(roadmap, old(history)), Now()]
      ensures r.Success? && old(roadmap).Some? ==>
                var now := Label(roadmap.value.current.value);
                var lines := ["Course change approved: " + summary + ".", "Current roadmap position is `" + now + "`."];
                history == Some(Extended(old(history), stamp, lines))
    {
      hide Positions, CompletedPairs, Those, FirstNotIn, WithEntry, Label;
      if roadmap.None? {
        if replacement == [] { return Failure(NotInitialized); }
        r := InitializeProjectState(replacement, proposed, stamp, summary);
        return;
      }
      var s := roadmap.value;
      var phases := if replacement == [] then s.roadmap else replacement;
      var positions := Positions(phases);
      if positions == [] { return Failure(NoPositions); }
      var completed := Those(CompletedPairs(s.completed), positions);
      var current := FirstNotIn(positions, completed, positions[0]);
      if proposed.phase != "" && proposed in positions {
        current := proposed;
      } else if s.current.Some? && s.current.value in positions && s.current.value !in completed {
        current := s.current.value;
      }
      var changed := s.(roadmap := phases, completed := completed, current := Some(current), status := Active,
                        revision := s.revision + 1);
      Commit(changed, stamp,
             ["Course change approved: " + summary + ".", "Current roadmap position is `" + Label(current) + "`."]);
      r := Success(changed);
    }
  }
}
