/**
 Combining the local risk of a command with the opinion of the language model.  How a
 command is classified locally is not modelled: any local decision may come in.
 */
module Policy {
  import opened Wrappers

  datatype Risk = R0 | R1 | R2 | R3 | R4

  datatype Level = Low | Approval | Blocked

  datatype Decision = Decision(level: Level, risk: Risk)

  datatype EffectiveRisk = EffectiveRisk(
    level: Level,
    risk: Risk,
    localRisk: Risk,
    llmRisk: Option<Risk>,
    escalatedByLlm: bool)

  const RISK_ORDER: seq<Risk> := [R0, R1, R2, R3, R4]

  function Rank(r: Risk): (rank: nat)
    ensures rank < |RISK_ORDER| && RISK_ORDER[rank] == r
  {
    match r
    case R0 => 0
    case R1 => 1
    case R2 => 2
    case R3 => 3
    case R4 => 4
  }

  /** Severity of a level: blocked is above approval, which is above low. */
  function Severity(level: Level): nat {
    match level
    case Low => 0
    case Approval => 1
    case Blocked => 2
  }

  function MergeRisk(local: Decision, llm: Option<Risk>): EffectiveRisk {
    var localRank := Rank(local.risk);
    var llmRank := if llm.Some? then Rank(llm.value) else -1;
    var rank := if llmRank > localRank then llmRank else localRank;
    var risk := RISK_ORDER[rank];
    var level :=
      if local.level == Blocked || risk == R4 then Blocked
      else if local.level == Approval || rank >= Rank(R2) then Approval
      else Low;
    EffectiveRisk(level, risk, local.risk, llm, llm.Some? && llmRank > localRank)
  }

  predicate RequiresCheckpoint(risk: Risk) {
    risk == R2 || risk == R3
  }

  /** The merged risk is the least one that is at least as severe as both opinions. */
  lemma MergedRiskIsLeastUpperBound(local: Decision, llm: Option<Risk>, bound: Risk)
    ensures var merged := Rank(MergeRisk(local, llm).risk);
            merged <= Rank(bound) <==>
              Rank(local.risk) <= Rank(bound) && (llm.Some? ==> Rank(llm.value) <= Rank(bound))
    ensures MergeRisk(local, llm).escalatedByLlm <==> Rank(MergeRisk(local, llm).risk) > Rank(local.risk)
    ensures MergeRisk(local, llm).localRisk == local.risk && MergeRisk(local, llm).llmRisk == llm
  {
    assert forall r, r' :: Rank(r) == Rank(r') ==> r == r';
  }

  /** The merged level is the least one at least as severe as the local level and as the merged risk demands. */
  lemma MergedLevelIsLeastUpperBound(local: Decision, llm: Option<Risk>, bound: Level)
    ensures var merged := MergeRisk(local, llm);
            Severity(merged.level) <= Severity(bound) <==>
              && Severity(local.level) <= Severity(bound)
              && (Rank(merged.risk) >= Rank(R2) ==> bound != Low)
              && (Rank(merged.risk) >= Rank(R4) ==> bound == Blocked)
  {
    var merged := MergeRisk(local, llm);
    assert merged.risk == R4 <==> Rank(merged.risk) >= Rank(R4);
  }

  /** Protection begins with R2, and ends where nothing runs at all. */
  lemma ProtectionIsByRank(risk: Risk)
    ensures RequiresCheckpoint(risk) <==> Rank(R2) <= Rank(risk) < Rank(R4)
  {
  }

  /** An opinion can only tighten: a more severe one never yields a laxer level or risk. */
  lemma OpinionsOnlyTighten(local: Decision, weaker: Option<Risk>, stronger: Option<Risk>)
    requires weaker.Some? ==> stronger.Some? && Rank(weaker.value) <= Rank(stronger.value)
    ensures Severity(MergeRisk(local, weaker).level) <= Severity(MergeRisk(local, stronger).level)
    ensures Rank(MergeRisk(local, weaker).risk) <= Rank(MergeRisk(local, stronger).risk)
    ensures Severity(local.level) <= Severity(MergeRisk(local, stronger).level)
  {
    var weak := Rank(MergeRisk(local, weaker).risk);
    var strong := Rank(MergeRisk(local, stronger).risk);
    assert weak <= strong;
  }

  /**
   A command of risk R2 or more never runs without a human decision; one that is not blocked
   needs a checkpoint exactly from R2 on.
   */
  lemma CheckpointedCommandsAreGated(local: Decision, llm: Option<Risk>)
    ensures var merged := MergeRisk(local, llm);
            && (Rank(merged.risk) >= Rank(R2) ==> merged.level != Low)
            && (Rank(merged.risk) >= Rank(R4) ==> merged.level == Blocked)
            && (merged.level != Blocked ==> (RequiresCheckpoint(merged.risk) <==> Rank(merged.risk) >= Rank(R2)))
  {
    MergedLevelIsLeastUpperBound(local, llm, Low);
    MergedLevelIsLeastUpperBound(local, llm, Approval);
    ProtectionIsByRank(MergeRisk(local, llm).risk);
  }

  // ---- what runs without being asked ----

  /** One command as the loop meets it: its local decision, the opinion, and how it will end. */
  datatype Step = Step(local: Decision, llm: Option<Risk>, succeeds: bool)

  predicate RunsUnasked(s: Step, autoRunLowRisk: bool) {
    MergeRisk(s.local, s.llm).level == Low && autoRunLowRisk
  }

  /** How many commands of a contract run before the loop first stops. */
  function RunUnasked(steps: seq<Step>, autoRunLowRisk: bool): nat {
    if steps == [] || !RunsUnasked(steps[0], autoRunLowRisk) then 0
    else if !steps[0].succeeds then 1
    else 1 + RunUnasked(steps[1..], autoRunLowRisk)
  }

  /** And how many run when the first one has been approved, and can be protected or not. */
  function RunApproved(steps: seq<Step>, canProtect: bool, autoRunLowRisk: bool): nat {
    if steps == [] || MergeRisk(steps[0].local, steps[0].llm).level == Blocked || !canProtect then 0
    else if !steps[0].succeeds then 1
    else 1 + RunUnasked(steps[1..], autoRunLowRisk)
  }

  /**
   Over whole contracts: what runs unasked with the opinions is a prefix of what would run
   unasked without them.
   */
  lemma {:induction false} OpinionsShortenTheUnaskedPrefix(steps: seq<Step>, without: seq<Step>, auto: bool)
    requires |steps| == |without|
    requires forall i :: 0 <= i < |steps| ==> without[i] == steps[i].(llm := None)
    ensures RunUnasked(steps, auto) <= RunUnasked(without, auto)
  {
    if steps != [] {
      OpinionsOnlyTighten(steps[0].local, None, steps[0].llm);
      OpinionsShortenTheUnaskedPrefix(steps[1..], without[1..], auto);
    }
  }
}
