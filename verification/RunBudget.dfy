/** The guarded session budget: how many prompts may be sent, and how that survives a restart. */
module RunBudget {
  import opened Wrappers

  /** As configured; zero stands for unset, as it does in the program. */
  datatype Config = Config(maxSession: int, maxHour: int, maxRuntimeMinutes: real, minInterval: real)

  function OrDefault(value: int, default: int): int {
    if value == 0 then default else value
  }

  function OrDefaultReal(value: real, default: real): real {
    if value == 0.0 then default else value
  }

  function MaxSession(config: Config): int {
    OrDefault(config.maxSession, 25)
  }

  function MaxHour(config: Config): int {
    OrDefault(config.maxHour, 20)
  }

  function MaxRuntimeMinutes(config: Config): real {
    OrDefaultReal(config.maxRuntimeMinutes, 90.0)
  }

  function MinInterval(config: Config): real {
    var v := OrDefaultReal(config.minInterval, 8.0);
    if v < 3.0 then 3.0 else v
  }

  const HOUR: real := 3600.0

  datatype Cooldown = Until(time: real) | Forever

  datatype Reason = NoReason | BlockedBy(text: string) | RuntimeReached | HourlyReached | SessionReached

  datatype Decision = Decision(allowed: bool, hard: bool, reason: Reason, delay: Option<real>)

  datatype State = State(
    providerId: string,
    sessionStartedAt: real,
    turnTimestamps: seq<real>,
    lastTurnAt: real,
    cooldownUntil: Cooldown,
    blockReason: string)

  function FreshState(providerId: string, now: real): State {
    State(if providerId == "" then "unknown" else providerId, now, [], 0.0, Until(0.0), "")
  }

  // ---- deciding ----

  /** The turns of the last hour: older ones are dropped by every decision. */
  function Recent(turns: seq<real>, now: real): seq<real> {
    if turns == [] then []
    else
      var rest := Recent(turns[..|turns| - 1], now);
      if now - turns[|turns| - 1] < HOUR then rest + [turns[|turns| - 1]] else rest
  }

  predicate CoolingDown(s: State, now: real) {
    s.cooldownUntil.Forever? || s.cooldownUntil.time > now
  }

  function Refusal(reason: Reason): Decision {
    Decision(false, true, reason, None)
  }

  function DecisionOf(s: State, now: real, config: Config): Decision {
    var turns := |Recent(s.turnTimestamps, now)|;
    if CoolingDown(s, now) then
      Refusal(BlockedBy(if s.blockReason == "" then "provider safety cooldown" else s.blockReason))
    else if (now - s.sessionStartedAt) / 60.0 >= MaxRuntimeMinutes(config) then Refusal(RuntimeReached)
    else if turns >= MaxHour(config) then Refusal(HourlyReached)
    else if turns >= MaxSession(config) then Refusal(SessionReached)
    else
      var wait := MinInterval(config) - (now - s.lastTurnAt);
      Decision(true, false, NoReason, Some(if s.lastTurnAt != 0.0 && wait > 0.0 then wait else 0.0))
  }

  function Pruned(s: State, now: real): State {
    s.(turnTimestamps := Recent(s.turnTimestamps, now))
  }

  function WithTurn(s: State, now: real): State {
    s.(turnTimestamps := s.turnTimestamps + [now], lastTurnAt := now)
  }

  // ---- export and restore ----

  datatype Payload = Payload(
    providerId: string,
    sessionStartedAt: real,
    turnTimestamps: seq<real>,
    lastTurnAt: real,
    cooldownUntil: Option<real>,
    manualBlock: bool,
    blockReason: string)

  function Export(s: State): Payload {
    var manual := s.cooldownUntil.Forever?;
    Payload(
      if s.providerId == "" then "unknown" else s.providerId,
      s.sessionStartedAt, s.turnTimestamps, s.lastTurnAt,
      if manual then None else Some(s.cooldownUntil.time),
      manual, s.blockReason)
  }

  function Restore(p: Payload, now: real): State {
    var cooldown := if p.cooldownUntil.Some? then p.cooldownUntil.value else 0.0;
    State(
      if p.providerId == "" then "unknown" else p.providerId,
      if p.sessionStartedAt <= 0.0 then now else p.sessionStartedAt,
      p.turnTimestamps, p.lastTurnAt,
      if p.manualBlock then Forever else Until(if cooldown < 0.0 then 0.0 else cooldown),
      p.blockReason)
  }

  /** Nobody can tell the restored budget from the exported one by asking it for decisions. */
  ghost predicate DecidesAlike(s: State, s': State, since: real) {
    forall now, config :: since <= now ==> DecisionOf(s, now, config) == DecisionOf(s', now, config)
  }

  lemma {:induction false} OldTurnsAreDropped(turns: seq<real>, now: real)
    requires forall i :: 0 <= i < |turns| ==> now - turns[i] >= HOUR
    ensures Recent(turns, now) == []
  {
    if turns != [] {
      OldTurnsAreDropped(turns[..|turns| - 1], now);
    }
  }

  /** A time by which every recorded turn is more than an hour old. */
  lemma {:induction false} LongAfter(turns: seq<real>, since: real) returns (now: real)
    ensures now >= since && Recent(turns, now) == []
    ensures forall i :: 0 <= i < |turns| ==> now - turns[i] >= HOUR
  {
    if turns == [] {
      now := since;
    } else {
      var earlier := LongAfter(turns[..|turns| - 1], since);
      var last := turns[|turns| - 1];
      now := if earlier - last >= HOUR then earlier else last + HOUR;
      forall i | 0 <= i < |turns| ensures now - turns[i] >= HOUR {
        if i < |turns| - 1 { assert turns[..|turns| - 1][i] == turns[i]; }
      }
      OldTurnsAreDropped(turns, now);
    }
  }

  /**
   Round trip through the store: the restored budget decides alike at every later time and
   under every configuration exactly if the session start was a proper one, or the block is
   manual and nothing but a reset will ever be allowed.
   */
  lemma RestoreDecidesAlikeIff(s: State, restoredAt: real)
    requires restoredAt > 0.0
    ensures DecidesAlike(s, Restore(Export(s), restoredAt), restoredAt)
            <==> s.sessionStartedAt > 0.0 || s.cooldownUntil.Forever?
  {
    var s' := Restore(Export(s), restoredAt);
    if s.sessionStartedAt > 0.0 || s.cooldownUntil.Forever? {
      forall now, config | restoredAt <= now ensures DecisionOf(s, now, config) == DecisionOf(s', now, config) {
        assert CoolingDown(s, now) == CoolingDown(s', now);
      }
    } else {
      var quiet := if s.cooldownUntil.time > restoredAt then s.cooldownUntil.time else restoredAt;
      var now := LongAfter(s.turnTimestamps, quiet);
      var minutes := (now - s.sessionStartedAt) / 60.0;
      var config := Config(1, 1, minutes, 8.0);
      assert minutes > 0.0;
      assert DecisionOf(s, now, config) == Refusal(RuntimeReached);
      assert DecisionOf(s', now, config).allowed;
    }
  }

  /**
   And field by field: a budget comes back exactly as it was if and only if its provider has
   a name, its session start is a proper one or the moment of the restart, and its cooldown
   does not end before time began.
   */
  lemma RoundTripIff(s: State, restoredAt: real)
    ensures Restore(Export(s), restoredAt) == s <==>
              && s.providerId != "" && (s.sessionStartedAt > 0.0 || s.sessionStartedAt == restoredAt)
              && (s.cooldownUntil.Forever? || s.cooldownUntil.time >= 0.0)
  {
  }

  /** Another provider begins a session of its own; the same one, or none, changes nothing. */
  function Switched(s: State, provider: string, now: real): State {
    if provider != "" && provider != s.providerId then FreshState(provider, now) else s
  }

  /** A restart with the provider the budget was for forgets no turn; with another one it forgets all. */
  lemma RestartKeepsTurnsIff(s: State, provider: string, restoredAt: real)
    requires s.providerId != "" && s.turnTimestamps != []
    ensures Switched(Restore(Export(s), restoredAt), provider, restoredAt).turnTimestamps ==
            if provider == "" || provider == s.providerId then s.turnTimestamps else []
  {
  }

  /** What it takes to be allowed. */
  lemma AllowedIff(s: State, now: real, config: Config)
    ensures DecisionOf(s, now, config).allowed <==>
              && s.cooldownUntil.Until? && s.cooldownUntil.time <= now
              && now - s.sessionStartedAt < 60.0 * (if config.maxRuntimeMinutes == 0.0 then 90.0 else config.maxRuntimeMinutes)
              && |Recent(s.turnTimestamps, now)| < (if config.maxHour == 0 then 20 else config.maxHour)
              && |Recent(s.turnTimestamps, now)| < (if config.maxSession == 0 then 25 else config.maxSession)
  {
  }

  /** The delay is the least that keeps the interval to the last prompt, of three seconds at least. */
  lemma DelayKeepsTheInterval(s: State, now: real, config: Config, wait: real)
    requires DecisionOf(s, now, config).allowed && wait >= 0.0
    ensures var delay := DecisionOf(s, now, config).delay;
            && delay.Some? && delay.value >= 0.0
            && (s.lastTurnAt == 0.0 ==> delay.value == 0.0)
            && (s.lastTurnAt != 0.0 ==>
                  (wait >= delay.value <==>
                    now + wait - s.lastTurnAt >= 3.0
                    && now + wait - s.lastTurnAt >= if config.minInterval == 0.0 then 8.0 else config.minInterval))
  {
  }

  // ---- the object ----

  class Budget {
    var providerId: string
    var sessionStartedAt: real
    var turnTimestamps: seq<real>
    var lastTurnAt: real
    var cooldownUntil: Cooldown
    var blockReason: string

    ghost function Contents(): State
      reads this
    {
      State(providerId, sessionStartedAt, turnTimestamps, lastTurnAt, cooldownUntil, blockReason)
    }

    constructor (now: real)
      ensures Contents() == FreshState("chatgpt", now)
    {
      providerId, sessionStartedAt, turnTimestamps := "chatgpt", now, [];
      lastTurnAt, cooldownUntil, blockReason := 0.0, Until(0.0), "";
    }

    method Reset(provider: string, now: real)
      modifies this
      ensures Contents() == FreshState(provider, now)
    {
      providerId := if provider == "" then "unknown" else provider;
      sessionStartedAt, turnTimestamps := now, [];
      lastTurnAt, cooldownUntil, blockReason := 0.0, Until(0.0), "";
    }

    /** Another provider starts from nothing; the same one, or none, changes nothing. */
    method SetProvider(provider: string, now: real)
      modifies this
      ensures Contents() == Switched(old(Contents()), provider, now)
    {
      if provider != "" && provider != providerId {
        Reset(provider, now);
      }
    }

    method Block(reason: string, seconds: Option<real>, now: real)
      modifies this
      ensures Contents() == old(Contents()).(
                blockReason := if reason == "" then "provider safety signal" else reason,
                cooldownUntil := if seconds.Some? && seconds.value != 0.0 then Until(now + seconds.value) else Forever)
      ensures seconds.None? ==> forall later, config :: !DecisionOf(Contents(), later, config).allowed
      ensures seconds.Some? && seconds.value != 0.0 ==>
                forall later, config :: later < now + seconds.value ==> !DecisionOf(Contents(), later, config).allowed
    {
      blockReason := if reason == "" then "provider safety signal" else reason;
      if seconds.Some? && seconds.value != 0.0 {
        cooldownUntil := Until(now + seconds.value);
      } else {
        cooldownUntil := Forever;
      }
    }

    method ExportState() returns (p: Payload)
      ensures p == Export(Contents())
    {
      var manual := cooldownUntil.Forever?;
      var cooldown := if manual then None else Some(cooldownUntil.time);
      p := Payload(if providerId == "" then "unknown" else providerId,
                   sessionStartedAt, turnTimestamps, lastTurnAt, cooldown, manual, blockReason);
    }

    method RestoreState(p: Payload, now: real)
      modifies this
      ensures Contents() == Restore(p, now)
    {
      providerId := if p.providerId == "" then "unknown" else p.providerId;
      sessionStartedAt := if p.sessionStartedAt <= 0.0 then now else p.sessionStartedAt;
      turnTimestamps, lastTurnAt := p.turnTimestamps, p.lastTurnAt;
      if p.manualBlock {
        cooldownUntil := Forever;
      } else {
        var cooldown := if p.cooldownUntil.Some? then p.cooldownUntil.value else 0.0;
        cooldownUntil := Until(if cooldown < 0.0 then 0.0 else cooldown);
      }
      blockReason := p.blockReason;
    }

    /** decision: drops what is older than an hour, then decides. */
    method Decide(now: real, config: Config) returns (d: Decision)
      modifies this
      ensures Contents() == Pruned(old(Contents()), now)
      ensures d == DecisionOf(old(Contents()), now, config)
      ensures d.allowed ==> |turnTimestamps| < MaxHour(config) && |turnTimestamps| < MaxSession(config)
    {
      var recent: seq<real> := [];
      for i := 0 to |turnTimestamps|
        invariant recent == Recent(turnTimestamps[..i], now)
      {
        assert turnTimestamps[..i + 1][..i] == turnTimestamps[..i];
        if now - turnTimestamps[i] < HOUR { recent := recent + [turnTimestamps[i]]; }
      }
      assert turnTimestamps[..|turnTimestamps|] == turnTimestamps;
      turnTimestamps := recent;
      if cooldownUntil.Forever? || cooldownUntil.time > now {
        return Refusal(BlockedBy(if blockReason == "" then "provider safety cooldown" else blockReason));
      }
      if (now - sessionStartedAt) / 60.0 >= MaxRuntimeMinutes(config) { return Refusal(RuntimeReached); }
      if |turnTimestamps| >= MaxHour(config) { return Refusal(HourlyReached); }
      if |turnTimestamps| >= MaxSession(config) { return Refusal(SessionReached); }
      var wait := 0.0;
      if lastTurnAt != 0.0 && MinInterval(config) - (now - lastTurnAt) > 0.0 {
        wait := MinInterval(config) - (now - lastTurnAt);
      }
      d := Decision(true, false, NoReason, Some(wait));
    }

    method RecordSend(now: real)
      modifies this
      ensures Contents() == WithTurn(old(Contents()), now)
    {
      lastTurnAt := now;
      turnTimestamps := turnTimestamps + [now];
    }
  }
}
