/**
 Bounded recovery from responses that break the workflow protocol.  Responses are handled one
 at a time, under the lock; everything else that touches the fields, and the messages that
 reset the counter, may come in between any two of its steps.
 */
module ProtocolRecovery {
  import opened HostState

  const RECOVERABLE: set<Activity> := {
    Activity.WaitingLlm, Activity.WaitingChatgpt, Activity.Reporting, Activity.Recovering, Activity.Arming,
    Activity.Finishing
  }

  const MAX_RECOVERIES: nat := 2

  /** How far the handling of a malformed response has come. */
  datatype Pc =
    | Idle
    | Granting               // the guard has been passed
    | Bumping(read: nat)     // the counter has been read, and will be written
    | Asking                 // the prompt is about to be requested

  /** What becomes of a prompt that is requested. */
  datatype Sending = Guarded | Exhausted | CoolsDown | Dispatched

  /**
   granted are the recovery prompts paid for since the counter was last reset, requested those
   that were handed to the sender since then.  torn says that the last reset fell between the
   reading and the writing of the counter, late that it fell between a grant and its request.
   */
  datatype State = State(
    status: Activity, lifecycle: Lifecycle, paused: bool, counter: nat, pc: Pc, granted: nat, requested: nat, torn: bool, late: bool)

  datatype Action =
    | SetFields(status: Activity, lifecycle: Lifecycle, paused: bool)   // anything else
    | Reset                  // a message that starts a new conversation turn, a contract, a closing marker
    | Restart
    | Receive                // a response without a valid protocol
    | ReadCounter
    | WriteCounter
    | Request(sending: Sending)

  predicate Initial(s: State) {
    s == State(Activity.Idle, Lifecycle.Setup, false, 0, Pc.Idle, 0, 0, false, false)
  }

  predicate Enabled(s: State, a: Action) {
    match a
    case SetFields(_, _, _) => true
    case Reset => true
    case Restart => true
    case Receive => s.pc.Idle?
    case ReadCounter => s.pc.Granting?
    case WriteCounter => s.pc.Bumping?
    case Request(_) => s.pc.Asking?
  }

  /** The response is one that a pending automated step was waiting for. */
  predicate IsHeard(s: State) {
    !s.paused && s.status in RECOVERABLE
  }

  function AfterBlock(s: State): State {
    s.(status := Activity.ProtocolBlocked, lifecycle := Lifecycle.ProtocolBlocked, paused := true)
  }

  function Apply(s: State, a: Action): State
    requires Enabled(s, a)
  {
    match a
    case SetFields(status, lifecycle, paused) => s.(status := status, lifecycle := lifecycle, paused := paused)
    case Reset => s.(counter := 0, granted := 0, requested := 0, torn := s.pc.Bumping?, late := s.pc.Asking?)
    case Restart => State(s.status, s.lifecycle, s.paused, 0, Pc.Idle, 0, 0, false, false)
    case Receive =>
      if !IsHeard(s) then s
      else if s.counter < MAX_RECOVERIES then s.(pc := Granting)
      else AfterBlock(s)
    case ReadCounter => s.(pc := Bumping(s.counter))
    case WriteCounter =>
      s.(counter := s.pc.read + 1, granted := s.granted + 1, status := Activity.Recovering, pc := Asking)
    case Request(sending) =>
      var asked := s.(pc := Pc.Idle, requested := s.requested + 1);
      match sending
      case Guarded => asked
      case Exhausted =>
        asked.(paused := true, lifecycle := Lifecycle.BudgetExhausted, status := Activity.BudgetExhausted)
      case CoolsDown => asked.(status := Activity.Cooldown)
      case Dispatched => asked
  }

  ghost predicate IsRun(trail: seq<State>) {
    && trail != [] && Initial(trail[0])
    && forall i :: 0 <= i < |trail| - 1 ==> StepAt(trail, i)
  }

  ghost predicate StepAt(trail: seq<State>, i: nat)
    requires i < |trail| - 1
  {
    exists a :: Enabled(trail[i], a) && trail[i + 1] == Apply(trail[i], a)
  }

  // ---- what every step keeps ----

  /** What the counter and the two ghost counts have to do with each other. */
  predicate Inv(s: State) {
    && s.granted <= s.counter <= MAX_RECOVERIES && s.counter <= s.granted + (if s.torn then 1 else 0)
    && (s.pc.Granting? ==> s.counter < MAX_RECOVERIES)
    && (s.pc.Bumping? ==>
          && s.pc.read < MAX_RECOVERIES
          && (s.counter == s.pc.read || (s.torn && s.counter == 0 && s.granted == 0)))
    && s.requested + (if s.pc.Asking? then 1 else 0) == s.granted + (if s.late then 1 else 0)
  }

  lemma StepKeeps(s: State, a: Action)
    requires Inv(s) && Enabled(s, a)
    ensures Inv(Apply(s, a))
  {
  }

  lemma {:induction false} RunKeeps(trail: seq<State>, n: nat)
    requires IsRun(trail) && n < |trail|
    ensures Inv(trail[n])
  {
    hide Enabled, Apply;
    if n > 0 {
      hide Inv, Initial;
      RunKeeps(trail, n - 1);
      assert StepAt(trail, n - 1);
      var a :| Enabled(trail[n - 1], a) && trail[n] == Apply(trail[n - 1], a);
      StepKeeps(trail[n - 1], a);
    }
  }

  // ---- the main results ----

  /**
   The bound: whatever happens in between, at most two recovery prompts are granted between
   two resets of the counter, and at most three requested.  The third is one that was granted
   before the reset and requested after it.
   */
  lemma RecoveryIsBounded(trail: seq<State>, n: nat)
    requires IsRun(trail) && n < |trail|
    ensures trail[n].granted <= MAX_RECOVERIES
    ensures trail[n].requested <= MAX_RECOVERIES + if trail[n].late then 1 else 0
  {
    hide IsRun;
    RunKeeps(trail, n);
  }

  predicate IsBlocked(s: State) {
    s.paused && s.status == Activity.ProtocolBlocked && s.lifecycle == Lifecycle.ProtocolBlocked
  }

  /**
   Exactly when a malformed response blocks: it is heard, and the counter is used up.  That
   is, two prompts have been granted since the counter was reset, or one and the reset fell
   into the counting of it.  A response that is not heard changes nothing at all.
   */
  lemma BlocksIff(trail: seq<State>, n: nat)
    requires IsRun(trail) && n + 1 < |trail| && Enabled(trail[n], Receive) && trail[n + 1] == Apply(trail[n], Receive)
    requires !IsBlocked(trail[n])
    ensures IsBlocked(trail[n + 1]) <==> IsHeard(trail[n]) && trail[n].counter == MAX_RECOVERIES
    ensures IsHeard(trail[n]) && trail[n].counter < MAX_RECOVERIES <==> trail[n + 1].pc.Granting?
    ensures !IsHeard(trail[n]) ==> trail[n + 1] == trail[n]
    ensures IsHeard(trail[n]) <==>
              var status := trail[n].status;
              !trail[n].paused
              && (status.WaitingLlm? || status.WaitingChatgpt? || status.Reporting? || status.Recovering?
                  || status.Arming? || status.Finishing?)
    ensures trail[n].counter == trail[n].granted || (trail[n].torn && trail[n].counter == trail[n].granted + 1)
  {
    hide IsRun;
    RunKeeps(trail, n);
  }

  /** While the run is paused nothing is granted: a block lasts until somebody lifts the pause. */
  lemma {:induction false} BlockLasts(trail: seq<State>, n: nat, later: nat)
    requires IsRun(trail) && n <= later < |trail| && trail[n].pc.Idle?
    requires forall k: nat :: n <= k <= later ==> trail[k].paused
    ensures trail[later].pc.Idle? && trail[later].granted <= trail[n].granted && trail[later].requested <= trail[n].requested
  {
    if n < later {
      BlockLasts(trail, n, later - 1);
      assert StepAt(trail, later - 1);
      hide IsRun;
      var a :| Enabled(trail[later - 1], a) && trail[later] == Apply(trail[later - 1], a);
    }
  }

  // ---- runs ----

  lemma OneStepMore(trail: seq<State>, a: Action) returns (longer: seq<State>)
    requires IsRun(trail) && Enabled(trail[|trail| - 1], a)
    ensures IsRun(longer) && longer == trail + [Apply(trail[|trail| - 1], a)]
  {
    hide Initial, Enabled, Apply;
    longer := trail + [Apply(trail[|trail| - 1], a)];
    forall i | 0 <= i < |longer| - 1 ensures StepAt(longer, i) {
      if i < |trail| - 1 {
        assert StepAt(trail, i);
        assert longer[i] == trail[i] && longer[i + 1] == trail[i + 1];
      } else {
        assert longer[i] == trail[|trail| - 1];
        assert Enabled(longer[i], a) && longer[i + 1] == Apply(longer[i], a);
      }
    }
  }

  /** One malformed response that is heard and answered, and the prompt meets the given fate. */
  lemma Answered(trail: seq<State>, sending: Sending) returns (longer: seq<State>)
    requires IsRun(trail)
    requires var s := trail[|trail| - 1]; s.pc.Idle? && IsHeard(s) && s.counter < MAX_RECOVERIES
    ensures IsRun(longer) && |longer| > |trail|
    ensures var s := trail[|trail| - 1];
            longer[|longer| - 1] ==
            Apply(s.(counter := s.counter + 1, granted := s.granted + 1, status := Activity.Recovering, pc := Asking),
                  Request(sending))
  {
    hide IsRun;
    longer := OneStepMore(trail, Receive);
    longer := OneStepMore(longer, ReadCounter);
    longer := OneStepMore(longer, WriteCounter);
    longer := OneStepMore(longer, Request(sending));
  }

  const START := State(Activity.Idle, Lifecycle.Setup, false, 0, Pc.Idle, 0, 0, false, false)

  const WAITING := State(Activity.WaitingLlm, Lifecycle.Running, false, 0, Pc.Idle, 0, 0, false, false)

  lemma Waiting() returns (trail: seq<State>)
    ensures IsRun(trail) && trail[|trail| - 1] == WAITING
  {
    trail := OneStepMore([START], SetFields(Activity.WaitingLlm, Lifecycle.Running, false));
  }

  /** When each prompt goes out at once, the third failure blocks. */
  lemma ThirdFailureBlocks() returns (trail: seq<State>)
    ensures IsRun(trail)
    ensures var s := trail[|trail| - 1]; IsBlocked(s) && s.granted == 2 && s.requested == 2
  {
    hide IsRun;
    trail := Waiting();
    trail := Answered(trail, Dispatched);
    trail := Answered(trail, Dispatched);
    trail := OneStepMore(trail, Receive);
  }

  /** When the second prompt has to wait, the third failure does not block: it is not even heard. */
  lemma ThirdFailureIsIgnored() returns (trail: seq<State>)
    ensures IsRun(trail) && |trail| >= 2
    ensures var s := trail[|trail| - 2];
            && s.granted == 2 && s.status == Activity.Cooldown && !s.paused && s.lifecycle == Lifecycle.Running
            && Enabled(s, Receive) && Apply(s, Receive) == s && trail[|trail| - 1] == s
  {
    hide IsRun;
    trail := Waiting();
    trail := Answered(trail, Dispatched);
    trail := Answered(trail, CoolsDown);
    trail := OneStepMore(trail, Receive);
  }

  /** A reset between a grant and its request: three prompts are requested after it. */
  lemma ThreePromptsAfterOneReset() returns (trail: seq<State>)
    ensures IsRun(trail) && trail[|trail| - 1].requested == 3
  {
    hide IsRun;
    trail := Waiting();
    trail := OneStepMore(trail, Receive);
    trail := OneStepMore(trail, ReadCounter);
    trail := OneStepMore(trail, WriteCounter);
    trail := OneStepMore(trail, Reset);
    trail := OneStepMore(trail, Request(Dispatched));
    trail := Answered(trail, Dispatched);
    trail := Answered(trail, Dispatched);
  }

  /** A reset in the middle of the counting: the next failure but one blocks after a single prompt. */
  lemma OnePromptAfterTornReset() returns (trail: seq<State>)
    ensures IsRun(trail)
    ensures var s := trail[|trail| - 1]; IsBlocked(s) && s.granted == 1 && s.requested == 1
  {
    hide IsRun;
    trail := Waiting();
    trail := Answered(trail, Dispatched);
    trail := OneStepMore(trail, Receive);
    trail := OneStepMore(trail, ReadCounter);
    trail := OneStepMore(trail, Reset);
    trail := OneStepMore(trail, WriteCounter);
    trail := OneStepMore(trail, Request(Dispatched));
    trail := OneStepMore(trail, Receive);
  }

  lemma CounterFits(trail: seq<State>)
    requires IsRun(trail)
    ensures Inv(trail[|trail| - 1])
  {
    RunKeeps(trail, |trail| - 1);
  }

  // ---- the object ----

  class ProtocolGuard {
    var status: Activity
    var lifecycle: Lifecycle
    var paused: bool
    var noContractRecoveries: nat
    ghost var pc: Pc
    ghost var granted: nat
    ghost var requested: nat
    ghost var torn: bool
    ghost var late: bool
    ghost var trail: seq<State>

    ghost function Now(): State
      reads this
    {
      State(status, lifecycle, paused, noContractRecoveries, pc, granted, requested, torn, late)
    }

    ghost predicate Valid()
      reads this
    {
      IsRun(trail) && trail[|trail| - 1] == Now()
    }

    /** The fields already hold what the step a leads to. */
    ghost method Step(a: Action)
      requires IsRun(trail) && Enabled(trail[|trail| - 1], a)
      requires var s := Apply(trail[|trail| - 1], a);
               s.status == status && s.lifecycle == lifecycle && s.paused == paused && s.counter == noContractRecoveries
      modifies this`pc, this`granted, this`requested, this`torn, this`late, this`trail
      ensures Valid() && old(trail) <= trail && Now() == Apply(old(trail[|trail| - 1]), a)
    {
      hide Initial, StepAt, Enabled, Apply;
      ghost var s := Apply(trail[|trail| - 1], a);
      trail := OneStepMore(trail, a);
      pc, granted, requested, torn, late := s.pc, s.granted, s.requested, s.torn, s.late;
    }

    /** A malformed response, when nothing comes in between; false means that no step was pending. */
    method RecoverProtocolFailure(sending: Sending) returns (handled: bool)
      requires Valid() && pc.Idle?
      modifies this
      ensures Valid() && old(trail) <= trail && pc.Idle?
      ensures handled <==> old(IsHeard(Now()))
      ensures !handled ==> Now() == old(Now())
      ensures handled && old(noContractRecoveries) == MAX_RECOVERIES ==> Now() == AfterBlock(old(Now()))
      ensures handled && old(noContractRecoveries) != MAX_RECOVERIES ==>
                && noContractRecoveries == old(noContractRecoveries) + 1
                && granted == old(granted) + 1 && requested == old(requested) + 1
                && status == (match sending
                              case Exhausted => Activity.BudgetExhausted
                              case CoolsDown => Activity.Cooldown
                              case _ => Activity.Recovering)
                && paused == sending.Exhausted?
    {
      hide IsRun;
      CounterFits(trail);
      handled := !paused && status in RECOVERABLE;
      if !handled {
        Step(Receive);
      } else if noContractRecoveries < MAX_RECOVERIES {
        AnswerFailure(sending);
      } else {
        status, lifecycle, paused := Activity.ProtocolBlocked, Lifecycle.ProtocolBlocked, true;
        Step(Receive);
      }
    }

    method AnswerFailure(sending: Sending)
      requires Valid() && pc.Idle? && IsHeard(Now()) && noContractRecoveries < MAX_RECOVERIES
      modifies this
      ensures Valid() && old(trail) <= trail
      ensures Now() == Apply(old(Now()).(counter := old(noContractRecoveries) + 1, granted := old(granted) + 1,
                                         status := Activity.Recovering, pc := Asking), Request(sending))
    {
      hide IsRun;
      Step(Receive);
      Grant();
      Send(sending);
    }

    method Grant()
      requires Valid() && pc.Granting?
      modifies this
      ensures Valid() && old(trail) <= trail && pc.Asking?
      ensures Now() == old(Now()).(counter := old(noContractRecoveries) + 1, granted := old(granted) + 1,
                                   status := Activity.Recovering, pc := Asking)
    {
      hide IsRun;
      var read := noContractRecoveries;
      Step(ReadCounter);
      noContractRecoveries := read + 1;
      status := Activity.Recovering;
      Step(WriteCounter);
    }

    /** The effects of _send_result_to_chatgpt on these fields. */
    method Send(sending: Sending)
      requires Valid() && pc.Asking?
      modifies this
      ensures Valid() && old(trail) <= trail && Now() == Apply(old(Now()), Request(sending))
    {
      hide IsRun;
      match sending {
        case Exhausted =>
          paused, lifecycle, status := true, Lifecycle.BudgetExhausted, Activity.BudgetExhausted;
        case CoolsDown => status := Activity.Cooldown;
        case _ =>
      }
      Step(Request(sending));
    }
  }
}
