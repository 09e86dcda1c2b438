/**
 Sending a result to the model: the orchestrator's sending fields, over a budget object.  A
 reporter remembers the run of the budget protocol it has been through.
 */
module Reporting {
  import opened Wrappers
  import opened RunBudget
  import opened BudgetProtocol

  class Reporter {
    const config: Config
    const budget: Budget
    var paused: bool
    var providerGuard: bool
    var pendingSendTimer: Option<real>
    var disk: Option<Payload>
    var clock: real
    ghost var world: World
    ghost var trail: seq<World>

    /** The fields hold what w says. */
    ghost predicate Shows(w: World)
      reads this, budget
    {
      && w.config == config && w.clock == clock && w.budget == Some(budget.Contents()) && w.timer == pendingSendTimer
      && (if disk.Some? then w.disk.Some? && w.disk.value.payload == disk.value else w.disk.None?)
    }

    ghost predicate Valid()
      reads this, budget
    {
      IsRun(trail) && trail[|trail| - 1] == world && Shows(world)
    }

    constructor (config: Config, now: real)
      requires now > 0.0
      ensures Valid() && fresh(budget) && !paused && !providerGuard && clock == now && world == Fresh(config, now)
    {
      this.config := config;
      budget := new Budget(now);
      paused, providerGuard, pendingSendTimer, disk, clock := false, false, None, None, now;
      world := Fresh(config, now);
      trail := [Fresh(config, now)];
    }

    /** The fields already hold what the step a leads to. */
    ghost method Step(a: Action)
      requires IsRun(trail) && trail[|trail| - 1] == world && Enabled(world, a) && Shows(Apply(world, a))
      modifies this`world, this`trail
      ensures Valid() && old(trail) <= trail && world == Apply(old(world), a)
    {
      hide Initial, StepAt, Enabled, Apply;
      trail := LongerRun(trail, a);
      world := trail[|trail| - 1];
    }

    method WaitUntil(now: real)
      requires Valid() && now >= clock
      modifies this
      ensures Valid() && old(trail) <= trail && world == old(world).(clock := now)
      ensures paused == old(paused) && providerGuard == old(providerGuard)
    {
      hide IsRun;
      clock := now;
      Step(Tick(now));
    }

    /** with self.lock, and the timer that has been waited for is forgotten. */
    method EnterDispatch()
      requires Valid() && world.dispatch.Idle? && world.calls > 0
      modifies this
      ensures Valid() && old(trail) <= trail && world.dispatch.Called? && pendingSendTimer == None
      ensures world == Apply(old(world), Enter) && disk == old(disk) && clock == old(clock)
      ensures paused == old(paused) && providerGuard == old(providerGuard)
    {
      hide IsRun;
      pendingSendTimer := None;
      Step(Enter);
    }

    /**
     dispatch: check again, record, persist, and only then emit.  A prompt goes out exactly
     if nothing has stopped the run in the meantime and the budget allows it.
     */
    method Dispatch(recordAt: real) returns (sent: bool)
      requires Valid() && world.dispatch.Idle? && world.calls > 0 && recordAt >= clock
      modifies this, budget
      ensures Valid() && old(trail) <= trail && world.dispatch.Idle? && pendingSendTimer == None
      ensures sent <==>
                !old(paused) && !old(providerGuard) && DecisionOf(old(budget.Contents()), old(clock), config).allowed
      ensures world.emitted ==
                if sent then
                  old(world).emitted
                  + [Prompt(old(world).recorded, old(world).session, old(world).generation, old(clock), recordAt)]
                else old(world).emitted
      ensures sent ==> disk == Some(Export(budget.Contents()))
                       && budget.Contents() == WithTurn(Pruned(old(budget.Contents()), old(clock)), recordAt)
      ensures !sent ==> (paused || providerGuard) && disk == old(disk)
    {
      hide IsRun, DecisionOf, Pruned, Recent;
      EnterDispatch();
      if paused || providerGuard {
        Step(Drop);
        return false;
      }
      var second := budget.Decide(clock, config);
      Step(Check);
      if !second.allowed {
        paused := true;
        return false;
      }
      WaitUntil(recordAt);
      RecordAndEmit();
      sent := true;
    }

    method RecordAndEmit()
      requires Valid() && world.dispatch.Checked?
      modifies this, budget
      ensures Valid() && old(trail) <= trail && world.dispatch.Idle? && pendingSendTimer == old(pendingSendTimer)
      ensures world.emitted ==
                old(world).emitted
                + [Prompt(old(world).recorded, old(world).session, old(world).generation, old(world).dispatch.allowedAt,
                          old(clock))]
      ensures disk == Some(Export(budget.Contents())) && budget.Contents() == WithTurn(old(budget.Contents()), old(clock))
    {
      hide IsRun, Export;
      budget.RecordSend(clock);
      Step(Record);
      PersistAndEmit();
    }

    method PersistAndEmit()
      requires Valid() && world.dispatch.Recorded? && IsOwn(world)
      modifies this
      ensures Valid() && old(trail) <= trail && world.dispatch.Idle? && pendingSendTimer == old(pendingSendTimer)
      ensures disk == Some(Export(budget.Contents()))
      ensures world.emitted == old(world).emitted + [old(world).dispatch.prompt]
    {
      hide IsRun, Export;
      var payload := budget.ExportState();
      Step(Snap);
      disk := Some(payload);
      Step(Store);
      Step(Emit);
    }

    /** emit_event on another thread: the snapshot is an argument, and evaluated first. */
    method TakeSnapshotOn(thread: ThreadId) returns (payload: Payload)
      requires Valid()
      modifies this
      ensures Valid() && old(trail) <= trail && payload == Export(budget.Contents())
      ensures world == old(world).(drafts := old(world).drafts[thread := Snapshot(payload, world.recorded)])
      ensures paused == old(paused) && providerGuard == old(providerGuard)
    {
      hide IsRun;
      payload := budget.ExportState();
      Step(Action.TakeSnapshot(thread));
    }

    /** And written whenever the thread gets there, whatever has been recorded or reset since. */
    method WriteSnapshotOf(thread: ThreadId, payload: Payload)
      requires Valid() && thread in world.drafts && world.drafts[thread].payload == payload
      modifies this
      ensures Valid() && old(trail) <= trail && disk == Some(payload)
      ensures world == old(world).(disk := Some(old(world).drafts[thread]), drafts := old(world).drafts - {thread})
      ensures paused == old(paused) && providerGuard == old(providerGuard)
    {
      hide IsRun;
      disk := Some(payload);
      Step(Action.WriteSnapshot(thread));
    }

    /** reset_session and arming: another session, over whatever is stored, pending and under way. */
    method ResetBudget(provider: string)
      requires Valid()
      modifies this, budget
      ensures Valid() && old(trail) <= trail && world == Apply(old(world), Action.Reset(provider))
      ensures disk == old(disk) && pendingSendTimer == old(pendingSendTimer)
      ensures paused == old(paused) && providerGuard == old(providerGuard)
    {
      hide IsRun;
      budget.Reset(provider, clock);
      Step(Action.Reset(provider));
    }

    /** _send_result_to_chatgpt: refused, put off, or dispatched at once. */
    method SendResult(recordAt: real) returns (sent: bool)
      requires Valid() && world.dispatch.Idle? && recordAt >= clock
      modifies this, budget
      ensures Valid() && old(trail) <= trail && world.dispatch.Idle?
      ensures sent ==> DecisionOf(old(budget.Contents()), old(clock), config).allowed && !old(providerGuard) && !old(paused)
      ensures |world.emitted| == |old(world).emitted| + if sent then 1 else 0
      ensures old(providerGuard) ==> world == old(world) && !sent
      ensures !old(providerGuard) ==>
                var d := DecisionOf(old(budget.Contents()), old(clock), config);
                && (!d.allowed ==> paused && !sent)
                && (d.allowed && d.delay.Some? && d.delay.value > 0.05 ==>
                      !sent && pendingSendTimer == Some(old(clock) + d.delay.value) && paused == old(paused))
    {
      hide IsRun, DecisionOf, Pruned, Recent;
      if providerGuard { return false; }
      var decision := budget.Decide(clock, config);
      if !decision.allowed {
        Step(Request);
        paused := true;
        return false;
      }
      if decision.delay.Some? && decision.delay.value > 0.05 {
        pendingSendTimer := Some(clock + decision.delay.value);
        Step(Request);
        return false;
      }
      Step(Request);
      sent := Dispatch(recordAt);
    }
  }
}
