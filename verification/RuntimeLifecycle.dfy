/**
 The paths of an Actor task from its first message to its end: each one that can be walked
 undisturbed gets there, and each end leaves the address without the task's route and the
 route's permit free again.
 */
module RuntimeLifecycle {
  import opened Coordination
  import opened Runtime
  import opened RuntimeProofs
  import opened RuntimeRuns
  import opened RuntimeOutcomes

  /** The task of this generation, as it is, with its own route at its address. */
  predicate Owns(sv: Server, gen: nat, phase: Phase) {
    HasTask(sv, gen, phase) && Routed(sv, sv.tasks[gen].address, gen)
  }

  function WithTask(sv: Server, gen: nat, task: Task): Server {
    sv.(tasks := sv.tasks[gen := task])
  }

  /** The end of a task: gone, closed and empty, its route removed and the permit free; nothing else has changed. */
  predicate Ended(sv: Server, sv': Server, gen: nat)
    requires gen in sv.tasks
  {
    var a := sv.tasks[gen].address;
    sv' == sv.(tasks := sv.tasks[gen := Task(a, Gone, [], true)], routes := sv.routes - {a}, permits := sv.permits + 1)
  }

  lemma Single(sv: Server, ev: Event)
    ensures StepAll(sv, [ev]) == Step(sv, ev)
  {
    StepAllCons(sv, ev, []);
    assert [ev] + [] == [ev];
  }

  /** Leaving with the route still there ends the task. */
  lemma LeavingEnds(sv: Server, gen: nat)
    requires Owns(sv, gen, Leaving)
    ensures Ended(sv, Step(sv, Leave(gen)), gen)
  {
    TaskRouteOutcome(sv, Leave(gen));
  }

  /** A method that fails ends the task. */
  lemma FailedMethodEnds(sv: Server, gen: nat)
    requires gen in sv.tasks && sv.tasks[gen].phase.Executing? && Routed(sv, sv.tasks[gen].address, gen)
    ensures Ended(sv, StepAll(sv, [Executed(gen, false), Leave(gen)]), gen)
  {
    var failed := Step(sv, Executed(gen, false));
    TaskOutcome(sv, Executed(gen, false));
    LeavingEnds(failed, gen);
    StepAllCons(sv, Executed(gen, false), [Leave(gen)]);
    Single(failed, Leave(gen));
    assert failed.tasks[gen := Task(sv.tasks[gen].address, Gone, [], true)]
        == sv.tasks[gen := Task(sv.tasks[gen].address, Gone, [], true)];
  }

  /** The route is gone already; leaving only closes what is left. */
  lemma LeavingWithoutRoute(sv: Server, gen: nat)
    requires HasTask(sv, gen, Leaving) && !Routed(sv, sv.tasks[gen].address, gen)
    ensures Step(sv, Leave(gen)) == WithTask(sv, gen, Task(sv.tasks[gen].address, Gone, [], true))
  {
    TaskRouteOutcome(sv, Leave(gen));
  }

  /** An activation that fails ends the task: its route goes before the waiting opens are failed. */
  lemma FailedActivationEnds(sv: Server, gen: nat)
    requires Owns(sv, gen, Activating)
    ensures Ended(sv, StepAll(sv, [Activate(gen, false), RemoveRoute(gen), FailPending(gen), Leave(gen)]), gen)
  {
    TaskOutcome(sv, Activate(gen, false));
    var failed := Step(sv, Activate(gen, false));
    RemovedAndFailedEnds(failed, gen);
    StepAllCons(sv, Activate(gen, false), [RemoveRoute(gen), FailPending(gen), Leave(gen)]);
    var gone := Task(sv.tasks[gen].address, Gone, [], true);
    assert failed.tasks[gen := gone] == sv.tasks[gen := gone];
  }

  lemma RemovedAndFailedEnds(sv: Server, gen: nat)
    requires Owns(sv, gen, ActivationFailed)
    ensures Ended(sv, StepAll(sv, [RemoveRoute(gen), FailPending(gen), Leave(gen)]), gen)
  {
    TaskRouteOutcome(sv, RemoveRoute(gen));
    var removed := Step(sv, RemoveRoute(gen));
    FailedPendingEnds(removed, gen);
    StepAllCons(sv, RemoveRoute(gen), [FailPending(gen), Leave(gen)]);
    var gone := Task(sv.tasks[gen].address, Gone, [], true);
    assert removed.tasks[gen := gone] == sv.tasks[gen := gone];
  }

  lemma FailedPendingEnds(sv: Server, gen: nat)
    requires HasTask(sv, gen, FailingPending) && !Routed(sv, sv.tasks[gen].address, gen)
    ensures StepAll(sv, [FailPending(gen), Leave(gen)])
         == WithTask(sv, gen, Task(sv.tasks[gen].address, Gone, [], true))
  {
    TaskOutcome(sv, FailPending(gen));
    var emptied := Step(sv, FailPending(gen));
    LeavingWithoutRoute(emptied, gen);
    StepAllCons(sv, FailPending(gen), [Leave(gen)]);
    Single(emptied, Leave(gen));
    var gone := Task(sv.tasks[gen].address, Gone, [], true);
    assert emptied.tasks[gen := gone] == sv.tasks[gen := gone];
  }

  function Passivation(gen: nat): seq<Event> {
    [CheckIdle(gen), BeginDeactivation(gen), Deactivated(gen), RemoveRoute(gen), Leave(gen)]
  }

  /**
   The idle check and the route table let an idle Actor without sessions of its address
   passivate, whatever other addresses have.
   */
  lemma IdleActorDeactivates(sv: Server, gen: nat)
    requires Owns(sv, gen, Waiting) && sv.tasks[gen].mailbox == [] && !HasLiveSession(sv, sv.tasks[gen].address)
    ensures var a := sv.tasks[gen].address;
            StepAll(sv, [CheckIdle(gen), BeginDeactivation(gen)])
            == WithTask(sv, gen, sv.tasks[gen].(phase := Deactivating)).(routes := sv.routes[a := Route(gen, false)])
  {
    TaskOutcome(sv, CheckIdle(gen));
    var checked := Step(sv, CheckIdle(gen));
    TaskRouteOutcome(checked, BeginDeactivation(gen));
    StepAllCons(sv, CheckIdle(gen), [BeginDeactivation(gen)]);
    Single(checked, BeginDeactivation(gen));
    var passive := sv.tasks[gen].(phase := Deactivating);
    assert checked.tasks[gen := passive] == sv.tasks[gen := passive];
  }

  lemma DeactivatedActorEnds(sv: Server, gen: nat)
    requires Owns(sv, gen, Deactivating)
    ensures Ended(sv, StepAll(sv, [Deactivated(gen), RemoveRoute(gen), Leave(gen)]), gen)
  {
    TaskOutcome(sv, Deactivated(gen));
    var releasing := Step(sv, Deactivated(gen));
    ReleasedActorEnds(releasing, gen);
    StepAllCons(sv, Deactivated(gen), [RemoveRoute(gen), Leave(gen)]);
    var gone := Task(sv.tasks[gen].address, Gone, [], true);
    assert releasing.tasks[gen := gone] == sv.tasks[gen := gone];
  }

  lemma ReleasedActorEnds(sv: Server, gen: nat)
    requires Owns(sv, gen, Releasing)
    ensures Ended(sv, StepAll(sv, [RemoveRoute(gen), Leave(gen)]), gen)
  {
    TaskRouteOutcome(sv, RemoveRoute(gen));
    var removed := Step(sv, RemoveRoute(gen));
    LeavingWithoutRoute(removed, gen);
    StepAllCons(sv, RemoveRoute(gen), [Leave(gen)]);
    Single(removed, Leave(gen));
    var gone := Task(sv.tasks[gen].address, Gone, [], true);
    assert removed.tasks[gen := gone] == sv.tasks[gen := gone];
  }

  /** An idle Actor with no session of its own address passivates to its end. */
  lemma IdleActorEnds(sv: Server, gen: nat)
    requires Owns(sv, gen, Waiting) && sv.tasks[gen].mailbox == [] && !HasLiveSession(sv, sv.tasks[gen].address)
    ensures Ended(sv, StepAll(sv, Passivation(gen)), gen)
  {
    var a := sv.tasks[gen].address;
    IdleActorDeactivates(sv, gen);
    var passive := StepAll(sv, [CheckIdle(gen), BeginDeactivation(gen)]);
    DeactivatedActorEnds(passive, gen);
    StepAllConcat(sv, [CheckIdle(gen), BeginDeactivation(gen)], [Deactivated(gen), RemoveRoute(gen), Leave(gen)]);
    assert [CheckIdle(gen), BeginDeactivation(gen)] + [Deactivated(gen), RemoveRoute(gen), Leave(gen)]
        == Passivation(gen);
    assert passive.tasks[gen := Task(a, Gone, [], true)] == sv.tasks[gen := Task(a, Gone, [], true)];
    assert passive.routes - {a} == sv.routes - {a};
  }

  lemma {:induction false} StepAllConcat(sv: Server, first: seq<Event>, rest: seq<Event>)
    ensures StepAll(sv, first + rest) == StepAll(StepAll(sv, first), rest)
    decreases |first|
  {
    if first == [] {
      assert first + rest == rest;
    } else {
      assert (first + rest)[1..] == first[1..] + rest;
      StepAllConcat(Step(sv, first[0]), first[1..], rest);
    }
  }

  /** An Actor with a live session of its address does not begin to passivate. */
  lemma LiveSessionKeepsActor(sv: Server, gen: nat)
    requires HasTask(sv, gen, Waiting) && HasLiveSession(sv, sv.tasks[gen].address)
    ensures Step(sv, CheckIdle(gen)) == sv
  {
    TaskOutcome(sv, CheckIdle(gen));
    assert sv.tasks[gen := sv.tasks[gen]] == sv.tasks;
  }

  /** Receive and execute, once per message. */
  function Serving(gen: nat, n: nat): seq<Event> {
    if n == 0 then [] else [Receive(gen), Executed(gen, true)] + Serving(gen, n - 1)
  }

  /** An Actor whose methods succeed works through its whole mailbox and waits again. */
  lemma {:induction false} MailboxIsServed(sv: Server, gen: nat)
    requires HasTask(sv, gen, Waiting)
    ensures StepAll(sv, Serving(gen, |sv.tasks[gen].mailbox|)) == WithTask(sv, gen, sv.tasks[gen].(mailbox := []))
    decreases |sv.tasks[gen].mailbox|
  {
    var task := sv.tasks[gen];
    if task.mailbox == [] {
      assert sv.tasks[gen := task.(mailbox := [])] == sv.tasks;
    } else {
      var next := WithTask(sv, gen, task.(mailbox := task.mailbox[1..]));
      OneMessageIsServed(sv, gen);
      MailboxIsServed(next, gen);
      var rest := Serving(gen, |task.mailbox| - 1);
      StepAllConcat(sv, [Receive(gen), Executed(gen, true)], rest);
      assert next.tasks[gen := task.(mailbox := [])] == sv.tasks[gen := task.(mailbox := [])];
    }
  }

  lemma OneMessageIsServed(sv: Server, gen: nat)
    requires HasTask(sv, gen, Waiting) && sv.tasks[gen].mailbox != []
    ensures StepAll(sv, [Receive(gen), Executed(gen, true)])
         == WithTask(sv, gen, sv.tasks[gen].(mailbox := sv.tasks[gen].mailbox[1..]))
  {
    var task := sv.tasks[gen];
    TaskOutcome(sv, Receive(gen));
    var received := Step(sv, Receive(gen));
    TaskOutcome(received, Executed(gen, true));
    StepAllCons(sv, Receive(gen), [Executed(gen, true)]);
    Single(received, Executed(gen, true));
    var served := task.(mailbox := task.mailbox[1..]);
    assert received.tasks[gen := served] == sv.tasks[gen := served];
  }

  /** A drained Actor ends like any other. */
  lemma DrainedActorEnds(sv: Server, gen: nat)
    requires Owns(sv, gen, Draining) && sv.tasks[gen].mailbox == []
    ensures Ended(sv, StepAll(sv, [Drained(gen), Leave(gen)]), gen)
  {
    TaskOutcome(sv, Drained(gen));
    var drained := Step(sv, Drained(gen));
    LeavingEnds(drained, gen);
    StepAllCons(sv, Drained(gen), [Leave(gen)]);
    Single(drained, Leave(gen));
    var gone := Task(sv.tasks[gen].address, Gone, [], true);
    assert drained.tasks[gen := gone] == sv.tasks[gen := gone];
  }
}
