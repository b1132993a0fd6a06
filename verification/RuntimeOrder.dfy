/**
 Order and its limits: an Actor task executes what its mailbox accepted, in that order
 and each message once; and what serial execution is worth once a server stops running.
 */
module RuntimeOrder {
  import opened Coordination
  import opened Runtime
  import opened RuntimeProofs
  import opened RuntimeRuns

  function Mailbox(sv: Server, gen: nat): seq<Message> {
    if gen in sv.tasks then sv.tasks[gen].mailbox else []
  }

  /** The message that this step hands to the Actor, while it serves or while it drains. */
  function TakenAt(sv: Server, ev: Event, gen: nat): seq<Message> {
    if (ev == Receive(gen) || (ev.DrainOne? && ev.gen == gen)) && Enabled(sv, ev)
    then [sv.tasks[gen].mailbox[0]]
    else []
  }

  /** The message that this step puts into the mailbox, according to who sends it. */
  function OfferedAt(sv: Server, ev: Event): Option<Message> {
    match ev
    case Dispatch(c, _) =>
      if !ReadyToDispatch(sv, c) then None
      else if sv.callers[c].Opening? then Some(SessionOpened(sv.callers[c].key.sid))
      else Some(Action(sv.callers[c].key.sid))
    case SendClosed(c) => if Enabled(sv, ev) then Some(SessionClosed(sv.callers[c].key.sid)) else None
    case _ => None
  }

  function AcceptedAt(sv: Server, ev: Event, gen: nat): seq<Message> {
    if OfferedAt(sv, ev).Some? && |Mailbox(Step(sv, ev), gen)| > |Mailbox(sv, gen)|
    then [OfferedAt(sv, ev).value]
    else []
  }

  /** The messages that this step gives up: `fail_pending`, or the receiver of a finished task. */
  function DroppedAt(sv: Server, ev: Event, gen: nat): seq<Message> {
    if (ev == FailPending(gen) || ev == Leave(gen)) && Enabled(sv, ev) then sv.tasks[gen].mailbox else []
  }

  /** Everything the Actor has been handed by the first `i` steps. */
  function Taken(limits: Limits, run: Run, i: nat, gen: nat): seq<Message>
    requires i <= |run|
  {
    if i == 0 then [] else Taken(limits, run, i - 1, gen) + TakenAt(ServerAt(limits, run, i - 1), run[i - 1], gen)
  }

  /** Everything its mailbox has accepted in the first `i` steps. */
  function Accepted(limits: Limits, run: Run, i: nat, gen: nat): seq<Message>
    requires i <= |run|
  {
    if i == 0 then [] else Accepted(limits, run, i - 1, gen) + AcceptedAt(ServerAt(limits, run, i - 1), run[i - 1], gen)
  }

  /** Everything that was given up when the task ended. */
  function Dropped(limits: Limits, run: Run, i: nat, gen: nat): seq<Message>
    requires i <= |run|
  {
    if i == 0 then [] else Dropped(limits, run, i - 1, gen) + DroppedAt(ServerAt(limits, run, i - 1), run[i - 1], gen)
  }

  lemma LockedIsQueueStep(sv: Server, a: Address, message: Message, reserved: bool, contended: bool, gen: nat)
    requires TaskInv(sv)
    ensures var sv' := DispatchLocked(sv, a, message, reserved, contended).0;
            || Mailbox(sv', gen) == Mailbox(sv, gen)
            || Mailbox(sv', gen) == Mailbox(sv, gen) + [message]
  {
  }

  /** A step adds at the mailbox's end what is accepted, or takes from its front what is handled or given up. */
  predicate QueueStep(sv: Server, ev: Event, gen: nat) {
    Mailbox(sv, gen) + AcceptedAt(sv, ev, gen)
    == TakenAt(sv, ev, gen) + DroppedAt(sv, ev, gen) + Mailbox(Step(sv, ev), gen)
  }

  lemma DispatchIsQueueStep(sv: Server, c: nat, contended: bool, gen: nat)
    requires TaskInv(sv) && ReadyToDispatch(sv, c)
    ensures QueueStep(sv, Dispatch(c, contended), gen)
  {
    DispatchAddsOffered(sv, c, contended, gen);
    assert Step(sv, Dispatch(c, contended)) == AfterDispatch(sv, c, contended);
  }

  lemma DispatchAddsOffered(sv: Server, c: nat, contended: bool, gen: nat)
    requires TaskInv(sv) && ReadyToDispatch(sv, c)
    ensures var queue' := Mailbox(AfterDispatch(sv, c, contended), gen);
            || queue' == Mailbox(sv, gen)
            || queue' == Mailbox(sv, gen) + [OfferedAt(sv, Dispatch(c, contended)).value]
  {
    match sv.callers[c]
    case Opening(key, reserved, _) =>
      LockedIsQueueStep(sv, key.a, SessionOpened(key.sid), reserved, contended, gen);
    case Acting(key, _) =>
      LockedIsQueueStep(sv, key.a, Action(key.sid), false, contended, gen);
  }

  lemma SendClosedIsQueueStep(sv: Server, c: nat, gen: nat)
    requires Enabled(sv, SendClosed(c))
    ensures QueueStep(sv, SendClosed(c), gen)
  {
  }

  lemma TakingIsQueueStep(sv: Server, ev: Event, gen: nat)
    requires Enabled(sv, ev) && (ev.Receive? || ev.DrainOne? || ev.FailPending? || ev.Leave?)
    ensures QueueStep(sv, ev, gen)
  {
  }

  predicate MovesNoMessage(ev: Event) {
    !ev.Dispatch? && !ev.SendClosed? && !ev.Receive? && !ev.DrainOne? && !ev.FailPending? && !ev.Leave?
  }

  lemma OtherEventKeepsMailboxes(sv: Server, ev: Event, gen: nat)
    requires Enabled(sv, ev) && MovesNoMessage(ev)
    ensures Mailbox(Next(sv, ev), gen) == Mailbox(sv, gen)
  {
    if IsCallerEvent(ev) || ev.Terminate? || ev.SetStatus? {
      QuietEventIsQuiet(sv, ev);
    }
  }

  lemma OtherEventIsQueueStep(sv: Server, ev: Event, gen: nat)
    requires Enabled(sv, ev) && MovesNoMessage(ev)
    ensures QueueStep(sv, ev, gen)
  {
    OtherEventKeepsMailboxes(sv, ev, gen);
  }

  lemma StepIsQueueStep(sv: Server, ev: Event, gen: nat)
    requires TaskInv(sv)
    ensures QueueStep(sv, ev, gen)
  {
    if !Enabled(sv, ev) {
      assert Step(sv, ev) == sv;
    } else if ev.Dispatch? {
      DispatchIsQueueStep(sv, ev.c, ev.contended, gen);
    } else if ev.SendClosed? {
      SendClosedIsQueueStep(sv, ev.c, gen);
    } else if MovesNoMessage(ev) {
      OtherEventIsQueueStep(sv, ev, gen);
    } else {
      TakingIsQueueStep(sv, ev, gen);
    }
  }

  /** The task has given its mailbox up: it is closed, empty, and no method of its Actor runs any more. */
  predicate Finished(sv: Server, gen: nat) {
    gen in sv.tasks
    && var task := sv.tasks[gen];
       task.closed && task.mailbox == [] && (task.phase.Leaving? || task.phase.Gone?)
  }

  lemma DispatchSparesFinished(sv: Server, c: nat, contended: bool, gen: nat)
    requires TaskInv(sv) && ReadyToDispatch(sv, c) && Finished(sv, gen)
    ensures Finished(AfterDispatch(sv, c, contended), gen)
  {
    assert TaskOk(sv, gen);
    match sv.callers[c]
    case Opening(key, reserved, _) =>
      LockedSparesFinished(sv, key.a, SessionOpened(key.sid), reserved, contended, gen);
    case Acting(key, _) =>
      LockedSparesFinished(sv, key.a, Action(key.sid), false, contended, gen);
  }

  lemma LockedSparesFinished(sv: Server, a: Address, message: Message, reserved: bool, contended: bool, gen: nat)
    requires Finished(sv, gen) && gen < sv.nextGeneration
    ensures Finished(DispatchLocked(sv, a, message, reserved, contended).0, gen)
  {
  }

  lemma FinishedStays(sv: Server, ev: Event, gen: nat)
    requires TaskInv(sv) && Finished(sv, gen)
    ensures Finished(Step(sv, ev), gen)
  {
    if Enabled(sv, ev) {
      if ev.Dispatch? {
        DispatchSparesFinished(sv, ev.c, ev.contended, gen);
      } else if (IsCallerEvent(ev) && !ev.SendClosed?) || ev.Terminate? || ev.SetStatus? {
        QuietEventIsQuiet(sv, ev);
      }
    }
  }

  /** Nothing reaches or leaves a finished task. */
  lemma FinishedIsQuiet(sv: Server, ev: Event, gen: nat)
    requires TaskInv(sv) && Finished(sv, gen)
    ensures AcceptedAt(sv, ev, gen) == [] && TakenAt(sv, ev, gen) == [] && DroppedAt(sv, ev, gen) == []
  {
    FinishedStays(sv, ev, gen);
  }

  /** A task that has given something up is finished. */
  lemma DroppingFinishes(sv: Server, ev: Event, gen: nat)
    requires TaskInv(sv) && DroppedAt(sv, ev, gen) != []
    ensures Finished(Step(sv, ev), gen)
  {
    assert TaskOk(sv, gen);
  }

  /** What a mailbox accepted, what was handed on, what was given up, and what is queued. */
  datatype Flow = Flow(accepted: seq<Message>, taken: seq<Message>, dropped: seq<Message>, queue: seq<Message>)

  predicate InOrder(flow: Flow) {
    flow.accepted == flow.taken + flow.dropped + flow.queue
  }

  function FlowAt(limits: Limits, run: Run, i: nat, gen: nat): Flow
    requires i <= |run|
  {
    Flow(Accepted(limits, run, i, gen), Taken(limits, run, i, gen), Dropped(limits, run, i, gen),
         Mailbox(ServerAt(limits, run, i), gen))
  }

  /** One step of the flow; once something has been given up, nothing moves any more. */
  predicate FlowStep(flow: Flow, flow': Flow, add: seq<Message>, take: seq<Message>, drop: seq<Message>) {
    && flow'.accepted == flow.accepted + add && flow'.taken == flow.taken + take && flow'.dropped == flow.dropped + drop
    && flow.queue + add == take + drop + flow'.queue
    && (flow.dropped != [] ==> flow.queue == [] && add == [] && take == [] && drop == [])
  }

  lemma FlowStepKeepsOrder(flow: Flow, flow': Flow, add: seq<Message>, take: seq<Message>, drop: seq<Message>)
    requires InOrder(flow) && FlowStep(flow, flow', add, take, drop)
    ensures InOrder(flow')
  {
    if flow.dropped == [] {
      assert flow'.accepted == flow.taken + (flow.queue + add);
      assert flow'.taken + flow'.dropped + flow'.queue == flow.taken + (take + drop + flow'.queue);
    }
  }

  lemma RunStepIsFlowStep(limits: Limits, run: Run, i: nat, gen: nat)
    requires i < |run|
    requires Dropped(limits, run, i, gen) != [] ==> Finished(ServerAt(limits, run, i), gen)
    ensures var sv := ServerAt(limits, run, i);
            && FlowStep(FlowAt(limits, run, i, gen), FlowAt(limits, run, i + 1, gen),
                        AcceptedAt(sv, run[i], gen), TakenAt(sv, run[i], gen), DroppedAt(sv, run[i], gen))
            && (Dropped(limits, run, i + 1, gen) != [] ==> Finished(ServerAt(limits, run, i + 1), gen))
  {
    RunStep(limits, run, i, gen);
  }

  lemma RunStepKeepsOrder(limits: Limits, run: Run, i: nat, gen: nat)
    requires i < |run| && InOrder(FlowAt(limits, run, i, gen))
    requires Dropped(limits, run, i, gen) != [] ==> Finished(ServerAt(limits, run, i), gen)
    ensures InOrder(FlowAt(limits, run, i + 1, gen))
    ensures Dropped(limits, run, i + 1, gen) != [] ==> Finished(ServerAt(limits, run, i + 1), gen)
  {
    RunStepIsFlowStep(limits, run, i, gen);
    var sv := ServerAt(limits, run, i);
    FlowStepKeepsOrder(FlowAt(limits, run, i, gen), FlowAt(limits, run, i + 1, gen),
                       AcceptedAt(sv, run[i], gen), TakenAt(sv, run[i], gen), DroppedAt(sv, run[i], gen));
  }

  /**
   Whatever interleaves, what a mailbox accepted is what its Actor has been handed, then
   what was given up when the task ended, then what is still queued: nothing is repeated
   or reordered, and nothing is given up before the Actor has run its last method.
   */
  lemma {:induction false} HandledInOrder(limits: Limits, run: Run, i: nat, gen: nat)
    requires i <= |run|
    ensures Accepted(limits, run, i, gen)
         == Taken(limits, run, i, gen) + Dropped(limits, run, i, gen) + Mailbox(ServerAt(limits, run, i), gen)
    ensures Dropped(limits, run, i, gen) != [] ==> Finished(ServerAt(limits, run, i), gen)
  {
    FlowInOrder(limits, run, i, gen);
  }

  lemma {:induction false} FlowInOrder(limits: Limits, run: Run, i: nat, gen: nat)
    requires i <= |run|
    ensures InOrder(FlowAt(limits, run, i, gen))
    ensures Dropped(limits, run, i, gen) != [] ==> Finished(ServerAt(limits, run, i), gen)
  {
    if i > 0 {
      FlowInOrder(limits, run, i - 1, gen);
      RunStepKeepsOrder(limits, run, i - 1, gen);
    }
  }

  /** One step of a run, in terms of the queue. */
  lemma RunStep(limits: Limits, run: Run, i: nat, gen: nat)
    requires i < |run|
    ensures var sv := ServerAt(limits, run, i);
            var sv' := ServerAt(limits, run, i + 1);
            && Mailbox(sv, gen) + AcceptedAt(sv, run[i], gen)
               == TakenAt(sv, run[i], gen) + DroppedAt(sv, run[i], gen) + Mailbox(sv', gen)
            && (DroppedAt(sv, run[i], gen) != [] ==> Finished(sv', gen))
            && (Finished(sv, gen) ==>
                  && Finished(sv', gen) && Mailbox(sv, gen) == [] && AcceptedAt(sv, run[i], gen) == []
                  && TakenAt(sv, run[i], gen) == [] && DroppedAt(sv, run[i], gen) == [])
  {
    var sv := ServerAt(limits, run, i);
    ServerInvAlways(limits, run, i);
    StepIsQueueStep(sv, run[i], gen);
    if DroppedAt(sv, run[i], gen) != [] {
      DroppingFinishes(sv, run[i], gen);
    }
    if Finished(sv, gen) {
      FinishedStays(sv, run[i], gen);
      FinishedIsQuiet(sv, run[i], gen);
    }
  }

  /**
   Serial execution is promised only while the server runs.  Whenever an open has passed
   the status check, the Actor of its address is waiting, and a shutdown begins before the
   open enters the route-table lock, the open finds the draining Actor's mailbox closed,
   replaces its route, and two generations of the address can run at once.
   */
  lemma ShutdownBreaksSerialExecution(sv: Server, c: nat, gen: nat)
    requires TaskInv(sv) && sv.status.Running?
    requires ReadyToDispatch(sv, c) && sv.callers[c].Opening?
    requires HasTask(sv, gen, Waiting)
    requires Routed(sv, sv.callers[c].key.a, gen) && sv.routes[sv.callers[c].key.a].active
    ensures var closing := Step(Step(sv, SetStatus(ShuttingDown)), ObserveShutdown(gen));
            var sv' := Step(closing, Dispatch(c, false));
            && gen in sv'.tasks && sv.nextGeneration in sv'.tasks && gen != sv.nextGeneration
            && sv'.tasks[gen].address == sv'.tasks[sv.nextGeneration].address
            && CanRun(sv'.tasks[gen].phase) && CanRun(sv'.tasks[sv.nextGeneration].phase)
            && sv'.tasks[gen].mailbox == sv.tasks[gen].mailbox
  {
    var a := sv.callers[c].key.a;
    assert TaskOk(sv, gen) && RouteOk(sv, a);
    ShutdownClosesMailbox(sv, gen);
    ReplacesClosed(Step(Step(sv, SetStatus(ShuttingDown)), ObserveShutdown(gen)), c, gen);
  }

  lemma ShutdownClosesMailbox(sv: Server, gen: nat)
    requires sv.status.Running? && HasTask(sv, gen, Waiting)
    ensures Step(Step(sv, SetStatus(ShuttingDown)), ObserveShutdown(gen))
         == SetTask(sv, gen, sv.tasks[gen].(phase := Draining, closed := true)).(status := ShuttingDown)
  {
    assert Step(sv, SetStatus(ShuttingDown)) == sv.(status := ShuttingDown);
  }

  /** A dispatch that finds an Active route with a closed mailbox spawns the next generation. */
  lemma ReplacesClosed(sv: Server, c: nat, gen: nat)
    requires ReadyToDispatch(sv, c) && sv.callers[c].Opening?
    requires Routed(sv, sv.callers[c].key.a, gen) && sv.routes[sv.callers[c].key.a].active
    requires gen in sv.tasks && sv.tasks[gen].closed
    ensures var sv' := Step(sv, Dispatch(c, false));
            sv'.tasks == sv.tasks[sv.nextGeneration :=
                           Task(sv.callers[c].key.a, Activating, [SessionOpened(sv.callers[c].key.sid)], false)]
  {
  }

  // A run from the start in which two generations can run at once.

  ghost predicate Reaches(limits: Limits, run: Run, sv: Server) {
    ServerAt(limits, run, |run|) == sv
  }

  lemma {:induction false} PrefixServer(limits: Limits, run: Run, ev: Event, i: nat)
    requires i <= |run|
    ensures ServerAt(limits, run + [ev], i) == ServerAt(limits, run, i)
  {
    if i > 0 {
      PrefixServer(limits, run, ev, i - 1);
    }
  }

  lemma Then(limits: Limits, run: Run, sv: Server, ev: Event, sv': Server) returns (run': Run)
    requires Reaches(limits, run, sv) && Step(sv, ev) == sv'
    ensures Reaches(limits, run', sv')
  {
    run' := run + [ev];
    PrefixServer(limits, run, ev, |run|);
  }

  /** A caller opens a session and passes the checks at the head of `dispatch_message`. */
  function Admitting(sv: Server, c: nat, key: Key): Server {
    SetCaller(sv, c, Opening(key, false, Admitted)).(
      sessions := sv.sessions[key := false], log := sv.log.(registrations := Bump(sv.log.registrations, key)))
  }

  lemma GetAdmitted(limits: Limits, run: Run, sv: Server, c: nat, key: Key) returns (run': Run)
    requires Reaches(limits, run, sv) && c !in sv.callers && key !in sv.sessions && sv.status.Running?
    ensures Reaches(limits, run', Admitting(sv, c, key))
  {
    var registered := Admitting(sv, c, key).(callers := sv.callers[c := Opening(key, false, Registered)]);
    run' := GetRegistered(limits, run, sv, c, key);
    assert registered.callers[c := Opening(key, false, Admitted)] == Admitting(sv, c, key).callers;
    run' := Then(limits, run', registered, Admit(c, true), Admitting(sv, c, key));
  }

  lemma GetRegistered(limits: Limits, run: Run, sv: Server, c: nat, key: Key) returns (run': Run)
    requires Reaches(limits, run, sv) && c !in sv.callers && key !in sv.sessions
    ensures Reaches(limits, run', Admitting(sv, c, key).(callers := sv.callers[c := Opening(key, false, Registered)]))
  {
    var opening := SetCaller(sv, c, Opening(key, false, Resolving));
    run' := Then(limits, run, sv, NewOpen(c, key), opening);
    var registered := Admitting(sv, c, key).(callers := sv.callers[c := Opening(key, false, Registered)]);
    assert opening.callers[c := Opening(key, false, Registered)] == registered.callers;
    run' := Then(limits, run', opening, Register(c), registered);
  }

  /** The first session's Actor has been spawned and activated; its SessionOpened waits in the mailbox. */
  function FirstServed(sv: Server, c: nat, key: Key): Server {
    sv.(permits := 1, nextGeneration := 1,
        tasks := map[0 := Task(key.a, Waiting, [SessionOpened(key.sid)], false)],
        routes := map[key.a := Route(0, true)],
        callers := sv.callers[c := Opening(key, false, Stage.Awaiting(0))],
        sessions := sv.sessions[key := true])
  }

  lemma ServeFirst(run: Run, sv: Server, c: nat, key: Key) returns (run': Run)
    requires Reaches(Limits(2, 2), run, sv) && IsOpening(sv, c, Admitted) && !sv.callers[c].reserved
    requires sv.callers[c].key == key && key in sv.sessions && sv.permits == 2 && sv.nextGeneration == 0
    requires sv.tasks == map[] && sv.routes == map[]
    ensures Reaches(Limits(2, 2), run', FirstServed(sv, c, key))
  {
    var spawned := FirstServed(sv, c, key).(
                     tasks := map[0 := Task(key.a, Activating, [SessionOpened(key.sid)], false)]);
    run' := Then(Limits(2, 2), run, sv, Dispatch(c, false), spawned);
    run' := Then(Limits(2, 2), run', spawned, Activate(0, true), FirstServed(sv, c, key));
  }

  /**
   Two sessions open one address of a fresh server.  The second is admitted, a shutdown
   begins, the first session's Actor drains, and the second session's dispatch spawns
   another generation beside it.
   */
  lemma TwoGenerationsAtOnce() returns (run: Run)
    ensures var sv := ServerAt(Limits(2, 2), run, |run|);
            && 0 in sv.tasks && 1 in sv.tasks && sv.tasks[0].address == sv.tasks[1].address
            && CanRun(sv.tasks[0].phase) && CanRun(sv.tasks[1].phase) && sv.tasks[0].mailbox != []
  {
    var limits := Limits(2, 2);
    var sv := InitialServer(2, 2);
    run := GetAdmitted(limits, [], sv, 0, Key("a", 0));
    sv := Admitting(sv, 0, Key("a", 0));
    run := ServeFirst(run, sv, 0, Key("a", 0));
    sv := FirstServed(sv, 0, Key("a", 0));
    run := GetAdmitted(limits, run, sv, 1, Key("a", 1));
    sv := Admitting(sv, 1, Key("a", 1));
    ServerInvAlways(limits, run, |run|);
    ShutdownBreaksSerialExecution(sv, 1, 0);
    run := Then(limits, run, sv, SetStatus(ShuttingDown), Step(sv, SetStatus(ShuttingDown)));
    sv := Step(sv, SetStatus(ShuttingDown));
    run := Then(limits, run, sv, ObserveShutdown(0), Step(sv, ObserveShutdown(0)));
    sv := Step(sv, ObserveShutdown(0));
    run := Then(limits, run, sv, Dispatch(1, false), Step(sv, Dispatch(1, false)));
  }
}
