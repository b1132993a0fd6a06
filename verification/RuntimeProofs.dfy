/**
 What every interleaving of the runtime keeps: capacity is conserved, an idle
 passivation loses nothing, one address is served by one task at a time, and sessions
 are not reported closed more often than they were opened.
 */
module RuntimeProofs {
  import opened Coordination
  import opened Runtime

  // Capacity.

  predicate HasReservation(caller: Caller) {
    caller.Opening? && caller.reserved
  }

  /** The callers that hold a permit of their own. */
  function Reservations(callers: map<nat, Caller>): set<nat> {
    set c | c in callers && HasReservation(callers[c])
  }

  /** Permits are free, bound to a route, or in a caller's hand; nowhere else. */
  predicate CapacityInv(sv: Server) {
    sv.permits + |sv.routes| + |Reservations(sv.callers)| == sv.max
  }

  lemma SetCallerReservations(callers: map<nat, Caller>, c: nat, caller: Caller)
    ensures |Reservations(callers[c := caller])|
         == |Reservations(callers) - {c}| + if HasReservation(caller) then 1 else 0
    ensures |Reservations(callers)|
         == |Reservations(callers) - {c}| + if c in callers && HasReservation(callers[c]) then 1 else 0
  {
    var rest := Reservations(callers) - {c};
    assert Reservations(callers[c := caller]) == if HasReservation(caller) then rest + {c} else rest;
    assert Reservations(callers) == if c in callers && HasReservation(callers[c]) then rest + {c} else rest;
  }

  lemma EndCallerReservations(callers: map<nat, Caller>, c: nat)
    ensures |Reservations(callers)|
         == |Reservations(callers - {c})| + if c in callers && HasReservation(callers[c]) then 1 else 0
  {
    assert Reservations(callers - {c}) == Reservations(callers) - {c};
    SetCallerReservations(callers, c, Closing(Key("", 0)));
  }

  lemma RouteRemoved(routes: map<Address, Route>, a: Address)
    requires a in routes
    ensures |routes - {a}| == |routes| - 1
  {
    assert (routes - {a}).Keys == routes.Keys - {a};
  }

  lemma RouteAdded(routes: map<Address, Route>, a: Address, route: Route)
    ensures |routes[a := route]| == |routes| + if a in routes then 0 else 1
  {
    assert routes[a := route].Keys == routes.Keys + {a};
  }

  lemma SpawnConserves(sv: Server, a: Address, message: Message, reserved: bool, contended: bool)
    requires a !in sv.routes
    ensures var (next, outcome) := Spawn(sv, a, message, reserved, contended);
            && next.callers == sv.callers && next.max == sv.max
            && next.permits + |next.routes| == sv.permits + |sv.routes| + if reserved then 1 else 0
  {
    RouteAdded(sv.routes, a, Route(sv.nextGeneration, true));
  }

  /** A reservation taken into the lock is either bound to a route or handed back. */
  lemma DispatchConserves(sv: Server, a: Address, message: Message, reserved: bool, contended: bool)
    ensures var next := DispatchLocked(sv, a, message, reserved, contended).0;
            && next.callers == sv.callers && next.max == sv.max
            && next.permits + |next.routes| == sv.permits + |sv.routes| + if reserved then 1 else 0
  {
    if a !in sv.routes {
      SpawnConserves(sv, a, message, reserved, false);
    } else if sv.routes[a].active && Replaceable(sv, sv.routes[a].generation) {
      RouteRemoved(sv.routes, a);
      SpawnConserves(WithoutRoute(sv, a, sv.routes[a].generation), a, message, reserved, contended);
    }
  }

  predicate Replaceable(sv: Server, gen: nat) {
    gen !in sv.tasks || sv.tasks[gen].closed
  }

  /** A caller holds a reservation only until it has entered the route-table lock. */
  predicate CallerOk(caller: Caller) {
    HasReservation(caller) ==> caller.stage.Resolving? || caller.stage.Registered? || caller.stage.Admitted?
  }

  ghost predicate CallersOk(sv: Server) {
    forall c :: c in sv.callers ==> CallerOk(sv.callers[c])
  }

  /** How a step may rewrite the callers: at most one of them. */
  predicate OneCaller(sv: Server, sv': Server, c: nat) {
    sv'.callers == sv.callers - {c}
    || (c in sv'.callers && CallerOk(sv'.callers[c]) && sv'.callers == sv.callers[c := sv'.callers[c]])
  }

  function HeldBy(sv: Server, c: nat): nat {
    if c in sv.callers && HasReservation(sv.callers[c]) then 1 else 0
  }

  lemma OneCallerReservations(sv: Server, sv': Server, c: nat)
    requires OneCaller(sv, sv', c)
    ensures |Reservations(sv'.callers)| + HeldBy(sv, c) == |Reservations(sv.callers)| + HeldBy(sv', c)
  {
    if sv'.callers == sv.callers - {c} {
      EndCallerReservations(sv.callers, c);
    } else {
      SetCallerReservations(sv.callers, c, sv'.callers[c]);
    }
  }

  lemma DispatchOneCaller(sv: Server, c: nat, contended: bool)
    requires ReadyToDispatch(sv, c)
    ensures var sv' := AfterDispatch(sv, c, contended);
            && OneCaller(sv, sv', c) && HeldBy(sv', c) == 0 && sv'.max == sv.max
            && sv'.permits + |sv'.routes| == sv.permits + |sv.routes| + HeldBy(sv, c)
  {
    if sv.callers[c].Opening? {
      OpeningDispatchOneCaller(sv, c, contended);
    } else {
      DispatchConserves(sv, sv.callers[c].key.a, Action(sv.callers[c].key.sid), false, contended);
    }
  }

  lemma OpeningDispatchOneCaller(sv: Server, c: nat, contended: bool)
    requires IsOpening(sv, c, Admitted)
    ensures var sv' := AfterDispatch(sv, c, contended);
            && OneCaller(sv, sv', c) && HeldBy(sv', c) == 0 && sv'.max == sv.max
            && sv'.permits + |sv'.routes| == sv.permits + |sv.routes| + HeldBy(sv, c)
  {
    var Opening(key, reserved, _) := sv.callers[c];
    DispatchConserves(sv, key.a, SessionOpened(key.sid), reserved, contended);
    var (next, outcome) := DispatchLocked(sv, key.a, SessionOpened(key.sid), reserved, contended);
    var stage := match outcome case Accepted(gen) => Stage.Awaiting(gen) case Refused(error) => Rejected(error);
    assert AfterDispatch(sv, c, contended).callers == sv.callers[c := Opening(key, false, stage)];
  }

  /** The caller events outside the route-table lock move one permit at most. */
  lemma CallerEventConserves(sv: Server, ev: Event)
    requires CallersOk(sv) && Enabled(sv, ev) && IsCallerEvent(ev)
    ensures var sv' := Next(sv, ev);
            && OneCaller(sv, sv', ev.c) && sv'.max == sv.max && |sv'.routes| == |sv.routes|
            && sv'.permits + HeldBy(sv', ev.c) == sv.permits + HeldBy(sv, ev.c)
  {
    if ev.Register? {
      RegisterConserves(sv, ev.c);
    } else if ev.Admit? {
      AdmitConserves(sv, ev.c, ev.authorized);
    } else if ev.NewOpen? || ev.Reserve? || ev.DropReservation? || ev.GiveUp? {
      ResolvingConserves(sv, ev);
    } else {
      LaterConserves(sv, ev);
    }
  }

  lemma RegisterConserves(sv: Server, c: nat)
    requires Enabled(sv, Register(c))
    ensures var sv' := AfterRegister(sv, c);
            && OneCaller(sv, sv', c) && sv'.max == sv.max && sv'.routes == sv.routes
            && sv'.permits + HeldBy(sv', c) == sv.permits + HeldBy(sv, c)
  {
  }

  lemma AdmitConserves(sv: Server, c: nat, authorized: bool)
    requires Enabled(sv, Admit(c, authorized))
    ensures var sv' := AfterAdmit(sv, c, authorized);
            && OneCaller(sv, sv', c) && sv'.max == sv.max && sv'.routes == sv.routes
            && sv'.permits + HeldBy(sv', c) == sv.permits + HeldBy(sv, c)
  {
  }

  lemma LaterConserves(sv: Server, ev: Event)
    requires CallersOk(sv) && Enabled(sv, ev)
    requires ev.Unregister? || ev.Finish? || ev.NewAction? || ev.BeginClose? || ev.SendClosed?
    ensures var sv' := Next(sv, ev);
            && OneCaller(sv, sv', ev.c) && sv'.max == sv.max && sv'.routes == sv.routes
            && sv'.permits == sv.permits && HeldBy(sv', ev.c) == 0 == HeldBy(sv, ev.c)
  {
    assert ev.c in sv.callers ==> CallerOk(sv.callers[ev.c]);
  }

  lemma ResolvingConserves(sv: Server, ev: Event)
    requires Enabled(sv, ev) && (ev.NewOpen? || ev.Reserve? || ev.DropReservation? || ev.GiveUp?)
    ensures var sv' := Next(sv, ev);
            && OneCaller(sv, sv', ev.c) && sv'.max == sv.max && sv'.routes == sv.routes
            && sv'.permits + HeldBy(sv', ev.c) == sv.permits + HeldBy(sv, ev.c)
  {
  }

  predicate IsCallerEvent(ev: Event) {
    ev.NewOpen? || ev.Reserve? || ev.DropReservation? || ev.GiveUp? || ev.Register? || ev.Admit?
    || ev.Unregister? || ev.Finish? || ev.NewAction? || ev.BeginClose? || ev.SendClosed?
  }

  predicate IsRouteEvent(ev: Event) {
    ev.BeginDeactivation? || ev.RemoveRoute? || ev.Leave? || ev.ClearRoutes?
  }

  lemma WithoutRouteConserves(sv: Server, a: Address, gen: nat)
    ensures var sv' := WithoutRoute(sv, a, gen);
            sv'.permits + |sv'.routes| == sv.permits + |sv.routes|
  {
    if a in sv.routes {
      RouteRemoved(sv.routes, a);
    }
  }

  /** Removing a route frees exactly its permit. */
  lemma RouteEventConserves(sv: Server, ev: Event)
    requires Enabled(sv, ev) && IsRouteEvent(ev)
    ensures var sv' := Next(sv, ev);
            && sv'.callers == sv.callers && sv'.max == sv.max
            && sv'.permits + |sv'.routes| == sv.permits + |sv.routes|
  {
    match ev
    case RemoveRoute(gen) =>
      WithoutRouteConserves(SetPhase(sv, gen, Leaving), sv.tasks[gen].address, gen);
    case Leave(gen) =>
      var task := sv.tasks[gen];
      WithoutRouteConserves(SetTask(sv, gen, task.(phase := Gone, closed := true)), task.address, gen);
    case BeginDeactivation(gen) =>
      RouteAdded(sv.routes, sv.tasks[gen].address, Route(gen, false));
    case ClearRoutes =>
  }

  /** Nothing else touches permits, routes or callers. */
  lemma OtherEventFrame(sv: Server, ev: Event)
    requires Enabled(sv, ev) && !IsRouteEvent(ev) && !IsCallerEvent(ev) && !ev.Dispatch?
    ensures var sv' := Next(sv, ev);
            && sv'.callers == sv.callers && sv'.max == sv.max
            && sv'.permits == sv.permits && sv'.routes == sv.routes
  {
  }

  /** Capacity is conserved by every step. */
  lemma StepConserves(sv: Server, ev: Event)
    requires CapacityInv(sv) && CallersOk(sv) && Enabled(sv, ev)
    ensures CapacityInv(Next(sv, ev)) && CallersOk(Next(sv, ev)) && Next(sv, ev).max == sv.max
  {
    if ev.Dispatch? {
      DispatchOneCaller(sv, ev.c, ev.contended);
      OneCallerReservations(sv, Next(sv, ev), ev.c);
    } else if IsCallerEvent(ev) {
      CallerEventConserves(sv, ev);
      OneCallerReservations(sv, Next(sv, ev), ev.c);
    } else if IsRouteEvent(ev) {
      RouteEventConserves(sv, ev);
    } else {
      OtherEventFrame(sv, ev);
    }
  }

  // Tasks and routes.

  /** The task may still run one of the Actor's lifecycle or message methods. */
  predicate CanRun(phase: Phase) {
    phase.Activating? || phase.Waiting? || phase.Executing? || phase.IdleChecked?
    || phase.Deactivating? || phase.Draining?
  }

  /** The task is passivating: the Actor is being, or has been, deactivated for idleness. */
  predicate Passivating(phase: Phase) {
    phase.Deactivating? || phase.Releasing?
  }

  predicate Routed(sv: Server, a: Address, gen: nat) {
    a in sv.routes && sv.routes[a].generation == gen
  }

  /** No session registered at this address has had its SessionOpened accepted. */
  ghost predicate NoneAccepted(sv: Server, a: Address) {
    forall key :: key in sv.sessions && key.a == a ==> !sv.sessions[key]
  }

  ghost predicate TaskOk(sv: Server, gen: nat)
    requires gen in sv.tasks
  {
    var Task(a, phase, mailbox, closed) := sv.tasks[gen];
    && gen < sv.nextGeneration
    && (Passivating(phase) ==> mailbox == [] && !(Routed(sv, a, gen) && sv.routes[a].active))
    && (phase.ActivationFailed? || phase.FailingPending? ==> closed)
    && (Routed(sv, a, gen) && CanRun(phase) && !phase.Deactivating? ==> sv.routes[a].active)
    && (Routed(sv, a, gen) && (Passivating(phase) || (phase.IdleChecked? && mailbox == [])) ==> NoneAccepted(sv, a))
    && (sv.status.Running? ==>
          && (CanRun(phase) || phase.Releasing? ==> Routed(sv, a, gen))
          && (closed ==> !CanRun(phase)))
  }

  predicate RouteOk(sv: Server, a: Address)
    requires a in sv.routes
  {
    var gen := sv.routes[a].generation;
    && gen in sv.tasks && sv.tasks[gen].address == a
    && (!sv.routes[a].active ==> sv.tasks[gen].mailbox == [])
  }

  ghost predicate TaskInv(sv: Server) {
    && (forall gen :: gen in sv.tasks ==> TaskOk(sv, gen))
    && (forall a :: a in sv.routes ==> RouteOk(sv, a))
  }

  /** A step outside tasks and routes: sessions may vanish or arrive unaccepted. */
  ghost predicate QuietStep(sv: Server, sv': Server) {
    && sv'.tasks == sv.tasks && sv'.routes == sv.routes && sv'.nextGeneration == sv.nextGeneration
    && (sv'.status.Running? ==> sv.status.Running?)
    && (forall key :: key in sv'.sessions && sv'.sessions[key] ==> key in sv.sessions && sv.sessions[key])
  }

  lemma QuietStepKeepsTaskInv(sv: Server, sv': Server)
    requires TaskInv(sv) && QuietStep(sv, sv')
    ensures TaskInv(sv')
  {
    forall gen | gen in sv'.tasks ensures TaskOk(sv', gen) {
      assert TaskOk(sv, gen);
    }
    forall a | a in sv'.routes ensures RouteOk(sv', a) {
      assert RouteOk(sv, a);
    }
  }

  lemma QuietEventIsQuiet(sv: Server, ev: Event)
    requires Enabled(sv, ev)
    requires (IsCallerEvent(ev) && !ev.SendClosed?) || ev.Terminate? || ev.SetStatus?
    ensures QuietStep(sv, Next(sv, ev))
  {
    if ev.Admit? || ev.Register? {
      AdmissionIsQuiet(sv, ev);
    }
  }

  lemma AdmissionIsQuiet(sv: Server, ev: Event)
    requires Enabled(sv, ev) && (ev.Admit? || ev.Register?)
    ensures QuietStep(sv, Next(sv, ev))
  {
  }

  /** One task moves on: its address stays, and a deactivating route keeps an empty mailbox. */
  lemma TaskMoveKeepsTaskInv(sv: Server, gen: nat, task: Task)
    requires TaskInv(sv) && gen in sv.tasks && task.address == sv.tasks[gen].address
    requires sv.tasks[gen].mailbox == [] ==> task.mailbox == []
    requires TaskOk(SetTask(sv, gen, task), gen)
    ensures TaskInv(SetTask(sv, gen, task))
  {
    var sv' := SetTask(sv, gen, task);
    forall other | other in sv'.tasks ensures TaskOk(sv', other) {
      assert other != gen ==> TaskOk(sv, other);
    }
    forall a | a in sv'.routes ensures RouteOk(sv', a) {
      assert RouteOk(sv, a);
    }
  }

  lemma TaskEventKeepsTaskInv(sv: Server, ev: Event)
    requires TaskInv(sv) && Enabled(sv, ev)
    requires ev.Activate? || ev.Receive? || ev.Executed? || ev.CheckIdle? || ev.Deactivated?
             || ev.ObserveShutdown? || ev.DrainOne? || ev.Drained? || ev.Abort? || ev.FailPending?
    ensures TaskInv(Next(sv, ev))
  {
    if ev.Activate? || ev.Receive? || ev.Executed? || ev.CheckIdle? || ev.Deactivated? {
      ServingEventMovesTask(sv, ev);
    } else {
      EndingEventMovesTask(sv, ev);
    }
    if Next(sv, ev) != sv {
      TaskMoveKeepsTaskInv(sv, ev.gen, Next(sv, ev).tasks[ev.gen]);
    }
  }

  /** The step changes nothing, or one task only, in a way that its invariant allows. */
  ghost predicate MovesTask(sv: Server, sv': Server, gen: nat) {
    sv' == sv
    || (&& gen in sv.tasks && gen in sv'.tasks && sv' == SetTask(sv, gen, sv'.tasks[gen])
        && sv'.tasks[gen].address == sv.tasks[gen].address
        && (sv.tasks[gen].mailbox == [] ==> sv'.tasks[gen].mailbox == [])
        && TaskOk(sv', gen))
  }

  lemma ServingEventMovesTask(sv: Server, ev: Event)
    requires TaskInv(sv) && Enabled(sv, ev)
    requires ev.Activate? || ev.Receive? || ev.Executed? || ev.CheckIdle? || ev.Deactivated?
    ensures MovesTask(sv, Next(sv, ev), ev.gen)
  {
    assert TaskOk(sv, ev.gen);
  }

  lemma EndingEventMovesTask(sv: Server, ev: Event)
    requires TaskInv(sv) && Enabled(sv, ev)
    requires ev.ObserveShutdown? || ev.DrainOne? || ev.Drained? || ev.Abort? || ev.FailPending?
    ensures MovesTask(sv, Next(sv, ev), ev.gen)
  {
    assert TaskOk(sv, ev.gen);
  }

  /** Removing a route of a task that needs it no more. */
  lemma RouteRemovalKeepsTaskInv(sv: Server, a: Address, gen: nat)
    requires TaskInv(sv) && gen in sv.tasks && sv.tasks[gen].address == a
    requires sv.status.Running? ==> !CanRun(sv.tasks[gen].phase) && !sv.tasks[gen].phase.Releasing?
    ensures TaskInv(WithoutRoute(sv, a, gen))
  {
    var sv' := WithoutRoute(sv, a, gen);
    forall other | other in sv'.tasks ensures TaskOk(sv', other) {
      assert TaskOk(sv, other);
    }
    forall b | b in sv'.routes ensures RouteOk(sv', b) {
      assert RouteOk(sv, b);
    }
  }

  lemma LeavingKeepsTaskInv(sv: Server, ev: Event)
    requires TaskInv(sv) && Enabled(sv, ev) && (ev.RemoveRoute? || ev.Leave?)
    ensures TaskInv(Next(sv, ev))
  {
    assert TaskOk(sv, ev.gen);
    var next := if sv.tasks[ev.gen].phase.ActivationFailed? then FailingPending else Leaving;
    var task := if ev.RemoveRoute? then sv.tasks[ev.gen].(phase := next)
                else sv.tasks[ev.gen].(phase := Gone, closed := true, mailbox := []);
    TaskMoveKeepsTaskInv(sv, ev.gen, task);
    RouteRemovalKeepsTaskInv(SetTask(sv, ev.gen, task), task.address, ev.gen);
    assert Next(sv, ev) == WithoutRoute(SetTask(sv, ev.gen, task), task.address, ev.gen);
  }

  lemma BeginDeactivationKeepsTaskInv(sv: Server, gen: nat)
    requires TaskInv(sv) && Enabled(sv, BeginDeactivation(gen))
    ensures TaskInv(AfterBeginDeactivation(sv, gen))
  {
    var sv' := AfterBeginDeactivation(sv, gen);
    assert TaskOk(sv, gen);
    forall other | other in sv'.tasks ensures TaskOk(sv', other) {
      assert TaskOk(sv, other);
    }
    forall a | a in sv'.routes ensures RouteOk(sv', a) {
      assert RouteOk(sv, a);
    }
  }

  lemma ClearRoutesKeepsTaskInv(sv: Server)
    requires TaskInv(sv) && Enabled(sv, ClearRoutes)
    ensures TaskInv(Next(sv, ClearRoutes))
  {
    var sv' := Next(sv, ClearRoutes);
    forall gen | gen in sv'.tasks ensures TaskOk(sv', gen) {
      assert TaskOk(sv, gen);
    }
  }

  /** A message reaches only the task of an Active route. */
  lemma PostKeepsTaskInv(sv: Server, a: Address, message: Message)
    requires TaskInv(sv) && a in sv.routes && sv.routes[a].active
    ensures var gen := sv.routes[a].generation;
            gen in sv.tasks &&
            TaskInv(SetTask(sv, gen, sv.tasks[gen].(mailbox := sv.tasks[gen].mailbox + [message])))
  {
    var gen := sv.routes[a].generation;
    assert RouteOk(sv, a) && TaskOk(sv, gen);
    var sv' := SetTask(sv, gen, sv.tasks[gen].(mailbox := sv.tasks[gen].mailbox + [message]));
    forall other | other in sv'.tasks ensures TaskOk(sv', other) {
      assert TaskOk(sv, other);
    }
    forall b | b in sv'.routes ensures RouteOk(sv', b) {
      assert RouteOk(sv, b);
    }
  }

  lemma SpawnKeepsTaskInv(sv: Server, a: Address, message: Message, reserved: bool, contended: bool)
    requires TaskInv(sv) && a !in sv.routes
    ensures TaskInv(Spawn(sv, a, message, reserved, contended).0)
  {
    var sv' := Spawn(sv, a, message, reserved, contended).0;
    forall gen | gen in sv'.tasks ensures TaskOk(sv', gen) {
      assert gen in sv.tasks ==> TaskOk(sv, gen);
    }
    forall b | b in sv'.routes ensures RouteOk(sv', b) {
      if b in sv.routes {
        assert RouteOk(sv, b) && TaskOk(sv, sv.routes[b].generation);
      }
    }
  }

  /** An accepted message sits in the mailbox of the address's Active route. */
  predicate AcceptedBy(sv: Server, a: Address, gen: nat) {
    Routed(sv, a, gen) && sv.routes[a].active && gen in sv.tasks && sv.tasks[gen].mailbox != []
  }

  lemma DispatchKeepsTaskInv(sv: Server, a: Address, message: Message, reserved: bool, contended: bool)
    requires TaskInv(sv)
    ensures var (next, outcome) := DispatchLocked(sv, a, message, reserved, contended);
            TaskInv(next) && (outcome.Accepted? ==> AcceptedBy(next, a, outcome.generation))
  {
    if a !in sv.routes {
      SpawnKeepsTaskInv(sv, a, message, reserved, false);
    } else {
      var gen := sv.routes[a].generation;
      assert RouteOk(sv, a) && TaskOk(sv, gen);
      QuietStepKeepsTaskInv(sv, GiveBack(sv, reserved));
      if sv.routes[a].active && sv.tasks[gen].closed {
        RouteRemovalKeepsTaskInv(sv, a, gen);
        SpawnKeepsTaskInv(WithoutRoute(sv, a, gen), a, message, reserved, contended);
      } else if sv.routes[a].active {
        PostKeepsTaskInv(GiveBack(sv, reserved), a, message);
      }
    }
  }

  /** Accepting a SessionOpened cannot race with a passivation: the mailbox is not empty. */
  lemma AcceptKeepsTaskInv(sv: Server, key: Key, gen: nat)
    requires TaskInv(sv) && AcceptedBy(sv, key.a, gen)
    ensures TaskInv(MarkAccepted(sv, key))
  {
    var sv' := MarkAccepted(sv, key);
    forall other | other in sv'.tasks ensures TaskOk(sv', other) {
      assert TaskOk(sv, other);
    }
    forall a | a in sv'.routes ensures RouteOk(sv', a) {
      assert RouteOk(sv, a);
    }
  }

  lemma DispatchStepKeepsTaskInv(sv: Server, c: nat, contended: bool)
    requires TaskInv(sv) && ReadyToDispatch(sv, c)
    ensures TaskInv(AfterDispatch(sv, c, contended))
  {
    match sv.callers[c]
    case Opening(key, reserved, _) =>
      DispatchKeepsTaskInv(sv, key.a, SessionOpened(key.sid), reserved, contended);
      var (next, outcome) := DispatchLocked(sv, key.a, SessionOpened(key.sid), reserved, contended);
      match outcome {
        case Accepted(gen) =>
          var noted := SetCaller(next, c, Opening(key, false, Stage.Awaiting(gen)));
          QuietStepKeepsTaskInv(next, noted);
          AcceptKeepsTaskInv(noted, key, gen);
        case Refused(error) =>
          QuietStepKeepsTaskInv(next, SetCaller(next, c, Opening(key, false, Rejected(error))));
      }
    case Acting(key, _) =>
      DispatchKeepsTaskInv(sv, key.a, Action(key.sid), false, contended);
      var next := DispatchLocked(sv, key.a, Action(key.sid), false, contended).0;
      QuietStepKeepsTaskInv(next, EndCaller(next, c));
  }

  lemma SendClosedKeepsTaskInv(sv: Server, c: nat)
    requires TaskInv(sv) && Enabled(sv, SendClosed(c))
    ensures TaskInv(AfterSendClosed(sv, c))
  {
    var key := sv.callers[c].key;
    if key.a in sv.routes && sv.routes[key.a].active {
      var gen := sv.routes[key.a].generation;
      PostKeepsTaskInv(sv, key.a, SessionClosed(key.sid));
      var posted := SetTask(sv, gen, sv.tasks[gen].(mailbox := sv.tasks[gen].mailbox + [SessionClosed(key.sid)]));
      var sv' := AfterSendClosed(sv, c);
      if sv'.tasks == posted.tasks {
        QuietStepKeepsTaskInv(posted, sv');
      } else {
        QuietStepKeepsTaskInv(sv, sv');
      }
    } else {
      QuietStepKeepsTaskInv(sv, AfterSendClosed(sv, c));
    }
  }

  /** Every step keeps the task and route invariants. */
  lemma StepKeepsTaskInv(sv: Server, ev: Event)
    requires TaskInv(sv) && Enabled(sv, ev)
    ensures TaskInv(Next(sv, ev))
  {
    if ev.Dispatch? {
      DispatchStepKeepsTaskInv(sv, ev.c, ev.contended);
    } else if ev.SendClosed? {
      SendClosedKeepsTaskInv(sv, ev.c);
    } else if ev.RemoveRoute? || ev.Leave? {
      LeavingKeepsTaskInv(sv, ev);
    } else if ev.BeginDeactivation? {
      BeginDeactivationKeepsTaskInv(sv, ev.gen);
    } else if ev.ClearRoutes? {
      ClearRoutesKeepsTaskInv(sv);
    } else if IsCallerEvent(ev) || ev.Terminate? || ev.SetStatus? {
      QuietEventIsQuiet(sv, ev);
      QuietStepKeepsTaskInv(sv, Next(sv, ev));
    } else {
      TaskEventKeepsTaskInv(sv, ev);
    }
  }

  // Closing.

  predicate IsCloser(caller: Caller, key: Key) {
    caller == Closing(key)
  }

  /** The callers that have closed this session and not yet told its Actor. */
  function Closers(callers: map<nat, Caller>, key: Key): set<nat> {
    set c | c in callers && IsCloser(callers[c], key)
  }

  /** A registration is closed at most once, and reported at most once per closure. */
  predicate CloseInv(sv: Server, key: Key) {
    && Count(sv.log.closures, key) + (if key in sv.sessions then 1 else 0) <= Count(sv.log.registrations, key)
    && Count(sv.log.closedSent, key) + |Closers(sv.callers, key)| <= Count(sv.log.closures, key)
  }

  lemma SetCallerClosers(callers: map<nat, Caller>, c: nat, caller: Caller, key: Key)
    ensures |Closers(callers[c := caller], key)|
         == |Closers(callers, key) - {c}| + if IsCloser(caller, key) then 1 else 0
    ensures |Closers(callers, key)|
         == |Closers(callers, key) - {c}| + if c in callers && IsCloser(callers[c], key) then 1 else 0
  {
    var rest := Closers(callers, key) - {c};
    assert Closers(callers[c := caller], key) == if IsCloser(caller, key) then rest + {c} else rest;
    CloserCounts(callers, c, key);
  }

  lemma CloserCounts(callers: map<nat, Caller>, c: nat, key: Key)
    ensures |Closers(callers, key)|
         == |Closers(callers, key) - {c}| + if c in callers && IsCloser(callers[c], key) then 1 else 0
  {
    var rest := Closers(callers, key) - {c};
    assert Closers(callers, key) == if c in callers && IsCloser(callers[c], key) then rest + {c} else rest;
  }

  lemma EndCallerClosers(callers: map<nat, Caller>, c: nat, key: Key)
    ensures Closers(callers - {c}, key) == Closers(callers, key) - {c}
  {
  }

  lemma DispatchLeavesLog(sv: Server, c: nat, contended: bool)
    requires ReadyToDispatch(sv, c)
    ensures ClosesNothing(sv, AfterDispatch(sv, c, contended), c)
  {
    match sv.callers[c]
    case Opening(key, reserved, _) =>
      DispatchFrame(sv, key.a, SessionOpened(key.sid), reserved, contended);
    case Acting(key, _) =>
      DispatchFrame(sv, key.a, Action(key.sid), false, contended);
  }

  lemma DispatchFrame(sv: Server, a: Address, message: Message, reserved: bool, contended: bool)
    ensures var next := DispatchLocked(sv, a, message, reserved, contended).0;
            && next.log == sv.log && next.sessions == sv.sessions && next.callers == sv.callers
            && next.status == sv.status
  {
  }

  /** A step that closes nothing: the accounts stay, and one caller may come, move on or go. */
  predicate ClosesNothing(sv: Server, sv': Server, c: nat) {
    && sv'.log == sv.log && sv'.sessions.Keys <= sv.sessions.Keys
    && (sv'.callers == sv.callers - {c}
        || (c in sv'.callers && !sv'.callers[c].Closing? && sv'.callers == sv.callers[c := sv'.callers[c]]))
  }

  lemma ClosesNothingKeepsCloseInv(sv: Server, sv': Server, c: nat, key: Key)
    requires CloseInv(sv, key) && ClosesNothing(sv, sv', c)
    ensures CloseInv(sv', key)
  {
    SetCallerClosers(sv.callers, c, if c in sv'.callers then sv'.callers[c] else Acting(key, false), key);
    EndCallerClosers(sv.callers, c, key);
  }

  lemma PlainCallerEventClosesNothing(sv: Server, ev: Event)
    requires Enabled(sv, ev) && IsCallerEvent(ev) && !ev.Register? && !ev.BeginClose? && !ev.SendClosed?
    ensures ClosesNothing(sv, Next(sv, ev), ev.c)
  {
  }

  lemma RegisterKeepsCloseInv(sv: Server, c: nat, key: Key)
    requires CloseInv(sv, key) && Enabled(sv, Register(c))
    ensures CloseInv(AfterRegister(sv, c), key)
  {
    var Opening(own, reserved, _) := sv.callers[c];
    SetCallerClosers(sv.callers, c, Opening(own, reserved, Registered), key);
    EndCallerClosers(sv.callers, c, key);
  }

  lemma ClosingKeepsCloseInv(sv: Server, ev: Event, key: Key)
    requires CloseInv(sv, key) && Enabled(sv, ev) && (ev.BeginClose? || ev.SendClosed?)
    ensures CloseInv(Next(sv, ev), key)
  {
    SetCallerClosers(sv.callers, ev.c, if ev.BeginClose? then Closing(ev.key) else Acting(key, false), key);
    EndCallerClosers(sv.callers, ev.c, key);
  }

  lemma CallerEventKeepsCloseInv(sv: Server, ev: Event, key: Key)
    requires CloseInv(sv, key) && Enabled(sv, ev) && IsCallerEvent(ev)
    ensures CloseInv(Next(sv, ev), key)
  {
    if ev.Register? {
      RegisterKeepsCloseInv(sv, ev.c, key);
    } else if ev.BeginClose? || ev.SendClosed? {
      ClosingKeepsCloseInv(sv, ev, key);
    } else {
      PlainCallerEventClosesNothing(sv, ev);
      ClosesNothingKeepsCloseInv(sv, Next(sv, ev), ev.c, key);
    }
  }

  /** Every step keeps the closing accounts. */
  lemma StepKeepsCloseInv(sv: Server, ev: Event, key: Key)
    requires CloseInv(sv, key) && Enabled(sv, ev)
    ensures CloseInv(Next(sv, ev), key)
  {
    if ev.Dispatch? {
      DispatchLeavesLog(sv, ev.c, ev.contended);
      ClosesNothingKeepsCloseInv(sv, Next(sv, ev), ev.c, key);
    } else if IsCallerEvent(ev) {
      CallerEventKeepsCloseInv(sv, ev, key);
    } else if IsRouteEvent(ev) {
      RouteEventConserves(sv, ev);
    } else {
      OtherEventFrame(sv, ev);
    }
  }
}
