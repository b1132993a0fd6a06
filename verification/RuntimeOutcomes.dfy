/**
 What each critical section of a server leads to, in terms of what it finds; and that
 mailboxes are bounded: a full one turns a message away and nothing else changes.
 */
module RuntimeOutcomes {
  import opened Coordination
  import opened Runtime
  import opened RuntimeProofs
  import opened RuntimeRuns

  function Returned(reserved: bool): nat {
    if reserved then 1 else 0
  }

  /** The address has an Active route whose Actor still takes messages. */
  predicate Open(sv: Server, a: Address) {
    && a in sv.routes && sv.routes[a].active && sv.routes[a].generation in sv.tasks
    && !sv.tasks[sv.routes[a].generation].closed
  }

  /** When an opening caller's steps can be taken. */
  lemma OpeningGuards(sv: Server, c: nat, key: Key, flag: bool)
    requires c in sv.callers && sv.callers[c].Opening?
    ensures var Opening(_, reserved, stage) := sv.callers[c];
            && !Enabled(sv, NewOpen(c, key)) && !Enabled(sv, NewAction(c, key)) && !Enabled(sv, BeginClose(c, key))
            && (Enabled(sv, Reserve(c)) <==> stage == Resolving && !reserved && sv.permits > 0)
            && (Enabled(sv, DropReservation(c)) <==> stage == Resolving && reserved)
            && (Enabled(sv, GiveUp(c)) <==> stage == Resolving)
            && (Enabled(sv, Register(c)) <==> stage == Resolving)
            && (Enabled(sv, Admit(c, flag)) <==> stage == Registered)
            && (Enabled(sv, Dispatch(c, flag)) <==> stage == Admitted)
            && (Enabled(sv, Unregister(c)) <==> stage.Rejected?)
            && (Enabled(sv, Finish(c, flag)) <==> stage.Awaiting?)
            && !Enabled(sv, SendClosed(c))
  {
  }

  /** When any other caller's steps, and those of nobody in particular, can be taken. */
  lemma OtherGuards(sv: Server, c: nat, key: Key, flag: bool, status: Status)
    ensures c !in sv.callers ==>
              && Enabled(sv, NewOpen(c, key)) && (Enabled(sv, NewAction(c, key)) <==> key in sv.sessions)
              && (Enabled(sv, BeginClose(c, key)) <==> key in sv.sessions)
    ensures c in sv.callers && sv.callers[c].Acting? ==>
              && (Enabled(sv, Admit(c, flag)) <==> !sv.callers[c].admitted)
              && (Enabled(sv, Dispatch(c, flag)) <==> sv.callers[c].admitted)
    ensures c in sv.callers && sv.callers[c].Closing? ==> Enabled(sv, SendClosed(c))
    ensures Enabled(sv, Terminate(key)) <==> key in sv.sessions
    ensures Enabled(sv, ClearRoutes) <==> sv.status != Running
    ensures Enabled(sv, SetStatus(status)) <==> status != Running
  {
  }

  /** When the steps of an Actor task can be taken: each phase has its own, and an abort cuts any of them short. */
  lemma TaskGuards(sv: Server, gen: nat, ok: bool)
    requires gen in sv.tasks
    ensures var Task(_, phase, mailbox, _) := sv.tasks[gen];
            && (Enabled(sv, Activate(gen, ok)) <==> phase == Activating)
            && (Enabled(sv, Receive(gen)) <==> phase == Waiting && mailbox != [])
            && (Enabled(sv, Executed(gen, ok)) <==> phase.Executing?)
            && (Enabled(sv, CheckIdle(gen)) <==> phase == Waiting)
  {
  }

  lemma DrainingGuards(sv: Server, gen: nat, ok: bool)
    requires gen in sv.tasks
    ensures var Task(_, phase, mailbox, _) := sv.tasks[gen];
            && (Enabled(sv, ObserveShutdown(gen)) <==> phase == Waiting && sv.status != Running)
            && (Enabled(sv, DrainOne(gen, ok)) <==> phase == Draining && mailbox != [])
            && (Enabled(sv, Drained(gen)) <==> phase == Draining && mailbox == [])
  {
  }

  lemma EndingGuards(sv: Server, gen: nat)
    requires gen in sv.tasks
    ensures var phase := sv.tasks[gen].phase;
            && (Enabled(sv, BeginDeactivation(gen)) <==> phase == IdleChecked)
            && (Enabled(sv, Deactivated(gen)) <==> phase == Deactivating)
            && (Enabled(sv, RemoveRoute(gen)) <==> phase == Releasing || phase == ActivationFailed)
  {
  }

  lemma LeavingGuards(sv: Server, gen: nat)
    requires gen in sv.tasks
    ensures var phase := sv.tasks[gen].phase;
            && (Enabled(sv, FailPending(gen)) <==> phase == FailingPending)
            && (Enabled(sv, Leave(gen)) <==> phase == Leaving)
            && (Enabled(sv, Abort(gen)) <==> sv.status != Running && phase != Gone)
  {
  }

  /**
   An Active route with an open mailbox accepts exactly if the mailbox has room, and
   returns the reservation either way.
   */
  lemma OpenRouteOutcome(sv: Server, a: Address, message: Message, reserved: bool, contended: bool)
    requires Open(sv, a)
    ensures var gen := sv.routes[a].generation;
            var task := sv.tasks[gen];
            var kept := sv.(permits := sv.permits + Returned(reserved));
            DispatchLocked(sv, a, message, reserved, contended)
            == if |task.mailbox| < sv.mailboxCapacity
               then (kept.(tasks := sv.tasks[gen := task.(mailbox := task.mailbox + [message])]), Accepted(gen))
               else (kept, Refused(MailboxFull))
  {
  }

  /** A Deactivating route turns the message away and returns the reservation. */
  lemma DeactivatingRouteOutcome(sv: Server, a: Address, message: Message, reserved: bool, contended: bool)
    requires a in sv.routes && !sv.routes[a].active
    ensures DispatchLocked(sv, a, message, reserved, contended)
         == (sv.(permits := sv.permits + Returned(reserved)), Refused(ActorDeactivating))
  {
  }

  /**
   Without a route, or with an Active one whose mailbox is closed, the next generation is
   spawned with this message if a reservation or a free permit is there, the closed
   route's own permit included unless someone else takes it first; otherwise the server is
   at capacity and the closed route is gone.
   */
  lemma SpawningOutcome(sv: Server, a: Address, message: Message, reserved: bool, contended: bool)
    requires a !in sv.routes || (sv.routes[a].active && !Open(sv, a))
    ensures var closed := a in sv.routes;
            var free := sv.permits + if closed then 1 else 0;
            var gen := sv.nextGeneration;
            DispatchLocked(sv, a, message, reserved, contended)
            == if reserved || (free > 0 && !(closed && contended)) then
                 (sv.(permits := if reserved then free else free - 1, nextGeneration := gen + 1,
                      tasks := sv.tasks[gen := Task(a, Activating, [message], false)],
                      routes := sv.routes[a := Route(gen, true)]),
                  Accepted(gen))
               else
                 (sv.(permits := free, routes := sv.routes - {a}), Refused(RuntimeAtCapacity))
  {
    if a in sv.routes {
      assert (sv.routes - {a})[a := Route(sv.nextGeneration, true)] == sv.routes[a := Route(sv.nextGeneration, true)];
    } else {
      assert sv.routes - {a} == sv.routes;
    }
  }

  /** The head of `dispatch_message`: first the authority, then the status; each refusal has its error. */
  lemma AdmissionOutcome(sv: Server, c: nat, authorized: bool)
    requires Enabled(sv, Admit(c, authorized))
    ensures var sv' := Next(sv, Admit(c, authorized));
            match sv.callers[c]
            case Opening(key, reserved, _) =>
              if authorized && sv.status == Running
              then sv' == sv.(callers := sv.callers[c := Opening(key, reserved, Admitted)])
              else
                var error := if !authorized || sv.status == Fenced then NodeFenced
                             else if sv.status == ShuttingDown then RuntimeShuttingDown
                             else RuntimeStopped;
                sv' == sv.(callers := sv.callers[c := Opening(key, false, Rejected(error))],
                           permits := sv.permits + Returned(reserved))
            case Acting(key, _) =>
              sv' == sv.(callers := if authorized && sv.status == Running then sv.callers[c := Acting(key, true)]
                                    else sv.callers - {c})
            case Closing(_) => true
  {
  }

  /** What a dispatch means to its caller, and which session it marks as accepted. */
  lemma DispatchOutcome(sv: Server, c: nat, contended: bool)
    requires Enabled(sv, Dispatch(c, contended))
    ensures var sv' := Next(sv, Dispatch(c, contended));
            match sv.callers[c]
            case Opening(key, reserved, _) =>
              var (next, outcome) := DispatchLocked(sv, key.a, SessionOpened(key.sid), reserved, contended);
              && sv' == next.(callers := sv'.callers, sessions := sv'.sessions)
              && sv'.callers == sv.callers[c := Opening(key, false,
                   match outcome case Accepted(gen) => Stage.Awaiting(gen) case Refused(error) => Rejected(error))]
              && sv'.sessions == if outcome.Accepted? && key in sv.sessions then sv.sessions[key := true]
                                 else sv.sessions
            case Acting(key, _) =>
              var (next, outcome) := DispatchLocked(sv, key.a, Action(key.sid), false, contended);
              sv' == next.(callers := sv.callers - {c})
            case Closing(_) => true
  {
    match sv.callers[c]
    case Opening(key, reserved, _) => DispatchFrame(sv, key.a, SessionOpened(key.sid), reserved, contended);
    case Acting(key, _) => DispatchFrame(sv, key.a, Action(key.sid), false, contended);
  }

  /** The other steps of callers. */
  lemma CallerOutcome(sv: Server, ev: Event)
    requires Enabled(sv, ev)
    ensures var sv' := Next(sv, ev);
            match ev
            case NewOpen(c, key) => sv' == sv.(callers := sv.callers[c := Opening(key, false, Resolving)])
            case NewAction(c, key) => sv' == sv.(callers := sv.callers[c := Acting(key, false)])
            case Reserve(c) =>
              && sv.permits > 0
              && sv' == sv.(permits := sv.permits - 1,
                            callers := sv.callers[c := Opening(sv.callers[c].key, true, Resolving)])
            case DropReservation(c) =>
              sv' == sv.(permits := sv.permits + 1,
                         callers := sv.callers[c := Opening(sv.callers[c].key, false, Resolving)])
            case GiveUp(c) =>
              sv' == sv.(permits := sv.permits + Returned(sv.callers[c].reserved), callers := sv.callers - {c})
            case Register(c) =>
              var Opening(key, reserved, _) := sv.callers[c];
              sv' == if key in sv.sessions
                     then sv.(permits := sv.permits + Returned(reserved), callers := sv.callers - {c})
                     else sv.(callers := sv.callers[c := Opening(key, reserved, Registered)],
                              sessions := sv.sessions[key := false], log := sv'.log)
            case Unregister(c) => sv' == sv.(callers := sv.callers - {c}, sessions := sv.sessions - {sv.callers[c].key})
            case Finish(c, ok) =>
              sv' == sv.(callers := sv.callers - {c},
                         sessions := if ok then sv.sessions else sv.sessions - {sv.callers[c].key})
            case BeginClose(c, key) =>
              sv' == sv.(callers := sv.callers[c := Closing(key)], sessions := sv.sessions - {key}, log := sv'.log)
            case Terminate(key) => sv' == sv.(sessions := sv.sessions - {key})
            case SetStatus(status) => sv' == sv.(status := status)
            case _ => true
  {
  }

  /** A closed session is reported exactly to an Active Actor whose open mailbox has room; nothing else is touched. */
  lemma SendClosedOutcome(sv: Server, c: nat)
    requires Enabled(sv, SendClosed(c))
    ensures var key := sv.callers[c].key;
            var sv' := Next(sv, SendClosed(c));
            if Open(sv, key.a) && |sv.tasks[sv.routes[key.a].generation].mailbox| < sv.mailboxCapacity then
              var gen := sv.routes[key.a].generation;
              var queue := sv.tasks[gen].mailbox + [SessionClosed(key.sid)];
              && sv' == sv.(callers := sv.callers - {c}, tasks := sv.tasks[gen := sv.tasks[gen].(mailbox := queue)],
                            log := sv'.log)
              && Count(sv'.log.closedSent, key) == Count(sv.log.closedSent, key) + 1
            else
              sv' == sv.(callers := sv.callers - {c})
  {
  }

  /** The accounts: a registration, a closure and a report each count once, for their session only. */
  lemma LogOutcome(sv: Server, ev: Event, key: Key)
    requires Enabled(sv, ev)
    ensures var log, log' := sv.log, Next(sv, ev).log;
            && Count(log'.registrations, key)
               == Count(log.registrations, key)
                  + (if ev.Register? && sv.callers[ev.c].key == key && key !in sv.sessions then 1 else 0)
            && Count(log'.closures, key)
               == Count(log.closures, key) + (if ev.BeginClose? && ev.key == key then 1 else 0)
  {
    if ev.Dispatch? {
      DispatchOutcome(sv, ev.c, ev.contended);
      DispatchLeavesLog(sv, ev.c, ev.contended);
    }
  }

  predicate HasLiveSession(sv: Server, a: Address) {
    exists key :: key in sv.sessions && key.a == a
  }

  /** The steps of an Actor task outside the route table: each moves its own phase, mailbox and receiver only. */
  lemma TaskOutcome(sv: Server, ev: Event)
    requires Enabled(sv, ev)
    requires ev.Activate? || ev.Receive? || ev.Executed? || ev.CheckIdle? || ev.Deactivated? || ev.ObserveShutdown?
             || ev.DrainOne? || ev.Drained? || ev.Abort? || ev.FailPending?
    ensures var task := sv.tasks[ev.gen];
            var task' := match ev
              case Activate(_, ok) =>
                if ok then task.(phase := Waiting) else task.(phase := ActivationFailed, closed := true)
              case Receive(_) => task.(phase := Executing(task.mailbox[0]), mailbox := task.mailbox[1..])
              case Executed(_, ok) => task.(phase := if ok then Waiting else Leaving)
              case CheckIdle(_) => if HasLiveSession(sv, task.address) then task else task.(phase := IdleChecked)
              case Deactivated(_) => task.(phase := Releasing)
              case ObserveShutdown(_) => task.(phase := Draining, closed := true)
              case DrainOne(_, ok) => task.(phase := if ok then Draining else Leaving, mailbox := task.mailbox[1..])
              case FailPending(_) => task.(phase := Leaving, mailbox := [])
              case _ => task.(phase := Leaving);
            Next(sv, ev) == sv.(tasks := sv.tasks[ev.gen := task'])
  {
  }

  /** The route of this generation goes and frees its permit; a newer generation's stays. */
  lemma RouteLost(sv: Server, a: Address, gen: nat)
    ensures WithoutRoute(sv, a, gen)
         == if a in sv.routes && sv.routes[a].generation == gen
            then sv.(routes := sv.routes - {a}, permits := sv.permits + 1)
            else sv
  {
  }

  /** The steps of an Actor task at the route table. */
  lemma TaskRouteOutcome(sv: Server, ev: Event)
    requires Enabled(sv, ev) && (ev.BeginDeactivation? || ev.RemoveRoute? || ev.Leave?)
    ensures var task := sv.tasks[ev.gen];
            var own := task.address in sv.routes && sv.routes[task.address].generation == ev.gen;
            var sv' := Next(sv, ev);
            match ev
            case BeginDeactivation(gen) =>
              if own && task.mailbox == []
              then sv' == sv.(tasks := sv.tasks[gen := task.(phase := Deactivating)],
                              routes := sv.routes[task.address := Route(gen, false)])
              else sv' == sv.(tasks := sv.tasks[gen := task.(phase := Waiting)])
            case RemoveRoute(gen) =>
              && sv'.tasks == sv.tasks[gen := task.(
                                         phase := if task.phase == Releasing then Leaving else FailingPending)]
              && LosesRoute(sv, sv', task.address, own)
            case _ =>
              && sv'.tasks == sv.tasks[ev.gen := task.(phase := Gone, closed := true, mailbox := [])]
              && LosesRoute(sv, sv', task.address, own)
  {
  }

  /** A server that no longer runs drops all its routes, and their permits are free again. */
  lemma ClearRoutesOutcome(sv: Server)
    requires sv.status != Running
    ensures Enabled(sv, ClearRoutes)
    ensures Next(sv, ClearRoutes) == sv.(routes := map[], permits := sv.permits + |sv.routes|)
  {
  }

  /** Exactly the route of this address goes, if it is the task's own, and its permit is free again. */
  predicate LosesRoute(sv: Server, sv': Server, a: Address, own: bool) {
    sv' == sv.(tasks := sv'.tasks, routes := if own then sv.routes - {a} else sv.routes,
               permits := if own then sv.permits + 1 else sv.permits)
  }

  // Bounded mailboxes.

  ghost predicate Bounded(sv: Server) {
    forall gen :: gen in sv.tasks ==> |sv.tasks[gen].mailbox| <= sv.mailboxCapacity
  }

  lemma LockedKeepsBounded(sv: Server, a: Address, message: Message, reserved: bool, contended: bool)
    requires Bounded(sv) && sv.mailboxCapacity >= 1
    ensures Bounded(DispatchLocked(sv, a, message, reserved, contended).0)
    ensures DispatchLocked(sv, a, message, reserved, contended).0.mailboxCapacity == sv.mailboxCapacity
  {
    if Open(sv, a) {
      OpenRouteOutcome(sv, a, message, reserved, contended);
    } else if a in sv.routes && !sv.routes[a].active {
      DeactivatingRouteOutcome(sv, a, message, reserved, contended);
    } else {
      SpawningOutcome(sv, a, message, reserved, contended);
    }
  }

  lemma DispatchKeepsBounded(sv: Server, c: nat, contended: bool)
    requires Bounded(sv) && sv.mailboxCapacity >= 1 && Enabled(sv, Dispatch(c, contended))
    ensures var sv' := Next(sv, Dispatch(c, contended)); Bounded(sv') && sv'.mailboxCapacity == sv.mailboxCapacity
  {
    DispatchOutcome(sv, c, contended);
    match sv.callers[c]
    case Opening(key, reserved, _) => LockedKeepsBounded(sv, key.a, SessionOpened(key.sid), reserved, contended);
    case Acting(key, _) => LockedKeepsBounded(sv, key.a, Action(key.sid), false, contended);
  }

  lemma OtherKeepsBounded(sv: Server, ev: Event)
    requires Bounded(sv) && Enabled(sv, ev) && !ev.Dispatch?
    ensures Bounded(Next(sv, ev)) && Next(sv, ev).mailboxCapacity == sv.mailboxCapacity
  {
    if ev.SendClosed? {
      SendClosedOutcome(sv, ev.c);
    } else if ev.Admit? {
      AdmissionOutcome(sv, ev.c, ev.authorized);
    } else if IsCallerEvent(ev) || ev.Terminate? || ev.SetStatus? {
      CallerOutcome(sv, ev);
    } else {
      TaskKeepsBounded(sv, ev);
    }
  }

  lemma TaskKeepsBounded(sv: Server, ev: Event)
    requires Bounded(sv) && Enabled(sv, ev) && !ev.Dispatch?
    requires !IsCallerEvent(ev) && !ev.Terminate? && !ev.SetStatus?
    ensures Bounded(Next(sv, ev)) && Next(sv, ev).mailboxCapacity == sv.mailboxCapacity
  {
    if ev.BeginDeactivation? || ev.RemoveRoute? || ev.Leave? {
      TaskRouteOutcome(sv, ev);
    } else if !ev.ClearRoutes? {
      TaskOutcome(sv, ev);
    }
  }

  /** In every run every mailbox holds at most as many messages as its capacity, which is at least one. */
  lemma {:induction false} MailboxesBounded(limits: Limits, run: Run, i: nat)
    requires limits.mailboxCapacity >= 1 && i <= |run|
    ensures Bounded(ServerAt(limits, run, i)) && ServerAt(limits, run, i).mailboxCapacity == limits.mailboxCapacity
  {
    if i > 0 {
      MailboxesBounded(limits, run, i - 1);
      var before := ServerAt(limits, run, i - 1);
      if Enabled(before, run[i - 1]) {
        if run[i - 1].Dispatch? {
          DispatchKeepsBounded(before, run[i - 1].c, run[i - 1].contended);
        } else {
          OtherKeepsBounded(before, run[i - 1]);
        }
      }
    }
  }

  /**
   A full mailbox turns an Action away: its caller is answered, and tasks, routes, permits
   and sessions are as they were.
   */
  lemma FullMailboxRefuses(sv: Server, c: nat, contended: bool)
    requires Enabled(sv, Dispatch(c, contended)) && Open(sv, sv.callers[c].key.a)
    requires |sv.tasks[sv.routes[sv.callers[c].key.a].generation].mailbox| >= sv.mailboxCapacity
    ensures var sv' := Next(sv, Dispatch(c, contended));
            && sv'.tasks == sv.tasks && sv'.routes == sv.routes && sv'.sessions == sv.sessions
            && (sv.callers[c].Opening? ==>
                  && sv'.callers[c] == Opening(sv.callers[c].key, false, Rejected(MailboxFull))
                  && sv'.permits == sv.permits + Returned(sv.callers[c].reserved))
            && (sv.callers[c].Acting? ==> c !in sv'.callers && sv'.permits == sv.permits)
  {
    DispatchOutcome(sv, c, contended);
    match sv.callers[c]
    case Opening(key, reserved, _) => OpenRouteOutcome(sv, key.a, SessionOpened(key.sid), reserved, contended);
    case Acting(key, _) => OpenRouteOutcome(sv, key.a, Action(key.sid), false, contended);
  }
}
