/**
 The runtime's guarantees over whole runs of one server, under every interleaving.
 As for the cluster, a run is any sequence of events and a disabled event does nothing.
 */
module RuntimeRuns {
  import opened Coordination
  import opened Runtime
  import opened RuntimeProofs

  type Run = seq<Event>

  datatype Limits = Limits(max: nat, mailboxCapacity: nat)

  function Step(sv: Server, ev: Event): Server {
    if Enabled(sv, ev) then Next(sv, ev) else sv
  }

  /** These steps in a row. */
  function StepAll(sv: Server, evs: seq<Event>): Server
    decreases |evs|
  {
    if evs == [] then sv else StepAll(Step(sv, evs[0]), evs[1..])
  }

  lemma StepAllCons(sv: Server, ev: Event, rest: seq<Event>)
    ensures StepAll(sv, [ev] + rest) == StepAll(Step(sv, ev), rest)
  {
    assert ([ev] + rest)[1..] == rest;
  }

  function ServerAt(limits: Limits, run: Run, i: nat): Server
    requires i <= |run|
  {
    if i == 0 then InitialServer(limits.max, limits.mailboxCapacity)
    else Step(ServerAt(limits, run, i - 1), run[i - 1])
  }

  ghost predicate ServerInv(sv: Server) {
    CapacityInv(sv) && CallersOk(sv) && TaskInv(sv)
  }

  lemma StepKeepsServerInv(sv: Server, ev: Event)
    requires ServerInv(sv)
    ensures ServerInv(Step(sv, ev)) && Step(sv, ev).max == sv.max
  {
    if Enabled(sv, ev) {
      StepConserves(sv, ev);
      StepKeepsTaskInv(sv, ev);
    }
  }

  lemma InitialServerInv(limits: Limits)
    ensures ServerInv(InitialServer(limits.max, limits.mailboxCapacity))
  {
    assert Reservations(map[]) == {};
  }

  /** Every state of every run satisfies the invariants. */
  lemma {:induction false} ServerInvAlways(limits: Limits, run: Run, i: nat)
    requires i <= |run|
    ensures ServerInv(ServerAt(limits, run, i)) && ServerAt(limits, run, i).max == limits.max
  {
    if i == 0 {
      InitialServerInv(limits);
    } else {
      ServerInvAlways(limits, run, i - 1);
      StepKeepsServerInv(ServerAt(limits, run, i - 1), run[i - 1]);
    }
  }

  // Capacity.

  /** `update_capacity_sample`: the count a server publishes, and whether it reports pressure. */
  function PublishedCount(sv: Server): nat {
    if sv.permits <= sv.max then sv.max - sv.permits else 0
  }

  predicate Pressured(sv: Server) {
    sv.permits == 0
  }

  /**
   Free permits, routes and reservations in hand always add up to the limit, so routes
   never exceed it, the published count is exactly routes plus reservations, and
   pressure is reported exactly when these exhaust the limit.
   */
  lemma CapacityConserved(limits: Limits, run: Run, i: nat)
    requires i <= |run|
    ensures var sv := ServerAt(limits, run, i);
            var used := |sv.routes| + |Reservations(sv.callers)|;
            && sv.permits + used == limits.max
            && |sv.routes| <= limits.max
            && PublishedCount(sv) == used
            && (Pressured(sv) <==> used == limits.max)
  {
    ServerInvAlways(limits, run, i);
  }

  // Serial execution.

  /** While the server runs, no two generations of one address can both still run the Actor. */
  lemma SerialExecution(limits: Limits, run: Run, i: nat, g: nat, h: nat)
    requires i <= |run|
    requires var sv := ServerAt(limits, run, i);
             && sv.status.Running? && g in sv.tasks && h in sv.tasks
             && sv.tasks[g].address == sv.tasks[h].address
             && CanRun(sv.tasks[g].phase) && CanRun(sv.tasks[h].phase)
    ensures g == h
  {
    ServerInvAlways(limits, run, i);
    var sv := ServerAt(limits, run, i);
    assert TaskOk(sv, g) && TaskOk(sv, h);
  }

  /** A finishing task leaves every route that is not its own. */
  lemma FinishingSparesNewerRoutes(sv: Server, ev: Event, a: Address)
    requires Enabled(sv, ev) && (ev.RemoveRoute? || ev.Leave?)
    requires a in sv.routes && sv.routes[a].generation != ev.gen
    ensures a in Next(sv, ev).routes && Next(sv, ev).routes[a] == sv.routes[a]
  {
  }

  // Idle passivation.

  /**
   From `begin_deactivation` on a passivating task has an empty mailbox; and until its
   route is gone, whatever the server's status, that route is Deactivating and no
   registered session of its address has had its SessionOpened accepted.  While the server
   runs, a passivating task has its route.
   */
  lemma PassivationLosesNothing(limits: Limits, run: Run, i: nat, gen: nat)
    requires i <= |run|
    requires var sv := ServerAt(limits, run, i); gen in sv.tasks && Passivating(sv.tasks[gen].phase)
    ensures var sv := ServerAt(limits, run, i);
            && sv.tasks[gen].mailbox == []
            && (Routed(sv, sv.tasks[gen].address, gen) ==>
                  NoneAccepted(sv, sv.tasks[gen].address) && !sv.routes[sv.tasks[gen].address].active)
            && (sv.status.Running? ==> Routed(sv, sv.tasks[gen].address, gen))
  {
    ServerInvAlways(limits, run, i);
    assert TaskOk(ServerAt(limits, run, i), gen);
  }

  /** A Deactivating route's mailbox is empty, at every instant. */
  lemma DeactivatingMailboxEmpty(limits: Limits, run: Run, i: nat, a: Address)
    requires i <= |run|
    requires var sv := ServerAt(limits, run, i); a in sv.routes && !sv.routes[a].active
    ensures var sv := ServerAt(limits, run, i);
            sv.routes[a].generation in sv.tasks && sv.tasks[sv.routes[a].generation].mailbox == []
  {
    ServerInvAlways(limits, run, i);
    assert RouteOk(ServerAt(limits, run, i), a);
  }

  lemma LockedSparesDeactivating(sv: Server, b: Address, message: Message, reserved: bool, contended: bool, a: Address)
    requires a in sv.routes && !sv.routes[a].active
    ensures var next := DispatchLocked(sv, b, message, reserved, contended).0;
            a in next.routes && next.routes[a] == sv.routes[a]
  {
  }

  lemma DispatchSparesDeactivating(sv: Server, c: nat, contended: bool, a: Address)
    requires ReadyToDispatch(sv, c) && a in sv.routes && !sv.routes[a].active
    ensures a in AfterDispatch(sv, c, contended).routes
    ensures AfterDispatch(sv, c, contended).routes[a] == sv.routes[a]
  {
    match sv.callers[c]
    case Opening(key, reserved, _) =>
      LockedSparesDeactivating(sv, key.a, SessionOpened(key.sid), reserved, contended, a);
    case Acting(key, _) =>
      LockedSparesDeactivating(sv, key.a, Action(key.sid), false, contended, a);
  }

  /** A Deactivating route never becomes Active again: the next change is its removal. */
  lemma DeactivatingOnlyEnds(sv: Server, ev: Event, a: Address)
    requires Enabled(sv, ev) && a in sv.routes && !sv.routes[a].active
    ensures a in Next(sv, ev).routes ==> Next(sv, ev).routes[a] == sv.routes[a]
  {
    if ev.Dispatch? {
      DispatchSparesDeactivating(sv, ev.c, ev.contended, a);
    } else if IsCallerEvent(ev) && !ev.SendClosed? {
      QuietEventIsQuiet(sv, ev);
    } else if !IsRouteEvent(ev) && !ev.SendClosed? {
      OtherEventFrame(sv, ev);
    }
  }

  /** As long as the address keeps a route, a Deactivating one stays as it is, its mailbox empty. */
  lemma {:induction false} DeactivatingUntilRemoved(limits: Limits, run: Run, i: nat, j: nat, a: Address)
    requires i <= j <= |run|
    requires forall k: nat {:trigger ServerAt(limits, run, k)} :: i <= k <= j ==> a in ServerAt(limits, run, k).routes
    requires !ServerAt(limits, run, i).routes[a].active
    ensures var sv := ServerAt(limits, run, j);
            && sv.routes[a] == ServerAt(limits, run, i).routes[a]
            && sv.routes[a].generation in sv.tasks && sv.tasks[sv.routes[a].generation].mailbox == []
    decreases j
  {
    if i < j {
      DeactivatingUntilRemoved(limits, run, i, j - 1, a);
      if Enabled(ServerAt(limits, run, j - 1), run[j - 1]) {
        DeactivatingOnlyEnds(ServerAt(limits, run, j - 1), run[j - 1], a);
      }
    }
    DeactivatingMailboxEmpty(limits, run, j, a);
  }

  /**
   A session racing with a passivation is turned away with ActorDeactivating: no
   mailbox and no task changes, its reservation goes back, and its next step takes it
   out of the registry.
   */
  lemma RacingOpenIsTurnedAway(sv: Server, c: nat, contended: bool)
    requires ReadyToDispatch(sv, c) && sv.callers[c].Opening?
    requires sv.callers[c].key.a in sv.routes && !sv.routes[sv.callers[c].key.a].active
    ensures var sv' := Next(sv, Dispatch(c, contended));
            && sv'.callers[c] == Opening(sv.callers[c].key, false, Rejected(ActorDeactivating))
            && sv'.tasks == sv.tasks && sv'.routes == sv.routes && sv'.sessions == sv.sessions
            && sv'.permits == sv.permits + (if sv.callers[c].reserved then 1 else 0)
            && Enabled(sv', Unregister(c))
            && Next(sv', Unregister(c)).sessions == sv.sessions - {sv.callers[c].key}
  {
  }

  // Sessions.

  lemma {:induction false} CloseInvAlways(limits: Limits, run: Run, i: nat, key: Key)
    requires i <= |run|
    ensures CloseInv(ServerAt(limits, run, i), key)
  {
    if i == 0 {
      assert Closers(map[], key) == {};
    } else {
      CloseInvAlways(limits, run, i - 1, key);
      if Enabled(ServerAt(limits, run, i - 1), run[i - 1]) {
        StepKeepsCloseInv(ServerAt(limits, run, i - 1), run[i - 1], key);
      }
    }
  }

  /** An Actor is told that a session closed at most as often as the session was registered. */
  lemma ClosedAtMostAsOftenAsOpened(limits: Limits, run: Run, i: nat, key: Key)
    requires i <= |run|
    ensures var log := ServerAt(limits, run, i).log;
            Count(log.closedSent, key) <= Count(log.registrations, key)
  {
    CloseInvAlways(limits, run, i, key);
  }
}
