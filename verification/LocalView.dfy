/**
 The runtime of one server as the cluster sees it.

 The cluster model keeps, per seat, a route and whether an accepted session is live, and
 changes them by a few events.  Here every step of the lock-granular runtime is shown to
 be one of those changes, at every status of the server; in particular passivation begins
 only at a seat that is not live, which is the guard of the cluster's event.
 */
module LocalView {
  import opened Coordination
  import opened NodeLease
  import opened Runtime
  import opened RuntimeProofs
  import opened RuntimeRuns
  import O = ActorOwnership

  /** One address of a server: its route, if it has one, and whether an accepted session is registered. */
  datatype View = View(route: Option<O.RouteState>, live: bool)

  ghost function ViewOf(sv: Server, a: Address): View {
    View(if a !in sv.routes then None else Some(if sv.routes[a].active then O.Active else O.Deactivating),
         !NoneAccepted(sv, a))
  }

  /** Sessions end, or nothing changes: `EndSessions`. */
  predicate SessionsEnd(v: View, v': View) {
    v'.route == v.route && (v'.live ==> v.live)
  }

  /** A message is accepted by the Active route, or makes one: `Dispatch` and `DispatchAction`. */
  predicate Accepts(v: View, v': View) {
    v.route != Some(O.Deactivating) && v'.route == Some(O.Active)
  }

  /** Passivation begins, and only without a live session: `BeginDeactivation`. */
  predicate Passivates(v: View, v': View) {
    v == View(Some(O.Active), false) && v' == View(Some(O.Deactivating), false)
  }

  /** The route goes: `StopActor`, `FinishDeactivation` and `ClearRoutes`. */
  predicate LosesRoute(v: View, v': View) {
    v'.route == None && (v'.live ==> v.live)
  }

  predicate LocalMove(v: View, v': View) {
    SessionsEnd(v, v') || Accepts(v, v') || Passivates(v, v') || LosesRoute(v, v')
  }

  lemma QuietIsLocalMove(sv: Server, sv': Server, a: Address)
    requires QuietStep(sv, sv')
    ensures SessionsEnd(ViewOf(sv, a), ViewOf(sv', a))
  {
  }

  lemma LockedIsLocalMove(sv: Server, b: Address, message: Message, reserved: bool, contended: bool, a: Address)
    ensures var (next, outcome) := DispatchLocked(sv, b, message, reserved, contended);
            && NoneAccepted(next, a) == NoneAccepted(sv, a)
            && (if a == b && outcome.Accepted? then Accepts(ViewOf(sv, a), ViewOf(next, a))
                else SessionsEnd(ViewOf(sv, a), ViewOf(next, a)) || LosesRoute(ViewOf(sv, a), ViewOf(next, a)))
  {
    DispatchFrame(sv, b, message, reserved, contended);
  }

  lemma DispatchIsLocalMove(sv: Server, c: nat, contended: bool, a: Address)
    requires ReadyToDispatch(sv, c)
    ensures LocalMove(ViewOf(sv, a), ViewOf(AfterDispatch(sv, c, contended), a))
  {
    match sv.callers[c]
    case Opening(key, reserved, _) =>
      LockedIsLocalMove(sv, key.a, SessionOpened(key.sid), reserved, contended, a);
      var (next, outcome) := DispatchLocked(sv, key.a, SessionOpened(key.sid), reserved, contended);
      DispatchFrame(sv, key.a, SessionOpened(key.sid), reserved, contended);
      if key.a != a {
        assert NoneAccepted(AfterDispatch(sv, c, contended), a) == NoneAccepted(next, a);
      }
    case Acting(key, _) =>
      LockedIsLocalMove(sv, key.a, Action(key.sid), false, contended, a);
  }

  /** A passivation that begins finds its route Active and no accepted session, whatever the status. */
  lemma PassivationFindsNoSession(sv: Server, gen: nat)
    requires TaskInv(sv) && Enabled(sv, BeginDeactivation(gen))
    requires AfterBeginDeactivation(sv, gen).tasks[gen].phase.Deactivating?
    ensures var a := sv.tasks[gen].address;
            Passivates(ViewOf(sv, a), ViewOf(AfterBeginDeactivation(sv, gen), a))
  {
    assert TaskOk(sv, gen);
    assert AfterBeginDeactivation(sv, gen).sessions == sv.sessions;
  }

  lemma BeginDeactivationIsLocalMove(sv: Server, gen: nat, a: Address)
    requires TaskInv(sv) && Enabled(sv, BeginDeactivation(gen))
    ensures LocalMove(ViewOf(sv, a), ViewOf(AfterBeginDeactivation(sv, gen), a))
  {
    var sv' := AfterBeginDeactivation(sv, gen);
    assert sv'.sessions == sv.sessions;
    if a == sv.tasks[gen].address && sv'.tasks[gen].phase.Deactivating? {
      PassivationFindsNoSession(sv, gen);
    }
  }

  lemma OtherIsLocalMove(sv: Server, ev: Event, a: Address)
    requires Enabled(sv, ev) && !ev.Dispatch? && !ev.BeginDeactivation?
    requires !((IsCallerEvent(ev) && !ev.SendClosed?) || ev.Terminate? || ev.SetStatus?)
    ensures SessionsEnd(ViewOf(sv, a), ViewOf(Next(sv, ev), a)) || LosesRoute(ViewOf(sv, a), ViewOf(Next(sv, ev), a))
  {
    OtherKeepsSessions(sv, ev);
  }

  lemma OtherKeepsSessions(sv: Server, ev: Event)
    requires Enabled(sv, ev) && !ev.Dispatch?
    requires !((IsCallerEvent(ev) && !ev.SendClosed?) || ev.Terminate? || ev.SetStatus?)
    ensures Next(sv, ev).sessions == sv.sessions
    ensures forall a :: a in Next(sv, ev).routes && !ev.BeginDeactivation? ==>
                          a in sv.routes && Next(sv, ev).routes[a] == sv.routes[a]
  {
  }

  /** Every step of the runtime is, at every address, one of the cluster's local events. */
  lemma StepIsLocalMove(sv: Server, ev: Event, a: Address)
    requires TaskInv(sv) && Enabled(sv, ev)
    ensures LocalMove(ViewOf(sv, a), ViewOf(Next(sv, ev), a))
  {
    if ev.Dispatch? {
      DispatchIsLocalMove(sv, ev.c, ev.contended, a);
    } else if ev.BeginDeactivation? {
      BeginDeactivationIsLocalMove(sv, ev.gen, a);
    } else if (IsCallerEvent(ev) && !ev.SendClosed?) || ev.Terminate? || ev.SetStatus? {
      QuietEventIsQuiet(sv, ev);
      QuietIsLocalMove(sv, Next(sv, ev), a);
    } else {
      OtherIsLocalMove(sv, ev, a);
    }
  }

  /** Along every run of a server, from every instant to the next. */
  lemma RunsMakeLocalMoves(limits: Limits, run: Run, i: nat, a: Address)
    requires i < |run|
    ensures LocalMove(ViewOf(ServerAt(limits, run, i), a), ViewOf(ServerAt(limits, run, i + 1), a))
  {
    ServerInvAlways(limits, run, i);
    if Enabled(ServerAt(limits, run, i), run[i]) {
      StepIsLocalMove(ServerAt(limits, run, i), run[i], a);
    }
  }

  // The same on the cluster's own state.

  /** The cluster's seats of session `s` show what the server of that session does. */
  ghost predicate Agrees(os: O.OwnerState, s: SessionId, sv: Server) {
    forall a :: SeatView(os, s, a) == ViewOf(sv, a)
  }

  function SeatView(os: O.OwnerState, s: SessionId, a: Address): View {
    View(Lookup(os.routes, O.Seat(s, a)), O.Seat(s, a) in os.live)
  }

  /** When a passivation begins in the runtime, the cluster's event is enabled and keeps the agreement. */
  lemma PassivationIsEnabled(ls: LeaseState, os: O.OwnerState, s: SessionId, sv: Server, gen: nat)
    requires Agrees(os, s, sv) && TaskInv(sv) && Enabled(sv, BeginDeactivation(gen))
    requires AfterBeginDeactivation(sv, gen).tasks[gen].phase.Deactivating?
    ensures var event := O.BeginDeactivation(O.Seat(s, sv.tasks[gen].address));
            && O.OwnerEnabled(ls, os, event)
            && Agrees(O.OwnerNext(ls, os, event), s, AfterBeginDeactivation(sv, gen))
  {
    var a := sv.tasks[gen].address;
    PassivationFindsNoSession(sv, gen);
    assert SeatView(os, s, a) == ViewOf(sv, a);
    var os' := O.OwnerNext(ls, os, O.BeginDeactivation(O.Seat(s, a)));
    forall b ensures SeatView(os', s, b) == ViewOf(AfterBeginDeactivation(sv, gen), b) {
      assert SeatView(os, s, b) == ViewOf(sv, b);
    }
  }
}
