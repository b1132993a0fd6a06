/**
 What every step of the ownership protocol keeps, provided the leases underneath
 obey their own invariants: a session that still holds its lease and has an Active
 route (or has just resolved an address to itself) is the recorded Owner.
 */
module ActorOwnershipProofs {
  import opened Coordination
  import opened NodeLease
  import opened NodeLeaseProofs
  import opened ActorOwnership

  predicate Known(ls: LeaseState, owner: Option<Owner>) {
    owner.Some? ==>
      owner.value.session in ls.sessions && ls.sessions[owner.value.session].node == owner.value.node
  }

  /** The stored record names exactly this session on its own node. */
  predicate Owned(ls: LeaseState, os: OwnerState, seat: Seat)
    requires seat.s in ls.sessions
  {
    seat.a in os.owners && Names(os.owners[seat.a], ls.sessions[seat.s].node, seat.s)
  }

  predicate OwnedIfHolding(ls: LeaseState, os: OwnerState, seat: Seat)
    requires seat.s in ls.sessions
  {
    Holds(ls, seat.s) ==> Owned(ls, os, seat)
  }

  predicate IsRelease(op: OwnerOp) {
    op.record.owner.None?
  }

  /** A claim may only displace an owner that has lapsed for good. */
  predicate DisplacesNobody(ls: LeaseState, condition: Condition<OwnerRecord>) {
    condition.IfMatch? && condition.revision.owner.Some? ==> Dead(ls, condition.revision.owner.value.session)
  }

  predicate OwnerOpOk(ls: LeaseState, op: OwnerOp) {
    && op.seat.s in ls.sessions
    && var node := ls.sessions[op.seat.s].node;
       if IsRelease(op)
       then && op.condition.IfMatch? && Names(op.condition.revision, node, op.seat.s)
            && op.record == Unowned(op.condition.revision.epoch)
       else Names(op.record, node, op.seat.s) && DisplacesNobody(ls, op.condition)
  }

  /** A call that waits for a write waits for its own. */
  predicate WaitsForOwnOp(os: OwnerState, seat: Seat)
    requires seat in os.calls
  {
    var call := os.calls[seat];
    if IsClaimCall(call) then
      call.op < |os.ops| && os.ops[call.op].seat == seat && !IsRelease(os.ops[call.op])
    else if call.AwaitingRelease? || call.ConfirmingRelease? then
      && call.op < |os.ops|
      && os.ops[call.op] == OwnerOp(seat, IfMatch(call.seen), Unowned(call.seen.epoch))
    else
      true
  }

  predicate CallOk(ls: LeaseState, os: OwnerState, seat: Seat)
    requires seat in os.calls
  {
    var call := os.calls[seat];
    && seat.s in ls.sessions
    && WaitsForOwnOp(os, seat)
    && (call.ReadingNode? ==> call.seen.owner.Some? && Known(ls, call.seen.owner))
    && (call.Local? ==> OwnedIfHolding(ls, os, seat))
    && (IsClaimCall(call) && call.op in os.landed ==> OwnedIfHolding(ls, os, seat))
    && (IsReleaseCall(call) && seat in os.routes ==> os.routes[seat].Deactivating?)
    && (IsReleaseCall(call) ==> seat !in os.live)
  }

  predicate RouteOk(ls: LeaseState, os: OwnerState, seat: Seat)
    requires seat in os.routes
  {
    seat.s in ls.sessions && (os.routes[seat].Active? ==> OwnedIfHolding(ls, os, seat))
  }

  /** A seat with an accepted session is the recorded Owner while it holds, and is not passivating. */
  predicate LiveOk(ls: LeaseState, os: OwnerState, seat: Seat) {
    && seat.s in ls.sessions && OwnedIfHolding(ls, os, seat)
    && (seat in os.routes ==> os.routes[seat].Active?)
  }

  ghost predicate OwnerInv(ls: LeaseState, os: OwnerState) {
    && (forall id :: id in os.landed ==> id < |os.ops|)
    && (forall a :: a in os.owners ==> Known(ls, os.owners[a].owner))
    && (forall id: nat :: id < |os.ops| ==> OwnerOpOk(ls, os.ops[id]))
    && (forall seat :: seat in os.calls ==> CallOk(ls, os, seat))
    && (forall seat :: seat in os.routes ==> RouteOk(ls, os, seat))
    && (forall seat :: seat in os.live ==> LiveOk(ls, os, seat))
  }

  // Hypotheses about one step; module Cluster lifts them to runs.

  /** A directory read tests expiry against what is stored at that instant. */
  predicate JudgedAsServed(ls: LeaseState, os: OwnerState, ev: OwnerEvent) {
    ev.JudgeNode? && OwnerEnabled(ls, os, ev) ==>
      os.calls[ev.seat].fetched.value == Lookup(ls.stored, os.calls[ev.seat].seen.owner.value.node)
  }

  /** A release takes effect only while its caller still waits for it. */
  predicate ReleaseAwaited(ls: LeaseState, os: OwnerState, ev: OwnerEvent) {
    ev.LandOwner? && ev.id < |os.ops| && IsRelease(os.ops[ev.id]) && Holds(ls, os.ops[ev.id].seat.s) ==>
      var seat := os.ops[ev.id].seat;
      && seat in os.calls
      && (os.calls[seat].AwaitingRelease? || os.calls[seat].ConfirmingRelease?)
      && os.calls[seat].op == ev.id
  }

  /** This owner read takes the branch that claims a record of the session's own node. */
  predicate StartsTakeover(ls: LeaseState, os: OwnerState, ev: OwnerEvent) {
    && ev.ReadOwner? && OwnerEnabled(ls, os, ev) && ev.seat.a in os.owners
    && var owner := os.owners[ev.seat.a].owner;
       owner.Some? && owner.value.node == ls.sessions[ev.seat.s].node && owner.value.session != ev.seat.s
  }

  /** Only a session that holds its lease starts a same-node takeover. */
  predicate TakeoverAuthorized(ls: LeaseState, os: OwnerState, ev: OwnerEvent) {
    StartsTakeover(ls, os, ev) ==> Holds(ls, ev.seat.s)
  }

  predicate JudgeClockOk(g: TicksPerMs, skew: nat, ls: LeaseState, ev: OwnerEvent) {
    ev.JudgeNode? ==> Reads(g, skew, ls, ev.wall)
  }

  predicate OwnerHypotheses(ls: LeaseState, os: OwnerState, ev: OwnerEvent) {
    && JudgeClockOk(1, 0, ls, ev) && JudgedAsServed(ls, os, ev) && ReleaseAwaited(ls, os, ev)
    && TakeoverAuthorized(ls, os, ev)
  }

  /** How the leases may move underneath: sessions keep their node and only ever lapse. */
  ghost predicate OnlyLapses(ls: LeaseState, ls': LeaseState) {
    forall s :: s in ls.sessions ==>
      s in ls'.sessions && ls'.sessions[s].node == ls.sessions[s].node && (Holds(ls', s) ==> Holds(ls, s))
  }

  lemma LapseKeepsOwnerInv(ls: LeaseState, ls': LeaseState, os: OwnerState)
    requires OwnerInv(ls, os) && OnlyLapses(ls, ls')
    ensures OwnerInv(ls', os)
  {
    forall id: nat | id < |os.ops| ensures OwnerOpOk(ls', os.ops[id]) {
      assert OwnerOpOk(ls, os.ops[id]);
    }
    forall seat | seat in os.calls ensures CallOk(ls', os, seat) {
      assert CallOk(ls, os, seat);
    }
    forall seat | seat in os.routes ensures RouteOk(ls', os, seat) {
      assert RouteOk(ls, os, seat);
    }
    forall seat | seat in os.live ensures LiveOk(ls', os, seat) {
      assert LiveOk(ls, os, seat);
    }
  }

  /**
   A landing write never displaces a session that still holds its lease, however late
   it lands: if the record named `seat` before, it does after.
   */
  lemma LandingSparesHolders(ls: LeaseState, os: OwnerState, id: nat, seat: Seat)
    requires OwnerInv(ls, os) && id < |os.ops| && ReleaseAwaited(ls, os, LandOwner(id))
    requires seat.s in ls.sessions && Owned(ls, os, seat)
    requires !(seat in os.calls && IsReleaseCall(os.calls[seat]))
    ensures OwnedIfHolding(ls, AfterLanding(os, id), seat)
  {
    assert OwnerOpOk(ls, os.ops[id]);
  }

  lemma LandingKeepsCall(ls: LeaseState, os: OwnerState, id: nat, seat: Seat)
    requires OwnerInv(ls, os) && id < |os.ops| && ReleaseAwaited(ls, os, LandOwner(id))
    requires seat in os.calls
    ensures CallOk(ls, AfterLanding(os, id), seat)
  {
    assert CallOk(ls, os, seat) && OwnerOpOk(ls, os.ops[id]);
    var call := os.calls[seat];
    if Owned(ls, os, seat) && !IsReleaseCall(call) {
      LandingSparesHolders(ls, os, id, seat);
    }
  }

  lemma LandingKeepsRoute(ls: LeaseState, os: OwnerState, id: nat, seat: Seat)
    requires OwnerInv(ls, os) && id < |os.ops| && ReleaseAwaited(ls, os, LandOwner(id))
    requires seat in os.routes
    ensures RouteOk(ls, AfterLanding(os, id), seat)
  {
    assert RouteOk(ls, os, seat);
    if os.routes[seat].Active? && Holds(ls, seat.s) {
      assert seat in os.calls ==> CallOk(ls, os, seat);
      LandingSparesHolders(ls, os, id, seat);
    }
  }

  lemma LandingKeepsOwnerInv(ls: LeaseState, os: OwnerState, id: nat)
    requires OwnerInv(ls, os) && id < |os.ops| && ReleaseAwaited(ls, os, LandOwner(id))
    ensures OwnerInv(ls, AfterLanding(os, id))
  {
    var os' := AfterLanding(os, id);
    assert OwnerOpOk(ls, os.ops[id]);
    forall seat | seat in os'.calls ensures CallOk(ls, os', seat) {
      LandingKeepsCall(ls, os, id, seat);
    }
    forall seat | seat in os'.routes ensures RouteOk(ls, os', seat) {
      LandingKeepsRoute(ls, os, id, seat);
    }
    forall seat | seat in os'.live ensures LiveOk(ls, os', seat) {
      LandingKeepsLive(ls, os, id, seat);
    }
  }

  lemma LandingKeepsLive(ls: LeaseState, os: OwnerState, id: nat, seat: Seat)
    requires OwnerInv(ls, os) && id < |os.ops| && ReleaseAwaited(ls, os, LandOwner(id))
    requires seat in os.live
    ensures LiveOk(ls, AfterLanding(os, id), seat)
  {
    assert LiveOk(ls, os, seat);
    if Holds(ls, seat.s) {
      assert seat in os.calls ==> CallOk(ls, os, seat);
      LandingSparesHolders(ls, os, id, seat);
    }
  }

  /** A step of one seat's call: records, landings and routes stay, at most one write is sent. */
  predicate CallStep(ls: LeaseState, os: OwnerState, os': OwnerState, seat: Seat) {
    && os'.owners == os.owners && os'.landed == os.landed && os'.routes == os.routes && os'.live == os.live
    && os'.calls - {seat} == os.calls - {seat}
    && |os.ops| <= |os'.ops| <= |os.ops| + 1 && os'.ops[..|os.ops|] == os.ops
    && (|os'.ops| > |os.ops| ==> OwnerOpOk(ls, os'.ops[|os.ops|]))
    && (seat in os'.calls ==> CallOk(ls, os', seat))
  }

  lemma CallStepKeepsOwnerInv(ls: LeaseState, os: OwnerState, os': OwnerState, seat: Seat)
    requires OwnerInv(ls, os) && CallStep(ls, os, os', seat)
    ensures OwnerInv(ls, os')
  {
    forall id: nat | id < |os'.ops| ensures OwnerOpOk(ls, os'.ops[id]) {
      if id < |os.ops| {
        assert os'.ops[id] == os'.ops[..|os.ops|][id] == os.ops[id];
      }
    }
    forall other | other in os'.calls ensures CallOk(ls, os', other) {
      if other != seat {
        assert other in os'.calls - {seat};
        assert os'.calls[other] == (os'.calls - {seat})[other] == (os.calls - {seat})[other];
        CallFrame(ls, os, os', other);
      }
    }
    forall other | other in os'.routes ensures RouteOk(ls, os', other) {
      assert RouteOk(ls, os, other);
    }
    forall other | other in os'.live ensures LiveOk(ls, os', other) {
      assert LiveOk(ls, os, other);
    }
  }

  lemma CallFrame(ls: LeaseState, os: OwnerState, os': OwnerState, seat: Seat)
    requires seat in os.calls && CallOk(ls, os, seat)
    requires seat in os'.calls && os'.calls[seat] == os.calls[seat]
    requires os'.owners == os.owners && os'.landed == os.landed && os'.routes == os.routes && os'.live == os.live
    requires |os.ops| <= |os'.ops| && os'.ops[..|os.ops|] == os.ops
    ensures CallOk(ls, os', seat)
  {
    assert forall id: nat :: id < |os.ops| ==> os'.ops[id] == os'.ops[..|os.ops|][id];
  }

  /** Sending a claim that displaces nobody. */
  lemma SendClaimIsCallStep(ls: LeaseState, os: OwnerState, seat: Seat, seen: Option<OwnerRecord>, call: Call)
    requires OwnerInv(ls, os) && seat.s in ls.sessions
    requires DisplacesNobody(ls, ConditionOn(seen))
    requires (call.AwaitingClaim? || call.AwaitingTakeover?) && call.op == |os.ops|
    ensures CallStep(ls, os, SendClaim(ls, os, seat, seen, call), seat)
  {
    var os' := SendClaim(ls, os, seat, seen, call);
    assert os'.calls - {seat} == os.calls - {seat};
    assert |os.ops| !in os.landed;
  }

  lemma OwnerReadIsCallStep(ls: LeaseState, os: OwnerState, seat: Seat)
    requires OwnerInv(ls, os) && NamedInv(1, 0, ls) && InCall(ls, os, seat) && os.calls[seat].ReadingOwner?
    requires TakeoverAuthorized(ls, os, ReadOwner(seat))
    ensures CallStep(ls, os, AfterOwnerRead(ls, os, seat), seat)
  {
    var os' := AfterOwnerRead(ls, os, seat);
    var node := ls.sessions[seat.s].node;
    var seen := Lookup(os.owners, seat.a);
    if seen.None? || seen.value.owner.None? {
      SendClaimIsCallStep(ls, os, seat, seen, os'.calls[seat]);
    } else if !Names(seen.value, node, seat.s) && seen.value.owner.value.node == node {
      assert StartsTakeover(ls, os, ReadOwner(seat));
      var prior := seen.value.owner.value.session;
      if Holds(ls, prior) {
        OneHolderPerNode(ls, prior, seat.s);
      }
      SendClaimIsCallStep(ls, os, seat, seen, os'.calls[seat]);
    } else {
      assert os'.calls - {seat} == os.calls - {seat};
    }
  }

  lemma JudgingIsCallStep(ls: LeaseState, os: OwnerState, seat: Seat, wall: nat)
    requires LeaseInv(1, ls) && NamedInv(1, 0, ls) && OwnerInv(ls, os)
    requires OwnerEnabled(ls, os, JudgeNode(seat, wall)) && OwnerHypotheses(ls, os, JudgeNode(seat, wall))
    ensures CallStep(ls, os, AfterJudging(ls, os, seat, wall), seat)
  {
    var os' := AfterJudging(ls, os, seat, wall);
    var seen := os.calls[seat].seen;
    assert CallOk(ls, os, seat);
    if seat in os'.calls {
      UnseenIsDead(ls, seen.owner.value.session, wall);
      SendClaimIsCallStep(ls, os, seat, Some(seen), os'.calls[seat]);
    } else {
      assert os'.calls - {seat} == os.calls - {seat};
    }
  }

  lemma ReadForReleaseIsCallStep(ls: LeaseState, os: OwnerState, seat: Seat)
    requires OwnerInv(ls, os) && InCall(ls, os, seat) && os.calls[seat].ReadingForRelease?
    ensures CallStep(ls, os, AfterReadForRelease(ls, os, seat), seat)
  {
    assert CallOk(ls, os, seat);
    var os' := AfterReadForRelease(ls, os, seat);
    assert os'.calls - {seat} == os.calls - {seat};
  }

  lemma SettingIsCallStep(ls: LeaseState, os: OwnerState, seat: Seat, call: Call)
    requires CallOk(ls, SetCall(os, seat, call), seat)
    ensures CallStep(ls, os, SetCall(os, seat, call), seat)
  {
    assert SetCall(os, seat, call).calls - {seat} == os.calls - {seat};
  }

  lemma EndingIsCallStep(ls: LeaseState, os: OwnerState, seat: Seat)
    ensures CallStep(ls, os, EndCall(os, seat), seat)
  {
    assert EndCall(os, seat).calls - {seat} == os.calls - {seat};
  }

  /** The step only moves the seat's call on, or ends it. */
  predicate MovesCall(os: OwnerState, os': OwnerState, seat: Seat) {
    os' == EndCall(os, seat) || (seat in os'.calls && os' == SetCall(os, seat, os'.calls[seat]))
  }

  lemma MoveIsCallStep(ls: LeaseState, os: OwnerState, os': OwnerState, seat: Seat)
    requires MovesCall(os, os', seat) && (seat in os'.calls ==> CallOk(ls, os', seat))
    ensures CallStep(ls, os, os', seat)
  {
    if os' == EndCall(os, seat) {
      EndingIsCallStep(ls, os, seat);
    } else {
      SettingIsCallStep(ls, os, seat, os'.calls[seat]);
    }
  }

  /** A claim reported as applied makes the session the Owner, if it still holds its lease. */
  lemma ClaimAppliedOk(ls: LeaseState, os: OwnerState, seat: Seat)
    requires OwnerInv(ls, os) && OwnerEnabled(ls, os, ClaimApplied(seat))
    ensures CallOk(ls, SetCall(os, seat, Local), seat)
  {
    assert CallOk(ls, os, seat);
  }

  /** So does a read-back that finds the claim. */
  lemma ClaimReadBackOk(ls: LeaseState, os: OwnerState, seat: Seat)
    requires OwnerInv(ls, os) && OwnerEnabled(ls, os, ClaimReadBack(seat))
    ensures var os' := AfterClaimReadBack(os, seat);
            MovesCall(os, os', seat) && (seat in os'.calls ==> CallOk(ls, os', seat))
  {
    assert CallOk(ls, os, seat) && OwnerOpOk(ls, os.ops[os.calls[seat].op]);
  }

  lemma ClaimDoubtOk(ls: LeaseState, os: OwnerState, ev: OwnerEvent)
    requires OwnerInv(ls, os) && OwnerEnabled(ls, os, ev)
    requires ev.ClaimConflict? || ev.ClaimIndeterminate? || ev.ClaimReadFails?
    ensures var os' := OwnerNext(ls, os, ev);
            MovesCall(os, os', ev.seat) && (ev.seat in os'.calls ==> CallOk(ls, os', ev.seat))
  {
    assert CallOk(ls, os, ev.seat);
  }

  lemma ReleaseOutcomeOk(ls: LeaseState, os: OwnerState, ev: OwnerEvent)
    requires OwnerInv(ls, os) && OwnerEnabled(ls, os, ev)
    requires ev.ReleaseApplied? || ev.ReleaseUnsure? || ev.ReleaseReadBack? || ev.ReleaseReadFails?
    ensures var os' := OwnerNext(ls, os, ev);
            MovesCall(os, os', ev.seat) && (ev.seat in os'.calls ==> CallOk(ls, os', ev.seat))
  {
    assert CallOk(ls, os, ev.seat);
  }

  lemma OtherCallEventOk(ls: LeaseState, os: OwnerState, ev: OwnerEvent)
    requires OwnerInv(ls, os) && OwnerEnabled(ls, os, ev)
    requires ev.Resolve? || ev.FetchNode? || ev.BeginRelease? || ev.AbandonCall?
    ensures var os' := OwnerNext(ls, os, ev);
            MovesCall(os, os', ev.seat) && (ev.seat in os'.calls ==> CallOk(ls, os', ev.seat))
  {
    assert ev.seat in os.calls ==> CallOk(ls, os, ev.seat);
    assert ev.seat in os.live ==> LiveOk(ls, os, ev.seat);
  }

  /** Dispatch creates a route only for a seat resolved to itself. */
  lemma DispatchKeepsOwnerInv(ls: LeaseState, os: OwnerState, seat: Seat)
    requires OwnerInv(ls, os) && OwnerEnabled(ls, os, Dispatch(seat))
    ensures OwnerInv(ls, OwnerNext(ls, os, Dispatch(seat)))
  {
    var os' := OwnerNext(ls, os, Dispatch(seat));
    forall other | other in os'.calls ensures CallOk(ls, os', other) {
      assert CallOk(ls, os, other);
    }
    forall other | other in os'.routes ensures RouteOk(ls, os', other) {
      assert other in os.routes ==> RouteOk(ls, os, other);
      assert CallOk(ls, os, seat);
    }
    forall other | other in os'.live ensures LiveOk(ls, os', other) {
      assert other in os.live ==> LiveOk(ls, os, other);
      assert CallOk(ls, os, seat);
    }
  }

  /** Actions, ending sessions, and stopping, deactivating and clearing routes. */
  lemma RouteEventKeepsOwnerInv(ls: LeaseState, os: OwnerState, ev: OwnerEvent)
    requires OwnerInv(ls, os) && OwnerEnabled(ls, os, ev)
    requires IsRouteEvent(ev) && !ev.Dispatch?
    ensures OwnerInv(ls, OwnerNext(ls, os, ev))
  {
    var os' := OwnerNext(ls, os, ev);
    forall seat | seat in os'.calls ensures CallOk(ls, os', seat) {
      assert CallOk(ls, os, seat);
    }
    forall seat | seat in os'.routes ensures RouteOk(ls, os', seat) {
      assert seat in os.routes ==> RouteOk(ls, os, seat);
      assert seat in os.live ==> LiveOk(ls, os, seat);
    }
    forall seat | seat in os'.live ensures LiveOk(ls, os', seat) {
      assert LiveOk(ls, os, seat);
    }
  }

  predicate IsRouteEvent(ev: OwnerEvent) {
    ev.Dispatch? || ev.DispatchAction? || ev.EndSessions? || ev.StopActor? || ev.BeginDeactivation?
    || ev.FinishDeactivation? || ev.ClearRoutes?
  }

  lemma CallEventIsCallStep(ls: LeaseState, os: OwnerState, ev: OwnerEvent)
    requires LeaseInv(1, ls) && NamedInv(1, 0, ls) && OwnerInv(ls, os)
    requires OwnerEnabled(ls, os, ev) && OwnerHypotheses(ls, os, ev)
    requires !ev.LandOwner? && !IsRouteEvent(ev)
    ensures CallStep(ls, os, OwnerNext(ls, os, ev), ev.seat)
  {
    var os' := OwnerNext(ls, os, ev);
    if ev.ReadOwner? {
      OwnerReadIsCallStep(ls, os, ev.seat);
    } else if ev.JudgeNode? {
      JudgingIsCallStep(ls, os, ev.seat, ev.wall);
    } else if ev.ReadForRelease? {
      ReadForReleaseIsCallStep(ls, os, ev.seat);
    } else {
      if ev.ClaimApplied? {
        ClaimAppliedOk(ls, os, ev.seat);
      } else if ev.ClaimReadBack? {
        ClaimReadBackOk(ls, os, ev.seat);
      } else if ev.ClaimConflict? || ev.ClaimIndeterminate? || ev.ClaimReadFails? {
        ClaimDoubtOk(ls, os, ev);
      } else if ev.ReleaseApplied? || ev.ReleaseUnsure? || ev.ReleaseReadBack? || ev.ReleaseReadFails? {
        ReleaseOutcomeOk(ls, os, ev);
      } else {
        OtherCallEventOk(ls, os, ev);
      }
      MoveIsCallStep(ls, os, os', ev.seat);
    }
  }

  /** Every ownership step keeps the invariant. */
  lemma OwnerStepKeepsInv(ls: LeaseState, os: OwnerState, ev: OwnerEvent)
    requires LeaseInv(1, ls) && NamedInv(1, 0, ls) && OwnerInv(ls, os)
    requires OwnerEnabled(ls, os, ev) && OwnerHypotheses(ls, os, ev)
    ensures OwnerInv(ls, OwnerNext(ls, os, ev))
  {
    if ev.LandOwner? {
      LandingKeepsOwnerInv(ls, os, ev.id);
    } else if ev.Dispatch? {
      DispatchKeepsOwnerInv(ls, os, ev.seat);
    } else if IsRouteEvent(ev) {
      RouteEventKeepsOwnerInv(ls, os, ev);
    } else {
      CallEventIsCallStep(ls, os, ev);
      CallStepKeepsOwnerInv(ls, os, OwnerNext(ls, os, ev), ev.seat);
    }
  }

  /** At most one session that still holds its lease has an Active route for an address. */
  lemma OneHoldingServer(ls: LeaseState, os: OwnerState, a: Address, s: SessionId, t: SessionId)
    requires OwnerInv(ls, os) && Holds(ls, s) && Holds(ls, t)
    requires Seat(s, a) in os.routes && os.routes[Seat(s, a)].Active?
    requires Seat(t, a) in os.routes && os.routes[Seat(t, a)].Active?
    ensures s == t
  {
    assert RouteOk(ls, os, Seat(s, a)) && RouteOk(ls, os, Seat(t, a));
  }

  // What claims displace, whatever becomes of releases and of Actions.

  predicate ReaderOk(ls: LeaseState, os: OwnerState, seat: Seat)
    requires seat in os.calls
  {
    var call := os.calls[seat];
    seat.s in ls.sessions && (call.ReadingNode? ==> call.seen.owner.Some? && Known(ls, call.seen.owner))
  }

  /** Every write in the network displaces only a lapsed owner, or is its session's own release. */
  ghost predicate ClaimInv(ls: LeaseState, os: OwnerState) {
    && (forall a :: a in os.owners ==> Known(ls, os.owners[a].owner))
    && (forall id: nat :: id < |os.ops| ==> OwnerOpOk(ls, os.ops[id]))
    && (forall seat :: seat in os.calls ==> ReaderOk(ls, os, seat))
  }

  lemma LapseKeepsClaimInv(ls: LeaseState, ls': LeaseState, os: OwnerState)
    requires ClaimInv(ls, os) && OnlyLapses(ls, ls')
    ensures ClaimInv(ls', os)
  {
    forall id: nat | id < |os.ops| ensures OwnerOpOk(ls', os.ops[id]) {
      assert OwnerOpOk(ls, os.ops[id]);
    }
    forall seat | seat in os.calls ensures ReaderOk(ls', os, seat) {
      assert ReaderOk(ls, os, seat);
    }
  }

  lemma ReadSendsSoundly(ls: LeaseState, os: OwnerState, seat: Seat)
    requires ClaimInv(ls, os) && NamedInv(1, 0, ls) && InCall(ls, os, seat) && os.calls[seat].ReadingOwner?
    requires TakeoverAuthorized(ls, os, ReadOwner(seat))
    ensures SendsSoundly(ls, os, AfterOwnerRead(ls, os, seat), seat)
  {
    var seen := Lookup(os.owners, seat.a);
    if StartsTakeover(ls, os, ReadOwner(seat)) {
      var prior := seen.value.owner.value.session;
      if Holds(ls, prior) {
        OneHolderPerNode(ls, prior, seat.s);
      }
    }
  }

  lemma JudgingSendsSoundly(ls: LeaseState, os: OwnerState, seat: Seat, wall: nat)
    requires LeaseInv(1, ls) && NamedInv(1, 0, ls) && ClaimInv(ls, os)
    requires OwnerEnabled(ls, os, JudgeNode(seat, wall))
    requires JudgeClockOk(1, 0, ls, JudgeNode(seat, wall)) && JudgedAsServed(ls, os, JudgeNode(seat, wall))
    ensures SendsSoundly(ls, os, AfterJudging(ls, os, seat, wall), seat)
  {
    assert ReaderOk(ls, os, seat);
    if seat in AfterJudging(ls, os, seat, wall).calls {
      UnseenIsDead(ls, os.calls[seat].seen.owner.value.session, wall);
    }
  }

  /** A step of one call sends at most one write, and that displaces nobody who holds. */
  predicate SendsSoundly(ls: LeaseState, os: OwnerState, os': OwnerState, seat: Seat) {
    && os'.owners == os.owners && os.ops <= os'.ops && |os'.ops| <= |os.ops| + 1
    && (|os'.ops| > |os.ops| ==> OwnerOpOk(ls, os'.ops[|os.ops|]))
    && (forall other :: other in os'.calls && other != seat ==>
          other in os.calls && os'.calls[other] == os.calls[other])
    && (seat in os'.calls ==> ReaderOk(ls, os', seat))
  }

  lemma SoundSendKeepsClaimInv(ls: LeaseState, os: OwnerState, os': OwnerState, seat: Seat)
    requires ClaimInv(ls, os) && SendsSoundly(ls, os, os', seat)
    ensures ClaimInv(ls, os')
  {
    forall id: nat | id < |os'.ops| ensures OwnerOpOk(ls, os'.ops[id]) {
      assert id < |os.ops| ==> OwnerOpOk(ls, os.ops[id]);
    }
    forall other | other in os'.calls ensures ReaderOk(ls, os', other) {
      assert other != seat ==> ReaderOk(ls, os, other);
    }
  }

  /** The remaining steps of a call send nothing. */
  lemma QuietCallSendsNothing(ls: LeaseState, os: OwnerState, ev: OwnerEvent)
    requires ClaimInv(ls, os) && OwnerEnabled(ls, os, ev)
    requires !ev.LandOwner? && !ev.ClearRoutes? && !ev.ReadOwner? && !ev.JudgeNode? && !ev.ReadForRelease?
    ensures SendsSoundly(ls, os, OwnerNext(ls, os, ev), ev.seat)
  {
    assert ev.seat in os.calls ==> ReaderOk(ls, os, ev.seat);
    OwnersAndOpsKept(ls, os, ev);
  }

  lemma OwnersAndOpsKept(ls: LeaseState, os: OwnerState, ev: OwnerEvent)
    requires OwnerEnabled(ls, os, ev)
    requires !ev.LandOwner? && !ev.ClearRoutes? && !ev.ReadOwner? && !ev.JudgeNode? && !ev.ReadForRelease?
    ensures OwnerNext(ls, os, ev).owners == os.owners && OwnerNext(ls, os, ev).ops == os.ops
    ensures forall other :: other in OwnerNext(ls, os, ev).calls && other != ev.seat ==>
                              other in os.calls && OwnerNext(ls, os, ev).calls[other] == os.calls[other]
  {
  }

  /** Every ownership step keeps what is said of claims; nothing is asked of releases. */
  lemma ClaimStepKeepsInv(ls: LeaseState, os: OwnerState, ev: OwnerEvent)
    requires LeaseInv(1, ls) && NamedInv(1, 0, ls) && ClaimInv(ls, os) && OwnerEnabled(ls, os, ev)
    requires JudgeClockOk(1, 0, ls, ev) && JudgedAsServed(ls, os, ev) && TakeoverAuthorized(ls, os, ev)
    ensures ClaimInv(ls, OwnerNext(ls, os, ev))
  {
    if ev.LandOwner? {
      LandingKeepsClaimInv(ls, os, ev.id);
    } else if ev.ClearRoutes? {
      ClearingKeepsClaimInv(ls, os, ev.s);
    } else {
      if ev.ReadOwner? {
        ReadSendsSoundly(ls, os, ev.seat);
      } else if ev.JudgeNode? {
        JudgingSendsSoundly(ls, os, ev.seat, ev.wall);
      } else if ev.ReadForRelease? {
        ReleaseSendsSoundly(ls, os, ev.seat);
      } else {
        QuietCallSendsNothing(ls, os, ev);
      }
      SoundSendKeepsClaimInv(ls, os, OwnerNext(ls, os, ev), ev.seat);
    }
  }

  lemma LandingKeepsClaimInv(ls: LeaseState, os: OwnerState, id: nat)
    requires ClaimInv(ls, os) && id < |os.ops|
    ensures ClaimInv(ls, AfterLanding(os, id))
  {
    var os' := AfterLanding(os, id);
    assert OwnerOpOk(ls, os.ops[id]);
    forall seat | seat in os'.calls ensures ReaderOk(ls, os', seat) {
      assert ReaderOk(ls, os, seat);
    }
  }

  lemma ClearingKeepsClaimInv(ls: LeaseState, os: OwnerState, s: SessionId)
    requires ClaimInv(ls, os) && OwnerEnabled(ls, os, ClearRoutes(s))
    ensures ClaimInv(ls, OwnerNext(ls, os, ClearRoutes(s)))
  {
    var os' := OwnerNext(ls, os, ClearRoutes(s));
    forall seat | seat in os'.calls ensures ReaderOk(ls, os', seat) {
      assert ReaderOk(ls, os, seat);
    }
  }

  lemma ReleaseSendsSoundly(ls: LeaseState, os: OwnerState, seat: Seat)
    requires ClaimInv(ls, os) && InCall(ls, os, seat)
    ensures SendsSoundly(ls, os, AfterReadForRelease(ls, os, seat), seat)
  {
  }
}
