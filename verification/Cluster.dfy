/**
 The cluster authority protocol over whole runs.

 A run is any sequence of events; an event that is not enabled when its turn comes
 has no effect.  What the environment must grant is stated as predicates over runs,
 one per hypothesis, and each theorem lists the ones it needs.
 */
module Cluster {
  import opened Coordination
  import opened NodeLease
  import opened NodeLeaseProofs
  import opened ActorOwnership
  import opened ActorOwnershipProofs

  datatype State = State(lease: LeaseState, own: OwnerState)
  datatype Event = OnLease(le: LeaseEvent) | OnOwner(oe: OwnerEvent)
  type Run = seq<Event>

  function Step(g: TicksPerMs, st: State, ev: Event): State {
    match ev
    case OnLease(le) =>
      if LeaseEnabled(st.lease, le) then st.(lease := LeaseNext(g, st.lease, le)) else st
    case OnOwner(oe) =>
      if OwnerEnabled(st.lease, st.own, oe) then st.(own := OwnerNext(st.lease, st.own, oe)) else st
  }

  function StateAt(g: TicksPerMs, run: Run, i: nat): State
    requires i <= |run|
  {
    if i == 0 then State(InitialLeases(), InitialOwners()) else Step(g, StateAt(g, run, i - 1), run[i - 1])
  }

  // The hypotheses.

  /** H1: wall clocks run at the rate of time and disagree by at most `skew` ticks. */
  predicate ClockAt(g: TicksPerMs, skew: nat, st: State, ev: Event) {
    match ev
    case OnLease(le) => LeaseClockOk(g, skew, st.lease, le)
    case OnOwner(oe) => JudgeClockOk(g, skew, st.lease, oe)
  }

  ghost predicate ClocksWithin(g: TicksPerMs, skew: nat, run: Run) {
    forall i: nat {:trigger ClockAt(g, skew, StateAt(g, run, i), run[i])} ::
      i < |run| ==> ClockAt(g, skew, StateAt(g, run, i), run[i])
  }

  /** H2: a renewal's result is acted on strictly before the deadline it extends. */
  predicate PromptAt(st: State, ev: Event) {
    ev.OnLease? ==> PromptRenewal(st.lease, ev.le)
  }

  ghost predicate PromptTimeouts(g: TicksPerMs, run: Run) {
    forall i: nat {:trigger PromptAt(StateAt(g, run, i), run[i])} ::
      i < |run| ==> PromptAt(StateAt(g, run, i), run[i])
  }

  /** H3: a directory read tests expiry at the instant the object is served. */
  predicate ServedAt(st: State, ev: Event) {
    ev.OnOwner? ==> JudgedAsServed(st.lease, st.own, ev.oe)
  }

  ghost predicate ReadsTestAsServed(g: TicksPerMs, run: Run) {
    forall i: nat {:trigger ServedAt(StateAt(g, run, i), run[i])} ::
      i < |run| ==> ServedAt(StateAt(g, run, i), run[i])
  }

  /** H4: a release that was never confirmed does not land later. */
  predicate AwaitedAt(st: State, ev: Event) {
    ev.OnOwner? ==> ReleaseAwaited(st.lease, st.own, ev.oe)
  }

  ghost predicate NoLateRelease(g: TicksPerMs, run: Run) {
    forall i: nat {:trigger AwaitedAt(StateAt(g, run, i), run[i])} ::
      i < |run| ==> AwaitedAt(StateAt(g, run, i), run[i])
  }

  /** H5: a session past its deadline, or after releasing its lease, starts no same-node takeover. */
  predicate AuthorizedAt(st: State, ev: Event) {
    ev.OnOwner? ==> TakeoverAuthorized(st.lease, st.own, ev.oe)
  }

  ghost predicate TakeoversAuthorized(g: TicksPerMs, run: Run) {
    forall i: nat {:trigger AuthorizedAt(StateAt(g, run, i), run[i])} ::
      i < |run| ==> AuthorizedAt(StateAt(g, run, i), run[i])
  }

  /** All five, with clocks that agree exactly at millisecond granularity. */
  ghost predicate Benign(run: Run) {
    && ClocksWithin(1, 0, run) && PromptTimeouts(1, run) && ReadsTestAsServed(1, run)
    && NoLateRelease(1, run) && TakeoversAuthorized(1, run)
  }

  // The invariants over runs.

  ghost predicate LeasesInv(g: TicksPerMs, skew: nat, ls: LeaseState) {
    LeaseInv(g, ls) && NamedInv(g, skew, ls)
  }

  ghost predicate ClusterInv(st: State) {
    LeasesInv(1, 0, st.lease) && OwnerInv(st.lease, st.own)
  }

  /** Every state of every run keeps the lease invariants, whatever the skew and the tick rate. */
  lemma {:induction false} LeaseInvAlways(g: TicksPerMs, skew: nat, run: Run, i: nat)
    requires ClocksWithin(g, skew, run) && i <= |run|
    ensures LeasesInv(g, skew, StateAt(g, run, i).lease)
  {
    if i == 0 {
      InitialInv(g, skew);
    } else {
      LeaseInvAlways(g, skew, run, i - 1);
      var before := StateAt(g, run, i - 1);
      assert ClockAt(g, skew, before, run[i - 1]);
      if run[i - 1].OnLease? && LeaseEnabled(before.lease, run[i - 1].le) {
        LeaseStepKeepsInv(g, before.lease, run[i - 1].le);
        LeaseStepKeepsNamed(g, skew, before.lease, run[i - 1].le);
      }
    }
  }

  lemma LeaseStepOnlyLapses(g: TicksPerMs, ls: LeaseState, ev: LeaseEvent)
    requires BornOnce(ls) && LeaseEnabled(ls, ev) && PromptRenewal(ls, ev)
    ensures OnlyLapses(ls, LeaseNext(g, ls, ev))
  {
    forall s | s in ls.sessions
      ensures var ls' := LeaseNext(g, ls, ev);
              s in ls'.sessions && ls'.sessions[s].node == ls.sessions[s].node && (Holds(ls', s) ==> Holds(ls, s))
    {
      LapsePersists(g, ls, ev, s);
    }
  }

  lemma ClusterStepKeepsInv(st: State, ev: Event)
    requires ClusterInv(st) && ClockAt(1, 0, st, ev) && PromptAt(st, ev) && ServedAt(st, ev)
    requires AwaitedAt(st, ev) && AuthorizedAt(st, ev)
    ensures ClusterInv(Step(1, st, ev))
  {
    match ev
    case OnLease(le) =>
      if LeaseEnabled(st.lease, le) {
        InvBornOnce(1, st.lease);
        LeaseStepKeepsInv(1, st.lease, le);
        LeaseStepKeepsNamed(1, 0, st.lease, le);
        LeaseStepOnlyLapses(1, st.lease, le);
        LapseKeepsOwnerInv(st.lease, LeaseNext(1, st.lease, le), st.own);
      }
    case OnOwner(oe) =>
      if OwnerEnabled(st.lease, st.own, oe) {
        OwnerStepKeepsInv(st.lease, st.own, oe);
      }
  }

  lemma InitialInv(g: TicksPerMs, skew: nat)
    ensures var st := State(InitialLeases(), InitialOwners());
            LeasesInv(g, skew, st.lease) && OwnerInv(st.lease, st.own) && ClaimInv(st.lease, st.own)
  {
  }

  lemma BenignStep(run: Run, i: nat)
    requires Benign(run) && i < |run| && ClusterInv(StateAt(1, run, i))
    ensures ClusterInv(StateAt(1, run, i + 1))
  {
    var st := StateAt(1, run, i);
    assert ClockAt(1, 0, st, run[i]) && PromptAt(st, run[i]) && ServedAt(st, run[i]);
    assert AwaitedAt(st, run[i]) && AuthorizedAt(st, run[i]);
    ClusterStepKeepsInv(st, run[i]);
  }

  /** Every state of every benign run satisfies the invariants. */
  lemma {:induction false} ClusterInvAlways(run: Run, i: nat)
    requires Benign(run) && i <= |run|
    ensures ClusterInv(StateAt(1, run, i))
  {
    if i == 0 {
      InitialInv(1, 0);
    } else {
      ClusterInvAlways(run, i - 1);
      BenignStep(run, i - 1);
    }
  }

  /** What is said of claims holds without H4: late releases are allowed. */
  lemma {:induction false} ClaimInvAlways(run: Run, i: nat)
    requires ClocksWithin(1, 0, run) && PromptTimeouts(1, run)
    requires ReadsTestAsServed(1, run) && TakeoversAuthorized(1, run) && i <= |run|
    ensures LeasesInv(1, 0, StateAt(1, run, i).lease) && ClaimInv(StateAt(1, run, i).lease, StateAt(1, run, i).own)
  {
    LeaseInvAlways(1, 0, run, i);
    if i == 0 {
      InitialInv(1, 0);
    } else {
      ClaimInvAlways(run, i - 1);
      var before := StateAt(1, run, i - 1);
      assert ClockAt(1, 0, before, run[i - 1]) && PromptAt(before, run[i - 1]);
      assert ServedAt(before, run[i - 1]) && AuthorizedAt(before, run[i - 1]);
      ClaimInvStep(before, run[i - 1]);
    }
  }

  lemma ClaimInvStep(st: State, ev: Event)
    requires LeasesInv(1, 0, st.lease) && ClaimInv(st.lease, st.own)
    requires ClockAt(1, 0, st, ev) && PromptAt(st, ev) && ServedAt(st, ev) && AuthorizedAt(st, ev)
    ensures ClaimInv(Step(1, st, ev).lease, Step(1, st, ev).own)
  {
    match ev
    case OnLease(le) =>
      if LeaseEnabled(st.lease, le) {
        InvBornOnce(1, st.lease);
        LeaseStepOnlyLapses(1, st.lease, le);
        LapseKeepsClaimInv(st.lease, LeaseNext(1, st.lease, le), st.own);
      }
    case OnOwner(oe) =>
      if OwnerEnabled(st.lease, st.own, oe) {
        ClaimStepKeepsInv(st.lease, st.own, oe);
      }
  }

  // The theorems.

  /** Session `s` would admit a message for address `a` and has an Active route for it. */
  predicate Serves(st: State, s: SessionId, a: Address) {
    Admits(st.lease, s) && Seat(s, a) in st.own.routes && st.own.routes[Seat(s, a)].Active?
  }

  lemma AdmitsHolds(g: TicksPerMs, st: State, s: SessionId)
    requires LeaseInv(g, st.lease) && Admits(st.lease, s)
    ensures Holds(st.lease, s)
  {
    assert SessionOk(g, st.lease, s);
  }

  lemma ServingIsRecorded(st: State, a: Address, s: SessionId)
    requires ClusterInv(st) && Serves(st, s, a)
    ensures a in st.own.owners && st.own.owners[a].owner == Some(Owner(st.lease.sessions[s].node, s))
  {
    AdmitsHolds(1, st, s);
    assert RouteOk(st.lease, st.own, Seat(s, a));
  }

  /** Whenever a session serves an address, the stored record names exactly it. */
  lemma ServerIsRecordedOwner(run: Run, i: nat, a: Address, s: SessionId)
    requires Benign(run) && i <= |run| && Serves(StateAt(1, run, i), s, a)
    ensures var st := StateAt(1, run, i);
            a in st.own.owners && st.own.owners[a].owner == Some(Owner(st.lease.sessions[s].node, s))
  {
    ClusterInvAlways(run, i);
    ServingIsRecorded(StateAt(1, run, i), a, s);
  }

  /** At every instant of every benign run, at most one session serves an address. */
  lemma SingleServer(run: Run, i: nat, a: Address, s: SessionId, t: SessionId)
    requires Benign(run) && i <= |run|
    requires Serves(StateAt(1, run, i), s, a) && Serves(StateAt(1, run, i), t, a)
    ensures s == t
  {
    ServerIsRecordedOwner(run, i, a, s);
    ServerIsRecordedOwner(run, i, a, t);
  }

  /**
   With clocks up to `skew` apart and any tick rate: at every instant of every run, a
   session that holds its lease, with more time left than the clocks can disagree, is the
   one named by its node's lease, and that lease outlasts its deadline up to rounding.
   */
  lemma SecureHolderIsNamed(g: TicksPerMs, skew: nat, run: Run, i: nat, s: SessionId)
    requires ClocksWithin(g, skew, run) && i <= |run|
    requires var ls := StateAt(g, run, i).lease;
             Holds(ls, s) && Secure(g, skew, ls, ls.sessions[s].ttl, ls.sessions[s].deadline)
    ensures var ls := StateAt(g, run, i).lease;
            && NamedInStore(ls, ls.sessions[s].node, s)
            && Dominates(g, ls.sessions[s].ttl, ls.stored[ls.sessions[s].node].expires, ls.sessions[s].deadline)
  {
    LeaseInvAlways(g, skew, run, i);
    var ls := StateAt(g, run, i).lease;
    assert HolderNamed(g, skew, ls, s) && SessionOk(g, ls, s);
  }

  /**
   With exact clocks, a session that can still serve is the one named by its node's lease,
   which expires no earlier than its deadline.  Nothing is asked of renewals or of owners.
   */
  lemma HolderDominates(run: Run, i: nat, s: SessionId)
    requires ClocksWithin(1, 0, run) && i <= |run| && Holds(StateAt(1, run, i).lease, s)
    ensures var ls := StateAt(1, run, i).lease;
            && ls.sessions[s].node in ls.stored
            && ls.stored[ls.sessions[s].node].session == s
            && ls.sessions[s].deadline <= ls.stored[ls.sessions[s].node].expires
  {
    SecureHolderIsNamed(1, 0, run, i, s);
  }

  /**
   With clocks up to `skew` apart and sub-millisecond time: whoever judges the stored
   lease of session `s` expired is less than skew + 1 ms + (ttl mod 1 ms) ahead of the
   deadline of `s`, at every instant of every run.
   */
  lemma ExpiryJudgedWithinBound(g: TicksPerMs, skew: nat, run: Run, i: nat, s: SessionId, wall: nat)
    requires ClocksWithin(g, skew, run) && i <= |run|
    requires var ls := StateAt(g, run, i).lease;
             && s in ls.sessions && NamedInStore(ls, ls.sessions[s].node, s)
             && Reads(g, skew, ls, wall) && !Unexpired(ls.stored[ls.sessions[s].node], wall)
    ensures var ls := StateAt(g, run, i).lease;
            ls.sessions[s].deadline < ls.now + skew + g + ls.sessions[s].ttl % g
  {
    LeaseInvAlways(g, skew, run, i);
    ExpiredReadIsLate(g, skew, StateAt(g, run, i).lease, s, wall);
  }

  lemma {:induction false} BornOnceAlways(g: TicksPerMs, run: Run, i: nat)
    requires i <= |run|
    ensures BornOnce(StateAt(g, run, i).lease)
  {
    if i > 0 {
      BornOnceAlways(g, run, i - 1);
      var before := StateAt(g, run, i - 1);
      if run[i - 1].OnLease? && LeaseEnabled(before.lease, run[i - 1].le) {
        StepKeepsBornOnce(g, before.lease, run[i - 1].le);
      }
    }
  }

  /** A lapsed session gains no route in one step. */
  lemma LapsedGainsNoRoute(g: TicksPerMs, st: State, ev: Event, s: SessionId, a: Address)
    requires !IsValid(st.lease, s) && Seat(s, a) in Step(g, st, ev).own.routes
    ensures Seat(s, a) in st.own.routes
  {
    if ev.OnOwner? && OwnerEnabled(st.lease, st.own, ev.oe) && !ev.oe.Dispatch? && !ev.oe.DispatchAction? {
      OnlyDispatchRoutes(st.lease, st.own, ev.oe);
    }
  }

  lemma OnlyDispatchRoutes(ls: LeaseState, os: OwnerState, ev: OwnerEvent)
    requires OwnerEnabled(ls, os, ev) && !ev.Dispatch? && !ev.DispatchAction?
    ensures OwnerNext(ls, os, ev).routes.Keys <= os.routes.Keys
  {
  }

  /** Fencing is permanent, with no hypothesis: a cleared flag stays cleared, and no route is gained after it. */
  lemma {:induction false} FencingIsPermanent(g: TicksPerMs, run: Run, i: nat, j: nat, s: SessionId)
    requires i <= j <= |run|
    requires s in StateAt(g, run, i).lease.sessions && !StateAt(g, run, i).lease.sessions[s].valid
    ensures s in StateAt(g, run, j).lease.sessions && !StateAt(g, run, j).lease.sessions[s].valid
    ensures forall a :: Seat(s, a) in StateAt(g, run, j).own.routes ==> Seat(s, a) in StateAt(g, run, i).own.routes
    decreases j
  {
    if i < j {
      FencingIsPermanent(g, run, i, j - 1, s);
      var before := StateAt(g, run, j - 1);
      BornOnceAlways(g, run, j - 1);
      if run[j - 1].OnLease? && LeaseEnabled(before.lease, run[j - 1].le) {
        FlagStaysCleared(g, before.lease, run[j - 1].le, s);
      }
      forall a | Seat(s, a) in StateAt(g, run, j).own.routes
        ensures Seat(s, a) in StateAt(g, run, i).own.routes
      {
        LapsedGainsNoRoute(g, before, run[j - 1], s, a);
      }
    }
  }

  lemma FlagStaysCleared(g: TicksPerMs, ls: LeaseState, ev: LeaseEvent, s: SessionId)
    requires BornOnce(ls) && LeaseEnabled(ls, ev) && s in ls.sessions && !ls.sessions[s].valid
    ensures s in LeaseNext(g, ls, ev).sessions && !LeaseNext(g, ls, ev).sessions[s].valid
  {
    if !TouchesSession(ev, s) {
      UntouchedSession(g, ls, ev, s);
    }
  }

  /**
   Authority lapse is permanent: once a started session is not valid it is never valid
   again, and from then on no dispatch creates a route for it.
   */
  lemma {:induction false} LapseIsPermanent(g: TicksPerMs, run: Run, i: nat, j: nat, s: SessionId)
    requires PromptTimeouts(g, run) && i <= j <= |run|
    requires s in StateAt(g, run, i).lease.sessions && !IsValid(StateAt(g, run, i).lease, s)
    ensures s in StateAt(g, run, j).lease.sessions && !IsValid(StateAt(g, run, j).lease, s)
    ensures forall a :: Seat(s, a) in StateAt(g, run, j).own.routes ==> Seat(s, a) in StateAt(g, run, i).own.routes
    decreases j
  {
    if i < j {
      LapseIsPermanent(g, run, i, j - 1, s);
      var before := StateAt(g, run, j - 1);
      assert PromptAt(before, run[j - 1]);
      BornOnceAlways(g, run, j - 1);
      if run[j - 1].OnLease? && LeaseEnabled(before.lease, run[j - 1].le) {
        LapsePersists(g, before.lease, run[j - 1].le, s);
      }
      forall a | Seat(s, a) in StateAt(g, run, j).own.routes
        ensures Seat(s, a) in StateAt(g, run, i).own.routes
      {
        LapsedGainsNoRoute(g, before, run[j - 1], s, a);
      }
    }
  }

  /**
   A write that lands, however late, never takes an address away from a session that
   could still serve it: what is displaced is a lapsed owner, an unowned or absent
   record, or the writer's own record under release.
   */
  lemma LateWriteDisplacesNobody(run: Run, i: nat, id: nat)
    requires ClocksWithin(1, 0, run) && PromptTimeouts(1, run)
    requires ReadsTestAsServed(1, run) && TakeoversAuthorized(1, run)
    requires i < |run| && run[i] == OnOwner(LandOwner(id))
    requires id < |StateAt(1, run, i).own.ops|
    requires var os := StateAt(1, run, i).own; Matches(os.owners, os.ops[id].seat.a, os.ops[id].condition)
    ensures var st := StateAt(1, run, i);
            var op := st.own.ops[id];
            op.seat.a in st.own.owners && st.own.owners[op.seat.a].owner.Some? ==>
              var prior := st.own.owners[op.seat.a].owner.value.session;
              if IsRelease(op)
              then prior == op.seat.s && st.own.owners[op.seat.a].epoch == op.record.epoch
              else !Holds(st.lease, prior) && !Admits(st.lease, prior)
  {
    ClaimInvAlways(run, i);
    var st := StateAt(1, run, i);
    assert OwnerOpOk(st.lease, st.own.ops[id]);
    var op := st.own.ops[id];
    if !IsRelease(op) && op.seat.a in st.own.owners && st.own.owners[op.seat.a].owner.Some? {
      var prior := st.own.owners[op.seat.a].owner.value.session;
      if Admits(st.lease, prior) {
        AdmitsHolds(1, st, prior);
      }
    }
  }
}
