/**
 Each hypothesis of the single-server theorem is needed: for each there is a run in
 which only that one fails and two sessions serve the same address at once.
 */
module Necessity {
  import opened Coordination
  import opened NodeLease
  import opened NodeLeaseProofs
  import opened ActorOwnership
  import opened ActorOwnershipProofs
  import opened Cluster

  /** The hypothesis that may fail; for `Unreleased`, H5 still holds of sessions past their deadline. */
  datatype Hypothesis = Clocks | Prompt | AsServed | Awaited | Authorized | Unreleased | Nothing

  /** A weaker H5: only sessions past their deadline are kept from starting a same-node takeover. */
  predicate NotPastDeadlineAt(st: State, ev: Event) {
    ev.OnOwner? && StartsTakeover(st.lease, st.own, ev.oe) ==> IsValid(st.lease, ev.oe.seat.s)
  }

  predicate AuthorizedFor(h: Hypothesis, st: State, ev: Event) {
    h.Authorized? || AuthorizedAt(st, ev) || (h.Unreleased? && NotPastDeadlineAt(st, ev))
  }

  /** Every hypothesis other than `h` holds of this step; for clocks, a skew of one tick is left. */
  predicate GoodStep(h: Hypothesis, st: State, ev: Event) {
    && ClockAt(1, if h.Clocks? then 1 else 0, st, ev)
    && (h.Prompt? || PromptAt(st, ev))
    && (h.AsServed? || ServedAt(st, ev))
    && (h.Awaited? || AwaitedAt(st, ev))
    && AuthorizedFor(h, st, ev)
  }

  ghost predicate BenignExcept(h: Hypothesis, run: Run) {
    forall i: nat {:trigger GoodStep(h, StateAt(1, run, i), run[i])} ::
      i < |run| ==> GoodStep(h, StateAt(1, run, i), run[i])
  }

  /** Nothing weaker than the run predicates of module Cluster is meant. */
  lemma BenignExceptMeans(h: Hypothesis, run: Run)
    requires BenignExcept(h, run)
    ensures ClocksWithin(1, if h.Clocks? then 1 else 0, run)
    ensures h.Prompt? || PromptTimeouts(1, run)
    ensures h.AsServed? || ReadsTestAsServed(1, run)
    ensures h.Awaited? || NoLateRelease(1, run)
    ensures h.Authorized? || h.Unreleased? || TakeoversAuthorized(1, run)
  {
    forall i: nat | i < |run| ensures GoodStep(h, StateAt(1, run, i), run[i]) {
    }
    assert forall i: nat {:trigger ClockAt(1, if h.Clocks? then 1 else 0, StateAt(1, run, i), run[i])} ::
      i < |run| ==> GoodStep(h, StateAt(1, run, i), run[i]);
    assert forall i: nat {:trigger PromptAt(StateAt(1, run, i), run[i])} ::
      i < |run| ==> GoodStep(h, StateAt(1, run, i), run[i]);
    assert forall i: nat {:trigger ServedAt(StateAt(1, run, i), run[i])} ::
      i < |run| ==> GoodStep(h, StateAt(1, run, i), run[i]);
    assert forall i: nat {:trigger AwaitedAt(StateAt(1, run, i), run[i])} ::
      i < |run| ==> GoodStep(h, StateAt(1, run, i), run[i]);
    assert forall i: nat {:trigger AuthorizedAt(StateAt(1, run, i), run[i])} ::
      i < |run| ==> GoodStep(h, StateAt(1, run, i), run[i]);
  }

  ghost predicate Reaches(h: Hypothesis, run: Run, st: State) {
    BenignExcept(h, run) && StateAt(1, run, |run|) == st
  }

  lemma {:induction false} PrefixState(run: Run, ev: Event, i: nat)
    requires i <= |run|
    ensures StateAt(1, run + [ev], i) == StateAt(1, run, i)
  {
    if i > 0 {
      PrefixState(run, ev, i - 1);
      assert (run + [ev])[i - 1] == run[i - 1];
    }
  }

  /** Extend a run by one event. */
  lemma {:induction false} Then(h: Hypothesis, run: Run, st: State, ev: Event) returns (run': Run)
    requires Reaches(h, run, st) && GoodStep(h, st, ev)
    ensures run <= run'
    ensures Reaches(h, run', Step(1, st, ev))
  {
    run' := run + [ev];
    forall i: nat | i < |run'| ensures GoodStep(h, StateAt(1, run', i), run'[i]) {
      StaysGood(h, run, ev, i);
    }
    PrefixState(run, ev, |run|);
    LastState(run, ev);
  }

  /** Every step of the longer run is good. */
  lemma {:induction false} StaysGood(h: Hypothesis, run: Run, ev: Event, i: nat)
    requires BenignExcept(h, run) && GoodStep(h, StateAt(1, run, |run|), ev) && i < |run + [ev]|
    ensures GoodStep(h, StateAt(1, run + [ev], i), (run + [ev])[i])
  {
    PrefixState(run, ev, i);
    if i < |run| {
      assert GoodStep(h, StateAt(1, run, i), run[i]);
      assert (run + [ev])[i] == run[i];
    } else {
      assert (run + [ev])[i] == ev;
    }
  }

  lemma {:induction false} LastState(run: Run, ev: Event)
    ensures StateAt(1, run + [ev], |run| + 1) == Step(1, StateAt(1, run, |run|), ev)
  {
    PrefixState(run, ev, |run|);
    assert (run + [ev])[|run|] == ev;
  }

  /** The same, for an enabled lease event leading to `ls`. */
  lemma ThenLease(h: Hypothesis, run: Run, st: State, ev: LeaseEvent, ls: LeaseState) returns (run': Run)
    requires Reaches(h, run, st) && LeaseEnabled(st.lease, ev) && LeaseNext(1, st.lease, ev) == ls
    requires LeaseClockOk(1, 0, st.lease, ev) && (h.Prompt? || PromptRenewal(st.lease, ev))
    ensures run <= run'
    ensures Reaches(h, run', st.(lease := ls))
  {
    assert LeaseClockOk(1, 1, st.lease, ev);
    run' := Then(h, run, st, OnLease(ev));
  }

  /** And for an enabled owner event leading to `os`. */
  lemma ThenOwner(h: Hypothesis, run: Run, st: State, ev: OwnerEvent, os: OwnerState) returns (run': Run)
    requires Reaches(h, run, st) && OwnerEnabled(st.lease, st.own, ev) && OwnerNext(st.lease, st.own, ev) == os
    requires GoodStep(h, st, OnOwner(ev))
    ensures run <= run'
    ensures Reaches(h, run', st.(own := os))
  {
    run' := Then(h, run, st, OnOwner(ev));
  }

  /** And for an owner event that no hypothesis speaks of. */
  lemma ThenQuiet(h: Hypothesis, run: Run, st: State, ev: OwnerEvent, os: OwnerState) returns (run': Run)
    requires Reaches(h, run, st) && OwnerEnabled(st.lease, st.own, ev) && OwnerNext(st.lease, st.own, ev) == os
    requires !ev.JudgeNode? && !ev.LandOwner? && !ev.ReadOwner?
    ensures run <= run'
    ensures Reaches(h, run', st.(own := os))
  {
    run' := Then(h, run, st, OnOwner(ev));
  }

  // Scenes: short stretches of events that the runs below are made of.

  function StartedSession(node: NodeId, s: SessionId, now: nat, ttl: nat): NodeSession {
    NodeSession(node, ttl, true, now + ttl, Running, 0, Lease(s, 0, now + ttl), Sleeping, false)
  }

  /** A server starts on a free node and comes into service. */
  function WithServer(st: State, s: SessionId, node: NodeId, ttl: nat): State {
    var now := st.lease.now;
    var found := Lookup(st.lease.stored, node);
    st.(lease := LeaseState(
          now, st.lease.stored[node := Lease(s, 0, now + ttl)],
          st.lease.ops + [Put(s, node, ConditionOn(found), Lease(s, 0, now + ttl))],
          st.lease.landed + {|st.lease.ops|},
          st.lease.starts[s := Start(node, ttl, now, Done)],
          st.lease.sessions[s := StartedSession(node, s, now, ttl)]))
  }

  function InPhase(ls: LeaseState, s: SessionId, node: NodeId, ttl: nat, phase: StartPhase): LeaseState {
    ls.(starts := ls.starts[s := Start(node, ttl, ls.now, phase)])
  }

  function AcquireOp(ls: LeaseState, s: SessionId, node: NodeId, ttl: nat): LeaseOp {
    Put(s, node, ConditionOn(Lookup(ls.stored, node)), Lease(s, 0, ls.now + ttl))
  }

  lemma StartReads(ls: LeaseState, s: SessionId, node: NodeId, ttl: nat)
    requires s !in ls.starts
    ensures LeaseNext(1, ls, StartSession(s, node, ttl)) == InPhase(ls, s, node, ttl, Reading)
    ensures LeaseNext(1, InPhase(ls, s, node, ttl, Reading), AcquireRead(s))
            == InPhase(ls, s, node, ttl, Fetched(Lookup(ls.stored, node)))
  {
    assert InPhase(ls, s, node, ttl, Reading).starts[s := Start(node, ttl, ls.now, Fetched(Lookup(ls.stored, node)))]
        == InPhase(ls, s, node, ttl, Fetched(Lookup(ls.stored, node))).starts;
  }

  lemma StartPuts(ls: LeaseState, s: SessionId, node: NodeId, ttl: nat)
    requires node in ls.stored ==> ls.stored[node].expires <= ls.now
    ensures LeaseNext(1, InPhase(ls, s, node, ttl, Fetched(Lookup(ls.stored, node))), AcquirePut(s, ls.now, ls.now))
            == InPhase(ls, s, node, ttl, AwaitingPut(|ls.ops|)).(ops := ls.ops + [AcquireOp(ls, s, node, ttl)])
  {
    var fetched := InPhase(ls, s, node, ttl, Fetched(Lookup(ls.stored, node)));
    assert fetched.starts[s := Start(node, ttl, ls.now, AwaitingPut(|ls.ops|))]
        == InPhase(ls, s, node, ttl, AwaitingPut(|ls.ops|)).starts;
  }

  function AcquireLanded(ls: LeaseState, s: SessionId, node: NodeId, ttl: nat): LeaseState {
    InPhase(ls, s, node, ttl, AwaitingPut(|ls.ops|)).(
      ops := ls.ops + [AcquireOp(ls, s, node, ttl)],
      stored := ls.stored[node := Lease(s, 0, ls.now + ttl)], landed := ls.landed + {|ls.ops|})
  }

  lemma StartLands(ls: LeaseState, s: SessionId, node: NodeId, ttl: nat)
    requires |ls.ops| !in ls.landed
    ensures var sent := InPhase(ls, s, node, ttl, AwaitingPut(|ls.ops|)).(
                          ops := ls.ops + [AcquireOp(ls, s, node, ttl)]);
            Land(sent, |ls.ops|)
            == AcquireLanded(ls, s, node, ttl)
  {
  }

  lemma StartServes(st: State, s: SessionId, node: NodeId, ttl: nat)
    requires ttl > 0
    ensures LeaseNext(1, AcquireLanded(st.lease, s, node, ttl), AcquireApplied(s)) == WithServer(st, s, node, ttl).lease
  {
    var ls := AcquireLanded(st.lease, s, node, ttl);
    assert ls.starts[s := Start(node, ttl, st.lease.now, Done)] == WithServer(st, s, node, ttl).lease.starts;
  }

  lemma StartServer(h: Hypothesis, run: Run, st: State, s: SessionId, node: NodeId, ttl: nat) returns (run': Run)
    requires Reaches(h, run, st) && s !in st.lease.starts && ttl > 0
    requires node in st.lease.stored ==> st.lease.stored[node].expires <= st.lease.now
    requires |st.lease.ops| !in st.lease.landed
    ensures Reaches(h, run', WithServer(st, s, node, ttl))
  {
    var ls := st.lease;
    var reading := InPhase(ls, s, node, ttl, Reading);
    var fetched := InPhase(ls, s, node, ttl, Fetched(Lookup(ls.stored, node)));
    var sent := InPhase(ls, s, node, ttl, AwaitingPut(|ls.ops|)).(ops := ls.ops + [AcquireOp(ls, s, node, ttl)]);
    var landed := AcquireLanded(ls, s, node, ttl);
    StartReads(ls, s, node, ttl);
    StartPuts(ls, s, node, ttl);
    StartLands(ls, s, node, ttl);
    StartServes(st, s, node, ttl);
    run' := ThenLease(h, run, st, StartSession(s, node, ttl), reading);
    run' := ThenLease(h, run', st.(lease := reading), AcquireRead(s), fetched);
    run' := ThenLease(h, run', st.(lease := fetched), AcquirePut(s, ls.now, ls.now), sent);
    run' := ThenLease(h, run', st.(lease := sent), LandLease(|ls.ops|), landed);
    run' := ThenLease(h, run', st.(lease := landed), AcquireApplied(s), WithServer(st, s, node, ttl).lease);
  }

  /** After `Resolve` and the first owner read. */
  function Asked(ls: LeaseState, os: OwnerState, seat: Seat): OwnerState
    requires seat.s in ls.sessions
  {
    AfterOwnerRead(ls, SetCall(os, seat, ReadingOwner(0)), seat)
  }

  lemma Ask(h: Hypothesis, run: Run, st: State, seat: Seat) returns (run': Run)
    requires Reaches(h, run, st) && seat.s in st.lease.sessions && seat !in st.own.calls
    requires AuthorizedFor(h, st.(own := SetCall(st.own, seat, ReadingOwner(0))), OnOwner(ReadOwner(seat)))
    ensures run <= run'
    ensures Reaches(h, run', st.(own := Asked(st.lease, st.own, seat)))
  {
    var asking := SetCall(st.own, seat, ReadingOwner(0));
    run' := ThenQuiet(h, run, st, Resolve(seat), asking);
    run' := ThenOwner(h, run', st.(own := asking), ReadOwner(seat), Asked(st.lease, st.own, seat));
  }

  /** The claim of `seat` over the current record has landed, and dispatch has made a route. */
  function Served(ls: LeaseState, os: OwnerState, seat: Seat): OwnerState
    requires seat.s in ls.sessions
  {
    var seen := Lookup(os.owners, seat.a);
    var record := ClaimOver(ls.sessions[seat.s].node, seat.s, seen);
    OwnerState(os.owners[seat.a := record], os.ops + [OwnerOp(seat, ConditionOn(seen), record)],
               os.landed + {|os.ops|}, os.calls - {seat}, os.routes[seat := Active], os.live + {seat})
  }

  /** The same before dispatch: the call has resolved to Local. */
  function Granted(ls: LeaseState, os: OwnerState, seat: Seat): OwnerState
    requires seat.s in ls.sessions
  {
    Served(ls, os, seat).(calls := os.calls[seat := Local], routes := os.routes, live := os.live)
  }

  /** A claim that is under way lands and is reported. */
  lemma Adopt(h: Hypothesis, run: Run, st: State, os: OwnerState, seat: Seat, call: Call) returns (run': Run)
    requires seat.s in st.lease.sessions && |os.ops| !in os.landed
    requires (call.AwaitingClaim? || call.AwaitingTakeover?) && call.op == |os.ops|
    requires Reaches(h, run, st.(own := SendClaim(st.lease, os, seat, Lookup(os.owners, seat.a), call)))
    ensures run <= run'
    ensures Reaches(h, run', st.(own := Granted(st.lease, os, seat)))
  {
    var sent := SendClaim(st.lease, os, seat, Lookup(os.owners, seat.a), call);
    var landed := sent.(owners := os.owners[seat.a := sent.ops[|os.ops|].record], landed := os.landed + {|os.ops|});
    run' := ThenOwner(h, run, st.(own := sent), LandOwner(|os.ops|), landed);
    assert landed.calls[seat := Local] == os.calls[seat := Local];
    run' := ThenQuiet(h, run', st.(own := landed), ClaimApplied(seat), SetCall(landed, seat, Local));
  }

  /** And is dispatched on. */
  lemma Settle(h: Hypothesis, run: Run, st: State, os: OwnerState, seat: Seat, call: Call) returns (run': Run)
    requires Admits(st.lease, seat.s) && |os.ops| !in os.landed
    requires seat !in os.calls && seat !in os.routes
    requires (call.AwaitingClaim? || call.AwaitingTakeover?) && call.op == |os.ops|
    requires Reaches(h, run, st.(own := SendClaim(st.lease, os, seat, Lookup(os.owners, seat.a), call)))
    ensures run <= run'
    ensures Reaches(h, run', st.(own := Served(st.lease, os, seat)))
  {
    run' := Adopt(h, run, st, os, seat, call);
    var local := Granted(st.lease, os, seat);
    assert local.calls - {seat} == os.calls - {seat};
    run' := ThenQuiet(h, run', st.(own := local), Dispatch(seat), Served(st.lease, os, seat));
  }

  /** A session claims an address nobody owns and serves it. */
  lemma ServeUnowned(h: Hypothesis, run: Run, st: State, seat: Seat) returns (run': Run)
    requires Reaches(h, run, st) && Admits(st.lease, seat.s)
    requires seat !in st.own.calls && seat !in st.own.routes && |st.own.ops| !in st.own.landed
    requires seat.a in st.own.owners ==> st.own.owners[seat.a].owner.None?
    ensures run <= run'
    ensures Reaches(h, run', st.(own := Served(st.lease, st.own, seat)))
  {
    run' := Ask(h, run, st, seat);
    var call := AwaitingClaim(0, |st.own.ops|);
    var asking := SetCall(st.own, seat, ReadingOwner(0));
    assert asking.calls[seat := call] == st.own.calls[seat := call];
    assert Asked(st.lease, st.own, seat) == SendClaim(st.lease, st.own, seat, Lookup(st.own.owners, seat.a), call);
    run' := Settle(h, run', st, st.own, seat, call);
  }

  /** `seat` has found another node's session recorded and fetched that node's lease. */
  function Inspecting(os: OwnerState, seat: Seat, fetched: Option<Lease>): OwnerState
    requires seat.a in os.owners
  {
    SetCall(os, seat, ReadingNode(0, os.owners[seat.a], Some(fetched)))
  }

  predicate OwnedElsewhere(ls: LeaseState, os: OwnerState, seat: Seat) {
    && seat.s in ls.sessions && seat.a in os.owners && os.owners[seat.a].owner.Some?
    && os.owners[seat.a].owner.value.node != ls.sessions[seat.s].node
  }

  lemma Inspect(h: Hypothesis, run: Run, st: State, seat: Seat) returns (run': Run)
    requires Reaches(h, run, st) && OwnedElsewhere(st.lease, st.own, seat) && seat !in st.own.calls
    ensures Reaches(h, run', st.(own := Inspecting(
              st.own, seat, Lookup(st.lease.stored, st.own.owners[seat.a].owner.value.node))))
  {
    run' := Ask(h, run, st, seat);
    var asked := SetCall(st.own, seat, ReadingNode(0, st.own.owners[seat.a], None));
    assert SetCall(st.own, seat, ReadingOwner(0)).calls[seat := asked.calls[seat]] == asked.calls;
    assert Asked(st.lease, st.own, seat) == asked;
    var inspecting := Inspecting(st.own, seat, Lookup(st.lease.stored, st.own.owners[seat.a].owner.value.node));
    assert asked.calls[seat := inspecting.calls[seat]] == inspecting.calls;
    run' := ThenQuiet(h, run', st.(own := asked), FetchNode(seat), inspecting);
  }

  /** `seat` judges the recorded owner gone, takes the address over and serves it. */
  lemma Seize(h: Hypothesis, run: Run, st: State, os: OwnerState, seat: Seat, fetched: Option<Lease>, wall: nat)
    returns (run': Run)
    requires OwnedElsewhere(st.lease, os, seat) && Admits(st.lease, seat.s)
    requires seat !in os.calls && seat !in os.routes && |os.ops| !in os.landed
    requires Reaches(h, run, st.(own := Inspecting(os, seat, fetched)))
    requires Visible(fetched, wall).Some? ==>
               Visible(fetched, wall).value.session != os.owners[seat.a].owner.value.session
    requires GoodStep(h, st.(own := Inspecting(os, seat, fetched)), OnOwner(JudgeNode(seat, wall)))
    ensures Reaches(h, run', st.(own := Served(st.lease, os, seat)))
  {
    var inspecting := Inspecting(os, seat, fetched);
    var call := AwaitingClaim(0, |os.ops|);
    var sent := SendClaim(st.lease, os, seat, Lookup(os.owners, seat.a), call);
    assert inspecting.calls[seat := call] == sent.calls;
    run' := ThenOwner(h, run, st.(own := inspecting), JudgeNode(seat, wall), sent);
    run' := Settle(h, run', st, os, seat, call);
  }

  function Later(st: State, ticks: nat): State {
    st.(lease := st.lease.(now := st.lease.now + ticks))
  }

  lemma Wait(h: Hypothesis, run: Run, st: State, ticks: nat) returns (run': Run)
    requires Reaches(h, run, st)
    ensures Reaches(h, run', Later(st, ticks))
  {
    run' := ThenLease(h, run, st, Tick(ticks), Later(st, ticks).lease);
  }

  function RenewalSent(ls: LeaseState, s: SessionId): LeaseState
    requires s in ls.sessions
  {
    var ss := ls.sessions[s];
    SetSession(ls, s, ss.(generation := ss.generation + 1, renewal := Awaiting(|ls.ops|, ls.now))).(
      ops := ls.ops + [Put(s, ss.node, IfMatch(ss.revision), Lease(s, ss.generation + 1, ls.now + ss.ttl))])
  }

  // The opening shared by all runs: servers 1 and 2 start, and session 1 serves "room".

  const ROOM: Address := "room"

  predicate OpeningLeases(ls: LeaseState) {
    && |ls.ops| == 2 && ls.landed == {0, 1} && ls.starts.Keys == {1, 2}
    && ls.stored == map["n1" := Lease(1, 0, 10), "n2" := Lease(2, 0, 100)]
    && ls.sessions == map[1 := StartedSession("n1", 1, 0, 10), 2 := StartedSession("n2", 2, 0, 100)]
  }

  predicate OpeningOwners(os: OwnerState) {
    && os.owners == map[ROOM := LocalClaim("n1", 1, 1)] && |os.ops| == 1 && os.landed == {0}
    && os.calls == map[] && os.routes == map[Seat(1, ROOM) := Active] && os.live == {Seat(1, ROOM)}
  }

  /** Open, and let `ticks` pass. */
  lemma Open(h: Hypothesis, ticks: nat) returns (run: Run, st: State)
    ensures Reaches(h, run, st) && st.lease.now == ticks
    ensures OpeningLeases(st.lease) && OpeningOwners(st.own)
  {
    var initial := State(InitialLeases(), InitialOwners());
    run := [];
    assert Reaches(h, run, initial);
    run := StartServer(h, run, initial, 1, "n1", 10);
    var first := WithServer(initial, 1, "n1", 10);
    run := StartServer(h, run, first, 2, "n2", 100);
    st := WithServer(first, 2, "n2", 100);
    run := ServeUnowned(h, run, st, Seat(1, ROOM));
    st := st.(own := Served(st.lease, st.own, Seat(1, ROOM)));
    run := Wait(h, run, st, ticks);
    st := Later(st, ticks);
  }

  /** Both servers admit messages for the room and have an Active route for it. */
  ghost predicate EndsWithTwoServers(run: Run, s: SessionId, t: SessionId) {
    s != t && Serves(StateAt(1, run, |run|), s, ROOM) && Serves(StateAt(1, run, |run|), t, ROOM)
  }

  /** Session 1 of the opening renews at its first generation. */
  lemma RenewFirst(h: Hypothesis, run: Run, st: State) returns (run': Run, st': State)
    requires Reaches(h, run, st) && OpeningLeases(st.lease) && st.lease.now < 10
    ensures Reaches(h, run', st') && st'.own == st.own && st'.lease.now == st.lease.now
    ensures 1 in st'.lease.sessions && st'.lease.sessions == st.lease.sessions[1 := st'.lease.sessions[1]]
    ensures st'.lease.sessions[1].deadline == st.lease.now + 10 && st'.lease.sessions[1].valid
    ensures st'.lease.sessions[1].status == Running && st'.lease.sessions[1].node == "n1"
  {
    var ls := st.lease;
    var sent := RenewalSent(ls, 1);
    run' := ThenLease(h, run, st, RenewStart(1, ls.now), sent);
    var landed := Land(sent, 2);
    run' := ThenLease(h, run', st.(lease := sent), LandLease(2), landed);
    var renewed := LeaseNext(1, landed, RenewApplied(1));
    run' := ThenLease(h, run', st.(lease := landed), RenewApplied(1), renewed);
    st' := st.(lease := renewed);
  }

  /** H1: with clocks one tick apart, a takeover and a renewal leave both serving long after. */
  lemma ClocksNeeded() returns (run: Run)
    ensures BenignExcept(Clocks, run) && EndsWithTwoServers(run, 1, 2)
    ensures StateAt(1, run, |run|).lease.now == 15
  {
    var st;
    run, st := Open(Clocks, 9);
    run := Inspect(Clocks, run, st, Seat(2, ROOM));
    run := Seize(Clocks, run, st, st.own, Seat(2, ROOM), Some(Lease(1, 0, 10)), 10);
    run, st := RenewFirst(Clocks, run, st.(own := Served(st.lease, st.own, Seat(2, ROOM))));
    run := Wait(Clocks, run, st, 6);
    assert Serves(Later(st, 6), 1, ROOM) && Serves(Later(st, 6), 2, ROOM);
  }

  /** A renewal of session 1 is still in the network when its lease runs out. */
  lemma LapseDuringRenewal() returns (run: Run, st: State)
    ensures Reaches(Prompt, run, st) && st.lease.now == 10 && |st.lease.ops| == 3 && st.lease.landed == {0, 1}
    ensures st.lease.ops[2] == Put(1, "n1", IfMatch(Lease(1, 0, 10)), Lease(1, 1, 15))
    ensures st.lease.stored == map["n1" := Lease(1, 0, 10), "n2" := Lease(2, 0, 100)]
    ensures st.lease.sessions == map[
              1 := StartedSession("n1", 1, 0, 10).(generation := 1, renewal := Awaiting(2, 5)),
              2 := StartedSession("n2", 2, 0, 100)]
    ensures OpeningOwners(st.own)
  {
    run, st := Open(Prompt, 5);
    var sent := RenewalSent(st.lease, 1);
    run := ThenLease(Prompt, run, st, RenewStart(1, 5), sent);
    run := Wait(Prompt, run, st.(lease := sent), 5);
    st := Later(st.(lease := sent), 5);
  }

  /** The renewal sent before the lapse lands and is acted on late, while session 2 already serves. */
  lemma ReviveFirst(run: Run, st: State) returns (run': Run)
    requires Reaches(Prompt, run, st) && st.lease.now == 10 && |st.lease.ops| == 3 && st.lease.landed == {0, 1}
    requires st.lease.ops[2] == Put(1, "n1", IfMatch(Lease(1, 0, 10)), Lease(1, 1, 15))
    requires st.lease.stored == map["n1" := Lease(1, 0, 10), "n2" := Lease(2, 0, 100)]
    requires st.lease.sessions == map[
               1 := StartedSession("n1", 1, 0, 10).(generation := 1, renewal := Awaiting(2, 5)),
               2 := StartedSession("n2", 2, 0, 100)]
    requires Seat(1, ROOM) in st.own.routes && st.own.routes[Seat(1, ROOM)].Active?
    requires Seat(2, ROOM) in st.own.routes && st.own.routes[Seat(2, ROOM)].Active?
    ensures BenignExcept(Prompt, run') && EndsWithTwoServers(run', 1, 2)
  {
    var landed := Land(st.lease, 2);
    run' := ThenLease(Prompt, run, st, LandLease(2), landed);
    var renewed := LeaseNext(1, landed, RenewApplied(1));
    run' := ThenLease(Prompt, run', st.(lease := landed), RenewApplied(1), renewed);
    assert Serves(st.(lease := renewed), 1, ROOM) && Serves(st.(lease := renewed), 2, ROOM);
  }

  /** H2: a renewal that lands after a takeover and is acted on late revives a lapsed session. */
  lemma PromptNeeded() returns (run: Run)
    ensures BenignExcept(Prompt, run) && EndsWithTwoServers(run, 1, 2)
  {
    var st;
    run, st := LapseDuringRenewal();
    run := Inspect(Prompt, run, st, Seat(2, ROOM));
    run := Seize(Prompt, run, st, st.own, Seat(2, ROOM), Some(Lease(1, 0, 10)), 10);
    st := st.(own := Served(st.lease, st.own, Seat(2, ROOM)));
    run := ReviveFirst(run, st);
  }

  /** H3: an expiry test on an object fetched before a renewal condemns a valid session. */
  lemma AsServedNeeded() returns (run: Run)
    ensures BenignExcept(AsServed, run) && EndsWithTwoServers(run, 1, 2)
  {
    var st;
    var seat := Seat(2, ROOM);
    run, st := Open(AsServed, 9);
    var os := st.own;
    run := Inspect(AsServed, run, st, seat);
    run, st := RenewFirst(AsServed, run, st.(own := Inspecting(os, seat, Some(Lease(1, 0, 10)))));
    run := Wait(AsServed, run, st, 1);
    st := Later(st, 1);
    run := Seize(AsServed, run, st, os, seat, Some(Lease(1, 0, 10)), 10);
    st := st.(own := Served(st.lease, os, seat));
    assert Serves(st, 1, ROOM) && Serves(st, 2, ROOM);
  }

  /** The sessions at session 1 of the opening end, and it passivates until its release has been sent. */
  lemma SendRelease(h: Hypothesis, run: Run, st: State) returns (run': Run, os: OwnerState)
    requires Reaches(h, run, st) && OpeningLeases(st.lease) && OpeningOwners(st.own)
    ensures run <= run'
    ensures Reaches(h, run', st.(own := os)) && os.owners == st.own.owners && os.landed == st.own.landed
    ensures os.ops == st.own.ops + [OwnerOp(Seat(1, ROOM), IfMatch(LocalClaim("n1", 1, 1)), Unowned(1))]
    ensures os.calls == map[Seat(1, ROOM) := AwaitingRelease(1, LocalClaim("n1", 1, 1))]
    ensures os.routes == map[Seat(1, ROOM) := Deactivating] && os.live == {}
  {
    var seat := Seat(1, ROOM);
    var ended := st.own.(live := {});
    run' := ThenQuiet(h, run, st, EndSessions(seat), ended);
    os := ended.(routes := map[seat := Deactivating]);
    run' := ThenQuiet(h, run', st.(own := ended), BeginDeactivation(seat), os);
    run' := ThenQuiet(h, run', st.(own := os), BeginRelease(seat), SetCall(os, seat, ReadingForRelease));
    os := SetCall(os, seat, ReadingForRelease);
    var sent := AfterReadForRelease(st.lease, os, seat);
    run' := ThenQuiet(h, run', st.(own := os), ReadForRelease(seat), sent);
    os := sent;
  }

  /** Session 1 gives its release up, forgets the route, and serves the room again. */
  lemma ServeAfterGivingUp(h: Hypothesis, run: Run, st: State, os: OwnerState) returns (run': Run)
    requires Reaches(h, run, st.(own := os)) && OpeningLeases(st.lease) && st.lease.now < 10
    requires os.owners == map[ROOM := LocalClaim("n1", 1, 1)]
    requires os.calls == map[Seat(1, ROOM) := AwaitingRelease(1, LocalClaim("n1", 1, 1))]
    requires os.routes == map[Seat(1, ROOM) := Deactivating] && os.live == {}
    ensures Reaches(h, run', st.(own := os.(
              calls := map[], routes := map[Seat(1, ROOM) := Active], live := {Seat(1, ROOM)})))
  {
    var seat := Seat(1, ROOM);
    var alone := os.(calls := map[]);
    run' := ThenQuiet(h, run, st.(own := os), AbandonCall(seat), alone);
    var idle := alone.(routes := map[]);
    run' := ThenQuiet(h, run', st.(own := alone), FinishDeactivation(seat), idle);
    run' := Ask(h, run', st.(own := idle), seat);
    var local := idle.(calls := map[seat := Local]);
    assert Asked(st.lease, idle, seat) == local;
    var serving := alone.(routes := map[seat := Active], live := {seat});
    run' := ThenQuiet(h, run', st.(own := local), Dispatch(seat), serving);
  }

  /** The abandoned release lands under the route of session 1, and session 2 claims the room. */
  lemma ServeAfterLateRelease(run: Run, st: State, os: OwnerState) returns (run': Run)
    requires Reaches(Awaited, run, st.(own := os)) && OpeningLeases(st.lease) && st.lease.now == 0
    requires os.owners == map[ROOM := LocalClaim("n1", 1, 1)] && |os.ops| == 2 && os.landed == {0}
    requires os.ops[1] == OwnerOp(Seat(1, ROOM), IfMatch(LocalClaim("n1", 1, 1)), Unowned(1))
    requires os.calls == map[] && os.routes == map[Seat(1, ROOM) := Active]
    ensures BenignExcept(Awaited, run') && EndsWithTwoServers(run', 1, 2)
  {
    var cleared := os.(owners := map[ROOM := Unowned(1)], landed := {0, 1});
    run' := ThenOwner(Awaited, run, st.(own := os), LandOwner(1), cleared);
    run' := ServeUnowned(Awaited, run', st.(own := cleared), Seat(2, ROOM));
    var final := st.(own := Served(st.lease, cleared, Seat(2, ROOM)));
    assert Serves(final, 1, ROOM) && Serves(final, 2, ROOM);
  }

  /** H4: a release given up on and landing later unseats the session that sent it. */
  lemma AwaitedNeeded() returns (run: Run)
    ensures BenignExcept(Awaited, run) && EndsWithTwoServers(run, 1, 2)
  {
    var st;
    var os := InitialOwners();
    run, st := Open(Awaited, 0);
    run, os := SendRelease(Awaited, run, st);
    run := ServeAfterGivingUp(Awaited, run, st, os);
    os := os.(calls := map[], routes := map[Seat(1, ROOM) := Active], live := {Seat(1, ROOM)});
    run := ServeAfterLateRelease(run, st, os);
  }

  /** Session 1 completes its release and forgets the route. */
  lemma CompleteRelease(h: Hypothesis, run: Run, st: State, os: OwnerState) returns (run': Run)
    requires Reaches(h, run, st.(own := os)) && OpeningLeases(st.lease)
    requires os.owners == map[ROOM := LocalClaim("n1", 1, 1)] && |os.ops| == 2 && os.landed == {0}
    requires os.ops[1] == OwnerOp(Seat(1, ROOM), IfMatch(LocalClaim("n1", 1, 1)), Unowned(1))
    requires os.calls == map[Seat(1, ROOM) := AwaitingRelease(1, LocalClaim("n1", 1, 1))]
    requires os.routes == map[Seat(1, ROOM) := Deactivating]
    ensures run <= run'
    ensures Reaches(h, run', st.(own := os.(
              owners := map[ROOM := Unowned(1)], landed := {0, 1}, calls := map[], routes := map[])))
  {
    var seat := Seat(1, ROOM);
    var landed := os.(owners := map[ROOM := Unowned(1)], landed := {0, 1});
    run' := ThenOwner(h, run, st.(own := os), LandOwner(1), landed);
    run' := ForgetReleased(h, run', st, landed);
  }

  lemma ForgetReleased(h: Hypothesis, run: Run, st: State, os: OwnerState) returns (run': Run)
    requires Reaches(h, run, st.(own := os)) && OpeningLeases(st.lease)
    requires os.calls == map[Seat(1, ROOM) := AwaitingRelease(1, LocalClaim("n1", 1, 1))] && Applied(os, 1)
    requires os.routes == map[Seat(1, ROOM) := Deactivating]
    ensures run <= run'
    ensures Reaches(h, run', st.(own := os.(calls := map[], routes := map[])))
  {
    var seat := Seat(1, ROOM);
    var done := os.(calls := map[]);
    run' := ThenQuiet(h, run, st.(own := os), ReleaseApplied(seat), done);
    run' := ThenQuiet(h, run', st.(own := done), FinishDeactivation(seat), done.(routes := map[]));
  }

  /** Session 1 lapses; session 3 restarts its node and takes the room over. */
  lemma RestartAndServe(h: Hypothesis) returns (run: Run, st: State)
    ensures Reaches(h, run, st) && st.lease.now == 10
    ensures st.lease.sessions == map[1 := StartedSession("n1", 1, 0, 10), 2 := StartedSession("n2", 2, 0, 100),
                                     3 := StartedSession("n1", 3, 10, 50)]
    ensures "n1" in st.lease.stored && st.lease.stored["n1"] == Lease(3, 0, 60)
    ensures st.own.owners == map[ROOM := LocalClaim("n1", 3, 2)] && |st.own.ops| == 2 && st.own.landed == {0, 1}
    ensures st.own.calls == map[] && st.own.routes == map[Seat(1, ROOM) := Active, Seat(3, ROOM) := Active]
  {
    run, st := Open(h, 10);
    run := StartServer(h, run, st, 3, "n1", 50);
    st := WithServer(st, 3, "n1", 50);
    run := TakeNodeOver(h, run, st);
    st := st.(own := Served(st.lease, st.own, Seat(3, ROOM)));
  }

  /** Session 3 takes over the room recorded for session 1 of its own node. */
  lemma TakeNodeOver(h: Hypothesis, run: Run, st: State) returns (run': Run)
    requires Reaches(h, run, st) && OpeningOwners(st.own)
    requires Admits(st.lease, 3) && Holds(st.lease, 3) && st.lease.sessions[3].node == "n1"
    ensures Reaches(h, run', st.(own := Served(st.lease, st.own, Seat(3, ROOM))))
  {
    var os, seat := st.own, Seat(3, ROOM);
    run' := Ask(h, run, st, seat);
    assert Asked(st.lease, os, seat) == SendClaim(st.lease, os, seat, Lookup(os.owners, ROOM), AwaitingTakeover(1));
    run' := Settle(h, run', st, os, seat, AwaitingTakeover(1));
  }

  /** Session 3 serves the room after session 1 of the same node; session 2 could serve it too. */
  predicate Restarted(st: State, expires: nat) {
    && {1, 2, 3} <= st.lease.sessions.Keys && Admits(st.lease, 2) && Admits(st.lease, 3) && !Holds(st.lease, 1)
    && st.lease.sessions[1].node == "n1" && st.lease.sessions[2].node == "n2" && st.lease.sessions[3].node == "n1"
    && "n1" in st.lease.stored && st.lease.stored["n1"] == Lease(3, 0, expires)
    && st.own.owners == map[ROOM := LocalClaim("n1", 3, 2)] && |st.own.ops| == 2 && st.own.landed == {0, 1}
    && st.own.calls == map[] && st.own.routes == map[Seat(1, ROOM) := Active, Seat(3, ROOM) := Active]
  }

  /** Session 1 claims its node's record although session 3 owns it. */
  lemma ClaimOverRestarted(h: Hypothesis, run: Run, st: State, expires: nat) returns (run': Run, os: OwnerState)
    requires Reaches(h, run, st) && Restarted(st, expires)
    requires h.Authorized? || (h.Unreleased? && IsValid(st.lease, 1))
    ensures Reaches(h, run', st.(own := os)) && os.owners == map[ROOM := LocalClaim("n1", 1, 3)]
    ensures |os.ops| == 3 && os.landed == {0, 1, 2} && os.calls.Keys == {Seat(1, ROOM)} && os.routes == st.own.routes
  {
    run' := Ask(h, run, st, Seat(1, ROOM));
    var asked := Asked(st.lease, st.own, Seat(1, ROOM));
    os := AfterLanding(asked, 2);
    run' := ThenOwner(h, run', st.(own := asked), LandOwner(2), os);
  }

  /** That hides session 3 from the takeover check of session 2. */
  lemma ClaimUnauthorized(h: Hypothesis, run: Run, st: State, expires: nat) returns (run': Run)
    requires Reaches(h, run, st) && Restarted(st, expires)
    requires h.Authorized? || (h.Unreleased? && IsValid(st.lease, 1))
    ensures BenignExcept(h, run') && EndsWithTwoServers(run', 3, 2)
  {
    var os;
    run', os := ClaimOverRestarted(h, run, st, expires);
    run' := Inspect(h, run', st.(own := os), Seat(2, ROOM));
    run' := Seize(h, run', st, os, Seat(2, ROOM), Some(Lease(3, 0, expires)), st.lease.now);
    var final := st.(own := Served(st.lease, os, Seat(2, ROOM)));
    assert Serves(final, 3, ROOM) && Serves(final, 2, ROOM);
  }

  /** H5: a lapsed session that claims its node's records hides the valid one from takeover checks. */
  lemma AuthorizedNeeded() returns (run: Run)
    ensures BenignExcept(Authorized, run) && EndsWithTwoServers(run, 3, 2)
  {
    var st;
    run, st := RestartAndServe(Authorized);
    run := ClaimUnauthorized(Authorized, run, st, 60);
  }

  /** Session 1 of the opening after a graceful shutdown that released its lease. */
  function LeftSession(): NodeSession {
    StartedSession("n1", 1, 0, 10).(status := Stopped, renewal := Exited, released := true)
  }

  /** Session 1 shuts down and releases its lease; the release reaches the store at once. */
  lemma ShutDownFirst(h: Hypothesis, run: Run, st: State) returns (run': Run, ls: LeaseState)
    requires Reaches(h, run, st) && OpeningLeases(st.lease) && st.lease.now == 0
    ensures Reaches(h, run', st.(lease := ls)) && ls.now == 0 && |ls.ops| == 3 && ls.landed == {0, 1, 2}
    ensures ls.starts == st.lease.starts && ls.stored == map["n2" := Lease(2, 0, 100)]
    ensures ls.sessions == map[1 := LeftSession(), 2 := StartedSession("n2", 2, 0, 100)]
  {
    var stopped := SetSession(st.lease, 1, StartedSession("n1", 1, 0, 10).(status := Stopped));
    run' := StopFirst(h, run, st);
    var released := SetSession(stopped, 1, LeftSession()).(
                      ops := stopped.ops + [Delete(1, "n1", Lease(1, 0, 10))]);
    run' := ThenLease(h, run', st.(lease := stopped), ReleaseLease(1), released);
    ls := released.(stored := map["n2" := Lease(2, 0, 100)], landed := {0, 1, 2});
    run' := ThenLease(h, run', st.(lease := released), LandLease(2), ls);
  }

  lemma StopFirst(h: Hypothesis, run: Run, st: State) returns (run': Run)
    requires Reaches(h, run, st) && OpeningLeases(st.lease)
    ensures Reaches(h, run', st.(lease := SetSession(st.lease, 1, StartedSession("n1", 1, 0, 10).(status := Stopped))))
  {
    var stopping := SetSession(st.lease, 1, StartedSession("n1", 1, 0, 10).(status := ShuttingDown));
    run' := ThenLease(h, run, st, BeginShutdown(1), stopping);
    var stopped := SetSession(st.lease, 1, StartedSession("n1", 1, 0, 10).(status := Stopped));
    assert SetSession(stopping, 1, StartedSession("n1", 1, 0, 10).(status := Stopped)) == stopped;
    run' := ThenLease(h, run', st.(lease := stopping), FinishShutdown(1), stopped);
  }

  /** Session 3 restarts the node that session 1 left, and takes the room over. */
  lemma RestartAfterShutdown() returns (run: Run, st: State)
    ensures Reaches(Unreleased, run, st) && Restarted(st, 50) && IsValid(st.lease, 1)
  {
    var ls;
    run, st := Open(Unreleased, 0);
    run, ls := ShutDownFirst(Unreleased, run, st);
    st := st.(lease := ls);
    run := StartServer(Unreleased, run, st, 3, "n1", 50);
    st := WithServer(st, 3, "n1", 50);
    run := TakeNodeOver(Unreleased, run, st);
    st := st.(own := Served(st.lease, st.own, Seat(3, ROOM)));
  }

  /**
   H5 must speak of released sessions too: a session that has shut down gracefully and
   released its lease, with its deadline still ahead, does the same harm.
   */
  lemma UnreleasedNeeded() returns (run: Run)
    ensures BenignExcept(Unreleased, run) && EndsWithTwoServers(run, 3, 2)
  {
    var st;
    run, st := RestartAfterShutdown();
    run := ClaimUnauthorized(Unreleased, run, st, 50);
  }
}
