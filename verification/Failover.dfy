/**
 Availability failover: an owner that stops renewing is judged expired no later than its
 ttl and the skew after its last write, and a server that then resolves an address of its
 undisturbed takes it over and serves it, also when the answer to its claim is lost.
 */
module Failover {
  import opened Coordination
  import opened NodeLease
  import opened NodeLeaseProofs
  import opened ActorOwnership
  import opened Cluster
  import opened OwnershipOutcomes

  // When a stored lease expires.

  /** The step writes a lease of session `s`. */
  predicate WritesLease(ev: LeaseEvent, s: SessionId) {
    (ev.AcquirePut? || ev.RenewStart?) && ev.s == s
  }

  /** A session's ttl is the one its start was given. */
  ghost predicate TtlInv(ls: LeaseState) {
    forall s :: s in ls.sessions ==> s in ls.starts && ls.sessions[s].ttl == ls.starts[s].ttl
  }

  lemma StepKeepsTtl(g: TicksPerMs, ls: LeaseState, ev: LeaseEvent, s: SessionId)
    requires LeaseEnabled(ls, ev)
    requires s in ls.sessions ==> s in ls.starts && ls.sessions[s].ttl == ls.starts[s].ttl
    ensures var ls' := LeaseNext(g, ls, ev);
            && (s in ls'.sessions ==> s in ls'.starts && ls'.sessions[s].ttl == ls'.starts[s].ttl)
            && (s in ls.starts ==> s in ls'.starts && ls'.starts[s].ttl == ls.starts[s].ttl)
  {
    if s in ls.starts {
      StartsStay(g, ls, ev, s);
    }
    if s in ls.sessions && s in LeaseNext(g, ls, ev).sessions && !Starts(ev) {
      SessionKeepsTtl(g, ls, ev, s);
    }
  }

  predicate Starts(ev: LeaseEvent) {
    ev.AcquireApplied? || ev.AcquireConfirm?
  }

  lemma SessionKeepsTtl(g: TicksPerMs, ls: LeaseState, ev: LeaseEvent, s: SessionId)
    requires LeaseEnabled(ls, ev) && s in ls.sessions && !Starts(ev)
    ensures s in LeaseNext(g, ls, ev).sessions && LeaseNext(g, ls, ev).sessions[s].ttl == ls.sessions[s].ttl
  {
  }

  lemma {:induction false} TtlInvAlways(g: TicksPerMs, run: Run, i: nat)
    requires i <= |run|
    ensures TtlInv(StateAt(g, run, i).lease)
  {
    if i > 0 {
      TtlInvAlways(g, run, i - 1);
      var before := StateAt(g, run, i - 1);
      if run[i - 1].OnLease? && LeaseEnabled(before.lease, run[i - 1].le) {
        forall s | s in StateAt(g, run, i).lease.sessions
          ensures var ls := StateAt(g, run, i).lease; s in ls.starts && ls.sessions[s].ttl == ls.starts[s].ttl
        {
          StepKeepsTtl(g, before.lease, run[i - 1].le, s);
        }
      }
    }
  }

  /** In ticks, a written expiry is the reading of the clock plus the ttl, each rounded down to milliseconds. */
  lemma ExpiryBounded(g: TicksPerMs, skew: nat, now: nat, wall: nat, ttl: nat)
    requires wall <= (now + skew) / g
    ensures Expiry(g, wall, ttl) * g <= now + skew + ttl
  {
    var ticks := now + skew;
    assert ticks == ticks / g * g + ticks % g && ttl == ttl / g * g + ttl % g;
    assert wall * g <= ticks / g * g;
    assert (wall + ttl / g) * g == wall * g + ttl / g * g;
  }

  /** The lease expires within its ttl and the skew of this instant. */
  predicate ExpiresWithin(g: TicksPerMs, skew: nat, now: nat, lease: Lease, ttl: nat) {
    lease.expires * g <= now + skew + ttl
  }

  /** A put that is sent expires within its session's ttl and the skew. */
  lemma SentPutExpires(g: TicksPerMs, skew: nat, ls: LeaseState, ev: LeaseEvent)
    requires LeaseEnabled(ls, ev) && LeaseClockOk(g, skew, ls, ev) && TtlInv(ls)
    requires |LeaseNext(g, ls, ev).ops| > |ls.ops| && LeaseNext(g, ls, ev).ops[|ls.ops|].Put?
    ensures var op := LeaseNext(g, ls, ev).ops[|ls.ops|];
            && WritesLease(ev, op.session) && op.session in ls.starts && op.lease.session == op.session
            && ExpiresWithin(g, skew, ls.now, op.lease, ls.starts[op.session].ttl)
  {
    if ev.AcquirePut? {
      ExpiryBounded(g, skew, ls.now, ev.wallPut, ls.starts[ev.s].ttl);
    } else if ev.RenewStart? {
      ExpiryBounded(g, skew, ls.now, ev.wall, ls.sessions[ev.s].ttl);
    }
  }

  /** Step `i` of the run sent the put that is write `id`, with this session's ttl. */
  predicate SentAt(g: TicksPerMs, skew: nat, run: Run, j: nat, id: nat, i: nat)
    requires j <= |run|
  {
    && i < j && run[i].OnLease?
    && var ls := StateAt(g, run, j).lease;
       && id < |ls.ops| && ls.ops[id].Put? && WritesLease(run[i].le, ls.ops[id].session)
       && ls.ops[id].lease.session == ls.ops[id].session && ls.ops[id].session in ls.starts
       && ExpiresWithin(g, skew, StateAt(g, run, i).lease.now, ls.ops[id].lease, ls.starts[ls.ops[id].session].ttl)
  }

  lemma {:induction false} PutWasSent(g: TicksPerMs, skew: nat, run: Run, j: nat, id: nat) returns (i: nat)
    requires ClocksWithin(g, skew, run) && j <= |run|
    requires id < |StateAt(g, run, j).lease.ops| && StateAt(g, run, j).lease.ops[id].Put?
    ensures SentAt(g, skew, run, j, id, i)
    decreases j
  {
    var before, ev := StateAt(g, run, j - 1), run[j - 1];
    assert ClockAt(g, skew, before, ev);
    if ev.OnLease? && LeaseEnabled(before.lease, ev.le) {
      OpsOnlyGrow(g, before.lease, ev.le);
      if id < |before.lease.ops| {
        i := PutWasSent(g, skew, run, j - 1, id);
        StartsStay(g, before.lease, ev.le, before.lease.ops[id].session);
      } else {
        TtlInvAlways(g, run, j - 1);
        SentPutExpires(g, skew, before.lease, ev.le);
        StartsStay(g, before.lease, ev.le, StateAt(g, run, j).lease.ops[id].session);
        i := j - 1;
      }
    } else {
      i := PutWasSent(g, skew, run, j - 1, id);
    }
  }

  lemma StartsStay(g: TicksPerMs, ls: LeaseState, ev: LeaseEvent, s: SessionId)
    requires LeaseEnabled(ls, ev) && s in ls.starts
    ensures s in LeaseNext(g, ls, ev).starts && LeaseNext(g, ls, ev).starts[s].ttl == ls.starts[s].ttl
  {
  }

  /**
   Every stored lease was sent by its session at some earlier instant, and expires no later
   than that session's ttl and the skew after it.
   */
  lemma StoredExpires(g: TicksPerMs, skew: nat, run: Run, j: nat, node: NodeId) returns (i: nat)
    requires ClocksWithin(g, skew, run) && j <= |run| && node in StateAt(g, run, j).lease.stored
    ensures i < j && run[i].OnLease?
    ensures var ls := StateAt(g, run, j).lease;
            var lease := ls.stored[node];
            && WritesLease(run[i].le, lease.session) && lease.session in ls.starts
            && ExpiresWithin(g, skew, StateAt(g, run, i).lease.now, lease, ls.starts[lease.session].ttl)
  {
    LeaseInvAlways(g, skew, run, j);
    var ls := StateAt(g, run, j).lease;
    assert Written(ls, node);
    var id: nat :| WrittenBy(ls, node, id);
    i := PutWasSent(g, skew, run, j, id);
  }

  lemma {:induction false} TimePasses(g: TicksPerMs, run: Run, i: nat, j: nat)
    requires i <= j <= |run|
    ensures StateAt(g, run, i).lease.now <= StateAt(g, run, j).lease.now
    decreases j
  {
    if i < j {
      TimePasses(g, run, i, j - 1);
      var before, ev := StateAt(g, run, j - 1), run[j - 1];
      if ev.OnLease? && LeaseEnabled(before.lease, ev.le) {
        OpsOnlyGrow(g, before.lease, ev.le);
      }
    }
  }

  /** Session `s` writes no lease between these instants. */
  ghost predicate Silent(run: Run, s: SessionId, i: nat, j: nat)
    requires i <= j <= |run|
  {
    forall k {:trigger run[k]} :: i <= k < j && run[k].OnLease? ==> !WritesLease(run[k].le, s)
  }

  /**
   An owner that has been silent for its ttl and the skew is judged expired by every reader:
   failover is never delayed beyond that, whatever writes of it are still in the network.
   */
  lemma SilentOwnerExpires(g: TicksPerMs, skew: nat, run: Run, i: nat, j: nat, node: NodeId, wall: nat)
    requires ClocksWithin(g, skew, run) && i <= j <= |run| && node in StateAt(g, run, j).lease.stored
    requires var ls := StateAt(g, run, j).lease;
             var s := ls.stored[node].session;
             && Silent(run, s, i, j) && Reads(g, skew, ls, wall)
             && (s in ls.starts ==> StateAt(g, run, i).lease.now + ls.starts[s].ttl + skew <= ls.now)
    ensures !Unexpired(StateAt(g, run, j).lease.stored[node], wall)
  {
    var sent := StoredExpires(g, skew, run, j, node);
    TimePasses(g, run, sent, i);
    var ls := StateAt(g, run, j).lease;
    ExpiredForAll(g, ls.stored[node].expires, ls.now, wall);
  }

  lemma ExpiredForAll(g: TicksPerMs, expires: nat, now: nat, wall: nat)
    requires expires * g <= now && now / g <= wall
    ensures expires <= wall
  {
    var ms := now / g;
    assert now == ms * g + now % g;
    assert now < (ms + 1) * g;
    LessByFactor(expires, ms + 1, g);
  }

  lemma LessByFactor(a: nat, b: nat, g: TicksPerMs)
    requires a * g < b * g
    ensures a < b
  {
    assert (b - a) * g == b * g - a * g;
  }

  // Taking over.

  function StepAll(g: TicksPerMs, st: State, evs: seq<OwnerEvent>): State
    decreases |evs|
  {
    if evs == [] then st else StepAll(g, Step(g, st, OnOwner(evs[0])), evs[1..])
  }

  /**
   The steps after a claim was sent as write `op`: it lands, its answer arrives or is lost
   and read back, and dispatch.
   */
  function Settling(seat: Seat, op: nat, lost: bool): seq<OwnerEvent> {
    if lost then [LandOwner(op), ClaimIndeterminate(seat), ClaimReadBack(seat), Dispatch(seat)]
    else [LandOwner(op), ClaimApplied(seat), Dispatch(seat)]
  }

  /** A server may serve this address: it admits, and has no call and no route for it. */
  predicate Ready(st: State, seat: Seat) {
    && Admits(st.lease, seat.s) && seat !in st.own.calls && seat !in st.own.routes
    && |st.own.ops| !in st.own.landed
  }

  /** The server serves the address and is its recorded Owner at this epoch. */
  predicate ServesAt(st: State, seat: Seat, epoch: nat) {
    && Serves(st, seat.s, seat.a) && seat.a in st.own.owners
    && st.own.owners[seat.a] == OwnerRecord(Some(Owner(st.lease.sessions[seat.s].node, seat.s)), epoch)
  }

  /** The claim has landed: the record is as claimed, and the call waits for the answer. */
  predicate Landed(st: State, seat: Seat, epoch: nat, call: Call) {
    && Admits(st.lease, seat.s) && seat !in st.own.routes && seat in st.own.calls && st.own.calls[seat] == call
    && (call.AwaitingClaim? || call.AwaitingTakeover?) && call.op in st.own.landed && call.op < |st.own.ops|
    && seat.a in st.own.owners && st.own.owners[seat.a] == st.own.ops[call.op].record
    && st.own.owners[seat.a] == OwnerRecord(Some(Owner(st.lease.sessions[seat.s].node, seat.s)), epoch)
  }

  lemma AppliedServes(g: TicksPerMs, st: State, seat: Seat, epoch: nat, call: Call)
    requires Landed(st, seat, epoch, call)
    ensures ServesAt(StepAll(g, st, [ClaimApplied(seat), Dispatch(seat)]), seat, epoch)
  {
    ClaimAnswerOutcome(st.lease, st.own, seat);
    var local := Step(g, st, OnOwner(ClaimApplied(seat)));
    DispatchOutcome(st.lease, local.own, seat);
    Cons(g, st, ClaimApplied(seat), [Dispatch(seat)]);
    Single(g, local, Dispatch(seat));
  }

  lemma ReadBackServes(g: TicksPerMs, st: State, seat: Seat, epoch: nat, call: Call)
    requires Landed(st, seat, epoch, call)
    ensures ServesAt(StepAll(g, st, [ClaimIndeterminate(seat), ClaimReadBack(seat), Dispatch(seat)]), seat, epoch)
  {
    ClaimAnswerOutcome(st.lease, st.own, seat);
    var confirming := Step(g, st, OnOwner(ClaimIndeterminate(seat)));
    ReadBackOutcome(st.lease, confirming.own, seat);
    var local := Step(g, confirming, OnOwner(ClaimReadBack(seat)));
    DispatchOutcome(st.lease, local.own, seat);
    Cons(g, st, ClaimIndeterminate(seat), [ClaimReadBack(seat), Dispatch(seat)]);
    Cons(g, confirming, ClaimReadBack(seat), [Dispatch(seat)]);
    Single(g, local, Dispatch(seat));
  }

  /**
   A claim that has been sent under a condition that holds settles into serving, whether or
   not its answer is lost.
   */
  lemma SentClaimServes(
    g: TicksPerMs, st: State, before: OwnerState, seat: Seat, condition: Condition<OwnerRecord>, epoch: nat, call: Call,
    lost: bool)
    requires Admits(st.lease, seat.s) && seat !in before.routes && |before.ops| !in before.landed
    requires Claims(st.lease, before, st.own, seat, condition, epoch, call)
    requires (call.AwaitingClaim? || call.AwaitingTakeover?) && call.op == |before.ops|
    requires if condition == IfAbsent then seat.a !in before.owners
             else seat.a in before.owners && before.owners[seat.a] == condition.revision
    ensures ServesAt(StepAll(g, st, Settling(seat, |before.ops|, lost)), seat, epoch)
  {
    var id := |before.ops|;
    LandingOutcome(st.lease, st.own, id);
    var landed := Step(g, st, OnOwner(LandOwner(id)));
    if lost {
      ReadBackServes(g, landed, seat, epoch, call);
      Cons(g, st, LandOwner(id), [ClaimIndeterminate(seat), ClaimReadBack(seat), Dispatch(seat)]);
    } else {
      AppliedServes(g, landed, seat, epoch, call);
      Cons(g, st, LandOwner(id), [ClaimApplied(seat), Dispatch(seat)]);
    }
  }

  lemma Cons(g: TicksPerMs, st: State, ev: OwnerEvent, rest: seq<OwnerEvent>)
    ensures StepAll(g, st, [ev] + rest) == StepAll(g, Step(g, st, OnOwner(ev)), rest)
  {
    assert ([ev] + rest)[1..] == rest;
  }

  lemma Single(g: TicksPerMs, st: State, ev: OwnerEvent)
    ensures StepAll(g, st, [ev]) == Step(g, st, OnOwner(ev))
  {
    Cons(g, st, ev, []);
    assert [ev] + [] == [ev];
  }

  lemma {:induction false} StepAllConcat(g: TicksPerMs, st: State, first: seq<OwnerEvent>, rest: seq<OwnerEvent>)
    ensures StepAll(g, st, first + rest) == StepAll(g, StepAll(g, st, first), rest)
    decreases |first|
  {
    if first == [] {
      assert first + rest == rest;
    } else {
      assert (first + rest)[1..] == first[1..] + rest;
      StepAllConcat(g, Step(g, st, OnOwner(first[0])), first[1..], rest);
    }
  }

  /**
   An address that nobody owns, or whose record another session of the same node left
   behind, is claimed and served.
   */
  lemma FreeAddressIsServed(g: TicksPerMs, st: State, seat: Seat, lost: bool)
    requires Ready(st, seat)
    requires seat.a in st.own.owners ==>
               var owner := st.own.owners[seat.a].owner;
               owner == None || (owner.value.node == st.lease.sessions[seat.s].node && owner.value.session != seat.s)
    ensures var epoch := if seat.a in st.own.owners then After(st.own.owners[seat.a].epoch) else 1;
            ServesAt(StepAll(g, st, [Resolve(seat), ReadOwner(seat)] + Settling(seat, |st.own.ops|, lost)), seat, epoch)
  {
    RouteOutcome(st.lease, st.own, Resolve(seat));
    var asking := Step(g, st, OnOwner(Resolve(seat)));
    OwnerReadOutcome(st.lease, asking.own, seat);
    var sent := Step(g, asking, OnOwner(ReadOwner(seat)));
    var call := sent.own.calls[seat];
    var condition := if seat.a in st.own.owners then IfMatch(st.own.owners[seat.a]) else IfAbsent;
    var epoch := if seat.a in st.own.owners then After(st.own.owners[seat.a].epoch) else 1;
    SentClaimServes(g, sent, asking.own, seat, condition, epoch, call, lost);
    Cons(g, st, Resolve(seat), [ReadOwner(seat)]);
    Single(g, asking, ReadOwner(seat));
    assert [Resolve(seat)] + [ReadOwner(seat)] == [Resolve(seat), ReadOwner(seat)];
    StepAllConcat(g, st, [Resolve(seat), ReadOwner(seat)], Settling(seat, |st.own.ops|, lost));
  }

  function Inspection(seat: Seat, wall: nat): seq<OwnerEvent> {
    [Resolve(seat), ReadOwner(seat), FetchNode(seat), JudgeNode(seat, wall)]
  }

  /** The lease of the recorded owner's node is absent, expired, or another session's. */
  predicate OwnerGone(ls: LeaseState, owner: Owner, wall: nat) {
    owner.node in ls.stored ==> ls.stored[owner.node].expires <= wall || ls.stored[owner.node].session != owner.session
  }

  lemma InspectionClaims(g: TicksPerMs, st: State, seat: Seat, wall: nat)
    requires Ready(st, seat) && seat.a in st.own.owners && st.own.owners[seat.a].owner.Some?
    requires st.own.owners[seat.a].owner.value.node != st.lease.sessions[seat.s].node
    requires OwnerGone(st.lease, st.own.owners[seat.a].owner.value, wall)
    ensures var sent := StepAll(g, st, Inspection(seat, wall));
            var record := st.own.owners[seat.a];
            && sent.lease == st.lease
            && Claims(st.lease, st.own, sent.own, seat, IfMatch(record), After(record.epoch),
                      AwaitingClaim(0, |st.own.ops|))
  {
    RouteOutcome(st.lease, st.own, Resolve(seat));
    var asking := Step(g, st, OnOwner(Resolve(seat)));
    OwnerReadOutcome(st.lease, asking.own, seat);
    var reading := Step(g, asking, OnOwner(ReadOwner(seat)));
    FetchOutcome(st.lease, reading.own, seat);
    var fetched := Step(g, reading, OnOwner(FetchNode(seat)));
    JudgingOutcome(st.lease, fetched.own, seat, wall);
    var sent := Step(g, fetched, OnOwner(JudgeNode(seat, wall)));
    var waiting := AwaitingClaim(0, |st.own.ops|);
    assert fetched.own.calls[seat := waiting] == st.own.calls[seat := waiting];
    Cons(g, st, Resolve(seat), [ReadOwner(seat), FetchNode(seat), JudgeNode(seat, wall)]);
    Cons(g, asking, ReadOwner(seat), [FetchNode(seat), JudgeNode(seat, wall)]);
    Cons(g, reading, FetchNode(seat), [JudgeNode(seat, wall)]);
    Single(g, fetched, JudgeNode(seat, wall));
  }

  /**
   A server that resolves an address whose recorded owner is gone, undisturbed, takes it
   over at the next epoch and serves it, whether or not the answer to its claim is lost.
   */
  lemma GoneOwnerIsReplaced(g: TicksPerMs, st: State, seat: Seat, wall: nat, lost: bool)
    requires Ready(st, seat) && seat.a in st.own.owners && st.own.owners[seat.a].owner.Some?
    requires st.own.owners[seat.a].owner.value.node != st.lease.sessions[seat.s].node
    requires OwnerGone(st.lease, st.own.owners[seat.a].owner.value, wall)
    ensures var after := StepAll(g, st, Inspection(seat, wall) + Settling(seat, |st.own.ops|, lost));
            ServesAt(after, seat, After(st.own.owners[seat.a].epoch))
  {
    InspectionClaims(g, st, seat, wall);
    var sent := StepAll(g, st, Inspection(seat, wall));
    var record := st.own.owners[seat.a];
    SentClaimServes(g, sent, st.own, seat, IfMatch(record), After(record.epoch), AwaitingClaim(0, |st.own.ops|), lost);
    StepAllConcat(g, st, Inspection(seat, wall), Settling(seat, |st.own.ops|, lost));
  }

  /**
   Failover: at any instant of any run at which the recorded owner has been silent for its
   ttl and the skew, any server of another node that is ready takes the address over in one
   undisturbed resolution and serves it.
   */
  lemma SilentOwnerIsReplaced(g: TicksPerMs, skew: nat, run: Run, i: nat, j: nat, seat: Seat, wall: nat, lost: bool)
    requires ClocksWithin(g, skew, run) && i <= j <= |run| && Ready(StateAt(g, run, j), seat)
    requires var st := StateAt(g, run, j);
             && seat.a in st.own.owners && st.own.owners[seat.a].owner.Some? && Reads(g, skew, st.lease, wall)
             && var owner := st.own.owners[seat.a].owner.value;
                && owner.node != st.lease.sessions[seat.s].node && Silent(run, owner.session, i, j)
                && (owner.session in st.lease.starts ==>
                      StateAt(g, run, i).lease.now + st.lease.starts[owner.session].ttl + skew <= st.lease.now)
    ensures var st := StateAt(g, run, j);
            var after := StepAll(g, st, Inspection(seat, wall) + Settling(seat, |st.own.ops|, lost));
            ServesAt(after, seat, After(st.own.owners[seat.a].epoch))
  {
    var st := StateAt(g, run, j);
    var owner := st.own.owners[seat.a].owner.value;
    if owner.node in st.lease.stored && st.lease.stored[owner.node].session == owner.session {
      SilentOwnerExpires(g, skew, run, i, j, owner.node, wall);
    }
    GoneOwnerIsReplaced(g, st, seat, wall, lost);
  }
}
