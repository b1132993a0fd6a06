/**
 What whole runs of the ownership protocol say about its record: it never repeats a
 content, a call that resolves to Local has seen itself recorded, and a release that
 reports success has happened.  Nothing here needs the hypotheses on clocks or on the
 network: lost, late and reordered writes are all allowed.
 */
module ClusterHistory {
  import opened Coordination
  import opened NodeLease
  import opened ActorOwnership
  import opened Cluster

  // The record is free of ABA.

  /** Twice the epoch, plus one when unowned; an absent record ranks below all. */
  function Rank(record: Option<OwnerRecord>): nat {
    match record
    case None => 0
    case Some(r) => 2 * r.epoch + if r.owner.None? then 1 else 0
  }

  function RecordAt(g: TicksPerMs, run: Run, i: nat, a: Address): Option<OwnerRecord>
    requires i <= |run|
  {
    Lookup(StateAt(g, run, i).own.owners, a)
  }

  /** A claim outranks what it was derived from exactly when the epoch can still grow. */
  lemma ClaimRaisesRank(node: NodeId, s: SessionId, seen: Option<OwnerRecord>)
    ensures Rank(seen) < Rank(Some(ClaimOver(node, s, seen)))
            <==> (seen.None? || seen.value.epoch < EPOCH_MAX)
  {
  }

  /** At the last epoch contents do repeat: a claim and its release restore the record. */
  lemma SaturatedEpochRepeats(node: NodeId, s: SessionId)
    ensures var claimed := ClaimOver(node, s, Some(Unowned(EPOCH_MAX)));
            claimed != Unowned(EPOCH_MAX) && Unowned(claimed.epoch) == Unowned(EPOCH_MAX)
  {
  }

  predicate RaisesRank(op: OwnerOp) {
    Rank(if op.condition.IfAbsent? then None else Some(op.condition.revision)) < Rank(Some(op.record))
  }

  ghost predicate RankInv(os: OwnerState) {
    && (forall id: nat :: id < |os.ops| ==> RaisesRank(os.ops[id]))
    && (forall seat :: seat in os.calls && os.calls[seat].ReadingNode? ==> os.calls[seat].seen.epoch < EPOCH_MAX)
  }

  ghost predicate EpochsLeft(os: OwnerState) {
    forall a :: a in os.owners ==> os.owners[a].epoch < EPOCH_MAX
  }

  /** The 64-bit epoch is never exhausted. */
  ghost predicate EpochsBelowMax(g: TicksPerMs, run: Run) {
    forall i: nat {:trigger EpochsLeft(StateAt(g, run, i).own)} ::
      i <= |run| ==> EpochsLeft(StateAt(g, run, i).own)
  }

  lemma StepKeepsRankInv(ls: LeaseState, os: OwnerState, ev: OwnerEvent)
    requires RankInv(os) && OwnerEnabled(ls, os, ev)
    requires EpochsLeft(os)
    ensures RankInv(OwnerNext(ls, os, ev))
  {
    if ev.ReadOwner? || ev.JudgeNode? || ev.ReadForRelease? {
      SendingKeepsRankInv(ls, os, ev);
    } else {
      SendsNothing(ls, os, ev);
    }
  }

  lemma SendingKeepsRankInv(ls: LeaseState, os: OwnerState, ev: OwnerEvent)
    requires RankInv(os) && OwnerEnabled(ls, os, ev) && EpochsLeft(os)
    requires ev.ReadOwner? || ev.JudgeNode? || ev.ReadForRelease?
    ensures RankInv(OwnerNext(ls, os, ev))
  {
    var os' := OwnerNext(ls, os, ev);
    forall id: nat | id < |os'.ops| ensures RaisesRank(os'.ops[id]) {
      assert id < |os.ops| ==> RaisesRank(os.ops[id]);
    }
  }

  lemma SendsNothing(ls: LeaseState, os: OwnerState, ev: OwnerEvent)
    requires OwnerEnabled(ls, os, ev) && !ev.ReadOwner? && !ev.JudgeNode? && !ev.ReadForRelease?
    ensures OwnerNext(ls, os, ev).ops == os.ops
    ensures forall seat :: seat in OwnerNext(ls, os, ev).calls && OwnerNext(ls, os, ev).calls[seat].ReadingNode? ==>
                             && seat in os.calls && os.calls[seat].ReadingNode?
                             && OwnerNext(ls, os, ev).calls[seat].seen == os.calls[seat].seen
  {
    if !ev.LandOwner? && !ev.ClearRoutes? {
      forall seat | seat in OwnerNext(ls, os, ev).calls && OwnerNext(ls, os, ev).calls[seat].ReadingNode?
        ensures && seat in os.calls && os.calls[seat].ReadingNode?
                && OwnerNext(ls, os, ev).calls[seat].seen == os.calls[seat].seen
      {
        if seat != ev.seat {
          SeatFrame(ls, os, ev, seat);
        }
      }
    }
  }

  lemma {:induction false} RankInvAlways(g: TicksPerMs, run: Run, i: nat)
    requires EpochsBelowMax(g, run) && i <= |run|
    ensures RankInv(StateAt(g, run, i).own)
  {
    if i > 0 {
      RankInvAlways(g, run, i - 1);
      var before := StateAt(g, run, i - 1);
      assert EpochsLeft(before.own);
      if run[i - 1].OnOwner? && OwnerEnabled(before.lease, before.own, run[i - 1].oe) {
        StepKeepsRankInv(before.lease, before.own, run[i - 1].oe);
      }
    }
  }

  predicate StaysOrRises(before: Option<OwnerRecord>, after: Option<OwnerRecord>) {
    before == after || Rank(before) < Rank(after)
  }

  /** The store applies a write to this address's record. */
  predicate AppliesWrite(os: OwnerState, ev: OwnerEvent, a: Address) {
    && ev.LandOwner? && ev.id < |os.ops| && ev.id !in os.landed
    && os.ops[ev.id].seat.a == a && Matches(os.owners, a, os.ops[ev.id].condition)
  }

  predicate WriteAt(st: State, ev: Event, a: Address) {
    ev.OnOwner? && AppliesWrite(st.own, ev.oe, a)
  }

  /** Every write that is applied strictly raises the rank of the record, and nothing else changes it. */
  predicate RisesWith(write: bool, before: Option<OwnerRecord>, after: Option<OwnerRecord>) {
    if write then Rank(before) < Rank(after) else before == after
  }

  lemma OwnerStepRaisesRank(ls: LeaseState, os: OwnerState, ev: OwnerEvent, a: Address)
    requires RankInv(os) && OwnerEnabled(ls, os, ev)
    ensures RisesWith(AppliesWrite(os, ev, a), Lookup(os.owners, a), Lookup(OwnerNext(ls, os, ev).owners, a))
  {
    if ev.LandOwner? {
      assert RaisesRank(os.ops[ev.id]);
    } else {
      OwnersOnlyByLanding(ls, os, ev);
    }
  }

  lemma OwnersOnlyByLanding(ls: LeaseState, os: OwnerState, ev: OwnerEvent)
    requires OwnerEnabled(ls, os, ev) && !ev.LandOwner?
    ensures OwnerNext(ls, os, ev).owners == os.owners && OwnerNext(ls, os, ev).landed == os.landed
  {
    if ev.ReadOwner? || ev.JudgeNode? || ev.ReadForRelease? || ev.ClaimReadBack? || ev.ReleaseReadBack? {
      ReadingChangesNoRecord(ls, os, ev);
    }
  }

  lemma ReadingChangesNoRecord(ls: LeaseState, os: OwnerState, ev: OwnerEvent)
    requires OwnerEnabled(ls, os, ev)
    requires ev.ReadOwner? || ev.JudgeNode? || ev.ReadForRelease? || ev.ClaimReadBack? || ev.ReleaseReadBack?
    ensures OwnerNext(ls, os, ev).owners == os.owners && OwnerNext(ls, os, ev).landed == os.landed
  {
  }

  /** The successive contents of one address's record along a run. */
  function History(g: TicksPerMs, run: Run, a: Address): (h: seq<Option<OwnerRecord>>)
    ensures |h| == |run| + 1
    ensures forall i :: 0 <= i < |h| ==> h[i] == RecordAt(g, run, i, a)
  {
    seq(|run| + 1, i requires 0 <= i <= |run| => RecordAt(g, run, i, a))
  }

  /** Along a run the rank rises strictly with every applied write, and the record changes with nothing else. */
  lemma HistoryRises(g: TicksPerMs, run: Run, a: Address)
    requires EpochsBelowMax(g, run)
    ensures var h := History(g, run, a);
            forall i :: 0 <= i < |run| ==> RisesWith(WriteAt(StateAt(g, run, i), run[i], a), h[i], h[i + 1])
  {
    forall i | 0 <= i < |run|
      ensures RisesWith(WriteAt(StateAt(g, run, i), run[i], a), History(g, run, a)[i], History(g, run, a)[i + 1])
    {
      RecordRisesAt(g, run, i, a);
    }
  }

  lemma RecordRisesAt(g: TicksPerMs, run: Run, i: nat, a: Address)
    requires EpochsBelowMax(g, run) && i < |run|
    ensures RisesWith(WriteAt(StateAt(g, run, i), run[i], a), RecordAt(g, run, i, a), RecordAt(g, run, i + 1, a))
  {
    RankInvAlways(g, run, i);
    var before := StateAt(g, run, i);
    if run[i].OnOwner? && OwnerEnabled(before.lease, before.own, run[i].oe) {
      OwnerStepRaisesRank(before.lease, before.own, run[i].oe, a);
    }
  }

  lemma {:induction false} RisingNeverRepeats(h: seq<Option<OwnerRecord>>, i: nat, j: nat)
    requires forall k :: 0 <= k < |h| - 1 ==> StaysOrRises(h[k], h[k + 1])
    requires i <= j < |h|
    ensures StaysOrRises(h[i], h[j])
    decreases j
  {
    if i < j {
      RisingNeverRepeats(h, i, j - 1);
      assert StaysOrRises(h[j - 1], h[j - 1 + 1]);
    }
  }

  /** Along a run an address's record stays or rises in rank, from any instant to any later one. */
  lemma RecordOnlyRises(g: TicksPerMs, run: Run, i: nat, j: nat, a: Address)
    requires EpochsBelowMax(g, run) && i <= j <= |run|
    ensures StaysOrRises(RecordAt(g, run, i, a), RecordAt(g, run, j, a))
  {
    HistoryRises(g, run, a);
    RisingNeverRepeats(History(g, run, a), i, j);
  }

  /**
   A content seen at two instants was there at every instant between: a matching
   revision proves that no write intervened.
   */
  lemma MatchingRevisionMeansNoWrite(g: TicksPerMs, run: Run, i: nat, k: nat, j: nat, a: Address)
    requires EpochsBelowMax(g, run) && i <= k <= j <= |run|
    requires RecordAt(g, run, i, a) == RecordAt(g, run, j, a)
    ensures RecordAt(g, run, k, a) == RecordAt(g, run, i, a)
  {
    RecordOnlyRises(g, run, i, k, a);
    RecordOnlyRises(g, run, k, j, a);
  }

  // Calls report what happened while they ran.

  /** A call that waits for a write waits for one it sent itself; releases have one shape. */
  predicate OwnOpOk(os: OwnerState, seat: Seat)
    requires seat in os.calls
  {
    var call := os.calls[seat];
    if IsClaimCall(call) then
      && call.op < |os.ops| && os.ops[call.op].seat == seat
      && os.ops[call.op].record.owner.Some? && os.ops[call.op].record.owner.value.session == seat.s
    else if call.AwaitingRelease? || call.ConfirmingRelease? then
      && call.op < |os.ops|
      && os.ops[call.op] == OwnerOp(seat, IfMatch(call.seen), Unowned(call.seen.epoch))
      && call.seen.owner.Some? && call.seen.owner.value.session == seat.s
    else
      true
  }

  /** A release names the record it was derived from as its own session's. */
  predicate ReleasesOnlyItself(op: OwnerOp) {
    op.record.owner.None? ==>
      && op.condition.IfMatch? && op.condition.revision.owner.Some?
      && op.condition.revision.owner.value.session == op.seat.s
      && op.record == Unowned(op.condition.revision.epoch)
  }

  ghost predicate ShapeInv(os: OwnerState) {
    && (forall id :: id in os.landed ==> id < |os.ops|)
    && (forall id: nat :: id < |os.ops| ==> ReleasesOnlyItself(os.ops[id]))
    && (forall seat :: seat in os.calls ==> OwnOpOk(os, seat))
  }

  /** A call that has just sent a write waits for that write. */
  lemma SenderKeepsOwnOp(ls: LeaseState, os: OwnerState, ev: OwnerEvent)
    requires ShapeInv(os) && OwnerEnabled(ls, os, ev)
    requires ev.ReadOwner? || ev.JudgeNode? || ev.ReadForRelease?
    requires ev.seat in OwnerNext(ls, os, ev).calls
    ensures OwnOpOk(OwnerNext(ls, os, ev), ev.seat)
  {
  }

  lemma WaiterKeepsOwnOp(ls: LeaseState, os: OwnerState, ev: OwnerEvent)
    requires ShapeInv(os) && OwnerEnabled(ls, os, ev)
    requires !ev.ReadOwner? && !ev.JudgeNode? && !ev.ReadForRelease? && !ev.LandOwner? && !ev.ClearRoutes?
    requires ev.seat in OwnerNext(ls, os, ev).calls
    ensures OwnOpOk(OwnerNext(ls, os, ev), ev.seat)
  {
    if ev.seat in os.calls {
      assert OwnOpOk(os, ev.seat);
      WaiterStaysWithOp(ls, os, ev);
    }
  }

  /** While a call waits, it waits for the same write, or no longer for any. */
  lemma WaiterStaysWithOp(ls: LeaseState, os: OwnerState, ev: OwnerEvent)
    requires OwnerEnabled(ls, os, ev)
    requires !ev.ReadOwner? && !ev.JudgeNode? && !ev.ReadForRelease? && !ev.LandOwner? && !ev.ClearRoutes?
    requires ev.seat in os.calls && ev.seat in OwnerNext(ls, os, ev).calls
    ensures OwnerNext(ls, os, ev).ops == os.ops
    ensures var call, call' := os.calls[ev.seat], OwnerNext(ls, os, ev).calls[ev.seat];
            && (IsClaimCall(call') ==> IsClaimCall(call) && call'.op == call.op)
            && (call'.AwaitingRelease? || call'.ConfirmingRelease? ==>
                  (call.AwaitingRelease? || call.ConfirmingRelease?) && call'.op == call.op && call'.seen == call.seen)
  {
  }

  predicate Bystander(ev: OwnerEvent, seat: Seat) {
    ev.LandOwner? || ev.ClearRoutes? || ev.seat != seat
  }

  /** Other seats' steps leave a call, and the writes already sent, as they are. */
  lemma BystanderFrame(ls: LeaseState, os: OwnerState, ev: OwnerEvent, seat: Seat)
    requires OwnerEnabled(ls, os, ev) && Bystander(ev, seat)
    ensures var os' := OwnerNext(ls, os, ev);
            && (seat in os'.calls <==> seat in os.calls)
            && (seat in os.calls ==> os'.calls[seat] == os.calls[seat])
            && os.ops <= os'.ops
  {
    if !ev.LandOwner? && !ev.ClearRoutes? {
      SeatFrame(ls, os, ev, seat);
    }
  }

  lemma SeatFrame(ls: LeaseState, os: OwnerState, ev: OwnerEvent, seat: Seat)
    requires OwnerEnabled(ls, os, ev) && !ev.LandOwner? && !ev.ClearRoutes? && ev.seat != seat
    ensures var os' := OwnerNext(ls, os, ev);
            && (seat in os'.calls <==> seat in os.calls)
            && (seat in os.calls ==> os'.calls[seat] == os.calls[seat])
            && os.ops <= os'.ops
  {
    if ev.ReadOwner? || ev.JudgeNode? || ev.ReadForRelease? {
      SenderFrame(ls, os, ev, seat);
    }
  }

  lemma SenderFrame(ls: LeaseState, os: OwnerState, ev: OwnerEvent, seat: Seat)
    requires OwnerEnabled(ls, os, ev) && (ev.ReadOwner? || ev.JudgeNode? || ev.ReadForRelease?) && ev.seat != seat
    ensures var os' := OwnerNext(ls, os, ev);
            && (seat in os'.calls <==> seat in os.calls)
            && (seat in os.calls ==> os'.calls[seat] == os.calls[seat])
            && os.ops <= os'.ops
  {
  }

  lemma StepKeepsOwnOp(ls: LeaseState, os: OwnerState, ev: OwnerEvent, seat: Seat)
    requires ShapeInv(os) && OwnerEnabled(ls, os, ev) && seat in OwnerNext(ls, os, ev).calls
    ensures OwnOpOk(OwnerNext(ls, os, ev), seat)
  {
    if Bystander(ev, seat) {
      BystanderFrame(ls, os, ev, seat);
      assert OwnOpOk(os, seat);
    } else if ev.ReadOwner? || ev.JudgeNode? || ev.ReadForRelease? {
      SenderKeepsOwnOp(ls, os, ev);
    } else {
      WaiterKeepsOwnOp(ls, os, ev);
    }
  }

  lemma StepKeepsShape(ls: LeaseState, os: OwnerState, ev: OwnerEvent)
    requires ShapeInv(os) && OwnerEnabled(ls, os, ev)
    ensures ShapeInv(OwnerNext(ls, os, ev))
  {
    var os' := OwnerNext(ls, os, ev);
    forall id: nat | id < |os'.ops| ensures ReleasesOnlyItself(os'.ops[id]) {
      assert id < |os.ops| ==> ReleasesOnlyItself(os.ops[id]);
    }
    forall seat | seat in os'.calls ensures OwnOpOk(os', seat) {
      StepKeepsOwnOp(ls, os, ev, seat);
    }
  }

  lemma {:induction false} ShapeAlways(g: TicksPerMs, run: Run, i: nat)
    requires i <= |run|
    ensures ShapeInv(StateAt(g, run, i).own)
  {
    if i > 0 {
      ShapeAlways(g, run, i - 1);
      var before := StateAt(g, run, i - 1);
      if run[i - 1].OnOwner? && OwnerEnabled(before.lease, before.own, run[i - 1].oe) {
        StepKeepsShape(before.lease, before.own, run[i - 1].oe);
      }
    }
  }

  /**
   Whoever's record it is, no landing write clears it except that session's own
   release, and that leaves the epoch as it was.
   */
  lemma OnlyOwnReleaseClears(g: TicksPerMs, run: Run, i: nat, a: Address)
    requires i < |run|
    requires RecordAt(g, run, i, a).Some? && RecordAt(g, run, i, a).value.owner.Some?
    requires RecordAt(g, run, i + 1, a).Some? && RecordAt(g, run, i + 1, a).value.owner.None?
    ensures RecordAt(g, run, i + 1, a) == Some(Unowned(RecordAt(g, run, i, a).value.epoch))
    ensures var os := StateAt(g, run, i).own;
            && run[i].OnOwner? && run[i].oe.LandOwner? && run[i].oe.id < |os.ops|
            && os.ops[run[i].oe.id].seat == Seat(RecordAt(g, run, i, a).value.owner.value.session, a)
  {
    ShapeAlways(g, run, i);
    var os := StateAt(g, run, i).own;
    assert ReleasesOnlyItself(os.ops[run[i].oe.id]);
  }

  /** The stored record names the session of this seat. */
  predicate Recorded(os: OwnerState, seat: Seat) {
    && seat.a in os.owners && os.owners[seat.a].owner.Some?
    && os.owners[seat.a].owner.value.session == seat.s
  }

  ghost predicate InCallThroughout(g: TicksPerMs, run: Run, seat: Seat, i: nat, j: nat)
    requires i <= j <= |run|
  {
    forall k: nat {:trigger StateAt(g, run, k)} :: i <= k <= j ==> seat in StateAt(g, run, k).own.calls
  }

  /** The record named the seat's session at instant `i`, and the same call has run since. */
  ghost predicate RecordedSince(g: TicksPerMs, run: Run, seat: Seat, i: nat, j: nat)
    requires j <= |run|
  {
    i <= j && Recorded(StateAt(g, run, i).own, seat) && InCallThroughout(g, run, seat, i, j)
  }

  ghost predicate RecordedDuringCall(g: TicksPerMs, run: Run, seat: Seat, j: nat)
    requires j <= |run|
  {
    exists i: nat :: RecordedSince(g, run, seat, i, j)
  }

  /** A call is sure of its ownership: resolved to Local, or its claim has been applied. */
  predicate Sure(os: OwnerState, seat: Seat) {
    seat in os.calls
    && (os.calls[seat].Local? || (IsClaimCall(os.calls[seat]) && os.calls[seat].op in os.landed))
  }

  /** A call becomes sure only at an instant when the record names its session. */
  lemma BecomingSure(ls: LeaseState, os: OwnerState, ev: OwnerEvent, seat: Seat)
    requires ShapeInv(os) && OwnerEnabled(ls, os, ev)
    requires Sure(OwnerNext(ls, os, ev), seat) && !Sure(os, seat)
    ensures Recorded(OwnerNext(ls, os, ev), seat)
  {
    if Bystander(ev, seat) {
      BystanderFrame(ls, os, ev, seat);
      assert OwnOpOk(os, seat);
      if !ev.LandOwner? {
        OwnersOnlyByLanding(ls, os, ev);
      }
    } else {
      BecomingSureByOwnStep(ls, os, ev);
    }
  }

  lemma BecomingSureByOwnStep(ls: LeaseState, os: OwnerState, ev: OwnerEvent)
    requires ShapeInv(os) && OwnerEnabled(ls, os, ev) && !ev.LandOwner? && !ev.ClearRoutes?
    requires Sure(OwnerNext(ls, os, ev), ev.seat) && !Sure(os, ev.seat)
    ensures Recorded(OwnerNext(ls, os, ev), ev.seat)
  {
    assert |os.ops| !in os.landed;
    if ev.ClaimReadBack? {
      assert OwnOpOk(os, ev.seat);
    } else if !ev.ReadOwner? {
      OnlyReadsMakeSure(ls, os, ev);
    }
  }

  /** A response never makes a call sure that was not: the write it reports had been applied before. */
  lemma OnlyReadsMakeSure(ls: LeaseState, os: OwnerState, ev: OwnerEvent)
    requires OwnerEnabled(ls, os, ev) && !ev.LandOwner? && !ev.ClearRoutes? && |os.ops| !in os.landed
    requires !ev.ClaimReadBack? && !ev.ReadOwner?
    ensures Sure(OwnerNext(ls, os, ev), ev.seat) ==> Sure(os, ev.seat)
  {
  }

  lemma StillInCall(g: TicksPerMs, run: Run, seat: Seat, i: nat, j: nat)
    requires 0 < j <= |run| && RecordedSince(g, run, seat, i, j - 1) && seat in StateAt(g, run, j).own.calls
    ensures RecordedSince(g, run, seat, i, j)
  {
    forall k: nat | i <= k <= j ensures seat in StateAt(g, run, k).own.calls {
    }
  }

  /**
   `resolve` answers Local only if the record named this session at some instant
   during the call, through every round, conflict, lost response and read-back.
   */
  lemma {:induction false} LocalWasRecorded(g: TicksPerMs, run: Run, seat: Seat, j: nat)
    requires j <= |run| && Sure(StateAt(g, run, j).own, seat)
    ensures RecordedDuringCall(g, run, seat, j)
    decreases j
  {
    var before := StateAt(g, run, j - 1);
    ShapeAlways(g, run, j - 1);
    if Sure(before.own, seat) {
      LocalWasRecorded(g, run, seat, j - 1);
      var i: nat :| RecordedSince(g, run, seat, i, j - 1);
      StillInCall(g, run, seat, i, j);
    } else {
      BecomingSure(before.lease, before.own, run[j - 1].oe, seat);
      assert RecordedSince(g, run, seat, j, j);
    }
  }

  // A release that reports success has happened.

  predicate Releasing(os: OwnerState, seat: Seat) {
    seat in os.calls && (os.calls[seat].AwaitingRelease? || os.calls[seat].ConfirmingRelease?)
  }

  /** The record the release set out from was stored at instant `i` of the same call. */
  ghost predicate SeenSince(g: TicksPerMs, run: Run, seat: Seat, seen: OwnerRecord, i: nat, j: nat)
    requires j <= |run|
  {
    i <= j && RecordAt(g, run, i, seat.a) == Some(seen) && InCallThroughout(g, run, seat, i, j)
  }

  /** Within one call the record was `seen` and then `seen` without its owner. */
  ghost predicate MovedSince(g: TicksPerMs, run: Run, seat: Seat, seen: OwnerRecord, i: nat, k: nat, j: nat)
    requires j <= |run|
  {
    && SeenSince(g, run, seat, seen, i, j) && i <= k <= j
    && RecordAt(g, run, k, seat.a) == Some(Unowned(seen.epoch))
  }

  lemma BecomingReleasing(ls: LeaseState, os: OwnerState, ev: OwnerEvent, seat: Seat)
    requires OwnerEnabled(ls, os, ev)
    requires Releasing(OwnerNext(ls, os, ev), seat)
    ensures var os' := OwnerNext(ls, os, ev);
            if Releasing(os, seat)
            then os'.calls[seat].seen == os.calls[seat].seen && os'.calls[seat].op == os.calls[seat].op
            else && Lookup(os'.owners, seat.a) == Some(os'.calls[seat].seen)
                 && os'.calls[seat].op == |os.ops| && os'.landed == os.landed
  {
    if Bystander(ev, seat) {
      BystanderFrame(ls, os, ev, seat);
    }
  }

  lemma {:induction false} ReleaseSawItsRecord(g: TicksPerMs, run: Run, seat: Seat, j: nat) returns (i: nat)
    requires j <= |run| && Releasing(StateAt(g, run, j).own, seat)
    ensures SeenSince(g, run, seat, StateAt(g, run, j).own.calls[seat].seen, i, j)
    decreases j
  {
    var before := StateAt(g, run, j - 1);
    if run[j - 1].OnOwner? && OwnerEnabled(before.lease, before.own, run[j - 1].oe) {
      BecomingReleasing(before.lease, before.own, run[j - 1].oe, seat);
    }
    if Releasing(before.own, seat) {
      i := ReleaseSawItsRecord(g, run, seat, j - 1);
    } else {
      i := j;
    }
  }

  /** The landing of a release is the move itself. */
  lemma ReleaseLands(ls: LeaseState, os: OwnerState, ev: OwnerEvent, seat: Seat)
    requires ShapeInv(os) && OwnerEnabled(ls, os, ev) && Releasing(OwnerNext(ls, os, ev), seat)
    requires OwnerNext(ls, os, ev).calls[seat].op in OwnerNext(ls, os, ev).landed
    ensures Releasing(os, seat) && OwnerNext(ls, os, ev).calls[seat].seen == os.calls[seat].seen
    ensures OwnerNext(ls, os, ev).calls[seat].op == os.calls[seat].op
    ensures os.calls[seat].op !in os.landed ==>
              && Lookup(os.owners, seat.a) == Some(os.calls[seat].seen)
              && Lookup(OwnerNext(ls, os, ev).owners, seat.a) == Some(Unowned(os.calls[seat].seen.epoch))
  {
    BecomingReleasing(ls, os, ev, seat);
    assert Releasing(os, seat) ==> OwnOpOk(os, seat);
  }

  lemma ReleaseLandsAt(g: TicksPerMs, run: Run, seat: Seat, j: nat)
    requires j <= |run| && Releasing(StateAt(g, run, j).own, seat)
    requires StateAt(g, run, j).own.calls[seat].op in StateAt(g, run, j).own.landed
    ensures j > 0 && Releasing(StateAt(g, run, j - 1).own, seat)
    ensures var call, call' := StateAt(g, run, j - 1).own.calls[seat], StateAt(g, run, j).own.calls[seat];
            && call'.seen == call.seen && call'.op == call.op
            && (call.op !in StateAt(g, run, j - 1).own.landed ==>
                  && RecordAt(g, run, j - 1, seat.a) == Some(call.seen)
                  && RecordAt(g, run, j, seat.a) == Some(Unowned(call.seen.epoch)))
  {
    var before := StateAt(g, run, j - 1);
    ShapeAlways(g, run, j - 1);
    if run[j - 1].OnOwner? && OwnerEnabled(before.lease, before.own, run[j - 1].oe) {
      ReleaseLands(before.lease, before.own, run[j - 1].oe, seat);
    }
  }

  /** Once its write has been applied, the move has been made within the call. */
  lemma {:induction false} AppliedReleaseMoved(g: TicksPerMs, run: Run, seat: Seat, j: nat) returns (i: nat, k: nat)
    requires j <= |run| && Releasing(StateAt(g, run, j).own, seat)
    requires StateAt(g, run, j).own.calls[seat].op in StateAt(g, run, j).own.landed
    ensures MovedSince(g, run, seat, StateAt(g, run, j).own.calls[seat].seen, i, k, j)
    decreases j
  {
    ReleaseLandsAt(g, run, seat, j);
    var before := StateAt(g, run, j - 1);
    if before.own.calls[seat].op in before.own.landed {
      i, k := AppliedReleaseMoved(g, run, seat, j - 1);
      MovedStays(g, run, seat, before.own.calls[seat].seen, i, k, j);
    } else {
      i, k := j - 1, j;
      JustMoved(g, run, seat, before.own.calls[seat].seen, j);
    }
  }

  lemma MovedStays(g: TicksPerMs, run: Run, seat: Seat, seen: OwnerRecord, i: nat, k: nat, j: nat)
    requires 0 < j <= |run| && MovedSince(g, run, seat, seen, i, k, j - 1) && seat in StateAt(g, run, j).own.calls
    ensures MovedSince(g, run, seat, seen, i, k, j)
  {
    SeenStays(g, run, seat, seen, i, j);
  }

  lemma JustMoved(g: TicksPerMs, run: Run, seat: Seat, seen: OwnerRecord, j: nat)
    requires 0 < j <= |run|
    requires seat in StateAt(g, run, j - 1).own.calls && seat in StateAt(g, run, j).own.calls
    requires RecordAt(g, run, j - 1, seat.a) == Some(seen)
    requires RecordAt(g, run, j, seat.a) == Some(Unowned(seen.epoch))
    ensures MovedSince(g, run, seat, seen, j - 1, j, j)
  {
    forall k: nat | j - 1 <= k <= j ensures seat in StateAt(g, run, k).own.calls {
    }
  }

  lemma SeenStays(g: TicksPerMs, run: Run, seat: Seat, seen: OwnerRecord, i: nat, j: nat)
    requires 0 < j <= |run| && SeenSince(g, run, seat, seen, i, j - 1) && seat in StateAt(g, run, j).own.calls
    ensures SeenSince(g, run, seat, seen, i, j)
  {
  }

  /** The step at which `release_local_owner` returns `Ok`. */
  predicate ReleaseSucceeds(st: State, ev: Event) {
    && ev.OnOwner? && OwnerEnabled(st.lease, st.own, ev.oe)
    && (ev.oe.ReleaseApplied? || (ev.oe.ReleaseReadBack? && ReleaseConfirmed(st.own, ev.oe.seat)))
  }

  /**
   `release_local_owner` returns `Ok` only if, during that very call, the record was
   this session's at some epoch and then unowned at the same epoch.
   */
  lemma ReleaseOkMeansReleased(g: TicksPerMs, run: Run, j: nat) returns (seen: OwnerRecord, i: nat, k: nat)
    requires j < |run| && ReleaseSucceeds(StateAt(g, run, j), run[j])
    ensures seen.owner.Some? && seen.owner.value.session == run[j].oe.seat.s
    ensures MovedSince(g, run, run[j].oe.seat, seen, i, k, j)
  {
    var seat := run[j].oe.seat;
    var os := StateAt(g, run, j).own;
    ShapeAlways(g, run, j);
    assert OwnOpOk(os, seat);
    seen := os.calls[seat].seen;
    if run[j].oe.ReleaseApplied? {
      i, k := AppliedReleaseMoved(g, run, seat, j);
    } else {
      i := ReleaseSawItsRecord(g, run, seat, j);
      k := j;
    }
  }
}
