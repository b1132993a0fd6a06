/**
 What each step of `resolve`, `claim` and `release_local_owner` leads to, in terms of what
 the store and the call hold before it; that a resolution ends; and that one which nobody
 disturbs makes its server serve the address, also through a lost response.
 */
module OwnershipOutcomes {
  import opened Coordination
  import opened NodeLease
  import opened ActorOwnership
  import opened Cluster
  import opened ClusterHistory

  /** The seat's session has started, and a call of the seat is in progress. */
  predicate Calling(ls: LeaseState, os: OwnerState, seat: Seat) {
    seat.s in ls.sessions && seat in os.calls
  }

  /** The call goes on in this way, and nothing else changes. */
  predicate GoesOn(os: OwnerState, os': OwnerState, seat: Seat, call: Call) {
    os' == os.(calls := os.calls[seat := call])
  }

  /** The call ends without an answer of Local, and nothing else changes. */
  predicate Ends(os: OwnerState, os': OwnerState, seat: Seat) {
    os' == os.(calls := os.calls - {seat})
  }

  /** The seat's session sends a claim under this condition and epoch, and waits as `call` says. */
  predicate Claims(
    ls: LeaseState, os: OwnerState, os': OwnerState, seat: Seat, condition: Condition<OwnerRecord>, epoch: nat,
    call: Call)
    requires seat.s in ls.sessions
  {
    var claim := OwnerRecord(Some(Owner(ls.sessions[seat.s].node, seat.s)), epoch);
    os' == os.(ops := os.ops + [OwnerOp(seat, condition, claim)], calls := os.calls[seat := call])
  }

  /** One more than the epoch, unless 64 bits are used up. */
  function After(epoch: nat): nat {
    if epoch < 0xFFFF_FFFF_FFFF_FFFF then epoch + 1 else epoch
  }

  /**
   The first read of a round: an absent record is claimed at epoch 1 if it is still absent,
   an unowned one or one of the session's own node at the next epoch if it is unchanged;
   the session's own record is the answer; any other leads to a look at its node's lease.
   */
  lemma OwnerReadOutcome(ls: LeaseState, os: OwnerState, seat: Seat)
    requires Calling(ls, os, seat) && os.calls[seat].ReadingOwner?
    ensures OwnerEnabled(ls, os, ReadOwner(seat))
    ensures var os' := OwnerNext(ls, os, ReadOwner(seat));
            var round := os.calls[seat].round;
            var node := ls.sessions[seat.s].node;
            var awaiting := AwaitingClaim(round, |os.ops|);
            if seat.a !in os.owners then Claims(ls, os, os', seat, IfAbsent, 1, awaiting)
            else
              var record := os.owners[seat.a];
              if record.owner == None then Claims(ls, os, os', seat, IfMatch(record), After(record.epoch), awaiting)
              else if record.owner == Some(Owner(node, seat.s)) then GoesOn(os, os', seat, Local)
              else if record.owner.value.node == node
              then Claims(ls, os, os', seat, IfMatch(record), After(record.epoch), AwaitingTakeover(|os.ops|))
              else GoesOn(os, os', seat, ReadingNode(round, record, None))
  {
  }

  /** The lease is fetched as it is stored. */
  lemma FetchOutcome(ls: LeaseState, os: OwnerState, seat: Seat)
    requires Calling(ls, os, seat) && os.calls[seat].ReadingNode? && os.calls[seat].fetched == None
    requires os.calls[seat].seen.owner.Some?
    ensures OwnerEnabled(ls, os, FetchNode(seat))
    ensures var ReadingNode(round, seen, _) := os.calls[seat];
            var node := seen.owner.value.node;
            var found := if node in ls.stored then Some(ls.stored[node]) else None;
            GoesOn(os, OwnerNext(ls, os, FetchNode(seat)), seat, ReadingNode(round, seen, Some(found)))
  {
  }

  /**
   The answer is Remote exactly if the lease is unexpired and of the recorded session;
   otherwise the record is claimed.
   */
  lemma JudgingOutcome(ls: LeaseState, os: OwnerState, seat: Seat, wall: nat)
    requires Calling(ls, os, seat) && os.calls[seat].ReadingNode? && os.calls[seat].fetched.Some?
    requires os.calls[seat].seen.owner.Some?
    ensures OwnerEnabled(ls, os, JudgeNode(seat, wall))
    ensures var os' := OwnerNext(ls, os, JudgeNode(seat, wall));
            var ReadingNode(round, seen, fetched) := os.calls[seat];
            var lease := fetched.value;
            if lease.Some? && wall < lease.value.expires && lease.value.session == seen.owner.value.session
            then Ends(os, os', seat)
            else Claims(ls, os, os', seat, IfMatch(seen), After(seen.epoch), AwaitingClaim(round, |os.ops|))
  {
  }

  /**
   The store's answers to a claim: applied is Local; a conflict is another of three rounds,
   or the end of a takeover.
   */
  lemma ClaimAnswerOutcome(ls: LeaseState, os: OwnerState, seat: Seat)
    requires Calling(ls, os, seat) && (os.calls[seat].AwaitingClaim? || os.calls[seat].AwaitingTakeover?)
    ensures OwnerEnabled(ls, os, ClaimApplied(seat)) <==> os.calls[seat].op in os.landed && os.calls[seat].op < |os.ops|
    ensures OwnerEnabled(ls, os, ClaimApplied(seat)) ==> GoesOn(os, OwnerNext(ls, os, ClaimApplied(seat)), seat, Local)
    ensures OwnerEnabled(ls, os, ClaimConflict(seat)) && OwnerEnabled(ls, os, ClaimIndeterminate(seat))
    ensures var os' := OwnerNext(ls, os, ClaimConflict(seat));
            if os.calls[seat].AwaitingClaim? && os.calls[seat].round < 2
            then GoesOn(os, os', seat, ReadingOwner(os.calls[seat].round + 1))
            else Ends(os, os', seat)
    ensures var os' := OwnerNext(ls, os, ClaimIndeterminate(seat));
            var call := os.calls[seat];
            GoesOn(os, os', seat, if call.AwaitingClaim? then ConfirmingClaim(call.round, call.op, 0)
                                  else ConfirmingTakeover(call.op))
  {
  }

  /** A failed or empty read-back: a claim has three in all, a takeover one. */
  predicate TriesAgain(os: OwnerState, os': OwnerState, seat: Seat)
    requires seat in os.calls && (os.calls[seat].ConfirmingClaim? || os.calls[seat].ConfirmingTakeover?)
  {
    var call := os.calls[seat];
    if call.ConfirmingClaim? && call.tries < 2
    then GoesOn(os, os', seat, ConfirmingClaim(call.round, call.op, call.tries + 1))
    else Ends(os, os', seat)
  }

  /**
   A read-back that finds the claim is the answer, in every round, for claims and takeovers
   alike.  Otherwise a takeover ends; for a claim another owner's record starts the next of
   three rounds, and an absent or unowned record, or a failed read, is read again.
   */
  lemma ReadBackOutcome(ls: LeaseState, os: OwnerState, seat: Seat)
    requires Calling(ls, os, seat) && (os.calls[seat].ConfirmingClaim? || os.calls[seat].ConfirmingTakeover?)
    requires os.calls[seat].op < |os.ops|
    ensures OwnerEnabled(ls, os, ClaimReadBack(seat)) && OwnerEnabled(ls, os, ClaimReadFails(seat))
    ensures var os' := OwnerNext(ls, os, ClaimReadBack(seat));
            var call := os.calls[seat];
            var found := seat.a in os.owners;
            if found && os.owners[seat.a] == os.ops[call.op].record then GoesOn(os, os', seat, Local)
            else if call.ConfirmingClaim? && found && os.owners[seat.a].owner != None then
              if call.round < 2 then GoesOn(os, os', seat, ReadingOwner(call.round + 1)) else Ends(os, os', seat)
            else TriesAgain(os, os', seat)
    ensures TriesAgain(os, OwnerNext(ls, os, ClaimReadFails(seat)), seat)
  {
  }

  /** Dispatching on a Local answer: a route exists and the session is live, unless it is turned away. */
  lemma DispatchOutcome(ls: LeaseState, os: OwnerState, seat: Seat)
    requires Calling(ls, os, seat) && os.calls[seat] == Local
    ensures OwnerEnabled(ls, os, Dispatch(seat))
    ensures var os' := OwnerNext(ls, os, Dispatch(seat));
            var ended := os.(calls := os.calls - {seat});
            if !Admits(ls, seat.s) || (seat in os.routes && os.routes[seat] == Deactivating) then os' == ended
            else os' == ended.(routes := os.routes[seat := Active], live := os.live + {seat})
  {
    if seat in os.routes {
      assert os.routes[seat].Active? ==> os.routes[seat := Active] == os.routes;
    }
  }

  /** A release is sent exactly for the session's own record, and keeps its epoch. */
  lemma ReleaseReadOutcome(ls: LeaseState, os: OwnerState, seat: Seat)
    requires Calling(ls, os, seat) && os.calls[seat] == ReadingForRelease
    ensures OwnerEnabled(ls, os, ReadForRelease(seat))
    ensures var os' := OwnerNext(ls, os, ReadForRelease(seat));
            if seat.a in os.owners && os.owners[seat.a].owner == Some(Owner(ls.sessions[seat.s].node, seat.s)) then
              var seen := os.owners[seat.a];
              os' == os.(ops := os.ops + [OwnerOp(seat, IfMatch(seen), OwnerRecord(None, seen.epoch))],
                         calls := os.calls[seat := AwaitingRelease(|os.ops|, seen)])
            else Ends(os, os', seat)
  {
  }

  /** The store's answers to a release: applied ends the call well, anything else is read back. */
  lemma ReleaseAnswerOutcome(ls: LeaseState, os: OwnerState, seat: Seat)
    requires Calling(ls, os, seat) && os.calls[seat].AwaitingRelease?
    ensures OwnerEnabled(ls, os, ReleaseApplied(seat))
       <==> os.calls[seat].op in os.landed && os.calls[seat].op < |os.ops|
    ensures OwnerEnabled(ls, os, ReleaseApplied(seat)) ==> Ends(os, OwnerNext(ls, os, ReleaseApplied(seat)), seat)
    ensures OwnerEnabled(ls, os, ReleaseUnsure(seat))
    ensures GoesOn(os, OwnerNext(ls, os, ReleaseUnsure(seat)), seat,
                   ConfirmingRelease(os.calls[seat].op, os.calls[seat].seen, 0))
  {
  }

  /**
   Read-backs of a release: any change of the record ends the call; unchanged, absent or
   unread it is read up to three times.
   */
  lemma ReleaseReadBackOutcome(ls: LeaseState, os: OwnerState, seat: Seat)
    requires Calling(ls, os, seat) && os.calls[seat].ConfirmingRelease? && os.calls[seat].seen.owner.Some?
    ensures OwnerEnabled(ls, os, ReleaseReadBack(seat)) && OwnerEnabled(ls, os, ReleaseReadFails(seat))
    ensures var ConfirmingRelease(op, seen, tries) := os.calls[seat];
            var os' := OwnerNext(ls, os, ReleaseReadBack(seat));
            if tries < 2 && (seat.a !in os.owners || os.owners[seat.a] == seen)
            then GoesOn(os, os', seat, ConfirmingRelease(op, seen, tries + 1))
            else Ends(os, os', seat)
    ensures var ConfirmingRelease(op, seen, tries) := os.calls[seat];
            var os' := OwnerNext(ls, os, ReleaseReadFails(seat));
            if tries < 2 then GoesOn(os, os', seat, ConfirmingRelease(op, seen, tries + 1)) else Ends(os, os', seat)
  {
  }

  /**
   A release answers Ok exactly when its write is reported applied, or the record is read
   back unowned at the same epoch.
   */
  lemma ReleaseOkWhen(st: State, seat: Seat)
    requires Calling(st.lease, st.own, seat)
    ensures var call := st.own.calls[seat];
            && (ReleaseSucceeds(st, OnOwner(ReleaseApplied(seat))) <==>
                  call.AwaitingRelease? && call.op in st.own.landed && call.op < |st.own.ops|)
            && (ReleaseSucceeds(st, OnOwner(ReleaseReadBack(seat))) <==>
                  && call.ConfirmingRelease? && seat.a in st.own.owners
                  && st.own.owners[seat.a] == OwnerRecord(None, call.seen.epoch))
            && !ReleaseSucceeds(st, OnOwner(ReleaseUnsure(seat)))
            && !ReleaseSucceeds(st, OnOwner(ReleaseReadFails(seat)))
            && !ReleaseSucceeds(st, OnOwner(AbandonCall(seat)))
  {
  }

  /** When the steps outside calls can be taken. */
  lemma RouteGuards(ls: LeaseState, os: OwnerState, seat: Seat, s: SessionId)
    ensures && (OwnerEnabled(ls, os, Resolve(seat)) <==> seat.s in ls.sessions && seat !in os.calls)
            && (OwnerEnabled(ls, os, DispatchAction(seat)) <==> Admits(ls, seat.s) && seat in os.live)
            && (OwnerEnabled(ls, os, EndSessions(seat)) <==> seat in os.live)
            && (OwnerEnabled(ls, os, AbandonCall(seat)) <==> seat in os.calls)
            && (OwnerEnabled(ls, os, ClearRoutes(s)) <==> s in ls.sessions && ls.sessions[s].status != Running)
  {
  }

  lemma ActorGuards(ls: LeaseState, os: OwnerState, seat: Seat)
    ensures var route := if seat in os.routes then Some(os.routes[seat]) else None;
            var releasing := seat in os.calls && IsReleaseCall(os.calls[seat]);
            && (OwnerEnabled(ls, os, StopActor(seat)) <==> route == Some(Active))
            && (OwnerEnabled(ls, os, BeginDeactivation(seat)) <==> route == Some(Active) && seat !in os.live)
            && (OwnerEnabled(ls, os, BeginRelease(seat)) <==>
                  seat.s in ls.sessions && route == Some(Deactivating) && seat !in os.calls)
            && (OwnerEnabled(ls, os, FinishDeactivation(seat)) <==> route == Some(Deactivating) && !releasing)
  {
  }

  /**
   The steps outside calls touch one route or one seat's sessions each, or all routes of a
   session that has stopped.
   */
  lemma RouteOutcome(ls: LeaseState, os: OwnerState, ev: OwnerEvent)
    requires OwnerEnabled(ls, os, ev)
    ensures var os' := OwnerNext(ls, os, ev);
            match ev
            case Resolve(seat) => GoesOn(os, os', seat, ReadingOwner(0))
            case BeginRelease(seat) => GoesOn(os, os', seat, ReadingForRelease)
            case AbandonCall(seat) => Ends(os, os', seat)
            case DispatchAction(seat) =>
              os' == if seat in os.routes then os else os.(routes := os.routes[seat := Active])
            case EndSessions(seat) => os' == os.(live := os.live - {seat})
            case StopActor(seat) => os' == os.(routes := os.routes - {seat})
            case FinishDeactivation(seat) => os' == os.(routes := os.routes - {seat})
            case BeginDeactivation(seat) => os' == os.(routes := os.routes[seat := Deactivating])
            case ClearRoutes(s) =>
              && os' == os.(routes := os'.routes)
              && forall seat :: seat in os'.routes <==> seat in os.routes && seat.s != s
            case _ => true
  {
  }

  /** The store applies a write exactly if its condition holds, and then the record is what was written. */
  lemma LandingOutcome(ls: LeaseState, os: OwnerState, id: nat)
    requires id < |os.ops| && id !in os.landed
    ensures OwnerEnabled(ls, os, LandOwner(id))
    ensures var os' := OwnerNext(ls, os, LandOwner(id));
            var OwnerOp(seat, condition, record) := os.ops[id];
            var holds := if condition == IfAbsent then seat.a !in os.owners
                         else seat.a in os.owners && os.owners[seat.a] == condition.revision;
            os' == if holds then os.(owners := os.owners[seat.a := record], landed := os.landed + {id}) else os
  {
  }

  // A resolution ends.

  /** The steps that a call of `resolve` takes itself; landings and everything else are others' steps. */
  predicate OwnStep(ev: OwnerEvent) {
    ev.ReadOwner? || ev.FetchNode? || ev.JudgeNode? || ev.ClaimApplied? || ev.ClaimConflict? || ev.ClaimIndeterminate?
    || ev.ClaimReadBack? || ev.ClaimReadFails?
  }

  /** Three rounds of seven steps: two reads, a decision, the write's answer, and three read-backs. */
  function StepsLeft(call: Call): int {
    match call
    case ReadingOwner(round) => 7 * (3 - round)
    case ReadingNode(round, _, fetched) => 7 * (3 - round) - if fetched.None? then 1 else 2
    case AwaitingClaim(round, _) => 7 * (3 - round) - 3
    case ConfirmingClaim(round, _, tries) => 7 * (3 - round) - 4 - tries
    case AwaitingTakeover(_) => 2
    case ConfirmingTakeover(_) => 1
    case _ => 0
  }

  predicate WithinBounds(call: Call) {
    && ((call.ReadingOwner? || call.ReadingNode? || call.AwaitingClaim? || call.ConfirmingClaim?) ==> call.round < 3)
    && (call.ConfirmingClaim? ==> call.tries < 3)
  }

  /** Every step of its own brings a call closer to its end: a resolution takes at most 21 of them. */
  lemma OwnStepsRunOut(ls: LeaseState, os: OwnerState, ev: OwnerEvent)
    requires OwnerEnabled(ls, os, ev) && OwnStep(ev) && WithinBounds(os.calls[ev.seat])
    ensures var os' := OwnerNext(ls, os, ev);
            ev.seat in os'.calls ==>
              && WithinBounds(os'.calls[ev.seat])
              && 0 <= StepsLeft(os'.calls[ev.seat]) < StepsLeft(os.calls[ev.seat]) <= 21
  {
  }

  /** How many of the steps from `i` to `j` are the call's own. */
  function OwnSteps(g: TicksPerMs, run: Run, seat: Seat, i: nat, j: nat): nat
    requires i <= j <= |run|
    decreases j
  {
    if i == j then 0
    else
      var st, ev := StateAt(g, run, j - 1), run[j - 1];
      OwnSteps(g, run, seat, i, j - 1)
      + if ev.OnOwner? && OwnStep(ev.oe) && ev.oe.seat == seat && OwnerEnabled(st.lease, st.own, ev.oe) then 1 else 0
  }

  lemma OthersKeepSteps(ls: LeaseState, os: OwnerState, ev: OwnerEvent, seat: Seat)
    requires OwnerEnabled(ls, os, ev) && !(OwnStep(ev) && ev.seat == seat)
    requires seat in os.calls && seat in OwnerNext(ls, os, ev).calls && StepsLeft(os.calls[seat]) >= 0
    requires WithinBounds(os.calls[seat])
    ensures WithinBounds(OwnerNext(ls, os, ev).calls[seat])
    ensures 0 <= StepsLeft(OwnerNext(ls, os, ev).calls[seat]) <= StepsLeft(os.calls[seat])
  {
    if Bystander(ev, seat) {
      BystanderFrame(ls, os, ev, seat);
    }
  }

  lemma StepSpends(g: TicksPerMs, st: State, ev: Event, seat: Seat)
    requires seat in st.own.calls && seat in Step(g, st, ev).own.calls
    requires WithinBounds(st.own.calls[seat]) && 0 <= StepsLeft(st.own.calls[seat]) <= 21
    ensures WithinBounds(Step(g, st, ev).own.calls[seat])
    ensures var own := ev.OnOwner? && OwnStep(ev.oe) && ev.oe.seat == seat && OwnerEnabled(st.lease, st.own, ev.oe);
            0 <= StepsLeft(Step(g, st, ev).own.calls[seat])
              <= StepsLeft(st.own.calls[seat]) - if own then 1 else 0
  {
    if ev.OnOwner? && OwnerEnabled(st.lease, st.own, ev.oe) {
      if OwnStep(ev.oe) && ev.oe.seat == seat {
        OwnStepsRunOut(st.lease, st.own, ev.oe);
      } else {
        OthersKeepSteps(st.lease, st.own, ev.oe, seat);
      }
    }
  }

  /**
   From its start a resolution takes at most 21 steps of its own, whatever the others do:
   three rounds, each with two reads and a decision, one write and three read-backs.
   */
  lemma {:induction false} ResolveIsBounded(g: TicksPerMs, run: Run, seat: Seat, i: nat, j: nat)
    requires i <= j <= |run|
    requires forall k: nat {:trigger StateAt(g, run, k)} :: i <= k <= j ==> seat in StateAt(g, run, k).own.calls
    requires StateAt(g, run, i).own.calls[seat] == ReadingOwner(0)
    ensures var call := StateAt(g, run, j).own.calls[seat];
            WithinBounds(call) && 0 <= StepsLeft(call) && OwnSteps(g, run, seat, i, j) + StepsLeft(call) <= 21
    decreases j
  {
    if i < j {
      ResolveIsBounded(g, run, seat, i, j - 1);
      assert StateAt(g, run, j) == Step(g, StateAt(g, run, j - 1), run[j - 1]);
      assert seat in StateAt(g, run, j).own.calls && seat in StateAt(g, run, j - 1).own.calls;
      StepSpends(g, StateAt(g, run, j - 1), run[j - 1], seat);
    }
  }

  // A claim that stands is answered by Local.

  /** A claim that landed and still stands when it is read back ends in Local, at every instant of every run. */
  lemma StandingClaimIsLocal(g: TicksPerMs, run: Run, j: nat, seat: Seat)
    requires j < |run| && run[j] == OnOwner(ClaimReadBack(seat))
    requires var st := StateAt(g, run, j);
             && OwnerEnabled(st.lease, st.own, ClaimReadBack(seat))
             && seat.a in st.own.owners && st.own.owners[seat.a] == st.own.ops[st.own.calls[seat].op].record
    ensures var st' := StateAt(g, run, j + 1);
            && seat in st'.own.calls && st'.own.calls[seat] == Local
            && OwnerEnabled(st'.lease, st'.own, Dispatch(seat))
  {
    var st := StateAt(g, run, j);
    ReadBackOutcome(st.lease, st.own, seat);
    assert StateAt(g, run, j + 1) == Step(g, st, run[j]);
  }
}
