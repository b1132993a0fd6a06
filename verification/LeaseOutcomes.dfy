/**
 What each step of a lease's acquisition, renewal and release leads to, in terms of what
 the store and the process hold before it; and that a server which starts undisturbed on a
 free node comes into service, also when the answer to its write is lost.
 */
module LeaseOutcomes {
  import opened Coordination
  import opened NodeLease

  /** The start goes on in this phase, and nothing else changes. */
  predicate Starting(ls: LeaseState, ls': LeaseState, s: SessionId, phase: StartPhase)
    requires s in ls.starts
  {
    ls' == ls.(starts := ls.starts[s := ls.starts[s].(phase := phase)])
  }

  /** The start is over, and its session is in service from its first generation. */
  predicate ComesIntoService(ls: LeaseState, ls': LeaseState, s: SessionId, revision: Lease)
    requires s in ls.starts
  {
    var Start(node, ttl, started, _) := ls.starts[s];
    var session := NodeSession(node, ttl, true, started + ttl, Running, revision.generation, revision, Sleeping, false);
    ls' == ls.(starts := ls.starts[s := ls.starts[s].(phase := Done)], sessions := ls.sessions[s := session])
  }

  /** A confirmed acquisition serves exactly if its ttl, counted from its start, has not run out. */
  predicate ServesInTime(ls: LeaseState, ls': LeaseState, s: SessionId, revision: Lease)
    requires s in ls.starts
  {
    if ls.now < ls.starts[s].started + ls.starts[s].ttl then ComesIntoService(ls, ls', s, revision)
    else Starting(ls, ls', s, Done)
  }

  /** An acquisition is given up for an unexpired lease, and otherwise conditional on what was fetched. */
  lemma AcquirePutOutcome(g: TicksPerMs, ls: LeaseState, s: SessionId, wallTest: nat, wallPut: nat)
    requires s in ls.starts && ls.starts[s].phase.Fetched?
    ensures LeaseEnabled(ls, AcquirePut(s, wallTest, wallPut))
    ensures var ls' := LeaseNext(g, ls, AcquirePut(s, wallTest, wallPut));
            var found := ls.starts[s].phase.found;
            if found.Some? && wallTest < found.value.expires then Starting(ls, ls', s, Done)
            else
              && |ls'.ops| == |ls.ops| + 1 && ls'.ops[|ls.ops|].Put?
              && Starting(ls.(ops := ls'.ops), ls', s, AwaitingPut(|ls.ops|))
              && ls'.ops[..|ls.ops|] == ls.ops
              && var Put(session, node, condition, lease) := ls'.ops[|ls.ops|];
                 && session == s && node == ls.starts[s].node && lease.session == s && lease.generation == 0
                 && condition == if found.Some? then IfMatch(found.value) else IfAbsent
  {
  }

  lemma AcquireReadOutcome(g: TicksPerMs, ls: LeaseState, s: SessionId)
    requires s in ls.starts && ls.starts[s].phase == Reading
    ensures LeaseEnabled(ls, AcquireRead(s))
    ensures var node := ls.starts[s].node;
            Starting(ls, LeaseNext(g, ls, AcquireRead(s)), s,
                     Fetched(if node in ls.stored then Some(ls.stored[node]) else None))
  {
  }

  /**
   The answers to an acquisition: applied serves in time; lost is read back up to three
   times, and serves if found.
   */
  lemma AcquireAnswerOutcome(g: TicksPerMs, ls: LeaseState, s: SessionId)
    requires s in ls.starts
    ensures LeaseEnabled(ls, AcquireApplied(s)) <==>
              var phase := ls.starts[s].phase;
              phase.AwaitingPut? && phase.op in ls.landed && phase.op < |ls.ops| && ls.ops[phase.op].Put?
    ensures LeaseEnabled(ls, AcquireIndeterminate(s)) <==> ls.starts[s].phase.AwaitingPut?
    ensures LeaseEnabled(ls, AcquireFail(s)) <==> ls.starts[s].phase != Done
    ensures LeaseEnabled(ls, AcquireApplied(s)) ==>
              ServesInTime(ls, LeaseNext(g, ls, AcquireApplied(s)), s, ls.ops[ls.starts[s].phase.op].lease)
    ensures LeaseEnabled(ls, AcquireIndeterminate(s)) ==>
              Starting(ls, LeaseNext(g, ls, AcquireIndeterminate(s)), s, ConfirmingPut(ls.starts[s].phase.op, 0))
    ensures LeaseEnabled(ls, AcquireFail(s)) ==> Starting(ls, LeaseNext(g, ls, AcquireFail(s)), s, Done)
  {
  }

  lemma AcquireConfirmOutcome(g: TicksPerMs, ls: LeaseState, s: SessionId, wall: nat)
    requires s in ls.starts && ls.starts[s].phase.ConfirmingPut?
    ensures LeaseEnabled(ls, AcquireConfirm(s, wall))
    ensures var ls' := LeaseNext(g, ls, AcquireConfirm(s, wall));
            var Start(node, _, _, phase) := ls.starts[s];
            if node in ls.stored && wall < ls.stored[node].expires && ls.stored[node].session == s
               && ls.stored[node].generation == 0
            then ServesInTime(ls, ls', s, ls.stored[node])
            else Starting(ls, ls', s, if phase.tries < 2 then ConfirmingPut(phase.op, phase.tries + 1) else Done)
  {
  }

  /** A renewal is sent under the revision last adopted, with the next generation. */
  lemma RenewStartOutcome(g: TicksPerMs, ls: LeaseState, s: SessionId, wall: nat)
    requires s in ls.sessions && ls.sessions[s].valid && ls.now <= ls.sessions[s].deadline
    requires ls.sessions[s].renewal == Sleeping
    ensures LeaseEnabled(ls, RenewStart(s, wall))
    ensures var ls' := LeaseNext(g, ls, RenewStart(s, wall));
            var ss := ls.sessions[s];
            && |ls'.ops| == |ls.ops| + 1 && ls'.ops[..|ls.ops|] == ls.ops && ls'.ops[|ls.ops|].Put?
            && ls' == ls.(ops := ls'.ops, sessions := ls.sessions[s := ss.(
                            generation := ss.generation + 1, renewal := Awaiting(|ls.ops|, ls.now))])
            && var Put(session, node, condition, lease) := ls'.ops[|ls.ops|];
               && session == s && node == ss.node && condition == IfMatch(ss.revision)
               && lease.session == s && lease.generation == ss.generation + 1
  {
  }

  /** When a session's steps can be taken: each status, and each place of the renewal task below, has its own. */
  lemma SessionGuards(ls: LeaseState, s: SessionId, node: NodeId, ttl: nat, ticks: nat)
    ensures LeaseEnabled(ls, Tick(ticks)) && (LeaseEnabled(ls, StartSession(s, node, ttl)) <==> s !in ls.starts)
    ensures s in ls.sessions ==>
              var ss := ls.sessions[s];
              && (LeaseEnabled(ls, FenceRuntime(s)) <==> !ss.valid)
              && (LeaseEnabled(ls, BeginShutdown(s)) <==> ss.status == Running)
              && (LeaseEnabled(ls, FinishShutdown(s)) <==> ss.status != Running)
              && (LeaseEnabled(ls, ReleaseLease(s)) <==> ss.status == Stopped && ss.renewal == Sleeping)
  {
  }

  lemma RenewalGuards(ls: LeaseState, s: SessionId)
    ensures s in ls.sessions ==>
              var ss := ls.sessions[s];
              var unfenced := ss.valid && ls.now < ss.deadline;
              && (LeaseEnabled(ls, RenewApplied(s)) <==>
                    && ss.renewal.Awaiting? && ss.renewal.op in ls.landed && ss.renewal.op < |ls.ops|
                    && ls.ops[ss.renewal.op].Put?)
              && (LeaseEnabled(ls, RenewIndeterminate(s)) <==> ss.renewal.Awaiting?)
              && (LeaseEnabled(ls, RenewConflict(s)) <==> ss.renewal.Awaiting?)
              && (LeaseEnabled(ls, RenewError(s)) <==> ss.renewal.Awaiting?)
              && (LeaseEnabled(ls, RenewLapse(s)) <==> ss.renewal == Sleeping && !unfenced)
  {
  }

  /** The answers to a renewal, and what else happens to a session, each touch that session only. */
  lemma SessionOutcome(g: TicksPerMs, ls: LeaseState, ev: LeaseEvent, s: SessionId)
    requires LeaseEnabled(ls, ev) && s in ls.sessions
    ensures var ss := ls.sessions[s];
            var ls' := LeaseNext(g, ls, ev);
            var fenced := ss.(valid := false, renewal := Exited);
            match ev
            case RenewApplied(t) => t == s ==>
              var lease := ls.ops[ss.renewal.op].lease;
              ls' == ls.(sessions := ls.sessions[s := ss.(
                           revision := lease, deadline := ss.renewal.started + ss.ttl, renewal := Sleeping)])
            case RenewIndeterminate(t) => t == s ==>
              ls' == ls.(sessions := ls.sessions[s := ss.(
                           renewal := Confirming(ss.renewal.op, ss.renewal.started, 0))])
            case RenewConflict(t) => t == s ==> ls' == ls.(sessions := ls.sessions[s := fenced])
            case RenewLapse(t) => t == s ==> ls' == ls.(sessions := ls.sessions[s := fenced])
            case RenewError(t) => t == s ==>
              ls' == ls.(sessions := ls.sessions[s :=
                           if ss.valid && ls.now < ss.deadline then ss.(renewal := Sleeping) else fenced])
            case RenewReadFails(t) => t == s ==>
              ls' == ls.(sessions := ls.sessions[s :=
                           if ss.renewal.tries < 2 then ss.(renewal := ss.renewal.(tries := ss.renewal.tries + 1))
                           else fenced])
            case FenceRuntime(t) => t == s ==> ls' == ls.(sessions := ls.sessions[s := ss.(status := Fenced)])
            case BeginShutdown(t) => t == s ==> ls' == ls.(sessions := ls.sessions[s := ss.(status := ShuttingDown)])
            case FinishShutdown(t) => t == s ==> ls' == ls.(sessions := ls.sessions[s := ss.(status := Stopped)])
            case ReleaseLease(t) => t == s ==>
              ls' == ls.(sessions := ls.sessions[s := ss.(renewal := Exited, released := true)],
                         ops := ls.ops + [Delete(s, ss.node, ss.revision)])
            case _ => true
  {
  }

  /** A read-back of a renewal adopts exactly the unexpired lease of this session's latest generation. */
  lemma RenewConfirmOutcome(g: TicksPerMs, ls: LeaseState, s: SessionId, wall: nat)
    requires s in ls.sessions && ls.sessions[s].renewal.Confirming?
    ensures LeaseEnabled(ls, RenewConfirm(s, wall)) && LeaseEnabled(ls, RenewReadFails(s))
    ensures var ss := ls.sessions[s];
            var ls' := LeaseNext(g, ls, RenewConfirm(s, wall));
            if ss.node in ls.stored && wall < ls.stored[ss.node].expires && ls.stored[ss.node].session == s
               && ls.stored[ss.node].generation == ss.generation
            then ls' == ls.(sessions := ls.sessions[s := ss.(
                              revision := ls.stored[ss.node], deadline := ss.renewal.started + ss.ttl,
                              renewal := Sleeping)])
            else ls' == LeaseNext(g, ls, RenewReadFails(s))
  {
  }

  /** The store applies a lease write exactly if its condition holds; a release removes exactly its own revision. */
  lemma LeaseLandingOutcome(g: TicksPerMs, ls: LeaseState, id: nat)
    requires id < |ls.ops| && id !in ls.landed
    ensures LeaseEnabled(ls, LandLease(id))
    ensures var ls' := LeaseNext(g, ls, LandLease(id));
            match ls.ops[id]
            case Put(_, node, condition, lease) =>
              var holds := if condition == IfAbsent then node !in ls.stored
                           else node in ls.stored && ls.stored[node] == condition.revision;
              ls' == if holds then ls.(stored := ls.stored[node := lease], landed := ls.landed + {id}) else ls
            case Delete(_, node, revision) =>
              ls' == if node in ls.stored && ls.stored[node] == revision
                     then ls.(stored := ls.stored - {node}, landed := ls.landed + {id}) else ls
  {
  }

  // Coming into service.

  function StepAll(g: TicksPerMs, ls: LeaseState, evs: seq<LeaseEvent>): LeaseState
    decreases |evs|
  {
    if evs == [] then ls
    else StepAll(g, if LeaseEnabled(ls, evs[0]) then LeaseNext(g, ls, evs[0]) else ls, evs[1..])
  }

  /** The session serves: it is valid, running, and the store's lease for its node is its own. */
  predicate InService(ls: LeaseState, s: SessionId, node: NodeId) {
    && Admits(ls, s) && ls.sessions[s].node == node && node in ls.stored && ls.stored[node].session == s
  }

  lemma Cons(g: TicksPerMs, ls: LeaseState, ev: LeaseEvent, rest: seq<LeaseEvent>)
    requires LeaseEnabled(ls, ev)
    ensures StepAll(g, ls, [ev] + rest) == StepAll(g, LeaseNext(g, ls, ev), rest)
  {
    assert ([ev] + rest)[1..] == rest;
  }

  lemma Single(g: TicksPerMs, ls: LeaseState, ev: LeaseEvent)
    requires LeaseEnabled(ls, ev)
    ensures StepAll(g, ls, [ev]) == LeaseNext(g, ls, ev)
  {
    Cons(g, ls, ev, []);
    assert [ev] + [] == [ev];
  }

  /**
   The acquisition has landed in time; its answer arrives, or is lost and read back by a
   clock that shows it unexpired.
   */
  lemma LandedAcquisitionServes(g: TicksPerMs, ls: LeaseState, s: SessionId, wall: nat, lost: bool)
    requires s in ls.starts && ls.starts[s].phase.AwaitingPut?
    requires var Start(node, ttl, started, phase) := ls.starts[s];
             && ls.now < started + ttl && Delivered(ls, phase.op) && node in ls.stored
             && ls.stored[node] == ls.ops[phase.op].lease && ls.stored[node].session == s
             && ls.stored[node].generation == 0
             && wall < ls.stored[node].expires
    ensures var evs := if lost then [AcquireIndeterminate(s), AcquireConfirm(s, wall)] else [AcquireApplied(s)];
            InService(StepAll(g, ls, evs), s, ls.starts[s].node)
  {
    AcquireAnswerOutcome(g, ls, s);
    if lost {
      var confirming := LeaseNext(g, ls, AcquireIndeterminate(s));
      AcquireConfirmOutcome(g, confirming, s, wall);
      Cons(g, ls, AcquireIndeterminate(s), [AcquireConfirm(s, wall)]);
      Single(g, confirming, AcquireConfirm(s, wall));
    } else {
      Single(g, ls, AcquireApplied(s));
    }
  }

  lemma {:induction false} StepAllConcat(g: TicksPerMs, ls: LeaseState, first: seq<LeaseEvent>, rest: seq<LeaseEvent>)
    ensures StepAll(g, ls, first + rest) == StepAll(g, StepAll(g, ls, first), rest)
    decreases |first|
  {
    if first == [] {
      assert first + rest == rest;
    } else {
      assert (first + rest)[1..] == first[1..] + rest;
      StepAllConcat(g, if LeaseEnabled(ls, first[0]) then LeaseNext(g, ls, first[0]) else ls, first[1..], rest);
    }
  }

  function Acquisition(s: SessionId, node: NodeId, ttl: nat, op: nat, wallTest: nat, wallPut: nat): seq<LeaseEvent> {
    [StartSession(s, node, ttl), AcquireRead(s), AcquirePut(s, wallTest, wallPut), LandLease(op)]
  }

  /**
   A start on a node whose lease is absent or expired puts its own lease in the store,
   conditional on what it read.
   */
  lemma AcquisitionLands(
    g: TicksPerMs, ls: LeaseState, s: SessionId, node: NodeId, ttl: nat, wallTest: nat, wallPut: nat)
    requires s !in ls.starts && |ls.ops| !in ls.landed
    requires node in ls.stored ==> ls.stored[node].expires <= wallTest
    ensures var after := StepAll(g, ls, Acquisition(s, node, ttl, |ls.ops|, wallTest, wallPut));
            && s in after.starts && after.starts[s] == Start(node, ttl, ls.now, AwaitingPut(|ls.ops|))
            && after.now == ls.now
            && Delivered(after, |ls.ops|) && node in after.stored && after.stored[node] == after.ops[|ls.ops|].lease
            && after.stored[node].session == s && after.stored[node].generation == 0
            && after.stored[node].expires == wallPut + ttl / g
  {
    var reading := LeaseNext(g, ls, StartSession(s, node, ttl));
    AcquireReadOutcome(g, reading, s);
    var fetched := LeaseNext(g, reading, AcquireRead(s));
    AcquirePutOutcome(g, fetched, s, wallTest, wallPut);
    var sent := LeaseNext(g, fetched, AcquirePut(s, wallTest, wallPut));
    LeaseLandingOutcome(g, sent, |ls.ops|);
    Cons(g, ls, StartSession(s, node, ttl), [AcquireRead(s), AcquirePut(s, wallTest, wallPut), LandLease(|ls.ops|)]);
    Cons(g, reading, AcquireRead(s), [AcquirePut(s, wallTest, wallPut), LandLease(|ls.ops|)]);
    Cons(g, fetched, AcquirePut(s, wallTest, wallPut), [LandLease(|ls.ops|)]);
    Single(g, sent, LandLease(|ls.ops|));
  }

  /**
   A server that starts undisturbed on a node whose lease is absent or expired comes into
   service, whether the answer to its write arrives or is lost and read back in time.
   */
  lemma UndisturbedStartServes(
    g: TicksPerMs, ls: LeaseState, s: SessionId, node: NodeId, ttl: nat, wallTest: nat, wallPut: nat, wall: nat,
    lost: bool)
    requires s !in ls.starts && |ls.ops| !in ls.landed && ttl > 0 && wall < wallPut + ttl / g
    requires node in ls.stored ==> ls.stored[node].expires <= wallTest
    ensures var evs := if lost then [AcquireIndeterminate(s), AcquireConfirm(s, wall)] else [AcquireApplied(s)];
            InService(StepAll(g, ls, Acquisition(s, node, ttl, |ls.ops|, wallTest, wallPut) + evs), s, node)
  {
    var first := Acquisition(s, node, ttl, |ls.ops|, wallTest, wallPut);
    var evs := if lost then [AcquireIndeterminate(s), AcquireConfirm(s, wall)] else [AcquireApplied(s)];
    AcquisitionLands(g, ls, s, node, ttl, wallTest, wallPut);
    LandedAcquisitionServes(g, StepAll(g, ls, first), s, wall, lost);
    StepAllConcat(g, ls, first, evs);
  }
}
