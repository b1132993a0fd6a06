/**
 `NodeAuthority`, the bounded read-back of a lease write whose outcome is unknown, and
 the renewal loop, on fields that change in place.

 Instants are monotonic ticks.  What the loop observes in one turn is a `Round`: when it
 woke, when the operation started and was answered, and with what.
 */
module NodeAuthority {
  import opened Coordination
  import opened NodeLease

  class Authority {
    var valid: bool
    var deadline: nat
    const ttl: nat
    /** How often the fencing signal was sent. */
    var notices: nat

    constructor (started: nat, ttl: nat)
      ensures valid && deadline == started + ttl && this.ttl == ttl && notices == 0
    {
      valid, deadline, notices := true, started + ttl, 0;
      this.ttl := ttl;
    }

    predicate IsValid(now: nat)
      reads this
    {
      valid && now < deadline
    }

    /** The time left, or nothing once the deadline has passed. */
    function Remaining(now: nat): (left: Option<nat>)
      reads this
      ensures left.Some? <==> now <= deadline
      ensures left.Some? ==> now + left.value == deadline
    {
      if now <= deadline then Some(deadline - now) else None
    }

    /** The authority, unless fenced, now lasts for the ttl from the start of the operation that renewed it. */
    method Renew(started: nat)
      modifies this`deadline
      ensures forall now :: started <= now ==> (IsValid(now) <==> valid && now - started < ttl)
      ensures deadline == started + ttl
    {
      deadline := started + ttl;
    }

    /** Fencing is final and signalled exactly once. */
    method Fence()
      modifies this`valid, this`notices
      ensures !valid && notices == old(notices) + if old(valid) then 1 else 0
    {
      if valid {
        notices := notices + 1;
      }
      valid := false;
    }
  }

  /** One read-back: when it was about to be sent, and the unexpired lease it returned, if any. */
  datatype ReadBack = ReadBack(now: nat, seen: Option<Lease>)

  /** The read-back shows this session's latest write. */
  predicate Confirms(read: ReadBack, session: SessionId, generation: nat) {
    read.seen.Some? && read.seen.value.session == session && read.seen.value.generation == generation
  }

  /**
   At most three read-backs, none begun after the deadline: the result is the first that
   confirms, and there is none exactly if all three fail or the deadline passes first.
   */
  method ConfirmNodeLease(session: SessionId, generation: nat, deadline: nat, readBacks: seq<ReadBack>)
    returns (confirmed: Option<Lease>, used: nat)
    requires |readBacks| == LEASE_READ_BACKS
    ensures used <= |readBacks|
    ensures forall i :: 0 <= i < used ==> readBacks[i].now <= deadline
    ensures forall i :: 0 <= i < used - 1 ==> !Confirms(readBacks[i], session, generation)
    ensures confirmed.Some? <==> used > 0 && Confirms(readBacks[used - 1], session, generation)
    ensures confirmed.Some? ==> confirmed == readBacks[used - 1].seen
    ensures confirmed.None? ==> used == |readBacks| || readBacks[used].now > deadline
  {
    used := 0;
    while used < LEASE_READ_BACKS
      invariant used <= |readBacks|
      invariant forall i :: 0 <= i < used ==>
                              readBacks[i].now <= deadline && !Confirms(readBacks[i], session, generation)
    {
      var read := readBacks[used];
      if read.now > deadline {
        return None, used;
      }
      used := used + 1;
      if Confirms(read, session, generation) {
        return read.seen, used;
      }
    }
    confirmed := None;
  }

  datatype Response =
    | Applied(revision: Lease)
    | Indeterminate(readBacks: seq<ReadBack>)
    | Conflict
    | Failed

  datatype Round = Round(stop: bool, woken: nat, started: nat, measured: nat, answered: nat, response: Response)

  /** All read-backs are accounted for, and clocks do not run backwards within the round. */
  predicate Complete(round: Round) {
    && round.woken <= round.started <= round.measured <= round.answered
    && (round.response.Indeterminate? ==>
          && |round.response.readBacks| == LEASE_READ_BACKS
          && forall i, j :: 0 <= i <= j < LEASE_READ_BACKS ==>
                              round.response.readBacks[i].now <= round.response.readBacks[j].now)
  }

  // The same turn on the session as the lease protocol sees it.

  /** `RenewStart`: the next generation is sent. */
  function Begun(ss: NodeSession, op: nat, started: nat): NodeSession {
    ss.(generation := ss.generation + 1, renewal := Awaiting(op, started))
  }

  /** `RenewConfirm` and `RenewReadFails`, until the read-backs settle the write or are used up. */
  function ReadBackAll(ss: NodeSession, s: SessionId, readBacks: seq<ReadBack>): NodeSession
    decreases |readBacks|
  {
    if readBacks == [] || !ss.renewal.Confirming? then ss
    else if readBacks[0].now > ss.deadline then FencedOff(ss)
    else if Confirms(readBacks[0], s, ss.generation) then Renewed(ss, readBacks[0].seen.value, ss.renewal.started)
    else ReadBackAll(Unconfirmed(ss), s, readBacks[1..])
  }

  function Answered(ss: NodeSession, s: SessionId, answered: nat, response: Response): NodeSession
    requires ss.renewal.Awaiting?
  {
    match response
    case Applied(revision) => Renewed(ss, revision, ss.renewal.started)
    case Indeterminate(readBacks) =>
      ReadBackAll(ss.(renewal := Confirming(ss.renewal.op, ss.renewal.started, 0)), s, readBacks)
    case Conflict => FencedOff(ss)
    case Failed => if ss.valid && answered < ss.deadline then ss.(renewal := Sleeping) else FencedOff(ss)
  }

  /** One turn of the loop; a lapse noticed before the write is sent fences without sending it. */
  function Turn(ss: NodeSession, s: SessionId, op: nat, round: Round): NodeSession {
    if round.stop then ss.(renewal := Exited, released := true)
    else if !(ss.valid && round.woken < ss.deadline) || round.measured > ss.deadline then FencedOff(ss)
    else Answered(Begun(ss, op, round.started), s, round.answered, round.response)
  }

  /** All turns until the renewal task exits; `ops` numbers the writes of the successive turns. */
  function Turns(ss: NodeSession, s: SessionId, ops: seq<nat>, rounds: seq<Round>): NodeSession
    requires |ops| == |rounds|
    decreases |rounds|
  {
    if rounds == [] || ss.renewal.Exited? then ss
    else Turns(Turn(ss, s, ops[0], rounds[0]), s, ops[1..], rounds[1..])
  }

  /** Where the read-backs lead when the first `used` of them do not confirm. */
  lemma {:induction false} ReadBacksSettle(ss: NodeSession, s: SessionId, readBacks: seq<ReadBack>, used: nat)
    requires ss.renewal.Confirming? && ss.renewal.tries + |readBacks| == LEASE_READ_BACKS && used <= |readBacks|
    requires |readBacks| > 0
    requires forall i :: 0 <= i < used ==> readBacks[i].now <= ss.deadline && !Confirms(readBacks[i], s, ss.generation)
    ensures used == |readBacks| ==> ReadBackAll(ss, s, readBacks) == FencedOff(ss)
    ensures used < |readBacks| && readBacks[used].now > ss.deadline ==> ReadBackAll(ss, s, readBacks) == FencedOff(ss)
    ensures used < |readBacks| && readBacks[used].now <= ss.deadline && Confirms(readBacks[used], s, ss.generation) ==>
              ReadBackAll(ss, s, readBacks) == Renewed(ss, readBacks[used].seen.value, ss.renewal.started)
    decreases |readBacks|
  {
    if used > 0 && |readBacks| > 1 {
      ReadBacksSettle(Unconfirmed(ss), s, readBacks[1..], used - 1);
    }
  }

  // Turns as runs of the lease protocol.

  /** An event, and the state of the cluster in which it happens. */
  datatype Moment = Moment(st: LeaseState, ev: LeaseEvent)

  /** What the event makes of the session of `s`, if that is `ss` in the state; a disabled event does nothing. */
  function Locally(g: TicksPerMs, s: SessionId, ss: NodeSession, moment: Moment): NodeSession {
    var st := SetSession(moment.st, s, ss);
    if LeaseEnabled(st, moment.ev) && s in LeaseNext(g, st, moment.ev).sessions
    then LeaseNext(g, st, moment.ev).sessions[s]
    else ss
  }

  function AllLocally(g: TicksPerMs, s: SessionId, ss: NodeSession, moments: seq<Moment>): NodeSession
    decreases |moments|
  {
    if moments == [] then ss else AllLocally(g, s, Locally(g, s, ss, moments[0]), moments[1..])
  }

  /** The protocol event of one read-back: it shows what the store had, or it fails. */
  predicate PlaysRead(ss: NodeSession, s: SessionId, read: ReadBack, moment: Moment) {
    if read.now <= ss.deadline && Confirms(read, s, ss.generation)
    then && moment.ev.RenewConfirm? && moment.ev.s == s
         && Visible(Lookup(moment.st.stored, ss.node), moment.ev.wall) == read.seen
    else moment.ev == RenewReadFails(s)
  }

  /** The protocol events of an answer, in states that bear it out. */
  predicate PlaysAnswer(ss: NodeSession, s: SessionId, op: nat, round: Round, moments: seq<Moment>) {
    && moments != [] && moments[0].st.now == round.answered
    && match round.response
       case Applied(revision) =>
         && |moments| == 1 && moments[0].ev == RenewApplied(s)
         && Delivered(moments[0].st, op) && moments[0].st.ops[op].lease == revision
       case Conflict => |moments| == 1 && moments[0].ev == RenewConflict(s)
       case Failed => |moments| == 1 && moments[0].ev == RenewError(s)
       case Indeterminate(readBacks) =>
         && moments[0].ev == RenewIndeterminate(s) && |moments| == 1 + |readBacks|
         && forall i :: 0 <= i < |readBacks| ==> PlaysRead(ss, s, readBacks[i], moments[1 + i])
  }

  /**
   The protocol events of one turn of session `ss`: a release once the server has stopped;
   the lapse that fences; or the write, sent as the `op`-th of the cluster, and its answer.
   Everyone else may do anything in between: no other event touches the session.
   */
  predicate Plays(ss: NodeSession, s: SessionId, op: nat, round: Round, moments: seq<Moment>) {
    && moments != []
    && if round.stop then
         |moments| == 1 && moments[0].ev == ReleaseLease(s) && ss.status.Stopped?
       else if !(ss.valid && round.woken < ss.deadline) then
         |moments| == 1 && moments[0].ev == RenewLapse(s) && moments[0].st.now == round.woken
       else if round.measured > ss.deadline then
         |moments| == 1 && moments[0].ev == RenewLapse(s) && moments[0].st.now == round.measured
       else
         && moments[0].ev.RenewStart? && moments[0].ev.s == s
         && moments[0].st.now == round.started && |moments[0].st.ops| == op
         && PlaysAnswer(Begun(ss, op, round.started), s, op, round, moments[1..])
  }

  lemma {:induction false} ReadsAreSteps(
    g: TicksPerMs, ss: NodeSession, s: SessionId, readBacks: seq<ReadBack>, moments: seq<Moment>)
    requires ss.renewal.Confirming? && ss.renewal.tries + |readBacks| == LEASE_READ_BACKS
    requires |moments| == |readBacks|
    requires forall i, j :: 0 <= i <= j < |readBacks| ==> readBacks[i].now <= readBacks[j].now
    requires forall i :: 0 <= i < |readBacks| ==> PlaysRead(ss, s, readBacks[i], moments[i])
    ensures AllLocally(g, s, ss, moments) == ReadBackAll(ss, s, readBacks)
    decreases |readBacks|
  {
    if readBacks != [] {
      var next := Locally(g, s, ss, moments[0]);
      assert PlaysRead(ss, s, readBacks[0], moments[0]);
      if readBacks[0].now > ss.deadline {
        LateReadsFence(g, ss, s, readBacks, moments);
      } else if Confirms(readBacks[0], s, ss.generation) {
        SettledIgnoresReads(g, next, s, ss, readBacks[1..], moments[1..]);
      } else if next.renewal.Confirming? {
        ReadsAreSteps(g, next, s, readBacks[1..], moments[1..]);
      }
    }
  }

  /** Once the deadline has passed, every read-back of the protocol fails, and the last one fences. */
  lemma {:induction false} LateReadsFence(
    g: TicksPerMs, ss: NodeSession, s: SessionId, readBacks: seq<ReadBack>, moments: seq<Moment>)
    requires ss.renewal.Confirming? && ss.renewal.tries + |readBacks| == LEASE_READ_BACKS && readBacks != []
    requires |moments| == |readBacks|
    requires forall i :: 0 <= i < |readBacks| ==> readBacks[i].now > ss.deadline
    requires forall i :: 0 <= i < |readBacks| ==> PlaysRead(ss, s, readBacks[i], moments[i])
    ensures AllLocally(g, s, ss, moments) == FencedOff(ss)
    decreases |readBacks|
  {
    assert PlaysRead(ss, s, readBacks[0], moments[0]);
    assert Locally(g, s, ss, moments[0]) == Unconfirmed(ss);
    if |readBacks| > 1 {
      LateReadsFence(g, Unconfirmed(ss), s, readBacks[1..], moments[1..]);
    }
  }

  /** A read-back that comes after the write was settled does nothing. */
  lemma {:induction false} SettledIgnoresReads(
    g: TicksPerMs, ss: NodeSession, s: SessionId, asked: NodeSession, readBacks: seq<ReadBack>, moments: seq<Moment>)
    requires !ss.renewal.Confirming? && |moments| == |readBacks|
    requires forall i :: 0 <= i < |readBacks| ==> PlaysRead(asked, s, readBacks[i], moments[i])
    ensures AllLocally(g, s, ss, moments) == ss
    decreases |readBacks|
  {
    if readBacks != [] {
      assert PlaysRead(asked, s, readBacks[0], moments[0]);
      SettledIgnoresReads(g, ss, s, asked, readBacks[1..], moments[1..]);
    }
  }

  lemma AnswerIsSteps(g: TicksPerMs, ss: NodeSession, s: SessionId, op: nat, round: Round, moments: seq<Moment>)
    requires ss.renewal.Awaiting? && ss.renewal.op == op && Complete(round)
    requires PlaysAnswer(ss, s, op, round, moments)
    ensures AllLocally(g, s, ss, moments) == Answered(ss, s, round.answered, round.response)
  {
    if round.response.Indeterminate? {
      var confirming := ss.(renewal := Confirming(op, ss.renewal.started, 0));
      assert Locally(g, s, ss, moments[0]) == confirming;
      forall i | 0 <= i < |round.response.readBacks|
        ensures PlaysRead(confirming, s, round.response.readBacks[i], moments[1..][i])
      {
        assert PlaysRead(ss, s, round.response.readBacks[i], moments[1 + i]);
      }
      ReadsAreSteps(g, confirming, s, round.response.readBacks, moments[1..]);
    } else {
      assert moments[1..] == [];
      assert AllLocally(g, s, ss, moments) == Locally(g, s, ss, moments[0]);
    }
  }

  /** One turn of the loop is a run of this session's own protocol events, whatever others do meanwhile. */
  lemma TurnIsSteps(g: TicksPerMs, ss: NodeSession, s: SessionId, op: nat, round: Round, moments: seq<Moment>)
    requires ss.renewal.Sleeping? && Complete(round) && Plays(ss, s, op, round, moments)
    ensures AllLocally(g, s, ss, moments) == Turn(ss, s, op, round)
  {
    var first := Locally(g, s, ss, moments[0]);
    assert AllLocally(g, s, ss, moments) == AllLocally(g, s, first, moments[1..]);
    if |moments| == 1 {
      assert moments[1..] == [];
    } else {
      assert first == Begun(ss, op, round.started);
      AnswerIsSteps(g, first, s, op, round, moments[1..]);
    }
  }

  /** The scenes play the turns one after the other, until the renewal task exits. */
  ghost predicate PlaysAll(ss: NodeSession, s: SessionId, ops: seq<nat>, rounds: seq<Round>, scenes: seq<seq<Moment>>)
    requires |ops| == |rounds| == |scenes|
    decreases |rounds|
  {
    rounds != [] && !ss.renewal.Exited? ==>
      && Plays(ss, s, ops[0], rounds[0], scenes[0])
      && PlaysAll(Turn(ss, s, ops[0], rounds[0]), s, ops[1..], rounds[1..], scenes[1..])
  }

  /** The session after all scenes; nothing is played to a renewal task that has exited. */
  function ScenesLocally(g: TicksPerMs, s: SessionId, ss: NodeSession, scenes: seq<seq<Moment>>): NodeSession
    decreases |scenes|
  {
    if scenes == [] || ss.renewal.Exited? then ss
    else ScenesLocally(g, s, AllLocally(g, s, ss, scenes[0]), scenes[1..])
  }

  /** After a turn the renewal task sleeps or has exited. */
  lemma TurnSettles(ss: NodeSession, s: SessionId, op: nat, round: Round)
    requires ss.renewal.Sleeping? && Complete(round)
    ensures Turn(ss, s, op, round).renewal.Sleeping? || Turn(ss, s, op, round).renewal.Exited?
  {
    if !round.stop && ss.valid && round.woken < ss.deadline && round.measured <= ss.deadline
       && round.response.Indeterminate? {
      var confirming := Begun(ss, op, round.started).(renewal := Confirming(op, round.started, 0));
      ReadsSettle(confirming, s, round.response.readBacks);
    }
  }

  lemma {:induction false} ReadsSettle(ss: NodeSession, s: SessionId, readBacks: seq<ReadBack>)
    requires ss.renewal.Confirming? && ss.renewal.tries + |readBacks| == LEASE_READ_BACKS && readBacks != []
    ensures ReadBackAll(ss, s, readBacks).renewal.Sleeping? || ReadBackAll(ss, s, readBacks).renewal.Exited?
    decreases |readBacks|
  {
    if |readBacks| > 1 {
      ReadsSettle(ss.(renewal := ss.renewal.(tries := ss.renewal.tries + 1)), s, readBacks[1..]);
    }
  }

  /** The whole loop is a run of this session's own protocol events. */
  lemma {:induction false} TurnsAreSteps(
    g: TicksPerMs, ss: NodeSession, s: SessionId, ops: seq<nat>, rounds: seq<Round>, scenes: seq<seq<Moment>>)
    requires |ops| == |rounds| == |scenes| && PlaysAll(ss, s, ops, rounds, scenes)
    requires ss.renewal.Sleeping? || ss.renewal.Exited?
    requires forall i :: 0 <= i < |rounds| ==> Complete(rounds[i])
    ensures ScenesLocally(g, s, ss, scenes) == Turns(ss, s, ops, rounds)
    decreases |rounds|
  {
    if rounds != [] && !ss.renewal.Exited? {
      TurnIsSteps(g, ss, s, ops[0], rounds[0], scenes[0]);
      TurnSettles(ss, s, ops[0], rounds[0]);
      TurnsAreSteps(g, Turn(ss, s, ops[0], rounds[0]), s, ops[1..], rounds[1..], scenes[1..]);
    }
  }

  datatype Exit = Looping | Released | SelfFenced

  /**
   The renewal loop does to the session what `Turns` does, hence what the lease protocol's
   own events do (`TurnsAreSteps`).  It ends asking for release and still valid, or fenced,
   and the fencing is signalled exactly once.
   */
  method RenewalLoop(
    authority: Authority, s: SessionId, ghost ss: NodeSession, ghost ops: seq<nat>, generation0: nat, revision0: Lease,
    rounds: seq<Round>)
    returns (exit: Exit, generation: nat, revision: Lease)
    requires authority.valid && authority.deadline == ss.deadline && authority.ttl == ss.ttl
    requires ss.valid && ss.renewal.Sleeping? && !ss.released
    requires generation0 == ss.generation && revision0 == ss.revision && |ops| == |rounds|
    requires forall i :: 0 <= i < |rounds| ==> Complete(rounds[i])
    modifies authority
    ensures var after := Turns(ss, s, ops, rounds);
            && after == ss.(valid := authority.valid, deadline := authority.deadline, revision := revision,
                            generation := after.generation, released := exit.Released?,
                            renewal := if exit.Looping? then Sleeping else Exited)
            && (!exit.SelfFenced? ==> generation == after.generation)
    ensures authority.valid <==> !exit.SelfFenced?
    ensures authority.notices == old(authority.notices) + if exit.SelfFenced? then 1 else 0
  {
    generation, revision := generation0, revision0;
    ghost var now := ss;
    for i := 0 to |rounds|
      invariant authority.valid && authority.notices == old(authority.notices)
      invariant now == ss.(deadline := authority.deadline, generation := generation, revision := revision)
      invariant Turns(ss, s, ops, rounds) == Turns(now, s, ops[i..], rounds[i..])
    {
      var round := rounds[i];
      assert rounds[i..][0] == round && rounds[i..][1..] == rounds[i + 1..] && ops[i..][1..] == ops[i + 1..];
      ghost var before := now;
      now := Turn(now, s, ops[i], round);
      if round.stop {
        return Released, generation, revision;
      }
      if !authority.IsValid(round.woken) {
        authority.Fence();
        return SelfFenced, generation, revision;
      }
      generation := generation + 1;
      if authority.Remaining(round.measured) == None {
        authority.Fence();
        return SelfFenced, generation, revision;
      }
      match round.response {
        case Applied(next) =>
          revision := next;
          authority.Renew(round.started);
        case Indeterminate(readBacks) =>
          var confirmed, used := ConfirmNodeLease(s, generation, authority.deadline, readBacks);
          ghost var confirming := Begun(before, ops[i], round.started).(
                                    renewal := Confirming(ops[i], round.started, 0));
          ReadBacksSettle(confirming, s, readBacks, if confirmed == None then used else used - 1);
          if confirmed == None {
            authority.Fence();
            return SelfFenced, generation, revision;
          }
          revision := confirmed.value;
          authority.Renew(round.started);
        case Conflict =>
          authority.Fence();
          return SelfFenced, generation, revision;
        case Failed =>
          if !authority.IsValid(round.answered) {
            authority.Fence();
            return SelfFenced, generation, revision;
          }
      }
    }
    exit := Looping;
  }
}
