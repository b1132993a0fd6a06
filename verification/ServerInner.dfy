/**
 The critical sections of `ServerInner` and of an Actor task as the code performs them,
 on fields that change in place.  Each is tied to the steps of module Runtime: dispatch to
 `Admit` and `Dispatch`, a delivery to an Active Actor to `SendClosed`, the drain to
 `ObserveShutdown` and `DrainOne`, the others to the step of their name.
 */
module ServerInner {
  import opened Coordination
  import opened Runtime
  import opened RuntimeProofs
  import opened RuntimeRuns

  /** All of `dispatch_message`: the authority and status checks, then the route-table lock. */
  function Dispatched(
    sv: Server, a: Address, message: Message, reserved: bool, authorized: bool, contended: bool): (Server, Outcome)
  {
    if !authorized then (GiveBack(sv, reserved), Refused(NodeFenced))
    else if !sv.status.Running? then (GiveBack(sv, reserved), Refused(StatusError(sv.status)))
    else DispatchLocked(sv, a, message, reserved, contended)
  }

  /** A dispatch that begins without authority, or once the server no longer runs, creates nothing. */
  lemma LateDispatchChangesNothing(
    sv: Server, a: Address, message: Message, reserved: bool, authorized: bool, contended: bool)
    requires !authorized || !sv.status.Running?
    ensures var (sv', outcome) := Dispatched(sv, a, message, reserved, authorized, contended);
            && outcome.Refused? && sv'.routes == sv.routes && sv'.tasks == sv.tasks && sv'.sessions == sv.sessions
            && sv'.permits == sv.permits + if reserved then 1 else 0
  {
  }

  function StageAfter(outcome: Outcome): Stage {
    match outcome
    case Accepted(gen) => Stage.Awaiting(gen)
    case Refused(error) => Rejected(error)
  }

  lemma TurnedAwayAtHead(sv: Server, c: nat, authorized: bool, contended: bool)
    requires IsOpening(sv, c, Registered) && !(authorized && sv.status.Running?)
    ensures var error := if authorized then StatusError(sv.status) else NodeFenced;
            Step(Step(sv, Admit(c, authorized)), Dispatch(c, contended))
            == GiveBack(SetCaller(sv, c, Opening(sv.callers[c].key, false, Rejected(error))), sv.callers[c].reserved)
  {
    var error := if authorized then StatusError(sv.status) else NodeFenced;
    assert Step(sv, Admit(c, authorized))
        == GiveBack(SetCaller(sv, c, Opening(sv.callers[c].key, false, Rejected(error))), sv.callers[c].reserved);
  }

  lemma DispatchFields(sv: Server, c: nat, contended: bool)
    requires IsOpening(sv, c, Admitted)
    ensures var Opening(key, reserved, _) := sv.callers[c];
            var (sv', outcome) := DispatchLocked(sv, key.a, SessionOpened(key.sid), reserved, contended);
            var after := Step(sv, Dispatch(c, contended));
            && after.routes == sv'.routes && after.tasks == sv'.tasks && after.permits == sv'.permits
            && after.nextGeneration == sv'.nextGeneration
            && after.callers == sv.callers[c := Opening(key, false, StageAfter(outcome))]
  {
    var Opening(key, reserved, _) := sv.callers[c];
    DispatchFrame(sv, key.a, SessionOpened(key.sid), reserved, contended);
    assert Step(sv, Dispatch(c, contended)) == AfterDispatch(sv, c, contended);
  }

  /** An admitted open's step under the route-table lock, on the state before it was admitted. */
  lemma AdmittedDispatch(sv: Server, c: nat, contended: bool)
    requires IsOpening(sv, c, Registered) && sv.status.Running?
    ensures var Opening(key, reserved, _) := sv.callers[c];
            var (sv', outcome) := DispatchLocked(sv, key.a, SessionOpened(key.sid), reserved, contended);
            var after := Step(Step(sv, Admit(c, true)), Dispatch(c, contended));
            && after.routes == sv'.routes && after.tasks == sv'.tasks && after.permits == sv'.permits
            && after.nextGeneration == sv'.nextGeneration
            && after.callers == sv.callers[c := Opening(key, false, StageAfter(outcome))]
  {
    var Opening(key, reserved, _) := sv.callers[c];
    var admitted := SetCaller(sv, c, Opening(key, reserved, Admitted));
    assert Step(sv, Admit(c, true)) == admitted;
    LockedIgnoresCallers(sv, admitted.callers, key.a, SessionOpened(key.sid), reserved, contended);
    DispatchFields(admitted, c, contended);
  }

  /** The steps `Admit` and `Dispatch` of an open, taken in a row, are one call of `dispatch_message`. */
  lemma AdmitThenDispatch(sv: Server, c: nat, authorized: bool, contended: bool)
    requires IsOpening(sv, c, Registered)
    ensures var Opening(key, reserved, _) := sv.callers[c];
            var (sv', outcome) := Dispatched(sv, key.a, SessionOpened(key.sid), reserved, authorized, contended);
            var after := Step(Step(sv, Admit(c, authorized)), Dispatch(c, contended));
            && after.routes == sv'.routes && after.tasks == sv'.tasks && after.permits == sv'.permits
            && after.nextGeneration == sv'.nextGeneration
            && after.callers == sv.callers[c := Opening(key, false, StageAfter(outcome))]
  {
    if authorized && sv.status.Running? {
      AdmittedDispatch(sv, c, contended);
    } else {
      TurnedAwayAtHead(sv, c, authorized, contended);
    }
  }

  lemma LockedIgnoresCallers(
    sv: Server, callers: map<nat, Caller>, a: Address, message: Message, reserved: bool, contended: bool)
    ensures var (plain, outcome) := DispatchLocked(sv, a, message, reserved, contended);
            DispatchLocked(sv.(callers := callers), a, message, reserved, contended)
            == (plain.(callers := callers), outcome)
  {
  }

  /** The sessions whose open is still waiting in a mailbox, in order. */
  function PendingOpens(mailbox: seq<Message>): seq<SessionId> {
    if mailbox == [] then []
    else if mailbox[0].SessionOpened? then [mailbox[0].sid] + PendingOpens(mailbox[1..])
    else PendingOpens(mailbox[1..])
  }

  /** Messages other than opens are passed over, and the opens stay in their order. */
  lemma {:induction false} PendingOpensConcat(first: seq<Message>, rest: seq<Message>)
    ensures PendingOpens(first + rest) == PendingOpens(first) + PendingOpens(rest)
  {
    if first == [] {
      assert first + rest == rest;
    } else {
      assert (first + rest)[1..] == first[1..] + rest;
      PendingOpensConcat(first[1..], rest);
    }
  }

  lemma PendingOpenOf(message: Message)
    ensures PendingOpens([message]) == match message case SessionOpened(sid) => [sid] case _ => []
  {
  }

  /** Where a drain stops: after the first message whose method fails, or at the end. */
  function DrainedTo(mailbox: seq<Message>, works: seq<bool>): (n: nat)
    requires |works| == |mailbox|
    ensures n <= |mailbox|
    ensures forall i :: 0 <= i < n - 1 ==> works[i]
    ensures n < |mailbox| ==> n > 0 && !works[n - 1]
  {
    if mailbox == [] then 0 else if !works[0] then 1 else 1 + DrainedTo(mailbox[1..], works[1..])
  }

  /** `dispatch_message_if_active`: the new state, and whether the message was delivered. */
  function DeliveredIfActive(sv: Server, a: Address, message: Message): (Server, bool) {
    if a in sv.routes && sv.routes[a].active && sv.routes[a].generation in sv.tasks
       && !sv.tasks[sv.routes[a].generation].closed
       && |sv.tasks[sv.routes[a].generation].mailbox| < sv.mailboxCapacity
    then
      var gen := sv.routes[a].generation;
      (SetTask(sv, gen, sv.tasks[gen].(mailbox := sv.tasks[gen].mailbox + [message])), true)
    else
      (sv, false)
  }

  /** The step that reports a closed session is such a delivery, and is counted exactly if it succeeds. */
  lemma SendClosedIsDelivery(sv: Server, c: nat)
    requires c in sv.callers && sv.callers[c].Closing?
    ensures var key := sv.callers[c].key;
            var (sv', delivered) := DeliveredIfActive(sv, key.a, SessionClosed(key.sid));
            var counted := sv.log.(closedSent := Bump(sv.log.closedSent, key));
            AfterSendClosed(sv, c) == EndCaller(sv', c).(log := if delivered then counted else sv.log)
  {
  }

  /** The drain of one mailbox as steps; `works` says which messages' methods succeed. */
  function DrainEvents(gen: nat, works: seq<bool>): seq<Event> {
    if works == [] then [] else [DrainOne(gen, works[0])] + DrainEvents(gen, works[1..])
  }

  function DrainedPhase(works: seq<bool>): Phase {
    if exists i :: 0 <= i < |works| && !works[i] then Leaving else Draining
  }

  lemma {:induction false} LeavingIgnoresDrain(sv: Server, gen: nat, works: seq<bool>)
    requires HasTask(sv, gen, Leaving)
    ensures StepAll(sv, DrainEvents(gen, works)) == sv
  {
    if works != [] {
      assert DrainEvents(gen, works)[1..] == DrainEvents(gen, works[1..]);
      assert Step(sv, DrainOne(gen, works[0])) == sv;
      LeavingIgnoresDrain(sv, gen, works[1..]);
    }
  }

  /** The drain steps execute the mailbox in order until a method fails, and then nothing more. */
  lemma {:induction false} DrainIsSteps(sv: Server, gen: nat, works: seq<bool>)
    requires HasTask(sv, gen, Draining) && |works| == |sv.tasks[gen].mailbox|
    ensures var queue := sv.tasks[gen].mailbox;
            StepAll(sv, DrainEvents(gen, works))
            == SetTask(sv, gen, sv.tasks[gen].(
                 mailbox := queue[DrainedTo(queue, works)..], phase := DrainedPhase(works)))
    decreases |works|
  {
    var queue := sv.tasks[gen].mailbox;
    if works == [] {
      assert SetTask(sv, gen, sv.tasks[gen]) == sv;
    } else {
      var task := sv.tasks[gen].(phase := if works[0] then Draining else Leaving, mailbox := queue[1..]);
      var next := SetTask(sv, gen, task);
      FirstDrainStep(sv, gen, works);
      if works[0] {
        DrainIsSteps(next, gen, works[1..]);
        assert queue[1..][DrainedTo(queue[1..], works[1..])..] == queue[DrainedTo(queue, works)..];
        FailsLater(works);
      } else {
        LeavingIgnoresDrain(next, gen, works[1..]);
      }
    }
  }

  lemma FirstDrainStep(sv: Server, gen: nat, works: seq<bool>)
    requires HasTask(sv, gen, Draining) && works != [] && sv.tasks[gen].mailbox != []
    ensures var task := sv.tasks[gen].(
              phase := if works[0] then Draining else Leaving, mailbox := sv.tasks[gen].mailbox[1..]);
            StepAll(sv, DrainEvents(gen, works)) == StepAll(SetTask(sv, gen, task), DrainEvents(gen, works[1..]))
  {
    assert DrainEvents(gen, works)[1..] == DrainEvents(gen, works[1..]);
  }

  lemma FailsLater(works: seq<bool>)
    requires works != [] && works[0]
    ensures DrainedPhase(works[1..]) == DrainedPhase(works)
  {
    if i :| 0 <= i < |works| && !works[i] {
      assert works[1..][i - 1] == works[i];
    }
  }

  /** A waiting Actor that observes the shutdown closes its mailbox and drains it. */
  function Shutdown(gen: nat, works: seq<bool>): seq<Event> {
    [ObserveShutdown(gen)] + DrainEvents(gen, works)
  }

  lemma ShutdownIsSteps(sv: Server, gen: nat, works: seq<bool>)
    requires HasTask(sv, gen, Waiting) && !sv.status.Running? && |works| == |sv.tasks[gen].mailbox|
    ensures var queue := sv.tasks[gen].mailbox;
            StepAll(sv, Shutdown(gen, works))
            == SetTask(sv, gen, sv.tasks[gen].(
                 closed := true, mailbox := queue[DrainedTo(queue, works)..], phase := DrainedPhase(works)))
  {
    var next := SetTask(sv, gen, sv.tasks[gen].(phase := Draining, closed := true));
    assert Step(sv, ObserveShutdown(gen)) == next;
    assert Shutdown(gen, works)[1..] == DrainEvents(gen, works);
    DrainIsSteps(next, gen, works);
  }

  class Inner {
    const max: nat
    const mailboxCapacity: nat
    var status: Status
    var routes: map<Address, Route>
    var tasks: map<nat, Task>
    var permits: nat
    var nextGeneration: nat
    var sessions: map<Key, bool>

    constructor (max: nat, mailboxCapacity: nat)
      ensures State() == InitialServer(max, mailboxCapacity)
    {
      this.max, this.mailboxCapacity := max, mailboxCapacity;
      status, routes, tasks, permits, nextGeneration, sessions := Running, map[], map[], max, 0, map[];
    }

    ghost function State(): Server
      reads this
    {
      Server(max, mailboxCapacity, status, routes, tasks, permits, nextGeneration, sessions, map[],
             Log(map[], map[], map[]))
    }

    method DispatchMessage(a: Address, message: Message, reserved: bool, authorized: bool, contended: bool)
      returns (outcome: Outcome)
      modifies this
      ensures (State(), outcome) == Dispatched(old(State()), a, message, reserved, authorized, contended)
    {
      if !authorized {
        ReturnPermit(reserved);
        return Refused(NodeFenced);
      }
      if status != Running {
        ReturnPermit(reserved);
        return Refused(StatusError(status));
      }
      var replaced := false;
      if a in routes {
        if !routes[a].active {
          ReturnPermit(reserved);
          return Refused(ActorDeactivating);
        }
        var gen := routes[a].generation;
        if gen in tasks && !tasks[gen].closed {
          ReturnPermit(reserved);
          if |tasks[gen].mailbox| >= mailboxCapacity {
            return Refused(MailboxFull);
          }
          tasks := tasks[gen := tasks[gen].(mailbox := tasks[gen].mailbox + [message])];
          return Accepted(gen);
        }
        routes, permits := routes - {a}, permits + 1;
        replaced := true;
      }
      if !reserved {
        if permits == 0 || (replaced && contended) {
          return Refused(RuntimeAtCapacity);
        }
        permits := permits - 1;
      }
      var gen := nextGeneration;
      nextGeneration := nextGeneration + 1;
      tasks := tasks[gen := Task(a, Activating, [message], false)];
      routes := routes[a := Route(gen, true)];
      return Accepted(gen);
    }

    method ReturnPermit(reserved: bool)
      modifies this`permits
      ensures permits == old(permits) + if reserved then 1 else 0
    {
      if reserved {
        permits := permits + 1;
      }
    }

    /** Only an Active route with an open mailbox takes the message; nothing is ever spawned. */
    method DispatchIfActive(a: Address, message: Message) returns (delivered: bool)
      modifies this`tasks
      ensures (State(), delivered) == DeliveredIfActive(old(State()), a, message)
    {
      delivered := false;
      if a in routes && routes[a].active {
        var gen := routes[a].generation;
        if gen in tasks && !tasks[gen].closed && |tasks[gen].mailbox| < mailboxCapacity {
          tasks := tasks[gen := tasks[gen].(mailbox := tasks[gen].mailbox + [message])];
          delivered := true;
        }
      }
    }

    method RemoveRoute(a: Address, gen: nat)
      modifies this`routes, this`permits
      ensures State() == WithoutRoute(old(State()), a, gen)
    {
      if a in routes && routes[a].generation == gen {
        routes := routes - {a};
        permits := permits + 1;
      }
    }

    /** Succeeds exactly if the route is still this task's and its mailbox is empty. */
    method BeginDeactivation(gen: nat) returns (begun: bool)
      requires gen in tasks
      modifies this`routes
      ensures begun <==> Routed(old(State()), tasks[gen].address, gen) && tasks[gen].mailbox == []
      ensures SetPhase(State(), gen, if begun then Deactivating else Waiting)
           == AfterBeginDeactivation(old(State()), gen)
    {
      var a := tasks[gen].address;
      if a !in routes || routes[a].generation != gen || tasks[gen].mailbox != [] {
        return false;
      }
      routes := routes[a := Route(gen, false)];
      return true;
    }

    /** Executes the messages of a closed mailbox in order until one fails; `works` says which of them succeed. */
    method DrainLoop(gen: nat, works: seq<bool>) returns (executed: seq<Message>, failed: bool)
      requires gen in tasks && |works| == |tasks[gen].mailbox|
      modifies this`tasks
      ensures executed == old(tasks)[gen].mailbox[..DrainedTo(old(tasks)[gen].mailbox, works)]
      ensures failed <==> exists i :: 0 <= i < |works| && !works[i]
      ensures tasks == old(tasks)[gen := old(tasks)[gen].(mailbox := old(tasks)[gen].mailbox[|executed|..])]
    {
      ghost var queue := tasks[gen].mailbox;
      executed, failed := [], false;
      var n := 0;
      while !failed && tasks[gen].mailbox != []
        invariant n <= |queue| && executed == queue[..n]
        invariant tasks == old(tasks)[gen := old(tasks)[gen].(mailbox := queue[n..])]
        invariant forall i :: 0 <= i < n - 1 ==> works[i]
        invariant if failed then n > 0 && !works[n - 1] else n > 0 ==> works[n - 1]
        decreases |queue| - n
      {
        var message := tasks[gen].mailbox[0];
        tasks := tasks[gen := tasks[gen].(mailbox := tasks[gen].mailbox[1..])];
        executed := executed + [message];
        failed := !works[n];
        n := n + 1;
      }
      StopsThere(queue, works, n);
    }

    /** Draining on shutdown: the mailbox is closed first, then its messages are executed up to the first failure. */
    method DrainMailbox(gen: nat, works: seq<bool>) returns (executed: seq<Message>, failed: bool)
      requires HasTask(State(), gen, Waiting) && status != Running && |works| == |tasks[gen].mailbox|
      modifies this`tasks
      ensures executed == old(tasks)[gen].mailbox[..DrainedTo(old(tasks)[gen].mailbox, works)]
      ensures failed <==> exists i :: 0 <= i < |works| && !works[i]
      ensures State() == StepAll(old(State()), Shutdown(gen, works))
    {
      ShutdownIsSteps(State(), gen, works);
      tasks := tasks[gen := tasks[gen].(closed := true, phase := Draining)];
      executed, failed := DrainLoop(gen, works);
      if failed {
        tasks := tasks[gen := tasks[gen].(phase := Leaving)];
      }
    }

    /** Every open still waiting in the mailbox of a failed activation is told so, in order. */
    method FailPending(gen: nat) returns (told: seq<SessionId>)
      requires HasTask(State(), gen, FailingPending)
      modifies this`tasks
      ensures told == PendingOpens(old(tasks)[gen].mailbox)
      ensures State() == Next(old(State()), Event.FailPending(gen))
    {
      told := [];
      while tasks[gen].mailbox != []
        invariant gen in tasks && tasks == old(tasks)[gen := old(tasks)[gen].(mailbox := tasks[gen].mailbox)]
        invariant told + PendingOpens(tasks[gen].mailbox) == PendingOpens(old(tasks)[gen].mailbox)
        decreases |tasks[gen].mailbox|
      {
        var message := tasks[gen].mailbox[0];
        tasks := tasks[gen := tasks[gen].(mailbox := tasks[gen].mailbox[1..])];
        if message.SessionOpened? {
          told := told + [message.sid];
        }
      }
      tasks := tasks[gen := tasks[gen].(phase := Leaving)];
    }

    /** `update_capacity_sample`; with every permit accounted for and no reservation in hand it counts the routes. */
    method UpdateCapacitySample() returns (active: nat, pressured: bool, draining: bool)
      ensures active == PublishedCount(State()) && pressured == Pressured(State())
      ensures draining <==> status != Running
      ensures CapacityInv(State()) ==> active == |routes| && (pressured <==> |routes| == max)
    {
      assert Reservations(map[]) == {};
      active := if permits <= max then max - permits else 0;
      pressured := permits == 0;
      draining := status != Running;
    }

    /** The locked part of `shutdown`: one caller wins, and sees every route of that instant. */
    method BeginShutdown() returns (began: bool, generations: set<nat>)
      modifies this`status
      ensures began <==> old(status) == Running
      ensures State() == if began then Next(old(State()), SetStatus(ShuttingDown)) else old(State())
      ensures generations == if began then set a | a in routes :: routes[a].generation else {}
    {
      began, generations := status == Running, {};
      if began {
        status := ShuttingDown;
        generations := set a | a in routes :: routes[a].generation;
      }
    }

    method ClearRoutes()
      requires status != Running
      modifies this`routes, this`permits
      ensures State() == Next(old(State()), Event.ClearRoutes)
    {
      permits := permits + |routes|;
      routes := map[];
    }
  }

  /** A drain that went `n` messages far without a failure before its last stops where it should. */
  lemma {:induction false} StopsThere(mailbox: seq<Message>, works: seq<bool>, n: nat)
    requires |works| == |mailbox| && n <= |mailbox|
    requires forall i :: 0 <= i < n - 1 ==> works[i]
    requires n < |mailbox| ==> n > 0 && !works[n - 1]
    ensures DrainedTo(mailbox, works) == n
  {
    if mailbox != [] && works[0] {
      StopsThere(mailbox[1..], works[1..], n - 1);
    }
  }
}
