/**
 One server's runtime at lock granularity: the route table, Actor tasks with their
 generations and bounded mailboxes, the capacity semaphore, the session registry and
 the callers that open, act on and close sessions.

 Each event is one critical section (or one await point) of `ServerInner`, of an
 Actor task, or of a caller, so that everything the code leaves unlocked can
 interleave.  User methods are events that succeed or fail.
 */
module Runtime {
  import opened Coordination

  datatype SendError =
    | MailboxFull | ActorDeactivating | RuntimeAtCapacity | NodeFenced | RuntimeShuttingDown
    | RuntimeStopped

  /** One client session at one Actor address. */
  datatype Key = Key(a: Address, sid: SessionId)

  datatype Message =
    | Action(sid: SessionId)
    | SessionOpened(sid: SessionId)
    | SessionClosed(sid: SessionId)

  /** Where an Actor task is in `spawn_actor`. */
  datatype Phase =
    | Activating
    | Waiting
    | Executing(message: Message)
    | IdleChecked
    | Deactivating
    | Releasing
    | ActivationFailed
    | FailingPending
    | Draining
    | Leaving
    | Gone

  datatype Task = Task(address: Address, phase: Phase, mailbox: seq<Message>, closed: bool)
  datatype Route = Route(generation: nat, active: bool)

  /** Where a caller of `open_local_session` is. */
  datatype Stage =
    | Resolving
    | Registered
    | Admitted
    | Rejected(error: SendError)
    | Awaiting(generation: nat)

  datatype Caller =
    | Opening(key: Key, reserved: bool, stage: Stage)
    | Acting(key: Key, admitted: bool)
    | Closing(key: Key)

  datatype Server = Server(
    max: nat,
    mailboxCapacity: nat,
    status: Status,
    routes: map<Address, Route>,
    tasks: map<nat, Task>,
    permits: nat,
    nextGeneration: nat,
    /** Registered sessions; true once their SessionOpened has been accepted by a mailbox. */
    sessions: map<Key, bool>,
    callers: map<nat, Caller>,
    log: Log)

  /** How often each session was registered, closed, and reported closed to its Actor. */
  datatype Log = Log(registrations: map<Key, nat>, closures: map<Key, nat>, closedSent: map<Key, nat>)

  datatype Event =
    | NewOpen(c: nat, key: Key)
    | Reserve(c: nat)
    | DropReservation(c: nat)
    | GiveUp(c: nat)
    | Register(c: nat)
    | Admit(c: nat, authorized: bool)
    | Dispatch(c: nat, contended: bool)
    | Unregister(c: nat)
    | Finish(c: nat, ok: bool)
    | NewAction(c: nat, key: Key)
    | BeginClose(c: nat, key: Key)
    | SendClosed(c: nat)
    | Terminate(key: Key)
    | Activate(gen: nat, ok: bool)
    | Receive(gen: nat)
    | Executed(gen: nat, ok: bool)
    | CheckIdle(gen: nat)
    | BeginDeactivation(gen: nat)
    | Deactivated(gen: nat)
    | RemoveRoute(gen: nat)
    | FailPending(gen: nat)
    | Leave(gen: nat)
    | ObserveShutdown(gen: nat)
    | DrainOne(gen: nat, ok: bool)
    | Drained(gen: nat)
    | Abort(gen: nat)
    | ClearRoutes
    | SetStatus(status: Status)

  function InitialServer(max: nat, mailboxCapacity: nat): Server {
    Server(max, mailboxCapacity, Running, map[], map[], max, 0, map[], map[], Log(map[], map[], map[]))
  }

  function Count(counts: map<Key, nat>, key: Key): nat {
    if key in counts then counts[key] else 0
  }

  function Bump(counts: map<Key, nat>, key: Key): map<Key, nat> {
    counts[key := Count(counts, key) + 1]
  }

  function SetTask(sv: Server, gen: nat, task: Task): Server {
    sv.(tasks := sv.tasks[gen := task])
  }

  function SetPhase(sv: Server, gen: nat, phase: Phase): Server
    requires gen in sv.tasks
  {
    SetTask(sv, gen, sv.tasks[gen].(phase := phase))
  }

  function SetCaller(sv: Server, c: nat, caller: Caller): Server {
    sv.(callers := sv.callers[c := caller])
  }

  function EndCaller(sv: Server, c: nat): Server {
    sv.(callers := sv.callers - {c})
  }

  /** Dropping an `OwnedSemaphorePermit`, if there is one. */
  function GiveBack(sv: Server, reserved: bool): Server {
    if reserved then sv.(permits := sv.permits + 1) else sv
  }

  /** `remove_route`: only the route of this very generation. */
  function WithoutRoute(sv: Server, a: Address, gen: nat): Server {
    if a in sv.routes && sv.routes[a].generation == gen
    then sv.(routes := sv.routes - {a}, permits := sv.permits + 1)
    else sv
  }

  datatype Outcome = Accepted(generation: nat) | Refused(error: SendError)

  /** The tail of `dispatch_message`: take a permit, spawn a task, hand it the message, insert the route. */
  function Spawn(sv: Server, a: Address, message: Message, reserved: bool, contended: bool): (Server, Outcome) {
    if reserved || (sv.permits > 0 && !contended) then
      var gen := sv.nextGeneration;
      (sv.(permits := if reserved then sv.permits else sv.permits - 1,
           nextGeneration := gen + 1,
           tasks := sv.tasks[gen := Task(a, Activating, [message], false)],
           routes := sv.routes[a := Route(gen, true)]),
       Accepted(gen))
    else
      (sv, Refused(RuntimeAtCapacity))
  }

  /** The part of `dispatch_message` under the route-table lock. */
  function DispatchLocked(
    sv: Server, a: Address, message: Message, reserved: bool, contended: bool): (Server, Outcome)
  {
    if a !in sv.routes then
      Spawn(sv, a, message, reserved, false)
    else if !sv.routes[a].active then
      (GiveBack(sv, reserved), Refused(ActorDeactivating))
    else
      var gen := sv.routes[a].generation;
      if gen !in sv.tasks || sv.tasks[gen].closed then
        Spawn(WithoutRoute(sv, a, gen), a, message, reserved, contended)
      else if |sv.tasks[gen].mailbox| >= sv.mailboxCapacity then
        (GiveBack(sv, reserved), Refused(MailboxFull))
      else
        (SetTask(GiveBack(sv, reserved), gen, sv.tasks[gen].(mailbox := sv.tasks[gen].mailbox + [message])),
         Accepted(gen))
  }

  /** A session's SessionOpened has been accepted, if it is still registered. */
  function MarkAccepted(sv: Server, key: Key): Server {
    if key in sv.sessions then sv.(sessions := sv.sessions[key := true]) else sv
  }

  predicate HasTask(sv: Server, gen: nat, phase: Phase) {
    gen in sv.tasks && sv.tasks[gen].phase == phase
  }

  predicate IsOpening(sv: Server, c: nat, stage: Stage) {
    c in sv.callers && sv.callers[c].Opening? && sv.callers[c].stage == stage
  }

  /** Ready to enter the route-table lock with a message. */
  predicate ReadyToDispatch(sv: Server, c: nat) {
    c in sv.callers
    && match sv.callers[c]
       case Opening(_, _, stage) => stage == Admitted
       case Acting(_, admitted) => admitted
       case Closing(_) => false
  }

  predicate Enabled(sv: Server, ev: Event) {
    match ev
    case NewOpen(c, _) => c !in sv.callers
    case Reserve(c) => IsOpening(sv, c, Resolving) && !sv.callers[c].reserved && sv.permits > 0
    case DropReservation(c) => IsOpening(sv, c, Resolving) && sv.callers[c].reserved
    case GiveUp(c) => IsOpening(sv, c, Resolving)
    case Register(c) => IsOpening(sv, c, Resolving)
    case Admit(c, _) =>
      IsOpening(sv, c, Registered) || (c in sv.callers && sv.callers[c].Acting? && !sv.callers[c].admitted)
    case Dispatch(c, _) => ReadyToDispatch(sv, c)
    case Unregister(c) => c in sv.callers && sv.callers[c].Opening? && sv.callers[c].stage.Rejected?
    case Finish(c, _) => c in sv.callers && sv.callers[c].Opening? && sv.callers[c].stage.Awaiting?
    case NewAction(c, key) => c !in sv.callers && key in sv.sessions
    case BeginClose(c, key) => c !in sv.callers && key in sv.sessions
    case SendClosed(c) => c in sv.callers && sv.callers[c].Closing?
    case Terminate(key) => key in sv.sessions
    case Activate(gen, _) => HasTask(sv, gen, Activating)
    case Receive(gen) => HasTask(sv, gen, Waiting) && sv.tasks[gen].mailbox != []
    case Executed(gen, _) => gen in sv.tasks && sv.tasks[gen].phase.Executing?
    case CheckIdle(gen) => HasTask(sv, gen, Waiting)
    case BeginDeactivation(gen) => HasTask(sv, gen, IdleChecked)
    case Deactivated(gen) => HasTask(sv, gen, Deactivating)
    case RemoveRoute(gen) => HasTask(sv, gen, Releasing) || HasTask(sv, gen, ActivationFailed)
    case FailPending(gen) => HasTask(sv, gen, FailingPending)
    case Leave(gen) => HasTask(sv, gen, Leaving)
    case ObserveShutdown(gen) => HasTask(sv, gen, Waiting) && !sv.status.Running?
    case DrainOne(gen, _) => HasTask(sv, gen, Draining) && sv.tasks[gen].mailbox != []
    case Drained(gen) => HasTask(sv, gen, Draining) && sv.tasks[gen].mailbox == []
    case Abort(gen) => gen in sv.tasks && !sv.status.Running? && !sv.tasks[gen].phase.Gone?
    case ClearRoutes => !sv.status.Running?
    case SetStatus(status) => !status.Running?
  }

  predicate LiveSessions(sv: Server, a: Address) {
    exists key :: key in sv.sessions && key.a == a
  }

  function StatusError(status: Status): SendError {
    match status
    case ShuttingDown => RuntimeShuttingDown
    case Fenced => NodeFenced
    case _ => RuntimeStopped
  }

  function AfterRegister(sv: Server, c: nat): Server
    requires c in sv.callers && sv.callers[c].Opening?
  {
    var Opening(key, reserved, _) := sv.callers[c];
    if key in sv.sessions then
      GiveBack(EndCaller(sv, c), reserved)
    else
      SetCaller(sv, c, Opening(key, reserved, Registered)).(
        sessions := sv.sessions[key := false], log := sv.log.(registrations := Bump(sv.log.registrations, key)))
  }

  /** The authority and status checks at the head of `dispatch_message`. */
  function AfterAdmit(sv: Server, c: nat, authorized: bool): Server
    requires c in sv.callers && !sv.callers[c].Closing?
  {
    match sv.callers[c]
    case Opening(key, reserved, _) =>
      if !authorized then
        GiveBack(SetCaller(sv, c, Opening(key, false, Rejected(NodeFenced))), reserved)
      else if !sv.status.Running? then
        GiveBack(SetCaller(sv, c, Opening(key, false, Rejected(StatusError(sv.status)))), reserved)
      else
        SetCaller(sv, c, Opening(key, reserved, Admitted))
    case Acting(key, _) =>
      if authorized && sv.status.Running? then SetCaller(sv, c, Acting(key, true)) else EndCaller(sv, c)
  }

  function AfterDispatch(sv: Server, c: nat, contended: bool): Server
    requires ReadyToDispatch(sv, c)
  {
    match sv.callers[c]
    case Opening(key, reserved, _) =>
      var (next, outcome) := DispatchLocked(sv, key.a, SessionOpened(key.sid), reserved, contended);
      (match outcome
       case Accepted(gen) => MarkAccepted(SetCaller(next, c, Opening(key, false, Stage.Awaiting(gen))), key)
       case Refused(error) => SetCaller(next, c, Opening(key, false, Rejected(error))))
    case Acting(key, _) =>
      EndCaller(DispatchLocked(sv, key.a, Action(key.sid), false, contended).0, c)
  }

  /** `dispatch_message_if_active` with a SessionClosed. */
  function AfterSendClosed(sv: Server, c: nat): Server
    requires c in sv.callers && sv.callers[c].Closing?
  {
    var key := sv.callers[c].key;
    var ended := EndCaller(sv, c);
    if key.a in sv.routes && sv.routes[key.a].active then
      var gen := sv.routes[key.a].generation;
      if gen in sv.tasks && !sv.tasks[gen].closed && |sv.tasks[gen].mailbox| < sv.mailboxCapacity
      then SetTask(ended, gen, sv.tasks[gen].(mailbox := sv.tasks[gen].mailbox + [SessionClosed(key.sid)])).(
             log := sv.log.(closedSent := Bump(sv.log.closedSent, key)))
      else ended
    else
      ended
  }

  /** `begin_deactivation`. */
  function AfterBeginDeactivation(sv: Server, gen: nat): Server
    requires gen in sv.tasks
  {
    var task := sv.tasks[gen];
    if task.address in sv.routes && sv.routes[task.address].generation == gen && task.mailbox == []
    then SetPhase(sv, gen, Deactivating).(routes := sv.routes[task.address := Route(gen, false)])
    else SetPhase(sv, gen, Waiting)
  }

  function Next(sv: Server, ev: Event): Server
    requires Enabled(sv, ev)
  {
    match ev
    case NewOpen(c, key) => SetCaller(sv, c, Opening(key, false, Resolving))
    case Reserve(c) =>
      SetCaller(sv, c, sv.callers[c].(reserved := true)).(permits := sv.permits - 1)
    case DropReservation(c) => GiveBack(SetCaller(sv, c, sv.callers[c].(reserved := false)), true)
    case GiveUp(c) => GiveBack(EndCaller(sv, c), sv.callers[c].reserved)
    case Register(c) => AfterRegister(sv, c)
    case Admit(c, authorized) => AfterAdmit(sv, c, authorized)
    case Dispatch(c, contended) => AfterDispatch(sv, c, contended)
    case Unregister(c) => EndCaller(sv, c).(sessions := sv.sessions - {sv.callers[c].key})
    case Finish(c, ok) =>
      EndCaller(sv, c).(sessions := if ok then sv.sessions else sv.sessions - {sv.callers[c].key})
    case NewAction(c, key) => SetCaller(sv, c, Acting(key, false))
    case BeginClose(c, key) =>
      SetCaller(sv, c, Closing(key)).(
        sessions := sv.sessions - {key}, log := sv.log.(closures := Bump(sv.log.closures, key)))
    case SendClosed(c) => AfterSendClosed(sv, c)
    case Terminate(key) => sv.(sessions := sv.sessions - {key})
    case Activate(gen, ok) =>
      if ok then SetPhase(sv, gen, Waiting)
      else SetTask(sv, gen, sv.tasks[gen].(phase := ActivationFailed, closed := true))
    case Receive(gen) =>
      var task := sv.tasks[gen];
      SetTask(sv, gen, task.(phase := Executing(task.mailbox[0]), mailbox := task.mailbox[1..]))
    case Executed(gen, ok) => SetPhase(sv, gen, if ok then Waiting else Leaving)
    case CheckIdle(gen) =>
      if LiveSessions(sv, sv.tasks[gen].address) then sv else SetPhase(sv, gen, IdleChecked)
    case BeginDeactivation(gen) => AfterBeginDeactivation(sv, gen)
    case Deactivated(gen) => SetPhase(sv, gen, Releasing)
    case RemoveRoute(gen) =>
      var next := if sv.tasks[gen].phase.ActivationFailed? then FailingPending else Leaving;
      WithoutRoute(SetPhase(sv, gen, next), sv.tasks[gen].address, gen)
    case FailPending(gen) => SetTask(sv, gen, sv.tasks[gen].(phase := Leaving, mailbox := []))
    case Leave(gen) =>
      var left := sv.tasks[gen].(phase := Gone, closed := true, mailbox := []);
      WithoutRoute(SetTask(sv, gen, left), sv.tasks[gen].address, gen)
    case ObserveShutdown(gen) => SetTask(sv, gen, sv.tasks[gen].(phase := Draining, closed := true))
    case DrainOne(gen, ok) =>
      var task := sv.tasks[gen];
      SetTask(sv, gen, task.(phase := if ok then Draining else Leaving, mailbox := task.mailbox[1..]))
    case Drained(gen) => SetPhase(sv, gen, Leaving)
    case Abort(gen) => SetPhase(sv, gen, Leaving)
    case ClearRoutes => sv.(routes := map[], permits := sv.permits + |sv.routes|)
    case SetStatus(status) => sv.(status := status)
  }
}
