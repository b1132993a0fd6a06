/**
 Node Leases: acquisition, renewal, read-back of lost responses, self-fencing and
 release, as steps over the stored leases and each process's local view.

 Time is a count of ticks; `g` ticks make one millisecond.  Local deadlines are in
 ticks (monotonic clock), stored expiries in whole milliseconds (wall clock).  A wall
 clock reading is carried by the event that takes it; how readings relate to the
 passing of time is a hypothesis about runs, stated in module Cluster.

 A conditional write that has been sent may reach the store at any later moment, at
 most once, whatever its sender has concluded about it meanwhile.
 */
module NodeLease {
  import opened Coordination

  type TicksPerMs = g: nat | g >= 1 witness 1

  datatype Lease = Lease(session: SessionId, generation: nat, expires: nat)

  /** A conditional lease write in the network. */
  datatype LeaseOp =
    | Put(session: SessionId, node: NodeId, condition: Condition<Lease>, lease: Lease)
    | Delete(session: SessionId, node: NodeId, revision: Lease)

  /** Where the renewal task is: asleep, awaiting a write, reading it back, or gone. */
  datatype Renewal =
    | Sleeping
    | Awaiting(op: nat, started: nat)
    | Confirming(op: nat, started: nat, tries: nat)
    | Exited

  /** A server process whose lease acquisition succeeded. */
  datatype NodeSession = NodeSession(
    node: NodeId, ttl: nat, valid: bool, deadline: nat, status: Status,
    generation: nat, revision: Lease, renewal: Renewal, released: bool)

  datatype StartPhase =
    | Reading
    | Fetched(found: Option<Lease>)
    | AwaitingPut(op: nat)
    | ConfirmingPut(op: nat, tries: nat)
    | Done

  /** A server process acquiring its lease; kept after it finishes, so that IDs stay unique. */
  datatype Start = Start(node: NodeId, ttl: nat, started: nat, phase: StartPhase)

  datatype LeaseState = LeaseState(
    now: nat,
    stored: map<NodeId, Lease>,
    ops: seq<LeaseOp>,
    landed: set<nat>,
    starts: map<SessionId, Start>,
    sessions: map<SessionId, NodeSession>)

  datatype LeaseEvent =
    | Tick(ticks: nat)
    | StartSession(s: SessionId, node: NodeId, ttl: nat)
    | AcquireRead(s: SessionId)
    | AcquirePut(s: SessionId, wallTest: nat, wallPut: nat)
    | AcquireApplied(s: SessionId)
    | AcquireIndeterminate(s: SessionId)
    | AcquireConfirm(s: SessionId, wall: nat)
    | AcquireFail(s: SessionId)
    | LandLease(id: nat)
    | RenewStart(s: SessionId, wall: nat)
    | RenewApplied(s: SessionId)
    | RenewIndeterminate(s: SessionId)
    | RenewConfirm(s: SessionId, wall: nat)
    | RenewReadFails(s: SessionId)
    | RenewConflict(s: SessionId)
    | RenewError(s: SessionId)
    | RenewLapse(s: SessionId)
    | FenceRuntime(s: SessionId)
    | BeginShutdown(s: SessionId)
    | FinishShutdown(s: SessionId)
    | ReleaseLease(s: SessionId)

  const LEASE_READ_BACKS: nat := 3

  function InitialLeases(): LeaseState {
    LeaseState(0, map[], [], {}, map[], map[])
  }

  /** `NodeAuthority::is_valid`. */
  predicate IsValid(st: LeaseState, s: SessionId) {
    s in st.sessions && st.sessions[s].valid && st.now < st.sessions[s].deadline
  }

  /** Valid, and the lease has not been handed back. */
  predicate Holds(st: LeaseState, s: SessionId) {
    IsValid(st, s) && !st.sessions[s].released
  }

  /** The two admission checks at the head of `dispatch_message`. */
  predicate Admits(st: LeaseState, s: SessionId) {
    IsValid(st, s) && st.sessions[s].status == Running
  }

  /** A started session that no longer holds its lease. */
  predicate Dead(st: LeaseState, s: SessionId) {
    s in st.sessions && !Holds(st, s)
  }

  /** The expiry `put_node` writes: the wall clock plus the ttl in whole milliseconds. */
  function Expiry(g: TicksPerMs, wall: nat, ttl: nat): nat {
    wall + ttl / g
  }

  predicate Unexpired(lease: Lease, wall: nat) {
    wall < lease.expires
  }

  /** What a directory read reports for the object it fetched. */
  function Visible(found: Option<Lease>, wall: nat): Option<Lease> {
    if found.Some? && Unexpired(found.value, wall) then found else None
  }

  predicate Acquiring(st: LeaseState, s: SessionId) {
    s in st.starts && (st.starts[s].phase.AwaitingPut? || st.starts[s].phase.ConfirmingPut?)
  }

  predicate Renewing(ss: NodeSession) {
    ss.renewal.Awaiting? || ss.renewal.Confirming?
  }

  /** The store has applied this put, so its response can report `Applied`. */
  predicate Delivered(st: LeaseState, op: nat) {
    op in st.landed && op < |st.ops| && st.ops[op].Put?
  }

  predicate LeaseEnabled(st: LeaseState, ev: LeaseEvent) {
    match ev
    case Tick(_) => true
    case StartSession(s, _, _) => s !in st.starts
    case AcquireRead(s) => s in st.starts && st.starts[s].phase.Reading?
    case AcquirePut(s, _, _) => s in st.starts && st.starts[s].phase.Fetched?
    case AcquireApplied(s) =>
      s in st.starts && st.starts[s].phase.AwaitingPut? && Delivered(st, st.starts[s].phase.op)
    case AcquireIndeterminate(s) => s in st.starts && st.starts[s].phase.AwaitingPut?
    case AcquireConfirm(s, _) => s in st.starts && st.starts[s].phase.ConfirmingPut?
    case AcquireFail(s) => s in st.starts && !st.starts[s].phase.Done?
    case LandLease(id) => id < |st.ops| && id !in st.landed
    case RenewStart(s, _) =>
      && s in st.sessions && st.sessions[s].valid && st.now <= st.sessions[s].deadline
      && st.sessions[s].renewal.Sleeping?
    case RenewApplied(s) =>
      s in st.sessions && st.sessions[s].renewal.Awaiting? && Delivered(st, st.sessions[s].renewal.op)
    case RenewIndeterminate(s) => s in st.sessions && st.sessions[s].renewal.Awaiting?
    case RenewConfirm(s, _) => s in st.sessions && st.sessions[s].renewal.Confirming?
    case RenewReadFails(s) => s in st.sessions && st.sessions[s].renewal.Confirming?
    case RenewConflict(s) => s in st.sessions && st.sessions[s].renewal.Awaiting?
    case RenewError(s) => s in st.sessions && st.sessions[s].renewal.Awaiting?
    case RenewLapse(s) =>
      s in st.sessions && st.sessions[s].renewal.Sleeping? && !IsValid(st, s)
    case FenceRuntime(s) => s in st.sessions && !st.sessions[s].valid
    case BeginShutdown(s) => s in st.sessions && st.sessions[s].status.Running?
    case FinishShutdown(s) => s in st.sessions && !st.sessions[s].status.Running?
    case ReleaseLease(s) =>
      s in st.sessions && st.sessions[s].status.Stopped? && st.sessions[s].renewal.Sleeping?
  }

  function SetStart(st: LeaseState, s: SessionId, phase: StartPhase): LeaseState
    requires s in st.starts
  {
    st.(starts := st.starts[s := st.starts[s].(phase := phase)])
  }

  function SetSession(st: LeaseState, s: SessionId, ss: NodeSession): LeaseState {
    st.(sessions := st.sessions[s := ss])
  }

  /** `ServerStarter::start` after a confirmed acquisition: serve only if still in time. */
  function Started(st: LeaseState, s: SessionId, revision: Lease): LeaseState
    requires s in st.starts
  {
    var start := st.starts[s];
    var finished := SetStart(st, s, Done);
    if st.now < start.started + start.ttl then
      SetSession(finished, s,
        NodeSession(start.node, start.ttl, true, start.started + start.ttl, Running,
                    revision.generation, revision, Sleeping, false))
    else
      finished
  }

  /** A confirmed renewal: adopt the revision and count the ttl from the operation's start. */
  function Renewed(ss: NodeSession, revision: Lease, started: nat): NodeSession {
    ss.(revision := revision, deadline := started + ss.ttl, renewal := Sleeping)
  }

  function FencedOff(ss: NodeSession): NodeSession {
    ss.(valid := false, renewal := Exited)
  }

  /** One more read-back that did not show the expected lease. */
  function Unconfirmed(ss: NodeSession): NodeSession
    requires ss.renewal.Confirming?
  {
    if ss.renewal.tries + 1 < LEASE_READ_BACKS
    then ss.(renewal := ss.renewal.(tries := ss.renewal.tries + 1))
    else FencedOff(ss)
  }

  function Land(st: LeaseState, id: nat): LeaseState
    requires id < |st.ops|
  {
    match st.ops[id]
    case Put(_, node, condition, lease) =>
      if Matches(st.stored, node, condition)
      then st.(stored := st.stored[node := lease], landed := st.landed + {id})
      else st
    case Delete(_, node, revision) =>
      if Matches(st.stored, node, IfMatch(revision))
      then st.(stored := st.stored - {node}, landed := st.landed + {id})
      else st
  }

  function LeaseNext(g: TicksPerMs, st: LeaseState, ev: LeaseEvent): LeaseState
    requires LeaseEnabled(st, ev)
  {
    match ev
    case Tick(ticks) => st.(now := st.now + ticks)
    case StartSession(s, node, ttl) =>
      st.(starts := st.starts[s := Start(node, ttl, st.now, Reading)])
    case AcquireRead(s) =>
      SetStart(st, s, Fetched(Lookup(st.stored, st.starts[s].node)))
    case AcquirePut(s, wallTest, wallPut) =>
      var start := st.starts[s];
      if start.phase.found.Some? && Unexpired(start.phase.found.value, wallTest) then
        SetStart(st, s, Done)
      else
        var lease := Lease(s, 0, Expiry(g, wallPut, start.ttl));
        SetStart(st, s, AwaitingPut(|st.ops|)).(
          ops := st.ops + [Put(s, start.node, ConditionOn(start.phase.found), lease)])
    case AcquireApplied(s) =>
      Started(st, s, st.ops[st.starts[s].phase.op].lease)
    case AcquireIndeterminate(s) =>
      SetStart(st, s, ConfirmingPut(st.starts[s].phase.op, 0))
    case AcquireConfirm(s, wall) =>
      var start := st.starts[s];
      var seen := Visible(Lookup(st.stored, start.node), wall);
      if seen.Some? && seen.value.session == s && seen.value.generation == 0 then
        Started(st, s, seen.value)
      else if start.phase.tries + 1 < LEASE_READ_BACKS then
        SetStart(st, s, ConfirmingPut(start.phase.op, start.phase.tries + 1))
      else
        SetStart(st, s, Done)
    case AcquireFail(s) => SetStart(st, s, Done)
    case LandLease(id) => Land(st, id)
    case RenewStart(s, wall) =>
      var ss := st.sessions[s];
      var lease := Lease(s, ss.generation + 1, Expiry(g, wall, ss.ttl));
      SetSession(st, s, ss.(generation := ss.generation + 1,
                            renewal := Awaiting(|st.ops|, st.now))).(
        ops := st.ops + [Put(s, ss.node, IfMatch(ss.revision), lease)])
    case RenewApplied(s) =>
      var ss := st.sessions[s];
      SetSession(st, s, Renewed(ss, st.ops[ss.renewal.op].lease, ss.renewal.started))
    case RenewIndeterminate(s) =>
      var ss := st.sessions[s];
      SetSession(st, s, ss.(renewal := Confirming(ss.renewal.op, ss.renewal.started, 0)))
    case RenewConfirm(s, wall) =>
      var ss := st.sessions[s];
      var seen := Visible(Lookup(st.stored, ss.node), wall);
      if seen.Some? && seen.value.session == s && seen.value.generation == ss.generation
      then SetSession(st, s, Renewed(ss, seen.value, ss.renewal.started))
      else SetSession(st, s, Unconfirmed(ss))
    case RenewReadFails(s) => SetSession(st, s, Unconfirmed(st.sessions[s]))
    case RenewConflict(s) => SetSession(st, s, FencedOff(st.sessions[s]))
    case RenewError(s) =>
      var ss := st.sessions[s];
      SetSession(st, s, if IsValid(st, s) then ss.(renewal := Sleeping) else FencedOff(ss))
    case RenewLapse(s) => SetSession(st, s, FencedOff(st.sessions[s]))
    case FenceRuntime(s) => SetSession(st, s, st.sessions[s].(status := Fenced))
    case BeginShutdown(s) => SetSession(st, s, st.sessions[s].(status := ShuttingDown))
    case FinishShutdown(s) => SetSession(st, s, st.sessions[s].(status := Stopped))
    case ReleaseLease(s) =>
      var ss := st.sessions[s];
      SetSession(st, s, ss.(renewal := Exited, released := true)).(
        ops := st.ops + [Delete(s, ss.node, ss.revision)])
  }
}
