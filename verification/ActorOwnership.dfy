/**
 Actor ownership: `ClusterRouter::resolve`, `claim` and `release_local_owner`, the
 routes that dispatch creates, and the passivation that ends them, one step per store
 operation or await point.

 A seat is one session's view of one Actor address.  A seat has at most one call in
 progress: that is the per-address resolution lock, taken when the call starts and
 dropped when it ends (for `Local`, when dispatch returns).

 A seat is live while a session of its is registered whose open an Actor's mailbox has
 accepted.  Only live seats dispatch Actions: a connection's envelopes are handled one
 after the other, so an Action is looked at only after the open of its session has
 been answered.  Passivation begins only at a seat that is not live, which is what
 `has_live_sessions` and `begin_deactivation` establish together (module LocalView,
 `PassivationIsEnabled`).
 */
module ActorOwnership {
  import opened Coordination
  import opened NodeLease

  const EPOCH_MAX: nat := 0xFFFF_FFFF_FFFF_FFFF
  const CLAIM_ROUNDS: nat := 3
  const OWNER_READ_BACKS: nat := 3

  /** A compare-exchange of one address's record, in the network. */
  datatype OwnerOp = OwnerOp(seat: Seat, condition: Condition<OwnerRecord>, record: OwnerRecord)

  datatype Seat = Seat(s: SessionId, a: Address)
  datatype RouteState = Active | Deactivating

  datatype Call =
    | ReadingOwner(round: nat)
    | ReadingNode(round: nat, seen: OwnerRecord, fetched: Option<Option<Lease>>)
    | AwaitingClaim(round: nat, op: nat)
    | ConfirmingClaim(round: nat, op: nat, tries: nat)
    | AwaitingTakeover(op: nat)
    | ConfirmingTakeover(op: nat)
    | Local
    | ReadingForRelease
    | AwaitingRelease(op: nat, seen: OwnerRecord)
    | ConfirmingRelease(op: nat, seen: OwnerRecord, tries: nat)

  datatype OwnerState = OwnerState(
    owners: map<Address, OwnerRecord>,
    ops: seq<OwnerOp>,
    landed: set<nat>,
    calls: map<Seat, Call>,
    routes: map<Seat, RouteState>,
    live: set<Seat>)

  datatype OwnerEvent =
    | Resolve(seat: Seat)
    | ReadOwner(seat: Seat)
    | FetchNode(seat: Seat)
    | JudgeNode(seat: Seat, wall: nat)
    | ClaimApplied(seat: Seat)
    | ClaimConflict(seat: Seat)
    | ClaimIndeterminate(seat: Seat)
    | ClaimReadBack(seat: Seat)
    | ClaimReadFails(seat: Seat)
    | Dispatch(seat: Seat)
    | DispatchAction(seat: Seat)
    | EndSessions(seat: Seat)
    | StopActor(seat: Seat)
    | BeginDeactivation(seat: Seat)
    | BeginRelease(seat: Seat)
    | ReadForRelease(seat: Seat)
    | ReleaseApplied(seat: Seat)
    | ReleaseUnsure(seat: Seat)
    | ReleaseReadBack(seat: Seat)
    | ReleaseReadFails(seat: Seat)
    | FinishDeactivation(seat: Seat)
    | AbandonCall(seat: Seat)
    | ClearRoutes(s: SessionId)
    | LandOwner(id: nat)

  function InitialOwners(): OwnerState {
    OwnerState(map[], [], {}, map[], map[], {})
  }

  /** `saturating_add(1)` on the 64-bit epoch. */
  function NextEpoch(epoch: nat): nat {
    if epoch < EPOCH_MAX then epoch + 1 else epoch
  }

  function Unowned(epoch: nat): OwnerRecord {
    OwnerRecord(None, epoch)
  }

  predicate Names(record: OwnerRecord, node: NodeId, s: SessionId) {
    record.owner == Some(Owner(node, s))
  }

  function LocalClaim(node: NodeId, s: SessionId, epoch: nat): OwnerRecord {
    OwnerRecord(Some(Owner(node, s)), epoch)
  }

  /** The claim a session writes over what it has read. */
  function ClaimOver(node: NodeId, s: SessionId, seen: Option<OwnerRecord>): OwnerRecord {
    LocalClaim(node, s, if seen.None? then 1 else NextEpoch(seen.value.epoch))
  }

  predicate IsClaimCall(call: Call) {
    call.AwaitingClaim? || call.ConfirmingClaim? || call.AwaitingTakeover? || call.ConfirmingTakeover?
  }

  predicate IsReleaseCall(call: Call) {
    call.ReadingForRelease? || call.AwaitingRelease? || call.ConfirmingRelease?
  }

  predicate InCall(ls: LeaseState, os: OwnerState, seat: Seat) {
    seat.s in ls.sessions && seat in os.calls
  }

  predicate Applied(os: OwnerState, op: nat) {
    op in os.landed && op < |os.ops|
  }

  predicate OwnerEnabled(ls: LeaseState, os: OwnerState, ev: OwnerEvent) {
    match ev
    case Resolve(seat) => seat.s in ls.sessions && seat !in os.calls
    case ReadOwner(seat) => InCall(ls, os, seat) && os.calls[seat].ReadingOwner?
    case FetchNode(seat) =>
      InCall(ls, os, seat) && os.calls[seat].ReadingNode? && os.calls[seat].fetched.None?
      && os.calls[seat].seen.owner.Some?
    case JudgeNode(seat, _) =>
      InCall(ls, os, seat) && os.calls[seat].ReadingNode? && os.calls[seat].fetched.Some?
      && os.calls[seat].seen.owner.Some?
    case ClaimApplied(seat) =>
      InCall(ls, os, seat) && (os.calls[seat].AwaitingClaim? || os.calls[seat].AwaitingTakeover?)
      && Applied(os, os.calls[seat].op)
    case ClaimConflict(seat) =>
      InCall(ls, os, seat) && (os.calls[seat].AwaitingClaim? || os.calls[seat].AwaitingTakeover?)
    case ClaimIndeterminate(seat) =>
      InCall(ls, os, seat) && (os.calls[seat].AwaitingClaim? || os.calls[seat].AwaitingTakeover?)
    case ClaimReadBack(seat) =>
      InCall(ls, os, seat) && (os.calls[seat].ConfirmingClaim? || os.calls[seat].ConfirmingTakeover?)
      && os.calls[seat].op < |os.ops|
    case ClaimReadFails(seat) =>
      InCall(ls, os, seat) && (os.calls[seat].ConfirmingClaim? || os.calls[seat].ConfirmingTakeover?)
    case Dispatch(seat) => InCall(ls, os, seat) && os.calls[seat].Local?
    case DispatchAction(seat) => Admits(ls, seat.s) && seat in os.live
    case EndSessions(seat) => seat in os.live
    case StopActor(seat) => seat in os.routes && os.routes[seat].Active?
    case BeginDeactivation(seat) => seat in os.routes && os.routes[seat].Active? && seat !in os.live
    case BeginRelease(seat) =>
      seat.s in ls.sessions && seat !in os.calls && seat in os.routes && os.routes[seat].Deactivating?
    case ReadForRelease(seat) => InCall(ls, os, seat) && os.calls[seat].ReadingForRelease?
    case ReleaseApplied(seat) =>
      InCall(ls, os, seat) && os.calls[seat].AwaitingRelease? && Applied(os, os.calls[seat].op)
    case ReleaseUnsure(seat) => InCall(ls, os, seat) && os.calls[seat].AwaitingRelease?
    case ReleaseReadBack(seat) => InCall(ls, os, seat) && os.calls[seat].ConfirmingRelease?
    case ReleaseReadFails(seat) => InCall(ls, os, seat) && os.calls[seat].ConfirmingRelease?
    case FinishDeactivation(seat) =>
      seat in os.routes && os.routes[seat].Deactivating?
      && !(seat in os.calls && IsReleaseCall(os.calls[seat]))
    case AbandonCall(seat) => seat in os.calls
    case ClearRoutes(s) => s in ls.sessions && !ls.sessions[s].status.Running?
    case LandOwner(id) => id < |os.ops| && id !in os.landed
  }

  function SetCall(os: OwnerState, seat: Seat, call: Call): OwnerState {
    os.(calls := os.calls[seat := call])
  }

  function EndCall(os: OwnerState, seat: Seat): OwnerState {
    os.(calls := os.calls - {seat})
  }

  function Send(os: OwnerState, op: OwnerOp): OwnerState {
    os.(ops := os.ops + [op])
  }

  /** Send a claim over `seen` and wait for its outcome in `call`. */
  function SendClaim(ls: LeaseState, os: OwnerState, seat: Seat, seen: Option<OwnerRecord>, call: Call): OwnerState
    requires seat.s in ls.sessions
  {
    SetCall(Send(os, OwnerOp(seat, ConditionOn(seen), ClaimOver(ls.sessions[seat.s].node, seat.s, seen))),
            seat, call)
  }

  /** The rest of the `for _ in 0..3` loop: another round, or `Remote`. */
  function NextRound(os: OwnerState, seat: Seat, round: nat): OwnerState {
    if round + 1 < CLAIM_ROUNDS then SetCall(os, seat, ReadingOwner(round + 1)) else EndCall(os, seat)
  }

  function Retry(os: OwnerState, seat: Seat, round: nat, op: nat, tries: nat): OwnerState {
    if tries + 1 < OWNER_READ_BACKS
    then SetCall(os, seat, ConfirmingClaim(round, op, tries + 1))
    else EndCall(os, seat)
  }

  function AfterOwnerRead(ls: LeaseState, os: OwnerState, seat: Seat): OwnerState
    requires InCall(ls, os, seat) && os.calls[seat].ReadingOwner?
  {
    var round := os.calls[seat].round;
    var node := ls.sessions[seat.s].node;
    var seen := Lookup(os.owners, seat.a);
    if seen.None? || seen.value.owner.None? then
      SendClaim(ls, os, seat, seen, AwaitingClaim(round, |os.ops|))
    else if Names(seen.value, node, seat.s) then
      SetCall(os, seat, Local)
    else if seen.value.owner.value.node == node then
      SendClaim(ls, os, seat, seen, AwaitingTakeover(|os.ops|))
    else
      SetCall(os, seat, ReadingNode(round, seen.value, None))
  }

  function AfterJudging(ls: LeaseState, os: OwnerState, seat: Seat, wall: nat): OwnerState
    requires InCall(ls, os, seat) && os.calls[seat].ReadingNode? && os.calls[seat].fetched.Some?
    requires os.calls[seat].seen.owner.Some?
  {
    var ReadingNode(round, seen, fetched) := os.calls[seat];
    var node := Visible(fetched.value, wall);
    if node.Some? && node.value.session == seen.owner.value.session
    then EndCall(os, seat)
    else SendClaim(ls, os, seat, Some(seen), AwaitingClaim(round, |os.ops|))
  }

  function AfterClaimReadBack(os: OwnerState, seat: Seat): OwnerState
    requires seat in os.calls && (os.calls[seat].ConfirmingClaim? || os.calls[seat].ConfirmingTakeover?)
    requires os.calls[seat].op < |os.ops|
  {
    var call := os.calls[seat];
    var seen := Lookup(os.owners, seat.a);
    if seen == Some(os.ops[call.op].record) then SetCall(os, seat, Local)
    else if call.ConfirmingTakeover? then EndCall(os, seat)
    else if seen.Some? && seen.value.owner.Some? then NextRound(os, seat, call.round)
    else Retry(os, seat, call.round, call.op, call.tries)
  }

  function AfterReadForRelease(ls: LeaseState, os: OwnerState, seat: Seat): OwnerState
    requires InCall(ls, os, seat)
  {
    var seen := Lookup(os.owners, seat.a);
    if seen.Some? && Names(seen.value, ls.sessions[seat.s].node, seat.s)
    then SetCall(Send(os, OwnerOp(seat, IfMatch(seen.value), Unowned(seen.value.epoch))),
                 seat, AwaitingRelease(|os.ops|, seen.value))
    else EndCall(os, seat)
  }

  /** The release read-back found its own write: `release_local_owner` returns `Ok`. */
  predicate ReleaseConfirmed(os: OwnerState, seat: Seat)
    requires seat in os.calls && os.calls[seat].ConfirmingRelease?
  {
    Lookup(os.owners, seat.a) == Some(Unowned(os.calls[seat].seen.epoch))
  }

  function AfterReleaseReadBack(os: OwnerState, seat: Seat): OwnerState
    requires seat in os.calls && os.calls[seat].ConfirmingRelease?
  {
    var ConfirmingRelease(op, seen, tries) := os.calls[seat];
    var read := Lookup(os.owners, seat.a);
    if ReleaseConfirmed(os, seat) then EndCall(os, seat)
    else if read.Some? && read.value != seen then EndCall(os, seat)
    else if tries + 1 < OWNER_READ_BACKS then SetCall(os, seat, ConfirmingRelease(op, seen, tries + 1))
    else EndCall(os, seat)
  }

  function AfterLanding(os: OwnerState, id: nat): OwnerState
    requires id < |os.ops|
  {
    var op := os.ops[id];
    if Matches(os.owners, op.seat.a, op.condition)
    then os.(owners := os.owners[op.seat.a := op.record], landed := os.landed + {id})
    else os
  }

  /** A message that is admitted and finds no route makes one. */
  function WithRoute(os: OwnerState, seat: Seat): OwnerState {
    if seat in os.routes then os else os.(routes := os.routes[seat := Active])
  }

  /** The open of a session: accepted unless it is not admitted or its Actor is deactivating. */
  function AfterDispatch(ls: LeaseState, os: OwnerState, seat: Seat): OwnerState {
    var ended := EndCall(os, seat);
    if !Admits(ls, seat.s) || (seat in os.routes && os.routes[seat].Deactivating?) then ended
    else WithRoute(ended, seat).(live := os.live + {seat})
  }

  function OwnerNext(ls: LeaseState, os: OwnerState, ev: OwnerEvent): OwnerState
    requires OwnerEnabled(ls, os, ev)
  {
    match ev
    case Resolve(seat) => SetCall(os, seat, ReadingOwner(0))
    case ReadOwner(seat) => AfterOwnerRead(ls, os, seat)
    case FetchNode(seat) =>
      SetCall(os, seat, os.calls[seat].(
        fetched := Some(Lookup(ls.stored, os.calls[seat].seen.owner.value.node))))
    case JudgeNode(seat, wall) => AfterJudging(ls, os, seat, wall)
    case ClaimApplied(seat) => SetCall(os, seat, Local)
    case ClaimConflict(seat) =>
      if os.calls[seat].AwaitingClaim? then NextRound(os, seat, os.calls[seat].round) else EndCall(os, seat)
    case ClaimIndeterminate(seat) =>
      SetCall(os, seat,
              if os.calls[seat].AwaitingClaim?
              then ConfirmingClaim(os.calls[seat].round, os.calls[seat].op, 0)
              else ConfirmingTakeover(os.calls[seat].op))
    case ClaimReadBack(seat) => AfterClaimReadBack(os, seat)
    case ClaimReadFails(seat) =>
      if os.calls[seat].ConfirmingClaim?
      then Retry(os, seat, os.calls[seat].round, os.calls[seat].op, os.calls[seat].tries)
      else EndCall(os, seat)
    case Dispatch(seat) =>
      AfterDispatch(ls, os, seat)
    case DispatchAction(seat) => WithRoute(os, seat)
    case EndSessions(seat) => os.(live := os.live - {seat})
    case StopActor(seat) => os.(routes := os.routes - {seat})
    case BeginDeactivation(seat) => os.(routes := os.routes[seat := Deactivating])
    case BeginRelease(seat) => SetCall(os, seat, ReadingForRelease)
    case ReadForRelease(seat) => AfterReadForRelease(ls, os, seat)
    case ReleaseApplied(seat) => EndCall(os, seat)
    case ReleaseUnsure(seat) =>
      SetCall(os, seat, ConfirmingRelease(os.calls[seat].op, os.calls[seat].seen, 0))
    case ReleaseReadBack(seat) => AfterReleaseReadBack(os, seat)
    case ReleaseReadFails(seat) =>
      var ConfirmingRelease(op, seen, tries) := os.calls[seat];
      if tries + 1 < OWNER_READ_BACKS
      then SetCall(os, seat, ConfirmingRelease(op, seen, tries + 1))
      else EndCall(os, seat)
    case FinishDeactivation(seat) => os.(routes := os.routes - {seat})
    case AbandonCall(seat) => EndCall(os, seat)
    case ClearRoutes(s) =>
      os.(routes := map seat | seat in os.routes && seat.s != s :: os.routes[seat])
    case LandOwner(id) => AfterLanding(os, id)
  }
}
