/**
 `Client::open`: resolve the Owner, place an unowned Actor, connect, send SessionOpen,
 and try again.

 Everything the call observes in one pass of its loop is a `Pass`: what the two reads
 and the listing returned (or that they failed or timed out), the order the Placement
 Strategy proposed, whether a connection could be acquired, and what became of the
 SessionOpen.  A run of the call is driven by an arbitrary sequence of passes.
 */
module ClientOpen {
  import opened Coordination
  import opened Placement

  const TRANSPORT_PROTOCOL_VERSION: nat := 2

  datatype Node = Node(
    endpoint: Endpoint, session: SessionId, protocol: nat, active: nat, max: nat, pressured: bool, draining: bool)

  datatype SendError =
    | ActorTypeNotRegistered | NotOwner | MailboxFull | ActivationFailed | ActorDeactivating
    | RuntimeAtCapacity | RuntimeShuttingDown | ActorStopped | RuntimeStopped | NodeFenced
    | RemoteUnavailable | DirectoryUnavailable | OwnershipUnavailable | RemoteProtocol

  datatype OpenError =
    | ClientStopped | NoDirectory | AttemptsExhausted | Unreachable | UnknownActorType | AtCapacity
    | NoOwnership | Protocol

  function AsOpenError(error: SendError): OpenError {
    match error
    case RuntimeStopped | RuntimeShuttingDown => ClientStopped
    case DirectoryUnavailable => NoDirectory
    case ActorTypeNotRegistered => UnknownActorType
    case RuntimeAtCapacity => AtCapacity
    case OwnershipUnavailable => NoOwnership
    case RemoteProtocol => Protocol
    case _ => Unreachable
  }

  /** A read of the Coordination Store that may fail or run into the deadline. */
  datatype Read<+T> = Unread | Found(value: T)

  /** A SessionOpen that no server answers in time counts as answered by RemoteUnavailable. */
  datatype Delivery = Unsent | Accepted | Rejected(error: SendError)

  datatype Pass = Pass(
    record: Read<Option<OwnerRecord>>,
    node: Read<Option<Node>>,
    listing: Read<seq<Node>>,
    ordered: seq<Endpoint>,
    now: nat,
    connected: bool,
    delivery: Delivery)

  datatype Resolution = Live(endpoint: Endpoint, owner: Owner) | Unowned | Unresolved(error: SendError)

  /** Unicode `White_Space`, the characters that `str::trim` removes. */
  predicate IsSpace(c: char) {
    var code := c as int;
    || 0x9 <= code <= 0xD || code == 0x20 || code == 0x85 || code == 0xA0 || code == 0x1680
    || 0x2000 <= code <= 0x200A || code == 0x2028 || code == 0x2029 || code == 0x202F || code == 0x205F
    || code == 0x3000
  }

  predicate Blank(s: string) {
    forall c :: c in s ==> IsSpace(c)
  }

  function ResolveOwner(pass: Pass): Resolution {
    if pass.record.Unread? then Unresolved(OwnershipUnavailable)
    else if pass.record.value.None? || pass.record.value.value.owner.None? then Unowned
    else
      var owner := pass.record.value.value.owner.value;
      if pass.node.Unread? then Unresolved(DirectoryUnavailable)
      else if pass.node.value.None? || pass.node.value.value.session != owner.session then Unowned
      else
        var node := pass.node.value.value;
        if node.protocol != TRANSPORT_PROTOCOL_VERSION || Blank(node.endpoint) then Unresolved(RemoteUnavailable)
        else Live(node.endpoint, owner)
  }

  /** The hard filter of `placement_candidates`. */
  predicate Eligible(node: Node) {
    && node.protocol == TRANSPORT_PROTOCOL_VERSION
    && !Blank(node.endpoint)
    && !node.pressured
    && !node.draining
    && node.active < node.max
  }

  /** Endpoints of the listed nodes that pass the hard filter. */
  function Offered(listing: Read<seq<Node>>): set<Endpoint> {
    if listing.Unread? then {} else set node | node in listing.value && Eligible(node) :: node.endpoint
  }

  function FirstIn(ordered: seq<Endpoint>, valid: set<Endpoint>): (first: Option<Endpoint>)
    ensures first.None? <==> forall endpoint :: endpoint in ordered ==> endpoint !in valid
    ensures first.Some? ==> first.value in valid && first.value in ordered
  {
    if ordered == [] then None
    else if ordered[0] in valid then Some(ordered[0])
    else FirstIn(ordered[1..], valid)
  }

  // What the passes so far amount to, as functions of what was observed.

  /** The server addressed in this pass could not be reached. */
  predicate Lost(pass: Pass) {
    !pass.connected || pass.delivery.Unsent? || pass.delivery == Rejected(RemoteUnavailable)
  }

  /** A SessionOpen left for a server. */
  predicate Delivered(pass: Pass) {
    pass.connected && !pass.delivery.Unsent?
  }

  /** The pass failed in a way that another pass may repair. */
  predicate Retried(pass: Pass) {
    || Lost(pass)
    || pass.delivery == Rejected(NotOwner)
    || (pass.delivery == Rejected(RuntimeAtCapacity) && ResolveOwner(pass).Unowned?)
  }

  /** The last live Owner that could not be reached in the first `k` passes. */
  function FailedOwner(env: seq<Pass>, k: nat): Option<Owner>
    requires k <= |env|
  {
    if k == 0 then None
    else if ResolveOwner(env[k - 1]).Live? && Lost(env[k - 1]) then Some(ResolveOwner(env[k - 1]).owner)
    else FailedOwner(env, k - 1)
  }

  /** Placement targets that were lost or at capacity in the first `k` passes. */
  function Excluded(env: seq<Pass>, trail: seq<Endpoint>, k: nat): set<Endpoint>
    requires k <= |trail| <= |env|
  {
    if k == 0 then {}
    else if ResolveOwner(env[k - 1]).Unowned?
            && (Lost(env[k - 1]) || env[k - 1].delivery == Rejected(RuntimeAtCapacity))
    then Excluded(env, trail, k - 1) + {trail[k - 1]}
    else Excluded(env, trail, k - 1)
  }

  /** The passes in which a SessionOpen left, in order. */
  function SentPasses(env: seq<Pass>, k: nat): (sent: seq<nat>)
    requires k <= |env|
  {
    if k == 0 then []
    else SentPasses(env, k - 1) + if Delivered(env[k - 1]) then [k - 1] else []
  }

  /** The targets that the strategy chose, in order. */
  function Placed(env: seq<Pass>, trail: seq<Endpoint>, k: nat): seq<Endpoint>
    requires k <= |trail| <= |env|
  {
    if k == 0 then []
    else Placed(env, trail, k - 1) + if ResolveOwner(env[k - 1]).Unowned? then [trail[k - 1]] else []
  }

  /**
   Pass `k` addresses `trail[k]` for one of two reasons: it is the live Owner just
   resolved, and not the one that was last found unreachable; or the address is
   unowned, and it is the first proposed endpoint that is listed, passes the hard
   filter and was never excluded.
   */
  predicate Justified(env: seq<Pass>, trail: seq<Endpoint>, k: nat)
    requires k < |trail| <= |env|
  {
    match ResolveOwner(env[k])
    case Live(endpoint, owner) => trail[k] == endpoint && FailedOwner(env, k) != Some(owner)
    case Unowned =>
      var valid := Offered(env[k].listing) - Excluded(env, trail, k);
      trail[k] in valid && FirstIn(env[k].ordered, valid) == Some(trail[k])
    case Unresolved(_) => false
  }

  predicate AllJustified(env: seq<Pass>, trail: seq<Endpoint>, n: nat)
    requires n <= |trail| <= |env|
  {
    forall k {:trigger Justified(env, trail, k)} :: 0 <= k < n ==> Justified(env, trail, k)
  }

  predicate AllRetried(env: seq<Pass>, n: nat)
    requires n <= |env|
  {
    forall k {:trigger Retried(env[k])} :: 0 <= k < n ==> Retried(env[k])
  }

  datatype Outcome = StillTrying | Opened(endpoint: Endpoint) | Failed(error: OpenError)

  /** The pass after the last targeted one found nothing to address, for this reason. */
  predicate NoTarget(env: seq<Pass>, trail: seq<Endpoint>, error: OpenError) {
    && |trail| < |env|
    && AllRetried(env, |trail|)
    && var pass := env[|trail|];
       match ResolveOwner(pass)
       case Unresolved(cause) => error == AsOpenError(cause)
       case Live(_, owner) => error == Unreachable && FailedOwner(env, |trail|) == Some(owner)
       case Unowned =>
         if pass.listing.Unread? then error == NoDirectory
         else
           && error == AtCapacity
           && forall e :: e in pass.ordered ==> e !in Offered(pass.listing) || e in Excluded(env, trail, |trail|)
  }

  /** What the outcome says about the passes that were made. */
  predicate Explained(max: nat, env: seq<Pass>, trail: seq<Endpoint>, sends: seq<nat>, outcome: Outcome) {
    && |trail| <= |env|
    && AllJustified(env, trail, |trail|)
    && (trail != [] ==> AllRetried(env, |trail| - 1))
    && (trail != [] && max > 0 ==> |SentPasses(env, |trail| - 1)| < max)
    && match outcome
       case StillTrying =>
         |trail| == |env| && (|trail| > 0 ==> Retried(env[|trail| - 1])) && (max > 0 ==> |sends| < max)
       case Opened(endpoint) =>
         && trail != [] && trail[|trail| - 1] == endpoint
         && env[|trail| - 1].connected && env[|trail| - 1].delivery == Accepted
       case Failed(AttemptsExhausted) =>
         && trail != [] && env[|trail| - 1].connected && |sends| == max
         && (max > 0 ==> Delivered(env[|trail| - 1]) && Retried(env[|trail| - 1]))
       case Failed(error) =>
         || (NoTarget(env, trail, error) && (max > 0 ==> |sends| < max))
         || (&& trail != [] && Delivered(env[|trail| - 1]) && !Retried(env[|trail| - 1])
             && env[|trail| - 1].delivery.Rejected? && error == AsOpenError(env[|trail| - 1].delivery.error))
  }

  /** The selections recorded in an account log. */
  function Selections(accounts: seq<Account>): seq<Endpoint>
    decreases |accounts|
  {
    if accounts == [] then []
    else
      var last := accounts[|accounts| - 1];
      Selections(accounts[..|accounts| - 1]) + if last.Picked? then [last.endpoint] else []
  }

  /** Selections that were rolled back never count again, and a success is never rolled back. */
  ghost predicate Settled(accounts: seq<Account>, kept: Option<Endpoint>) {
    && Paired(accounts)
    && forall endpoint: Endpoint :: Outstanding(accounts, endpoint) == if kept == Some(endpoint) then 1 else 0
  }

  lemma {:induction false} Appended(accounts: seq<Account>, account: Account)
    ensures Selections(accounts + [account])
         == Selections(accounts) + if account.Picked? then [account.endpoint] else []
    ensures Paired(accounts + [account])
            <==> Paired(accounts) && (account.RolledBack? ==> Outstanding(accounts, account.endpoint) >= 1)
    ensures forall e: Endpoint :: Outstanding(accounts + [account], e)
                                  == Outstanding(accounts, e)
                                     + if account.endpoint != e then 0 else if account.Picked? then 1 else -1
  {
    assert (accounts + [account])[..|accounts|] == accounts;
  }

  /** A longer trail does not change what earlier passes amounted to. */
  lemma {:induction false} ExtendedTrail(env: seq<Pass>, trail: seq<Endpoint>, endpoint: Endpoint, k: nat)
    requires k <= |trail| < |env|
    ensures Excluded(env, trail + [endpoint], k) == Excluded(env, trail, k)
    ensures Placed(env, trail + [endpoint], k) == Placed(env, trail, k)
    ensures k < |trail| ==> (Justified(env, trail + [endpoint], k) <==> Justified(env, trail, k))
  {
    if k > 0 {
      ExtendedTrail(env, trail, endpoint, k - 1);
    }
  }

  /** How a pass that found its target leads on. */
  datatype Verdict = Opens | GivesUp(error: OpenError) | Repeats | Excludes | Records

  /** The error match at the end of the loop. */
  function Judge(error: SendError, placement: bool, spent: bool): Verdict {
    match error
    case NotOwner => if spent then GivesUp(AttemptsExhausted) else Repeats
    case RuntimeAtCapacity =>
      if !placement then GivesUp(AsOpenError(error))
      else if spent then GivesUp(AttemptsExhausted)
      else Excludes
    case RemoteUnavailable =>
      if spent then GivesUp(AttemptsExhausted) else if placement then Excludes else Records
    case _ => GivesUp(AsOpenError(error))
  }

  /** Whether the pass gets as far as sending a SessionOpen. */
  predicate Sends(pass: Pass, attempts: nat, max: nat) {
    Delivered(pass) && attempts < max
  }

  /** The verdict on a pass in terms of what was observed in it. */
  ghost predicate Deserved(pass: Pass, attempts: nat, max: nat, verdict: Verdict) {
    match verdict
    case Opens => pass.connected && attempts < max && pass.delivery.Accepted?
    case GivesUp(AttemptsExhausted) =>
      pass.connected && (attempts >= max || (attempts + 1 >= max && Delivered(pass) && Retried(pass)))
    case GivesUp(error) =>
      && Delivered(pass) && attempts < max && !Retried(pass)
      && pass.delivery.Rejected? && error == AsOpenError(pass.delivery.error)
    case Repeats => pass.connected && pass.delivery == Rejected(NotOwner) && attempts + 1 < max
    case Excludes =>
      && ResolveOwner(pass).Unowned? && (Lost(pass) || pass.delivery == Rejected(RuntimeAtCapacity))
      && (Delivered(pass) ==> attempts + 1 < max)
    case Records =>
      ResolveOwner(pass).Live? && Lost(pass) && (Delivered(pass) ==> attempts + 1 < max)
  }

  /** The rest of the pass once it has a target: acquire a connection, send, and settle a failure. */
  method Attempt(
    max: nat, pass: Pass, i: nat, endpoint: Endpoint, placement: bool, attempts: nat, sends: seq<nat>,
    accounts: seq<Account>)
    returns (verdict: Verdict, attempts': nat, sends': seq<nat>, accounts': seq<Account>, bound: Option<Endpoint>)
    requires placement == ResolveOwner(pass).Unowned? && !ResolveOwner(pass).Unresolved?
    ensures Deserved(pass, attempts, max, verdict)
    ensures Sends(pass, attempts, max) ==> attempts' == attempts + 1 && sends' == sends + [i]
    ensures !Sends(pass, attempts, max) ==> attempts' == attempts && sends' == sends
    ensures accounts' == if verdict.Opens? || !placement then accounts else accounts + [RolledBack(endpoint)]
    ensures bound == if verdict.Opens? then Some(endpoint) else None
  {
    attempts', sends', accounts', bound := attempts, sends, accounts, None;
    if !pass.connected {
      if placement {
        accounts' := accounts' + [RolledBack(endpoint)];
        verdict := Excludes;
      } else {
        verdict := Records;
      }
      return;
    }
    bound := Some(endpoint);
    if attempts' >= max {
      bound := None;
      if placement {
        accounts' := accounts' + [RolledBack(endpoint)];
      }
      verdict := GivesUp(AttemptsExhausted);
      return;
    }
    if !pass.delivery.Unsent? {
      attempts' := attempts' + 1;
      sends' := sends' + [i];
    }
    if pass.delivery.Accepted? {
      verdict := Opens;
      return;
    }
    bound := None;
    if placement {
      accounts' := accounts' + [RolledBack(endpoint)];
    }
    var error := if pass.delivery.Unsent? then RemoteUnavailable else pass.delivery.error;
    verdict := Judge(error, placement, attempts' >= max);
  }

  /** The endpoint to address in this pass, or why there is none. */
  ghost predicate Aimed(
    pass: Pass, excluded: set<Endpoint>, failed: Option<Owner>, endpoint: Endpoint, failure: Option<OpenError>)
  {
    match ResolveOwner(pass)
    case Unresolved(error) => failure == Some(AsOpenError(error))
    case Live(target, owner) =>
      if failed == Some(owner) then failure == Some(Unreachable) else failure == None && endpoint == target
    case Unowned =>
      var choice := FirstIn(pass.ordered, Offered(pass.listing) - excluded);
      if pass.listing.Unread? then failure == Some(NoDirectory)
      else if choice == None then failure == Some(AtCapacity)
      else failure == None && choice == Some(endpoint)
  }

  /** The head of the loop: the endpoint to address, or the error that ends the call. */
  method Target(pass: Pass, excluded: set<Endpoint>, failed: Option<Owner>)
    returns (endpoint: Endpoint, placement: bool, failure: Option<OpenError>)
    ensures placement == ResolveOwner(pass).Unowned?
    ensures Aimed(pass, excluded, failed, endpoint, failure)
  {
    endpoint, placement, failure := "", false, None;
    match ResolveOwner(pass) {
      case Unresolved(error) =>
        failure := Some(AsOpenError(error));
      case Live(target, owner) =>
        if failed == Some(owner) {
          failure := Some(Unreachable);
        } else {
          endpoint := target;
        }
      case Unowned =>
        placement := true;
        var choice := FirstIn(pass.ordered, Offered(pass.listing) - excluded);
        if pass.listing.Unread? {
          failure := Some(AsOpenError(DirectoryUnavailable));
        } else if choice == None {
          failure := Some(AsOpenError(RuntimeAtCapacity));
        } else {
          endpoint := choice.value;
        }
    }
  }

  /** Everything that holds between two passes. */
  ghost predicate Between(
    max: nat, env: seq<Pass>, trail: seq<Endpoint>, attempts: nat, excluded: set<Endpoint>,
    failed: Option<Owner>, sends: seq<nat>, accounts: seq<Account>)
  {
    && |trail| <= |env|
    && AllJustified(env, trail, |trail|)
    && AllRetried(env, |trail|)
    && failed == FailedOwner(env, |trail|)
    && excluded == Excluded(env, trail, |trail|)
    && attempts == |sends|
    && (if max > 0 then sends == SentPasses(env, |trail|) && attempts < max else sends == [])
    && Settled(accounts, None)
    && Selections(accounts) == Placed(env, trail, |trail|)
  }

  /** The endpoint a pass selected, if it was chosen by the strategy. */
  function Selected(pass: Pass, endpoint: Endpoint): Option<Endpoint> {
    if ResolveOwner(pass).Unowned? then Some(endpoint) else None
  }

  /** Everything that holds once the last pass of the trail has found its target. */
  ghost predicate Targeted(
    max: nat, env: seq<Pass>, trail: seq<Endpoint>, attempts: nat, excluded: set<Endpoint>,
    failed: Option<Owner>, sends: seq<nat>, accounts: seq<Account>)
  {
    && 0 < |trail| <= |env|
    && var last := |trail| - 1;
       && AllJustified(env, trail, |trail|)
       && AllRetried(env, last)
       && failed == FailedOwner(env, last)
       && excluded == Excluded(env, trail, last)
       && attempts == |sends|
       && (if max > 0 then sends == SentPasses(env, last) && attempts < max else sends == [])
       && Settled(accounts, Selected(env[last], trail[last]))
       && Selections(accounts) == Placed(env, trail, |trail|)
  }

  function Picking(accounts: seq<Account>, pass: Pass, endpoint: Endpoint): seq<Account> {
    if ResolveOwner(pass).Unowned? then accounts + [Picked(endpoint, pass.now)] else accounts
  }

  lemma {:induction false} StaysJustified(env: seq<Pass>, trail: seq<Endpoint>, endpoint: Endpoint)
    requires |trail| < |env| && AllJustified(env, trail, |trail|) && Justified(env, trail + [endpoint], |trail|)
    ensures AllJustified(env, trail + [endpoint], |trail| + 1)
  {
    forall k | 0 <= k < |trail| ensures Justified(env, trail + [endpoint], k) {
      ExtendedTrail(env, trail, endpoint, k);
      assert Justified(env, trail, k);
    }
  }

  lemma {:induction false} JustifiedByAim(
    env: seq<Pass>, trail: seq<Endpoint>, excluded: set<Endpoint>, failed: Option<Owner>)
    requires 0 < |trail| <= |env|
    requires var last := |trail| - 1;
             && excluded == Excluded(env, trail, last) && failed == FailedOwner(env, last)
             && Aimed(env[last], excluded, failed, trail[last], None)
    ensures Justified(env, trail, |trail| - 1)
  {
  }

  lemma {:induction false} TargetFound(
    max: nat, env: seq<Pass>, trail: seq<Endpoint>, attempts: nat, excluded: set<Endpoint>,
    failed: Option<Owner>, sends: seq<nat>, accounts: seq<Account>, endpoint: Endpoint)
    requires Between(max, env, trail, attempts, excluded, failed, sends, accounts)
    requires |trail| < |env| && Aimed(env[|trail|], excluded, failed, endpoint, None)
    ensures Targeted(max, env, trail + [endpoint], attempts, excluded, failed, sends,
                     Picking(accounts, env[|trail|], endpoint))
  {
    var trail' := trail + [endpoint];
    ExtendedTrail(env, trail, endpoint, |trail|);
    JustifiedByAim(env, trail', excluded, failed);
    StaysJustified(env, trail, endpoint);
    if ResolveOwner(env[|trail|]).Unowned? {
      Appended(accounts, Picked(endpoint, env[|trail|].now));
    }
  }

  lemma {:induction false} RollBack(accounts: seq<Account>, endpoint: Endpoint)
    requires Settled(accounts, Some(endpoint))
    ensures Settled(accounts + [RolledBack(endpoint)], None)
    ensures Selections(accounts + [RolledBack(endpoint)]) == Selections(accounts)
  {
    Appended(accounts, RolledBack(endpoint));
    assert Outstanding(accounts, endpoint) == 1;
  }

  /** What a finished (or interrupted) call guarantees. */
  ghost predicate Guaranteed(
    max: nat, env: seq<Pass>, outcome: Outcome, trail: seq<Endpoint>, sends: seq<nat>,
    accounts: seq<Account>, bound: Option<Endpoint>)
  {
    && Explained(max, env, trail, sends, outcome)
    && sends == (if max > 0 then SentPasses(env, |trail|) else [])
    && |sends| <= max
    && Selections(accounts) == Placed(env, trail, |trail|)
    && Settled(accounts, if outcome.Opened? then Selected(env[|trail| - 1], outcome.endpoint) else None)
    && bound == if outcome.Opened? then Some(outcome.endpoint) else None
  }

  /** A pass without a target ends the call. */
  lemma {:induction false} EndsUntargeted(
    max: nat, env: seq<Pass>, trail: seq<Endpoint>, attempts: nat, excluded: set<Endpoint>,
    failed: Option<Owner>, sends: seq<nat>, accounts: seq<Account>, endpoint: Endpoint, error: OpenError)
    requires Between(max, env, trail, attempts, excluded, failed, sends, accounts)
    requires |trail| < |env| && Aimed(env[|trail|], excluded, failed, endpoint, Some(error))
    ensures Guaranteed(max, env, Failed(error), trail, sends, accounts, None)
  {
    assert error != AttemptsExhausted && NoTarget(env, trail, error);
  }

  function SendsAfter(sends: seq<nat>, pass: Pass, i: nat, max: nat): seq<nat> {
    if Sends(pass, |sends|, max) then sends + [i] else sends
  }

  function AccountsAfter(accounts: seq<Account>, pass: Pass, endpoint: Endpoint): seq<Account> {
    if ResolveOwner(pass).Unowned? then accounts + [RolledBack(endpoint)] else accounts
  }

  /** A pass that may be repaired leads to another one, its target excluded or recorded as it deserves. */
  lemma {:induction false} Continues(
    max: nat, env: seq<Pass>, trail: seq<Endpoint>, attempts: nat, excluded: set<Endpoint>,
    failed: Option<Owner>, sends: seq<nat>, accounts: seq<Account>, verdict: Verdict)
    requires Targeted(max, env, trail, attempts, excluded, failed, sends, accounts)
    requires Deserved(env[|trail| - 1], attempts, max, verdict) && !verdict.Opens? && !verdict.GivesUp?
    ensures var last := |trail| - 1;
            var sends' := SendsAfter(sends, env[last], last, max);
            Between(max, env, trail, |sends'|,
                    if verdict.Excludes? then excluded + {trail[last]} else excluded,
                    if verdict.Records? then Some(ResolveOwner(env[last]).owner) else failed,
                    sends', AccountsAfter(accounts, env[last], trail[last]))
  {
    if ResolveOwner(env[|trail| - 1]).Unowned? {
      RollBack(accounts, trail[|trail| - 1]);
    }
  }

  /** A pass that opened the session, failed for good or spent the last attempt ends the call. */
  lemma {:induction false} Ends(
    max: nat, env: seq<Pass>, trail: seq<Endpoint>, attempts: nat, excluded: set<Endpoint>,
    failed: Option<Owner>, sends: seq<nat>, accounts: seq<Account>, verdict: Verdict)
    requires Targeted(max, env, trail, attempts, excluded, failed, sends, accounts)
    requires Deserved(env[|trail| - 1], attempts, max, verdict) && (verdict.Opens? || verdict.GivesUp?)
    ensures var last := |trail| - 1;
            var sends' := SendsAfter(sends, env[last], last, max);
            if verdict.Opens?
            then Guaranteed(max, env, Opened(trail[last]), trail, sends', accounts, Some(trail[last]))
            else Guaranteed(max, env, Failed(verdict.error), trail, sends',
                            AccountsAfter(accounts, env[last], trail[last]), None)
  {
    if verdict.GivesUp? && ResolveOwner(env[|trail| - 1]).Unowned? {
      RollBack(accounts, trail[|trail| - 1]);
    }
  }

  lemma {:induction false} EndsInterrupted(
    max: nat, env: seq<Pass>, trail: seq<Endpoint>, attempts: nat, excluded: set<Endpoint>,
    failed: Option<Owner>, sends: seq<nat>, accounts: seq<Account>)
    requires Between(max, env, trail, attempts, excluded, failed, sends, accounts) && |trail| == |env|
    ensures Guaranteed(max, env, StillTrying, trail, sends, accounts, None)
  {
  }

  /** One pass of the loop: it ends the call, or everything that holds between two passes holds again. */
  method OnePass(
    max: nat, env: seq<Pass>, trail: seq<Endpoint>, attempts: nat, excluded: set<Endpoint>,
    failed: Option<Owner>, sends: seq<nat>, accounts: seq<Account>)
    returns (
      outcome: Outcome, trail': seq<Endpoint>, attempts': nat, excluded': set<Endpoint>, failed': Option<Owner>,
      sends': seq<nat>, accounts': seq<Account>, bound: Option<Endpoint>)
    requires Between(max, env, trail, attempts, excluded, failed, sends, accounts) && |trail| < |env|
    ensures outcome.StillTrying? ==>
              |trail'| == |trail| + 1 && Between(max, env, trail', attempts', excluded', failed', sends', accounts')
    ensures !outcome.StillTrying? ==> Guaranteed(max, env, outcome, trail', sends', accounts', bound)
  {
    var pass := env[|trail|];
    trail', attempts', excluded', failed' := trail, attempts, excluded, failed;
    sends', accounts', bound := sends, accounts, None;
    var endpoint, placement, failure := Target(pass, excluded, failed);
    if failure.Some? {
      EndsUntargeted(max, env, trail, attempts, excluded, failed, sends, accounts, endpoint, failure.value);
      outcome := Failed(failure.value);
      return;
    }
    TargetFound(max, env, trail, attempts, excluded, failed, sends, accounts, endpoint);
    if placement {
      accounts' := accounts' + [Picked(endpoint, pass.now)];
    }
    trail' := trail' + [endpoint];
    ghost var picked := accounts';
    assert env[|trail'| - 1] == pass && trail'[|trail'| - 1] == endpoint;
    var verdict;
    verdict, attempts', sends', accounts', bound :=
      Attempt(max, pass, |trail|, endpoint, placement, attempts, sends, accounts');
    if verdict.Opens? || verdict.GivesUp? {
      Ends(max, env, trail', attempts, excluded, failed, sends, picked, verdict);
      outcome := if verdict.Opens? then Opened(endpoint) else Failed(verdict.error);
      return;
    }
    Continues(max, env, trail', attempts, excluded, failed, sends, picked, verdict);
    if verdict.Excludes? {
      excluded' := excluded' + {endpoint};
    } else if verdict.Records? {
      failed' := Some(ResolveOwner(pass).owner);
    }
    outcome := StillTrying;
  }

  /**
   The retry loop.  `trail` lists the endpoint addressed in each pass, `sends` the passes
   in which a SessionOpen was sent, `accounts` the strategy's selections and rollbacks,
   and `bound` the endpoint whose connection the session is left bound to.
   */
  method Open(max: nat, running: bool, env: seq<Pass>)
    returns (outcome: Outcome, trail: seq<Endpoint>, sends: seq<nat>, accounts: seq<Account>, bound: Option<Endpoint>)
    ensures !running ==> outcome == Failed(ClientStopped) && trail == [] && sends == [] && accounts == []
    ensures !running ==> bound == None
    ensures running ==> Guaranteed(max, env, outcome, trail, sends, accounts, bound)
  {
    trail, sends, accounts, bound := [], [], [], None;
    if !running {
      return Failed(ClientStopped), trail, sends, accounts, bound;
    }
    var attempts: nat := 0;
    var excluded: set<Endpoint> := {};
    var failed: Option<Owner> := None;
    outcome := StillTrying;
    while |trail| < |env|
      invariant Between(max, env, trail, attempts, excluded, failed, sends, accounts)
      invariant outcome.StillTrying?
      decreases |env| - |trail|
    {
      outcome, trail, attempts, excluded, failed, sends, accounts, bound :=
        OnePass(max, env, trail, attempts, excluded, failed, sends, accounts);
      if !outcome.StillTrying? {
        return;
      }
    }
    bound := None;
    EndsInterrupted(max, env, trail, attempts, excluded, failed, sends, accounts);
  }
}
