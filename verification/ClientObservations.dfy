/**
 What the contract of `Client::open` means in terms of what the call observed: the fields
 of the records it read, of the nodes that were listed, and of the answers it was given.
 Nothing here speaks of how the call computes; and its result is determined by what it saw.
 */
module ClientObservations {
  import opened Coordination
  import opened Placement
  import opened ClientOpen

  /** The record was read and names this owner. */
  predicate RecordNames(pass: Pass, owner: Owner) {
    && pass.record.Found? && pass.record.value.Some? && pass.record.value.value.owner == Some(owner)
  }

  /** The record was read, and nobody owns the address: it is absent or has no owner. */
  predicate RecordUnowned(pass: Pass) {
    pass.record.Found? && (pass.record.value.None? || pass.record.value.value.owner.None?)
  }

  /** The owner's node was read and shows the very session that the record names. */
  predicate NodeShows(pass: Pass, owner: Owner, node: Node) {
    pass.node == Found(Some(node)) && node.session == owner.session
  }

  /** The owner's node was read, and is absent or another session's. */
  predicate NodeLeft(pass: Pass, owner: Owner) {
    pass.node.Found? && (pass.node.value.None? || pass.node.value.value.session != owner.session)
  }

  /** The address is free to place: nobody owns it, or its owner's node has left. */
  ghost predicate FreeToPlace(pass: Pass) {
    RecordUnowned(pass) || exists owner :: RecordNames(pass, owner) && NodeLeft(pass, owner)
  }

  const SPACES: set<int> := {
    9, 10, 11, 12, 13, 32, 133, 160, 5760, 8192, 8193, 8194, 8195, 8196, 8197, 8198, 8199, 8200, 8201, 8202,
    8232, 8233, 8239, 8287, 12288}

  predicate OnlySpaces(s: string) {
    forall i :: 0 <= i < |s| ==> s[i] as int in SPACES
  }

  /** A node that a client can talk to: transport protocol 2 and an endpoint that is not blank. */
  predicate Reachable(node: Node) {
    node.protocol == 2 && !OnlySpaces(node.endpoint)
  }

  /** A node that may be given an Actor. */
  predicate Placeable(node: Node) {
    Reachable(node) && !node.pressured && !node.draining && node.active < node.max
  }

  lemma BlankMeans(s: string)
    ensures Blank(s) <==> OnlySpaces(s)
  {
    if OnlySpaces(s) {
      forall c | c in s ensures IsSpace(c) {
        var i :| 0 <= i < |s| && s[i] == c;
        assert s[i] as int in SPACES;
      }
    } else {
      var i :| 0 <= i < |s| && s[i] as int !in SPACES;
      assert s[i] in s && !IsSpace(s[i]);
    }
  }

  /** The endpoints on offer are exactly those of the placeable nodes that were listed. */
  lemma OfferedMeans(listing: Read<seq<Node>>, endpoint: Endpoint)
    ensures endpoint in Offered(listing)
       <==> listing.Found? && exists node :: node in listing.value && Placeable(node) && node.endpoint == endpoint
  {
    if listing.Found? {
      forall node | node in listing.value ensures Eligible(node) <==> Placeable(node) {
        BlankMeans(node.endpoint);
      }
    }
  }

  /** The address has a live Owner exactly if the record names a session that its reachable node shows. */
  lemma LiveMeans(pass: Pass, endpoint: Endpoint, owner: Owner)
    ensures ResolveOwner(pass) == Live(endpoint, owner)
       <==> RecordNames(pass, owner)
            && exists node :: NodeShows(pass, owner, node) && Reachable(node) && node.endpoint == endpoint
  {
    if pass.node.Found? && pass.node.value.Some? {
      var node := pass.node.value.value;
      BlankMeans(node.endpoint);
      assert NodeShows(pass, owner, node) <==> node.session == owner.session;
    }
  }

  lemma UnownedMeans(pass: Pass)
    ensures ResolveOwner(pass) == Unowned <==> FreeToPlace(pass)
  {
    if pass.record.Found? && pass.record.value.Some? && pass.record.value.value.owner.Some? {
      assert RecordNames(pass, pass.record.value.value.owner.value);
    }
  }

  /**
   A resolution fails exactly if a read fails, or the recorded owner's node shows its
   session but cannot be talked to.
   */
  lemma UnresolvedMeans(pass: Pass, error: SendError)
    ensures ResolveOwner(pass) == Unresolved(error)
       <==> (pass.record.Unread? && error == OwnershipUnavailable)
            || (exists owner :: RecordNames(pass, owner) && pass.node.Unread? && error == DirectoryUnavailable)
            || (exists owner, node :: RecordNames(pass, owner) && NodeShows(pass, owner, node) && !Reachable(node)
                                      && error == RemoteUnavailable)
  {
    if pass.record.Found? && pass.record.value.Some? && pass.record.value.value.owner.Some? {
      var owner := pass.record.value.value.owner.value;
      assert RecordNames(pass, owner);
      if pass.node.Found? && pass.node.value.Some? && pass.node.value.value.session == owner.session {
        BlankMeans(pass.node.value.value.endpoint);
        assert NodeShows(pass, owner, pass.node.value.value);
      }
    }
  }

  /** The pass showed a live Owner at this endpoint. */
  ghost predicate SawOwner(pass: Pass, endpoint: Endpoint) {
    exists owner, node ::
      RecordNames(pass, owner) && NodeShows(pass, owner, node) && Reachable(node) && node.endpoint == endpoint
  }

  /** The pass showed that the address is free, and a placeable node at this endpoint. */
  ghost predicate SawPlace(pass: Pass, endpoint: Endpoint) {
    && FreeToPlace(pass) && pass.listing.Found?
    && exists node :: node in pass.listing.value && Placeable(node) && node.endpoint == endpoint
  }

  /** Every endpoint that `open` addresses is the live Owner's that the pass showed, or a place on a free address. */
  lemma TargetsWereSeen(
    max: nat, env: seq<Pass>, outcome: Outcome, trail: seq<Endpoint>, sends: seq<nat>, accounts: seq<Account>,
    bound: Option<Endpoint>, k: nat)
    requires Guaranteed(max, env, outcome, trail, sends, accounts, bound) && k < |trail|
    ensures k < |env|
    ensures SawOwner(env[k], trail[k]) || SawPlace(env[k], trail[k])
    ensures SawPlace(env[k], trail[k]) <==> FreeToPlace(env[k])
  {
    assert Justified(env, trail, k);
    UnownedMeans(env[k]);
    match ResolveOwner(env[k])
    case Live(endpoint, owner) =>
      LiveMeans(env[k], endpoint, owner);
    case Unowned =>
      OfferedMeans(env[k].listing, trail[k]);
  }

  /** Why a call ended although its last pass addressed nobody. */
  ghost predicate Unaddressed(pass: Pass, error: OpenError) {
    || (pass.record.Unread? && error == NoOwnership)
    || (exists owner :: RecordNames(pass, owner) && pass.node.Unread? && error == NoDirectory)
    || (exists owner, node :: RecordNames(pass, owner) && NodeShows(pass, owner, node) && error == Unreachable)
    || (FreeToPlace(pass) && pass.listing.Unread? && error == NoDirectory)
    || (FreeToPlace(pass) && pass.listing.Found? && error == AtCapacity)
  }

  lemma NoTargetWasSeen(env: seq<Pass>, trail: seq<Endpoint>, error: OpenError)
    requires NoTarget(env, trail, error)
    ensures Unaddressed(env[|trail|], error)
  {
    var pass := env[|trail|];
    match ResolveOwner(pass)
    case Unresolved(cause) => UnresolvedMeans(pass, cause);
    case Live(endpoint, owner) => LiveMeans(pass, endpoint, owner);
    case Unowned => UnownedMeans(pass);
  }

  /** The error of the call for each error that a server or a read gives. */
  lemma ErrorsMean(error: SendError)
    ensures AsOpenError(error) == ClientStopped <==> error == RuntimeStopped || error == RuntimeShuttingDown
    ensures AsOpenError(error) == NoDirectory <==> error == DirectoryUnavailable
    ensures AsOpenError(error) == UnknownActorType <==> error == ActorTypeNotRegistered
    ensures AsOpenError(error) == AtCapacity <==> error == RuntimeAtCapacity
    ensures AsOpenError(error) == NoOwnership <==> error == OwnershipUnavailable
    ensures AsOpenError(error) == Protocol <==> error == RemoteProtocol
    ensures AsOpenError(error) != AttemptsExhausted
  {
  }

  // The result is determined by what was observed.

  lemma {:induction false} SameTrails(env: seq<Pass>, t: seq<Endpoint>, u: seq<Endpoint>, k: nat)
    requires k <= |t| <= |env| && k <= |u| <= |env|
    requires AllJustified(env, t, |t|) && AllJustified(env, u, |u|)
    ensures t[..k] == u[..k] && Excluded(env, t, k) == Excluded(env, u, k)
  {
    if k > 0 {
      SameTrails(env, t, u, k - 1);
      assert Justified(env, t, k - 1) && Justified(env, u, k - 1);
      assert t[..k] == t[..k - 1] + [t[k - 1]] && u[..k] == u[..k - 1] + [u[k - 1]];
    }
  }

  lemma {:induction false} SendsGrow(env: seq<Pass>, i: nat, j: nat)
    requires i <= j <= |env|
    ensures |SentPasses(env, i)| <= |SentPasses(env, j)|
  {
    if i < j {
      SendsGrow(env, i, j - 1);
    }
  }

  /** No trail goes on where another one ended. */
  lemma NoLonger(
    max: nat, env: seq<Pass>, t: seq<Endpoint>, sends: seq<nat>, outcome: Outcome, u: seq<Endpoint>, sends': seq<nat>,
    outcome': Outcome)
    requires max > 0 && Explained(max, env, t, sends, outcome) && Explained(max, env, u, sends', outcome')
    requires sends == SentPasses(env, |t|)
    ensures |u| <= |t|
  {
    if |u| > |t| {
      SameTrails(env, t, u, |t|);
      assert Justified(env, u, |t|);
      if |t| > 0 {
        assert Retried(env[|t| - 1]);
      }
      SendsGrow(env, |t|, |u| - 1);
      assert false;
    }
  }

  /** A trail has one outcome. */
  lemma OneOutcome(max: nat, env: seq<Pass>, trail: seq<Endpoint>, sends: seq<nat>, outcome: Outcome, outcome': Outcome)
    requires max > 0 && Explained(max, env, trail, sends, outcome) && Explained(max, env, trail, sends, outcome')
    ensures outcome == outcome'
  {
    if trail != [] && Retried(env[|trail| - 1]) {
      assert !(env[|trail| - 1].connected && env[|trail| - 1].delivery.Accepted?);
    }
  }

  /**
   Two calls that observe the same do the same: they address the same endpoints, send in
   the same passes, and end with the same outcome.
   */
  lemma OpenIsDetermined(
    max: nat, env: seq<Pass>, outcome: Outcome, trail: seq<Endpoint>, sends: seq<nat>, accounts: seq<Account>,
    bound: Option<Endpoint>, outcome': Outcome, trail': seq<Endpoint>, sends': seq<nat>, accounts': seq<Account>,
    bound': Option<Endpoint>)
    requires max > 0
    requires Guaranteed(max, env, outcome, trail, sends, accounts, bound)
    requires Guaranteed(max, env, outcome', trail', sends', accounts', bound')
    ensures trail' == trail && sends' == sends && outcome' == outcome && bound' == bound
  {
    NoLonger(max, env, trail, sends, outcome, trail', sends', outcome');
    NoLonger(max, env, trail', sends', outcome', trail, sends, outcome);
    SameTrails(env, trail, trail', |trail|);
    assert trail == trail[..|trail|] && trail' == trail'[..|trail|];
    OneOutcome(max, env, trail, sends, outcome, outcome');
  }
}
