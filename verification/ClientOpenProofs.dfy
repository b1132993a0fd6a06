/**
 Why `Client::open` ends: every pass that leads to another one spends an attempt,
 excludes an endpoint for good, or records a live Owner other than the last one that
 could not be reached, and only a change of ownership can supply the latter.
 */
module ClientOpenProofs {
  import opened Coordination
  import opened Placement
  import opened ClientOpen

  /** Passes that were answered by a server that does not own the Actor. */
  function Misdirected(env: seq<Pass>, k: nat): nat
    requires k <= |env|
  {
    if k == 0 then 0
    else Misdirected(env, k - 1) + if !Lost(env[k - 1]) && env[k - 1].delivery == Rejected(NotOwner) then 1 else 0
  }

  /** Passes that found a live Owner and could not reach it. */
  function Recordings(env: seq<Pass>, k: nat): nat
    requires k <= |env|
  {
    if k == 0 then 0
    else Recordings(env, k - 1) + if ResolveOwner(env[k - 1]).Live? && Lost(env[k - 1]) then 1 else 0
  }

  /** Every eligible endpoint listed in the first `k` passes. */
  function Listed(env: seq<Pass>, k: nat): set<Endpoint>
    requires k <= |env|
  {
    if k == 0 then {} else Listed(env, k - 1) + Offered(env[k - 1].listing)
  }

  /** How often the Owner changed up to instant `t`. */
  function Changes(history: seq<Option<Owner>>, t: nat): nat
    requires t < |history|
  {
    if t == 0 then 0 else Changes(history, t - 1) + if history[t] != history[t - 1] then 1 else 0
  }

  /** The passes read the owner record at increasing instants of its history. */
  ghost predicate Observes(env: seq<Pass>, history: seq<Option<Owner>>, at: seq<nat>) {
    && |at| == |env|
    && (forall i, j :: 0 <= i <= j < |at| ==> at[i] <= at[j])
    && (forall i :: 0 <= i < |at| ==> at[i] < |history|)
    && (forall i :: 0 <= i < |env| && ResolveOwner(env[i]).Live? ==> history[at[i]] == Some(ResolveOwner(env[i]).owner))
  }

  /** The passes so far were all targeted and all of them failed for now. */
  ghost predicate Trying(env: seq<Pass>, trail: seq<Endpoint>, k: nat) {
    k <= |trail| <= |env| && AllJustified(env, trail, k) && AllRetried(env, k)
  }

  /** A pass that failed for now did so in exactly one of three ways. */
  lemma OneKind(pass: Pass)
    requires Retried(pass) && !ResolveOwner(pass).Unresolved?
    ensures var misdirected := !Lost(pass) && pass.delivery == Rejected(NotOwner);
            var recorded := ResolveOwner(pass).Live? && Lost(pass);
            var excluded := ResolveOwner(pass).Unowned? && (Lost(pass) || pass.delivery == Rejected(RuntimeAtCapacity));
            && (misdirected || recorded || excluded)
            && !(misdirected && recorded) && !(misdirected && excluded) && !(recorded && excluded)
  {
  }

  lemma {:induction false} TargetIsNew(env: seq<Pass>, trail: seq<Endpoint>, k: nat)
    requires k < |trail| <= |env| && Justified(env, trail, k)
    ensures !ResolveOwner(env[k]).Unresolved?
    ensures ResolveOwner(env[k]).Unowned? ==>
              trail[k] in Offered(env[k].listing) && trail[k] !in Excluded(env, trail, k)
  {
  }

  lemma {:induction false} PassesAddUp(env: seq<Pass>, trail: seq<Endpoint>, k: nat)
    requires Trying(env, trail, k)
    ensures k == Misdirected(env, k) + |Excluded(env, trail, k)| + Recordings(env, k)
  {
    if k > 0 {
      PassesAddUp(env, trail, k - 1);
      TargetIsNew(env, trail, k - 1);
      OneKind(env[k - 1]);
    }
  }

  lemma {:induction false} ExcludedWereListed(env: seq<Pass>, trail: seq<Endpoint>, k: nat)
    requires Trying(env, trail, k)
    ensures Excluded(env, trail, k) <= Listed(env, k)
  {
    if k > 0 {
      ExcludedWereListed(env, trail, k - 1);
      TargetIsNew(env, trail, k - 1);
    }
  }

  lemma {:induction false} MisdirectedWereSent(env: seq<Pass>, k: nat)
    requires k <= |env|
    ensures Misdirected(env, k) <= |SentPasses(env, k)|
  {
    if k > 0 {
      MisdirectedWereSent(env, k - 1);
    }
  }

  lemma {:induction false} ChangesGrow(history: seq<Option<Owner>>, t: nat, t': nat)
    requires t <= t' < |history|
    ensures Changes(history, t) <= Changes(history, t')
    ensures history[t] != history[t'] ==> Changes(history, t) < Changes(history, t')
  {
    if t < t' {
      ChangesGrow(history, t, t' - 1);
    }
  }

  /** Two recordings in a row name different Owners, so ownership changed in between. */
  lemma {:induction false} RecordingsNeedChanges(
    env: seq<Pass>, trail: seq<Endpoint>, history: seq<Option<Owner>>, at: seq<nat>, k: nat, t: nat)
    requires Trying(env, trail, k) && Observes(env, history, at)
    requires t < |history| && (k > 0 ==> at[k - 1] <= t)
    ensures FailedOwner(env, k) == None ==> Recordings(env, k) == 0
    ensures FailedOwner(env, k) != None ==>
              Recordings(env, k) <= Changes(history, t) + if history[t] == FailedOwner(env, k) then 1 else 0
  {
    if k > 0 {
      RecordingsNeedChanges(env, trail, history, at, k - 1, at[k - 1]);
      assert Justified(env, trail, k - 1);
      ChangesGrow(history, at[k - 1], t);
    }
  }

  lemma {:induction false} SubsetSize<T>(a: set<T>, b: set<T>)
    requires a <= b
    ensures |a| <= |b|
  {
    if a != {} {
      var x :| x in a;
      SubsetSize(a - {x}, b - {x});
    }
  }

  lemma {:induction false} StillTryingMeans(
    max: nat, env: seq<Pass>, trail: seq<Endpoint>, sends: seq<nat>, accounts: seq<Account>, bound: Option<Endpoint>)
    requires Guaranteed(max, env, StillTrying, trail, sends, accounts, bound)
    ensures Trying(env, trail, |env|)
    ensures max > 0 ==> |SentPasses(env, |env|)| < max
  {
    assert Explained(max, env, trail, sends, StillTrying);
  }

  /** Passes that led to another one are bounded by what was sent, listed and changed. */
  lemma {:induction false} TryingIsBounded(
    env: seq<Pass>, trail: seq<Endpoint>, history: seq<Option<Owner>>, at: seq<nat>)
    requires Trying(env, trail, |env|) && history != [] && Observes(env, history, at)
    ensures |env| <= |SentPasses(env, |env|)| + |Listed(env, |env|)| + Changes(history, |history| - 1) + 1
  {
    var n := |env|;
    PassesAddUp(env, trail, n);
    ExcludedWereListed(env, trail, n);
    SubsetSize(Excluded(env, trail, n), Listed(env, n));
    MisdirectedWereSent(env, n);
    RecordingsNeedChanges(env, trail, history, at, n, |history| - 1);
  }

  /**
   The loop of `open` ends: with E the eligible endpoints ever listed and K the ownership
   changes during the call, no more than max + |E| + K passes lead to another one.
   */
  lemma {:induction false} OpenTerminates(
    max: nat, env: seq<Pass>, trail: seq<Endpoint>, sends: seq<nat>, accounts: seq<Account>, bound: Option<Endpoint>,
    history: seq<Option<Owner>>, at: seq<nat>)
    requires Guaranteed(max, env, StillTrying, trail, sends, accounts, bound)
    requires history != [] && Observes(env, history, at)
    requires max > 0
    ensures |env| <= max + |Listed(env, |env|)| + Changes(history, |history| - 1)
  {
    StillTryingMeans(max, env, trail, sends, accounts, bound);
    TryingIsBounded(env, trail, history, at);
  }

  function EndpointsOf(candidates: seq<Candidate>): set<Endpoint> {
    set candidate | candidate in candidates :: candidate.endpoint
  }

  /**
   With the default strategy, the endpoint whose account is raised is the one that `open`
   addresses and later rolls back: the first valid one of those proposed.
   */
  method PickIsTheTarget(p2c: P2cPlacement, candidates: seq<Candidate>, first: nat, second: nat, now: nat)
    returns (ordered: seq<Endpoint>)
    requires candidates != [] && first < |candidates| && second < |candidates|
    requires |candidates| > 1 ==> first != second
    modifies p2c
    ensures ordered != [] && FirstIn(ordered, EndpointsOf(candidates)) == Some(ordered[0])
    ensures p2c.inFlight == Book(old(p2c.inFlight), Picked(ordered[0], now))
  {
    ordered := p2c.Pick(candidates, first, second, now);
    assert ordered[0] in EndpointsOf(candidates);
  }
}
