/**
 The default placement strategy: power of two choices on predicted load ratios, with
 client-local accounting of placements that the directory does not show yet.

 Ratios are exact rationals.  The two sampled candidates and the clock are parameters
 of `Pick`; the source resamples until the two differ.
 */
module Placement {
  type Endpoint = string

  const IN_FLIGHT_TTL_MS: nat := 3000

  datatype Candidate = Candidate(endpoint: Endpoint, active: nat, max: nat)

  /** Placements decided but not yet visible, and when the entry was last raised. */
  datatype Entry = Entry(count: nat, updated: nat)
  type InFlight = map<Endpoint, Entry>

  function Extra(flight: InFlight, endpoint: Endpoint): nat {
    if endpoint in flight then flight[endpoint].count else 0
  }

  function Capacity(candidate: Candidate): (c: nat)
    ensures c >= 1
  {
    if candidate.max >= 1 then candidate.max else 1
  }

  function PredictedRatio(candidate: Candidate, flight: InFlight): real {
    (candidate.active + Extra(flight, candidate.endpoint)) as real / Capacity(candidate) as real
  }

  function Unexpired(flight: InFlight, now: nat): InFlight {
    map endpoint | endpoint in flight && now < flight[endpoint].updated + IN_FLIGHT_TTL_MS :: flight[endpoint]
  }

  function Raised(flight: InFlight, endpoint: Endpoint, now: nat): InFlight {
    flight[endpoint := Entry(Extra(flight, endpoint) + 1, now)]
  }

  /** `on_placement_failed`: a saturating decrement of an entry that still exists. */
  function Lowered(flight: InFlight, endpoint: Endpoint): InFlight {
    if endpoint !in flight then flight
    else
      var count := flight[endpoint].count;
      flight[endpoint := flight[endpoint].(count := if count > 0 then count - 1 else 0)]
  }

  /** The sampled pair, better ratio first; the sort is stable, so `first` wins ties. */
  function Ranked(candidates: seq<Candidate>, flight: InFlight, first: nat, second: nat): (order: seq<nat>)
    requires first < |candidates| && second < |candidates|
    ensures order != [] && forall k :: k in order ==> k < |candidates|
  {
    if first == second then [first]
    else if PredictedRatio(candidates[second], flight) < PredictedRatio(candidates[first], flight) then [second, first]
    else [first, second]
  }

  /** The second sample overtakes the first only with a strictly smaller ratio. */
  lemma RankedMeans(candidates: seq<Candidate>, flight: InFlight, first: nat, second: nat)
    requires first < |candidates| && second < |candidates| && first != second
    ensures var a, b := PredictedRatio(candidates[first], flight), PredictedRatio(candidates[second], flight);
            Ranked(candidates, flight, first, second) == if b < a then [second, first] else [first, second]
  {
  }

  class P2cPlacement {
    var inFlight: InFlight

    constructor ()
      ensures inFlight == map[]
    {
      inFlight := map[];
    }

    /**
     The better of the two samples comes first and only its account is raised, after
     expired entries are forgotten; without candidates nothing happens.
     */
    method Pick(candidates: seq<Candidate>, first: nat, second: nat, now: nat) returns (picked: seq<Endpoint>)
      requires candidates != [] ==> first < |candidates| && second < |candidates|
      requires |candidates| > 1 ==> first != second
      modifies this
      ensures candidates == [] ==> picked == [] && inFlight == old(inFlight)
      ensures candidates != [] ==>
                var flight := Unexpired(old(inFlight), now);
                && picked != [] && inFlight == Raised(flight, picked[0], now)
                && (exists k :: (k == first || k == second) && picked[0] == candidates[k].endpoint
                                && PredictedRatio(candidates[k], flight) <= PredictedRatio(candidates[first], flight)
                                && PredictedRatio(candidates[k], flight) <= PredictedRatio(candidates[second], flight))
                && picked[0] == candidates[Ranked(candidates, flight, first, second)[0]].endpoint
                && (|picked| == 1 <==> first == second)
                && (|picked| == 2 ==>
                      multiset(picked) == multiset([candidates[first].endpoint, candidates[second].endpoint]))
    {
      if candidates == [] {
        return [];
      }
      inFlight := Unexpired(inFlight, now);
      var flight := inFlight;
      var order := Ranked(candidates, inFlight, first, second);
      var target := candidates[order[0]].endpoint;
      inFlight := Raised(inFlight, target, now);
      picked := [];
      for i := 0 to |order|
        invariant inFlight == Raised(flight, target, now)
        invariant |picked| == i
        invariant forall j :: 0 <= j < i ==> picked[j] == candidates[order[j]].endpoint
      {
        picked := picked + [candidates[order[i]].endpoint];
      }
      if |order| == 2 {
        assert picked == [candidates[order[0]].endpoint, candidates[order[1]].endpoint];
      }
    }

    /** One placement fewer is predicted for the endpoint, never fewer than none; nothing else changes. */
    method OnPlacementFailed(endpoint: Endpoint)
      modifies this
      ensures inFlight.Keys == old(inFlight.Keys)
      ensures var before := old(Extra(inFlight, endpoint));
              Extra(inFlight, endpoint) == if before > 0 then before - 1 else 0
      ensures forall other :: other in inFlight && other != endpoint ==> inFlight[other] == old(inFlight)[other]
      ensures forall other :: other in inFlight ==> inFlight[other].updated == old(inFlight)[other].updated
      ensures inFlight == Book(old(inFlight), RolledBack(endpoint))
    {
      if endpoint in inFlight {
        var entry := inFlight[endpoint];
        inFlight := inFlight[endpoint := Entry(if entry.count > 0 then entry.count - 1 else 0, entry.updated)];
      }
    }
  }

  // Balance between two candidates.

  function Abs(x: real): real {
    if x < 0.0 then -x else x
  }

  function Max(x: real, y: real): real {
    if x < y then y else x
  }

  function Gap(a: Candidate, b: Candidate, flight: InFlight): real {
    Abs(PredictedRatio(a, flight) - PredictedRatio(b, flight))
  }

  /** One placement weighs at most this much on either of the two. */
  function Grain(a: Candidate, b: Candidate): real {
    1.0 / (if Capacity(a) < Capacity(b) then Capacity(a) else Capacity(b)) as real
  }

  /** One selection between two candidates, sampled in either order, with nothing expiring. */
  function Select(a: Candidate, b: Candidate, flight: InFlight, swapped: bool, now: nat): InFlight {
    var candidates := [a, b];
    var order := Ranked(candidates, flight, if swapped then 1 else 0, if swapped then 0 else 1);
    Raised(flight, candidates[order[0]].endpoint, now)
  }

  function SelectAll(a: Candidate, b: Candidate, flight: InFlight, samples: seq<(bool, nat)>): InFlight
    decreases |samples|
  {
    if samples == [] then flight
    else
      var last := samples[|samples| - 1];
      Select(a, b, SelectAll(a, b, flight, samples[..|samples| - 1]), last.0, last.1)
  }

  /** Raising an account adds one over the capacity to its own ratio and nothing to the other's. */
  lemma RaiseAddsOne(c: Candidate, flight: InFlight, endpoint: Endpoint, now: nat)
    ensures PredictedRatio(c, Raised(flight, endpoint, now))
            == PredictedRatio(c, flight) + if c.endpoint == endpoint then 1.0 / Capacity(c) as real else 0.0
  {
    if c.endpoint == endpoint {
      var n := (c.active + Extra(flight, endpoint)) as real;
      var d := Capacity(c) as real;
      assert (n + 1.0) / d == n / d + 1.0 / d;
    }
  }

  lemma ReciprocalOrder(x: nat, y: nat)
    requires 1 <= x <= y
    ensures 1.0 / y as real <= 1.0 / x as real
  {
    assert (1.0 / x as real - 1.0 / y as real) * (x as real * y as real) == y as real - x as real;
  }

  lemma GrainCovers(a: Candidate, b: Candidate)
    ensures 1.0 / Capacity(a) as real <= Grain(a, b) && 1.0 / Capacity(b) as real <= Grain(a, b)
  {
    if Capacity(a) < Capacity(b) {
      ReciprocalOrder(Capacity(a), Capacity(b));
    } else {
      ReciprocalOrder(Capacity(b), Capacity(a));
    }
  }

  lemma SelectKeepsGap(a: Candidate, b: Candidate, flight: InFlight, swapped: bool, now: nat)
    requires a.endpoint != b.endpoint
    ensures Gap(a, b, Select(a, b, flight, swapped, now)) <= Max(Gap(a, b, flight), Grain(a, b))
  {
    GrainCovers(a, b);
    RaiseAddsOne(a, flight, a.endpoint, now);
    RaiseAddsOne(b, flight, a.endpoint, now);
    RaiseAddsOne(a, flight, b.endpoint, now);
    RaiseAddsOne(b, flight, b.endpoint, now);
    assert 0.0 <= 1.0 / Capacity(a) as real && 0.0 <= 1.0 / Capacity(b) as real;
  }

  /**
   However often and in whatever order the two are sampled, the predicted ratios never
   drift apart by more than the initial gap or one placement on the smaller candidate.
   */
  lemma {:induction false} Balanced(a: Candidate, b: Candidate, flight: InFlight, samples: seq<(bool, nat)>)
    requires a.endpoint != b.endpoint
    ensures Gap(a, b, SelectAll(a, b, flight, samples)) <= Max(Gap(a, b, flight), Grain(a, b))
    decreases |samples|
  {
    if samples != [] {
      var last := samples[|samples| - 1];
      Balanced(a, b, flight, samples[..|samples| - 1]);
      SelectKeepsGap(a, b, SelectAll(a, b, flight, samples[..|samples| - 1]), last.0, last.1);
    }
  }

  /** As long as nothing expires, a pick between two candidates is one selection as `Balanced` counts them. */
  method PickIsSelect(p2c: P2cPlacement, a: Candidate, b: Candidate, swapped: bool, now: nat)
    returns (picked: seq<Endpoint>)
    requires Unexpired(p2c.inFlight, now) == p2c.inFlight
    modifies p2c
    ensures p2c.inFlight == Select(a, b, old(p2c.inFlight), swapped, now)
  {
    picked := p2c.Pick([a, b], if swapped then 1 else 0, if swapped then 0 else 1, now);
  }

  // Accounting.

  datatype Account =
    | Picked(endpoint: Endpoint, now: nat)
    | RolledBack(endpoint: Endpoint)

  function Book(flight: InFlight, account: Account): InFlight {
    match account
    case Picked(endpoint, now) => Raised(Unexpired(flight, now), endpoint, now)
    case RolledBack(endpoint) => Lowered(flight, endpoint)
  }

  /** The ratio is the active Actors and the placements not yet visible, per Actor the server may hold, at least one. */
  lemma RatioMeans(candidate: Candidate, flight: InFlight)
    ensures var capacity := if candidate.max == 0 then 1 else candidate.max;
            PredictedRatio(candidate, flight) * capacity as real
            == (candidate.active + if candidate.endpoint in flight then flight[candidate.endpoint].count else 0) as real
  {
  }

  /**
   A selection drops the entries that are three seconds old or older, then counts one more
   for its endpoint and dates it now; every other entry stays as it is.
   */
  lemma PickedMeans(flight: InFlight, endpoint: Endpoint, now: nat, other: Endpoint)
    ensures var after := Book(flight, Picked(endpoint, now));
            var recent := other in flight && now - flight[other].updated < 3000;
            if other == endpoint
            then other in after && after[other] == Entry(if recent then flight[other].count + 1 else 1, now)
            else (other in after <==> recent) && (recent ==> after[other] == flight[other])
  {
  }

  /** Rolling a selection back undoes it, for every endpoint. */
  lemma RollbackUndoesPick(flight: InFlight, endpoint: Endpoint, now: nat, other: Endpoint)
    ensures Extra(Book(Book(flight, Picked(endpoint, now)), RolledBack(endpoint)), other)
         == Extra(Unexpired(flight, now), other)
  {
  }

  function BookAll(accounts: seq<Account>): InFlight
    decreases |accounts|
  {
    if accounts == [] then map[] else Book(BookAll(accounts[..|accounts| - 1]), accounts[|accounts| - 1])
  }

  /** Selections of an endpoint that have not been rolled back. */
  function Outstanding(accounts: seq<Account>, endpoint: Endpoint): int
    decreases |accounts|
  {
    if accounts == [] then 0
    else
      var last := accounts[|accounts| - 1];
      Outstanding(accounts[..|accounts| - 1], endpoint)
      + if last.endpoint != endpoint then 0 else if last.Picked? then 1 else -1
  }

  /** Every rollback undoes a selection made before it. */
  predicate Paired(accounts: seq<Account>)
    decreases |accounts|
  {
    accounts != [] ==>
      var last := accounts[|accounts| - 1];
      && Paired(accounts[..|accounts| - 1])
      && (last.RolledBack? ==> Outstanding(accounts[..|accounts| - 1], last.endpoint) >= 1)
  }

  lemma {:induction false} PairedNonNegative(accounts: seq<Account>, endpoint: Endpoint)
    requires Paired(accounts)
    ensures Outstanding(accounts, endpoint) >= 0
    decreases |accounts|
  {
    if accounts != [] {
      PairedNonNegative(accounts[..|accounts| - 1], endpoint);
    }
  }

  /** No entry is ever old enough to be forgotten when a selection is made. */
  predicate NothingExpires(accounts: seq<Account>)
    decreases |accounts|
  {
    accounts != [] ==>
      var last := accounts[|accounts| - 1];
      var before := BookAll(accounts[..|accounts| - 1]);
      NothingExpires(accounts[..|accounts| - 1]) && (last.Picked? ==> Unexpired(before, last.now) == before)
  }

  /**
   The account of an endpoint never exceeds its selections less its rollbacks, and
   equals them as long as nothing has expired.
   */
  lemma {:induction false} AccountsAddUp(accounts: seq<Account>, endpoint: Endpoint)
    requires Paired(accounts)
    ensures Extra(BookAll(accounts), endpoint) <= Outstanding(accounts, endpoint)
    ensures NothingExpires(accounts) ==> Extra(BookAll(accounts), endpoint) == Outstanding(accounts, endpoint)
    decreases |accounts|
  {
    if accounts != [] {
      AccountsAddUp(accounts[..|accounts| - 1], endpoint);
      PairedNonNegative(accounts[..|accounts| - 1], endpoint);
    }
  }

  // Any number of calls share the accounts; each entry carries the call it belongs to.

  type Tagged = (nat, Account)

  function Untag(log: seq<Tagged>): (accounts: seq<Account>)
    ensures |accounts| == |log|
    decreases |log|
  {
    if log == [] then [] else Untag(log[..|log| - 1]) + [log[|log| - 1].1]
  }

  /** The entries of one call, or those of all others. */
  function Part(log: seq<Tagged>, call: nat, own: bool): (part: seq<Tagged>)
    ensures |part| <= |log|
    decreases |log|
  {
    if log == [] then []
    else if (log[|log| - 1].0 == call) == own then Part(log[..|log| - 1], call, own) + [log[|log| - 1]]
    else Part(log[..|log| - 1], call, own)
  }

  lemma OutstandingSnoc(accounts: seq<Account>, account: Account, endpoint: Endpoint)
    ensures Outstanding(accounts + [account], endpoint)
            == Outstanding(accounts, endpoint)
               + if account.endpoint != endpoint then 0 else if account.Picked? then 1 else -1
  {
    assert (accounts + [account])[..|accounts|] == accounts;
  }

  lemma UntagSnoc(log: seq<Tagged>, entry: Tagged)
    ensures Untag(log + [entry]) == Untag(log) + [entry.1]
    ensures Untag(log + [entry])[..|log|] == Untag(log)
  {
    assert (log + [entry])[..|log|] == log;
  }

  lemma PartSnoc(log: seq<Tagged>, entry: Tagged, call: nat, own: bool)
    ensures Part(log + [entry], call, own)
            == if (entry.0 == call) == own then Part(log, call, own) + [entry] else Part(log, call, own)
  {
    assert (log + [entry])[..|log|] == log;
  }

  /** Outstanding selections of all calls are those of one call and those of the others. */
  lemma {:induction false} OutstandingSplits(log: seq<Tagged>, call: nat, endpoint: Endpoint)
    ensures Outstanding(Untag(log), endpoint)
            == Outstanding(Untag(Part(log, call, true)), endpoint)
               + Outstanding(Untag(Part(log, call, false)), endpoint)
    decreases |log|
  {
    if log != [] {
      var rest, entry := log[..|log| - 1], log[|log| - 1];
      assert log == rest + [entry];
      OutstandingSplits(rest, call, endpoint);
      UntagSnoc(rest, entry);
      PartSnoc(rest, entry, call, true);
      PartSnoc(rest, entry, call, false);
      var part := Part(rest, call, entry.0 == call);
      UntagSnoc(part, entry);
      OutstandingSnoc(Untag(rest), entry.1, endpoint);
      OutstandingSnoc(Untag(part), entry.1, endpoint);
    }
  }

  /** The entries of one call are the same whether or not another call's entries are kept. */
  lemma {:induction false} PartOfPart(log: seq<Tagged>, call: nat, other: nat)
    ensures Part(Part(log, call, false), other, true) == if other == call then [] else Part(log, other, true)
    decreases |log|
  {
    if log != [] {
      var rest, entry := log[..|log| - 1], log[|log| - 1];
      assert log == rest + [entry];
      PartOfPart(rest, call, other);
      PartSnoc(rest, entry, call, false);
      PartSnoc(rest, entry, other, true);
      PartSnoc(Part(rest, call, false), entry, other, true);
    }
  }

  lemma PairedPrefix(accounts: seq<Account>, account: Account)
    requires Paired(accounts + [account])
    ensures Paired(accounts)
    ensures account.RolledBack? ==> Outstanding(accounts, account.endpoint) >= 1
  {
    assert (accounts + [account])[..|accounts|] == accounts;
  }

  /** If every call rolls back only its own selections, so do all of them together. */
  lemma {:induction false} InterleavedPaired(log: seq<Tagged>)
    requires forall call: nat :: Paired(Untag(Part(log, call, true)))
    ensures Paired(Untag(log))
    decreases |log|
  {
    if log != [] {
      var rest, entry := log[..|log| - 1], log[|log| - 1];
      assert log == rest + [entry];
      forall call: nat ensures Paired(Untag(Part(rest, call, true))) {
        assert Paired(Untag(Part(log, call, true)));
        PartSnoc(rest, entry, call, true);
        if entry.0 == call {
          UntagSnoc(Part(rest, call, true), entry);
          PairedPrefix(Untag(Part(rest, call, true)), entry.1);
        }
      }
      InterleavedPaired(rest);
      UntagSnoc(rest, entry);
      var own, others := Part(rest, entry.0, true), Part(rest, entry.0, false);
      forall call: nat ensures Paired(Untag(Part(others, call, true))) {
        PartOfPart(rest, entry.0, call);
      }
      InterleavedPaired(others);
      PairedNonNegative(Untag(others), entry.1.endpoint);
      OutstandingSplits(rest, entry.0, entry.1.endpoint);
      PartSnoc(rest, entry, entry.0, true);
      UntagSnoc(own, entry);
      PairedPrefix(Untag(own), entry.1);
    }
  }

  /**
   Whatever calls share the strategy and however they interleave, an endpoint's account is
   at most the selections that were not rolled back, and exactly these while nothing expired.
   */
  lemma SharedAccountsAddUp(log: seq<Tagged>, endpoint: Endpoint)
    requires forall call: nat :: Paired(Untag(Part(log, call, true)))
    ensures Extra(BookAll(Untag(log)), endpoint) <= Outstanding(Untag(log), endpoint)
    ensures NothingExpires(Untag(log)) ==> Extra(BookAll(Untag(log)), endpoint) == Outstanding(Untag(log), endpoint)
  {
    InterleavedPaired(log);
    AccountsAddUp(Untag(log), endpoint);
  }
}
