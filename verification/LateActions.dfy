/**
 Actions whose registry check and dispatch are separate steps.

 Elsewhere in the cluster model an Action is one step: its session is registered when
 the message is dispatched.  In the code the registry is consulted first and the message
 dispatched afterwards.  Here the two are separate; the dispatch itself, its admission
 checks and the route-table lock, is still one step.  Single-server safety then needs one
 fact about timing, that the session is still registered when its Action finds no route,
 and fails without it.
 */
module LateActions {
  import opened Coordination
  import opened NodeLease
  import opened ActorOwnership
  import opened ActorOwnershipProofs
  import opened Cluster
  import opened Necessity

  /** `checked`: seats of which some Action has passed the registry check. */
  datatype LateState = LateState(base: State, checked: set<Seat>)

  datatype LateEvent = Other(ev: Event) | CheckAction(seat: Seat) | EnterAction(seat: Seat)
  type LateRun = seq<LateEvent>

  /** The Action is past the registry check and passes the checks at the head of `dispatch_message`. */
  predicate Enters(st: LateState, seat: Seat) {
    seat in st.checked && Admits(st.base.lease, seat.s)
  }

  function LateStep(st: LateState, ev: LateEvent): LateState {
    match ev
    case Other(ev) => st.(base := Step(1, st.base, ev))
    case CheckAction(seat) => if seat in st.base.own.live then st.(checked := st.checked + {seat}) else st
    case EnterAction(seat) =>
      if Enters(st, seat) then st.(base := st.base.(own := WithRoute(st.base.own, seat))) else st
  }

  function LateStateAt(run: LateRun, i: nat): LateState
    requires i <= |run|
  {
    if i == 0 then LateState(State(InitialLeases(), InitialOwners()), {})
    else LateStep(LateStateAt(run, i - 1), run[i - 1])
  }

  /** H1 to H5 of every other event. */
  predicate LateGood(st: LateState, ev: LateEvent) {
    ev.Other? ==> GoodStep(Nothing, st.base, ev.ev)
  }

  ghost predicate LateBenign(run: LateRun) {
    forall i: nat {:trigger LateGood(LateStateAt(run, i), run[i])} ::
      i < |run| ==> LateGood(LateStateAt(run, i), run[i])
  }

  /** An Action that finds no route finds its session still registered. */
  predicate InTimeAt(st: LateState, ev: LateEvent) {
    ev.EnterAction? && Enters(st, ev.seat) && ev.seat !in st.base.own.routes ==> ev.seat in st.base.own.live
  }

  ghost predicate ActionsInTime(run: LateRun) {
    forall i: nat {:trigger InTimeAt(LateStateAt(run, i), run[i])} ::
      i < |run| ==> InTimeAt(LateStateAt(run, i), run[i])
  }

  lemma EnteringInTimeKeepsInv(st: LateState, seat: Seat)
    requires ClusterInv(st.base) && Enters(st, seat) && InTimeAt(st, EnterAction(seat))
    ensures ClusterInv(LateStep(st, EnterAction(seat)).base)
  {
    if seat !in st.base.own.routes {
      OwnerStepKeepsInv(st.base.lease, st.base.own, DispatchAction(seat));
    }
  }

  lemma {:induction false} LateInvAlways(run: LateRun, i: nat)
    requires LateBenign(run) && ActionsInTime(run) && i <= |run|
    ensures ClusterInv(LateStateAt(run, i).base)
  {
    if i == 0 {
      InitialInv(1, 0);
    } else {
      LateInvAlways(run, i - 1);
      var before, ev := LateStateAt(run, i - 1), run[i - 1];
      assert LateGood(before, ev) && InTimeAt(before, ev);
      if ev.Other? {
        ClusterStepKeepsInv(before.base, ev.ev);
      } else if ev.EnterAction? && Enters(before, ev.seat) {
        EnteringInTimeKeepsInv(before, ev.seat);
      }
    }
  }

  /** With Actions in time, at most one session serves an address at every instant, also with checks made early. */
  lemma SingleServerCheckedEarly(run: LateRun, i: nat, a: Address, s: SessionId, t: SessionId)
    requires LateBenign(run) && ActionsInTime(run) && i <= |run|
    requires Serves(LateStateAt(run, i).base, s, a) && Serves(LateStateAt(run, i).base, t, a)
    ensures s == t
  {
    LateInvAlways(run, i);
    ServingIsRecorded(LateStateAt(run, i).base, a, s);
    ServingIsRecorded(LateStateAt(run, i).base, a, t);
  }

  // A run that breaks it.

  /** The run `base` with an Action checked before its step `k` and dispatched at its end. */
  function Interject(base: Run, k: nat, seat: Seat): (run: LateRun)
    requires k <= |base|
    ensures |run| == |base| + 2
    ensures forall j :: 0 <= j < k ==> run[j] == Other(base[j])
    ensures run[k] == CheckAction(seat) && run[|base| + 1] == EnterAction(seat)
    ensures forall j :: k < j <= |base| ==> run[j] == Other(base[j - 1])
  {
    seq(k, j requires 0 <= j < k => Other(base[j])) + [CheckAction(seat)]
    + seq(|base| - k, j requires 0 <= j < |base| - k => Other(base[k + j])) + [EnterAction(seat)]
  }

  lemma {:induction false} BeforeCheck(base: Run, k: nat, seat: Seat, j: nat)
    requires j <= k <= |base|
    ensures LateStateAt(Interject(base, k, seat), j).base == StateAt(1, base, j)
  {
    if j > 0 {
      BeforeCheck(base, k, seat, j - 1);
      OtherStep(LateStateAt(Interject(base, k, seat), j - 1), base[j - 1]);
    }
  }

  lemma {:induction false} AfterCheck(base: Run, k: nat, seat: Seat, j: nat)
    requires k <= j <= |base| && seat in StateAt(1, base, k).own.live
    ensures var st := LateStateAt(Interject(base, k, seat), j + 1);
            st.base == StateAt(1, base, j) && seat in st.checked
  {
    if j == k {
      BeforeCheck(base, k, seat, k);
      CheckedNow(LateStateAt(Interject(base, k, seat), k), seat);
    } else {
      AfterCheck(base, k, seat, j - 1);
      OtherStep(LateStateAt(Interject(base, k, seat), j), base[j - 1]);
    }
  }

  lemma CheckedNow(st: LateState, seat: Seat)
    requires seat in st.base.own.live
    ensures LateStep(st, CheckAction(seat)) == st.(checked := st.checked + {seat})
  {
  }

  lemma OtherStep(st: LateState, ev: Event)
    ensures LateStep(st, Other(ev)) == st.(base := Step(1, st.base, ev))
  {
  }

  lemma InterjectedIsBenign(base: Run, k: nat, seat: Seat)
    requires k <= |base| && seat in StateAt(1, base, k).own.live && BenignExcept(Nothing, base)
    ensures LateBenign(Interject(base, k, seat))
  {
    var run := Interject(base, k, seat);
    forall j: nat | j < |run| ensures LateGood(LateStateAt(run, j), run[j]) {
      if run[j].Other? {
        var at := if j < k then j else j - 1;
        if j < k {
          BeforeCheck(base, k, seat, j);
        } else {
          AfterCheck(base, k, seat, at);
        }
        assert GoodStep(Nothing, StateAt(1, base, at), base[at]);
      }
    }
  }

  /** The Actor of the opening fails, its sessions end, and the address is opened again at the same session. */
  lemma FailAndReopen(run: Run, st: State) returns (run': Run)
    requires Reaches(Nothing, run, st) && OpeningLeases(st.lease) && OpeningOwners(st.own) && st.lease.now < 10
    ensures run <= run' && Reaches(Nothing, run', st)
  {
    var seat := Seat(1, ROOM);
    var stopped := st.own.(routes := map[]);
    run' := ThenQuiet(Nothing, run, st, StopActor(seat), stopped);
    var ended := stopped.(live := {});
    run' := ThenQuiet(Nothing, run', st.(own := stopped), EndSessions(seat), ended);
    run' := Ask(Nothing, run', st.(own := ended), seat);
    var local := ended.(calls := map[seat := Local]);
    assert Asked(st.lease, ended, seat) == local;
    run' := ThenQuiet(Nothing, run', st.(own := local), Dispatch(seat), st.own);
  }

  /** After an Action has passed the check: failure, reopening, passivation, release, and a claim by session 2. */
  lemma MoveOn(run: Run, st: State) returns (run': Run, os: OwnerState)
    requires Reaches(Nothing, run, st) && OpeningLeases(st.lease) && OpeningOwners(st.own) && st.lease.now == 0
    ensures run <= run' && Reaches(Nothing, run', st.(own := os))
    ensures Seat(1, ROOM) !in os.routes
    ensures Seat(2, ROOM) in os.routes && os.routes[Seat(2, ROOM)].Active?
  {
    run' := FailAndReopen(run, st);
    run', os := SendRelease(Nothing, run', st);
    run' := CompleteRelease(Nothing, run', st, os);
    os := os.(owners := map[ROOM := Unowned(1)], landed := {0, 1}, calls := map[], routes := map[]);
    run' := ServeUnowned(Nothing, run', st.(own := os), Seat(2, ROOM));
    os := Served(st.lease, os, Seat(2, ROOM));
  }

  /**
   The timing fact is needed: an Action passes the registry check, its Actor fails, the
   address is reopened, passivated, released and claimed by another server, and only then
   does the Action enter the lock and make a second route.
   */
  lemma InTimeNeeded() returns (run: LateRun)
    ensures LateBenign(run)
    ensures var st := LateStateAt(run, |run|).base; Serves(st, 1, ROOM) && Serves(st, 2, ROOM)
  {
    var base, st := Open(Nothing, 0);
    var k, seat := |base|, Seat(1, ROOM);
    var longer, os := MoveOn(base, st);
    PrefixAt(base, longer, k);
    run := Interject(longer, k, seat);
    InterjectedIsBenign(longer, k, seat);
    EntersAtEnd(longer, k, seat);
  }

  /** The interjected Action, if it is admitted and finds no route, ends the run with one. */
  lemma {:induction false} EntersAtEnd(base: Run, k: nat, seat: Seat)
    requires k <= |base| && seat in StateAt(1, base, k).own.live
    requires var st := StateAt(1, base, |base|); Admits(st.lease, seat.s) && seat !in st.own.routes
    ensures var st := StateAt(1, base, |base|);
            var run := Interject(base, k, seat);
            LateStateAt(run, |run|).base == st.(own := st.own.(routes := st.own.routes[seat := Active]))
  {
    var run := Interject(base, k, seat);
    AfterCheck(base, k, seat, |base|);
    EntersWithoutRoute(LateStateAt(run, |base| + 1), seat);
  }

  lemma EntersWithoutRoute(st: LateState, seat: Seat)
    requires Enters(st, seat) && seat !in st.base.own.routes
    ensures LateStep(st, EnterAction(seat)).base
         == st.base.(own := st.base.own.(routes := st.base.own.routes[seat := Active]))
  {
  }

  lemma {:induction false} PrefixAt(run: Run, longer: Run, i: nat)
    requires run <= longer && i <= |run|
    ensures StateAt(1, longer, i) == StateAt(1, run, i)
  {
    if i > 0 {
      PrefixAt(run, longer, i - 1);
    }
  }
}
