/**
 The client's Transport Connections: a bounded pool per endpoint, the sessions bound to
 each connection, and what happens when a connection is lost.

 Every method is one critical section.  `acquire_connection` holds the pool's lock from
 `BeginAcquire` to `FinishAcquire`, across the connect; a receive loop that ends marks
 its connection closed without any lock, then needs the pool's lock to evict it, and
 only then drains the sessions bound to it.
 */
module ConnectionPool {
  import opened Coordination
  import opened Placement

  datatype Connection = Connection(endpoint: Endpoint, sessions: set<SessionId>, bound: nat, closed: bool)

  // How one successful acquisition changes the loads of a pool.

  /** The first least loaded connection. */
  function Least(loads: seq<nat>): (k: nat)
    requires loads != []
    ensures k < |loads|
    ensures forall j :: 0 <= j < |loads| ==> loads[k] <= loads[j]
    ensures forall j :: 0 <= j < k ==> loads[k] < loads[j]
  {
    if |loads| == 1 then 0
    else
      var k := Least(loads[..|loads| - 1]);
      assert forall j :: 0 <= j < |loads| - 1 ==> loads[..|loads| - 1][j] == loads[j];
      if loads[|loads| - 1] < loads[k] then |loads| - 1 else k
  }

  /** A pool below its limit grows by a connection, if it can be made; a full one shares its least loaded. */
  function Opened(loads: seq<nat>, max: nat, connected: bool): seq<nat> {
    if |loads| < max then (if connected then loads + [1] else loads)
    else if loads == [] then loads
    else loads[Least(loads) := loads[Least(loads)] + 1]
  }

  function OpenedAll(loads: seq<nat>, max: nat, connects: seq<bool>): seq<nat>
    decreases |connects|
  {
    if connects == [] then loads
    else Opened(OpenedAll(loads, max, connects[..|connects| - 1]), max, connects[|connects| - 1])
  }

  /** No two loads differ by more than `gap`. */
  ghost predicate Within(loads: seq<nat>, gap: nat) {
    forall i, j :: 0 <= i < |loads| && 0 <= j < |loads| ==> loads[i] <= loads[j] + gap
  }

  lemma {:induction false} OpenedStaysFull(loads: seq<nat>, max: nat, connected: bool, gap: nat)
    requires |loads| == max && gap >= 1 && Within(loads, gap)
    ensures |Opened(loads, max, connected)| == max && Within(Opened(loads, max, connected), gap)
  {
  }

  /** Once the pool is full, opens never widen the spread of its loads beyond what it was, or 1. */
  lemma {:induction false} FullPoolStaysBalanced(loads: seq<nat>, max: nat, connects: seq<bool>, gap: nat)
    requires |loads| == max && gap >= 1 && Within(loads, gap)
    ensures |OpenedAll(loads, max, connects)| == max && Within(OpenedAll(loads, max, connects), gap)
    decreases |connects|
  {
    if connects != [] {
      FullPoolStaysBalanced(loads, max, connects[..|connects| - 1], gap);
      OpenedStaysFull(OpenedAll(loads, max, connects[..|connects| - 1]), max, connects[|connects| - 1], gap);
    }
  }

  /** From an empty pool every load stays within 1 of every other, whatever connects fail. */
  lemma {:induction false} FreshPoolStaysBalanced(max: nat, connects: seq<bool>)
    ensures var loads := OpenedAll([], max, connects);
            && |loads| <= max && Within(loads, 1)
            && (|loads| < max ==> forall i :: 0 <= i < |loads| ==> loads[i] == 1)
    decreases |connects|
  {
    if connects != [] {
      FreshPoolStaysBalanced(max, connects[..|connects| - 1]);
      var loads := OpenedAll([], max, connects[..|connects| - 1]);
      if |loads| == max {
        OpenedStaysFull(loads, max, connects[|connects| - 1], 1);
      }
    }
  }

  function Total(loads: seq<nat>): nat {
    if loads == [] then 0 else Total(loads[..|loads| - 1]) + loads[|loads| - 1]
  }

  lemma {:induction false} TotalUpdate(loads: seq<nat>, k: nat, load: nat)
    requires k < |loads|
    ensures Total(loads[k := load]) == Total(loads) - loads[k] + load
  {
    var rest := loads[..|loads| - 1];
    if k < |loads| - 1 {
      TotalUpdate(rest, k, load);
      assert loads[k := load][..|loads| - 1] == rest[k := load];
    } else {
      assert loads[k := load][..|loads| - 1] == rest;
    }
  }

  /** Every acquisition that succeeds puts exactly one more session on the pool. */
  lemma {:induction false} OpenedAddsOne(loads: seq<nat>, max: nat, connected: bool)
    requires |loads| < max ==> connected
    requires max > 0
    ensures Total(Opened(loads, max, connected)) == Total(loads) + 1
  {
    if |loads| < max {
      assert (loads + [1])[..|loads|] == loads;
      assert Opened(loads, max, connected) == loads + [1];
    } else {
      OneMore(loads, Least(loads));
    }
  }

  lemma {:induction false} OneMore(loads: seq<nat>, k: nat)
    requires k < |loads|
    ensures Total(loads[k := loads[k] + 1]) == Total(loads) + 1
  {
    TotalUpdate(loads, k, loads[k] + 1);
  }

  /** How far the loads exceed `x` altogether. */
  function Excess(loads: seq<nat>, x: nat): int {
    if loads == [] then 0 else Excess(loads[..|loads| - 1], x) + (loads[|loads| - 1] - x)
  }

  lemma {:induction false} ExcessIsTotal(loads: seq<nat>, x: nat)
    ensures Total(loads) == x * |loads| + Excess(loads, x)
  {
    if loads != [] {
      var n := |loads| - 1;
      ExcessIsTotal(loads[..n], x);
      assert x * (n + 1) == x * n + x;
    }
  }

  lemma {:induction false} ExcessBounds(loads: seq<nat>, x: nat)
    requires forall i :: 0 <= i < |loads| ==> x - 1 <= loads[i] <= x + 1
    ensures -|loads| <= Excess(loads, x) <= |loads|
    ensures x in loads ==> 1 - |loads| <= Excess(loads, x) <= |loads| - 1
  {
    if loads != [] {
      ExcessBounds(loads[..|loads| - 1], x);
    }
  }

  /** Loads within 1 of each other are the even share of the total, rounded down or up. */
  lemma {:induction false} FairShare(loads: seq<nat>, k: nat)
    requires Within(loads, 1) && k < |loads|
    ensures var n := |loads|; loads[k] * n - n < Total(loads) < loads[k] * n + n
  {
    ExcessIsTotal(loads, loads[k]);
    ExcessBounds(loads, loads[k]);
  }

  /** After any number of opens from an empty pool, every connection carries its even share of them. */
  lemma {:induction false} FreshPoolSharesEvenly(max: nat, connects: seq<bool>)
    requires max > 0 && forall i :: 0 <= i < |connects| ==> connects[i]
    ensures var loads := OpenedAll([], max, connects);
            && Total(loads) == |connects|
            && forall k :: 0 <= k < |loads| ==>
                             loads[k] * |loads| - |loads| < |connects| < loads[k] * |loads| + |loads|
    decreases |connects|
  {
    var loads := OpenedAll([], max, connects);
    if connects != [] {
      var rest := connects[..|connects| - 1];
      FreshPoolSharesEvenly(max, rest);
      OpenedAddsOne(OpenedAll([], max, rest), max, true);
    }
    FreshPoolStaysBalanced(max, connects);
    forall k | 0 <= k < |loads|
      ensures loads[k] * |loads| - |loads| < |connects| < loads[k] * |loads| + |loads|
    {
      FairShare(loads, k);
    }
  }

  predicate Distinct(ids: seq<nat>) {
    forall i, j :: 0 <= i < j < |ids| ==> ids[i] != ids[j]
  }

  /** `Vec::retain`. */
  function Retained(ids: seq<nat>, gone: set<nat>): (kept: seq<nat>)
    ensures |kept| <= |ids|
    ensures forall id :: id in kept <==> id in ids && id !in gone
    ensures Distinct(ids) ==> Distinct(kept)
  {
    if ids == [] then []
    else
      var rest := Retained(ids[..|ids| - 1], gone);
      if ids[|ids| - 1] in gone then rest else rest + [ids[|ids| - 1]]
  }

  function LoadsOf(conns: map<nat, Connection>, ids: seq<nat>): (loads: seq<nat>)
    requires forall id :: id in ids ==> id in conns
    ensures |loads| == |ids| && forall i :: 0 <= i < |ids| ==> loads[i] == conns[ids[i]].bound
  {
    seq(|ids|, i requires 0 <= i < |ids| => assert ids[i] in ids; conns[ids[i]].bound)
  }

  ghost predicate PoolsValid(max: nat, pools: map<Endpoint, seq<nat>>, conns: map<nat, Connection>, drained: set<nat>) {
    forall e :: e in pools ==>
                  && |pools[e]| <= max && Distinct(pools[e])
                  && forall id :: id in pools[e] ==> id in conns && conns[id].endpoint == e && id !in drained
  }

  ghost predicate ConnsValid(conns: map<nat, Connection>, nextId: nat, drained: set<nat>) {
    && (forall id :: id in conns ==> id < nextId && conns[id].bound == |conns[id].sessions|)
    && (forall id, id' :: id in conns && id' in conns && id != id' ==> conns[id].sessions !! conns[id'].sessions)
    && (forall id :: id in drained ==> id in conns && conns[id].closed && conns[id].sessions == {})
  }

  lemma AddKeepsValid(
    max: nat, pools: map<Endpoint, seq<nat>>, conns: map<nat, Connection>, nextId: nat, drained: set<nat>,
    e: Endpoint, s: SessionId)
    requires PoolsValid(max, pools, conns, drained) && ConnsValid(conns, nextId, drained)
    requires e in pools && |pools[e]| < max
    requires forall id :: id in conns ==> s !in conns[id].sessions
    ensures var conns' := conns[nextId := Connection(e, {s}, 1, false)];
            var pools' := pools[e := pools[e] + [nextId]];
            && PoolsValid(max, pools', conns', drained) && ConnsValid(conns', nextId + 1, drained)
            && LoadsOf(conns', pools'[e]) == LoadsOf(conns, pools[e]) + [1]
  {
    var conns' := conns[nextId := Connection(e, {s}, 1, false)];
    var grown := pools[e] + [nextId];
    forall id | id in grown ensures id in conns' && conns'[id].endpoint == e && id !in drained {
      assert id in pools[e] || id == nextId;
    }
    assert nextId !in pools[e] && nextId !in conns;
    assert Distinct(grown) && |grown| <= max;
    forall o | o in pools && o != e
      ensures forall id :: id in pools[o] ==> id in conns' && conns'[id].endpoint == o && id !in drained
    {
      assert forall id :: id in pools[o] ==> id in conns && id != nextId;
    }
    assert LoadsOf(conns', grown) == LoadsOf(conns, pools[e]) + [1];
  }

  /** One connection has gained the session, as a new one or as one that exists; the others are as they were. */
  predicate Bound(before: map<nat, Connection>, after: map<nat, Connection>, id: nat, e: Endpoint, s: SessionId) {
    && after.Keys == before.Keys + {id}
    && (forall o :: o in before && o != id ==> after[o] == before[o])
    && s in after[id].sessions
    && (if id in before then after[id] == Joined(before[id], s) else after[id] == Connection(e, {s}, 1, false))
  }

  function Joined(connection: Connection, s: SessionId): Connection {
    connection.(sessions := connection.sessions + {s}, bound := connection.bound + 1)
  }

  lemma ShareKeepsValid(
    max: nat, pools: map<Endpoint, seq<nat>>, conns: map<nat, Connection>, nextId: nat, drained: set<nat>,
    e: Endpoint, k: nat, s: SessionId)
    requires PoolsValid(max, pools, conns, drained) && ConnsValid(conns, nextId, drained)
    requires e in pools && k < |pools[e]|
    requires forall id :: id in conns ==> s !in conns[id].sessions
    ensures var id := pools[e][k];
            var conns' := conns[id := Joined(conns[id], s)];
            && PoolsValid(max, pools, conns', drained) && ConnsValid(conns', nextId, drained)
            && LoadsOf(conns', pools[e]) == LoadsOf(conns, pools[e])[k := LoadsOf(conns, pools[e])[k] + 1]
  {
    var id := pools[e][k];
    var conns' := conns[id := Joined(conns[id], s)];
    assert id in conns && id !in drained;
    assert PoolsValid(max, pools, conns', drained);
    assert LoadsOf(conns', pools[e]) == LoadsOf(conns, pools[e])[k := LoadsOf(conns, pools[e])[k] + 1];
  }

  /** The opens that a lost connection leaves without an answer. */
  function FailedOpens(sessions: set<SessionId>, pending: map<SessionId, nat>, id: nat): set<SessionId> {
    set s | s in sessions && s in pending && pending[s] == id
  }

  /** The receivers left when connection `id` is lost with these sessions bound to it. */
  function Receiving(
    receivers: set<SessionId>, sessions: set<SessionId>, pending: map<SessionId, nat>, id: nat): set<SessionId>
  {
    receivers - (sessions - FailedOpens(sessions, pending, id))
  }

  /** A session bound to a lost connection keeps its receiver exactly if its open was announced on that connection. */
  lemma KeepsReceiverIffAnnounced(
    receivers: set<SessionId>, sessions: set<SessionId>, pending: map<SessionId, nat>, id: nat, s: SessionId)
    requires s in receivers
    ensures s in Receiving(receivers, sessions, pending, id) <==> s !in sessions || (s in pending && pending[s] == id)
  {
  }

  /** Retaining keeps the order of what it keeps. */
  lemma {:induction false} RetainedConcat(first: seq<nat>, rest: seq<nat>, gone: set<nat>)
    ensures Retained(first + rest, gone) == Retained(first, gone) + Retained(rest, gone)
    decreases |rest|
  {
    if rest == [] {
      assert first + rest == first;
    } else {
      assert (first + rest)[..|first + rest| - 1] == first + rest[..|rest| - 1];
      RetainedConcat(first, rest[..|rest| - 1], gone);
    }
  }

  class ClientConnections {
    const max: nat
    var pools: map<Endpoint, seq<nat>>
    var conns: map<nat, Connection>
    var locked: set<Endpoint>
    /** Opens awaiting their acknowledgement, with the connection they were sent on. */
    var pending: map<SessionId, nat>
    /** Sessions whose receiver is still registered. */
    var receivers: set<SessionId>
    var nextId: nat
    ghost var drained: set<nat>

    /**
     At most `max` connections per endpoint, a session on at most one connection, counters
     equal to the sets they count, and never a session on a connection already drained.
     */
    ghost predicate Valid()
      reads this
    {
      PoolsValid(max, pools, conns, drained) && ConnsValid(conns, nextId, drained) && locked <= pools.Keys
    }

    function Pool(e: Endpoint): seq<nat>
      reads this
    {
      if e in pools then pools[e] else []
    }

    ghost function Loads(e: Endpoint): (loads: seq<nat>)
      requires Valid()
      reads this
    {
      LoadsOf(conns, Pool(e))
    }

    ghost predicate Unbound(s: SessionId)
      reads this
    {
      forall id :: id in conns ==> s !in conns[id].sessions
    }

    constructor (max: nat)
      ensures Valid() && this.max == max && pools == map[] && conns == map[] && locked == {} && drained == {}
      ensures pending == map[] && receivers == {}
    {
      this.max := max;
      pools, conns, locked, pending, receivers, nextId := map[], map[], {}, map[], {}, 1;
      drained := {};
    }

    method Register(s: SessionId)
      requires Valid()
      modifies this`receivers
      ensures Valid() && receivers == old(receivers) + {s}
    {
      receivers := receivers + {s};
    }

    /** Takes the pool's lock and drops the connections already marked closed. */
    method BeginAcquire(e: Endpoint)
      requires Valid() && e !in locked
      modifies this`pools, this`locked
      ensures Valid() && locked == old(locked) + {e}
      ensures pools == old(pools)[e := Retained(old(Pool(e)), set id | id in conns && conns[id].closed)]
    {
      pools := pools[e := Retained(Pool(e), set id | id in conns && conns[id].closed)];
      locked := locked + {e};
    }

    /**
     Connects or shares, binds the session, and releases the pool's lock.  The session must
     not be bound: `open` unbinds it before it tries again.
     */
    method FinishAcquire(e: Endpoint, s: SessionId, connected: bool) returns (acquired: Option<nat>)
      requires Valid() && e in locked && Unbound(s)
      modifies this`pools, this`conns, this`locked, this`nextId
      ensures Valid() && locked == old(locked) - {e}
      ensures Loads(e) == Opened(old(Loads(e)), max, connected)
      ensures acquired.None? <==> (if |old(Pool(e))| < max then !connected else max == 0)
      ensures acquired.None? ==> pools == old(pools) && conns == old(conns)
      ensures acquired.Some? ==>
                && acquired.value in Pool(e) && pools == old(pools)[e := Pool(e)]
                && Bound(old(conns), conns, acquired.value, e, s)
    {
      acquired := None;
      if |Pool(e)| < max {
        if connected {
          var id := AddConnection(e, s);
          acquired := Some(id);
        }
      } else if Pool(e) != [] {
        var id := Share(e, s);
        acquired := Some(id);
      }
      locked := locked - {e};
    }

    method AddConnection(e: Endpoint, s: SessionId) returns (id: nat)
      requires Valid() && e in pools && Unbound(s) && |Pool(e)| < max
      modifies this`pools, this`conns, this`nextId
      ensures Valid() && Loads(e) == Opened(old(Loads(e)), max, true)
      ensures Bound(old(conns), conns, id, e, s) && id in Pool(e) && pools == old(pools)[e := Pool(e)]
    {
      AddKeepsValid(max, pools, conns, nextId, drained, e, s);
      id := nextId;
      nextId := nextId + 1;
      conns := conns[id := Connection(e, {s}, 1, false)];
      pools := pools[e := Pool(e) + [id]];
    }

    method Share(e: Endpoint, s: SessionId) returns (id: nat)
      requires Valid() && e in pools && Unbound(s) && Pool(e) != []
      modifies this`conns
      ensures Valid() && forall connected :: |Pool(e)| >= max ==> Loads(e) == Opened(old(Loads(e)), max, connected)
      ensures Bound(old(conns), conns, id, e, s) && id in Pool(e)
    {
      id := LeastBound(e);
      ShareKeepsValid(max, pools, conns, nextId, drained, e, Least(Loads(e)), s);
      if s !in conns[id].sessions {
        conns := conns[id := conns[id].(sessions := conns[id].sessions + {s}, bound := conns[id].bound + 1)];
      }
    }

    /** `min_by_key`: the first of the least loaded. */
    method LeastBound(e: Endpoint) returns (id: nat)
      requires Valid() && Pool(e) != []
      ensures id == Pool(e)[Least(Loads(e))]
    {
      var pool := Pool(e);
      var k := 0;
      for i := 1 to |pool|
        invariant 0 <= k < i <= |pool|
        invariant forall j :: 0 <= j < i ==> Loads(e)[k] <= Loads(e)[j]
        invariant forall j :: 0 <= j < k ==> Loads(e)[k] < Loads(e)[j]
      {
        if conns[pool[i]].bound < conns[pool[k]].bound {
          k := i;
        }
      }
      assert k == Least(Loads(e)) by {
        var least := Least(Loads(e));
        assert Loads(e)[k] <= Loads(e)[least] && Loads(e)[least] <= Loads(e)[k];
      }
      id := pool[k];
    }

    method Unbind(id: nat, s: SessionId)
      requires Valid() && id in conns
      modifies this`conns
      ensures Valid() && conns.Keys == old(conns.Keys)
      ensures conns[id].sessions == old(conns)[id].sessions - {s}
      ensures conns == old(conns)[id := conns[id]] && conns[id].closed == old(conns)[id].closed
    {
      if s in conns[id].sessions {
        conns := conns[id := conns[id].(sessions := conns[id].sessions - {s}, bound := conns[id].bound - 1)];
      }
    }

    /** `send_session_open` announces the open before it sends; a closed connection or a full queue refuses the send. */
    method AwaitAck(id: nat, s: SessionId, queued: bool) returns (sent: bool)
      requires Valid() && id in conns
      modifies this`pending
      ensures Valid() && pending == old(pending)[s := id]
      ensures sent <==> queued && !conns[id].closed
    {
      pending := pending[s := id];
      sent := !conns[id].closed && queued;
    }

    /** A failed open is no longer awaited. */
    method Forget(s: SessionId)
      requires Valid()
      modifies this`pending
      ensures Valid() && pending == old(pending) - {s}
    {
      pending := pending - {s};
    }

    /** The receive loop has ended. */
    method MarkClosed(id: nat)
      requires Valid() && id in conns
      modifies this`conns
      ensures Valid() && conns == old(conns)[id := old(conns)[id].(closed := true)]
    {
      conns := conns[id := conns[id].(closed := true)];
    }

    /** The ended receive loop takes the pool's lock and removes its connection. */
    method Evict(id: nat)
      requires Valid() && id in conns && conns[id].closed && conns[id].endpoint !in locked
      modifies this`pools
      ensures Valid() && forall e :: e in pools ==> id !in pools[e]
      ensures pools.Keys == old(pools.Keys)
      ensures forall e :: e in pools ==> pools[e] == Retained(old(pools)[e], {id}) || pools[e] == old(pools)[e]
    {
      var e := conns[id].endpoint;
      if e in pools {
        pools := pools[e := Retained(pools[e], {id})];
      }
    }

    /**
     The sessions bound to a lost connection end, and no others: an open still awaiting
     its acknowledgement on this connection fails, every other session loses its receiver.
     */
    method Drain(id: nat) returns (failed: set<SessionId>)
      requires Valid() && id in conns && conns[id].closed && forall e :: e in pools ==> id !in pools[e]
      modifies this`conns, this`pending, this`receivers, this`drained
      ensures Valid() && drained == old(drained) + {id}
      ensures conns == old(conns)[id := old(conns)[id].(sessions := {}, bound := 0)]
      ensures failed == FailedOpens(old(conns)[id].sessions, old(pending), id)
      ensures forall s :: s in failed <==> s in old(conns)[id].sessions && s in old(pending) && old(pending)[s] == id
      ensures forall s :: s in receivers <==> s in old(receivers) && (s in old(conns)[id].sessions ==> s in failed)
      ensures pending == old(pending) - failed
      ensures receivers == Receiving(old(receivers), old(conns)[id].sessions, old(pending), id)
    {
      var all := conns[id].sessions;
      conns := conns[id := conns[id].(sessions := {}, bound := 0)];
      drained := drained + {id};
      var todo := all;
      failed := {};
      while todo != {}
        invariant todo <= all
        invariant conns == old(conns)[id := old(conns)[id].(sessions := {}, bound := 0)]
        invariant drained == old(drained) + {id}
        invariant failed == set s | s in all - todo && s in old(pending) && old(pending)[s] == id
        invariant pending == old(pending) - failed
        invariant receivers == old(receivers) - ((all - todo) - failed)
        decreases todo
      {
        var s :| s in todo;
        todo := todo - {s};
        if s in pending && pending[s] == id {
          pending := pending - {s};
          failed := failed + {s};
        } else {
          receivers := receivers - {s};
        }
      }
    }
  }

  /**
   An open keeps its receiver only if its SessionOpen was announced before its connection
   was drained.  A connection lost between binding and announcing costs the session its
   receiver although the open has not failed: the send is refused, `open` tries the next
   server, and the session it opens there has no receiver left for its events.
   */
  method LostBeforeAnnouncing(client: ClientConnections, e: Endpoint, s: SessionId) returns (id: nat, sent: bool)
    requires client.Valid() && client.max > 0 && e !in client.locked && client.Unbound(s)
    requires s in client.receivers && s !in client.pending
    modifies client
    ensures client.Valid() && id in client.conns && client.conns[id].closed
    ensures s !in client.receivers && s !in client.pending && !sent
  {
    client.BeginAcquire(e);
    var acquired := client.FinishAcquire(e, s, true);
    id := acquired.value;
    LoseConnection(client, id);
    sent := client.AwaitAck(id, s, true);
    client.Forget(s);
  }

  /** A receive loop ends: the three steps of its teardown in a row. */
  method LoseConnection(client: ClientConnections, id: nat)
    requires client.Valid() && id in client.conns && client.conns[id].endpoint !in client.locked
    modifies client
    ensures client.Valid() && client.locked == old(client.locked)
    ensures client.conns == old(client.conns)[id := old(client.conns)[id].(sessions := {}, bound := 0, closed := true)]
    ensures client.pending.Keys <= old(client.pending.Keys)
    ensures forall s :: s in old(client.conns)[id].sessions && s !in old(client.pending) ==> s !in client.receivers
  {
    client.MarkClosed(id);
    client.Evict(id);
    var failed := client.Drain(id);
  }
}
