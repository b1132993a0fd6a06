/**
 The server's session registry: per Actor address, the sink of every live session.

 The nested map refines one flat map from (address, session) to sink, and never keeps
 an empty inner map, so an address is present exactly when it has a live session.
 */
module SessionRegistry {
  import opened Coordination
  import opened Runtime

  /** The transport sender that a session's Events go to. */
  type Sink = nat

  class Registry {
    var byActor: map<Address, map<SessionId, Sink>>

    ghost predicate Valid()
      reads this
    {
      forall a :: a in byActor ==> byActor[a] != map[]
    }

    ghost function Flat(): imap<Key, Sink>
      reads this
    {
      imap key: Key | key.a in byActor && key.sid in byActor[key.a] :: byActor[key.a][key.sid]
    }

    constructor ()
      ensures Valid() && Flat() == imap[]
    {
      byActor := map[];
    }

    /** A second registration of a live session is refused and the first sink is kept. */
    method RegisterActor(a: Address, sid: SessionId, sink: Sink) returns (added: bool)
      requires Valid()
      modifies this
      ensures Valid()
      ensures added <==> Key(a, sid) !in old(Flat())
      ensures Flat() == if added then old(Flat())[Key(a, sid) := sink] else old(Flat())
    {
      var sessions := if a in byActor then byActor[a] else map[];
      if sid in sessions {
        return false;
      }
      byActor := byActor[a := sessions[sid := sink]];
      return true;
    }

    method UnregisterActor(a: Address, sid: SessionId) returns (removed: bool)
      requires Valid()
      modifies this
      ensures Valid()
      ensures removed <==> Key(a, sid) in old(Flat())
      ensures Flat() == old(Flat()) - {Key(a, sid)}
    {
      removed := a in byActor && sid in byActor[a];
      if removed {
        byActor := byActor[a := byActor[a] - {sid}];
        if byActor[a] == map[] {
          assert forall other :: other in old(byActor)[a] && other != sid ==> other in byActor[a];
          byActor := byActor - {a};
        }
      }
      assert forall key :: key in Flat() <==> key in old(Flat()) && key != Key(a, sid);
    }

    /** The sessions of one address, as the flat map has them. */
    ghost predicate AreSessionsOf(sids: set<SessionId>, a: Address)
      reads this
    {
      forall sid :: sid in sids <==> Key(a, sid) in Flat()
    }

    method ByActorSnapshot(a: Address) returns (sids: set<SessionId>)
      ensures AreSessionsOf(sids, a)
    {
      sids := if a in byActor then byActor[a].Keys else {};
    }

    method SessionCount(a: Address) returns (n: nat)
      requires Valid()
      ensures exists sids :: AreSessionsOf(sids, a) && n == |sids|
      ensures n > 0 <==> exists sid :: Key(a, sid) in Flat()
    {
      var sids := ByActorSnapshot(a);
      n := |sids|;
      assert sids != {} ==> exists sid :: sid in sids;
    }

    method BySender(sink: Sink) returns (keys: set<Key>)
      ensures forall key :: key in keys <==> key in Flat() && Flat()[key] == sink
    {
      keys := set a, sid | a in byActor && sid in byActor[a] && byActor[a][sid] == sink :: Key(a, sid);
    }

    method SinkOf(a: Address, sid: SessionId) returns (sink: Option<Sink>)
      ensures sink == if Key(a, sid) in Flat() then Some(Flat()[Key(a, sid)]) else None
    {
      sink := if a in byActor && sid in byActor[a] then Some(byActor[a][sid]) else None;
    }

    method Terminate(a: Address, sid: SessionId) returns (notified: Option<Sink>)
      requires Valid()
      modifies this
      ensures Valid() && Flat() == old(Flat()) - {Key(a, sid)}
      ensures notified == if Key(a, sid) in old(Flat()) then Some(old(Flat())[Key(a, sid)]) else None
    {
      notified := SinkOf(a, sid);
      var _ := UnregisterActor(a, sid);
    }

    /** Ends every session of one address, telling each exactly once, and no other session. */
    method TerminateAll(a: Address) returns (notified: map<SessionId, Sink>)
      requires Valid()
      modifies this
      ensures Valid()
      ensures forall key :: key in Flat() <==> key in old(Flat()) && key.a != a
      ensures forall key :: key in Flat() ==> Flat()[key] == old(Flat())[key]
      ensures forall sid :: sid in notified <==> Key(a, sid) in old(Flat())
      ensures forall sid :: sid in notified ==> notified[sid] == old(Flat())[Key(a, sid)]
    {
      var todo := ByActorSnapshot(a);
      notified := map[];
      while todo != {}
        invariant Valid() && todo !! notified.Keys
        invariant forall sid :: sid in todo || sid in notified <==> Key(a, sid) in old(Flat())
        invariant forall key :: key in Flat() <==> key in old(Flat()) && (key.a == a ==> key.sid in todo)
        invariant forall key :: key in Flat() ==> Flat()[key] == old(Flat())[key]
        invariant forall sid :: sid in notified ==> notified[sid] == old(Flat())[Key(a, sid)]
        decreases todo
      {
        var sid :| sid in todo;
        assert Key(a, sid) in Flat();
        var sink := Terminate(a, sid);
        notified := notified[sid := sink.value];
        todo := todo - {sid};
      }
    }

    /**
     `close_sessions_for_sender`: the sessions bound to a lost connection are closed and
     no others; `closed` lists those whose Actor is sent a SessionClosed, each once.
     */
    method CloseSender(sink: Sink) returns (closed: seq<Key>)
      requires Valid()
      modifies this
      ensures Valid()
      ensures forall key :: key in closed <==> key in old(Flat()) && old(Flat())[key] == sink
      ensures forall i, j :: 0 <= i < j < |closed| ==> closed[i] != closed[j]
      ensures forall key :: key in Flat() <==> key in old(Flat()) && old(Flat())[key] != sink
      ensures forall key :: key in Flat() ==> Flat()[key] == old(Flat())[key]
    {
      var todo := BySender(sink);
      closed := [];
      while todo != {}
        invariant Valid()
        invariant forall key :: key in todo || key in closed <==> key in old(Flat()) && old(Flat())[key] == sink
        invariant forall key :: key in todo ==> key !in closed
        invariant forall i, j :: 0 <= i < j < |closed| ==> closed[i] != closed[j]
        invariant forall key :: key in Flat() <==> key in old(Flat()) && (old(Flat())[key] == sink ==> key in todo)
        invariant forall key :: key in Flat() ==> Flat()[key] == old(Flat())[key]
        decreases todo
      {
        var key :| key in todo;
        assert key in Flat();
        todo := todo - {key};
        var removed := UnregisterActor(key.a, key.sid);
        if removed {
          closed := closed + [key];
        }
      }
    }
  }
}
