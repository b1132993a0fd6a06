/**
 What every step of the lease protocol keeps.

 `LeaseInv` holds under clocks of any bounded skew: whatever lease of a session is
 stored, it outlasts the session's local deadline up to rounding.  `NamedInv` says that
 a session whose deadline is further off than the clocks can disagree is the one named
 in the store; when clocks agree to the tick, that is every session that holds its lease.
 */
module NodeLeaseProofs {
  import opened Coordination
  import opened NodeLease

  /** An expiry of `expires` milliseconds covers `deadline`, up to the rounding of both. */
  predicate Dominates(g: TicksPerMs, ttl: nat, expires: nat, deadline: nat) {
    deadline <= expires * g + (g - 1) + ttl % g
  }

  predicate OwnCondition(s: SessionId, condition: Condition<Lease>) {
    condition.IfMatch? && condition.revision.session == s
  }

  /** A session's own conditional put continues from a revision it has held. */
  predicate OwnPutOk(ss: NodeSession, revision: Lease, lease: Lease) {
    && revision.generation < lease.generation
    && revision.generation <= ss.revision.generation
    && (revision.generation == ss.revision.generation ==> revision == ss.revision)
  }

  predicate PutOk(st: LeaseState, id: nat)
    requires id < |st.ops| && st.ops[id].Put?
  {
    var Put(s, node, condition, lease) := st.ops[id];
    && s in st.starts && st.starts[s].node == node && lease.session == s
    && (if s in st.sessions
        then lease.generation <= st.sessions[s].generation && (lease.generation == 0 ==> id in st.landed)
        else lease.generation == 0 && !st.starts[s].phase.Reading? && !st.starts[s].phase.Fetched?)
    && (if OwnCondition(s, condition)
        then s in st.sessions && OwnPutOk(st.sessions[s], condition.revision, lease)
        else lease.generation == 0)
    && (id in st.landed && node in st.stored && st.stored[node].session == s
        ==> lease.generation <= st.stored[node].generation)
  }

  predicate PutDominates(g: TicksPerMs, st: LeaseState, id: nat)
    requires id < |st.ops| && st.ops[id].Put?
  {
    var Put(s, node, condition, lease) := st.ops[id];
    s in st.sessions && condition == IfMatch(st.sessions[s].revision) ==>
      Dominates(g, st.sessions[s].ttl, lease.expires, st.sessions[s].deadline)
  }

  predicate DeleteOk(st: LeaseState, id: nat)
    requires id < |st.ops| && st.ops[id].Delete?
  {
    var Delete(s, node, revision) := st.ops[id];
    && s in st.sessions && st.sessions[s].released && st.sessions[s].node == node
    && revision.session == s
  }

  predicate OpOk(g: TicksPerMs, st: LeaseState, id: nat)
    requires id < |st.ops|
  {
    if st.ops[id].Put? then PutOk(st, id) && PutDominates(g, st, id) else DeleteOk(st, id)
  }

  predicate StoredLeaseOk(g: TicksPerMs, ss: NodeSession, lease: Lease) {
    && ss.revision.generation <= lease.generation <= ss.generation
    && (ss.revision.generation == lease.generation ==> lease == ss.revision)
    && Dominates(g, ss.ttl, lease.expires, ss.deadline)
  }

  /** The put a renewal waits for. */
  predicate RenewalPutOk(g: TicksPerMs, st: LeaseState, s: SessionId)
    requires s in st.sessions && Renewing(st.sessions[s])
  {
    var ss := st.sessions[s];
    && ss.renewal.op < |st.ops|
    && st.ops[ss.renewal.op].Put?
    && st.ops[ss.renewal.op].session == s
    && st.ops[ss.renewal.op].lease.generation == ss.generation
    && ss.revision.generation < ss.generation
    && ss.renewal.started <= st.now
    && Dominates(g, ss.ttl, st.ops[ss.renewal.op].lease.expires, ss.renewal.started + ss.ttl)
  }

  predicate SessionOk(g: TicksPerMs, st: LeaseState, s: SessionId)
    requires s in st.sessions
  {
    var ss := st.sessions[s];
    && s in st.starts && st.starts[s].phase.Done? && st.starts[s].node == ss.node
    && ss.revision.session == s && ss.revision.generation <= ss.generation
    && Dominates(g, ss.ttl, ss.revision.expires, ss.deadline) && ss.deadline <= st.now + ss.ttl
    && (ss.released ==> !ss.status.Running? && ss.renewal.Exited?)
    && (Renewing(ss) ==> RenewalPutOk(g, st, s))
    && (ss.node in st.stored && st.stored[ss.node].session == s
        ==> StoredLeaseOk(g, ss, st.stored[ss.node]))
  }

  predicate StartOk(g: TicksPerMs, st: LeaseState, s: SessionId)
    requires s in st.starts
  {
    var start := st.starts[s];
    && start.started <= st.now
    && (!start.phase.Done? ==> s !in st.sessions)
    && (start.phase.Fetched? && start.phase.found.Some? ==> start.phase.found.value.session != s)
    && (Acquiring(st, s) ==>
          && start.phase.op < |st.ops|
          && st.ops[start.phase.op].Put?
          && st.ops[start.phase.op].session == s
          && Dominates(g, start.ttl, st.ops[start.phase.op].lease.expires, start.started + start.ttl))
  }

  /** Put `id` put this lease where it is. */
  predicate WrittenBy(st: LeaseState, node: NodeId, id: nat) {
    && id in st.landed && id < |st.ops| && st.ops[id].Put? && st.ops[id].node == node
    && node in st.stored && st.ops[id].lease == st.stored[node]
  }

  ghost predicate Written(st: LeaseState, node: NodeId) {
    exists id: nat :: WrittenBy(st, node, id)
  }

  predicate SameGeneration(st: LeaseState, i: nat, j: nat)
    requires i < |st.ops| && j < |st.ops|
  {
    && st.ops[i].Put? && st.ops[j].Put? && st.ops[i].session == st.ops[j].session
    && st.ops[i].lease.generation == st.ops[j].lease.generation
  }

  /** A session never reuses a generation, and every stored lease was put there. */
  ghost predicate StoreInv(st: LeaseState) {
    && (forall id :: id in st.landed ==> id < |st.ops|)
    && (forall i: nat, j: nat :: i < |st.ops| && j < |st.ops| && SameGeneration(st, i, j) ==> i == j)
    && (forall node :: node in st.stored ==> Written(st, node))
  }

  ghost predicate LeaseInv(g: TicksPerMs, st: LeaseState) {
    && StoreInv(st)
    && (forall id: nat :: id < |st.ops| ==> OpOk(g, st, id))
    && (forall s :: s in st.sessions ==> SessionOk(g, st, s))
    && (forall s :: s in st.starts ==> StartOk(g, st, s))
  }

  /** A process may only write expiries from a wall clock that is not behind. */
  predicate WallNotBehind(g: TicksPerMs, st: LeaseState, wall: nat) {
    st.now / g <= wall
  }

  predicate PutClockOk(g: TicksPerMs, st: LeaseState, ev: LeaseEvent) {
    match ev
    case AcquirePut(_, _, wallPut) => WallNotBehind(g, st, wallPut)
    case RenewStart(_, wall) => WallNotBehind(g, st, wall)
    case _ => true
  }

  /** The written expiry covers a deadline counted from no later than the write. */
  lemma ExpiryDominates(g: TicksPerMs, now: nat, wall: nat, started: nat, ttl: nat)
    requires now / g <= wall && started <= now
    ensures Dominates(g, ttl, Expiry(g, wall, ttl), started + ttl)
  {
    assert now == now / g * g + now % g;
    assert ttl == ttl / g * g + ttl % g;
    assert now / g * g <= wall * g;
    assert (wall + ttl / g) * g == wall * g + ttl / g * g;
  }

  /** Only one put of a session carries a given generation, so what is stored is what it wrote. */
  lemma StoredIsPut(g: TicksPerMs, st: LeaseState, node: NodeId, id: nat)
    requires LeaseInv(g, st)
    requires node in st.stored && id < |st.ops| && st.ops[id].Put?
    requires st.ops[id].session == st.stored[node].session
    requires st.ops[id].lease.generation == st.stored[node].generation
    ensures id in st.landed && st.ops[id].node == node && st.stored[node] == st.ops[id].lease
  {
    assert Written(st, node);
    var w: nat :| WrittenBy(st, node, w);
    assert OpOk(g, st, w) && OpOk(g, st, id);
    assert SameGeneration(st, w, id);
  }

  lemma WrittenStays(st: LeaseState, st': LeaseState, node: NodeId)
    requires Written(st, node)
    requires st.landed <= st'.landed && |st.ops| <= |st'.ops|
    requires forall id: nat :: id < |st.ops| ==> st'.ops[id] == st.ops[id]
    requires node in st'.stored && st'.stored[node] == st.stored[node]
    ensures Written(st', node)
  {
    var w: nat :| WrittenBy(st, node, w);
    assert WrittenBy(st', node, w);
  }

  lemma StoreInvFrame(st: LeaseState, st': LeaseState)
    requires StoreInv(st)
    requires st'.ops == st.ops && st'.landed == st.landed && st'.stored == st.stored
    ensures StoreInv(st')
  {
    forall n | n in st'.stored ensures Written(st', n) {
      WrittenStays(st, st', n);
    }
    forall i: nat, j: nat | i < |st'.ops| && j < |st'.ops| && SameGeneration(st', i, j) ensures i == j {
      assert SameGeneration(st, i, j);
    }
  }

  lemma StoreInvExtend(st: LeaseState, st': LeaseState, op: LeaseOp)
    requires StoreInv(st)
    requires st'.ops == st.ops + [op] && st'.landed == st.landed && st'.stored == st.stored
    requires op.Put? ==> forall i: nat :: i < |st.ops| && st.ops[i].Put? && st.ops[i].session == op.session
                                       ==> st.ops[i].lease.generation != op.lease.generation
    ensures StoreInv(st')
  {
    forall n | n in st'.stored ensures Written(st', n) {
      WrittenStays(st, st', n);
    }
    forall i: nat, j: nat | i < |st'.ops| && j < |st'.ops| && SameGeneration(st', i, j) ensures i == j {
      assert i < |st.ops| && j < |st.ops| ==> SameGeneration(st, i, j);
    }
  }

  lemma StoreInvLand(st: LeaseState, id: nat)
    requires StoreInv(st) && id < |st.ops|
    ensures StoreInv(Land(st, id))
  {
    var st' := Land(st, id);
    if st' != st {
      forall n | n in st'.stored ensures Written(st', n) {
        if st.ops[id].Put? && n == st.ops[id].node {
          assert WrittenBy(st', n, id);
        } else {
          WrittenStays(st, st', n);
        }
      }
      forall i: nat, j: nat | i < |st'.ops| && j < |st'.ops| && SameGeneration(st', i, j) ensures i == j {
        assert SameGeneration(st, i, j);
      }
    }
  }

  lemma LandedPutKeepsOp(g: TicksPerMs, st: LeaseState, id: nat, j: nat)
    requires LeaseInv(g, st) && id < |st.ops| && id !in st.landed && st.ops[id].Put?
    requires Matches(st.stored, st.ops[id].node, st.ops[id].condition)
    requires j < |st.ops|
    ensures OpOk(g, Land(st, id), j)
  {
    assert OpOk(g, st, id) && OpOk(g, st, j);
    var s := st.ops[id].session;
    assert s in st.sessions ==> SessionOk(g, st, s);
  }

  lemma LandedPutKeepsSession(g: TicksPerMs, st: LeaseState, id: nat, t: SessionId)
    requires LeaseInv(g, st) && id < |st.ops| && id !in st.landed && st.ops[id].Put?
    requires Matches(st.stored, st.ops[id].node, st.ops[id].condition)
    requires t in st.sessions
    ensures SessionOk(g, Land(st, id), t)
  {
    assert OpOk(g, st, id) && SessionOk(g, st, t);
  }

  lemma LandPutKeepsInv(g: TicksPerMs, st: LeaseState, id: nat)
    requires LeaseInv(g, st) && id < |st.ops| && id !in st.landed && st.ops[id].Put?
    requires Matches(st.stored, st.ops[id].node, st.ops[id].condition)
    ensures LeaseInv(g, Land(st, id))
  {
    var st' := Land(st, id);
    StoreInvLand(st, id);
    forall j: nat | j < |st'.ops| ensures OpOk(g, st', j) {
      LandedPutKeepsOp(g, st, id, j);
    }
    forall t | t in st'.sessions ensures SessionOk(g, st', t) {
      LandedPutKeepsSession(g, st, id, t);
    }
    forall t | t in st'.starts ensures StartOk(g, st', t) {
      assert StartOk(g, st, t);
    }
  }

  lemma LandDeleteKeepsInv(g: TicksPerMs, st: LeaseState, id: nat)
    requires LeaseInv(g, st) && id < |st.ops| && st.ops[id].Delete?
    ensures LeaseInv(g, Land(st, id))
  {
    var st' := Land(st, id);
    StoreInvLand(st, id);
    forall j: nat | j < |st'.ops| ensures OpOk(g, st', j) {
      assert OpOk(g, st, j) && OpOk(g, st, id);
    }
    forall t | t in st'.sessions ensures SessionOk(g, st', t) {
      assert SessionOk(g, st, t);
    }
    forall t | t in st'.starts ensures StartOk(g, st', t) {
      assert StartOk(g, st, t);
    }
  }

  /** Reading the lease, giving up, or noting a lost response changes one phase only. */
  lemma PhaseKeepsInv(g: TicksPerMs, st: LeaseState, s: SessionId, phase: StartPhase)
    requires LeaseInv(g, st) && s in st.starts
    requires phase.Done?
             || (phase.ConfirmingPut? && Acquiring(st, s) && phase.op == st.starts[s].phase.op)
             || (phase == Fetched(Lookup(st.stored, st.starts[s].node)) && st.starts[s].phase.Reading?)
    ensures LeaseInv(g, SetStart(st, s, phase))
  {
    var st' := SetStart(st, s, phase);
    StoreInvFrame(st, st');
    if phase.Fetched? && phase.found.Some? {
      var node := st.starts[s].node;
      assert Written(st, node);
      var w: nat :| WrittenBy(st, node, w);
      assert OpOk(g, st, w);
    }
    forall j: nat | j < |st'.ops| ensures OpOk(g, st', j) {
      assert OpOk(g, st, j);
    }
    forall t | t in st'.sessions ensures SessionOk(g, st', t) {
      assert SessionOk(g, st, t);
    }
    forall t | t in st'.starts ensures StartOk(g, st', t) {
      assert StartOk(g, st, t);
      assert StartOk(g, st, s);
    }
  }

  lemma AcquirePutKeepsOp(g: TicksPerMs, st: LeaseState, s: SessionId, wallTest: nat, wallPut: nat, j: nat)
    requires LeaseInv(g, st) && LeaseEnabled(st, AcquirePut(s, wallTest, wallPut))
    requires j < |LeaseNext(g, st, AcquirePut(s, wallTest, wallPut)).ops|
    ensures OpOk(g, LeaseNext(g, st, AcquirePut(s, wallTest, wallPut)), j)
    ensures j < |st.ops| && st.ops[j].Put? ==> st.ops[j].session != s
  {
    assert StartOk(g, st, s);
    if j < |st.ops| {
      assert OpOk(g, st, j);
    }
  }

  lemma AcquirePutKeepsInv(g: TicksPerMs, st: LeaseState, s: SessionId, wallTest: nat, wallPut: nat)
    requires LeaseInv(g, st) && LeaseEnabled(st, AcquirePut(s, wallTest, wallPut))
    requires WallNotBehind(g, st, wallPut)
    ensures LeaseInv(g, LeaseNext(g, st, AcquirePut(s, wallTest, wallPut)))
  {
    var st' := LeaseNext(g, st, AcquirePut(s, wallTest, wallPut));
    var start := st.starts[s];
    assert StartOk(g, st, s);
    if st'.ops == st.ops {
      PhaseKeepsInv(g, st, s, Done);
    } else {
      forall j: nat | j < |st'.ops|
        ensures OpOk(g, st', j) && (j < |st.ops| && st.ops[j].Put? ==> st.ops[j].session != s)
      {
        AcquirePutKeepsOp(g, st, s, wallTest, wallPut, j);
      }
      StoreInvExtend(st, st', st'.ops[|st.ops|]);
      forall t | t in st'.sessions ensures SessionOk(g, st', t) {
        assert SessionOk(g, st, t);
      }
      forall t | t in st'.starts ensures StartOk(g, st', t) {
        assert StartOk(g, st, t);
        ExpiryDominates(g, st.now, wallPut, start.started, start.ttl);
      }
    }
  }

  /** Coming into service on the lease that acquisition `s` put in the store. */
  lemma StartedKeepsInv(g: TicksPerMs, st: LeaseState, s: SessionId)
    requires LeaseInv(g, st) && Acquiring(st, s) && StartOk(g, st, s)
    requires st.starts[s].phase.op in st.landed
    ensures LeaseInv(g, Started(st, s, st.ops[st.starts[s].phase.op].lease))
  {
    var op := st.starts[s].phase.op;
    var st' := Started(st, s, st.ops[op].lease);
    if s !in st'.sessions {
      PhaseKeepsInv(g, st, s, Done);
    } else {
      assert OpOk(g, st, op);
      StoreInvFrame(st, st');
      forall j: nat | j < |st'.ops| ensures OpOk(g, st', j) {
        assert OpOk(g, st, j);
        if st.ops[j].Put? && st.ops[j].session == s {
          assert SameGeneration(st, j, op);
        }
      }
      forall t | t in st'.sessions ensures SessionOk(g, st', t) {
        if t != s {
          assert SessionOk(g, st, t);
        } else {
          StartedLeaseOk(g, st, s);
        }
      }
      forall t | t in st'.starts ensures StartOk(g, st', t) {
        assert StartOk(g, st, t);
      }
    }
  }

  /** While `s` is acquiring, any stored lease of its is the one it put. */
  lemma StartedLeaseOk(g: TicksPerMs, st: LeaseState, s: SessionId)
    requires LeaseInv(g, st) && Acquiring(st, s) && StartOk(g, st, s)
    ensures var node := st.starts[s].node;
            node in st.stored && st.stored[node].session == s
            ==> st.stored[node] == st.ops[st.starts[s].phase.op].lease && st.starts[s].phase.op in st.landed
  {
    var node := st.starts[s].node;
    if node in st.stored && st.stored[node].session == s {
      assert Written(st, node);
      var w: nat :| WrittenBy(st, node, w);
      assert OpOk(g, st, w) && OpOk(g, st, st.starts[s].phase.op);
      assert SameGeneration(st, w, st.starts[s].phase.op);
    }
  }

  lemma RenewStartKeepsOp(g: TicksPerMs, st: LeaseState, s: SessionId, wall: nat, j: nat)
    requires LeaseInv(g, st) && LeaseEnabled(st, RenewStart(s, wall))
    requires WallNotBehind(g, st, wall) && j <= |st.ops|
    ensures OpOk(g, LeaseNext(g, st, RenewStart(s, wall)), j)
  {
    assert SessionOk(g, st, s);
    if j < |st.ops| {
      assert OpOk(g, st, j);
    } else {
      ExpiryDominates(g, st.now, wall, st.now, st.sessions[s].ttl);
    }
  }

  lemma RenewStartKeepsSession(g: TicksPerMs, st: LeaseState, s: SessionId, wall: nat, t: SessionId)
    requires LeaseInv(g, st) && LeaseEnabled(st, RenewStart(s, wall))
    requires WallNotBehind(g, st, wall) && t in st.sessions
    ensures SessionOk(g, LeaseNext(g, st, RenewStart(s, wall)), t)
  {
    assert SessionOk(g, st, t);
    if t == s {
      ExpiryDominates(g, st.now, wall, st.now, st.sessions[s].ttl);
    }
  }

  lemma RenewStartKeepsInv(g: TicksPerMs, st: LeaseState, s: SessionId, wall: nat)
    requires LeaseInv(g, st) && LeaseEnabled(st, RenewStart(s, wall))
    requires WallNotBehind(g, st, wall)
    ensures LeaseInv(g, LeaseNext(g, st, RenewStart(s, wall)))
  {
    var st' := LeaseNext(g, st, RenewStart(s, wall));
    forall j: nat | j < |st'.ops|
      ensures OpOk(g, st', j)
      ensures j < |st.ops| && st.ops[j].Put? && st.ops[j].session == s
              ==> st.ops[j].lease.generation <= st.sessions[s].generation
    {
      RenewStartKeepsOp(g, st, s, wall, j);
      assert j < |st.ops| ==> OpOk(g, st, j);
    }
    StoreInvExtend(st, st', st'.ops[|st.ops|]);
    forall t | t in st'.sessions ensures SessionOk(g, st', t) {
      RenewStartKeepsSession(g, st, s, wall, t);
    }
    forall t | t in st'.starts ensures StartOk(g, st', t) {
      assert StartOk(g, st, t);
    }
  }

  /** What a step that touches only one session's local view may change. */
  predicate LocalChange(was: NodeSession, ss: NodeSession) {
    && ss.node == was.node && ss.ttl == was.ttl && ss.generation == was.generation
    && ss.released == was.released
    && ((ss.revision == was.revision && ss.deadline == was.deadline)
        || was.revision.generation < ss.revision.generation)
  }

  lemma LocalChangeKeepsInv(g: TicksPerMs, st: LeaseState, s: SessionId, ss: NodeSession)
    requires LeaseInv(g, st) && s in st.sessions && LocalChange(st.sessions[s], ss)
    requires SessionOk(g, SetSession(st, s, ss), s)
    ensures LeaseInv(g, SetSession(st, s, ss))
  {
    var st' := SetSession(st, s, ss);
    StoreInvFrame(st, st');
    forall j: nat | j < |st'.ops| ensures OpOk(g, st', j) {
      assert OpOk(g, st, j);
    }
    forall t | t in st'.sessions ensures SessionOk(g, st', t) {
      assert t != s ==> SessionOk(g, st, t);
    }
    forall t | t in st'.starts ensures StartOk(g, st', t) {
      assert StartOk(g, st, t);
    }
  }

  /** Adopting a renewal whose put reached the store. */
  lemma RenewedKeepsInv(g: TicksPerMs, st: LeaseState, s: SessionId)
    requires LeaseInv(g, st) && s in st.sessions && Renewing(st.sessions[s])
    requires RenewalPutOk(g, st, s) && st.sessions[s].renewal.op in st.landed
    ensures var ss := st.sessions[s];
            LeaseInv(g, SetSession(st, s, Renewed(ss, st.ops[ss.renewal.op].lease, ss.renewal.started)))
  {
    var ss := st.sessions[s];
    var op := ss.renewal.op;
    assert SessionOk(g, st, s) && OpOk(g, st, op);
    if ss.node in st.stored && st.stored[ss.node].session == s {
      StoredIsPut(g, st, ss.node, op);
    }
    LocalChangeKeepsInv(g, st, s, Renewed(ss, st.ops[op].lease, ss.renewal.started));
  }

  lemma RenewConfirmKeepsInv(g: TicksPerMs, st: LeaseState, s: SessionId, wall: nat)
    requires LeaseInv(g, st) && LeaseEnabled(st, RenewConfirm(s, wall))
    ensures LeaseInv(g, LeaseNext(g, st, RenewConfirm(s, wall)))
  {
    var ss := st.sessions[s];
    var seen := Visible(Lookup(st.stored, ss.node), wall);
    assert SessionOk(g, st, s);
    if seen.Some? && seen.value.session == s && seen.value.generation == ss.generation {
      StoredIsPut(g, st, ss.node, ss.renewal.op);
      RenewedKeepsInv(g, st, s);
    } else {
      LocalChangeKeepsInv(g, st, s, Unconfirmed(ss));
    }
  }

  lemma ReleaseLeaseKeepsInv(g: TicksPerMs, st: LeaseState, s: SessionId)
    requires LeaseInv(g, st) && LeaseEnabled(st, ReleaseLease(s))
    ensures LeaseInv(g, LeaseNext(g, st, ReleaseLease(s)))
  {
    var st' := LeaseNext(g, st, ReleaseLease(s));
    assert SessionOk(g, st, s);
    StoreInvExtend(st, st', st'.ops[|st.ops|]);
    forall j: nat | j < |st'.ops| ensures OpOk(g, st', j) {
      assert j < |st.ops| ==> OpOk(g, st, j);
    }
    forall t | t in st'.sessions ensures SessionOk(g, st', t) {
      assert SessionOk(g, st, t);
    }
    forall t | t in st'.starts ensures StartOk(g, st', t) {
      assert StartOk(g, st, t);
    }
  }

  lemma AcquireConfirmKeepsInv(g: TicksPerMs, st: LeaseState, s: SessionId, wall: nat)
    requires LeaseInv(g, st) && LeaseEnabled(st, AcquireConfirm(s, wall))
    ensures LeaseInv(g, LeaseNext(g, st, AcquireConfirm(s, wall)))
  {
    var start := st.starts[s];
    var seen := Visible(Lookup(st.stored, start.node), wall);
    assert StartOk(g, st, s);
    if seen.Some? && seen.value.session == s && seen.value.generation == 0 {
      StartedLeaseOk(g, st, s);
      StartedKeepsInv(g, st, s);
    } else if start.phase.tries + 1 < LEASE_READ_BACKS {
      PhaseKeepsInv(g, st, s, ConfirmingPut(start.phase.op, start.phase.tries + 1));
    } else {
      PhaseKeepsInv(g, st, s, Done);
    }
  }

  lemma ClockAndBirthKeepInv(g: TicksPerMs, st: LeaseState, ev: LeaseEvent)
    requires LeaseInv(g, st) && LeaseEnabled(st, ev) && (ev.Tick? || ev.StartSession?)
    ensures LeaseInv(g, LeaseNext(g, st, ev))
  {
    var st' := LeaseNext(g, st, ev);
    StoreInvFrame(st, st');
    forall j: nat | j < |st'.ops| ensures OpOk(g, st', j) {
      assert OpOk(g, st, j);
    }
    forall t | t in st'.sessions ensures SessionOk(g, st', t) {
      assert SessionOk(g, st, t);
    }
    forall t | t in st'.starts ensures StartOk(g, st', t) {
      assert t in st.starts ==> StartOk(g, st, t);
      assert t in st.sessions ==> SessionOk(g, st, t);
    }
  }

  lemma LocalEventKeepsInv(g: TicksPerMs, st: LeaseState, ev: LeaseEvent)
    requires LeaseInv(g, st) && LeaseEnabled(st, ev)
    requires ev.RenewIndeterminate? || ev.RenewReadFails? || ev.RenewConflict? || ev.RenewError?
             || ev.RenewLapse? || ev.FenceRuntime? || ev.BeginShutdown? || ev.FinishShutdown?
    ensures LeaseInv(g, LeaseNext(g, st, ev))
  {
    assert SessionOk(g, st, ev.s);
    LocalChangeKeepsInv(g, st, ev.s, LeaseNext(g, st, ev).sessions[ev.s]);
  }

  /** Every step keeps the lease invariant, whatever the readers' clocks do. */
  lemma LeaseStepKeepsInv(g: TicksPerMs, st: LeaseState, ev: LeaseEvent)
    requires LeaseInv(g, st) && LeaseEnabled(st, ev) && PutClockOk(g, st, ev)
    ensures LeaseInv(g, LeaseNext(g, st, ev))
  {
    match ev
    case Tick(_) => ClockAndBirthKeepInv(g, st, ev);
    case StartSession(_, _, _) => ClockAndBirthKeepInv(g, st, ev);
    case AcquireRead(s) => PhaseKeepsInv(g, st, s, Fetched(Lookup(st.stored, st.starts[s].node)));
    case AcquirePut(s, wallTest, wallPut) => AcquirePutKeepsInv(g, st, s, wallTest, wallPut);
    case AcquireApplied(s) => assert StartOk(g, st, s); StartedKeepsInv(g, st, s);
    case AcquireIndeterminate(s) => PhaseKeepsInv(g, st, s, ConfirmingPut(st.starts[s].phase.op, 0));
    case AcquireConfirm(s, wall) => AcquireConfirmKeepsInv(g, st, s, wall);
    case AcquireFail(s) => PhaseKeepsInv(g, st, s, Done);
    case LandLease(id) =>
      if st.ops[id].Delete? {
        LandDeleteKeepsInv(g, st, id);
      } else if Matches(st.stored, st.ops[id].node, st.ops[id].condition) {
        LandPutKeepsInv(g, st, id);
      }
    case RenewStart(s, wall) => RenewStartKeepsInv(g, st, s, wall);
    case RenewApplied(s) => assert SessionOk(g, st, s); RenewedKeepsInv(g, st, s);
    case RenewConfirm(s, wall) => RenewConfirmKeepsInv(g, st, s, wall);
    case ReleaseLease(s) => ReleaseLeaseKeepsInv(g, st, s);
    case _ => LocalEventKeepsInv(g, st, ev);
  }

  /** A renewal result is acted on strictly before the deadline it extends. */
  predicate PromptRenewal(st: LeaseState, ev: LeaseEvent) {
    (ev.RenewApplied? || ev.RenewConfirm?) && ev.s in st.sessions ==> st.now < st.sessions[ev.s].deadline
  }

  /** A wall clock that runs at most `skew` ticks ahead of the slowest one. */
  predicate Reads(g: TicksPerMs, skew: nat, st: LeaseState, wall: nat) {
    st.now / g <= wall <= (st.now + skew) / g
  }

  predicate LeaseClockOk(g: TicksPerMs, skew: nat, st: LeaseState, ev: LeaseEvent) {
    match ev
    case AcquirePut(_, wallTest, wallPut) => Reads(g, skew, st, wallTest) && Reads(g, skew, st, wallPut)
    case AcquireConfirm(_, wall) => Reads(g, skew, st, wall)
    case RenewStart(_, wall) => Reads(g, skew, st, wall)
    case RenewConfirm(_, wall) => Reads(g, skew, st, wall)
    case _ => true
  }

  /** The events by which a started session changes its own view. */
  predicate TouchesSession(ev: LeaseEvent, s: SessionId) {
    match ev
    case RenewStart(t, _) => t == s
    case RenewApplied(t) => t == s
    case RenewIndeterminate(t) => t == s
    case RenewConfirm(t, _) => t == s
    case RenewReadFails(t) => t == s
    case RenewConflict(t) => t == s
    case RenewError(t) => t == s
    case RenewLapse(t) => t == s
    case FenceRuntime(t) => t == s
    case BeginShutdown(t) => t == s
    case FinishShutdown(t) => t == s
    case ReleaseLease(t) => t == s
    case _ => false
  }

  lemma UntouchedSession(g: TicksPerMs, st: LeaseState, ev: LeaseEvent, s: SessionId)
    requires s in st.sessions && LeaseEnabled(st, ev) && !TouchesSession(ev, s)
    requires s in st.starts && st.starts[s].phase.Done?
    ensures var st' := LeaseNext(g, st, ev);
            s in st'.sessions && st'.sessions[s] == st.sessions[s] && st.now <= st'.now
  {
  }

  /** Once a session's authority lapses it never comes back, and its identity is fixed. */
  lemma LapsePersists(g: TicksPerMs, st: LeaseState, ev: LeaseEvent, s: SessionId)
    requires LeaseEnabled(st, ev) && PromptRenewal(st, ev)
    requires s in st.sessions && s in st.starts && st.starts[s].phase.Done?
    ensures var st' := LeaseNext(g, st, ev);
            && s in st'.sessions && st'.sessions[s].node == st.sessions[s].node
            && (IsValid(st', s) ==> IsValid(st, s))
            && (Holds(st', s) ==> Holds(st, s))
            && (Admits(st', s) ==> Admits(st, s))
  {
    if !TouchesSession(ev, s) {
      UntouchedSession(g, st, ev, s);
    }
  }

  /** A session comes into service once: its start is over. */
  ghost predicate BornOnce(st: LeaseState) {
    forall s :: s in st.sessions ==> s in st.starts && st.starts[s].phase.Done?
  }

  lemma StepKeepsBornOnce(g: TicksPerMs, st: LeaseState, ev: LeaseEvent)
    requires BornOnce(st) && LeaseEnabled(st, ev)
    ensures BornOnce(LeaseNext(g, st, ev))
  {
    var st' := LeaseNext(g, st, ev);
    forall s | s in st'.sessions ensures s in st'.starts && st'.starts[s].phase.Done? {
      BornInStart(g, st, ev, s);
    }
  }

  lemma BornInStart(g: TicksPerMs, st: LeaseState, ev: LeaseEvent, s: SessionId)
    requires LeaseEnabled(st, ev) && s in LeaseNext(g, st, ev).sessions
    requires s in st.sessions ==> s in st.starts && st.starts[s].phase.Done?
    ensures s in LeaseNext(g, st, ev).starts && LeaseNext(g, st, ev).starts[s].phase.Done?
  {
  }

  predicate NamedInStore(st: LeaseState, node: NodeId, s: SessionId) {
    node in st.stored && st.stored[node].session == s
  }

  /** Judged by a clock at most `skew` ahead, the lease has expired. */
  predicate Overdue(g: TicksPerMs, skew: nat, st: LeaseState, lease: Lease) {
    lease.expires * g <= st.now + skew
  }

  /** The deadline is far enough off: no reader can have judged a lease that covers it expired. */
  predicate Secure(g: TicksPerMs, skew: nat, st: LeaseState, ttl: nat, deadline: nat) {
    st.now + skew + g + ttl % g <= deadline
  }

  /** An acquisition may overwrite another session's lease only if it found it expired. */
  predicate TakesOverExpired(g: TicksPerMs, skew: nat, st: LeaseState, id: nat)
    requires id < |st.ops|
  {
    st.ops[id].Put? && st.ops[id].condition.IfMatch? && !OwnCondition(st.ops[id].session, st.ops[id].condition)
    ==> Overdue(g, skew, st, st.ops[id].condition.revision)
  }

  /** An acquisition that reached the store and can still come into service. */
  predicate AboutToServe(g: TicksPerMs, skew: nat, st: LeaseState, s: SessionId) {
    && Acquiring(st, s) && st.starts[s].phase.op in st.landed
    && Secure(g, skew, st, st.starts[s].ttl, st.starts[s].started + st.starts[s].ttl)
  }

  predicate AcquirerNamed(g: TicksPerMs, skew: nat, st: LeaseState, s: SessionId)
    requires s in st.starts
  {
    AboutToServe(g, skew, st, s) ==> NamedInStore(st, st.starts[s].node, s)
  }

  /** A renewal that reached the store and can still extend the deadline. */
  predicate AboutToRenew(g: TicksPerMs, skew: nat, st: LeaseState, s: SessionId) {
    && s in st.sessions && Renewing(st.sessions[s]) && st.sessions[s].renewal.op in st.landed
    && Secure(g, skew, st, st.sessions[s].ttl, st.sessions[s].renewal.started + st.sessions[s].ttl)
  }

  predicate RenewerNamed(g: TicksPerMs, skew: nat, st: LeaseState, s: SessionId)
    requires s in st.sessions
  {
    AboutToRenew(g, skew, st, s) ==> NamedInStore(st, st.sessions[s].node, s)
  }

  predicate HolderNamed(g: TicksPerMs, skew: nat, st: LeaseState, s: SessionId)
    requires s in st.sessions
  {
    Holds(st, s) && Secure(g, skew, st, st.sessions[s].ttl, st.sessions[s].deadline)
    ==> NamedInStore(st, st.sessions[s].node, s)
  }

  ghost predicate NamedInv(g: TicksPerMs, skew: nat, st: LeaseState) {
    && (forall s :: s in st.sessions ==> HolderNamed(g, skew, st, s) && RenewerNamed(g, skew, st, s))
    && (forall s :: s in st.starts ==> AcquirerNamed(g, skew, st, s))
    && (forall id: nat :: id < |st.ops| ==> TakesOverExpired(g, skew, st, id))
  }

  /** A write that takes effect spares a stored lease that covers a secure deadline. */
  lemma LandSparesNamed(
    g: TicksPerMs, skew: nat, st: LeaseState, id: nat, node: NodeId, s: SessionId, ttl: nat, deadline: nat)
    requires id < |st.ops| && OpOk(g, st, id) && TakesOverExpired(g, skew, st, id)
    requires NamedInStore(st, node, s) && Secure(g, skew, st, ttl, deadline)
    requires Dominates(g, ttl, st.stored[node].expires, deadline)
    requires s in st.sessions ==> !st.sessions[s].released
    ensures NamedInStore(Land(st, id), node, s)
  {
    assert !Overdue(g, skew, st, st.stored[node]);
  }

  lemma LandSparesHolder(g: TicksPerMs, skew: nat, st: LeaseState, id: nat, s: SessionId)
    requires LeaseInv(g, st) && NamedInv(g, skew, st) && id < |st.ops| && id !in st.landed
    requires s in st.sessions
    ensures HolderNamed(g, skew, Land(st, id), s)
  {
    var ss := st.sessions[s];
    assert OpOk(g, st, id) && TakesOverExpired(g, skew, st, id);
    assert SessionOk(g, st, s) && HolderNamed(g, skew, st, s);
    if Holds(st, s) && Secure(g, skew, st, ss.ttl, ss.deadline) {
      LandSparesNamed(g, skew, st, id, ss.node, s, ss.ttl, ss.deadline);
    }
  }

  /** What the store holds of a session whose renewal has landed is that renewal. */
  lemma RenewalIsStored(g: TicksPerMs, st: LeaseState, s: SessionId)
    requires LeaseInv(g, st) && s in st.sessions && Renewing(st.sessions[s])
    requires st.sessions[s].renewal.op in st.landed && NamedInStore(st, st.sessions[s].node, s)
    ensures st.sessions[s].renewal.op < |st.ops| && st.ops[st.sessions[s].renewal.op].Put?
    ensures st.stored[st.sessions[s].node] == st.ops[st.sessions[s].renewal.op].lease
  {
    var op := st.sessions[s].renewal.op;
    assert SessionOk(g, st, s) && OpOk(g, st, op);
    StoredIsPut(g, st, st.sessions[s].node, op);
  }

  lemma LandSparesRenewer(g: TicksPerMs, skew: nat, st: LeaseState, id: nat, s: SessionId)
    requires LeaseInv(g, st) && NamedInv(g, skew, st) && id < |st.ops| && id !in st.landed
    requires s in st.sessions
    ensures RenewerNamed(g, skew, Land(st, id), s)
  {
    var ss := st.sessions[s];
    assert OpOk(g, st, id) && TakesOverExpired(g, skew, st, id);
    assert SessionOk(g, st, s) && RenewerNamed(g, skew, st, s);
    if AboutToRenew(g, skew, st, s) {
      RenewalIsStored(g, st, s);
      LandSparesNamed(g, skew, st, id, ss.node, s, ss.ttl, ss.renewal.started + ss.ttl);
    }
  }

  lemma LandSparesAcquirer(g: TicksPerMs, skew: nat, st: LeaseState, id: nat, s: SessionId)
    requires LeaseInv(g, st) && NamedInv(g, skew, st) && id < |st.ops| && id !in st.landed
    requires s in st.starts
    ensures AcquirerNamed(g, skew, Land(st, id), s)
  {
    var start := st.starts[s];
    assert OpOk(g, st, id) && TakesOverExpired(g, skew, st, id);
    assert StartOk(g, st, s) && AcquirerNamed(g, skew, st, s);
    if AboutToServe(g, skew, st, s) {
      StartedLeaseOk(g, st, s);
      LandSparesNamed(g, skew, st, id, start.node, s, start.ttl, start.started + start.ttl);
    } else if Acquiring(st, s) {
      assert OpOk(g, st, start.phase.op);
    }
  }

  lemma LandKeepsNamed(g: TicksPerMs, skew: nat, st: LeaseState, id: nat)
    requires LeaseInv(g, st) && NamedInv(g, skew, st) && id < |st.ops| && id !in st.landed
    ensures NamedInv(g, skew, Land(st, id))
  {
    var st' := Land(st, id);
    forall s | s in st'.sessions ensures HolderNamed(g, skew, st', s) && RenewerNamed(g, skew, st', s) {
      LandSparesHolder(g, skew, st, id, s);
      LandSparesRenewer(g, skew, st, id, s);
    }
    forall s | s in st'.starts ensures AcquirerNamed(g, skew, st', s) {
      LandSparesAcquirer(g, skew, st, id, s);
    }
    forall j: nat | j < |st'.ops| ensures TakesOverExpired(g, skew, st', j) {
      assert TakesOverExpired(g, skew, st, j);
    }
  }

  /** A session comes into service only while the store names it. */
  lemma ArrivalIsNamed(g: TicksPerMs, skew: nat, st: LeaseState, ev: LeaseEvent)
    requires LeaseInv(g, st) && NamedInv(g, skew, st) && LeaseEnabled(st, ev)
    requires ev.AcquireApplied? || ev.AcquireConfirm?
    ensures var st' := LeaseNext(g, st, ev); ev.s in st'.sessions ==> HolderNamed(g, skew, st', ev.s)
  {
    assert StartOk(g, st, ev.s) && AcquirerNamed(g, skew, st, ev.s);
  }

  /** A renewal is adopted only while the store names its session, or too late to count on it. */
  lemma AdoptionIsNamed(g: TicksPerMs, skew: nat, st: LeaseState, ev: LeaseEvent)
    requires LeaseInv(g, st) && NamedInv(g, skew, st) && LeaseEnabled(st, ev)
    requires ev.RenewApplied? || ev.RenewConfirm?
    ensures HolderNamed(g, skew, LeaseNext(g, st, ev), ev.s)
  {
    assert SessionOk(g, st, ev.s) && HolderNamed(g, skew, st, ev.s) && RenewerNamed(g, skew, st, ev.s);
  }

  /** No other local step moves a deadline or the clock in a session's favour. */
  lemma OtherStepGainsNothing(g: TicksPerMs, skew: nat, st: LeaseState, ev: LeaseEvent, s: SessionId)
    requires LeaseEnabled(st, ev) && !ev.LandLease? && s in st.sessions && BornOnce(st)
    requires !((ev.RenewApplied? || ev.RenewConfirm?) && ev.s == s)
    ensures var st' := LeaseNext(g, st, ev);
            && s in st'.sessions && st'.stored == st.stored && st.now <= st'.now
            && st'.sessions[s].node == st.sessions[s].node && st'.sessions[s].ttl == st.sessions[s].ttl
            && st'.sessions[s].deadline == st.sessions[s].deadline && (Holds(st', s) ==> Holds(st, s))
  {
    if !TouchesSession(ev, s) {
      UntouchedSession(g, st, ev, s);
      OnlyLandingStores(g, st, ev);
    }
  }

  lemma OnlyLandingStores(g: TicksPerMs, st: LeaseState, ev: LeaseEvent)
    requires LeaseEnabled(st, ev) && !ev.LandLease?
    ensures LeaseNext(g, st, ev).stored == st.stored && LeaseNext(g, st, ev).landed == st.landed
  {
  }

  lemma StepKeepsHolderNamed(g: TicksPerMs, skew: nat, st: LeaseState, ev: LeaseEvent, s: SessionId)
    requires LeaseInv(g, st) && NamedInv(g, skew, st) && LeaseEnabled(st, ev) && BornOnce(st)
    requires !ev.LandLease? && s in LeaseNext(g, st, ev).sessions
    ensures HolderNamed(g, skew, LeaseNext(g, st, ev), s)
  {
    if s !in st.sessions {
      ArrivalIsNamed(g, skew, st, ev);
    } else if (ev.RenewApplied? || ev.RenewConfirm?) && ev.s == s {
      AdoptionIsNamed(g, skew, st, ev);
    } else {
      assert HolderNamed(g, skew, st, s);
      OtherStepGainsNothing(g, skew, st, ev, s);
    }
  }

  /** A renewal becomes ready to extend a deadline only by landing. */
  lemma RenewReadyOnlyByLanding(g: TicksPerMs, skew: nat, st: LeaseState, ev: LeaseEvent, s: SessionId)
    requires LeaseEnabled(st, ev) && !ev.LandLease? && |st.ops| !in st.landed && BornOnce(st)
    requires AboutToRenew(g, skew, LeaseNext(g, st, ev), s)
    ensures AboutToRenew(g, skew, st, s)
    ensures LeaseNext(g, st, ev).sessions[s].node == st.sessions[s].node
  {
    if s in st.sessions && !TouchesSession(ev, s) {
      UntouchedSession(g, st, ev, s);
      OnlyLandingStores(g, st, ev);
    }
  }

  lemma StepKeepsRenewerNamed(g: TicksPerMs, skew: nat, st: LeaseState, ev: LeaseEvent, s: SessionId)
    requires LeaseInv(g, st) && NamedInv(g, skew, st) && LeaseEnabled(st, ev) && BornOnce(st)
    requires !ev.LandLease? && s in LeaseNext(g, st, ev).sessions
    ensures RenewerNamed(g, skew, LeaseNext(g, st, ev), s)
  {
    if AboutToRenew(g, skew, LeaseNext(g, st, ev), s) {
      RenewReadyOnlyByLanding(g, skew, st, ev, s);
      assert RenewerNamed(g, skew, st, s);
      OnlyLandingStores(g, st, ev);
    }
  }

  /** An acquisition becomes ready to serve only by landing. */
  lemma ReadyOnlyByLanding(g: TicksPerMs, skew: nat, st: LeaseState, ev: LeaseEvent, s: SessionId)
    requires LeaseEnabled(st, ev) && !ev.LandLease? && |st.ops| !in st.landed
    requires AboutToServe(g, skew, LeaseNext(g, st, ev), s)
    ensures AboutToServe(g, skew, st, s) && LeaseNext(g, st, ev).starts[s].node == st.starts[s].node
  {
    OnlyLandingStores(g, st, ev);
  }

  lemma StepKeepsAcquirerNamed(g: TicksPerMs, skew: nat, st: LeaseState, ev: LeaseEvent, s: SessionId)
    requires LeaseInv(g, st) && NamedInv(g, skew, st) && LeaseEnabled(st, ev)
    requires !ev.LandLease? && s in LeaseNext(g, st, ev).starts
    ensures AcquirerNamed(g, skew, LeaseNext(g, st, ev), s)
  {
    if AboutToServe(g, skew, LeaseNext(g, st, ev), s) {
      ReadyOnlyByLanding(g, skew, st, ev, s);
      assert AcquirerNamed(g, skew, st, s);
      OnlyLandingStores(g, st, ev);
    }
  }

  lemma StepKeepsTakeoverExpired(g: TicksPerMs, skew: nat, st: LeaseState, ev: LeaseEvent, id: nat)
    requires LeaseInv(g, st) && NamedInv(g, skew, st) && LeaseEnabled(st, ev) && LeaseClockOk(g, skew, st, ev)
    requires !ev.LandLease? && id < |LeaseNext(g, st, ev).ops|
    ensures TakesOverExpired(g, skew, LeaseNext(g, st, ev), id)
  {
    OpsOnlyGrow(g, st, ev);
    if id < |st.ops| {
      assert TakesOverExpired(g, skew, st, id);
    } else if ev.RenewStart? {
      assert SessionOk(g, st, ev.s);
    } else if ev.AcquirePut? {
      AcquisitionFoundExpired(g, skew, st, ev);
    }
  }

  lemma AcquisitionFoundExpired(g: TicksPerMs, skew: nat, st: LeaseState, ev: LeaseEvent)
    requires LeaseEnabled(st, ev) && ev.AcquirePut? && Reads(g, skew, st, ev.wallTest)
    ensures var st' := LeaseNext(g, st, ev);
            |st'.ops| > |st.ops| ==> TakesOverExpired(g, skew, st', |st.ops|)
  {
    var found := st.starts[ev.s].phase.found;
    if found.Some? && !Unexpired(found.value, ev.wallTest) {
      ScaledLe(g, found.value.expires, st.now + skew);
    }
  }

  /** Writes already sent stay as they are, and time does not run backwards. */
  lemma OpsOnlyGrow(g: TicksPerMs, st: LeaseState, ev: LeaseEvent)
    requires LeaseEnabled(st, ev)
    ensures st.ops <= LeaseNext(g, st, ev).ops && st.now <= LeaseNext(g, st, ev).now
    ensures |LeaseNext(g, st, ev).ops| > |st.ops| ==> ev.RenewStart? || ev.AcquirePut? || ev.ReleaseLease?
    ensures |LeaseNext(g, st, ev).ops| <= |st.ops| + 1
  {
  }

  /**
   Whatever the skew and the tick rate, and however late a renewal is acted on, every
   step keeps each holder whose deadline is secure named in the store.
   */
  lemma LeaseStepKeepsNamed(g: TicksPerMs, skew: nat, st: LeaseState, ev: LeaseEvent)
    requires LeaseInv(g, st) && NamedInv(g, skew, st) && LeaseEnabled(st, ev)
    requires LeaseClockOk(g, skew, st, ev)
    ensures NamedInv(g, skew, LeaseNext(g, st, ev))
  {
    var st' := LeaseNext(g, st, ev);
    if ev.LandLease? {
      LandKeepsNamed(g, skew, st, ev.id);
    } else {
      InvBornOnce(g, st);
      forall s | s in st'.sessions ensures HolderNamed(g, skew, st', s) && RenewerNamed(g, skew, st', s) {
        StepKeepsHolderNamed(g, skew, st, ev, s);
        StepKeepsRenewerNamed(g, skew, st, ev, s);
      }
      forall s | s in st'.starts ensures AcquirerNamed(g, skew, st', s) {
        StepKeepsAcquirerNamed(g, skew, st, ev, s);
      }
      forall id: nat | id < |st'.ops| ensures TakesOverExpired(g, skew, st', id) {
        StepKeepsTakeoverExpired(g, skew, st, ev, id);
      }
    }
  }

  lemma InvBornOnce(g: TicksPerMs, st: LeaseState)
    requires LeaseInv(g, st)
    ensures BornOnce(st)
  {
    forall s | s in st.sessions ensures s in st.starts && st.starts[s].phase.Done? {
      assert SessionOk(g, st, s);
    }
  }

  /** Two sessions of one node never hold its lease at once. */
  lemma OneHolderPerNode(st: LeaseState, s: SessionId, t: SessionId)
    requires NamedInv(1, 0, st) && Holds(st, s) && Holds(st, t)
    requires st.sessions[s].node == st.sessions[t].node
    ensures s == t
  {
    assert HolderNamed(1, 0, st, s) && HolderNamed(1, 0, st, t);
  }

  /** A directory read that does not show session `s` proves that `s` has lapsed. */
  lemma UnseenIsDead(st: LeaseState, s: SessionId, wall: nat)
    requires LeaseInv(1, st) && NamedInv(1, 0, st) && s in st.sessions && Reads(1, 0, st, wall)
    requires var seen := Visible(Lookup(st.stored, st.sessions[s].node), wall);
             seen.Some? ==> seen.value.session != s
    ensures Dead(st, s)
  {
    assert SessionOk(1, st, s) && HolderNamed(1, 0, st, s);
  }

  /**
   The real bound: whenever a reader whose clock is at most `skew` ahead judges the
   stored lease of session `s` expired, it is less than `skew` + 1 ms + (ttl mod 1 ms)
   before the deadline up to which `s` believes it may serve.
   */
  lemma ExpiredReadIsLate(g: TicksPerMs, skew: nat, st: LeaseState, s: SessionId, wall: nat)
    requires LeaseInv(g, st) && s in st.sessions && Reads(g, skew, st, wall)
    requires NamedInStore(st, st.sessions[s].node, s)
    requires !Unexpired(st.stored[st.sessions[s].node], wall)
    ensures st.sessions[s].deadline < st.now + skew + g + st.sessions[s].ttl % g
  {
    assert SessionOk(g, st, s);
    ScaledLe(g, st.stored[st.sessions[s].node].expires, st.now + skew);
  }

  lemma ScaledLe(g: TicksPerMs, ms: nat, ticks: nat)
    requires ms <= ticks / g
    ensures ms * g <= ticks
  {
    assert ticks == ticks / g * g + ticks % g;
    assert ms * g <= ticks / g * g;
  }
}
