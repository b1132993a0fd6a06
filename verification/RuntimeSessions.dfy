/**
 Sessions over whole runs: one whose open was accepted stays registered, with its mark,
 until something ends it; one whose open was refused or failed is gone with its caller.
 */
module RuntimeSessions {
  import opened Coordination
  import opened Runtime
  import opened RuntimeProofs
  import opened RuntimeRuns
  import opened RuntimeOutcomes

  /** The steps that end a session: a close, a termination, or a caller of its whose open was refused or failed. */
  predicate EndsSession(sv: Server, ev: Event, key: Key) {
    && Enabled(sv, ev)
    && match ev
       case BeginClose(_, k) => k == key
       case Terminate(k) => k == key
       case Unregister(c) => sv.callers[c].key == key
       case Finish(c, ok) => !ok && sv.callers[c].key == key
       case _ => false
  }

  lemma DispatchKeepsSessions(sv: Server, c: nat, contended: bool, key: Key)
    requires Enabled(sv, Dispatch(c, contended)) && key in sv.sessions
    ensures var sv' := Next(sv, Dispatch(c, contended));
            key in sv'.sessions && (sv.sessions[key] ==> sv'.sessions[key])
  {
    DispatchOutcome(sv, c, contended);
    match sv.callers[c]
    case Opening(k, reserved, _) => DispatchFrame(sv, k.a, SessionOpened(k.sid), reserved, contended);
    case Acting(k, _) => DispatchFrame(sv, k.a, Action(k.sid), false, contended);
  }

  /** No other step ends a session or takes its mark away. */
  lemma OtherStepKeepsSession(sv: Server, ev: Event, key: Key)
    requires key in sv.sessions && !EndsSession(sv, ev, key)
    ensures key in Step(sv, ev).sessions && (sv.sessions[key] ==> Step(sv, ev).sessions[key])
  {
    if Enabled(sv, ev) {
      if ev.Dispatch? {
        DispatchKeepsSessions(sv, ev.c, ev.contended, key);
      } else if IsCallerEvent(ev) || ev.Terminate? {
        CallerStepKeepsSession(sv, ev, key);
      }
    }
  }

  lemma CallerStepKeepsSession(sv: Server, ev: Event, key: Key)
    requires Enabled(sv, ev) && (IsCallerEvent(ev) || ev.Terminate?) && key in sv.sessions && !EndsSession(sv, ev, key)
    ensures key in Next(sv, ev).sessions && (sv.sessions[key] ==> Next(sv, ev).sessions[key])
  {
    if ev.Admit? {
      AdmissionOutcome(sv, ev.c, ev.authorized);
    } else if ev.SendClosed? {
      SendClosedOutcome(sv, ev.c);
    } else {
      CallerOutcome(sv, ev);
    }
  }

  /** Nothing ends this session from instant `i` to `j`. */
  ghost predicate Undisturbed(limits: Limits, run: Run, i: nat, j: nat, key: Key)
    requires i <= j <= |run|
  {
    forall k {:trigger run[k]} :: i <= k < j ==> !EndsSession(ServerAt(limits, run, k), run[k], key)
  }

  /** A registered session stays registered, and keeps its mark, until it is ended. */
  lemma {:induction false} RegistrationStays(limits: Limits, run: Run, i: nat, j: nat, key: Key)
    requires i <= j <= |run| && Undisturbed(limits, run, i, j, key) && key in ServerAt(limits, run, i).sessions
    ensures key in ServerAt(limits, run, j).sessions
    ensures ServerAt(limits, run, i).sessions[key] ==> ServerAt(limits, run, j).sessions[key]
    decreases j
  {
    if i < j {
      assert forall k {:trigger run[k]} :: i <= k < j - 1 ==> !EndsSession(ServerAt(limits, run, k), run[k], key);
      RegistrationStays(limits, run, i, j - 1, key);
      assert !EndsSession(ServerAt(limits, run, j - 1), run[j - 1], key);
      OtherStepKeepsSession(ServerAt(limits, run, j - 1), run[j - 1], key);
    }
  }

  /**
   An open that a mailbox accepts marks its session, if it is still registered, and the
   session stays registered and marked until it is ended; that its caller ends well does
   not end it.
   */
  lemma AcceptedSessionStays(limits: Limits, run: Run, i: nat, j: nat, c: nat, contended: bool)
    requires i < j <= |run| && run[i] == Dispatch(c, contended) && Enabled(ServerAt(limits, run, i), run[i])
    requires var sv := ServerAt(limits, run, i);
             && sv.callers[c].Opening? && sv.callers[c].key in sv.sessions
             && c in ServerAt(limits, run, i + 1).callers && ServerAt(limits, run, i + 1).callers[c].Opening?
             && ServerAt(limits, run, i + 1).callers[c].stage.Awaiting?
             && Undisturbed(limits, run, i + 1, j, sv.callers[c].key)
    ensures var key := ServerAt(limits, run, i).callers[c].key;
            key in ServerAt(limits, run, j).sessions && ServerAt(limits, run, j).sessions[key]
  {
    var sv := ServerAt(limits, run, i);
    DispatchOutcome(sv, c, contended);
    assert ServerAt(limits, run, i + 1) == Next(sv, run[i]);
    DispatchFrame(sv, sv.callers[c].key.a, SessionOpened(sv.callers[c].key.sid), sv.callers[c].reserved, contended);
    RegistrationStays(limits, run, i + 1, j, sv.callers[c].key);
  }

  /** The last step of an open's caller leaves the session registered exactly as it was if the open ended well. */
  lemma OpenEndedWell(limits: Limits, run: Run, i: nat, c: nat)
    requires i < |run| && run[i] == Finish(c, true) && Enabled(ServerAt(limits, run, i), run[i])
    ensures ServerAt(limits, run, i + 1).sessions == ServerAt(limits, run, i).sessions
    ensures c !in ServerAt(limits, run, i + 1).callers
  {
    CallerOutcome(ServerAt(limits, run, i), run[i]);
    assert ServerAt(limits, run, i + 1) == Next(ServerAt(limits, run, i), run[i]);
  }

  /** And not registered at all if the open was refused, or accepted and then failed. */
  lemma OpenEndedBadly(limits: Limits, run: Run, i: nat, c: nat)
    requires i < |run| && (run[i] == Finish(c, false) || run[i] == Unregister(c))
    requires Enabled(ServerAt(limits, run, i), run[i])
    ensures ServerAt(limits, run, i).callers[c].key !in ServerAt(limits, run, i + 1).sessions
    ensures c !in ServerAt(limits, run, i + 1).callers
    ensures forall key :: key in ServerAt(limits, run, i).sessions && key != ServerAt(limits, run, i).callers[c].key ==>
                            key in ServerAt(limits, run, i + 1).sessions
  {
    CallerOutcome(ServerAt(limits, run, i), run[i]);
    assert ServerAt(limits, run, i + 1) == Next(ServerAt(limits, run, i), run[i]);
  }
}
