# CoActor, verified

CoActor is a distributed actor runtime. A server holds a time-bounded Node Lease in a
Coordination Store and fences itself when it can no longer prove that it holds it. Which
server runs an Actor is decided by a versioned owner record per Actor address, changed only
by compare-exchange. Inside a server, routes, Actor tasks, bounded mailboxes, capacity
permits and sessions are kept consistent by a few short critical sections. Clients resolve
the Owner of an address themselves, place unowned Actors by power of two choices, and share
a bounded pool of connections.

This project models these three parts and proves what they promise, for every run, every
interleaving and every input. `dafny verify dfyconfig.toml` checks all of it.

## How it is organised

**Cluster authority** (state machines over the store, the processes and the network)

- `Coordination.dfy`: identities, conditional writes (`If-Match` and `If-None-Match`,
  sections 13.1.1 and 13.1.2 of RFC 9110). A revision is the content itself, so nothing relies on a
  version token being unique per write.
- `NodeLease.dfy`, `NodeLeaseProofs.dfy`: acquisition, renewal, read-back, fencing, release.
- `ActorOwnership.dfy`, `ActorOwnershipProofs.dfy`: resolve, claim and release, one step per
  store operation or await point. A write that was sent may land at any later moment, at most
  once, whatever its sender has concluded meanwhile.
- `Cluster.dfy`: runs, the hypotheses on the environment, and the safety theorems, each with
  the hypotheses it uses.
- `LateActions.dfy`: the same with the registry check of an Action made before its dispatch.
- `ClusterHistory.dfy`: what runs say about the owner record, with no hypothesis on clocks.
- `LeaseOutcomes.dfy`, `OwnershipOutcomes.dfy`: what each step leads to, stated in terms of
  what it finds; a resolution is bounded; an undisturbed start comes into service.
- `Failover.dfy`: a silent owner is judged expired within its ttl and the skew of its last
  write, and the next server to resolve an address of its serves it.
- `Necessity.dfy`: for each hypothesis, a run in which only it fails and two servers serve
  one address.
- `NodeAuthority.dfy`: the local authority object, the read-back loop and the renewal loop
  in their imperative form, proved to be runs of the lease protocol's own events.

**One server**

- `Runtime.dfy`: one step per critical section or await point.
- `RuntimeProofs.dfy`, `RuntimeRuns.dfy`, `RuntimeOrder.dfy`: invariants and theorems over runs.
- `RuntimeOutcomes.dfy`, `RuntimeSessions.dfy`, `RuntimeLifecycle.dfy`: what each critical
  section leads to, bounded mailboxes, how long a session stays registered, and that every
  path of an Actor task ends with its route gone and its permit free.
- `ServerInner.dfy`: the same critical sections as methods on fields changed in place,
  each tied to the steps it performs.
- `LocalView.dfy`: the runtime's steps as the local events of the cluster model.
- `SessionRegistry.dfy`: the nested session map, as a refinement of a flat one.

**The client**

- `ClientOpen.dfy`, `ClientOpenProofs.dfy`: the retry loop of `Client::open` and its termination.
- `ClientObservations.dfy`: what the contract of `open` means in terms of what was observed;
  its result is determined by that.
- `Placement.dfy`: power-of-two-choices selection and its in-flight accounts, over exact rationals.
- `ConnectionPool.dfy`: pools, bindings, and the loss of a connection.

## The hypotheses of single-server safety

They are predicates over runs, one per fact that the code takes from its environment:

- H1 `ClocksWithin`: wall clocks have the rate of time and differ by a bounded skew
  (docs/adr/0002-distributed-availability-failover.md:11). Safety needs skew 0 at millisecond
  granularity; what is proved of leases alone holds for any skew, under H1 only.
- H2 `PromptTimeouts`: a renewal result is acted on strictly before the deadline it extends.
- H3 `ReadsTestAsServed`: a directory read tests expiry at the instant the object is served.
- H4 `NoLateRelease`: a release that nobody waits for any more does not land while its
  session still holds its lease. Late claims are allowed.
- H5 `TakeoversAuthorized`: a session that is past its deadline, or has released its lease,
  does not start a same-node claim. `resolve` consults neither the authority nor the status.

That an Action never creates a route at the wrong server is not assumed but proved: Actions
are dispatched only for registered sessions (coactor/src/runtime/core.rs:233-236), an open is
answered before the Actions behind it on the same connection are looked at
(coactor/src/cluster/node.rs:129), and passivation begins only without live sessions. The
cluster model treats a local dispatch as one step; `LocalView` shows that every step of the
lock-granular runtime is one of its local events. In `LateActions` the registry check of an
Action and its dispatch are separate steps; safety then needs one fact about timing, that an
Action which finds no route finds its session still registered.

## Where the code does not keep a promise

- Without any one of H1 to H5 two servers can serve one address at once (module `Necessity`).
  In H5 it is not enough to speak of deadlines: a session that shut down gracefully and released
  its lease, with its deadline still ahead, can claim the record of its restarted node
  (`Necessity.UnreleasedNeeded`).
- An Action can pass the registry check and be dispatched only after its Actor has
  failed, been reopened, passivated and released, and another server owns the address; it then
  makes a second route (`LateActions.InTimeNeeded`).
- At the last 64-bit epoch a claim followed by its release restores the same owner record
  (`ClusterHistory.SaturatedEpochRepeats`); below it, contents never repeat.
- Serial execution per address holds only while the server is running: a dispatch admitted
  before a shutdown replaces the route of an Actor that is still draining
  (`RuntimeOrder.ShutdownBreaksSerialExecution`, `RuntimeOrder.TwoGenerationsAtOnce`).
- A connection lost between binding a session and announcing its SessionOpen costs the
  session its receiver although the open goes on elsewhere; it keeps the receiver exactly if
  the open was announced first (`ConnectionPool.LostBeforeAnnouncing`,
  `ConnectionPool.KeepsReceiverIffAnnounced`).
- The check of the attempt budget before a send (coactor/src/client/mod.rs:319-325) never
  fires when the budget is positive, which the builder enforces.

## Model

| member | source | states |
|---|---|---|
| Cluster.SingleServer | coactor/src/runtime/core.rs:76-142 | At every instant of every run within H1 to H5, at most one session passes the admission checks while it has an Active route for an address, across claims, takeovers, restarts, releases, Actions, lost responses and shutdowns |
| Cluster.ServerIsRecordedOwner | coactor/src/cluster/routing.rs:61-217 | A session that serves an address is exactly the node and session that the stored owner record names |
| Cluster.ClusterInvAlways | coactor/src/cluster/routing.rs:61-270 | Every state of every such run satisfies the lease and ownership invariants |
| Cluster.ClusterStepKeepsInv | coactor/src/cluster/routing.rs:61-270 | Every lease or ownership step keeps them |
| Cluster.HolderDominates | coactor/src/cluster/authority.rs:346-378 | With exact clocks and nothing else assumed: while a session is valid and has not released, the stored lease of its node is its own and expires no earlier than its local deadline |
| Cluster.SecureHolderIsNamed | coactor/src/cluster/s3.rs:298-318 | For any skew e and tick rate, however late renewals are acted on: a holder with at least e + 1 ms + (ttl mod 1 ms) left is the one its node's stored lease names, at every instant of every run |
| Cluster.ExpiryJudgedWithinBound | coactor/src/cluster/s3.rs:133-154 | With skew e and sub-millisecond time, a reader that judges the lease expired does so less than e + 1 ms + (ttl mod 1 ms) before the holder's deadline, at every instant of every run |
| Cluster.LeaseInvAlways | coactor/src/cluster/node.rs:168-252 | Both lease invariants hold in every state for every tick rate and skew, under H1 only |
| Cluster.LapseIsPermanent | coactor/src/cluster/node.rs:168-252 | With prompt renewals, once a session is not valid it is never valid again, and from then on gains no route |
| Cluster.FencingIsPermanent | coactor/src/cluster/node.rs:53-57 | With no hypothesis, once the flag is cleared it stays cleared, and from then on no route is gained |
| Cluster.LapsedGainsNoRoute | coactor/src/runtime/core.rs:76-88 | No single step gives a lapsed session a route |
| Cluster.LateWriteDisplacesNobody | coactor/src/cluster/routing.rs:124-168 | Under H1, H2, H3 and H5, late releases allowed: a write that lands arbitrarily late displaces only a lapsed owner, an absent or unowned record, or the writer's own record under release |
| Failover.StoredExpires | coactor/src/cluster/s3.rs:150-154 | Along every run, for any skew and tick rate, a stored lease was sent by its session at some earlier instant and expires no later than that session's ttl and the skew after it |
| Failover.SilentOwnerExpires | coactor/src/cluster/s3.rs:133-135 | An owner that has written no lease for its ttl and the skew is judged expired by every reader, whatever writes of it are still in the network |
| Failover.SilentOwnerIsReplaced | docs/adr/0002-distributed-availability-failover.md:13 | At any instant of any run at which the recorded owner has been silent that long, a ready server of another node takes the address over at the next epoch in one undisturbed resolution and serves it, also when the answer to its claim is lost |
| Failover.FreeAddressIsServed | coactor/src/cluster/routing.rs:68-168 | The same for an absent or unowned record, and for one that another session of the same node left behind |
| Cluster.ClaimInvAlways | coactor/src/cluster/routing.rs:61-217 | In every state of such a run every claim in the network is conditional on an owner that has lapsed for good, or on none |
| LateActions.SingleServerCheckedEarly | coactor/src/runtime/core.rs:226-246 | Single-server safety with the registry check of an Action and its dispatch as separate steps, if an Action that finds no route finds its session still registered |
| LateActions.InTimeNeeded | coactor/src/runtime/core.rs:226-246 | Without that, within H1 to H5, an Action checked before its Actor failed makes a second route after another server has claimed the address |
| NodeLeaseProofs.ExpiryDominates | coactor/src/cluster/s3.rs:143-154 | The written expiry covers a deadline counted from no later than the write, up to the rounding of both; Failover.StoredExpires bounds it from above |
| NodeLeaseProofs.LeaseStepKeepsInv | coactor/src/cluster/node.rs:186-229 | Every acquisition, renewal, read-back, landing, fencing and release step keeps the lease invariant |
| NodeLeaseProofs.LeaseStepKeepsNamed | coactor/src/cluster/s3.rs:298-340 | For any skew, tick rate and delay of renewals every step leaves each holder, acquirer and renewer whose deadline is secure named in the store |
| LeaseOutcomes.UndisturbedStartServes | coactor/src/cluster/authority.rs:346-378 | A server that starts undisturbed on a node whose lease is absent or expired comes into service, also when the answer to its write is lost and read back |
| LeaseOutcomes.AcquirePutOutcome | coactor/src/cluster/s3.rs:298-310 | An acquisition is given up for an unexpired lease and otherwise conditional on what was fetched |
| LeaseOutcomes.AcquireConfirmOutcome | coactor/src/cluster/authority.rs:410-430 | A read-back of an acquisition serves in time exactly for its own unexpired lease; there are three |
| LeaseOutcomes.RenewStartOutcome | coactor/src/cluster/s3.rs:311-318 | A renewal is conditional on the revision last adopted and carries the next generation |
| LeaseOutcomes.RenewConfirmOutcome | coactor/src/cluster/authority.rs:410-430 | A read-back of a renewal adopts exactly the unexpired lease of the session's latest generation |
| LeaseOutcomes.SessionOutcome | coactor/src/cluster/node.rs:206-249 | What each answer to a renewal, a lapse, a fence, a shutdown and a release do to the session, and to nothing else |
| LeaseOutcomes.LeaseLandingOutcome | coactor/src/cluster/s3.rs:143-174 | A lease write is applied exactly if its precondition holds, a release exactly on its own revision |
| NodeLeaseProofs.LandSparesHolder | coactor/src/cluster/s3.rs:298-318 | A lease write that takes effect never evicts a session whose deadline is secure |
| NodeLeaseProofs.LapsePersists | coactor/src/cluster/node.rs:199-252 | No path of the renewal loop revives a lapsed session or changes its node |
| NodeLeaseProofs.OneHolderPerNode | coactor/src/cluster/s3.rs:298-310 | Two sessions of one node never hold its lease at once |
| NodeLeaseProofs.UnseenIsDead | coactor/src/cluster/s3.rs:102-141 | A directory read that does not show a session proves that it has lapsed |
| NodeLeaseProofs.ExpiredReadIsLate | coactor/src/cluster/s3.rs:133-135 | The real bound behind the run theorem, for any state |
| ActorOwnershipProofs.OwnerStepKeepsInv | coactor/src/cluster/routing.rs:61-270 | Every step of resolve, claim, release, dispatch, Actions and deactivation keeps the ownership invariant, with no assumption about Actions |
| ActorOwnershipProofs.ClaimStepKeepsInv | coactor/src/cluster/routing.rs:61-217 | Every step keeps what is said of claims, with no assumption about releases |
| ActorOwnershipProofs.LapseKeepsOwnerInv | coactor/src/cluster/node.rs:39-58 | The ownership invariant survives every lapse of the leases underneath |
| ActorOwnershipProofs.LandingSparesHolders | coactor/src/cluster/s3.rs:355-380 | A conditional owner write never unseats a session that holds its lease, other than by its own release |
| ActorOwnershipProofs.ClaimAppliedOk | coactor/src/cluster/routing.rs:133-138 | A claim reported as applied makes the session the recorded Owner if it still holds its lease |
| ActorOwnershipProofs.ClaimReadBackOk | coactor/src/cluster/routing.rs:143-163 | A read-back that finds the claim makes Local sound |
| OwnershipOutcomes.ReadBackOutcome | coactor/src/cluster/routing.rs:145-167 | A read-back that finds the claim is answered by Local, in every round, for claims and takeovers; another owner's record starts the next of three rounds; an absent or unowned record or a failed read is read again, three times in all |
| OwnershipOutcomes.StandingClaimIsLocal | coactor/src/cluster/routing.rs:151-157 | At every instant of every run a claim that landed and still stands when it is read back ends in Local, ready to be dispatched |
| OwnershipOutcomes.ResolveIsBounded | coactor/src/cluster/routing.rs:68-171 | In every run a resolution takes at most 21 steps of its own: three rounds of two reads, a decision, one write and three read-backs |
| OwnershipOutcomes.OwnerReadOutcome | coactor/src/cluster/routing.rs:69-119 | Which record is claimed under which condition and epoch, which is the answer, and which leads to a look at the owner's lease |
| OwnershipOutcomes.JudgingOutcome | coactor/src/cluster/routing.rs:95-123 | Remote exactly for an unexpired lease of the recorded session, otherwise a claim on the record as it was read |
| OwnershipOutcomes.ClaimAnswerOutcome | coactor/src/cluster/routing.rs:132-144 | Applied is Local, a conflict is one of three rounds or the end of a takeover, a lost answer is read back |
| OwnershipOutcomes.ReleaseReadOutcome | coactor/src/cluster/routing.rs:225-238 | A release is sent exactly for the session's own record and keeps its epoch |
| OwnershipOutcomes.ReleaseReadBackOutcome | coactor/src/cluster/routing.rs:245-265 | Any change of the record ends the release; unchanged, absent or unread it is read up to three times |
| OwnershipOutcomes.ReleaseOkWhen | coactor/src/cluster/routing.rs:243-269 | A release answers Ok exactly when its write is reported applied or the record is read back unowned at the same epoch |
| OwnershipOutcomes.LandingOutcome | coactor/src/cluster/s3.rs:355-380 | A write is applied exactly if its precondition holds |
| OwnershipOutcomes.DispatchOutcome | coactor/src/runtime/core.rs:76-142 | A Local answer that is dispatched leaves an Active route and a live session, unless it is not admitted or its Actor is deactivating |
| ActorOwnershipProofs.JudgingIsCallStep | coactor/src/cluster/routing.rs:95-131 | A takeover of another node's record starts only when the recorded session has lapsed |
| ActorOwnershipProofs.OneHoldingServer | coactor/src/cluster/routing.rs:45-59 | Two lease holders never both have an Active route for one address |
| ClusterHistory.ClaimRaisesRank | coactor/src/cluster/routing.rs:115-119 | A claim outranks what it was derived from exactly if the epoch is below its maximum |
| ClusterHistory.SaturatedEpochRepeats | coactor/src/cluster/routing.rs:115-117 | At the maximum a claim and its release restore the record |
| ClusterHistory.RecordOnlyRises | coactor/src/cluster/authority.rs:284-295 | Between any two instants a record is unchanged or its rank 2*epoch + (1 if unowned) has risen |
| ClusterHistory.HistoryRises | coactor/src/cluster/s3.rs:355-380 | Along a run every applied write strictly raises the record's rank, and nothing else changes the record |
| ClusterHistory.MatchingRevisionMeansNoWrite | coactor/src/cluster/s3.rs:369-372 | Equal contents at two instants prove that no write intervened, although a revision is only a function of content |
| ClusterHistory.LocalWasRecorded | coactor/src/cluster/routing.rs:76-168 | resolve and claim answer Local only if the record named this session at some instant of that call |
| ClusterHistory.OnlyOwnReleaseClears | coactor/src/cluster/authority.rs:284-295 | Only the owner's own release clears its record, and it keeps the epoch |
| ClusterHistory.ReleaseOkMeansReleased | coactor/src/cluster/routing.rs:219-270 | release_local_owner returns Ok only if, during that call, the record went from this session's to unowned at the same epoch |
| ClusterHistory.ShapeAlways | coactor/src/cluster/routing.rs:219-270 | In every state of every run a call waits for its own write, and a release names its own session's record |
| Necessity.ClocksNeeded | docs/adr/0002-distributed-availability-failover.md:11 | With clocks one tick apart and all else granted, two servers serve one address long after the takeover |
| Necessity.PromptNeeded | coactor/src/cluster/node.rs:199-229 | Likewise when a renewal result is acted on late |
| Necessity.AsServedNeeded | coactor/src/cluster/s3.rs:107-135 | Likewise when expiry is tested on an object fetched before a renewal |
| Necessity.AwaitedNeeded | coactor/src/cluster/routing.rs:236-266 | Likewise when a release given up on lands later |
| Necessity.AuthorizedNeeded | coactor/src/cluster/routing.rs:84-94 | Likewise when a session past its deadline claims a record of its own node |
| Necessity.UnreleasedNeeded | coactor/src/cluster/routing.rs:84-94 | Likewise when no session past its deadline does so, but one that shut down and released its lease before its deadline |
| Necessity.BenignExceptMeans | docs/adr/0002-distributed-availability-failover.md:11 | In each of these runs the other hypotheses hold as the safety theorem states them |
| NodeAuthority.Authority.Fence | coactor/src/cluster/node.rs:53-57 | Fencing is final and signalled exactly once |
| NodeAuthority.Authority.Remaining | coactor/src/cluster/node.rs:45-49 | The time left up to the deadline, inclusive, and nothing after it |
| NodeAuthority.ConfirmNodeLease | coactor/src/cluster/authority.rs:410-430 | The first confirming read-back of at most three, none begun after the deadline; none exactly if they all fail or the deadline passes |
| NodeAuthority.RenewalLoop | coactor/src/cluster/node.rs:168-252 | The loop does to the session what its turns do, ends asking for release and valid, or fenced, and signals the fencing once |
| NodeAuthority.ReadBacksSettle | coactor/src/cluster/authority.rs:410-430 | The bounded read-back loop and the protocol's read-back steps agree on every outcome |
| NodeAuthority.TurnsAreSteps | coactor/src/cluster/node.rs:168-252 | All turns of the loop are a run of this session's own lease events, from RenewStart, RenewLapse or ReleaseLease to the last read-back, in any states of the cluster that bear the answers out |
| NodeAuthority.TurnIsSteps | coactor/src/cluster/node.rs:170-249 | One turn is such a run |
| NodeAuthority.ReadsAreSteps | coactor/src/cluster/authority.rs:416-428 | The read-back loop is the protocol's confirmation events, also when the deadline passes in between |
| RuntimeRuns.CapacityConserved | coactor/src/runtime/shutdown.rs:21-28 | At every step permits + routes + reservations in hand equal the limit; the published count is routes plus reservations, and pressure is reported exactly when they exhaust it |
| RuntimeProofs.StepConserves | coactor/src/cluster/routing.rs:120-168 | Every critical section conserves permits, over conflicts, replaced routes and failures |
| RuntimeProofs.DispatchConserves | coactor/src/runtime/core.rs:100-139 | A reservation taken into the route-table lock is bound to a route or handed back |
| RuntimeRuns.SerialExecution | coactor/src/runtime/core.rs:90-139 | While the server runs, no two generations of an address can both still run Actor methods |
| RuntimeRuns.FinishingSparesNewerRoutes | coactor/src/runtime/route.rs:34-42 | A finishing task removes no route of another generation |
| RuntimeRuns.PassivationLosesNothing | coactor/src/runtime/route.rs:44-59 | From begin_deactivation on the mailbox is empty, and until the route is removed, at every status of the server, the route is Deactivating and no registered session of the address has had its SessionOpened accepted |
| RuntimeLifecycle.IdleActorEnds | coactor/src/runtime/lifecycle.rs:152-215 | An idle Actor with no session of its own address passivates to its end, whatever other addresses have: route gone, permit free, nothing else changed |
| RuntimeLifecycle.LiveSessionKeepsActor | coactor/src/runtime/lifecycle.rs:152-155 | With a session of its address it does not begin to |
| RuntimeLifecycle.FailedActivationEnds | coactor/src/runtime/lifecycle.rs:55-75 | A failed activation ends the same way |
| RuntimeLifecycle.FailedMethodEnds | coactor/src/runtime/lifecycle.rs:218-236 | So does a method that fails |
| RuntimeLifecycle.DrainedActorEnds | coactor/src/runtime/lifecycle.rs:107-144 | And a drained Actor |
| RuntimeLifecycle.MailboxIsServed | coactor/src/runtime/lifecycle.rs:92-236 | An Actor whose methods succeed works through its whole mailbox and waits again |
| RuntimeOutcomes.TaskRouteOutcome | coactor/src/runtime/route.rs:34-59 | What each step of a task at the route table does: only its own route goes or changes, and its permit is freed |
| RuntimeOutcomes.TaskOutcome | coactor/src/runtime/lifecycle.rs:50-246 | What every other step of a task does to its phase, its mailbox and its receiver |
| LocalView.PassivationIsEnabled | coactor/src/runtime/route.rs:44-63 | A passivation that begins is the cluster model's event: its seat is Active and not live, and the two models still agree afterwards |
| LocalView.RunsMakeLocalMoves | coactor/src/runtime/core.rs:69-142 | In every run of a server each step is, at every address, one of the cluster's local events: sessions end, a message is accepted, a passivation begins without a live session, or the route goes |
| RuntimeRuns.DeactivatingMailboxEmpty | coactor/src/runtime/route.rs:44-59 | At every instant a Deactivating route's mailbox is empty |
| RuntimeRuns.DeactivatingOnlyEnds | coactor/src/runtime/core.rs:89-116 | A Deactivating route is only ever removed |
| RuntimeRuns.DeactivatingUntilRemoved | coactor/src/runtime/lifecycle.rs:152-215 | It stays as it is, its mailbox empty, until then |
| RuntimeRuns.RacingOpenIsTurnedAway | coactor/src/runtime/core.rs:201-212 | A session racing with a passivation is rejected with ActorDeactivating, its reservation returned and its registration removed |
| RuntimeRuns.ClosedAtMostAsOftenAsOpened | coactor/src/runtime/core.rs:172-186 | In every run SessionClosed messages of a session never exceed its successful registrations |
| RuntimeRuns.ServerInvAlways | coactor/src/runtime/core.rs:69-142 | Every state of every run satisfies the runtime's invariants |
| RuntimeProofs.StepKeepsTaskInv | coactor/src/runtime/lifecycle.rs:50-215 | Every step keeps the invariant of tasks and routes |
| RuntimeProofs.StepKeepsCloseInv | coactor/src/runtime/core.rs:172-186 | Every step keeps the accounts of registrations, closures and reports |
| RuntimeSessions.AcceptedSessionStays | coactor/src/runtime/core.rs:201-224 | In every run an accepted open marks its session, which stays registered and marked until a close, a termination or a failed caller of its ends it |
| RuntimeSessions.OpenEndedWell | coactor/src/runtime/core.rs:213-223 | An open that ends well leaves the registry as it is |
| RuntimeSessions.OpenEndedBadly | coactor/src/runtime/core.rs:209-222 | A session whose open was refused or failed is not registered right after its caller's last step, and no other session is touched |
| RuntimeOutcomes.CallerOutcome | coactor/src/runtime/core.rs:172-253 | What every other step of a caller does to its reservation, its registration and itself |
| RuntimeOutcomes.AdmissionOutcome | coactor/src/runtime/core.rs:76-88 | The checks at the head of a dispatch, each refusal with its error and the reservation returned |
| RuntimeOrder.HandledInOrder | coactor/src/runtime/lifecycle.rs:92-150 | In every run, what a mailbox accepted is what its Actor was handed, then what was given up when its task ended, then what is queued: nothing repeated or reordered, and nothing given up while a method of the Actor can still run |
| RuntimeOrder.ShutdownBreaksSerialExecution | coactor/src/runtime/core.rs:83-116 | A dispatch admitted before a shutdown starts a second generation beside the draining one |
| RuntimeOrder.TwoGenerationsAtOnce | coactor/src/runtime/core.rs:83-116 | A run from a fresh server that ends with two such generations |
| ServerInner.Inner.DispatchMessage | coactor/src/runtime/core.rs:69-142 | The method does what the admission step and the locked step do together, as RuntimeOutcomes states them |
| RuntimeOutcomes.OpenRouteOutcome | coactor/src/runtime/core.rs:90-99 | An Active route with an open mailbox accepts exactly if the mailbox has room; otherwise MailboxFull with tasks and routes unchanged; the reservation is returned either way |
| RuntimeOutcomes.SpawningOutcome | coactor/src/runtime/core.rs:100-141 | Without a route, or with a closed one, the next generation is spawned if a reservation or a permit is there, the closed route's own included; otherwise RuntimeAtCapacity |
| RuntimeOutcomes.MailboxesBounded | coactor/src/runtime/lifecycle.rs:38-38 | In every run every mailbox holds at most its capacity |
| RuntimeOutcomes.FullMailboxRefuses | coactor/src/runtime/core.rs:93-98 | A full mailbox turns an open or an Action away and nothing else changes |
| RuntimeOutcomes.DispatchOutcome | coactor/src/runtime/core.rs:196-212 | What a dispatch means to its caller, and which session it marks as accepted |
| ServerInner.AdmitThenDispatch | coactor/src/runtime/core.rs:69-142 | An open's two steps in a row are one such call |
| ServerInner.LateDispatchChangesNothing | coactor/src/runtime/core.rs:76-88 | A dispatch without authority or after the status changed creates nothing and returns its reservation |
| ServerInner.Inner.DispatchIfActive | coactor/src/runtime/core.rs:145-163 | Delivers exactly to an Active route with an open mailbox that has room, and never spawns |
| ServerInner.SendClosedIsDelivery | coactor/src/runtime/core.rs:172-186 | The step that reports a closed session is such a delivery, counted exactly if it succeeds |
| ServerInner.Inner.RemoveRoute | coactor/src/runtime/route.rs:34-42 | Removes the route, and frees its permit, only of this generation |
| ServerInner.Inner.BeginDeactivation | coactor/src/runtime/route.rs:44-59 | Succeeds exactly if the route is this task's and its mailbox is empty |
| ServerInner.Inner.DrainMailbox | coactor/src/runtime/lifecycle.rs:97-106 | Closes the mailbox, then executes its messages in order up to and including the first failure; the same as the shutdown and drain steps in a row |
| ServerInner.ShutdownIsSteps | coactor/src/runtime/lifecycle.rs:95-106 | What those steps in a row leave of the mailbox and the task |
| ServerInner.Inner.FailPending | coactor/src/runtime/lifecycle.rs:320-326 | Fails exactly the pending opens, in order, and empties the mailbox as the step does |
| ServerInner.PendingOpensConcat | coactor/src/runtime/lifecycle.rs:320-326 | The opens are those of each part of the mailbox in turn |
| ServerInner.Inner.UpdateCapacitySample | coactor/src/runtime/shutdown.rs:21-28 | The published sample, equal to the routes when no reservation is in hand |
| ServerInner.Inner.BeginShutdown | coactor/src/runtime/shutdown.rs:36-54 | Only the first caller begins, and it sees every route of that instant |
| ServerInner.Inner.ClearRoutes | coactor/src/runtime/shutdown.rs:76 | Clearing the table frees exactly its permits |
| SessionRegistry.Registry.RegisterActor | coactor/src/runtime/session.rs:49-67 | Adds one binding to the flat map, or refuses a duplicate and keeps the first |
| SessionRegistry.Registry.UnregisterActor | coactor/src/runtime/session.rs:69-82 | Removes exactly that binding and never leaves an empty inner map |
| SessionRegistry.Registry.SessionCount | coactor/src/runtime/session.rs:85-90 | The number of the address's bindings in the flat map |
| SessionRegistry.Registry.ByActorSnapshot | coactor/src/runtime/session.rs:92-98 | The address's sessions in the flat map |
| SessionRegistry.Registry.BySender | coactor/src/runtime/session.rs:100-116 | Exactly the bindings to this sender |
| SessionRegistry.Registry.SinkOf | coactor/src/runtime/session.rs:122-127 | The flat map's entry |
| SessionRegistry.Registry.Terminate | coactor/src/runtime/session.rs:168-192 | Removes the binding and notifies its sink, if there was one |
| SessionRegistry.Registry.TerminateAll | coactor/src/runtime/session.rs:195-206 | Ends every session of the address, notifying each once, and no other |
| SessionRegistry.Registry.CloseSender | coactor/src/runtime/core.rs:272-280 | Closes exactly the sessions bound to a lost connection, each reported once |
| ClientOpen.Open | coactor/src/client/mod.rs:260-391 | At most max SessionOpens, each to the live Owner just resolved (never the one last found unreachable) or, on an unowned address, to the first proposed endpoint that passes every hard filter and was never excluded; every failed selection is rolled back once and a success never; what each outcome means; a failed open leaves the session bound nowhere. ClientObservations says what this means in terms of what was read |
| ClientObservations.TargetsWereSeen | coactor/src/client/mod.rs:439-545 | Every endpoint addressed was shown by its pass: the recorded owner's node with that very session, protocol 2 and a non-blank endpoint; or, exactly when nobody owns the address or the owner's node has left, a listed node that is reachable, unpressured, not draining and below its limit |
| ClientObservations.LiveMeans | coactor/src/client/mod.rs:465-477 | An Owner is live exactly if the record names a session that its reachable node shows |
| ClientObservations.UnownedMeans | coactor/src/client/mod.rs:444-467 | An address is placed exactly if its record is absent or ownerless, or its owner's node is absent or another session's |
| ClientObservations.UnresolvedMeans | coactor/src/client/mod.rs:444-472 | Each failed read, and an owner's node that cannot be talked to, has its own error |
| ClientObservations.NoTargetWasSeen | coactor/src/client/mod.rs:273-302 | Why a call ends although its last pass addressed nobody |
| ClientObservations.OfferedMeans | coactor/src/client/mod.rs:500-508 | Exactly the listed nodes that pass the hard filter are on offer |
| ClientObservations.ErrorsMean | coactor/src/actor.rs:137-149 | The call's error for each error of a server or a read |
| ClientObservations.OpenIsDetermined | coactor/src/client/mod.rs:269-391 | Two calls that observe the same address the same endpoints, send in the same passes and end with the same outcome |
| ClientOpen.OnePass | coactor/src/client/mod.rs:273-382 | One pass of the loop ends the call with that guarantee or re-establishes what holds between passes |
| ClientOpen.Attempt | coactor/src/client/mod.rs:304-382 | When a pass repeats, excludes, records or gives up, and what it spends, binds and rolls back |
| ClientOpen.TargetFound | coactor/src/client/mod.rs:274-302 | A target found by the head of the loop is justified by what the passes so far observed |
| ClientOpen.EndsUntargeted | coactor/src/client/mod.rs:274-302 | A pass without a target ends the call with an outcome that its observations explain |
| ClientOpen.FirstIn | coactor/src/client/mod.rs:540-544 | The first proposed endpoint that is valid, if any is |
| ClientOpenProofs.OpenTerminates | coactor/src/client/mod.rs:269-384 | With E the eligible endpoints ever listed and K the ownership changes during the call, at most max + card(E) + K passes lead to another one |
| ClientOpenProofs.PassesAddUp | coactor/src/client/mod.rs:343-382 | Each continuing pass spends an attempt, excludes a new endpoint, or records a live Owner |
| ClientOpenProofs.RecordingsNeedChanges | coactor/src/client/mod.rs:279-290 | Recorded live Owners are bounded by the ownership changes observed |
| ClientOpenProofs.ExcludedWereListed | coactor/src/client/mod.rs:518-545 | Only listed, eligible endpoints are ever excluded |
| Placement.P2cPlacement.Pick | coactor/src/cluster/placement.rs:85-121 | The better of the two samples comes first, and only its account is raised, after expired entries are dropped |
| Placement.RatioMeans | coactor/src/cluster/placement.rs:74-83 | The ratio is active Actors plus invisible placements per Actor the server may hold, at least one |
| Placement.PickedMeans | coactor/src/cluster/placement.rs:93-116 | A selection drops exactly the entries three seconds old or older, counts one more for its endpoint and dates it now |
| Placement.RankedMeans | coactor/src/cluster/placement.rs:99-107 | The second sample overtakes the first only with a strictly smaller ratio |
| Placement.P2cPlacement.OnPlacementFailed | coactor/src/cluster/placement.rs:129-134 | One placement fewer is predicted for the endpoint, never fewer than none; entries, their ages and all other endpoints are unchanged |
| Placement.RollbackUndoesPick | coactor/src/cluster/placement.rs:108-134 | A rollback right after a selection restores every endpoint's count, expired entries aside |
| ClientOpenProofs.PickIsTheTarget | coactor/src/client/mod.rs:536-544 | The endpoint whose account the default strategy raises is the one that open addresses and rolls back |
| Placement.Balanced | coactor/src/cluster/placement.rs:74-121 | Over any number of selections between two candidates the gap of predicted ratios never exceeds max(initial gap, 1/min capacity) |
| Placement.PickIsSelect | coactor/src/cluster/placement.rs:85-121 | While nothing expires, a pick between two candidates is one such selection |
| Placement.SelectKeepsGap | coactor/src/cluster/placement.rs:94-116 | One selection keeps that bound |
| Placement.AccountsAddUp | coactor/src/cluster/placement.rs:85-135 | An endpoint's count is at most its selections less its rollbacks, with equality while nothing has expired |
| Placement.InterleavedPaired | coactor/src/client/mod.rs:292-349 | If every call rolls back only its own selections, so do any number of interleaved calls |
| Placement.SharedAccountsAddUp | coactor/src/client/mod.rs:292-349 | The count's bound under any interleaving of calls that share the strategy |
| ConnectionPool.ClientConnections.BeginAcquire | coactor/src/client/mod.rs:555-566 | Takes the pool's lock and drops the connections marked closed |
| ConnectionPool.ClientConnections.FinishAcquire | coactor/src/client/mod.rs:567-590 | Connects below the limit or shares the first least loaded connection; at most max per endpoint, a session on at most one connection, counters equal to their sets |
| ConnectionPool.ClientConnections.LeastBound | coactor/src/client/mod.rs:583-587 | The first of the least loaded connections |
| ConnectionPool.ClientConnections.Unbind | coactor/src/client/mod.rs:166-170 | Removes the session and its count |
| ConnectionPool.ClientConnections.Evict | coactor/src/client/mod.rs:603-616 | A lost connection leaves its pool |
| ConnectionPool.ClientConnections.Drain | coactor/src/client/mod.rs:617-638 | A lost connection ends exactly the sessions bound to it: pending opens on it fail, the others lose their receiver; and it never holds a session again |
| ConnectionPool.LostBeforeAnnouncing | coactor/src/client/mod.rs:593-642 | A connection lost before the open is announced costs a registered session its receiver, and the send is then refused, so the open goes on |
| ConnectionPool.KeepsReceiverIffAnnounced | coactor/src/client/mod.rs:617-663 | A session bound to a lost connection keeps its receiver exactly if its open was announced on that connection |
| ConnectionPool.FullPoolStaysBalanced | coactor/src/client/mod.rs:583-590 | Successive opens on a full pool never widen the spread of loads beyond what it was, or 1 |
| ConnectionPool.FreshPoolStaysBalanced | coactor/src/client/mod.rs:567-590 | From an empty pool loads stay within 1 of each other, whatever connects fail |
| ConnectionPool.FreshPoolSharesEvenly | coactor/src/client/mod.rs:567-590 | After n opens every connection carries the even share of n, rounded down or up |
| ConnectionPool.OpenedAddsOne | coactor/src/client/mod.rs:160-164 | An acquisition that succeeds adds exactly one session to the pool |

## Left out

- gRPC and in-memory transports, envelope encoding, protocol versions on the wire: a connection is an identity, and whether a send is accepted is an input.
- JSON bodies, object keys, listing pagination, the directory cache and the placement cache: a listing is what a pass was given, cached or fresh.
- Builders, configuration validation, address parsing, error enums and wire codes, beyond the mapping of open errors.
- Macros, type erasure, panic catching, tracing, examples: user methods are steps that succeed or fail.
- Randomness and floating point: sampled candidates and jitter are inputs, ratios are exact, and the resampling loop of `pick` is taken to end.
- Dropping `open`, `serve` or Actor futures midway: no guarantee is made for them, and the in-flight accounts are only about calls that finish.
- `lease_generation` saturates at 64 bits in the source and is unbounded here; the owner epoch saturates as in the source. Expiry times are unbounded too.
- The cluster model lets failed and lost responses be reported at any time, whether or not the write landed; it covers more runs than the store allows.
- A resolution that does not answer Local just ends: whether its caller is told NotOwner or OwnershipUnavailable is not kept apart.
- The cluster model keeps one call per seat, which is what the per-address resolution lock enforces, and treats a local dispatch as one step; capacity reservations are in the runtime model only.
- Exclusivity of handler code that is still running past the deadline: the code guards admission and aborts tasks afterwards, so admission is what is proved exclusive.
- That no route appears after the snapshot of a shutdown or fence: the status test and the route-table lock are separate steps, so it is false; what holds is said of dispatches that begin later.
- `dispatch_inbound`: its branches appear as the steps it takes (open, Action, close). The runtime model lets Actions and closes of any registered session arrive at any time, also from another connection, so it admits more runs; the cluster model keeps, per seat, whether an accepted session is registered.
- Whether an accepted open finally succeeds: the runtime model lets the caller's wait end either way.
- Cluster.SingleServer: for skew 0 only; with any skew `Necessity.ClocksNeeded` shows it false, and what holds in general is Cluster.ExpiryJudgedWithinBound and Cluster.SecureHolderIsNamed.
- ConnectionPool.ClientConnections.FinishAcquire: asks that the session is not bound yet, which `open` establishes by unbinding before it tries again; closing the whole client is not modelled.
- Placement.Balanced: for two candidates, without expiry or rollback in between.
