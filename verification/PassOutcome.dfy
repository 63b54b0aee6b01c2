/**
 How far a pass gets and what it reports, in terms of what it meets: the conditions for each milestone and for each kind
 of result, on the fields of the scenario and without the table of stages.
 */
module PassOutcome {
  import opened Prelude
  import opened Drain
  import opened ReconcilePass

  // ----- Milestones -----

  /** A live cluster with its finalizer, its first status and a valid specification. */
  predicate Admitted(s: Scenario) {
    && s.read.Present? && !s.deleting && s.hasFinalizer && !(s.unstarted && !s.creatingSaved)
    && !s.mixed && !(s.indexerSpec && !s.poolsValid)
  }

  /** The retry of a failed drain is overdue and somebody is there to handle it. */
  predicate Overdue(r: Recovery, handled: bool) { handled && r.status.Some? && RetryDue(r.status.value, r.first) }

  /** It is still ahead. */
  predicate Ahead(r: Recovery) { r.status.Some? && RetryWaits(r.status.value, r.second) }

  predicate Idles(r: Recovery, handled: bool) { !Overdue(r, handled) && !Ahead(r) }

  /** No failed drain is to be retried. */
  predicate Undisturbed(s: Scenario) {
    Admitted(s) && Idles(s.indexerRecovery, s.retryManager) && Idles(s.managerRecovery, s.retryManager)
  }

  predicate Resolved(s: Scenario) {
    Undisturbed(s) && s.managerRef != Some(false) && s.indexerRef != Some(false) && s.dashboardRef != Some(false)
  }

  /** References resolved, certificates in place, no dry run. */
  predicate Prepared(s: Scenario) { Resolved(s) && s.certificates && !s.dryRun }

  /** A drain under way holds the indexer back. */
  predicate IndexerHeld(s: Scenario) {
    (s.indexerSpec || s.indexerRef.Some?) && DrainUnderWay(s.indexerRecovery, s.indexerDrain)
  }

  predicate ManagerHeld(s: Scenario) {
    (s.managerSpec || s.managerRef.Some?) && s.workerReconciler && DrainUnderWay(s.managerRecovery, s.workerDrain)
  }

  predicate IndexerDone(s: Scenario) { Prepared(s) && !IndexerHeld(s) && s.indexerApplied }

  predicate ManagerDone(s: Scenario) { IndexerDone(s) && !ManagerHeld(s) && s.managerApplied }

  /** Indexer, manager and dashboard have been applied. */
  predicate ComponentsDone(s: Scenario) { ManagerDone(s) && s.dashboardApplied }

  predicate Rotated(s: Scenario) { ComponentsDone(s) && s.apiRotated && s.authdRotated }

  /** A wanted resource whose reconciler is there and fails. */
  predicate Failing(o: Optional) { o == Optional(true, true, false) }

  /** Everything but the final status write has gone through. */
  predicate Completed(s: Scenario) { Rotated(s) && !Failing(s.routes) && !Failing(s.ingress) && !Failing(s.policies) }

  // ----- The stages, one after the other -----

  predicate GetsTo(k: nat, s: Scenario) { k == 0 || (GetsTo(k - 1, s) && Passes(Nth(k - 1), s)) }

  lemma {:induction false} GetsToIff(k: nat, s: Scenario)
    ensures GetsTo(k, s) <==> Reaches(k, s)
  {
    hide Passes, Nth;
    if k > 0 { GetsToIff(k - 1, s); }
  }

  lemma EarlyRanks()
    ensures Rank(ReadCluster) == 0 && Rank(Deletion) == 1 && Rank(Finalizer) == 2 && Rank(Creating) == 3
    ensures Rank(Mode) == 4 && Rank(Pools) == 5 && Rank(CheckRollouts) == 6 && Rank(RetryIndexer) == 7
    ensures Rank(RetryManager) == 8
  {}

  lemma PreparationRanks()
    ensures Rank(ResolveManager) == 9 && Rank(ResolveIndexer) == 10 && Rank(ResolveDashboard) == 11
    ensures Rank(Certificates) == 12 && Rank(DryRun) == 13
  {}

  lemma BackendRanks()
    ensures Rank(DrainIndexer) == 14 && Rank(ApplyIndexer) == 15 && Rank(DrainManager) == 16 && Rank(ApplyManager) == 17
  {}

  lemma RotationRanks()
    ensures Rank(RotateLogs) == 18 && Rank(ApplyDashboard) == 19 && Rank(RotateApi) == 20 && Rank(RotateAuthd) == 21
  {}

  lemma ComponentRanks()
    ensures Rank(DrainIndexer) == 14 && Rank(ApplyIndexer) == 15 && Rank(DrainManager) == 16 && Rank(ApplyManager) == 17
    ensures Rank(RotateLogs) == 18 && Rank(ApplyDashboard) == 19 && Rank(RotateApi) == 20 && Rank(RotateAuthd) == 21
  {
    hide Rank, Nth;
    BackendRanks();
    RotationRanks();
  }

  lemma SurroundingRanks()
    ensures Rank(Monitor) == 22 && Rank(Route) == 23 && Rank(Expose) == 24 && Rank(Isolate) == 25
  {}

  lemma LastRanks()
    ensures Rank(RecordRollouts) == 26 && Rank(RestartIndexer) == 27
    ensures Rank(RestartManager) == 28 && Rank(WriteStatus) == 29
  {}

  lemma LateRanks()
    ensures Rank(Monitor) == 22 && Rank(Route) == 23 && Rank(Expose) == 24 && Rank(Isolate) == 25
    ensures Rank(RecordRollouts) == 26 && Rank(RestartIndexer) == 27
    ensures Rank(RestartManager) == 28 && Rank(WriteStatus) == 29
  {
    hide Rank, Nth;
    SurroundingRanks();
    LastRanks();
  }

  lemma Next(g: Stage, k: nat, s: Scenario)
    requires Rank(g) == k
    ensures GetsTo(k + 1, s) <==> GetsTo(k, s) && Passes(g, s)
  {
    assert Nth(k) == g;
    hide Passes, Nth, Rank;
  }

  lemma HappensIff(g: Stage, s: Scenario)
    ensures Happens(g, s) <==> Acts(g, s) && GetsTo(Rank(g), s)
  {
    GetsToIff(Rank(g), s);
    hide Acts, Passes;
    if Reaches(Rank(g), s) {
      forall h | Rank(h) < Rank(g) ensures Passes(h, s) { assert Passes(Nth(Rank(h)), s); }
    }
    if forall h :: Rank(h) < Rank(g) ==> Passes(h, s) {
      forall j: nat | j < Rank(g) ensures Passes(Nth(j), s) { RankOfNth(j); }
    }
    hide Rank, Nth;
  }

  lemma HappensAt(g: Stage, k: nat, s: Scenario)
    requires Rank(g) == k
    ensures Happens(g, s) <==> Acts(g, s) && GetsTo(k, s)
  {
    HappensIff(g, s);
  }

  lemma UpToAdmitted(s: Scenario)
    ensures GetsTo(1, s) <==> s.read.Present?
    ensures GetsTo(2, s) <==> s.read.Present? && !s.deleting
    ensures GetsTo(3, s) <==> s.read.Present? && !s.deleting && s.hasFinalizer
    ensures GetsTo(6, s) <==> Admitted(s)
    ensures GetsTo(7, s) <==> Admitted(s)
  {
    assert GetsTo(0, s);
    hide GetsTo, Nth, Rank, Due, StillWaits, VerdictOn, HasIndexer, HasManager, Blocks;
    EarlyRanks();
    Next(ReadCluster, 0, s);
    Next(Deletion, 1, s);
    Next(Finalizer, 2, s);
    Next(Creating, 3, s);
    Next(Mode, 4, s);
    Next(Pools, 5, s);
    Next(CheckRollouts, 6, s);
  }

  /** The retry logic of a pass is that of the drain protocol. */
  lemma RecoveryIs(r: Recovery)
    ensures Due(r) <==> r.status.Some? && RetryDue(r.status.value, r.first)
    ensures StillWaits(r) <==> Ahead(r)
    ensures ReconcilePass.Verified(r) == if r.status.None? then r
      else r.(status := Some(AfterRollbackCheck(r.status.value, r.rolledBack == Some(true))))
    ensures Ahead(r) ==>
      && RetryDelay(r) == r.status.value.nextRetryTime.value - r.second
      && r.status.value.phase in {Failed, RollingBack}
  {}

  lemma PassRetries(s: Scenario)
    ensures Passes(RetryIndexer, s) <==> Idles(s.indexerRecovery, s.retryManager)
    ensures Passes(RetryManager, s) <==> Idles(s.managerRecovery, s.retryManager)
  {
    RecoveryIs(s.indexerRecovery);
    RecoveryIs(s.managerRecovery);
    hide Due, StillWaits, RetryDue, RetryWaits;
  }

  lemma PassPreparation(s: Scenario)
    ensures Passes(ResolveManager, s) <==> s.managerRef != Some(false)
    ensures Passes(ResolveIndexer, s) <==> s.indexerRef != Some(false)
    ensures Passes(ResolveDashboard, s) <==> s.dashboardRef != Some(false)
    ensures Passes(Certificates, s) <==> s.certificates
    ensures Passes(DryRun, s) <==> !s.dryRun
  {}

  lemma PassDrains(s: Scenario)
    ensures Passes(DrainIndexer, s) <==> !IndexerHeld(s)
    ensures Passes(DrainManager, s) <==> !ManagerHeld(s)
  {
    WaitsIff(s.indexerRecovery, s.indexerDrain);
    WaitsIff(s.managerRecovery, s.workerDrain);
    hide VerdictOn, DrainUnderWay;
  }

  lemma PassComponents(s: Scenario)
    ensures Passes(ApplyIndexer, s) <==> s.indexerApplied
    ensures Passes(ApplyManager, s) <==> s.managerApplied
    ensures Passes(RotateLogs, s)
    ensures Passes(ApplyDashboard, s) <==> s.dashboardApplied
    ensures Passes(RotateApi, s) <==> s.apiRotated
    ensures Passes(RotateAuthd, s) <==> s.authdRotated
  {}

  lemma PassSurroundings(s: Scenario)
    ensures Passes(Monitor, s)
    ensures Passes(Route, s) <==> !Failing(s.routes)
    ensures Passes(Expose, s) <==> !Failing(s.ingress)
    ensures Passes(Isolate, s) <==> !Failing(s.policies)
  {}

  lemma PassEnd(s: Scenario)
    ensures Passes(RecordRollouts, s) && Passes(RestartIndexer, s) && Passes(RestartManager, s)
    ensures Passes(WriteStatus, s) <==> s.statusSaved
  {}

  lemma UpToPrepared(s: Scenario)
    ensures GetsTo(8, s) <==> Admitted(s) && Idles(s.indexerRecovery, s.retryManager)
    ensures GetsTo(9, s) <==> Undisturbed(s)
    ensures GetsTo(10, s) <==> Undisturbed(s) && s.managerRef != Some(false)
    ensures GetsTo(11, s) <==> Undisturbed(s) && s.managerRef != Some(false) && s.indexerRef != Some(false)
    ensures GetsTo(12, s) <==> Resolved(s)
    ensures GetsTo(13, s) <==> Resolved(s) && s.certificates
    ensures GetsTo(14, s) <==> Prepared(s)
  {
    hide GetsTo, Nth, Rank, Passes, Idles, Admitted;
    EarlyRanks();
    PreparationRanks();
    UpToAdmitted(s);
    PassRetries(s);
    PassPreparation(s);
    Next(RetryIndexer, 7, s);
    Next(RetryManager, 8, s);
    Next(ResolveManager, 9, s);
    Next(ResolveIndexer, 10, s);
    Next(ResolveDashboard, 11, s);
    Next(Certificates, 12, s);
    Next(DryRun, 13, s);
  }

  lemma UpToComponents(s: Scenario)
    ensures GetsTo(15, s) <==> Prepared(s) && !IndexerHeld(s)
    ensures GetsTo(16, s) <==> IndexerDone(s)
    ensures GetsTo(17, s) <==> IndexerDone(s) && !ManagerHeld(s)
    ensures GetsTo(18, s) <==> ManagerDone(s)
    ensures GetsTo(19, s) <==> ManagerDone(s)
    ensures GetsTo(20, s) <==> ComponentsDone(s)
  {
    hide GetsTo, Nth, Rank, Passes, IndexerHeld, ManagerHeld, Prepared;
    ComponentRanks();
    UpToPrepared(s);
    PassDrains(s);
    PassComponents(s);
    Next(DrainIndexer, 14, s);
    Next(ApplyIndexer, 15, s);
    Next(DrainManager, 16, s);
    Next(ApplyManager, 17, s);
    Next(RotateLogs, 18, s);
    Next(ApplyDashboard, 19, s);
  }

  lemma UpToCompleted(s: Scenario)
    ensures GetsTo(21, s) <==> ComponentsDone(s) && s.apiRotated
    ensures GetsTo(22, s) <==> Rotated(s)
    ensures GetsTo(23, s) <==> Rotated(s)
    ensures GetsTo(24, s) <==> Rotated(s) && !Failing(s.routes)
    ensures GetsTo(25, s) <==> Rotated(s) && !Failing(s.routes) && !Failing(s.ingress)
    ensures GetsTo(26, s) <==> Completed(s)
  {
    hide GetsTo, Nth, Rank, Passes, Failing, ComponentsDone;
    ComponentRanks();
    LateRanks();
    UpToComponents(s);
    PassComponents(s);
    PassSurroundings(s);
    Next(RotateApi, 20, s);
    Next(RotateAuthd, 21, s);
    Next(Monitor, 22, s);
    Next(Route, 23, s);
    Next(Expose, 24, s);
    Next(Isolate, 25, s);
  }

  lemma UpToEnd(s: Scenario)
    ensures GetsTo(27, s) <==> Completed(s)
    ensures GetsTo(28, s) <==> Completed(s)
    ensures GetsTo(29, s) <==> Completed(s)
    ensures GetsTo(30, s) <==> Completed(s) && s.statusSaved
  {
    hide GetsTo, Nth, Rank, Passes, Completed;
    LateRanks();
    UpToCompleted(s);
    PassEnd(s);
    Next(RecordRollouts, 26, s);
    Next(RestartIndexer, 27, s);
    Next(RestartManager, 28, s);
    Next(WriteStatus, 29, s);
  }

  // ----- When each stage happens -----

  lemma EarlyActs(s: Scenario)
    ensures !Acts(ReadCluster, s) && !Acts(Mode, s) && !Acts(Pools, s) && Acts(CheckRollouts, s)
    ensures (Acts(Deletion, s) <==> s.deleting) && (Acts(Finalizer, s) <==> !s.hasFinalizer)
    ensures Acts(Creating, s) <==> s.unstarted
    ensures Acts(RetryIndexer, s) <==> Overdue(s.indexerRecovery, s.retryManager)
    ensures Acts(RetryManager, s) <==> Overdue(s.managerRecovery, s.retryManager)
  {
    RecoveryIs(s.indexerRecovery);
    RecoveryIs(s.managerRecovery);
    hide Due, RetryDue;
  }

  lemma PreparationActs(s: Scenario)
    ensures (Acts(ResolveManager, s) <==> s.managerRef.Some?) && (Acts(ResolveIndexer, s) <==> s.indexerRef.Some?)
    ensures Acts(ResolveDashboard, s) <==> s.dashboardRef.Some?
    ensures Acts(Certificates, s) && (Acts(DryRun, s) <==> s.dryRun)
  {}

  lemma ComponentActs(s: Scenario)
    ensures Acts(DrainIndexer, s) <==> s.indexerSpec || s.indexerRef.Some?
    ensures Acts(DrainManager, s) <==> (s.managerSpec || s.managerRef.Some?) && s.workerReconciler
    ensures Acts(ApplyIndexer, s) && Acts(ApplyManager, s) && Acts(RotateLogs, s) && Acts(ApplyDashboard, s)
    ensures Acts(RotateApi, s) && Acts(RotateAuthd, s)
  {}

  lemma SurroundingActs(s: Scenario)
    ensures (Acts(Monitor, s) <==> s.monitoring) && (Acts(Route, s) <==> s.routes.available)
    ensures (Acts(Expose, s) <==> s.ingress.available) && (Acts(Isolate, s) <==> s.policies.available)
  {}

  lemma LastActs(s: Scenario)
    ensures Acts(RecordRollouts, s) <==> s.rolloutsNew
    ensures Acts(RestartIndexer, s) && Acts(RestartManager, s) && Acts(WriteStatus, s)
  {}

  lemma LateActs(s: Scenario)
    ensures (Acts(Monitor, s) <==> s.monitoring) && (Acts(Route, s) <==> s.routes.available)
    ensures (Acts(Expose, s) <==> s.ingress.available) && (Acts(Isolate, s) <==> s.policies.available)
    ensures Acts(RecordRollouts, s) <==> s.rolloutsNew
    ensures Acts(RestartIndexer, s) && Acts(RestartManager, s) && Acts(WriteStatus, s)
  {
    hide Acts;
    SurroundingActs(s);
    LastActs(s);
  }

  /** Deletion, finalizer, first status, the check of rollouts, and the restarts of failed drains. */
  lemma EarlyStagesIff(s: Scenario)
    ensures Happens(Deletion, s) <==> s.read.Present? && s.deleting
    ensures Happens(Finalizer, s) <==> s.read.Present? && !s.deleting && !s.hasFinalizer
    ensures Happens(Creating, s) <==> s.read.Present? && !s.deleting && s.hasFinalizer && s.unstarted
    ensures Happens(CheckRollouts, s) <==> Admitted(s)
    ensures Happens(RetryIndexer, s) <==> Admitted(s) && Overdue(s.indexerRecovery, s.retryManager)
    ensures Happens(RetryManager, s) <==>
      Admitted(s) && Idles(s.indexerRecovery, s.retryManager) && Overdue(s.managerRecovery, s.retryManager)
    ensures !Happens(ReadCluster, s) && !Happens(Mode, s) && !Happens(Pools, s)
  {
    hide GetsTo, Nth, Rank, Passes, Happens, Acts, Admitted, Overdue, Idles;
    EarlyRanks();
    EarlyActs(s);
    UpToAdmitted(s);
    UpToPrepared(s);
    HappensAt(Deletion, 1, s);
    HappensAt(Finalizer, 2, s);
    HappensAt(Creating, 3, s);
    HappensAt(CheckRollouts, 6, s);
    HappensAt(RetryIndexer, 7, s);
    HappensAt(RetryManager, 8, s);
    HappensAt(ReadCluster, 0, s);
    HappensAt(Mode, 4, s);
    HappensAt(Pools, 5, s);
  }

  /** References, certificates and the dry run. */
  lemma PreparationIff(s: Scenario)
    ensures Happens(ResolveManager, s) <==> Undisturbed(s) && s.managerRef.Some?
    ensures Happens(ResolveIndexer, s) <==> Undisturbed(s) && s.managerRef != Some(false) && s.indexerRef.Some?
    ensures Happens(ResolveDashboard, s) <==>
      Undisturbed(s) && s.managerRef != Some(false) && s.indexerRef != Some(false) && s.dashboardRef.Some?
    ensures Happens(Certificates, s) <==> Resolved(s)
    ensures Happens(DryRun, s) <==> Resolved(s) && s.certificates && s.dryRun
  {
    hide GetsTo, Nth, Rank, Passes, Happens, Acts, Undisturbed, Resolved, Prepared;
    PreparationRanks();
    PreparationActs(s);
    UpToPrepared(s);
    HappensAt(ResolveManager, 9, s);
    HappensAt(ResolveIndexer, 10, s);
    HappensAt(ResolveDashboard, 11, s);
    HappensAt(Certificates, 12, s);
    HappensAt(DryRun, 13, s);
  }

  /** Drain checks, the three components and the rotations between and after them. */
  lemma ComponentsIff(s: Scenario)
    ensures Happens(DrainIndexer, s) <==> Prepared(s) && (s.indexerSpec || s.indexerRef.Some?)
    ensures Happens(ApplyIndexer, s) <==> Prepared(s) && !IndexerHeld(s)
    ensures Happens(DrainManager, s) <==>
      IndexerDone(s) && (s.managerSpec || s.managerRef.Some?) && s.workerReconciler
    ensures Happens(ApplyManager, s) <==> IndexerDone(s) && !ManagerHeld(s)
    ensures Happens(RotateLogs, s) <==> ManagerDone(s)
    ensures Happens(ApplyDashboard, s) <==> ManagerDone(s)
    ensures Happens(RotateApi, s) <==> ComponentsDone(s)
    ensures Happens(RotateAuthd, s) <==> ComponentsDone(s) && s.apiRotated
  {
    hide GetsTo, Nth, Rank, Passes, Happens, Acts, Prepared, IndexerHeld, ManagerHeld, IndexerDone, ManagerDone;
    hide ComponentsDone;
    ComponentRanks();
    ComponentActs(s);
    UpToPrepared(s);
    UpToComponents(s);
    UpToCompleted(s);
    HappensAt(DrainIndexer, 14, s);
    HappensAt(ApplyIndexer, 15, s);
    HappensAt(DrainManager, 16, s);
    HappensAt(ApplyManager, 17, s);
    HappensAt(RotateLogs, 18, s);
    HappensAt(ApplyDashboard, 19, s);
    HappensAt(RotateApi, 20, s);
    HappensAt(RotateAuthd, 21, s);
  }

  /** Monitoring, exposure, rollouts, rolling restarts and the status write. */
  lemma LateStagesIff(s: Scenario)
    ensures Happens(Monitor, s) <==> Rotated(s) && s.monitoring
    ensures Happens(Route, s) <==> Rotated(s) && s.routes.available
    ensures Happens(Expose, s) <==> Rotated(s) && !Failing(s.routes) && s.ingress.available
    ensures Happens(Isolate, s) <==>
      Rotated(s) && !Failing(s.routes) && !Failing(s.ingress) && s.policies.available
    ensures Happens(RecordRollouts, s) <==> Completed(s) && s.rolloutsNew
    ensures Happens(RestartIndexer, s) <==> Completed(s)
    ensures Happens(RestartManager, s) <==> Completed(s)
    ensures Happens(WriteStatus, s) <==> Completed(s)
  {
    hide GetsTo, Nth, Rank, Passes, Happens, Acts, Rotated, Completed, Failing;
    LateRanks();
    LateActs(s);
    UpToCompleted(s);
    UpToEnd(s);
    HappensAt(Monitor, 22, s);
    HappensAt(Route, 23, s);
    HappensAt(Expose, 24, s);
    HappensAt(Isolate, 25, s);
    HappensAt(RecordRollouts, 26, s);
    HappensAt(RestartIndexer, 27, s);
    HappensAt(RestartManager, 28, s);
    HappensAt(WriteStatus, 29, s);
  }

  // ----- What the pass reports -----

  /** The requeue after the wait for a retry that is ahead. */
  function Remaining(r: Recovery): Result
    requires Ahead(r)
  {
    RequeueAfter(r.status.value.nextRetryTime.value - r.second)
  }

  function Saving(saved: bool, delay: int): Result { if saved then RequeueAfter(delay) else Fails }

  /** What becomes of a pass over a valid cluster without failed drains to retry. */
  function Worked(s: Scenario): Result {
    if !(Resolved(s) && s.certificates) then Fails
    else if s.dryRun then Saving(s.drainSaved, 30)
    else if IndexerHeld(s) then Saving(s.drainSaved, 10)
    else if s.indexerApplied && ManagerHeld(s) then Saving(s.drainSaved, 10)
    else if !Completed(s) then Fails
    else Saving(s.statusSaved, if s.rolloutsPending || s.rolloutsNew then 5 else if s.restarting then 10 else 30)
  }

  function Retried(s: Scenario): Result {
    var i, m := s.indexerRecovery, s.managerRecovery;
    if Overdue(i, s.retryManager) then RequeueNow
    else if Ahead(i) then Remaining(i)
    else if Overdue(m, s.retryManager) then RequeueNow
    else if Ahead(m) then Remaining(m)
    else Worked(s)
  }

  /** The result of a pass, from what it meets. */
  function Reported(s: Scenario): Result {
    if s.read.Absent? then Done
    else if s.read.ReadFails? then Fails
    else if s.deleting then if s.deletionSucceeds then Done else Fails
    else if !s.hasFinalizer then if s.finalizerSaved then RequeueNow else Fails
    else if !Admitted(s) then Fails
    else Retried(s)
  }

  /** The pass ends in this stage. */
  predicate StopsIn(g: Stage, s: Scenario) { GetsTo(Rank(g), s) && !Passes(g, s) }

  lemma StopsEarly(g: Stage, s: Scenario)
    requires StopsIn(g, s) && g in {ReadCluster, Deletion, Finalizer, Creating, Mode, Pools, CheckRollouts}
    ensures ResultAt(g, s) == Reported(s)
  {
    UpToAdmitted(s);
    EarlyRanks();
    assert !GetsTo(Rank(g) + 1, s) by { Next(g, Rank(g), s); }
    if g in {Creating, Mode, Pools, CheckRollouts} { StopsBefore(g, s); }
    hide GetsTo, Nth, Rank, Retried;
  }

  lemma StopsBefore(g: Stage, s: Scenario)
    requires StopsIn(g, s) && g in {Creating, Mode, Pools, CheckRollouts}
    ensures GetsTo(3, s) && !Admitted(s)
  {
    UpToAdmitted(s);
    EarlyRanks();
    hide GetsTo, Nth, Rank, Due, StillWaits, VerdictOn, HasIndexer, HasManager, Blocks;
    Next(Creating, 3, s);
    Next(Mode, 4, s);
    Next(Pools, 5, s);
    Next(CheckRollouts, 6, s);
  }

  lemma RetryResults(s: Scenario)
    ensures ResultAt(RetryIndexer, s) == RetryResult(s.retryManager, s.indexerRecovery)
    ensures ResultAt(RetryManager, s) == RetryResult(s.retryManager, s.managerRecovery)
  {}

  /** The result of a retry that ends the pass. */
  lemma RetryResultIs(r: Recovery, handled: bool)
    requires !Idles(r, handled)
    ensures RetryResult(handled, r) == if Overdue(r, handled) then RequeueNow else Remaining(r)
  {
    RecoveryIs(r);
    hide Due, RetryDelay, RetryDue, RetryWaits;
  }

  lemma StopsInRetry(g: Stage, s: Scenario)
    requires StopsIn(g, s) && g in {RetryIndexer, RetryManager}
    ensures ResultAt(g, s) == Reported(s)
  {
    hide GetsTo, Nth, Rank, Passes, ResultAt, RetryResult, Overdue, Ahead, Worked;
    UpToAdmitted(s);
    UpToPrepared(s);
    PassRetries(s);
    EarlyRanks();
    RetryResults(s);
    RetryResultIs(if g == RetryIndexer then s.indexerRecovery else s.managerRecovery, s.retryManager);
  }

  lemma StopsInPreparation(g: Stage, s: Scenario)
    requires StopsIn(g, s) && g in {ResolveManager, ResolveIndexer, ResolveDashboard, Certificates, DryRun}
    ensures ResultAt(g, s) == Reported(s)
  {
    hide GetsTo, Nth, Rank, Passes, Overdue, Ahead, Remaining, Completed, IndexerHeld, ManagerHeld, RetryResult;
    UpToAdmitted(s);
    UpToPrepared(s);
    PassPreparation(s);
    PreparationRanks();
  }

  lemma StopsInComponents(g: Stage, s: Scenario)
    requires StopsIn(g, s)
    requires g in {DrainIndexer, ApplyIndexer, DrainManager, ApplyManager, RotateLogs, ApplyDashboard}
    ensures ResultAt(g, s) == Reported(s)
  {
    hide GetsTo, Nth, Rank, Passes, Overdue, Ahead, Remaining, IndexerHeld, ManagerHeld, RetryResult;
    UpToAdmitted(s);
    UpToPrepared(s);
    UpToComponents(s);
    PassDrains(s);
    PassComponents(s);
    ComponentRanks();
  }

  lemma StopsLate(g: Stage, s: Scenario)
    requires StopsIn(g, s) && Rank(g) >= 20
    ensures ResultAt(g, s) == Reported(s) && ResultAt(g, s) == Fails
  {
    hide GetsTo, Nth, Rank, Passes, Overdue, Ahead, Remaining, IndexerHeld, ManagerHeld, RetryResult, ResultAt;
    LateStop(g, s);
    UpToAdmitted(s);
    UpToPrepared(s);
    UpToComponents(s);
  }

  lemma LateStop(g: Stage, s: Scenario)
    requires StopsIn(g, s) && Rank(g) >= 20
    ensures ComponentsDone(s) && !(Completed(s) && s.statusSaved) && ResultAt(g, s) == Fails
  {
    GetsFurther(20, Rank(g), s);
    UpToComponents(s);
    UpToEnd(s);
    Next(g, Rank(g), s);
    NoFurther(Rank(g) + 1, 30, s);
    hide GetsTo, Nth, Passes, ComponentsDone, Completed;
  }

  lemma {:induction false} NoFurther(j: nat, k: nat, s: Scenario)
    requires j <= k && !GetsTo(j, s)
    ensures !GetsTo(k, s)
  {
    hide Passes, Nth;
    if j < k { NoFurther(j, k - 1, s); }
  }

  lemma {:induction false} GetsFurther(j: nat, k: nat, s: Scenario)
    requires j <= k && GetsTo(k, s)
    ensures GetsTo(j, s)
  {
    hide Passes, Nth;
    if j < k { GetsFurther(j, k - 1, s); }
  }

  lemma StopResult(g: Stage, s: Scenario)
    requires StopsIn(g, s)
    ensures ResultAt(g, s) == Reported(s)
  {
    hide StopsIn, ResultAt, Reported;
    if Rank(g) <= 6 {
      StopsEarly(g, s);
    } else if Rank(g) <= 8 {
      StopsInRetry(g, s);
    } else if Rank(g) <= 13 {
      StopsInPreparation(g, s);
    } else if Rank(g) <= 19 {
      StopsInComponents(g, s);
    } else {
      StopsLate(g, s);
    }
  }

  /** Whatever a pass meets, this is what it reports. */
  lemma ResultIs(s: Scenario, r: Result, trace: seq<Stage>, at: nat)
    requires Concludes(s, r, trace, at)
    ensures r == Reported(s)
  {
    if at < STAGES {
      GetsToIff(at, s);
      RankOfNth(at);
      hide Passes, Nth, Rank, ResultAt, Reported;
      StopResult(Nth(at), s);
    } else {
      GetsToIff(STAGES, s);
      hide GetsTo, Reaches, Actions, EndsIn;
      FullPass(s);
    }
  }

  lemma FullPass(s: Scenario)
    requires GetsTo(30, s)
    ensures Reported(s) == RequeueAfter(Requeue(s))
  {
    GetsFurther(20, 30, s);
    UpToAdmitted(s);
    UpToPrepared(s);
    UpToComponents(s);
    UpToEnd(s);
    hide GetsTo, Overdue, Ahead, Remaining, IndexerHeld, ManagerHeld, Failing;
  }
}
