/**
 One pass of the cluster controller, from reading the cluster to its requeue request, as the ordered trace of what it
 does. Component reconcilers, writes and reads are arbitrary outcomes.
 */
module ReconcilePass {
  import opened Prelude
  import opened Drain
  import Rollouts

  /** The stages of a pass in their order. */
  datatype Stage =
    | ReadCluster | Deletion | Finalizer | Creating | Mode | Pools | CheckRollouts | RetryIndexer | RetryManager
    | ResolveManager | ResolveIndexer | ResolveDashboard | Certificates | DryRun | DrainIndexer | ApplyIndexer
    | DrainManager | ApplyManager | RotateLogs | ApplyDashboard | RotateApi | RotateAuthd | Monitor | Route | Expose
    | Isolate | RecordRollouts | RestartIndexer | RestartManager | WriteStatus

  const STAGES: nat := 30

  function Rank(g: Stage): (r: nat)
    ensures r < STAGES && Nth(r) == g
  {
    match g
    case ReadCluster => 0
    case Deletion => 1
    case Finalizer => 2
    case Creating => 3
    case Mode => 4
    case Pools => 5
    case CheckRollouts => 6
    case RetryIndexer => 7
    case RetryManager => 8
    case ResolveManager => 9
    case ResolveIndexer => 10
    case ResolveDashboard => 11
    case Certificates => 12
    case DryRun => 13
    case DrainIndexer => 14
    case ApplyIndexer => 15
    case DrainManager => 16
    case ApplyManager => 17
    case RotateLogs => 18
    case ApplyDashboard => 19
    case RotateApi => 20
    case RotateAuthd => 21
    case Monitor => 22
    case Route => 23
    case Expose => 24
    case Isolate => 25
    case RecordRollouts => 26
    case RestartIndexer => 27
    case RestartManager => 28
    case WriteStatus => 29
  }

  function Nth(k: nat): Stage {
    match k
    case 0 => ReadCluster
    case 1 => Deletion
    case 2 => Finalizer
    case 3 => Creating
    case 4 => Mode
    case 5 => Pools
    case 6 => CheckRollouts
    case 7 => RetryIndexer
    case 8 => RetryManager
    case 9 => ResolveManager
    case 10 => ResolveIndexer
    case 11 => ResolveDashboard
    case 12 => Certificates
    case 13 => DryRun
    case 14 => DrainIndexer
    case 15 => ApplyIndexer
    case 16 => DrainManager
    case 17 => ApplyManager
    case 18 => RotateLogs
    case 19 => ApplyDashboard
    case 20 => RotateApi
    case 21 => RotateAuthd
    case 22 => Monitor
    case 23 => Route
    case 24 => Expose
    case 25 => Isolate
    case 26 => RecordRollouts
    case 27 => RestartIndexer
    case 28 => RestartManager
    case _ => WriteStatus
  }

  /** Stages that can create, change or restart a workload. */
  predicate TouchesWorkload(g: Stage) {
    g in {ApplyIndexer, ApplyManager, ApplyDashboard, RotateApi, RotateAuthd, RestartIndexer, RestartManager}
  }

  predicate EntersPending(g: Stage) { g in {RetryIndexer, RetryManager} }

  datatype Result = Done | Fails | RequeueNow | RequeueAfter(delay: int)

  /** The pass will be followed by another: an error is retried, a requeue is immediate or after a positive delay. */
  predicate ComesBack(r: Result) { r.Fails? || r.RequeueNow? || (r.RequeueAfter? && r.delay > 0) }

  const REQUEUE_DRAIN_IN_PROGRESS: int := 10

  /** A drain status as the retry logic meets it: the answer of the rollback check and the two clock readings. */
  datatype Recovery = Recovery(status: Option<Status>, rolledBack: Option<bool>, first: Time, second: Time)

  /** What a scale-down check meets besides the stored drain status. */
  datatype DrainInput = DrainInput(drainer: bool, answers: Answers, desired: int, enabled: bool)

  /** The verdict of a component's scale-down check on its stored status; a missing status is an idle one. */
  function VerdictOn(r: Recovery, d: DrainInput): Verdict {
    Check(if r.status.Some? then r.status.value else IDLE, d.drainer, d.answers, d.desired, d.enabled).verdict
  }

  /** A wanted scale-down has a drain to wait for: pending, running, just started, or verified as not yet empty. */
  predicate DrainUnderWay(r: Recovery, d: DrainInput) {
    var phase := if r.status.Some? then r.status.value.phase else Idle;
    && ScalesDown(d.answers, d.desired) && d.enabled
    && (|| phase in {Pending, Draining}
        || (phase == Idle && d.answers.clientReady && d.answers.startAccepted)
        || (phase == Verifying && d.drainer && d.answers.empty == Some(false)))
  }

  /** Whether a stage's resource is wanted, whether its reconciler exists, and whether reconciling it succeeds. */
  datatype Optional = Optional(wanted: bool, available: bool, succeeds: bool)

  datatype Read = Absent | ReadFails | Present

  /** Everything a pass meets. */
  datatype Scenario = Scenario(
    read: Read, deleting: bool, deletionSucceeds: bool, hasFinalizer: bool, finalizerSaved: bool,
    unstarted: bool, creatingSaved: bool, mixed: bool, indexerSpec: bool, poolsValid: bool,
    rollbackManager: bool, retryManager: bool, indexerRecovery: Recovery, managerRecovery: Recovery,
    managerRef: Option<bool>, indexerRef: Option<bool>, dashboardRef: Option<bool>, managerSpec: bool,
    certificates: bool, dryRun: bool, drainSaved: bool,
    indexerDrain: DrainInput, workerReconciler: bool, workerDrain: DrainInput,
    indexerApplied: bool, managerApplied: bool, dashboardApplied: bool, apiRotated: bool, authdRotated: bool,
    routes: Optional, ingress: Optional, policies: Optional, monitoring: bool,
    rolloutsPending: bool, rolloutsNew: bool, restarting: bool, statusSaved: bool)

  predicate Live(s: Scenario) { s.read.Present? && !s.deleting }

  // ----- Drain recovery -----

  predicate Recoverable(s: Option<Status>) { s.Some? && s.value.phase in {Failed, RollingBack} }

  predicate Due(r: Recovery) {
    Recoverable(r.status) && r.status.value.nextRetryTime.Some? && r.first > r.status.value.nextRetryTime.value
  }

  predicate StillWaits(r: Recovery) {
    Recoverable(r.status) && r.status.value.nextRetryTime.Some? && r.status.value.nextRetryTime.value > r.second
  }

  /** One component of verifyRollbackComplete: a finished rollback counts as a failed drain. */
  function Verified(r: Recovery): Recovery {
    if r.status.Some? && r.status.value.phase == RollingBack && r.rolledBack == Some(true)
    then r.(status := Some(r.status.value.(phase := Failed))) else r
  }

  /** verifyRollbackComplete: an error on the indexer skips the manager. */
  method VerifyRollbackComplete(manager: bool, i: Recovery, m: Recovery) returns (i': Recovery, m': Recovery)
    ensures Due(i') == Due(i) && Due(m') == Due(m) && StillWaits(i') == StillWaits(i) && StillWaits(m') == StillWaits(m)
    ensures i' in {i, Verified(i)} && m' in {m, Verified(m)}
    ensures manager && Recoverable(i.status) && i.rolledBack.None? && i.status.value.phase == RollingBack ==> m' == m
  {
    i', m' := i, m;
    if !manager { return; }
    if i.status.Some? && i.status.value.phase == RollingBack {
      if i.rolledBack.None? { return; }
      i' := Verified(i);
    }
    if m.status.Some? && m.status.value.phase == RollingBack {
      if m.rolledBack.None? { return; }
      m' := Verified(m);
    }
  }

  /** One component's part of checkAndHandleRetry: the restart of its drain, and the result if the pass ends here. */
  method HandleRetry(retryManager: bool, r: Recovery) returns (stop: Option<Result>, restarted: bool)
    requires r.first <= r.second
    ensures stop.Some? <==> (retryManager && Due(r)) || StillWaits(r)
    ensures restarted <==> retryManager && Due(r)
    ensures stop.Some? ==> stop.value == if restarted then RequeueNow else RequeueAfter(RetryDelay(r))
  {
    if Recoverable(r.status) {
      if retryManager && Due(r) { return Some(RequeueNow), true; }
      if r.status.value.nextRetryTime.Some? {
        var wait := r.status.value.nextRetryTime.value - r.second;
        if wait > 0 { return Some(RequeueAfter(wait)), false; }
      }
    }
    return None, false;
  }

  function RetryDelay(r: Recovery): int {
    if r.status.Some? && r.status.value.nextRetryTime.Some? then r.status.value.nextRetryTime.value - r.second else 0
  }

  // ----- What each stage does -----

  predicate HasIndexer(s: Scenario) { s.indexerSpec || s.indexerRef.Some? }

  predicate HasManager(s: Scenario) { s.managerSpec || s.managerRef.Some? }

  /** A wanted resource fails the pass; an unwanted one is cleaned up and its errors are only logged. */
  predicate Blocks(o: Optional) { o.wanted && o.available && !o.succeeds }

  /** A pass that gets to the stage acts in it. */
  predicate Acts(g: Stage, s: Scenario) {
    match g
    case ReadCluster | Mode | Pools => false
    case Deletion => s.deleting
    case Finalizer => !s.hasFinalizer
    case Creating => s.unstarted
    case RetryIndexer => s.retryManager && Due(s.indexerRecovery)
    case RetryManager => s.retryManager && Due(s.managerRecovery)
    case ResolveManager => s.managerRef.Some?
    case ResolveIndexer => s.indexerRef.Some?
    case ResolveDashboard => s.dashboardRef.Some?
    case DryRun => s.dryRun
    case DrainIndexer => HasIndexer(s)
    case DrainManager => HasManager(s) && s.workerReconciler
    case Monitor => s.monitoring
    case Route => s.routes.available
    case Expose => s.ingress.available
    case Isolate => s.policies.available
    case RecordRollouts => s.rolloutsNew
    case _ => true
  }

  /** A pass that gets to the stage gets past it. */
  predicate Passes(g: Stage, s: Scenario) {
    match g
    case ReadCluster => s.read.Present?
    case Deletion => !s.deleting
    case Finalizer => s.hasFinalizer
    case Creating => s.unstarted ==> s.creatingSaved
    case Mode => !s.mixed
    case Pools => s.indexerSpec ==> s.poolsValid
    case RetryIndexer => !(s.retryManager && Due(s.indexerRecovery)) && !StillWaits(s.indexerRecovery)
    case RetryManager => !(s.retryManager && Due(s.managerRecovery)) && !StillWaits(s.managerRecovery)
    case ResolveManager => s.managerRef.Some? ==> s.managerRef.value
    case ResolveIndexer => s.indexerRef.Some? ==> s.indexerRef.value
    case ResolveDashboard => s.dashboardRef.Some? ==> s.dashboardRef.value
    case Certificates => s.certificates
    case DryRun => !s.dryRun
    case DrainIndexer => HasIndexer(s) ==> VerdictOn(s.indexerRecovery, s.indexerDrain) != Wait
    case ApplyIndexer => s.indexerApplied
    case DrainManager => HasManager(s) && s.workerReconciler ==> VerdictOn(s.managerRecovery, s.workerDrain) != Wait
    case ApplyManager => s.managerApplied
    case ApplyDashboard => s.dashboardApplied
    case RotateApi => s.apiRotated
    case RotateAuthd => s.authdRotated
    case Route => !Blocks(s.routes)
    case Expose => !Blocks(s.ingress)
    case Isolate => !Blocks(s.policies)
    case WriteStatus => s.statusSaved
    case _ => true
  }

  /** What the pass reports when it ends in the stage. */
  function ResultAt(g: Stage, s: Scenario): Result {
    match g
    case ReadCluster => if s.read.Absent? then Done else Fails
    case Deletion => if s.deletionSucceeds then Done else Fails
    case Finalizer => if s.finalizerSaved then RequeueNow else Fails
    case RetryIndexer => RetryResult(s.retryManager, s.indexerRecovery)
    case RetryManager => RetryResult(s.retryManager, s.managerRecovery)
    case DryRun => if s.drainSaved then RequeueAfter(Rollouts.REQUEUE_NORMAL) else Fails
    case DrainIndexer | DrainManager => if s.drainSaved then RequeueAfter(REQUEUE_DRAIN_IN_PROGRESS) else Fails
    case _ => Fails
  }

  function RetryResult(retryManager: bool, r: Recovery): Result {
    if retryManager && Due(r) then RequeueNow else RequeueAfter(RetryDelay(r))
  }

  /** The actions of the first k stages of a pass that gets that far. */
  function Actions(k: nat, s: Scenario): seq<Stage> {
    if k == 0 then [] else Actions(k - 1, s) + if Acts(Nth(k - 1), s) then [Nth(k - 1)] else []
  }

  ghost predicate Reaches(k: nat, s: Scenario) { forall j: nat :: j < k ==> Passes(Nth(j), s) }

  /** The pass went through the first k stages, and its trace is what they do. */
  ghost predicate Through(k: nat, s: Scenario, trace: seq<Stage>) { Reaches(k, s) && trace == Actions(k, s) }

  /** The pass ended in stage k. */
  ghost predicate EndsIn(k: nat, s: Scenario, trace: seq<Stage>, r: Result) {
    && Reaches(k, s) && !Passes(Nth(k), s)
    && trace == Actions(k + 1, s) && r == ResultAt(Nth(k), s)
  }

  lemma Onward(g: Stage, s: Scenario, trace: seq<Stage>)
    requires Through(Rank(g), s, trace) && Passes(g, s)
    ensures Through(Rank(g) + 1, s, if Acts(g, s) then trace + [g] else trace)
  {
    hide Acts, Passes, Nth, Rank;
  }

  // ----- The pass -----

  lemma Halt(g: Stage, s: Scenario, trace: seq<Stage>)
    requires Through(Rank(g), s, trace) && !Passes(g, s)
    ensures EndsIn(Rank(g), s, if Acts(g, s) then trace + [g] else trace, ResultAt(g, s))
  {
    hide Acts, Passes, Nth, Rank;
  }

  /** How one part of the pass ends: in stage `at`, or past its last stage. */
  ghost predicate Ends(last: nat, s: Scenario, trace: seq<Stage>, stop: Option<Result>, at: nat) {
    if stop.None? then Through(last, s, trace) else at < last && EndsIn(at, s, trace, stop.value)
  }

  /** From the read of the cluster to its finalizer and first status. */
  method Admit(s: Scenario) returns (stop: Option<Result>, trace: seq<Stage>, ghost at: nat)
    ensures Ends(4, s, trace, stop, at)
  {
    trace, at := [], 0;
    if !s.read.Present? {
      Halt(ReadCluster, s, trace);
      return Some(if s.read.Absent? then Done else Fails), trace, 0;
    }
    Onward(ReadCluster, s, trace);
    hide Through, EndsIn, Nth;
    if s.deleting {
      Halt(Deletion, s, trace);
      return Some(if s.deletionSucceeds then Done else Fails), trace + [Deletion], 1;
    }
    Onward(Deletion, s, trace);
    if !s.hasFinalizer {
      Halt(Finalizer, s, trace);
      return Some(if s.finalizerSaved then RequeueNow else Fails), trace + [Finalizer], 2;
    }
    Onward(Finalizer, s, trace);
    if s.unstarted {
      if !s.creatingSaved {
        Halt(Creating, s, trace);
        return Some(Fails), trace + [Creating], 3;
      }
      Onward(Creating, s, trace);
      trace := trace + [Creating];
    } else {
      Onward(Creating, s, trace);
    }
    return None, trace, at;
  }

  /** Validation, rollout bookkeeping and the recovery of failed drains. */
  method Recover(s: Scenario, before: seq<Stage>) returns (stop: Option<Result>, trace: seq<Stage>, ghost at: nat)
    requires s.indexerRecovery.first <= s.indexerRecovery.second && s.managerRecovery.first <= s.managerRecovery.second
    requires Through(4, s, before)
    ensures Ends(9, s, trace, stop, at)
  {
    hide Through, EndsIn, Nth, VerdictOn, HasIndexer, HasManager, Blocks, Due, StillWaits;
    trace, at := before, 0;
    if s.mixed {
      Halt(Mode, s, trace);
      return Some(Fails), trace, 4;
    }
    Onward(Mode, s, trace);
    if s.indexerSpec && !s.poolsValid {
      Halt(Pools, s, trace);
      return Some(Fails), trace, 5;
    }
    Onward(Pools, s, trace);
    Onward(CheckRollouts, s, trace);
    trace := trace + [CheckRollouts];
    var i, m := VerifyRollbackComplete(s.rollbackManager, s.indexerRecovery, s.managerRecovery);
    var restarted;
    stop, restarted := HandleRetry(s.retryManager, i);
    if stop.Some? {
      Halt(RetryIndexer, s, trace);
      return stop, if restarted then trace + [RetryIndexer] else trace, 7;
    }
    Onward(RetryIndexer, s, trace);
    stop, restarted := HandleRetry(s.retryManager, m);
    if stop.Some? {
      Halt(RetryManager, s, trace);
      return stop, if restarted then trace + [RetryManager] else trace, 8;
    }
    Onward(RetryManager, s, trace);
  }

  /** A stage that acts on some condition and, if what it does fails, fails the pass. */
  method Attempt(g: Stage, acts: bool, succeeds: bool, s: Scenario, before: seq<Stage>)
    returns (stop: Option<Result>, trace: seq<Stage>)
    requires Through(Rank(g), s, before)
    requires (acts <==> Acts(g, s)) && (acts && !succeeds <==> !Passes(g, s)) && ResultAt(g, s) == Fails
    ensures stop.None? ==> Through(Rank(g) + 1, s, trace)
    ensures stop.Some? ==> EndsIn(Rank(g), s, trace, stop.value)
  {
    hide Through, EndsIn, Nth, Rank, Acts, Passes, ResultAt;
    stop, trace := None, before;
    if acts {
      trace := trace + [g];
      if !succeeds {
        Halt(g, s, before);
        return Some(Fails), trace;
      }
    }
    Onward(g, s, before);
  }

  /** Reference resolution. */
  method ResolveReferences(s: Scenario, before: seq<Stage>)
    returns (stop: Option<Result>, trace: seq<Stage>, ghost at: nat)
    requires Through(9, s, before)
    ensures Ends(12, s, trace, stop, at)
  {
    hide Through, EndsIn, Nth;
    var m, i, d := s.managerRef, s.indexerRef, s.dashboardRef;
    stop, trace := Attempt(ResolveManager, m.Some?, m.Some? && m.value, s, before);
    if stop.Some? { return stop, trace, 9; }
    stop, trace := Attempt(ResolveIndexer, i.Some?, i.Some? && i.value, s, trace);
    if stop.Some? { return stop, trace, 10; }
    stop, trace := Attempt(ResolveDashboard, d.Some?, d.Some? && d.value, s, trace);
    at := 11;
  }

  /** Certificates and dry-run. */
  method Provision(s: Scenario, before: seq<Stage>) returns (stop: Option<Result>, trace: seq<Stage>, ghost at: nat)
    requires Through(12, s, before)
    ensures Ends(14, s, trace, stop, at)
  {
    hide Through, EndsIn, Nth;
    stop, trace := Attempt(Certificates, true, s.certificates, s, before);
    if stop.Some? { return stop, trace, 12; }
    if s.dryRun {
      Halt(DryRun, s, trace);
      return Some(if s.drainSaved then RequeueAfter(Rollouts.REQUEUE_NORMAL) else Fails), trace + [DryRun], 13;
    }
    Onward(DryRun, s, trace);
    return None, trace, 13;
  }

  /** A component's scale-down check, which ends the pass while a drain is under way. */
  method AwaitDrain(g: Stage, checked: bool, verdict: Verdict, s: Scenario, before: seq<Stage>)
    returns (stop: Option<Result>, trace: seq<Stage>)
    requires g in {DrainIndexer, DrainManager} && Through(Rank(g), s, before)
    requires (checked <==> Acts(g, s)) && (checked && verdict == Wait <==> !Passes(g, s))
    ensures stop.None? ==> Through(Rank(g) + 1, s, trace)
    ensures stop.Some? ==> EndsIn(Rank(g), s, trace, stop.value)
  {
    hide Through, EndsIn, Nth, Rank, Acts, Passes;
    stop, trace := None, before;
    if checked {
      trace := trace + [g];
      if verdict == Wait {
        Halt(g, s, before);
        return Some(if s.drainSaved then RequeueAfter(REQUEUE_DRAIN_IN_PROGRESS) else Fails), trace;
      }
    }
    Onward(g, s, before);
  }

  /** Drain checks and component reconciles of the indexer and the manager. */
  method ApplyBackends(s: Scenario, before: seq<Stage>) returns (stop: Option<Result>, trace: seq<Stage>, ghost at: nat)
    requires Through(14, s, before)
    ensures Ends(18, s, trace, stop, at)
  {
    hide Through, EndsIn, Nth, VerdictOn, Due, StillWaits, Blocks;
    var indexed, verdict := s.indexerSpec || s.indexerRef.Some?, VerdictOn(s.indexerRecovery, s.indexerDrain);
    stop, trace := AwaitDrain(DrainIndexer, indexed, verdict, s, before);
    if stop.Some? { return stop, trace, 14; }
    stop, trace := Attempt(ApplyIndexer, true, s.indexerApplied, s, trace);
    if stop.Some? { return stop, trace, 15; }
    var checked := (s.managerSpec || s.managerRef.Some?) && s.workerReconciler;
    stop, trace := AwaitDrain(DrainManager, checked, VerdictOn(s.managerRecovery, s.workerDrain), s, trace);
    if stop.Some? { return stop, trace, 16; }
    stop, trace := Attempt(ApplyManager, true, s.managerApplied, s, trace);
    at := 17;
  }

  /** Log rotation, the dashboard and the two credential rotations. */
  method ApplyRest(s: Scenario, before: seq<Stage>) returns (stop: Option<Result>, trace: seq<Stage>, ghost at: nat)
    requires Through(18, s, before)
    ensures Ends(22, s, trace, stop, at)
  {
    hide Through, EndsIn, Nth;
    Onward(RotateLogs, s, before);
    trace := before + [RotateLogs];
    stop, trace := Attempt(ApplyDashboard, true, s.dashboardApplied, s, trace);
    if stop.Some? { return stop, trace, 19; }
    stop, trace := Attempt(RotateApi, true, s.apiRotated, s, trace);
    if stop.Some? { return stop, trace, 20; }
    stop, trace := Attempt(RotateAuthd, true, s.authdRotated, s, trace);
    at := 21;
  }

  /** Monitoring, routes, ingresses and network policies; the errors of unwanted ones do not count. */
  method Surround(s: Scenario, before: seq<Stage>) returns (stop: Option<Result>, trace: seq<Stage>, ghost at: nat)
    requires Through(22, s, before)
    ensures Ends(26, s, trace, stop, at)
  {
    hide Through, EndsIn, Nth, VerdictOn, Due, StillWaits, HasIndexer, HasManager;
    Onward(Monitor, s, before);
    trace := if s.monitoring then before + [Monitor] else before;
    stop, trace := Attempt(Route, s.routes.available, !s.routes.wanted || s.routes.succeeds, s, trace);
    if stop.Some? { return stop, trace, 23; }
    stop, trace := Attempt(Expose, s.ingress.available, !s.ingress.wanted || s.ingress.succeeds, s, trace);
    if stop.Some? { return stop, trace, 24; }
    stop, trace := Attempt(Isolate, s.policies.available, !s.policies.wanted || s.policies.succeeds, s, trace);
    at := 25;
  }

  /** Recording of rollouts, rolling restarts and the final status write. */
  method Conclude(s: Scenario, before: seq<Stage>) returns (stop: Option<Result>, trace: seq<Stage>, ghost at: nat)
    requires Through(26, s, before)
    ensures Ends(STAGES, s, trace, stop, at)
  {
    hide Through, EndsIn, Nth;
    Onward(RecordRollouts, s, before);
    trace := if s.rolloutsNew then before + [RecordRollouts] else before;
    Onward(RestartIndexer, s, trace);
    trace := trace + [RestartIndexer];
    Onward(RestartManager, s, trace);
    trace := trace + [RestartManager];
    stop, trace := Attempt(WriteStatus, true, s.statusSaved, s, trace);
    at := 29;
  }

  /** Reconcile: ends in the first stage that does not let it past, having done what the stages up to it do. */
  method Reconcile(s: Scenario) returns (r: Result, trace: seq<Stage>, ghost at: nat)
    requires s.indexerRecovery.first <= s.indexerRecovery.second && s.managerRecovery.first <= s.managerRecovery.second
    ensures Concludes(s, r, trace, at)
  {
    hide Through, EndsIn, Nth;
    var stop;
    stop, trace, at := Admit(s);
    if stop.Some? { return stop.value, trace, at; }
    stop, trace, at := Recover(s, trace);
    if stop.Some? { return stop.value, trace, at; }
    stop, trace, at := ResolveReferences(s, trace);
    if stop.Some? { return stop.value, trace, at; }
    stop, trace, at := Provision(s, trace);
    if stop.Some? { return stop.value, trace, at; }
    stop, trace, at := ApplyBackends(s, trace);
    if stop.Some? { return stop.value, trace, at; }
    stop, trace, at := ApplyRest(s, trace);
    if stop.Some? { return stop.value, trace, at; }
    stop, trace, at := Surround(s, trace);
    if stop.Some? { return stop.value, trace, at; }
    stop, trace, at := Conclude(s, trace);
    if stop.Some? { return stop.value, trace, at; }
    return RequeueAfter(Requeue(s)), trace, STAGES;
  }

  function Requeue(s: Scenario): int {
    Rollouts.DetermineRequeueInterval(s.rolloutsPending || s.rolloutsNew, s.restarting)
  }

  ghost predicate Concludes(s: Scenario, r: Result, trace: seq<Stage>, at: nat) {
    || (at == STAGES && Through(STAGES, s, trace) && r == RequeueAfter(Requeue(s)))
    || (at < STAGES && EndsIn(at, s, trace, r))
  }

  // ----- Whole-pass properties, for every outcome -----

  /** The stage acts and every stage before it lets the pass on: when it happens, independently of the code's path. */
  ghost predicate Happens(g: Stage, s: Scenario) {
    Acts(g, s) && forall h :: Rank(h) < Rank(g) ==> Passes(h, s)
  }

  lemma {:induction false} ActionsAre(k: nat, s: Scenario, g: Stage)
    requires k <= STAGES
    ensures g in Actions(k, s) <==> Acts(g, s) && Rank(g) < k
  {
    if k > 0 { RankOfNth(k - 1); }
    hide Acts, Rank, Nth;
    if k > 0 { ActionsAre(k - 1, s, g); }
  }

  lemma RankOfNth(k: nat)
    requires k < STAGES
    ensures Rank(Nth(k)) == k
  {}

  /** The trace holds exactly what happens. */
  lemma TraceIsWhatHappens(s: Scenario, r: Result, trace: seq<Stage>, at: nat, g: Stage)
    requires Concludes(s, r, trace, at)
    ensures g in trace <==> Happens(g, s)
  {
    hide Acts, Passes;
    ActionsAre(if at < STAGES then at + 1 else at, s, g);
    if g in trace {
      forall h | Rank(h) < Rank(g) ensures Passes(h, s) { assert Passes(Nth(Rank(h)), s); }
    } else if at < STAGES {
      RankOfNth(at);
    }
    hide Rank, Nth;
  }

  /** The trace keeps the order of the stages, each at most once. */
  lemma {:induction false} TraceInOrder(s: Scenario, k: nat, i: nat, j: nat)
    requires k <= STAGES && i < j < |Actions(k, s)|
    ensures Rank(Actions(k, s)[i]) < Rank(Actions(k, s)[j])
  {
    hide Acts;
    if j < |Actions(k - 1, s)| {
      TraceInOrder(s, k - 1, i, j);
    } else {
      assert Actions(k, s)[i] in Actions(k - 1, s);
      ActionsAre(k - 1, s, Actions(k, s)[i]);
      RankOfNth(k - 1);
    }
  }

  /** Every pass on a live cluster fails, asks for an immediate requeue, or asks for one after a positive delay. */
  lemma LiveClusterComesBack(s: Scenario, r: Result, trace: seq<Stage>, at: nat)
    requires Concludes(s, r, trace, at) && Live(s)
    ensures ComesBack(r)
  {
    if at < STAGES { StopComesBack(s, Nth(at)); }
  }

  lemma StopComesBack(s: Scenario, g: Stage)
    requires Live(s) && !Passes(g, s)
    ensures ComesBack(ResultAt(g, s))
  {}

  /** Workloads are touched only on a live cluster that carries the finalizer, with certificates, outside dry-run. */
  lemma WorkloadsGuarded(s: Scenario, g: Stage)
    requires Happens(g, s) && TouchesWorkload(g)
    ensures Live(s) && s.hasFinalizer && !s.mixed && s.certificates && !s.dryRun
  {
    hide Nth, Acts;
    assert Rank(DryRun) < Rank(g);
    assert Passes(ReadCluster, s) && Passes(Deletion, s) && Passes(Finalizer, s) && Passes(Mode, s);
    assert Passes(Certificates, s) && Passes(DryRun, s);
  }

  /** At most one drain is restarted per pass, only when its retry is due, and that pass touches no workload. */
  lemma DrainRestartIsAlone(s: Scenario, g: Stage, h: Stage)
    requires Happens(g, s) && EntersPending(g) && Happens(h, s)
    ensures h == g || (!EntersPending(h) && !TouchesWorkload(h))
    ensures s.retryManager && Due(if g == RetryIndexer then s.indexerRecovery else s.managerRecovery)
  {
    hide Nth;
    assert Rank(g) < Rank(h) ==> Passes(g, s);
    assert Rank(h) < Rank(g) ==> Passes(h, s);
  }

  /** The check waits exactly while a drain is under way, and the rollback check before it makes no difference. */
  lemma WaitsIff(r: Recovery, d: DrainInput)
    ensures VerdictOn(r, d) == Wait <==> DrainUnderWay(r, d)
    ensures VerdictOn(Verified(r), d) == VerdictOn(r, d)
  {}

  /** A drain under way keeps its component, and every later stage, from happening. */
  lemma DrainKeepsComponent(s: Scenario, g: Stage)
    requires Happens(g, s)
    ensures HasIndexer(s) && DrainUnderWay(s.indexerRecovery, s.indexerDrain) ==> Rank(g) < Rank(ApplyIndexer)
    ensures HasManager(s) && s.workerReconciler && DrainUnderWay(s.managerRecovery, s.workerDrain) ==>
      Rank(g) < Rank(ApplyManager)
  {
    WaitsIff(s.indexerRecovery, s.indexerDrain);
    WaitsIff(s.managerRecovery, s.workerDrain);
    hide Nth, Acts, VerdictOn, DrainUnderWay;
    assert Rank(DrainIndexer) < Rank(g) ==> Passes(DrainIndexer, s);
    assert Rank(DrainManager) < Rank(g) ==> Passes(DrainManager, s);
  }

  /** Credentials are rotated only after all three components were applied successfully in the same pass. */
  lemma RotationFollowsComponents(s: Scenario, g: Stage, h: Stage)
    requires Happens(g, s) && g in {RotateApi, RotateAuthd} && h in {ApplyIndexer, ApplyManager, ApplyDashboard}
    ensures Happens(h, s) && Passes(h, s)
  {
    assert Rank(h) < Rank(g);
  }

  // ----- When a stored drain becomes pending -----

  datatype Side = IndexerSide | ManagerSide

  function RecoveryOf(s: Scenario, side: Side): Recovery {
    match side case IndexerSide => s.indexerRecovery case ManagerSide => s.managerRecovery
  }

  function InputOf(s: Scenario, side: Side): DrainInput {
    match side case IndexerSide => s.indexerDrain case ManagerSide => s.workerDrain
  }

  function RetryStage(side: Side): Stage { if side.IndexerSide? then RetryIndexer else RetryManager }

  function DrainStage(side: Side): Stage { if side.IndexerSide? then DrainIndexer else DrainManager }

  function ApplyStage(side: Side): Stage { if side.IndexerSide? then ApplyIndexer else ApplyManager }

  function StatusOn(r: Recovery): Status { if r.status.Some? then r.status.value else IDLE }

  /** The check starts a drain of a wanted scale-down and the drainer refuses. */
  predicate Refused(r: Recovery, d: DrainInput) {
    && StatusOn(r).phase == Idle && ScalesDown(d.answers, d.desired) && d.enabled
    && d.answers.clientReady && !d.answers.startAccepted
  }

  /** The component's drain is pending in memory when the pass ends. */
  ghost predicate PendingAfter(s: Scenario, side: Side) {
    var r, d := RecoveryOf(s, side), InputOf(s, side);
    if Happens(RetryStage(side), s) then true
    else if Happens(DrainStage(side), s)
      then Check(StatusOn(r), d.drainer, d.answers, d.desired, d.enabled).status.phase == Pending
    else StatusOn(r).phase == Pending
  }

  /** The pass ends in a write of the drain status, or gets to the final one, and the write lands. */
  ghost predicate DrainStored(s: Scenario) {
    || (s.drainSaved && (|| Happens(RetryIndexer, s) || Happens(RetryManager, s) || Happens(DryRun, s)
                         || (Happens(DrainIndexer, s) && !Passes(DrainIndexer, s))
                         || (Happens(DrainManager, s) && !Passes(DrainManager, s))))
    || (s.statusSaved && Happens(WriteStatus, s))
  }

  ghost predicate StoredPending(s: Scenario, side: Side) {
    if DrainStored(s) then PendingAfter(s, side) else StatusOn(RecoveryOf(s, side)).phase == Pending
  }

  /** A check leaves a drain pending that was not iff its start is refused. */
  lemma PendingFromCheck(r: Recovery, d: DrainInput)
    requires StatusOn(r).phase != Pending
    ensures Check(StatusOn(r), d.drainer, d.answers, d.desired, d.enabled).status.phase == Pending <==> Refused(r, d)
  {}

  /** Nothing of rank above a stage that does not let the pass on happens. */
  lemma NothingAfter(s: Scenario, g: Stage, h: Stage)
    requires !Passes(g, s) && Rank(g) < Rank(h)
    ensures !Happens(h, s)
  {}

  /**
   A component's stored drain becomes pending in exactly two ways: its retry is due and that write lands, or its start
   is refused and a later write of the pass lands.
   */
  lemma BecomesPendingIff(s: Scenario, side: Side)
    requires StatusOn(RecoveryOf(s, side)).phase != Pending
    ensures StoredPending(s, side) <==>
      || (Happens(RetryStage(side), s) && s.drainSaved)
      || (Happens(DrainStage(side), s) && Refused(RecoveryOf(s, side), InputOf(s, side)) && DrainStored(s))
  {
    PendingFromCheck(RecoveryOf(s, side), InputOf(s, side));
    RestartEndsPass(s, side);
    hide Happens, Passes, Acts, Check, Refused;
  }

  lemma RestartEndsPass(s: Scenario, side: Side)
    ensures Happens(RetryStage(side), s) ==> !Happens(DrainStage(side), s) && !Happens(WriteStatus, s)
  {
    var g := RetryStage(side);
    if Happens(g, s) {
      assert !Passes(g, s);
      assert Rank(g) < Rank(DrainStage(side)) < Rank(WriteStatus);
      NothingAfter(s, g, DrainStage(side));
      NothingAfter(s, g, WriteStatus);
    }
  }

  /** A refused start, unlike a restarted drain, does not end the pass: it goes on to apply the component. */
  lemma RefusedStartGoesOn(s: Scenario, side: Side)
    requires Happens(DrainStage(side), s) && Refused(RecoveryOf(s, side), InputOf(s, side))
    ensures Happens(ApplyStage(side), s)
  {
    var g, h := DrainStage(side), ApplyStage(side);
    assert Passes(g, s);
    assert Rank(h) == Rank(g) + 1;
    forall k | Rank(k) < Rank(h) ensures Passes(k, s) {
      if Rank(k) == Rank(g) { assert Nth(Rank(k)) == k && Nth(Rank(g)) == g; }
    }
  }
}
