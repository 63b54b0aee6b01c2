/**
 Rolling restarts across StatefulSets: the workers and the master of the managers, and the node pools of the indexer.
 Each call deletes at most one pod, but what it checks before that is partly about one set only.
 */
module RestartRuns {
  import opened Prelude
  import opened Orchestrator

  type Fleets = seq<Fleet>

  predicate AllServing(f: Fleet) { forall k :: 0 <= k < |f| ==> Serving(f[k]) }

  predicate AnyTerminating(f: Fleet) { exists k :: 0 <= k < |f| && f[k].Up? && f[k].terminating }

  predicate IsSlot(fs: Fleets, i: int, k: int) { 0 <= i < |fs| && 0 <= k < |fs[i]| }

  predicate ServingAt(fs: Fleets, i: int, k: int) { IsSlot(fs, i, k) ==> Serving(fs[i][k]) }

  /** At most one pod of all sets is not serving. */
  ghost predicate OneDownAcross(fs: Fleets) {
    forall i, k, j, l :: IsSlot(fs, i, k) && IsSlot(fs, j, l) && (i != j || k != l) ==>
      ServingAt(fs, i, k) || ServingAt(fs, j, l)
  }

  ghost predicate GoodAcross(stss: seq<StatefulSet>, fs: Fleets) {
    && |stss| == |fs| && OneDownAcross(fs)
    && forall i :: 0 <= i < |fs| ==> TopTerminates(stss[i], fs[i])
  }

  function Doomed(f: Fleet, k: nat): Fleet
    requires k < |f| && f[k].Up?
  {
    f[k := f[k].(terminating := true)]
  }

  /** All pods of the sets other than i serve. */
  ghost predicate OthersServe(fs: Fleets, i: nat) { forall j :: 0 <= j < |fs| && j != i ==> AllServing(fs[j]) }

  lemma TopAlone(sts: StatefulSet, f: Fleet, k: nat, m: nat)
    requires TopTerminates(sts, f) && TopStale(sts, f, k) && UpAreReady(f) && m < |f| && m != k
    ensures Serving(f[m]) <==> !f[m].Absent?
  {}

  /**
   Deleting the topmost outdated pod of a set whose listed pods are ready keeps at most one pod down across all sets iff
   no ordinal of the set is absent and all pods of the other sets serve.
   */
  lemma DeleteSafeAcross(stss: seq<StatefulSet>, fs: Fleets, i: nat, k: nat)
    requires GoodAcross(stss, fs) && i < |fs| && TopStale(stss[i], fs[i], k) && UpAreReady(fs[i])
    ensures OneDownAcross(fs[i := Doomed(fs[i], k)]) <==> !HasAbsent(fs[i]) && OthersServe(fs, i)
  {
    var gs := fs[i := Doomed(fs[i], k)];
    assert !ServingAt(gs, i, k) && IsSlot(gs, i, k);
    forall m: nat | m < |fs[i]| && m != k ensures Serving(fs[i][m]) <==> !fs[i][m].Absent? {
      TopAlone(stss[i], fs[i], k, m);
    }
    if !HasAbsent(fs[i]) && OthersServe(fs, i) {
      forall j, l | IsSlot(gs, j, l) && (j != i || l != k) ensures ServingAt(gs, j, l) {}
    }
    if OneDownAcross(gs) {
      forall j, l | IsSlot(fs, j, l) && (j != i || l != k) ensures Serving(fs[j][l]) {
        assert IsSlot(gs, j, l) && (ServingAt(gs, i, k) || ServingAt(gs, j, l));
      }
      hide OneDownAcross;
      forall j | 0 <= j < |fs| && j != i ensures AllServing(fs[j]) {
        forall l | 0 <= l < |fs[j]| ensures Serving(fs[j][l]) { assert IsSlot(fs, j, l); }
      }
      forall l | 0 <= l < |fs[i]| ensures !fs[i][l].Absent? { assert IsSlot(fs, i, l); }
    }
  }

  // ----- Cluster steps -----

  /** A step of the StatefulSet controllers or the kubelet in one set. */
  ghost predicate ClusterStep(stss: seq<StatefulSet>, fs: Fleets, i: nat, e: Event, gs: Fleets) {
    i < |fs| && |stss| == |fs| && |gs| == |fs| && !e.Call? && Step(stss[i], fs[i], e, gs[i]) && gs == fs[i := gs[i]]
  }

  lemma ServingStays(sts: StatefulSet, f: Fleet, e: Event, g: Fleet, k: nat)
    requires !e.Call? && Step(sts, f, e, g) && k < |f| && Serving(f[k])
    ensures |g| == |f| && Serving(g[k])
  {}

  lemma ClusterStepGoodAcross(stss: seq<StatefulSet>, fs: Fleets, i: nat, e: Event, gs: Fleets)
    requires GoodAcross(stss, fs) && ClusterStep(stss, fs, i, e, gs)
    ensures GoodAcross(stss, gs)
  {
    ClusterStepKeepsTop(stss[i], fs[i], e, gs[i]);
    forall j, k | IsSlot(gs, j, k) && ServingAt(fs, j, k) ensures ServingAt(gs, j, k) {
      if j == i { ServingStays(stss[i], fs[i], e, gs[i], k); }
    }
    hide Step, TopTerminates, Serving;
    forall j, k, l, m | IsSlot(gs, j, k) && IsSlot(gs, l, m) && (j != l || k != m)
      ensures ServingAt(gs, j, k) || ServingAt(gs, l, m)
    {
      assert IsSlot(fs, j, k) && IsSlot(fs, l, m);
      assert ServingAt(fs, j, k) || ServingAt(fs, l, m);
    }
  }

  // ----- Managers -----

  /** One manager call: whether each set can be read, and what its part meets. */
  datatype ManagerEnv = ManagerEnv(workerRead: bool, worker: Env, masterRead: bool, master: Env)

  function ViewOf(sts: StatefulSet, f: Fleet, readable: bool, env: Env): View {
    if readable then Found(sts, Listing(sts, f, env)) else Unreadable
  }

  function ApplyPart(f: Fleet, d: Option<Decision>, env: Env): Fleet {
    if d.Some? then Apply(f, d.value, env) else f
  }

  /** The step of a call on workers fs[0] and master fs[1]. */
  ghost predicate ManagerStep(stss: seq<StatefulSet>, fs: Fleets, e: ManagerEnv, gs: Fleets)
    requires |stss| == |fs| == 2
  {
    exists w, m :: ManagerStepBy(stss, fs, e, w, m, gs)
  }

  ghost predicate ManagerStepBy(stss: seq<StatefulSet>, fs: Fleets, e: ManagerEnv, w: Option<Decision>,
                                m: Option<Decision>, gs: Fleets)
    requires |stss| == |fs| == 2
  {
    && Part(ViewOf(stss[0], fs[0], e.workerRead, e.worker), e.worker.health, e.worker.deleted, w)
    && (if GoesOn(w) then Part(ViewOf(stss[1], fs[1], e.masterRead, e.master), e.master.health, e.master.deleted, m)
        else m.None?)
    && gs == [ApplyPart(fs[0], w, e.worker), ApplyPart(fs[1], m, e.master)]
  }

  /**
   The health answers are those of the manager checker: the workers' one covers the listed workers, the master's one,
   whose selector matches all managers, the listed workers and master.
   */
  ghost predicate Checked(fs: Fleets, e: ManagerEnv)
    requires |fs| == 2
  {
    && (e.worker.health.Healthy? ==> UpAreReady(fs[0]))
    && (e.master.health.Healthy? ==> UpAreReady(fs[0]) && UpAreReady(fs[1]))
  }

  ghost predicate DeletesWorker(stss: seq<StatefulSet>, fs: Fleets, e: ManagerEnv)
    requires |stss| == |fs| == 2
  {
    e.workerRead && Deletes(stss[0], fs[0], e.worker)
  }

  /** The workers' part is no obstacle: no update is pending, or no listed worker is outdated. */
  ghost predicate PassesWorkers(stss: seq<StatefulSet>, fs: Fleets, e: ManagerEnv)
    requires |stss| == |fs| == 2
  {
    e.workerRead && (stss[0].updateRevision != stss[0].currentRevision ==> e.worker.listed && !AnyStale(stss[0], fs[0]))
  }

  ghost predicate DeletesMaster(stss: seq<StatefulSet>, fs: Fleets, e: ManagerEnv)
    requires |stss| == |fs| == 2
  {
    PassesWorkers(stss, fs, e) && e.masterRead && Deletes(stss[1], fs[1], e.master)
  }

  /** A part that deletes dooms the topmost outdated pod, every other part changes nothing. */
  lemma PartIs(sts: StatefulSet, f: Fleet, readable: bool, env: Env, d: Option<Decision>)
    requires Part(ViewOf(sts, f, readable, env), env.health, env.deleted, d)
    ensures if readable && Deletes(sts, f, env)
      then d.Some? && d.value.Delete? && TopStale(sts, f, d.value.pod.ordinal) && UpAreReady(f)
        && ApplyPart(f, d, env) == Doomed(f, d.value.pod.ordinal)
      else ApplyPart(f, d, env) == f
    ensures GoesOn(d) <==>
      readable && (sts.updateRevision != sts.currentRevision ==> env.listed && !AnyStale(sts, f))
  {
    if readable && sts.updateRevision != sts.currentRevision {
      DeletionIs(sts, f, env, d.value);
      GuardsOfListing(sts, f);
      hide OwnedPods, Listed, NoneOutdated, AllReady, AnyStale, UpAreReady, TopStale;
    }
  }

  lemma ServingOnceReady(f: Fleet)
    requires UpAreReady(f)
    ensures AllServing(f) <==> !HasAbsent(f) && !AnyTerminating(f)
  {
    if !AllServing(f) {
      var k :| 0 <= k < |f| && !Serving(f[k]);
    }
  }

  lemma MarkedTopStays(stss: seq<StatefulSet>, fs: Fleets, i: nat, k: nat)
    requires GoodAcross(stss, fs) && i < |fs| && TopStale(stss[i], fs[i], k)
    ensures var gs := fs[i := Doomed(fs[i], k)]; forall j :: 0 <= j < |gs| ==> TopTerminates(stss[j], gs[j])
  {
    DeleteKeepsTop(stss[i], fs[i], k);
  }

  /**
   A manager call from a state with at most one pod down keeps it so iff it deletes no worker while a worker is absent
   or the master does not serve, and no master while a manager is absent or a worker terminates. The first half is not
   checked for the master, the second not for absent workers.
   */
  lemma ManagerCallSafeIff(stss: seq<StatefulSet>, fs: Fleets, e: ManagerEnv, gs: Fleets)
    requires |stss| == |fs| == 2 && GoodAcross(stss, fs) && Checked(fs, e) && ManagerStep(stss, fs, e, gs)
    ensures |gs| == 2 && forall i :: 0 <= i < 2 ==> TopTerminates(stss[i], gs[i])
    ensures OneDownAcross(gs) <==>
      && !(DeletesWorker(stss, fs, e) && (HasAbsent(fs[0]) || !AllServing(fs[1])))
      && !(DeletesMaster(stss, fs, e) && (HasAbsent(fs[0]) || HasAbsent(fs[1]) || AnyTerminating(fs[0])))
  {
    var w, m :| ManagerStepBy(stss, fs, e, w, m, gs);
    PartIs(stss[0], fs[0], e.workerRead, e.worker, w);
    if GoesOn(w) { PartIs(stss[1], fs[1], e.masterRead, e.master, m); }
    hide Part, Deletes, OneDownAcross, TopTerminates, HasAbsent, AllServing, AnyTerminating, UpAreReady, TopStale;
    if DeletesWorker(stss, fs, e) {
      WorkerDeletion(stss, fs, gs, w.value.pod.ordinal);
    } else if DeletesMaster(stss, fs, e) {
      MasterDeletion(stss, fs, gs, m.value.pod.ordinal);
    } else {
      assert gs == fs;
    }
  }

  lemma WorkerDeletion(stss: seq<StatefulSet>, fs: Fleets, gs: Fleets, k: nat)
    requires |stss| == |fs| == 2 && GoodAcross(stss, fs) && TopStale(stss[0], fs[0], k) && UpAreReady(fs[0])
    requires gs == [Doomed(fs[0], k), fs[1]]
    ensures forall i :: 0 <= i < 2 ==> TopTerminates(stss[i], gs[i])
    ensures OneDownAcross(gs) <==> !HasAbsent(fs[0]) && AllServing(fs[1])
  {
    assert gs == fs[0 := Doomed(fs[0], k)];
    DeleteSafeAcross(stss, fs, 0, k);
    MarkedTopStays(stss, fs, 0, k);
    hide OneDownAcross, TopTerminates, HasAbsent, AllServing;
  }

  lemma MasterDeletion(stss: seq<StatefulSet>, fs: Fleets, gs: Fleets, k: nat)
    requires |stss| == |fs| == 2 && GoodAcross(stss, fs) && TopStale(stss[1], fs[1], k)
    requires UpAreReady(fs[0]) && UpAreReady(fs[1]) && gs == [fs[0], Doomed(fs[1], k)]
    ensures forall i :: 0 <= i < 2 ==> TopTerminates(stss[i], gs[i])
    ensures OneDownAcross(gs) <==> !HasAbsent(fs[0]) && !HasAbsent(fs[1]) && !AnyTerminating(fs[0])
  {
    assert gs == fs[1 := Doomed(fs[1], k)];
    DeleteSafeAcross(stss, fs, 1, k);
    MarkedTopStays(stss, fs, 1, k);
    ServingOnceReady(fs[0]);
    hide OneDownAcross, TopTerminates, HasAbsent, AllServing, AnyTerminating;
  }

  // ----- Runs of the managers -----

  datatype ManagerEvent = ManagerCall(env: ManagerEnv) | Cluster(which: nat, event: Event)

  ghost predicate ManagerRun(stss: seq<StatefulSet>, states: seq<Fleets>, events: seq<ManagerEvent>) {
    && |stss| == 2 && |states| == |events| + 1 && (forall i :: 0 <= i < |states| ==> |states[i]| == 2)
    && forall i :: 0 <= i < |events| ==> ManagerMoves(stss, states[i], events[i], states[i + 1])
  }

  ghost predicate ManagerMoves(stss: seq<StatefulSet>, fs: Fleets, e: ManagerEvent, gs: Fleets)
    requires |stss| == |fs| == 2
  {
    match e
    case ManagerCall(env) => Checked(fs, env) && ManagerStep(stss, fs, env, gs)
    case Cluster(i, event) => ClusterStep(stss, fs, i, event, gs)
  }

  /** The call does not act on what it does not check. */
  ghost predicate Careful(stss: seq<StatefulSet>, fs: Fleets, e: ManagerEvent)
    requires |stss| == |fs| == 2
  {
    e.ManagerCall? ==>
      && !(DeletesWorker(stss, fs, e.env) && (HasAbsent(fs[0]) || !AllServing(fs[1])))
      && !(DeletesMaster(stss, fs, e.env) && (HasAbsent(fs[0]) || HasAbsent(fs[1]) || AnyTerminating(fs[0])))
  }

  /** Over any run, at most one manager is down in every state iff every call so far was careful. */
  lemma {:induction false} ManagersOneDownIff(stss: seq<StatefulSet>, states: seq<Fleets>, events: seq<ManagerEvent>,
                                              n: nat)
    requires ManagerRun(stss, states, events) && GoodAcross(stss, states[0]) && n < |states|
    ensures (forall i :: 0 <= i <= n ==> OneDownAcross(states[i])) <==>
      forall i :: 0 <= i < n ==> Careful(stss, states[i], events[i])
    ensures (forall i :: 0 <= i <= n ==> OneDownAcross(states[i])) ==> GoodAcross(stss, states[n])
  {
    hide Careful, OneDownAcross, ManagerStep, ClusterStep, TopTerminates;
    if n > 0 {
      ManagersOneDownIff(stss, states, events, n - 1);
      assert ManagerMoves(stss, states[n - 1], events[n - 1], states[n]);
      if GoodAcross(stss, states[n - 1]) {
        ManagerMoveSafeIff(stss, states[n - 1], events[n - 1], states[n]);
      }
    }
  }

  lemma ManagerMoveSafeIff(stss: seq<StatefulSet>, fs: Fleets, e: ManagerEvent, gs: Fleets)
    requires |stss| == |fs| == |gs| == 2 && GoodAcross(stss, fs) && ManagerMoves(stss, fs, e, gs)
    ensures OneDownAcross(gs) <==> Careful(stss, fs, e)
    ensures OneDownAcross(gs) ==> GoodAcross(stss, gs)
  {
    match e
    case ManagerCall(env) =>
      hide ManagerStep, OneDownAcross, TopTerminates, DeletesWorker, DeletesMaster, Checked;
      ManagerCallSafeIff(stss, fs, env, gs);
    case Cluster(i, event) =>
      ClusterStepGoodAcross(stss, fs, i, event, gs);
  }

  // ----- A worker and the master down at once -----

  const CALM := ManagerEnv(true, CLEAN, true, CLEAN)
  const BOTH_OLD: Fleets := [[Worker(0)], [Worker(0)]]
  const WORKER_DOOMED: Fleets := [[Up(0, true, true)], [Worker(0)]]
  const WORKER_GONE: Fleets := [[Absent], [Worker(0)]]
  const MASTER_DOOMED: Fleets := [[Absent], [Up(0, true, true)]]

  /** The part of a set in a call without failures. */
  lemma CleanPart(sts: StatefulSet, f: Fleet, d: Option<Decision>)
    requires sts.updateRevision != sts.currentRevision
    requires if AnyStale(sts, f)
      then d.Some? && d.value.Delete? && d.value.ok && d.value.pod.ordinal < |f| && UpAreReady(f)
        && TopStale(sts, f, d.value.pod.ordinal) && d.value.pod == PodAt(sts, f, d.value.pod.ordinal)
      else d == Some(AllUpdated)
    ensures Part(ViewOf(sts, f, true, CLEAN), Healthy, true, d)
  {
    hide OwnedPods, Listed;
    OwnedAreUp(sts, f);
    GuardsOfListing(sts, f);
    if AnyStale(sts, f) { assert Outdated(sts, d.value.pod); }
  }

  lemma OldPart(sts: StatefulSet)
    requires sts.updateRevision == 1 && sts.currentRevision == 0
    ensures Part(ViewOf(sts, [Worker(0)], true, CLEAN), Healthy, true, Some(Delete(PodAt(sts, [Worker(0)], 0), true)))
    ensures ApplyPart([Worker(0)], Some(Delete(PodAt(sts, [Worker(0)], 0), true)), CLEAN) == [Up(0, true, true)]
  {
    var f := [Worker(0)];
    assert Stale(sts, f[0]) && TopStale(sts, f, 0);
    CleanPart(sts, f, Some(Delete(PodAt(sts, f, 0), true)));
  }

  lemma GonePart(sts: StatefulSet)
    requires sts.updateRevision == 1 && sts.currentRevision == 0
    ensures Part(ViewOf(sts, [Absent], true, CLEAN), Healthy, true, Some(AllUpdated))
    ensures ApplyPart([Absent], Some(AllUpdated), CLEAN) == [Absent]
  {
    assert !AnyStale(sts, [Absent]);
    CleanPart(sts, [Absent], Some(AllUpdated));
  }

  /**
   The last outdated worker is deleted and vanishes; the listed workers count as updated and every listed manager is
   ready, so the next call deletes the master while the worker is still down.
   */
  lemma MasterFollowsAbsentWorker(stss: seq<StatefulSet>)
    requires |stss| == 2 && forall i :: 0 <= i < 2 ==> stss[i].updateRevision == 1 && stss[i].currentRevision == 0
    ensures ManagerRun(stss, [BOTH_OLD, WORKER_DOOMED, WORKER_GONE, MASTER_DOOMED],
                       [ManagerCall(CALM), Cluster(0, Vanish(0)), ManagerCall(CALM)])
    ensures GoodAcross(stss, BOTH_OLD) && !OneDownAcross(MASTER_DOOMED)
  {
    WorkerCall(stss);
    MasterCall(stss);
    WorkerVanishes(stss);
    SingletonsGood(stss, BOTH_OLD);
    TwoDown(MASTER_DOOMED, 0, 1);
    hide ManagerMoves, GoodAcross, OneDownAcross, ManagerRun;
    ThreeMoves(stss, BOTH_OLD, ManagerCall(CALM), WORKER_DOOMED, Cluster(0, Vanish(0)), WORKER_GONE, ManagerCall(CALM),
               MASTER_DOOMED);
  }

  lemma ThreeMoves(stss: seq<StatefulSet>, a: Fleets, d: ManagerEvent, b: Fleets, e: ManagerEvent, c: Fleets,
                   f: ManagerEvent, g: Fleets)
    requires |stss| == |a| == |b| == |c| == |g| == 2
    requires ManagerMoves(stss, a, d, b) && ManagerMoves(stss, b, e, c) && ManagerMoves(stss, c, f, g)
    ensures ManagerRun(stss, [a, b, c, g], [d, e, f])
  {
    hide ManagerMoves;
  }

  lemma SingletonsGood(stss: seq<StatefulSet>, fs: Fleets)
    requires |stss| == |fs| && forall i :: 0 <= i < |fs| ==> fs[i] == [Worker(0)]
    ensures GoodAcross(stss, fs)
  {}

  lemma TwoDown(fs: Fleets, i: nat, j: nat)
    requires i < j < |fs| && |fs[i]| > 0 && |fs[j]| > 0 && !Serving(fs[i][0]) && !Serving(fs[j][0])
    ensures !OneDownAcross(fs)
  {
    assert IsSlot(fs, i, 0) && IsSlot(fs, j, 0) && !ServingAt(fs, i, 0) && !ServingAt(fs, j, 0);
  }

  lemma WorkerVanishes(stss: seq<StatefulSet>)
    requires |stss| == 2
    ensures ManagerMoves(stss, WORKER_DOOMED, Cluster(0, Vanish(0)), WORKER_GONE)
  {
    var f := WORKER_DOOMED[0];
    assert f[0 := Absent] == WORKER_GONE[0];
    assert WORKER_GONE == WORKER_DOOMED[0 := WORKER_GONE[0]];
  }

  lemma WorkerCall(stss: seq<StatefulSet>)
    requires |stss| == 2 && forall i :: 0 <= i < 2 ==> stss[i].updateRevision == 1 && stss[i].currentRevision == 0
    ensures ManagerMoves(stss, BOTH_OLD, ManagerCall(CALM), WORKER_DOOMED)
  {
    hide Part, ApplyPart;
    OldPart(stss[0]);
    var w, m := Some(Delete(PodAt(stss[0], [Worker(0)], 0), true)), None;
    assert ApplyPart([Worker(0)], m, CLEAN) == [Worker(0)] by { NoPart([Worker(0)]); }
    assert ManagerStepBy(stss, BOTH_OLD, CALM, w, m, WORKER_DOOMED);
  }

  lemma NoPart(f: Fleet)
    ensures ApplyPart(f, None, CLEAN) == f
  {}

  lemma MasterCall(stss: seq<StatefulSet>)
    requires |stss| == 2 && forall i :: 0 <= i < 2 ==> stss[i].updateRevision == 1 && stss[i].currentRevision == 0
    ensures ManagerMoves(stss, WORKER_GONE, ManagerCall(CALM), MASTER_DOOMED)
  {
    hide Part, ApplyPart;
    GonePart(stss[0]);
    OldPart(stss[1]);
    var w, m := Some(AllUpdated), Some(Delete(PodAt(stss[1], [Worker(0)], 0), true));
    assert ManagerStepBy(stss, WORKER_GONE, CALM, w, m, MASTER_DOOMED);
  }

  // ----- Node pools -----

  /** The step of a call on the pools: the first one with an outdated pod gets the decision. */
  ghost predicate PoolStep(stss: seq<StatefulSet>, fs: Fleets, found: seq<bool>, env: Env, gs: Fleets)
    requires |stss| == |fs| == |found|
  {
    exists at: nat, d: Option<Decision> :: PoolStepAt(stss, fs, found, env, at, d, gs)
  }

  ghost predicate PoolStepAt(stss: seq<StatefulSet>, fs: Fleets, found: seq<bool>, env: Env, at: nat,
                             d: Option<Decision>, gs: Fleets)
    requires |stss| == |fs| == |found|
  {
    && at <= |fs| && (d.Some? <==> at < |fs|)
    && (forall j :: 0 <= j < at ==> PoolPasses(ViewOf(stss[j], fs[j], found[j], env)))
    && (if d.Some?
        then PoolDecides(stss[at], fs[at], found[at], env, d.value) && gs == fs[at := Apply(fs[at], d.value, env)]
        else gs == fs)
  }

  ghost predicate PoolDecides(sts: StatefulSet, f: Fleet, readable: bool, env: Env, d: Decision) {
    var v := ViewOf(sts, f, readable, env);
    UpdatePending(v) && !PoolPasses(v) && Decides(v.sts, v.listing, env.health, env.deleted, d)
  }

  /** The call deletes a pod of pool i: no earlier pool that can be read has an outdated pod. */
  ghost predicate DeletesIn(stss: seq<StatefulSet>, fs: Fleets, found: seq<bool>, env: Env, i: nat)
    requires |stss| == |fs| == |found|
  {
    && i < |fs| && found[i] && Deletes(stss[i], fs[i], env)
    && forall j :: 0 <= j < i ==>
         found[j] && stss[j].updateRevision != stss[j].currentRevision ==> !AnyStale(stss[j], fs[j])
  }

  lemma PoolPassesIff(sts: StatefulSet, f: Fleet, readable: bool, env: Env)
    ensures PoolPasses(ViewOf(sts, f, readable, env)) <==>
      (readable && sts.updateRevision != sts.currentRevision ==> env.listed && !AnyStale(sts, f))
  {
    GuardsOfListing(sts, f);
    hide OwnedPods, Listed, NoneOutdated, AnyStale, AllReady, UpAreReady;
  }

  lemma PoolDecisionIs(sts: StatefulSet, f: Fleet, readable: bool, env: Env, d: Decision)
    requires PoolDecides(sts, f, readable, env, d)
    ensures readable
    ensures if Deletes(sts, f, env)
      then d.Delete? && TopStale(sts, f, d.pod.ordinal) && UpAreReady(f) && Apply(f, d, env) == Doomed(f, d.pod.ordinal)
      else Apply(f, d, env) == f
  {
    DeletionIs(sts, f, env, d);
    hide OwnedPods, Listed, NoneOutdated, AnyStale, AllReady, UpAreReady, TopStale, PoolPasses;
  }

  /**
   A call on node pools from a state with at most one pod down keeps it so iff, when it deletes a pod, no ordinal of
   that pool is absent and every pod of the other pools serves.
   */
  lemma PoolCallSafeIff(stss: seq<StatefulSet>, fs: Fleets, found: seq<bool>, env: Env, gs: Fleets)
    requires |stss| == |fs| == |found| && GoodAcross(stss, fs) && PoolStep(stss, fs, found, env, gs)
    ensures |gs| == |fs| && forall i :: 0 <= i < |gs| ==> TopTerminates(stss[i], gs[i])
    ensures OneDownAcross(gs) <==>
      forall i: nat :: DeletesIn(stss, fs, found, env, i) ==> !HasAbsent(fs[i]) && OthersServe(fs, i)
  {
    var at: nat, d: Option<Decision> :| PoolStepAt(stss, fs, found, env, at, d, gs);
    OnlyDeletesAt(stss, fs, found, env, at);
    if at < |fs| {
      PoolDecisionIs(stss[at], fs[at], found[at], env, d.value);
      hide PoolDecides, Deletes, OneDownAcross, TopTerminates, HasAbsent, OthersServe, UpAreReady, TopStale, DeletesIn;
      if Deletes(stss[at], fs[at], env) {
        DeleteSafeAcross(stss, fs, at, d.value.pod.ordinal);
        MarkedTopStays(stss, fs, at, d.value.pod.ordinal);
      } else {
        assert gs == fs;
      }
    }
  }

  /** If a call deletes at all, it deletes in the first pool that does not pass. */
  lemma OnlyDeletesAt(stss: seq<StatefulSet>, fs: Fleets, found: seq<bool>, env: Env, at: nat)
    requires |stss| == |fs| == |found| && at <= |fs|
    requires forall j :: 0 <= j < at ==> PoolPasses(ViewOf(stss[j], fs[j], found[j], env))
    requires at < |fs| ==>
      var v := ViewOf(stss[at], fs[at], found[at], env); UpdatePending(v) && !PoolPasses(v)
    ensures forall i: nat :: DeletesIn(stss, fs, found, env, i) <==>
      i == at && at < |fs| && found[at] && Deletes(stss[at], fs[at], env)
  {
    hide OwnedPods, Listed, NoneOutdated, UpAreReady, AnyStale;
    forall i: nat
      ensures DeletesIn(stss, fs, found, env, i) <==>
        i == at && at < |fs| && found[at] && Deletes(stss[at], fs[at], env)
    {
      forall j | 0 <= j < |fs|
        ensures PoolPasses(ViewOf(stss[j], fs[j], found[j], env)) <==>
          (found[j] && stss[j].updateRevision != stss[j].currentRevision ==> env.listed && !AnyStale(stss[j], fs[j]))
      {
        PoolPassesIff(stss[j], fs[j], found[j], env);
      }
      hide PoolPasses;
    }
  }

  // ----- The indexer's health answer over all pools -----

  function UpAcross(fs: Fleets): nat {
    if fs == [] then 0 else UpAcross(fs[..|fs| - 1]) + UpCount(fs[|fs| - 1])
  }

  function SizeAcross(fs: Fleets): nat {
    if fs == [] then 0 else SizeAcross(fs[..|fs| - 1]) + |fs[|fs| - 1]|
  }

  lemma {:induction false} UpAcrossBounds(fs: Fleets)
    ensures UpAcross(fs) <= SizeAcross(fs)
    ensures UpAcross(fs) == SizeAcross(fs) <==> forall i :: 0 <= i < |fs| ==> !HasAbsent(fs[i])
  {
    hide HasAbsent, UpCount;
    if fs != [] {
      UpAcrossBounds(fs[..|fs| - 1]);
      AllUpCounts(fs[|fs| - 1]);
      var front := fs[..|fs| - 1];
      assert forall i :: 0 <= i < |front| ==> front[i] == fs[i];
    }
  }

  /** With one node count for all pools, a healthy indexer has no absent pod in any pool. */
  lemma IndexerVouchesAcross(fs: Fleets, red: bool, relocating: nat, initializing: nat, nodes: nat, i: nat)
    requires nodes <= UpAcross(fs) && i < |fs|
    requires IndexerHealth(red, relocating, initializing, nodes, SizeAcross(fs)).Healthy?
    ensures !HasAbsent(fs[i])
  {
    hide HasAbsent;
    UpAcrossBounds(fs);
  }

  /** Every listed pod of the other pools is ready and none of them terminates. */
  ghost predicate OthersReady(fs: Fleets, i: nat) {
    forall j :: 0 <= j < |fs| && j != i ==> UpAreReady(fs[j]) && !AnyTerminating(fs[j])
  }

  lemma ServeIffReady(fs: Fleets, i: nat)
    requires forall j :: 0 <= j < |fs| ==> !HasAbsent(fs[j])
    ensures OthersServe(fs, i) <==> OthersReady(fs, i)
  {
    forall j | 0 <= j < |fs| ensures AllServing(fs[j]) <==> UpAreReady(fs[j]) && !AnyTerminating(fs[j]) {
      ServingIff(fs[j]);
    }
    hide AllServing, UpAreReady, AnyTerminating, HasAbsent;
  }

  lemma ServingIff(f: Fleet)
    requires !HasAbsent(f)
    ensures AllServing(f) <==> UpAreReady(f) && !AnyTerminating(f)
  {
    if UpAreReady(f) {
      ServingOnceReady(f);
    } else {
      var k :| 0 <= k < |f| && f[k].Up? && !f[k].ready;
      assert !Serving(f[k]);
    }
  }

  /**
   With the answer of the indexer's health check, which counts the nodes of all pools, the only unsafe call is one that
   deletes a pod while a pod of another pool is not ready or terminates.
   */
  lemma IndexerPoolCallSafeIff(stss: seq<StatefulSet>, fs: Fleets, found: seq<bool>, env: Env, gs: Fleets, red: bool,
                               relocating: nat, initializing: nat, nodes: nat)
    requires |stss| == |fs| == |found| && GoodAcross(stss, fs) && PoolStep(stss, fs, found, env, gs)
    requires nodes <= UpAcross(fs) && env.health == IndexerHealth(red, relocating, initializing, nodes, SizeAcross(fs))
    ensures OneDownAcross(gs) <==> forall i: nat :: DeletesIn(stss, fs, found, env, i) ==> OthersReady(fs, i)
  {
    PoolCallSafeIff(stss, fs, found, env, gs);
    forall i: nat | DeletesIn(stss, fs, found, env, i)
      ensures !HasAbsent(fs[i]) && (OthersServe(fs, i) <==> OthersReady(fs, i))
    {
      forall j: nat | j < |fs| ensures !HasAbsent(fs[j]) {
        IndexerVouchesAcross(fs, red, relocating, initializing, nodes, j);
      }
      ServeIffReady(fs, i);
    }
    hide OneDownAcross, OthersServe, OthersReady, HasAbsent, DeletesIn, PoolStep;
  }

  // ----- Runs of the node pools -----

  datatype PoolEvent = PoolCall(found: seq<bool>, env: Env) | PoolCluster(which: nat, event: Event)

  ghost predicate PoolMoves(stss: seq<StatefulSet>, fs: Fleets, e: PoolEvent, gs: Fleets)
    requires |stss| == |fs|
  {
    match e
    case PoolCall(found, env) => |found| == |fs| && PoolStep(stss, fs, found, env, gs)
    case PoolCluster(i, event) => ClusterStep(stss, fs, i, event, gs)
  }

  ghost predicate PoolRun(stss: seq<StatefulSet>, states: seq<Fleets>, events: seq<PoolEvent>) {
    && |states| == |events| + 1 && (forall i :: 0 <= i < |states| ==> |states[i]| == |stss|)
    && forall i :: 0 <= i < |events| ==> PoolMoves(stss, states[i], events[i], states[i + 1])
  }

  /** The call deletes only while no pod of its pool is absent and the other pools serve. */
  ghost predicate PoolCareful(stss: seq<StatefulSet>, fs: Fleets, e: PoolEvent)
    requires |stss| == |fs|
  {
    e.PoolCall? && |e.found| == |fs| ==>
      forall i: nat :: DeletesIn(stss, fs, e.found, e.env, i) ==> !HasAbsent(fs[i]) && OthersServe(fs, i)
  }

  lemma PoolMoveSafeIff(stss: seq<StatefulSet>, fs: Fleets, e: PoolEvent, gs: Fleets)
    requires |stss| == |fs| && GoodAcross(stss, fs) && PoolMoves(stss, fs, e, gs)
    ensures OneDownAcross(gs) <==> PoolCareful(stss, fs, e)
    ensures OneDownAcross(gs) ==> GoodAcross(stss, gs)
  {
    match e
    case PoolCall(found, env) =>
      hide PoolStep, OneDownAcross, TopTerminates, DeletesIn, HasAbsent, OthersServe;
      PoolCallSafeIff(stss, fs, found, env, gs);
    case PoolCluster(i, event) =>
      ClusterStepGoodAcross(stss, fs, i, event, gs);
  }

  /** Over any run, at most one indexer pod of all pools is down in every state iff every call so far was careful. */
  lemma {:induction false} PoolsOneDownIff(stss: seq<StatefulSet>, states: seq<Fleets>, events: seq<PoolEvent>, n: nat)
    requires PoolRun(stss, states, events) && GoodAcross(stss, states[0]) && n < |states|
    ensures (forall i :: 0 <= i <= n ==> OneDownAcross(states[i])) <==>
      forall i :: 0 <= i < n ==> PoolCareful(stss, states[i], events[i])
    ensures (forall i :: 0 <= i <= n ==> OneDownAcross(states[i])) ==> GoodAcross(stss, states[n])
  {
    hide PoolCareful, OneDownAcross, PoolStep, ClusterStep, TopTerminates;
    if n > 0 {
      PoolsOneDownIff(stss, states, events, n - 1);
      assert PoolMoves(stss, states[n - 1], events[n - 1], states[n]);
      if GoodAcross(stss, states[n - 1]) {
        PoolMoveSafeIff(stss, states[n - 1], events[n - 1], states[n]);
      }
    }
  }

  // ----- A pod that has joined but is not ready -----

  const FIRST_JOINED: Fleets := [[Up(1, false, false)], [Worker(0)]]
  const SECOND_DOOMED: Fleets := [[Up(1, false, false)], [Up(0, true, true)]]

  /**
   Two node pools of one old pod each. The first pod is replaced; as soon as its successor has joined, so that the node
   count is complete, but before it is ready, the next call deletes the pod of the second pool: the first pool has no
   outdated pod left.
   */
  lemma UnreadyPoolPodIgnored(stss: seq<StatefulSet>)
    requires |stss| == 2 && forall i :: 0 <= i < 2 ==> stss[i].updateRevision == 1 && stss[i].currentRevision == 0
    ensures PoolRun(stss, [BOTH_OLD, WORKER_DOOMED, WORKER_GONE, FIRST_JOINED, SECOND_DOOMED],
                    [POOL_CALL, PoolCluster(0, Vanish(0)), PoolCluster(0, Recreate(0)), POOL_CALL])
    ensures GoodAcross(stss, BOTH_OLD) && UpAcross(FIRST_JOINED) == SizeAcross(FIRST_JOINED)
    ensures !OneDownAcross(SECOND_DOOMED)
  {
    SingletonsGood(stss, BOTH_OLD);
    JoinedCounts();
    TwoDown(SECOND_DOOMED, 0, 1);
    hide GoodAcross, OneDownAcross, UpAcross, SizeAcross, PoolRun, POOL_CALL;
    UnreadyPoolRun(stss);
  }

  lemma UnreadyPoolRun(stss: seq<StatefulSet>)
    requires |stss| == 2 && forall i :: 0 <= i < 2 ==> stss[i].updateRevision == 1 && stss[i].currentRevision == 0
    ensures PoolRun(stss, [BOTH_OLD, WORKER_DOOMED, WORKER_GONE, FIRST_JOINED, SECOND_DOOMED],
                    [POOL_CALL, PoolCluster(0, Vanish(0)), PoolCluster(0, Recreate(0)), POOL_CALL])
  {
    hide PoolMoves, PoolRun, POOL_CALL;
    FirstPoolCall(stss);
    FirstPoolReplaced(stss);
    SecondPoolCall(stss);
    FourMoves(stss, BOTH_OLD, POOL_CALL, WORKER_DOOMED, PoolCluster(0, Vanish(0)), WORKER_GONE,
              PoolCluster(0, Recreate(0)), FIRST_JOINED, POOL_CALL, SECOND_DOOMED);
  }

  lemma FourMoves(stss: seq<StatefulSet>, a: Fleets, d: PoolEvent, b: Fleets, e: PoolEvent, c: Fleets, f: PoolEvent,
                  g: Fleets, h: PoolEvent, z: Fleets)
    requires |stss| == |a| == |b| == |c| == |g| == |z|
    requires PoolMoves(stss, a, d, b) && PoolMoves(stss, b, e, c)
    requires PoolMoves(stss, c, f, g) && PoolMoves(stss, g, h, z)
    ensures PoolRun(stss, [a, b, c, g, z], [d, e, f, h])
  {
    hide PoolMoves;
  }

  const POOL_CALL := PoolCall([true, true], CLEAN)

  lemma JoinedCounts()
    ensures UpAcross(FIRST_JOINED) == SizeAcross(FIRST_JOINED)
  {
    UpAcrossBounds(FIRST_JOINED);
    assert !HasAbsent(FIRST_JOINED[0]) && !HasAbsent(FIRST_JOINED[1]);
  }

  lemma FirstPoolReplaced(stss: seq<StatefulSet>)
    requires |stss| == 2 && stss[0].updateRevision == 1
    ensures PoolMoves(stss, WORKER_DOOMED, PoolCluster(0, Vanish(0)), WORKER_GONE)
    ensures PoolMoves(stss, WORKER_GONE, PoolCluster(0, Recreate(0)), FIRST_JOINED)
  {
    assert WORKER_DOOMED[0][0 := Absent] == WORKER_GONE[0];
    assert WORKER_GONE == WORKER_DOOMED[0 := WORKER_GONE[0]];
    assert WORKER_GONE[0][0 := Up(1, false, false)] == FIRST_JOINED[0];
    assert FIRST_JOINED == WORKER_GONE[0 := FIRST_JOINED[0]];
  }

  /** A clean call decides to delete the one old pod of a pool. */
  lemma OldPoolDecides(sts: StatefulSet)
    requires sts.updateRevision == 1 && sts.currentRevision == 0
    ensures var d := Delete(PodAt(sts, [Worker(0)], 0), true);
      PoolDecides(sts, [Worker(0)], true, CLEAN, d) && Apply([Worker(0)], d, CLEAN) == [Up(0, true, true)]
  {
    var f := [Worker(0)];
    PoolPassesIff(sts, f, true, CLEAN);
    OldPart(sts);
    assert Stale(sts, f[0]);
    hide Decides, PoolPasses, Listed;
  }

  lemma FirstPoolCall(stss: seq<StatefulSet>)
    requires |stss| == 2 && forall i :: 0 <= i < 2 ==> stss[i].updateRevision == 1 && stss[i].currentRevision == 0
    ensures PoolMoves(stss, BOTH_OLD, POOL_CALL, WORKER_DOOMED)
  {
    var d := Delete(PodAt(stss[0], [Worker(0)], 0), true);
    OldPoolDecides(stss[0]);
    hide PoolDecides, PoolPasses, Apply;
    assert WORKER_DOOMED == BOTH_OLD[0 := Apply(BOTH_OLD[0], d, CLEAN)];
    assert PoolStepAt(stss, BOTH_OLD, [true, true], CLEAN, 0, Some(d), WORKER_DOOMED);
  }

  lemma SecondPoolCall(stss: seq<StatefulSet>)
    requires |stss| == 2 && forall i :: 0 <= i < 2 ==> stss[i].updateRevision == 1 && stss[i].currentRevision == 0
    ensures PoolMoves(stss, FIRST_JOINED, POOL_CALL, SECOND_DOOMED)
  {
    var d := Delete(PodAt(stss[1], [Worker(0)], 0), true);
    PoolPassesIff(stss[0], FIRST_JOINED[0], true, CLEAN);
    assert !AnyStale(stss[0], FIRST_JOINED[0]);
    OldPoolDecides(stss[1]);
    hide PoolDecides, PoolPasses, Apply;
    assert SECOND_DOOMED == FIRST_JOINED[1 := Apply(FIRST_JOINED[1], d, CLEAN)];
    assert PoolStepAt(stss, FIRST_JOINED, [true, true], CLEAN, 1, Some(d), SECOND_DOOMED);
  }
}
