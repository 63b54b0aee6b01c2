/**
 Quorum-safe rolling restarts. StatefulSets use the OnDelete strategy and the operator replaces pods itself: each
 call looks at the listed pods, waits while one of them is not ready or the cluster is unhealthy, and otherwise
 deletes the outdated pod with the highest ordinal.
 */
module Orchestrator {
  import opened Prelude
  import opened RestartStatus

  /** A listed pod: its ordinal, the uids that own it, its controller revision and its Ready condition. */
  datatype Pod = Pod(ordinal: nat, owners: seq<nat>, revision: nat, ready: bool)

  /** The StatefulSet fields the orchestrator reads. */
  datatype StatefulSet = StatefulSet(uid: nat, currentRevision: nat, updateRevision: nat)

  datatype Health = Healthy | Unhealthy | HealthError

  /** What a call did: nothing to do, done, waiting, failed, or it asked to delete a pod, with or without error. */
  datatype Decision = NoUpdate | AllUpdated | WaitForPod(waiting: Pod) | WaitForHealth | Failed
                    | Delete(pod: Pod, ok: bool)

  predicate Owns(sts: StatefulSet, p: Pod) { sts.uid in p.owners }

  function OwnedPods(sts: StatefulSet, pods: seq<Pod>): (r: seq<Pod>)
    ensures forall p :: p in r <==> p in pods && Owns(sts, p)
  {
    if pods == [] then [] else
    var front, last := OwnedPods(sts, pods[..|pods| - 1]), pods[|pods| - 1];
    assert forall p :: p in pods <==> p in pods[..|pods| - 1] || p == last;
    if Owns(sts, last) then front + [last] else front
  }

  predicate Outdated(sts: StatefulSet, p: Pod) { p.revision != sts.updateRevision }

  predicate NoneOutdated(sts: StatefulSet, pods: seq<Pod>) { forall p :: p in pods ==> !Outdated(sts, p) }

  predicate AllReady(pods: seq<Pod>) { forall p :: p in pods ==> p.ready }

  /** The decision, by its guards in the order in which they are tried; no listing means that listing pods failed. */
  ghost predicate Decides(sts: StatefulSet, listing: Option<seq<Pod>>, health: Health, deleted: bool, d: Decision) {
    if sts.updateRevision == sts.currentRevision then d == NoUpdate
    else if listing.None? then d == Failed else
    var owned := OwnedPods(sts, listing.value);
    if NoneOutdated(sts, owned) then d == AllUpdated
    else if !AllReady(owned) then d.WaitForPod? && d.waiting in owned && !d.waiting.ready
    else if health.HealthError? then d == Failed
    else if health.Unhealthy? then d == WaitForHealth
    else && d.Delete? && d.ok == deleted && d.pod in owned && Outdated(sts, d.pod)
         && forall p :: p in owned && Outdated(sts, p) ==> p.ordinal <= d.pod.ordinal
  }

  /** The call returns an error. */
  predicate IsError(d: Decision) { d.Failed? || (d.Delete? && !d.ok) }

  function Phase(d: Decision): RestartPhase {
    match d
    case NoUpdate => Idle
    case AllUpdated => Complete
    case _ => InProgress
  }

  method OrchestrateRestart(sts: StatefulSet, listing: Option<seq<Pod>>, health: Health, deleted: bool)
    returns (d: Decision)
    ensures Decides(sts, listing, health, deleted, d)
  {
    if sts.updateRevision == sts.currentRevision { return NoUpdate; }
    if listing.None? { return Failed; }
    var pods := listing.value;

    var ownedPods: seq<Pod> := [];
    for i := 0 to |pods|
      invariant ownedPods == OwnedPods(sts, pods[..i])
    {
      assert pods[..i + 1][..i] == pods[..i];
      if sts.uid in pods[i].owners { ownedPods := ownedPods + [pods[i]]; }
    }
    assert pods[..|pods|] == pods;

    var outdatedPods: seq<Pod> := [];
    for i := 0 to |ownedPods|
      invariant forall p :: p in outdatedPods <==> p in ownedPods[..i] && Outdated(sts, p)
    {
      assert ownedPods[..i + 1] == ownedPods[..i] + [ownedPods[i]];
      if ownedPods[i].revision != sts.updateRevision { outdatedPods := outdatedPods + [ownedPods[i]]; }
    }
    assert ownedPods[..|ownedPods|] == ownedPods;
    if |outdatedPods| == 0 { return AllUpdated; }
    assert outdatedPods[0] in outdatedPods;

    for i := 0 to |ownedPods|
      invariant forall j :: 0 <= j < i ==> ownedPods[j].ready
    {
      if !ownedPods[i].ready { return WaitForPod(ownedPods[i]); }
    }
    if health.HealthError? { return Failed; }
    if health.Unhealthy? { return WaitForHealth; }

    d := Delete(First(outdatedPods), deleted);
  }

  /** The first pod after sorting by descending ordinal. */
  function First(pods: seq<Pod>): (p: Pod)
    requires pods != []
    ensures p in pods && forall q :: q in pods ==> q.ordinal <= p.ordinal
  {
    if |pods| == 1 then pods[0] else
    var rest := First(pods[1..]);
    assert pods == [pods[0]] + pods[1..];
    if rest.ordinal > pods[0].ordinal then rest else pods[0]
  }

  // ----- Several StatefulSets in one call -----

  /** A StatefulSet that cannot be read, does not exist, or is found with the pods a list call returns for it. */
  datatype View = Unreadable | NotThere | Found(sts: StatefulSet, listing: Option<seq<Pod>>)

  predicate UpdatePending(v: View) { v.Found? && v.sts.updateRevision != v.sts.currentRevision }

  /** Nothing keeps the call from going on to the next pool. */
  ghost predicate PoolPasses(v: View) {
    UpdatePending(v) ==> v.listing.Some? && NoneOutdated(v.sts, OwnedPods(v.sts, v.listing.value))
  }

  /** Node pools: the first pool that does not pass gets the call's one decision; unreadable pools are passed over. */
  method OrchestrateNodePools(pools: seq<View>, health: Health, deleted: bool) returns (at: nat, d: Option<Decision>)
    ensures at <= |pools| && forall j :: 0 <= j < at ==> PoolPasses(pools[j])
    ensures d.Some? <==> at < |pools|
    ensures d.Some? ==>
      UpdatePending(pools[at]) && !PoolPasses(pools[at])
      && Decides(pools[at].sts, pools[at].listing, health, deleted, d.value)
  {
    for i := 0 to |pools|
      invariant forall j :: 0 <= j < i ==> PoolPasses(pools[j])
    {
      if pools[i].Found? && pools[i].sts.updateRevision != pools[i].sts.currentRevision {
        var r := OrchestrateRestart(pools[i].sts, pools[i].listing, health, deleted);
        if r.Failed? || Phase(r) == InProgress { return i, Some(r); }
      }
    }
    return |pools|, None;
  }

  /** The part of one StatefulSet in a manager call: an error, nothing to do, or a decision. */
  ghost predicate Part(v: View, health: Health, deleted: bool, d: Option<Decision>) {
    match v
    case Unreadable => d == Some(Failed)
    case NotThere => d.None?
    case Found(sts, listing) =>
      if sts.updateRevision == sts.currentRevision then d.None?
      else d.Some? && Decides(sts, listing, health, deleted, d.value)
  }

  /** The workers' part lets the call go on to the master. */
  predicate GoesOn(d: Option<Decision>) { d.None? || d.value.AllUpdated? }

  /** The call goes on past a set that does not exist, needs no update or lists no outdated pod, and past no other. */
  lemma GoesOnIff(v: View, health: Health, deleted: bool, d: Option<Decision>)
    requires Part(v, health, deleted, d)
    ensures GoesOn(d) <==>
      || v.NotThere?
      || (v.Found? && v.sts.updateRevision == v.sts.currentRevision)
      || (v.Found? && v.listing.Some? && forall p :: p in v.listing.value && v.sts.uid in p.owners ==>
            p.revision == v.sts.updateRevision)
  {}

  method OrchestratePart(v: View, health: Health, deleted: bool) returns (d: Option<Decision>)
    ensures Part(v, health, deleted, d)
  {
    match v
    case Unreadable => return Some(Failed);
    case NotThere => return None;
    case Found(sts, listing) =>
      if sts.updateRevision == sts.currentRevision { return None; }
      var r := OrchestrateRestart(sts, listing, health, deleted);
      return Some(r);
  }

  /** Workers first, then the master, which has its part only if nothing about the workers is left to do or failed. */
  method OrchestrateManager(worker: View, workerHealth: Health, workerDeleted: bool, master: View, masterHealth: Health,
                            masterDeleted: bool) returns (w: Option<Decision>, m: Option<Decision>)
    ensures Part(worker, workerHealth, workerDeleted, w)
    ensures if GoesOn(w) then Part(master, masterHealth, masterDeleted, m) else m.None?
  {
    m := None;
    w := OrchestratePart(worker, workerHealth, workerDeleted);
    if w.Some? && (IsError(w.value) || Phase(w.value) == InProgress) { return; }
    m := OrchestratePart(master, masterHealth, masterDeleted);
  }

  // ----- Runs: the operator, the StatefulSet controller and the kubelet -----

  /** One ordinal of the StatefulSet. */
  datatype Slot = Absent | Up(revision: nat, ready: bool, terminating: bool)

  type Fleet = seq<Slot>

  /** What a call meets: whether pods can be listed, the health answer, whether the deletion ends well or applies. */
  datatype Env = Env(listed: bool, health: Health, deleted: bool, applied: bool)

  /** A call of the orchestrator, or a step of the cluster. */
  datatype Event = Call(env: Env) | Recreate(k: nat) | BecomeReady(k: nat) | LoseReady(k: nat) | Vanish(k: nat)

  /** The pods a list call returns. */
  function Listed(uid: nat, f: Fleet): (r: seq<Pod>)
    ensures forall p :: p in r ==>
      p.ordinal < |f| && f[p.ordinal].Up? && p == Pod(p.ordinal, [uid], f[p.ordinal].revision, f[p.ordinal].ready)
    ensures forall k :: 0 <= k < |f| && f[k].Up? ==> Pod(k, [uid], f[k].revision, f[k].ready) in r
  {
    if f == [] then [] else
    var n := |f| - 1;
    var front := Listed(uid, f[..n]);
    match f[n]
    case Absent => front
    case Up(revision, ready, _) =>
      var r := front + [Pod(n, [uid], revision, ready)];
      assert r[|front|] == Pod(n, [uid], revision, ready);
      r
  }

  /** The deletion decided for a fleet marks the pod as terminating; deleting it again changes nothing. */
  ghost predicate CallStep(sts: StatefulSet, f: Fleet, env: Env, g: Fleet) {
    exists d :: Decides(sts, Listing(sts, f, env), env.health, env.deleted, d) && g == Apply(f, d, env)
  }

  function Listing(sts: StatefulSet, f: Fleet, env: Env): Option<seq<Pod>> {
    if env.listed then Some(Listed(sts.uid, f)) else None
  }

  /** A deletion that reports an error may still have been applied. */
  function Apply(f: Fleet, d: Decision, env: Env): Fleet {
    if d.Delete? && (d.ok || env.applied) && d.pod.ordinal < |f| && f[d.pod.ordinal].Up?
    then f[d.pod.ordinal := f[d.pod.ordinal].(terminating := true)] else f
  }

  /** Pods lose readiness only while terminating: nothing but the operator takes a pod down. */
  ghost predicate Step(sts: StatefulSet, f: Fleet, e: Event, g: Fleet) {
    match e
    case Call(env) => CallStep(sts, f, env, g)
    case Recreate(k) => k < |f| && f[k].Absent? && g == f[k := Up(sts.updateRevision, false, false)]
    case BecomeReady(k) => k < |f| && f[k].Up? && !f[k].terminating && g == f[k := f[k].(ready := true)]
    case LoseReady(k) => k < |f| && f[k].Up? && f[k].terminating && g == f[k := f[k].(ready := false)]
    case Vanish(k) => k < |f| && f[k].Up? && f[k].terminating && g == f[k := Absent]
  }

  predicate Serving(s: Slot) { s.Up? && s.ready && !s.terminating }

  predicate Stale(sts: StatefulSet, s: Slot) { s.Up? && s.revision != sts.updateRevision }

  /** At most one ordinal is not serving. */
  ghost predicate OneDown(f: Fleet) {
    forall i, j :: 0 <= i < j < |f| ==> Serving(f[i]) || Serving(f[j])
  }

  /** Terminating pods are outdated and nothing outdated lies above them. */
  ghost predicate TopTerminates(sts: StatefulSet, f: Fleet) {
    forall i, j :: 0 <= i < |f| && 0 <= j < |f| && f[i].Up? && f[i].terminating ==>
      Stale(sts, f[i]) && (Stale(sts, f[j]) ==> j <= i)
  }

  ghost predicate Good(sts: StatefulSet, f: Fleet) { OneDown(f) && TopTerminates(sts, f) }

  predicate HasAbsent(f: Fleet) { exists k :: 0 <= k < |f| && f[k].Absent? }

  /** The call asks for the deletion of a pod. */
  ghost predicate Asks(sts: StatefulSet, f: Fleet, env: Env) {
    && sts.updateRevision != sts.currentRevision && env.listed && env.health.Healthy?
    && AnyStale(sts, f) && UpAreReady(f)
  }

  /** The call deletes a pod. */
  ghost predicate Deletes(sts: StatefulSet, f: Fleet, env: Env) { Asks(sts, f, env) && (env.deleted || env.applied) }

  predicate AnyStale(sts: StatefulSet, f: Fleet) { exists k :: 0 <= k < |f| && Stale(sts, f[k]) }

  predicate UpAreReady(f: Fleet) { forall k :: 0 <= k < |f| && f[k].Up? ==> f[k].ready }

  /** k is the topmost outdated ordinal. */
  ghost predicate TopStale(sts: StatefulSet, f: Fleet, k: nat) {
    && k < |f| && Stale(sts, f[k])
    && forall j :: 0 <= j < |f| && Stale(sts, f[j]) ==> j <= k
  }

  function PodAt(sts: StatefulSet, f: Fleet, k: nat): Pod
    requires k < |f| && f[k].Up?
  {
    Pod(k, [sts.uid], f[k].revision, f[k].ready)
  }

  /** The owned pods of the listing are the slots that are up. */
  lemma OwnedAreUp(sts: StatefulSet, f: Fleet)
    ensures forall p :: p in OwnedPods(sts, Listed(sts.uid, f)) ==>
      p.ordinal < |f| && f[p.ordinal].Up? && p == PodAt(sts, f, p.ordinal)
    ensures forall k :: 0 <= k < |f| && f[k].Up? ==> PodAt(sts, f, k) in OwnedPods(sts, Listed(sts.uid, f))
  {
    forall k | 0 <= k < |f| && f[k].Up? ensures PodAt(sts, f, k) in OwnedPods(sts, Listed(sts.uid, f)) {
      assert PodAt(sts, f, k) in Listed(sts.uid, f);
      assert [sts.uid][0] == sts.uid;
    }
  }

  lemma GuardsOfListing(sts: StatefulSet, f: Fleet)
    ensures var owned := OwnedPods(sts, Listed(sts.uid, f));
      && (NoneOutdated(sts, owned) <==> !AnyStale(sts, f))
      && (AllReady(owned) <==> UpAreReady(f))
  {
    hide OwnedPods, Listed;
    OwnedAreUp(sts, f);
    var owned := OwnedPods(sts, Listed(sts.uid, f));
    forall k | 0 <= k < |f| && f[k].Up? ensures PodAt(sts, f, k) in owned {}
    if AnyStale(sts, f) {
      var k :| 0 <= k < |f| && Stale(sts, f[k]);
      assert Outdated(sts, PodAt(sts, f, k));
    }
    if !UpAreReady(f) {
      var k :| 0 <= k < |f| && f[k].Up? && !f[k].ready;
      assert !PodAt(sts, f, k).ready;
    }
  }

  /** A call asks for a deletion iff its guards hold, and then for that of the topmost outdated pod. */
  lemma DeletionIs(sts: StatefulSet, f: Fleet, env: Env, d: Decision)
    requires Decides(sts, Listing(sts, f, env), env.health, env.deleted, d)
    ensures d.Delete? <==> Asks(sts, f, env)
    ensures d.Delete? ==> TopStale(sts, f, d.pod.ordinal) && d.ok == env.deleted
    ensures d.WaitForPod? ==>
      var k := d.waiting.ordinal; k < |f| && f[k].Up? && !f[k].ready && d.waiting == PodAt(sts, f, k)
  {
    hide OwnedPods, Listed;
    GuardsOfListing(sts, f);
    hide NoneOutdated, AllReady, AnyStale, UpAreReady;
    if d.WaitForPod? { OwnedAreUp(sts, f); }
    if d.Delete? {
      OwnedAreUp(sts, f);
      assert Stale(sts, f[d.pod.ordinal]);
      forall k | 0 <= k < |f| && Stale(sts, f[k]) ensures k <= d.pod.ordinal {
        assert Outdated(sts, PodAt(sts, f, k));
      }
    }
  }

  /** The reported phase: idle without an update, complete once nothing outdated is listed, in progress otherwise. */
  lemma PhaseIs(sts: StatefulSet, f: Fleet, env: Env, d: Decision)
    requires Decides(sts, Listing(sts, f, env), env.health, env.deleted, d)
    ensures Phase(d) == Idle <==> sts.updateRevision == sts.currentRevision
    ensures Phase(d) == Complete <==> sts.updateRevision != sts.currentRevision && env.listed && !AnyStale(sts, f)
  {
    hide OwnedPods, Listed;
    GuardsOfListing(sts, f);
    hide NoneOutdated, AllReady, AnyStale;
  }

  /** Cluster steps never take a second pod down. */
  lemma ClusterStepGood(sts: StatefulSet, f: Fleet, e: Event, g: Fleet)
    requires Good(sts, f) && !e.Call? && Step(sts, f, e, g)
    ensures Good(sts, g) && |g| == |f|
  {}

  lemma DeleteKeepsTop(sts: StatefulSet, f: Fleet, k: nat)
    requires TopTerminates(sts, f) && TopStale(sts, f, k)
    ensures TopTerminates(sts, f[k := f[k].(terminating := true)])
  {}

  /** Deleting the topmost outdated pod of a ready fleet is safe iff no ordinal is absent. */
  lemma DeleteSafeIff(sts: StatefulSet, f: Fleet, k: nat)
    requires Good(sts, f) && TopStale(sts, f, k) && UpAreReady(f)
    ensures OneDown(f[k := f[k].(terminating := true)]) <==> !HasAbsent(f)
  {
    var g := f[k := f[k].(terminating := true)];
    assert !Serving(g[k]);
    forall j | 0 <= j < |f| && j != k && !Serving(f[j]) ensures f[j].Absent? {}
    if HasAbsent(f) {
      var j :| 0 <= j < |f| && f[j].Absent?;
      assert !Serving(g[j]) && j != k;
    }
  }

  /** From a good fleet, a call keeps at most one pod down iff it does not delete while an ordinal is absent. */
  lemma CallSafeIff(sts: StatefulSet, f: Fleet, env: Env, g: Fleet)
    requires Good(sts, f) && CallStep(sts, f, env, g)
    ensures |g| == |f| && TopTerminates(sts, g)
    ensures OneDown(g) <==> !(Deletes(sts, f, env) && HasAbsent(f))
  {
    var d :| Decides(sts, Listing(sts, f, env), env.health, env.deleted, d) && g == Apply(f, d, env);
    DeletionIs(sts, f, env, d);
    hide Decides, OneDown, TopTerminates, UpAreReady, HasAbsent;
    if d.Delete? && (d.ok || env.applied) {
      DeleteKeepsTop(sts, f, d.pod.ordinal);
      DeleteSafeIff(sts, f, d.pod.ordinal);
    }
  }

  /** The health check vouches for the fleet: it is healthy only if every ordinal is present. */
  ghost predicate Vouched(f: Fleet, e: Event) { e.Call? && e.env.health.Healthy? ==> !HasAbsent(f) }

  ghost predicate IsRun(sts: StatefulSet, states: seq<Fleet>, events: seq<Event>) {
    && |states| == |events| + 1
    && forall i :: 0 <= i < |events| ==> Step(sts, states[i], events[i], states[i + 1])
  }

  /**
   No two pods are ever down at once, over any run from a good fleet whose calls find the cluster healthy only
   when all its nodes are present.
   */
  lemma {:induction false} NeverTwoDown(sts: StatefulSet, states: seq<Fleet>, events: seq<Event>, i: nat)
    requires IsRun(sts, states, events) && Good(sts, states[0]) && i < |states|
    requires forall j :: 0 <= j < |events| ==> Vouched(states[j], events[j])
    ensures Good(sts, states[i])
  {
    if i > 0 {
      NeverTwoDown(sts, states, events, i - 1);
      var e := events[i - 1];
      assert Step(sts, states[i - 1], e, states[i]) && Vouched(states[i - 1], e);
      if e.Call? {
        CallSafeIff(sts, states[i - 1], e.env, states[i]);
      } else {
        ClusterStepGood(sts, states[i - 1], e, states[i]);
      }
    }
  }

  // ----- The two health checkers -----

  /** Indexer: not red, no shard movement, and at least the desired number of nodes. */
  function IndexerHealth(red: bool, relocating: nat, initializing: nat, nodes: nat, desired: nat): (h: Health)
    ensures h.Healthy? <==> !red && relocating == 0 && initializing == 0 && nodes >= desired
  {
    if red || relocating > 0 || initializing > 0 || nodes < desired then Unhealthy else Healthy
  }

  function UpCount(f: Fleet): (n: nat)
    ensures n <= |f|
  {
    if f == [] then 0 else UpCount(f[..|f| - 1]) + if f[|f| - 1].Up? then 1 else 0
  }

  lemma {:induction false} AllUpCounts(f: Fleet)
    ensures UpCount(f) == |f| <==> !HasAbsent(f)
  {
    if f != [] {
      var n := |f| - 1;
      AllUpCounts(f[..n]);
      if HasAbsent(f) {
        var k :| 0 <= k < |f| && f[k].Absent?;
        assert k < n ==> f[..n][k].Absent?;
      }
    }
  }

  /** Every node of the indexer cluster runs in a pod that is up, so a healthy indexer vouches for its fleet. */
  lemma IndexerVouches(f: Fleet, red: bool, relocating: nat, initializing: nat, nodes: nat)
    requires nodes <= UpCount(f)
    ensures IndexerHealth(red, relocating, initializing, nodes, |f|).Healthy? ==> !HasAbsent(f)
  {
    AllUpCounts(f);
  }

  /** Managers: every listed pod is ready. */
  method ManagerHealth(pods: seq<Pod>) returns (h: Health)
    ensures h == if AllReady(pods) then Healthy else Unhealthy
  {
    for i := 0 to |pods|
      invariant forall j :: 0 <= j < i ==> pods[j].ready
    {
      if !pods[i].ready { return Unhealthy; }
    }
    return Healthy;
  }

  /** A call that meets no failure and a healthy cluster. */
  const CLEAN := Env(true, Healthy, true, true)

  function Worker(revision: nat): Slot { Up(revision, true, false) }

  const ALL_WORKERS: Fleet := [Worker(0), Worker(0), Worker(0)]
  const TOP_DELETED: Fleet := [Worker(0), Worker(0), Up(0, true, true)]
  const TOP_GONE: Fleet := [Worker(0), Worker(0), Absent]
  const NEXT_DELETED: Fleet := [Worker(0), Up(0, true, true), Absent]

  /**
   The manager checker does not vouch for a pod that is gone: three ready workers on an old revision, the top one
   is deleted and vanishes, and the next call finds every listed worker ready and deletes another one.
   */
  lemma TwoWorkersDown(sts: StatefulSet)
    requires sts.updateRevision == 1 && sts.currentRevision == 0
    ensures IsRun(sts, [ALL_WORKERS, TOP_DELETED, TOP_GONE, NEXT_DELETED], [Call(CLEAN), Vanish(2), Call(CLEAN)])
    ensures Good(sts, ALL_WORKERS) && AllReady(Listed(sts.uid, TOP_GONE)) && !OneDown(NEXT_DELETED)
  {
    FirstDelete(sts);
    SecondDelete(sts);
    TopVanishes(sts);
    AllWorkersGood(sts);
    hide Step, Listed, Good, AllReady, ALL_WORKERS, TOP_DELETED, TOP_GONE, CLEAN;
    ThreeSteps(sts, ALL_WORKERS, Call(CLEAN), TOP_DELETED, Vanish(2), TOP_GONE, Call(CLEAN), NEXT_DELETED);
    assert !Serving(NEXT_DELETED[1]) && !Serving(NEXT_DELETED[2]);
  }

  lemma TopVanishes(sts: StatefulSet)
    ensures Step(sts, TOP_DELETED, Vanish(2), TOP_GONE)
  {
    assert TOP_DELETED[2 := Absent] == TOP_GONE;
  }

  lemma ThreeSteps(sts: StatefulSet, a: Fleet, d: Event, b: Fleet, e: Event, c: Fleet, f: Event, g: Fleet)
    requires Step(sts, a, d, b) && Step(sts, b, e, c) && Step(sts, c, f, g)
    ensures IsRun(sts, [a, b, c, g], [d, e, f])
  {
    hide Step;
  }

  lemma AllWorkersGood(sts: StatefulSet)
    requires sts.updateRevision == 1
    ensures Good(sts, ALL_WORKERS) && AllReady(Listed(sts.uid, TOP_GONE))
  {}

  lemma FirstDelete(sts: StatefulSet)
    requires sts.updateRevision == 1 && sts.currentRevision == 0
    ensures Step(sts, ALL_WORKERS, Call(CLEAN), TOP_DELETED)
  {
    hide CallStep;
    TopCall(sts, ALL_WORKERS, 2);
    assert ALL_WORKERS[2 := Up(0, true, true)] == TOP_DELETED;
  }

  lemma SecondDelete(sts: StatefulSet)
    requires sts.updateRevision == 1 && sts.currentRevision == 0
    ensures Step(sts, TOP_GONE, Call(CLEAN), NEXT_DELETED)
  {
    hide CallStep;
    TopCall(sts, TOP_GONE, 1);
    assert TOP_GONE[1 := Up(0, true, true)] == NEXT_DELETED;
  }

  /** A healthy call on ready pods deletes the topmost outdated one. */
  lemma TopCall(sts: StatefulSet, f: Fleet, k: nat)
    requires sts.updateRevision != sts.currentRevision && TopStale(sts, f, k) && UpAreReady(f)
    ensures CallStep(sts, f, CLEAN, f[k := f[k].(terminating := true)])
  {
    hide OwnedPods, Listed;
    OwnedAreUp(sts, f);
    GuardsOfListing(sts, f);
    var d := Delete(PodAt(sts, f, k), true);
    assert Outdated(sts, d.pod);
    assert Decides(sts, Listing(sts, f, CLEAN), Healthy, true, d);
  }

  // ----- Progress -----

  function StaleCount(sts: StatefulSet, f: Fleet): nat {
    if f == [] then 0 else StaleCount(sts, f[..|f| - 1]) + if Stale(sts, f[|f| - 1]) then 1 else 0
  }

  lemma {:induction false} StaleCountUpdate(sts: StatefulSet, f: Fleet, k: nat, s: Slot)
    requires k < |f|
    ensures StaleCount(sts, f[k := s]) + (if Stale(sts, f[k]) then 1 else 0)
         == StaleCount(sts, f) + (if Stale(sts, s) then 1 else 0)
  {
    var n := |f| - 1;
    if k == n {
      assert f[k := s][..n] == f[..n];
    } else {
      StaleCountUpdate(sts, f[..n], k, s);
      assert f[k := s][..n] == f[..n][k := s];
    }
  }

  function Vanishes(events: seq<Event>): nat {
    if events == [] then 0 else Vanishes(events[..|events| - 1]) + if events[|events| - 1].Vanish? then 1 else 0
  }

  lemma ClusterStepKeepsTop(sts: StatefulSet, f: Fleet, e: Event, g: Fleet)
    requires TopTerminates(sts, f) && !e.Call? && Step(sts, f, e, g)
    ensures |g| == |f| && TopTerminates(sts, g)
  {}

  lemma StepStaleCount(sts: StatefulSet, f: Fleet, e: Event, g: Fleet)
    requires TopTerminates(sts, f) && Step(sts, f, e, g)
    ensures |g| == |f| && TopTerminates(sts, g)
    ensures StaleCount(sts, g) + (if e.Vanish? then 1 else 0) == StaleCount(sts, f)
  {
    if e.Call? {
      hide Decides;
      var d :| Decides(sts, Listing(sts, f, e.env), e.env.health, e.env.deleted, d) && g == Apply(f, d, e.env);
      DeletionIs(sts, f, e.env, d);
      if d.Delete? && (d.ok || e.env.applied) {
        var k := d.pod.ordinal;
        DeleteKeepsTop(sts, f, k);
        StaleCountUpdate(sts, f, k, g[k]);
      }
    } else {
      ClusterStepKeepsTop(sts, f, e, g);
      if e.Vanish? { assert Stale(sts, f[e.k]); }
      hide TopTerminates;
      StaleCountUpdate(sts, f, e.k, g[e.k]);
    }
  }

  /** Every pod is replaced at most once: replaced plus still outdated pods always add up to the initial outdated. */
  lemma {:induction false} EachPodReplacedOnce(sts: StatefulSet, states: seq<Fleet>, events: seq<Event>, i: nat)
    requires IsRun(sts, states, events) && TopTerminates(sts, states[0]) && i <= |events|
    ensures TopTerminates(sts, states[i])
    ensures Vanishes(events[..i]) + StaleCount(sts, states[i]) == StaleCount(sts, states[0])
  {
    if i > 0 {
      EachPodReplacedOnce(sts, states, events, i - 1);
      assert Step(sts, states[i - 1], events[i - 1], states[i]);
      StepStaleCount(sts, states[i - 1], events[i - 1], states[i]);
      assert events[..i][..i - 1] == events[..i - 1];
    }
  }
}
