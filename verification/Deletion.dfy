/**
 Finalizer and ordered deletion. A live cluster gets its finalizer in a pass of its own before any pass creates
 resources; a cluster marked for deletion keeps it until every listed resource has been deleted, in a fixed order that
 stops at the first failure and starts over in the next pass.
 */
module Deletion {
  import opened Prelude
  import opened ResourceNames

  /** How deleting one resource ends: gone (deleted or not found), or an error that may still have deleted it. */
  datatype DeleteOutcome = Gone | DeleteFails(applied: bool)

  /** How updating the cluster object ends. */
  datatype UpdateOutcome = Updated | UpdateFails(applied: bool)

  /** What a cleanup leaves: the resources still present and how many deletions of the list succeeded. */
  datatype Cleanup = Cleanup(present: set<Resource>, done: nat)

  function Members(list: seq<Resource>): set<Resource> { set r | r in list }

  /** Deletes list[k..] in order, stopping at the first failure. */
  function CleanupFrom(list: seq<Resource>, present: set<Resource>, script: seq<DeleteOutcome>, k: nat): (c: Cleanup)
    requires |script| == |list| && k <= |list|
    ensures k <= c.done <= |list|
    decreases |list| - k
  {
    if k == |list| then Cleanup(present, k)
    else match script[k]
      case Gone => CleanupFrom(list, present - {list[k]}, script, k + 1)
      case DeleteFails(applied) => Cleanup(if applied then present - {list[k]} else present, k)
  }

  /** The cluster object: its deletion mark, the operator's finalizer, and whether others hold finalizers on it. */
  datatype ClusterObject = Missing | Live(finalizer: bool, others: bool) | Deleting(finalizer: bool, others: bool)

  datatype World = World(cluster: ClusterObject, present: set<Resource>)

  /** The cluster with its namespace and name, and what exists in the Kubernetes cluster. */
  class ClusterController {
    const namespace: string
    const name: string
    var cluster: ClusterObject
    var present: set<Resource>

    constructor (namespace: string, name: string, present: set<Resource>)
      ensures this.namespace == namespace && this.name == name
      ensures cluster == Live(false, false) && this.present == present
    {
      this.namespace, this.name := namespace, name;
      this.cluster, this.present := Live(false, false), present;
    }

    /** One of the deletion loops: the resources list[from..to]. */
    method DeleteRange(list: seq<Resource>, script: seq<DeleteOutcome>, from: nat, to: nat) returns (ok: bool)
      requires |script| == |list| && from <= to <= |list|
      modifies this`present
      ensures ok ==> CleanupFrom(list, old(present), script, from) == CleanupFrom(list, present, script, to)
      ensures !ok ==>
        && CleanupFrom(list, old(present), script, from).present == present
        && CleanupFrom(list, old(present), script, from).done < to
    {
      for k := from to to
        invariant CleanupFrom(list, old(present), script, from) == CleanupFrom(list, present, script, k)
      {
        match script[k]
        case Gone => present := present - {list[k]};
        case DeleteFails(applied) =>
          if applied { present := present - {list[k]}; }
          return false;
      }
      return true;
    }

    /** cleanupResources: StatefulSets, the Deployment, Services, ConfigMaps, Secrets. */
    method CleanupResources(script: seq<DeleteOutcome>) returns (ok: bool)
      requires |script| == 27
      modifies this`present
      ensures var c := CleanupFrom(Listed(namespace, name), old(present), script, 0);
        present == c.present && (ok <==> c.done == 27)
    {
      var list := Listed(namespace, name);
      ok := DeleteRange(list, script, 0, 3);
      if !ok { return; }
      ok := DeleteRange(list, script, 3, 4);
      if !ok { return; }
      ok := DeleteRange(list, script, 4, 12);
      if !ok { return; }
      ok := DeleteRange(list, script, 12, 17);
      if !ok { return; }
      ok := DeleteRange(list, script, 17, 27);
    }

    /** handleDeletion. */
    method HandleDeletion(script: seq<DeleteOutcome>, update: UpdateOutcome) returns (ok: bool)
      requires |script| == 27 && cluster.Deleting?
      modifies this
      ensures World(cluster, present)
           == Reconciled(namespace, name, old(World(cluster, present)), Pass(script, update, {}))
      ensures ok <==> Succeeds(namespace, name, old(World(cluster, present)), Pass(script, update, {}))
    {
      if !cluster.finalizer { return true; }
      ok := CleanupResources(script);
      if !ok { return; }
      if Applies(update) { cluster := Unheld(cluster.others); }
      ok := update.Updated?;
    }

    /** The lifecycle part of Reconcile; `created` is whatever the component reconcilers create. */
    method Reconcile(p: Pass) returns (ok: bool)
      requires |p.deletes| == 27
      modifies this
      ensures World(cluster, present) == Reconciled(namespace, name, old(World(cluster, present)), p)
      ensures ok <==> Succeeds(namespace, name, old(World(cluster, present)), p)
    {
      if cluster.Missing? { return true; }
      if cluster.Deleting? {
        ok := HandleDeletion(p.deletes, p.update);
        return;
      }
      if !cluster.finalizer {
        if Applies(p.update) { cluster := Live(true, cluster.others); }
        return p.update.Updated?;
      }
      present := present + p.created;
      return true;
    }
  }

  /** What one pass meets: the outcome of each deletion, of its object update, and the resources it creates. */
  datatype Pass = Pass(deletes: seq<DeleteOutcome>, update: UpdateOutcome, created: set<Resource>)

  predicate Applies(u: UpdateOutcome) { u.Updated? || u.applied }

  /** A cluster marked for deletion without the operator's finalizer: gone unless others hold finalizers. */
  function Unheld(others: bool): ClusterObject { if others then Deleting(false, true) else Missing }

  /** The world after a pass. */
  function Reconciled(ns: string, name: string, w: World, p: Pass): World
    requires |p.deletes| == 27
  {
    match w.cluster
    case Missing => w
    case Live(finalizer, others) =>
      if finalizer then w.(present := w.present + p.created)
      else if Applies(p.update) then w.(cluster := Live(true, others)) else w
    case Deleting(finalizer, others) =>
      if !finalizer then w else
      var c := CleanupFrom(Listed(ns, name), w.present, p.deletes, 0);
      World(if c.done == 27 && Applies(p.update) then Unheld(others) else w.cluster, c.present)
  }

  /** The pass reports no error; an error makes the controller run another pass. */
  predicate Succeeds(ns: string, name: string, w: World, p: Pass)
    requires |p.deletes| == 27
  {
    match w.cluster
    case Missing => true
    case Live(finalizer, _) => finalizer || p.update.Updated?
    case Deleting(finalizer, _) =>
      finalizer ==> CleanupFrom(Listed(ns, name), w.present, p.deletes, 0).done == 27 && p.update.Updated?
  }

  /**
   A pass; the user creating or deleting the cluster; others changing their finalizers, or adding unlisted and removing
   any resources.
   */
  datatype Event = Reconcile(pass: Pass) | UserCreates | UserDeletes | OtherFinalizers(held: bool)
                 | OtherResources(added: set<Resource>, removed: set<Resource>)

  ghost predicate Legal(ns: string, name: string, e: Event) {
    match e
    case Reconcile(p) => |p.deletes| == 27
    case OtherResources(added, _) => added !! Members(Listed(ns, name))
    case _ => true
  }

  function Step(ns: string, name: string, w: World, e: Event): World
    requires Legal(ns, name, e)
  {
    match e
    case Reconcile(p) => Reconciled(ns, name, w, p)
    case UserCreates => if w.cluster.Missing? then w.(cluster := Live(false, false)) else w
    case UserDeletes =>
      if !w.cluster.Live? then w
      else w.(cluster := if w.cluster.finalizer then Deleting(true, w.cluster.others) else Unheld(w.cluster.others))
    case OtherFinalizers(held) =>
      (match w.cluster
       case Missing => w
       case Live(finalizer, _) => w.(cluster := Live(finalizer, held))
       case Deleting(finalizer, _) =>
         w.(cluster := if finalizer then Deleting(true, held) else Unheld(held)))
    case OtherResources(added, removed) => w.(present := w.present + added - removed)
  }

  ghost predicate IsRun(ns: string, name: string, states: seq<World>, events: seq<Event>) {
    && |states| == |events| + 1
    && states[0].cluster.Missing? && states[0].present !! Members(Listed(ns, name))
    && forall i :: 0 <= i < |events| ==>
         Legal(ns, name, events[i]) && states[i + 1] == Step(ns, name, states[i], events[i])
  }

  predicate HasFinalizer(o: ClusterObject) { !o.Missing? && o.finalizer }

  // ----- Cleanup -----

  lemma MembersSplit(list: seq<Resource>, k: nat, n: nat)
    requires k < n <= |list|
    ensures Members(list[k..n]) == {list[k]} + Members(list[k + 1..n])
  {
    assert list[k..n] == [list[k]] + list[k + 1..n];
  }

  /** A cleanup covers a prefix of the list: exactly its first `done` resources, and at most one more. */
  lemma {:induction false} CleanupIsPrefix(list: seq<Resource>, present: set<Resource>, script: seq<DeleteOutcome>,
                                           k: nat)
    requires |script| == |list| && k <= |list|
    ensures var c := CleanupFrom(list, present, script, k);
      && (forall i :: k <= i < c.done ==> script[i].Gone?)
      && (c.done < |list| ==> script[c.done].DeleteFails?)
      && c.present == present - Members(list[k..c.done])
                        - (if c.done < |list| && script[c.done].applied then {list[c.done]} else {})
    decreases |list| - k
  {
    if k < |list| && script[k].Gone? {
      CleanupIsPrefix(list, present - {list[k]}, script, k + 1);
      MembersSplit(list, k, CleanupFrom(list, present, script, k).done);
    }
  }

  /** A completed cleanup leaves no listed resource. */
  lemma CompletedCleanup(list: seq<Resource>, present: set<Resource>, script: seq<DeleteOutcome>)
    requires |script| == |list| && CleanupFrom(list, present, script, 0).done == |list|
    ensures CleanupFrom(list, present, script, 0).present == present - Members(list)
  {
    CleanupIsPrefix(list, present, script, 0);
    assert list[0..|list|] == list;
  }

  /** A cleanup completes iff no deletion fails. */
  lemma CleanupCompletesIff(list: seq<Resource>, present: set<Resource>, script: seq<DeleteOutcome>)
    requires |script| == |list|
    ensures CleanupFrom(list, present, script, 0).done == |list| <==>
      forall i :: 0 <= i < |list| ==> script[i].Gone?
  {
    CleanupIsPrefix(list, present, script, 0);
  }

  /** The order in which kinds of resources go. */
  function Turn(kind: Kind): nat {
    match kind case StatefulSet => 0 case Deployment => 1 case Service => 2 case ConfigMap => 3 case Secret => 4
  }

  /** Workloads go before services, services before configuration, and secrets last. */
  lemma KindsInTurn(ns: string, name: string, i: nat, j: nat)
    requires i < j < 27
    ensures Turn(Listed(ns, name)[i].kind) <= Turn(Listed(ns, name)[j].kind)
  {
    hide Suffixes;
    SuffixCounts();
  }

  lemma SuffixCounts()
    ensures |Suffixes(StatefulSet)| == 3 && |Suffixes(Deployment)| == 1 && |Suffixes(Service)| == 8
    ensures |Suffixes(ConfigMap)| == 5 && |Suffixes(Secret)| == 10
  {}

  /** A cleanup that stops leaves everything whose turn comes after it: no secret goes before a workload. */
  lemma StoppedCleanupKeepsRest(ns: string, name: string, present: set<Resource>, script: seq<DeleteOutcome>,
                                r: Resource)
    requires |script| == 27
    ensures var c := CleanupFrom(Listed(ns, name), present, script, 0);
      c.done < 27 && r in present && Turn(r.kind) > Turn(Listed(ns, name)[c.done].kind) ==> r in c.present
  {
    hide Listed;
    var list := Listed(ns, name);
    var c := CleanupFrom(list, present, script, 0);
    CleanupIsPrefix(list, present, script, 0);
    if c.done < 27 && Turn(r.kind) > Turn(list[c.done].kind) {
      forall i | 0 <= i < c.done ensures list[i] != r { KindsInTurn(ns, name, i, c.done); }
      assert r !in Members(list[0..c.done]);
    }
  }

  // ----- Runs -----

  lemma StepKeepsGuard(ns: string, name: string, w: World, e: Event)
    requires Legal(ns, name, e)
    requires !HasFinalizer(w.cluster) ==> w.present !! Members(Listed(ns, name))
    ensures var v := Step(ns, name, w, e); !HasFinalizer(v.cluster) ==> v.present !! Members(Listed(ns, name))
  {
    hide Listed;
    if e.Reconcile? && w.cluster.Deleting? && w.cluster.finalizer {
      var list := Listed(ns, name);
      if CleanupFrom(list, w.present, e.pass.deletes, 0).done == 27 {
        CompletedCleanup(list, w.present, e.pass.deletes);
      }
    }
  }

  /**
   No listed resource outlives the finalizer: in every state of every run, with deletions and updates failing in any
   way, a cluster without the operator's finalizer, present or gone, has no listed resource.
   */
  lemma {:induction false} NoResourceWithoutFinalizer(ns: string, name: string, states: seq<World>, events: seq<Event>,
                                                      i: nat)
    requires IsRun(ns, name, states, events) && i < |states|
    ensures !HasFinalizer(states[i].cluster) ==> states[i].present !! Members(Listed(ns, name))
  {
    hide Listed;
    if i > 0 {
      NoResourceWithoutFinalizer(ns, name, states, events, i - 1);
      StepKeepsGuard(ns, name, states[i - 1], events[i - 1]);
    }
  }

  /** Listed resources appear only in passes that start with the finalizer in place. */
  lemma CreatesOnlyWithFinalizer(ns: string, name: string, w: World, e: Event, r: Resource)
    requires Legal(ns, name, e) && r in Listed(ns, name)
    requires r !in w.present && r in Step(ns, name, w, e).present
    ensures e.Reconcile? && w.cluster.Live? && w.cluster.finalizer
  {
    hide Listed;
    if e.Reconcile? && w.cluster.Deleting? && w.cluster.finalizer {
      CleanupIsPrefix(Listed(ns, name), w.present, e.pass.deletes, 0);
    }
  }

  /** A live cluster first gets its finalizer, in a pass that creates nothing; the next pass creates what it is to. */
  lemma FinalizerComesFirst(ns: string, name: string, w: World, p: Pass, q: Pass)
    requires |p.deletes| == |q.deletes| == 27 && w.cluster.Live? && !w.cluster.finalizer
    ensures Reconciled(ns, name, w, p) ==
      if Applies(p.update) then World(Live(true, w.cluster.others), w.present) else w
    ensures Applies(p.update) ==>
      Reconciled(ns, name, Reconciled(ns, name, w, p), q) == World(Live(true, w.cluster.others), w.present + q.created)
  {}

  /** Deletion gives up the finalizer in the first pass without failures, whatever earlier passes left. */
  lemma CleanPassFinishes(ns: string, name: string, w: World, p: Pass)
    requires |p.deletes| == 27 && w.cluster.Deleting? && w.cluster.finalizer
    ensures !HasFinalizer(Reconciled(ns, name, w, p).cluster) <==>
      (forall i :: 0 <= i < 27 ==> p.deletes[i].Gone?) && Applies(p.update)
  {
    CleanupCompletesIff(Listed(ns, name), w.present, p.deletes);
  }

  /** Deleting one cluster touches no listed resource of another. */
  lemma OtherClustersUntouched(ns: string, name: string, w: World, p: Pass, ms: string, other: string)
    requires |p.deletes| == 27 && w.cluster.Deleting? && (ns != ms || name != other)
    ensures Reconciled(ns, name, w, p).present * Members(Listed(ms, other))
         == w.present * Members(Listed(ms, other))
  {
    hide Listed;
    if w.cluster.finalizer {
      var list, theirs := Listed(ns, name), Members(Listed(ms, other));
      CleanupIsPrefix(list, w.present, p.deletes, 0);
      forall r | r in list ensures r !in theirs {
        if r in theirs { ListedDisjoint(ns, name, ms, other, r); }
      }
    }
  }
}
