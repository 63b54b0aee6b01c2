/**
 Certificate rollouts in the cluster status. The list is a log: finished entries stay where they are and new ones
 are appended, yet an unfinished entry is overwritten when its component starts another rollout. The list therefore
 stands for a history of finished rollouts and a map from component to its pending rollout.
 */
module Rollouts {
  import opened Prelude

  /** A component name. */
  datatype Component = Component(name: string)

  /** PendingCertRollout. */
  datatype Rollout = Rollout(component: Component, workload: string, kind: string, start: Time, reason: string,
                             ready: bool)

  /** A rollout reported by a component reconciler in this pass. */
  datatype Request = Request(component: Component, name: string, kind: string, start: Time, reason: string)

  /** What checking a pending rollout against its workload yields. */
  datatype Probe = Error(notFound: bool) | Checked(ready: bool)

  /** CertificateRolloutStatus. */
  datatype RolloutStatus = RolloutStatus(entries: seq<Rollout>, last: Option<Time>, inProgress: bool)

  function Pend(r: Request): Rollout { Rollout(r.component, r.name, r.kind, r.start, r.reason, false) }

  // ----- Specification functions -----

  function CheckOne(r: Rollout, p: Probe): Rollout {
    if !r.ready && p.Checked? && p.ready then r.(ready := true) else r
  }

  function Check(list: seq<Rollout>, probes: seq<Probe>): (r: seq<Rollout>)
    requires |probes| == |list|
    ensures |r| == |list| && forall i :: 0 <= i < |r| ==> r[i] == CheckOne(list[i], probes[i])
  {
    seq(|list|, i requires 0 <= i < |list| => CheckOne(list[i], probes[i]))
  }

  /** First unfinished entry of the component, or the length of the list. */
  function Find(list: seq<Rollout>, component: Component): (i: nat)
    ensures i <= |list|
    ensures i < |list| ==> list[i].component == component && !list[i].ready
    ensures forall j :: 0 <= j < i ==> list[j].component != component || list[j].ready
  {
    if list == [] then 0
    else if list[0].component == component && !list[0].ready then 0
    else Find(list[1..], component) + 1
  }

  function AddOne(list: seq<Rollout>, r: Request): seq<Rollout> {
    var i := Find(list, r.component);
    if i < |list| then list[i := Pend(r)] else list + [Pend(r)]
  }

  function Add(list: seq<Rollout>, requests: seq<Request>): seq<Rollout> {
    if requests == [] then list
    else AddOne(Add(list, requests[..|requests| - 1]), requests[|requests| - 1])
  }

  predicate AnyPending(list: seq<Rollout>) { exists i :: 0 <= i < |list| && !list[i].ready }

  lemma AnyPendingAppend(list: seq<Rollout>, e: Rollout)
    ensures AnyPending(list + [e]) <==> AnyPending(list) || !e.ready
  {
    var more := list + [e];
    if AnyPending(list) {
      var i :| 0 <= i < |list| && !list[i].ready;
      assert !more[i].ready;
    }
    assert more[|list|] == e;
  }

  function PendingCount(list: seq<Rollout>): nat {
    if list == [] then 0 else PendingCount(list[..|list| - 1]) + if list[|list| - 1].ready then 0 else 1
  }

  /** The status after the check at the start of a pass. */
  function CheckStatus(s: Option<RolloutStatus>, probes: seq<Probe>): Option<RolloutStatus>
    requires s.Some? ==> |probes| == |s.value.entries|
  {
    if s.None? || s.value.entries == [] then s else
    var list := Check(s.value.entries, probes);
    Some(s.value.(entries := list, inProgress := AnyPending(list)))
  }

  function Entries(s: Option<RolloutStatus>): seq<Rollout> { if s.Some? then s.value.entries else [] }

  /** The status after new rollouts are recorded near the end of a pass. */
  function AddStatus(s: Option<RolloutStatus>, requests: seq<Request>, now: Time): Option<RolloutStatus> {
    if requests == [] then s else Some(RolloutStatus(Add(Entries(s), requests), Some(now), true))
  }

  const REQUEUE_NORMAL: int := 30
  const REQUEUE_PENDING_ROLLOUT: int := 5
  const REQUEUE_ROLLING_RESTART: int := 10

  function DetermineRequeueInterval(hasPendingRollouts: bool, hasRollingRestart: bool): int {
    if hasPendingRollouts then REQUEUE_PENDING_ROLLOUT
    else if hasRollingRestart then REQUEUE_ROLLING_RESTART
    else REQUEUE_NORMAL
  }

  // ----- The rollout part of the reconciler -----

  class RolloutTracker {
    var status: Option<RolloutStatus>

    constructor ()
      ensures status.None?
    {
      status := None;
    }

    method CheckAndUpdatePendingRollouts(probes: seq<Probe>) returns (hasPending: bool)
      requires status.Some? ==> |probes| == |status.value.entries|
      modifies this
      ensures status == CheckStatus(old(status), probes)
      ensures hasPending == AnyPending(Entries(status))
    {
      if status.None? || |status.value.entries| == 0 { return false; }
      var list := status.value.entries;
      var updated: seq<Rollout> := [];
      hasPending := false;
      for i := 0 to |list|
        invariant status == old(status)
        invariant |updated| == i && forall j :: 0 <= j < i ==> updated[j] == CheckOne(list[j], probes[j])
        invariant hasPending <==> AnyPending(updated)
      {
        var rollout := list[i];
        if !rollout.ready {
          match probes[i]
          case Error(_) => hasPending := true;
          case Checked(ready) =>
            if ready { rollout := rollout.(ready := true); } else { hasPending := true; }
        }
        AnyPendingAppend(updated, rollout);
        updated := updated + [rollout];
      }
      assert updated == Check(list, probes);
      status := Some(status.value.(entries := updated, inProgress := hasPending));
    }

    method AddPendingRollouts(requests: seq<Request>, now: Time)
      requires requests != []
      modifies this
      ensures status == AddStatus(old(status), requests, now)
    {
      var list := if status.Some? then status.value.entries else [];
      ghost var before := list;
      for k := 0 to |requests|
        invariant list == Add(before, requests[..k])
      {
        var found := false;
        ghost var was := list;
        var i := 0;
        while i < |list| && !found
          invariant 0 <= i <= |list|
          invariant !found ==> list == was && forall j :: 0 <= j < i ==>
            list[j].component != requests[k].component || list[j].ready
          invariant found ==> list == AddOne(was, requests[k])
          decreases |list| - i, !found
        {
          if list[i].component == requests[k].component && !list[i].ready {
            list := list[i := Pend(requests[k])];
            found := true;
          } else {
            i := i + 1;
          }
        }
        if !found { list := list + [Pend(requests[k])]; }
        assert requests[..k + 1][..k] == requests[..k];
      }
      assert requests[..|requests|] == requests;
      status := Some(RolloutStatus(list, Some(now), true));
    }

    /** The end of a pass: records new rollouts, counts the pending ones and picks the requeue interval. */
    method FinishPass(hasPendingAtStart: bool, requests: seq<Request>, hasRollingRestart: bool, now: Time)
      returns (hasPending: bool, pendingCount: nat, requeueAfter: int)
      modifies this
      ensures status == AddStatus(old(status), requests, now)
      ensures hasPending == (hasPendingAtStart || requests != [])
      ensures pendingCount == PendingCount(Entries(status))
      ensures requeueAfter == DetermineRequeueInterval(hasPending, hasRollingRestart)
    {
      hasPending := hasPendingAtStart;
      if |requests| > 0 {
        AddPendingRollouts(requests, now);
        hasPending := true;
      }
      pendingCount := 0;
      if status.Some? {
        var list := status.value.entries;
        for i := 0 to |list|
          invariant pendingCount == PendingCount(list[..i])
        {
          assert list[..i + 1][..i] == list[..i];
          if !list[i].ready { pendingCount := pendingCount + 1; }
        }
        assert list[..|list|] == list;
      }
      requeueAfter := DetermineRequeueInterval(hasPending, hasRollingRestart);
    }
  }

  // ----- Abstraction: finished history and pending map -----

  /** The finished entries with their multiplicity. */
  function Finished(list: seq<Rollout>): multiset<Rollout> {
    if list == [] then multiset{}
    else Finished(list[..|list| - 1]) + if list[|list| - 1].ready then multiset{list[|list| - 1]} else multiset{}
  }

  /** The pending rollout of each component; later entries win. */
  function Pending(list: seq<Rollout>): map<Component, Rollout> {
    if list == [] then map[]
    else var e := list[|list| - 1];
      if e.ready then Pending(list[..|list| - 1]) else Pending(list[..|list| - 1])[e.component := e]
  }

  /** At most one unfinished entry per component. */
  ghost predicate Single(list: seq<Rollout>) {
    forall i, j :: 0 <= i < j < |list| && !list[i].ready && !list[j].ready ==>
      list[i].component != list[j].component
  }

  lemma FindLast(list: seq<Rollout>, c: Component)
    requires list != []
    ensures var front, e := list[..|list| - 1], list[|list| - 1];
      Find(list, c) == if Find(front, c) < |front| then Find(front, c)
                       else if e.component == c && !e.ready then |front| else |list|
  {
    var front, i := list[..|list| - 1], Find(list, c);
    assert forall j :: 0 <= j < |front| ==> front[j] == list[j];
  }

  lemma SingleFront(list: seq<Rollout>, n: nat)
    requires Single(list) && n <= |list|
    ensures Single(list[..n])
  {}

  /** The pending map holds exactly the unfinished entries. */
  lemma {:induction false} PendingLookup(list: seq<Rollout>, c: Component)
    requires Single(list)
    ensures c in Pending(list) <==> Find(list, c) < |list|
    ensures c in Pending(list) ==> Pending(list)[c] == list[Find(list, c)]
  {
    if list != [] {
      SingleFront(list, |list| - 1);
      PendingLookup(list[..|list| - 1], c);
      FindLast(list, c);
    }
  }

  /** Conservation: every entry is finished or the pending rollout of its component. */
  lemma {:induction false} LengthSplits(list: seq<Rollout>)
    requires Single(list)
    ensures |list| == |Finished(list)| + |Pending(list)|
    ensures PendingCount(list) == |Pending(list)|
  {
    if list != [] {
      var front, e := list[..|list| - 1], list[|list| - 1];
      SingleFront(list, |list| - 1);
      LengthSplits(front);
      if !e.ready {
        PendingLookup(front, e.component);
      }
    }
  }

  // ----- addPendingRollouts is last-wins map update -----

  function Overwrite(m: map<Component, Rollout>, requests: seq<Request>): map<Component, Rollout> {
    if requests == [] then m else
    var r := requests[|requests| - 1];
    Overwrite(m, requests[..|requests| - 1])[r.component := Pend(r)]
  }

  lemma {:induction false} FinishedUpdate(list: seq<Rollout>, i: nat, e: Rollout)
    requires i < |list| && !list[i].ready && !e.ready
    ensures Finished(list[i := e]) == Finished(list)
  {
    var n := |list| - 1;
    if i == n {
      assert list[i := e][..n] == list[..n];
    } else {
      FinishedUpdate(list[..n], i, e);
      assert list[i := e][..n] == list[..n][i := e];
    }
  }

  lemma AddOneSingle(list: seq<Rollout>, r: Request)
    requires Single(list)
    ensures Single(AddOne(list, r))
  {}

  lemma AddOneFind(list: seq<Rollout>, r: Request, c: Component)
    requires Single(list)
    ensures var after := AddOne(list, r); var i := Find(after, c);
      if c == r.component then i < |after| && after[i] == Pend(r)
      else if Find(list, c) < |list| then i == Find(list, c) && after[i] == list[i] else i == |after|
  {
    var after, k := AddOne(list, r), Find(list, r.component);
    assert after[k] == Pend(r);
    assert forall j :: 0 <= j < |list| && j != k ==> after[j] == list[j];
    if Find(list, c) < |list| { assert after[Find(list, c)].component == c; }
  }

  /** One request overwrites the pending rollout of its component and nothing else. */
  lemma AddOneRefines(list: seq<Rollout>, r: Request)
    requires Single(list)
    ensures var after := AddOne(list, r);
      && Single(after) && Pending(after) == Pending(list)[r.component := Pend(r)]
      && Finished(after) == Finished(list)
  {
    var after := AddOne(list, r);
    AddOneSingle(list, r);
    forall c ensures c in Pending(after) <==> c == r.component || c in Pending(list)
             ensures c in Pending(after) ==> Pending(after)[c] == Pending(list)[r.component := Pend(r)][c] {
      PendingLookup(list, c);
      PendingLookup(after, c);
      AddOneFind(list, r, c);
    }
    var i := Find(list, r.component);
    if i < |list| { FinishedUpdate(list, i, Pend(r)); } else { assert (list + [Pend(r)])[..|list|] == list; }
  }

  lemma {:induction false} AddRefines(list: seq<Rollout>, requests: seq<Request>)
    requires Single(list)
    ensures var after := Add(list, requests);
      && Single(after) && Pending(after) == Overwrite(Pending(list), requests) && Finished(after) == Finished(list)
    decreases |requests|
  {
    if requests != [] {
      AddRefines(list, requests[..|requests| - 1]);
      AddOneRefines(Add(list, requests[..|requests| - 1]), requests[|requests| - 1]);
    }
  }

  /** Last wins: a component ends with its last request. */
  lemma {:induction false} LastRequestWins(m: map<Component, Rollout>, requests: seq<Request>, k: nat)
    requires k < |requests|
    requires forall j :: k < j < |requests| ==> requests[j].component != requests[k].component
    ensures var c := requests[k].component;
      c in Overwrite(m, requests) && Overwrite(m, requests)[c] == Pend(requests[k])
    decreases |requests|
  {
    if k < |requests| - 1 { LastRequestWins(m, requests[..|requests| - 1], k); }
  }

  /** A component no request names keeps what it had. */
  lemma {:induction false} UnnamedKept(m: map<Component, Rollout>, requests: seq<Request>, c: Component)
    requires forall j :: 0 <= j < |requests| ==> requests[j].component != c
    ensures c in Overwrite(m, requests) <==> c in m
    ensures c in m ==> Overwrite(m, requests)[c] == m[c]
    decreases |requests|
  {
    if requests != [] { UnnamedKept(m, requests[..|requests| - 1], c); }
  }

  // ----- checkAndUpdatePendingRollouts moves exactly the finished ones -----

  /** The entries a check completes. */
  predicate Completes(r: Rollout, p: Probe) { !r.ready && p.Checked? && p.ready }

  /** The completed entries of a check, as they enter the history. */
  function Completed(list: seq<Rollout>, probes: seq<Probe>): multiset<Rollout>
    requires |probes| == |list|
  {
    if list == [] then multiset{} else
    var n := |list| - 1;
    Completed(list[..n], probes[..n])
      + if Completes(list[n], probes[n]) then multiset{list[n].(ready := true)} else multiset{}
  }

  lemma {:induction false} CheckFinished(list: seq<Rollout>, probes: seq<Probe>)
    requires |probes| == |list|
    ensures Finished(Check(list, probes)) == Finished(list) + Completed(list, probes)
  {
    if list != [] {
      var n := |list| - 1;
      CheckFinished(list[..n], probes[..n]);
      assert Check(list, probes)[..n] == Check(list[..n], probes[..n]);
    }
  }

  /** The component has a pending rollout that the check does not complete. */
  predicate StillPending(list: seq<Rollout>, probes: seq<Probe>, c: Component)
    requires |probes| == |list|
  {
    var i := Find(list, c);
    i < |list| && !Completes(list[i], probes[i])
  }

  lemma CheckSingle(list: seq<Rollout>, probes: seq<Probe>)
    requires |probes| == |list| && Single(list)
    ensures Single(Check(list, probes))
  {}

  lemma CheckFind(list: seq<Rollout>, probes: seq<Probe>, c: Component)
    requires |probes| == |list| && Single(list)
    ensures var i, after := Find(list, c), Check(list, probes);
      if StillPending(list, probes, c) then Find(after, c) == i && after[i] == list[i] else Find(after, c) == |list|
  {
    var i, after := Find(list, c), Check(list, probes);
    assert i < |list| ==> after[i] == CheckOne(list[i], probes[i]);
    if Find(after, c) < |list| { assert list[Find(after, c)].component == c; }
  }

  /**
   A check moves from the map to the history exactly the components whose pending rollout it completes, and
   leaves the others as they were.
   */
  lemma CheckRefines(list: seq<Rollout>, probes: seq<Probe>)
    requires |probes| == |list| && Single(list)
    ensures var after := Check(list, probes);
      && Single(after) && Finished(after) == Finished(list) + Completed(list, probes)
      && (forall c :: c in Pending(after) <==> StillPending(list, probes, c))
      && (forall c :: c in Pending(after) ==> c in Pending(list) && Pending(after)[c] == Pending(list)[c])
  {
    var after := Check(list, probes);
    CheckFinished(list, probes);
    CheckSingle(list, probes);
    forall c ensures c in Pending(after) <==> StillPending(list, probes, c)
             ensures c in Pending(after) ==> c in Pending(list) && Pending(after)[c] == Pending(list)[c]
    {
      CheckFind(list, probes, c);
      PendingLookup(list, c);
      PendingLookup(after, c);
    }
  }

  // ----- Runs -----

  /**
   One pass: how many stored statuses the cached one it starts from lags behind, the probes of its check, the rollouts
   it records, its clock and whether its status is saved.
   */
  datatype Pass = Pass(lag: nat, probes: seq<Probe>, requests: seq<Request>, now: Time, saved: bool)

  /** The index of the stored status that pass i starts from. */
  function SeenAt(i: nat, p: Pass): (k: nat)
    ensures k <= i
  {
    if p.lag <= i then i - p.lag else 0
  }

  /** The pass supplies a probe for every entry. */
  predicate Fits(s: Option<RolloutStatus>, p: Pass) { |p.probes| == |Entries(s)| }

  /** The status a pass works on and, if it gets to the end, reports from. */
  function Working(s: Option<RolloutStatus>, p: Pass): Option<RolloutStatus>
    requires Fits(s, p)
  {
    AddStatus(CheckStatus(s, p.probes), p.requests, p.now)
  }

  /** The stored statuses of a run, oldest first: a saved pass puts what it worked on over the latest one. */
  ghost predicate IsRun(states: seq<Option<RolloutStatus>>, passes: seq<Pass>) {
    && |states| == |passes| + 1 && states[0].None?
    && forall i :: 0 <= i < |passes| ==> Follows(states, passes[i], i)
  }

  ghost predicate Follows(states: seq<Option<RolloutStatus>>, p: Pass, i: nat)
    requires i + 1 < |states|
  {
    var seen := states[SeenAt(i, p)];
    Fits(seen, p) && states[i + 1] == if p.saved then Working(seen, p) else states[i]
  }

  /** Reachable statuses: absent, or a non-empty list with one pending entry per component and a true flag. */
  ghost predicate Sound(s: Option<RolloutStatus>) {
    s.Some? ==>
      s.value.entries != [] && Single(s.value.entries) && s.value.inProgress == AnyPending(s.value.entries)
  }

  /** `later` continues `earlier`: same components in place, finished entries untouched, nothing reverts. */
  ghost predicate Continues(earlier: seq<Rollout>, later: seq<Rollout>) {
    && |earlier| <= |later|
    && forall i :: 0 <= i < |earlier| ==>
         && later[i].component == earlier[i].component
         && (earlier[i].ready ==> later[i] == earlier[i])
  }

  lemma AddPending(list: seq<Rollout>, requests: seq<Request>)
    requires Single(list) && requests != []
    ensures AnyPending(Add(list, requests)) && Add(list, requests) != []
  {
    var front, r := Add(list, requests[..|requests| - 1]), requests[|requests| - 1];
    AddRefines(list, requests[..|requests| - 1]);
    AddOneFind(front, r, r.component);
    assert !Add(list, requests)[Find(Add(list, requests), r.component)].ready;
  }

  lemma {:induction false} AddContinues(list: seq<Rollout>, requests: seq<Request>)
    ensures Continues(list, Add(list, requests))
    decreases |requests|
  {
    if requests != [] { AddContinues(list, requests[..|requests| - 1]); }
  }

  lemma ContinuesReflexive(a: seq<Rollout>)
    ensures Continues(a, a)
  {}

  lemma ContinuesTransitive(a: seq<Rollout>, b: seq<Rollout>, c: seq<Rollout>)
    requires Continues(a, b) && Continues(b, c)
    ensures Continues(a, c)
  {}

  lemma CheckStatusSound(s: Option<RolloutStatus>, probes: seq<Probe>)
    requires Sound(s) && |probes| == |Entries(s)|
    ensures var c := CheckStatus(s, probes); Sound(c) && Continues(Entries(s), Entries(c))
  {
    if s.Some? { CheckSingle(s.value.entries, probes); }
  }

  lemma AddStatusSound(s: Option<RolloutStatus>, requests: seq<Request>, now: Time)
    requires Sound(s)
    ensures var a := AddStatus(s, requests, now); Sound(a) && Continues(Entries(s), Entries(a))
  {
    if requests != [] {
      hide Single, AnyPending, Continues;
      assert Single(Entries(s)) by { if s.None? { EmptySingle(); } }
      AddRefines(Entries(s), requests);
      AddPending(Entries(s), requests);
      AddContinues(Entries(s), requests);
    }
  }

  lemma EmptySingle()
    ensures Single([])
  {}

  lemma WorkingSound(s: Option<RolloutStatus>, p: Pass)
    requires Sound(s) && Fits(s, p)
    ensures Sound(Working(s, p)) && Continues(Entries(s), Entries(Working(s, p)))
  {
    hide Sound, Continues, CheckStatus, AddStatus;
    var c := CheckStatus(s, p.probes);
    CheckStatusSound(s, p.probes);
    AddStatusSound(c, p.requests, p.now);
    ContinuesTransitive(Entries(s), Entries(c), Entries(Working(s, p)));
  }

  lemma {:induction false} RunSound(states: seq<Option<RolloutStatus>>, passes: seq<Pass>, i: nat)
    requires IsRun(states, passes) && i < |states|
    ensures Sound(states[i])
  {
    if i > 0 {
      var p := passes[i - 1];
      assert Follows(states, p, i - 1);
      RunSound(states, passes, i - 1);
      RunSound(states, passes, SeenAt(i - 1, p));
      WorkingSound(states[SeenAt(i - 1, p)], p);
    }
  }

  // ----- When the list only grows -----

  function Components(list: seq<Rollout>): (r: seq<Component>)
    ensures |r| == |list| && forall i :: 0 <= i < |r| ==> r[i] == list[i].component
  {
    seq(|list|, i requires 0 <= i < |list| => list[i].component)
  }

  /** The components that the requests append to the list: those without a pending entry, in first-seen order. */
  function NewComponents(list: seq<Rollout>, requests: seq<Request>): seq<Component> {
    if requests == [] then [] else
    var front, c := NewComponents(list, requests[..|requests| - 1]), requests[|requests| - 1].component;
    if Find(list, c) < |list| || c in front then front else front + [c]
  }

  /** What recording requests leaves: readiness and finished entries in place, new entries appended as pending. */
  ghost predicate Shaped(list: seq<Rollout>, requests: seq<Request>, after: seq<Rollout>) {
    && Components(after) == Components(list) + NewComponents(list, requests)
    && |list| <= |after|
    && (forall i :: 0 <= i < |list| ==> after[i].ready == list[i].ready && (list[i].ready ==> after[i] == list[i]))
    && (forall i :: |list| <= i < |after| ==> !after[i].ready)
  }

  lemma FindFirst(list: seq<Rollout>, c: Component)
    ensures Find(list, c) < |list| <==> exists i :: 0 <= i < |list| && list[i].component == c && !list[i].ready
  {}

  /** A component is pending after the requests iff it was or they append it. */
  lemma ShapedFind(list: seq<Rollout>, requests: seq<Request>, after: seq<Rollout>, c: Component)
    requires Shaped(list, requests, after)
    ensures Find(after, c) < |after| <==> Find(list, c) < |list| || c in NewComponents(list, requests)
  {
    hide Find, NewComponents, Components;
    FindFirst(list, c);
    FindFirst(after, c);
    var more := NewComponents(list, requests);
    ShapedComponents(list, after, more);
    if Find(list, c) < |list| {
      var k :| 0 <= k < |list| && list[k].component == c && !list[k].ready;
      assert after[k].component == c && !after[k].ready;
    } else if c in more {
      var k :| 0 <= k < |more| && more[k] == c;
      assert after[|list| + k].component == c;
    }
  }

  lemma ShapedComponents(list: seq<Rollout>, after: seq<Rollout>, more: seq<Component>)
    requires Components(after) == Components(list) + more
    ensures |after| == |list| + |more|
    ensures forall i :: 0 <= i < |list| ==> after[i].component == list[i].component
    ensures forall i :: |list| <= i < |after| ==> after[i].component == more[i - |list|]
  {
    assert |Components(after)| == |after|;
    assert forall i :: 0 <= i < |after| ==> after[i].component == Components(after)[i];
    hide Components;
  }

  lemma {:induction false} AddShaped(list: seq<Rollout>, requests: seq<Request>)
    ensures Shaped(list, requests, Add(list, requests))
    decreases |requests|
  {
    if requests == [] {
      assert Components(list) + [] == Components(list);
    } else {
      var n := |requests| - 1;
      AddShaped(list, requests[..n]);
      ShapedFind(list, requests[..n], Add(list, requests[..n]), requests[n].component);
      ShapedOne(list, requests);
    }
  }

  /** One request appends its component unless it is pending, and keeps readiness and finished entries. */
  lemma AddOneShape(list: seq<Rollout>, r: Request)
    ensures var after := AddOne(list, r);
      && Components(after) == Components(list) + (if Find(list, r.component) < |list| then [] else [r.component])
      && |list| <= |after|
      && (forall i :: 0 <= i < |list| ==> after[i].ready == list[i].ready && (list[i].ready ==> after[i] == list[i]))
      && (forall i :: |list| <= i < |after| ==> !after[i].ready)
  {
    hide Find;
  }

  lemma ShapedOne(list: seq<Rollout>, requests: seq<Request>)
    requires requests != []
    requires var n := |requests| - 1; var front := Add(list, requests[..n]);
      && Shaped(list, requests[..n], front)
      && (Find(front, requests[n].component) < |front| <==>
            Find(list, requests[n].component) < |list| || requests[n].component in NewComponents(list, requests[..n]))
    ensures Shaped(list, requests, Add(list, requests))
  {
    hide Find, Components, AddOne;
    var n := |requests| - 1;
    var front, r := Add(list, requests[..n]), requests[n];
    AddOneShape(front, r);
    assert Add(list, requests) == AddOne(front, r);
    var more := NewComponents(list, requests[..n]);
    assert Components(list) + more + [r.component] == Components(list) + (more + [r.component]);
  }

  /**
   A pass that starts from the older list `was` is safe to save over the list `now`: what has been completed since, it
   completes itself in the same form; nothing appended since is finished; and it appends what was appended since again.
   */
  ghost predicate Survives(was: seq<Rollout>, now: seq<Rollout>, p: Pass)
    requires |p.probes| == |was| <= |now|
  {
    && (forall k :: 0 <= k < |was| && !was[k].ready && now[k].ready ==>
          Completes(was[k], p.probes[k]) && now[k] == was[k].(ready := true))
    && (forall k :: |was| <= k < |now| ==> !now[k].ready)
    && Components(now)[|was|..] <= NewComponents(Check(was, p.probes), p.requests)
  }

  /** Exactly then the saved list continues the stored one. */
  lemma StaleStepIff(was: seq<Rollout>, now: seq<Rollout>, p: Pass)
    requires Continues(was, now) && |p.probes| == |was|
    ensures Continues(now, Add(Check(was, p.probes), p.requests)) <==> Survives(was, now, p)
  {
    var list := Check(was, p.probes);
    var after, more := Add(list, p.requests), NewComponents(list, p.requests);
    AddShaped(list, p.requests);
    hide Add, NewComponents, Find, Components;
    ShapedComponents(list, after, more);
    if Continues(now, after) {
      StaleSurvives(was, now, p, after, more);
    }
    if Survives(was, now, p) {
      var tail := Components(now)[|was|..];
      forall k | |was| <= k < |now| ensures k < |after| && after[k].component == now[k].component {
        assert tail[k - |was|] == more[k - |was|] == now[k].component;
      }
    }
  }

  lemma StaleSurvives(was: seq<Rollout>, now: seq<Rollout>, p: Pass, after: seq<Rollout>, more: seq<Component>)
    requires |p.probes| == |was| && Continues(was, now) && Continues(now, after)
    requires Shaped(Check(was, p.probes), p.requests, after) && more == NewComponents(Check(was, p.probes), p.requests)
    requires forall k :: |was| <= k < |after| ==> after[k].component == more[k - |was|]
    ensures Survives(was, now, p)
  {
    hide NewComponents, Find, Components;
    assert |Components(after)| == |after|;
    var tail := Components(now)[|was|..];
    forall k | 0 <= k < |tail| ensures tail[k] == more[k] {
      assert after[|was| + k].component == now[|was| + k].component;
    }
  }

  /** Step k of a run saves nothing, or something that survives. */
  ghost predicate StepSurvives(states: seq<Option<RolloutStatus>>, passes: seq<Pass>, k: nat)
    requires k < |passes| && k < |states|
  {
    var was, now := Entries(states[SeenAt(k, passes[k])]), Entries(states[k]);
    passes[k].saved ==> |passes[k].probes| == |was| <= |now| && Survives(was, now, passes[k])
  }

  ghost predicate StepContinues(states: seq<Option<RolloutStatus>>, k: nat)
    requires k + 1 < |states|
  {
    Continues(Entries(states[k]), Entries(states[k + 1]))
  }

  lemma {:induction false} StepsCompose(states: seq<Option<RolloutStatus>>, i: nat, j: nat)
    requires i <= j < |states| && forall k :: i <= k < j ==> StepContinues(states, k)
    ensures Continues(Entries(states[i]), Entries(states[j]))
  {
    ContinuesReflexive(Entries(states[j]));
    hide Continues;
    if i < j {
      StepsCompose(states, i, j - 1);
      assert StepContinues(states, j - 1);
      ContinuesTransitive(Entries(states[i]), Entries(states[j - 1]), Entries(states[j]));
    }
  }

  /** Over any run, cached starts included, the list only grows step by step iff every saved step survives. */
  lemma {:induction false} RunContinuesIff(states: seq<Option<RolloutStatus>>, passes: seq<Pass>, n: nat)
    requires IsRun(states, passes) && n <= |passes|
    ensures (forall k :: 0 <= k < n ==> StepContinues(states, k)) <==>
      forall k :: 0 <= k < n ==> StepSurvives(states, passes, k)
  {
    hide StepContinues, StepSurvives;
    if n > 0 {
      RunContinuesIff(states, passes, n - 1);
      if forall k :: 0 <= k < n - 1 ==> StepContinues(states, k) {
        assert Follows(states, passes[n - 1], n - 1);
        StepsCompose(states, SeenAt(n - 1, passes[n - 1]), n - 1);
        StepIff(states, passes, n - 1);
      }
    }
  }

  lemma StepIff(states: seq<Option<RolloutStatus>>, passes: seq<Pass>, k: nat)
    requires k < |passes| && k + 1 < |states| && Follows(states, passes[k], k)
    requires Continues(Entries(states[SeenAt(k, passes[k])]), Entries(states[k]))
    ensures StepContinues(states, k) <==> StepSurvives(states, passes, k)
  {
    var p := passes[k];
    var seen := states[SeenAt(k, p)];
    ContinuesReflexive(Entries(states[k]));
    if p.saved {
      StaleStepIff(Entries(seen), Entries(states[k]), p);
      WorkingEntries(seen, p);
      hide Continues, Survives, Add, Check;
    }
  }

  lemma WorkingEntries(s: Option<RolloutStatus>, p: Pass)
    requires Fits(s, p)
    ensures Entries(Working(s, p)) == Add(Check(Entries(s), p.probes), p.requests)
  {
    if s.None? { assert Check([], p.probes) == []; }
  }

  /**
   Over any run, between saved passes that survive, and so in particular between passes that start from the latest
   status, the stored list only grows by appending, and finished entries stay as they are.
   */
  lemma RunContinues(states: seq<Option<RolloutStatus>>, passes: seq<Pass>, i: nat, j: nat)
    requires IsRun(states, passes) && i <= j < |states|
    requires forall k :: 0 <= k < j ==> StepSurvives(states, passes, k)
    ensures Continues(Entries(states[i]), Entries(states[j]))
  {
    RunContinuesIff(states, passes, j);
    hide StepSurvives, StepContinues;
    StepsCompose(states, i, j);
  }

  /** A pass that starts from the latest status survives. */
  lemma FreshSurvives(states: seq<Option<RolloutStatus>>, passes: seq<Pass>, k: nat)
    requires IsRun(states, passes) && k < |passes| && passes[k].lag == 0
    ensures StepSurvives(states, passes, k)
  {
    assert Follows(states, passes[k], k);
    var list := Entries(states[k]);
    assert Components(list)[|list|..] == [];
    hide NewComponents;
  }

  /** Over any run whose passes start from the latest status, the stored list only grows and finished entries stay. */
  lemma FreshRunContinues(states: seq<Option<RolloutStatus>>, passes: seq<Pass>, i: nat, j: nat)
    requires IsRun(states, passes) && i <= j < |states| && forall k :: 0 <= k < j ==> passes[k].lag == 0
    ensures Continues(Entries(states[i]), Entries(states[j]))
  {
    forall k: nat | k < j ensures StepSurvives(states, passes, k) { FreshSurvives(states, passes, k); }
    hide StepSurvives, Continues, IsRun;
    RunContinues(states, passes, i, j);
  }

  /**
   A cached start can undo the list: a recorded rollout is dropped by a pass that starts from the status before it, and
   a completed one is pending again after a pass that starts from the status before its completion.
   */
  lemma StaleStartUndoes(r: Request, t: Time)
    ensures var pending, done := [Pend(r)], [Pend(r).(ready := true)];
      var recorded := Some(RolloutStatus(pending, Some(t), true));
      && IsRun([None, recorded, None], [Pass(0, [], [r], t, true), Pass(1, [], [], t, true)])
      && IsRun([None, recorded, Some(RolloutStatus(done, Some(t), false)), recorded],
               [Pass(0, [], [r], t, true), Pass(0, [Checked(true)], [], t, true),
                Pass(1, [Checked(false)], [], t, true)])
      && !Continues(pending, []) && !Continues(done, pending)
  {
    var pending, done := [Pend(r)], [Pend(r).(ready := true)];
    var recorded := Some(RolloutStatus(pending, Some(t), true));
    assert [r][..0] == [];
    assert Add([], [r]) == pending;
    assert Check(pending, [Checked(true)]) == done;
    assert Check(pending, [Checked(false)]) == pending;
    assert !pending[0].ready && AnyPending(pending);
    assert !AnyPending(done);
    assert done[0].ready && pending[0] != done[0];
  }

  /** Over any run the length of the list is the number of finished rollouts plus the size of the pending map. */
  lemma RunConserves(states: seq<Option<RolloutStatus>>, passes: seq<Pass>, i: nat)
    requires IsRun(states, passes) && i < |states|
    ensures var list := Entries(states[i]);
      Single(list) && |list| == |Finished(list)| + |Pending(list)| && PendingCount(list) == |Pending(list)|
  {
    RunSound(states, passes, i);
    LengthSplits(Entries(states[i]));
  }

  lemma {:induction false} CountPositive(list: seq<Rollout>)
    ensures PendingCount(list) > 0 <==> AnyPending(list)
  {
    if list != [] {
      CountPositive(list[..|list| - 1]);
      AnyPendingAppend(list[..|list| - 1], list[|list| - 1]);
      assert list[..|list| - 1] + [list[|list| - 1]] == list;
    }
  }

  /**
   In every pass of every run that reaches its end, the in-progress flag of the status, the pending metric, the
   pending flag of the pass and the five second requeue all hold exactly when some entry is unfinished.
   */
  lemma SignalsAgree(states: seq<Option<RolloutStatus>>, passes: seq<Pass>, i: nat, rolling: bool)
    requires IsRun(states, passes) && i < |passes|
    ensures Follows(states, passes[i], i)
    ensures var p := passes[i]; var seen := states[SeenAt(i, p)];
      var s, pending := Working(seen, p), AnyPending(Entries(CheckStatus(seen, p.probes))) || p.requests != [];
      && pending == AnyPending(Entries(s))
      && (s.Some? ==> s.value.inProgress == pending)
      && (PendingCount(Entries(s)) > 0 <==> pending)
      && (DetermineRequeueInterval(pending, rolling) == REQUEUE_PENDING_ROLLOUT <==> pending)
  {
    var p := passes[i];
    assert Follows(states, p, i);
    var seen := states[SeenAt(i, p)];
    RunSound(states, passes, SeenAt(i, p));
    WorkingSound(seen, p);
    CountPositive(Entries(Working(seen, p)));
    if seen.Some? { CheckSingle(seen.value.entries, p.probes); }
    if p.requests != [] { AddPending(Entries(CheckStatus(seen, p.probes)), p.requests); }
  }
}
