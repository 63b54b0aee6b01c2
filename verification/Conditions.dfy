/**
 The condition list of a WazuhCluster status. updateCondition searches the list for the type, replaces that entry
 in place, and moves the transition time only when the status of the condition changes.
 */
module Conditions {
  import opened Prelude

  datatype Status = ConditionTrue | ConditionFalse | ConditionUnknown

  /** Condition types: the five the operator names and any other. */
  datatype Kind = Ready | Progressing | Degraded | Available | SecurityReady | Other(name: string)

  datatype Condition = Condition(kind: Kind, status: Status, reason: string, message: string, since: Time,
                                 generation: int)

  /** One call of updateCondition, with the time and generation it reads. */
  datatype Call = Call(kind: Kind, status: Status, reason: string, message: string, now: Time, generation: int)

  function Entry(c: Call, since: Time): Condition {
    Condition(c.kind, c.status, c.reason, c.message, since, c.generation)
  }

  /** First index holding this type, or the length of the list. */
  function Find(list: seq<Condition>, kind: Kind): (i: nat)
    ensures i <= |list|
    ensures i < |list| ==> list[i].kind == kind
    ensures forall j :: 0 <= j < i ==> list[j].kind != kind
  {
    if list == [] then 0 else if list[0].kind == kind then 0 else Find(list[1..], kind) + 1
  }

  function Upsert(list: seq<Condition>, c: Call): seq<Condition> {
    var i := Find(list, c.kind);
    if i == |list| then list + [Entry(c, c.now)]
    else list[i := Entry(c, if list[i].status != c.status then c.now else list[i].since)]
  }

  class ConditionList {
    var conditions: seq<Condition>

    constructor ()
      ensures conditions == []
    {
      conditions := [];
    }

    method UpdateCondition(c: Call)
      modifies this
      ensures conditions == Upsert(old(conditions), c)
    {
      var condition := Entry(c, c.now);
      for i := 0 to |conditions|
        invariant conditions == old(conditions)
        invariant forall j :: 0 <= j < i ==> conditions[j].kind != c.kind
      {
        if conditions[i].kind == c.kind {
          if conditions[i].status != c.status {
            conditions := conditions[i := condition];
          } else {
            condition := condition.(since := conditions[i].since);
            conditions := conditions[i := condition];
          }
          return;
        }
      }
      conditions := conditions + [condition];
    }
  }

  // ----- What the list means, in terms of the calls that built it -----

  function Applied(calls: seq<Call>): seq<Condition> {
    if calls == [] then [] else Upsert(Applied(calls[..|calls| - 1]), calls[|calls| - 1])
  }

  /** The types in the order in which they were first set. */
  function FirstSeen(calls: seq<Call>): seq<Kind> {
    if calls == [] then [] else
    var front, kind := FirstSeen(calls[..|calls| - 1]), calls[|calls| - 1].kind;
    if kind in front then front else front + [kind]
  }

  /** The latest of the first n calls for a type, or -1. */
  function Latest(calls: seq<Call>, n: nat, kind: Kind): (i: int)
    requires n <= |calls|
    ensures -1 <= i < n
    ensures i >= 0 ==> calls[i].kind == kind
  {
    if n == 0 then -1 else if calls[n - 1].kind == kind then n - 1 else Latest(calls, n - 1, kind)
  }

  /** Call i sets its type for the first time or to a status other than the one it had. */
  predicate Changes(calls: seq<Call>, i: nat)
    requires i < |calls|
  {
    var j := Latest(calls, i, calls[i].kind);
    j < 0 || calls[j].status != calls[i].status
  }

  /** The latest of the first n calls that changed the status of a type, or -1. */
  function LatestChange(calls: seq<Call>, n: nat, kind: Kind): (i: int)
    requires n <= |calls|
    ensures -1 <= i < n
    ensures i >= 0 ==> calls[i].kind == kind && Changes(calls, i)
  {
    if n == 0 then -1
    else if calls[n - 1].kind == kind && Changes(calls, n - 1) then n - 1
    else LatestChange(calls, n - 1, kind)
  }

  /** The entry says what the latest call for its type said, since the latest change of that type. */
  ghost predicate Means(calls: seq<Call>, e: Condition) {
    var i, t := Latest(calls, |calls|, e.kind), LatestChange(calls, |calls|, e.kind);
    i >= 0 && t >= 0 && e == Entry(calls[i], calls[t].now)
  }

  ghost predicate Distinct(list: seq<Condition>) {
    forall i, j :: 0 <= i < j < |list| ==> list[i].kind != list[j].kind
  }

  lemma {:induction false} LatestPrefix(calls: seq<Call>, m: nat, n: nat, kind: Kind)
    requires n <= m <= |calls|
    ensures Latest(calls[..m], n, kind) == Latest(calls, n, kind)
  {
    if n > 0 { LatestPrefix(calls, m, n - 1, kind); }
  }

  lemma {:induction false} LatestChangePrefix(calls: seq<Call>, m: nat, n: nat, kind: Kind)
    requires n <= m <= |calls|
    ensures LatestChange(calls[..m], n, kind) == LatestChange(calls, n, kind)
  {
    if n > 0 {
      LatestChangePrefix(calls, m, n - 1, kind);
      LatestPrefix(calls, m, n - 1, calls[n - 1].kind);
    }
  }

  lemma KindsFind(list: seq<Condition>, kinds: seq<Kind>, kind: Kind)
    requires |kinds| == |list| && forall i :: 0 <= i < |list| ==> list[i].kind == kinds[i]
    ensures Find(list, kind) < |list| <==> kind in kinds
  {}

  /** An entry of another type keeps its meaning when a call is added. */
  lemma MeansFrame(calls: seq<Call>, e: Condition)
    requires calls != [] && Means(calls[..|calls| - 1], e) && e.kind != calls[|calls| - 1].kind
    ensures Means(calls, e)
  {
    LatestPrefix(calls, |calls| - 1, |calls| - 1, e.kind);
    LatestChangePrefix(calls, |calls| - 1, |calls| - 1, e.kind);
  }

  lemma MeansUpdate(calls: seq<Call>, e: Condition)
    requires calls != [] && Means(calls[..|calls| - 1], e)
    requires e.kind == calls[|calls| - 1].kind
    ensures var c := calls[|calls| - 1]; Means(calls, Entry(c, if e.status != c.status then c.now else e.since))
  {
    LatestPrefix(calls, |calls| - 1, |calls| - 1, e.kind);
    LatestChangePrefix(calls, |calls| - 1, |calls| - 1, e.kind);
  }

  lemma {:induction false} LatestSeen(calls: seq<Call>, n: nat, kind: Kind)
    requires n <= |calls|
    ensures Latest(calls, n, kind) >= 0 <==> kind in FirstSeen(calls[..n])
  {
    if n > 0 {
      LatestSeen(calls, n - 1, kind);
      assert calls[..n][..n - 1] == calls[..n - 1];
    }
  }

  /**
   For every sequence of calls the list has one entry per type in first-seen order, and each entry carries the
   content of the latest call for its type and the time of the latest call that changed its status.
   */
  lemma {:induction false} ListMeansCalls(calls: seq<Call>)
    ensures var list := Applied(calls);
      && |list| == |FirstSeen(calls)| && (forall i :: 0 <= i < |list| ==> list[i].kind == FirstSeen(calls)[i])
      && Distinct(list)
      && (forall e :: e in list ==> Means(calls, e))
  {
    if calls != [] {
      var front, c := calls[..|calls| - 1], calls[|calls| - 1];
      ListMeansCalls(front);
      var before := Applied(front);
      KindsFind(before, FirstSeen(front), c.kind);
      var i := Find(before, c.kind);
      forall e | e in Applied(calls) ensures Means(calls, e) {
        if e in before && e.kind != c.kind {
          MeansFrame(calls, e);
        } else if i < |before| {
          MeansUpdate(calls, before[i]);
        } else {
          LatestSeen(calls, |front|, c.kind);
          assert calls[..|front|] == front;
        }
      }
    }
  }

  /** With a non-decreasing clock no transition time lies in the future and none ever moves back. */
  lemma TransitionTimesAdvance(calls: seq<Call>, i: nat)
    requires calls != [] && i < |Applied(calls[..|calls| - 1])|
    requires forall j, k :: 0 <= j < k < |calls| ==> calls[j].now <= calls[k].now
    ensures var was, now := Applied(calls[..|calls| - 1])[i], Applied(calls)[i];
      && now.kind == was.kind && was.since <= now.since <= calls[|calls| - 1].now
      && (now.since != was.since ==> now.status != was.status)
  {
    var front := calls[..|calls| - 1];
    ListMeansCalls(front);
    var e := Applied(front)[i];
    assert Means(front, e);
    assert calls[LatestChange(front, |front|, e.kind)].now <= calls[|calls| - 1].now;
  }
}
