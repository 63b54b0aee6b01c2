/**
 Rolling restart progress in the cluster status. Every pass reports what the orchestrators returned; entries appear
 while a restart is active, keep their start time across passes and disappear as soon as a pass reports none.
 */
module RestartStatus {
  import opened Prelude

  datatype RestartPhase = Idle | InProgress | Complete

  /** What an orchestrator returns for one component. */
  datatype RestartResult = RestartResult(phase: RestartPhase, totalPods: int, updatedPods: int, currentPod: string,
                                         message: string)

  datatype ComponentRestart = ComponentRestart(result: RestartResult, lastTransition: Time, start: Time)

  datatype RollingRestart = RollingRestart(indexer: Option<ComponentRestart>, master: Option<ComponentRestart>,
                                           worker: Option<ComponentRestart>, inProgress: bool)

  /** The results of one pass; absent when there is nothing to restart or the orchestrator failed. */
  datatype Report = Report(indexer: Option<RestartResult>, master: Option<RestartResult>,
                           worker: Option<RestartResult>, now: Time)

  predicate Active(r: Option<RestartResult>) { r.Some? && r.value.phase != Idle }

  predicate Moving(r: Option<RestartResult>) { r.Some? && r.value.phase == InProgress }

  predicate HasRollingRestart(r: Report) { Moving(r.indexer) || Moving(r.master) || Moving(r.worker) }

  function Next(entry: Option<ComponentRestart>, r: Option<RestartResult>, now: Time): Option<ComponentRestart> {
    if Active(r) then Some(ComponentRestart(r.value, now, if entry.Some? then entry.value.start else now)) else None
  }

  function NextStatus(s: Option<RollingRestart>, r: Report): Option<RollingRestart> {
    var was := if s.Some? then s.value else RollingRestart(None, None, None, false);
    var i, m, w := Next(was.indexer, r.indexer, r.now), Next(was.master, r.master, r.now),
                   Next(was.worker, r.worker, r.now);
    if i.None? && m.None? && w.None? then None else Some(RollingRestart(i, m, w, HasRollingRestart(r)))
  }

  class RestartTracker {
    var status: Option<RollingRestart>

    constructor ()
      ensures status.None?
    {
      status := None;
    }

    method UpdateRollingRestartStatus(r: Report)
      modifies this
      ensures status == NextStatus(old(status), r)
    {
      var hasRollingRestart := false;
      if r.indexer.Some? && r.indexer.value.phase == InProgress { hasRollingRestart := true; }
      if r.master.Some? && r.master.value.phase == InProgress { hasRollingRestart := true; }
      if r.worker.Some? && r.worker.value.phase == InProgress { hasRollingRestart := true; }
      assert hasRollingRestart == HasRollingRestart(r);

      if !hasRollingRestart && r.indexer.None? && r.master.None? && r.worker.None? {
        if status.Some? { status := None; }
        return;
      }
      if status.None? { status := Some(RollingRestart(None, None, None, false)); }
      var s := status.value;
      ghost var was := s;
      if r.indexer.Some? && r.indexer.value.phase != Idle {
        var start := if s.indexer.None? then r.now else s.indexer.value.start;
        s := s.(indexer := Some(ComponentRestart(r.indexer.value, r.now, start)));
      } else {
        s := s.(indexer := None);
      }
      assert s == was.(indexer := Next(was.indexer, r.indexer, r.now));
      if r.master.Some? && r.master.value.phase != Idle {
        var start := if s.master.None? then r.now else s.master.value.start;
        s := s.(master := Some(ComponentRestart(r.master.value, r.now, start)));
      } else {
        s := s.(master := None);
      }
      assert s == was.(indexer := Next(was.indexer, r.indexer, r.now), master := Next(was.master, r.master, r.now));
      if r.worker.Some? && r.worker.value.phase != Idle {
        var start := if s.worker.None? then r.now else s.worker.value.start;
        s := s.(worker := Some(ComponentRestart(r.worker.value, r.now, start)));
      } else {
        s := s.(worker := None);
      }
      status := Some(s.(inProgress := hasRollingRestart));
      if s.indexer.None? && s.master.None? && s.worker.None? { status := None; }
    }
  }

  // ----- Runs -----

  datatype Slot = Indexer | Master | Worker

  function Result(r: Report, slot: Slot): Option<RestartResult> {
    match slot case Indexer => r.indexer case Master => r.master case Worker => r.worker
  }

  function EntryOf(s: Option<RollingRestart>, slot: Slot): Option<ComponentRestart> {
    if s.None? then None else
    match slot case Indexer => s.value.indexer case Master => s.value.master case Worker => s.value.worker
  }

  function After(reports: seq<Report>): Option<RollingRestart> {
    if reports == [] then None else NextStatus(After(reports[..|reports| - 1]), reports[|reports| - 1])
  }

  /** Report i starts the unbroken run of active reports of the slot that lasts to the end. */
  ghost predicate StartsStreak(reports: seq<Report>, slot: Slot, i: nat) {
    && i < |reports|
    && (forall j :: i <= j < |reports| ==> Active(Result(reports[j], slot)))
    && (i > 0 ==> !Active(Result(reports[i - 1], slot)))
  }

  lemma NextEntry(s: Option<RollingRestart>, r: Report, slot: Slot)
    ensures EntryOf(NextStatus(s, r), slot) == Next(EntryOf(s, slot), Result(r, slot), r.now)
  {}

  /** An entry exists iff the latest result is active, shows that result, and started when its streak did. */
  lemma {:induction false} EntryMeansStreak(reports: seq<Report>, slot: Slot) returns (i: nat)
    ensures var e := EntryOf(After(reports), slot);
      && (e.Some? <==> reports != [] && Active(Result(reports[|reports| - 1], slot)))
      && (e.Some? ==>
            && Result(reports[|reports| - 1], slot) == Some(e.value.result)
            && e.value.lastTransition == reports[|reports| - 1].now
            && StartsStreak(reports, slot, i) && e.value.start == reports[i].now)
    decreases |reports|
  {
    i := 0;
    if reports != [] {
      var front, r := reports[..|reports| - 1], reports[|reports| - 1];
      i := EntryMeansStreak(front, slot);
      NextEntry(After(front), r, slot);
      if EntryOf(After(front), slot).Some? {
        assert forall j :: 0 <= j < |front| ==> front[j] == reports[j];
      } else {
        i := |front|;
      }
    }
  }

  lemma StreakStartUnique(reports: seq<Report>, slot: Slot, i: nat, j: nat)
    requires StartsStreak(reports, slot, i) && StartsStreak(reports, slot, j)
    ensures i == j
  {}

  /** A pass: how many stored statuses its cached start lags behind, what it reports, and whether its write lands. */
  datatype Pass = Pass(lag: nat, report: Report, saved: bool)

  function SeenAt(i: nat, p: Pass): (k: nat)
    ensures k <= i
  {
    if p.lag <= i then i - p.lag else 0
  }

  /** The stored status after n passes: each works on the status it sees, and a lost write leaves the stored one. */
  function Stored(passes: seq<Pass>, n: nat): Option<RollingRestart>
    requires n <= |passes|
  {
    if n == 0 then None else
    var p := passes[n - 1];
    if p.saved then NextStatus(Stored(passes, SeenAt(n - 1, p)), p.report) else Stored(passes, n - 1)
  }

  /** The reports the stored status goes back to: that of the last saved pass and those behind what that pass saw. */
  function Lineage(passes: seq<Pass>, n: nat): seq<Report>
    requires n <= |passes|
  {
    if n == 0 then [] else
    var p := passes[n - 1];
    if p.saved then Lineage(passes, SeenAt(n - 1, p)) + [p.report] else Lineage(passes, n - 1)
  }

  lemma {:induction false} StoredIsAfterLineage(passes: seq<Pass>, n: nat)
    requires n <= |passes|
    ensures Stored(passes, n) == After(Lineage(passes, n))
  {
    if n > 0 {
      var p := passes[n - 1];
      StoredIsAfterLineage(passes, n - 1);
      StoredIsAfterLineage(passes, SeenAt(n - 1, p));
      var front := Lineage(passes, SeenAt(n - 1, p));
      assert (front + [p.report])[..|front|] == front;
    }
  }

  /** The report of the last saved pass. */
  function LastSaved(passes: seq<Pass>, n: nat): Option<Report>
    requires n <= |passes|
  {
    if n == 0 then None else if passes[n - 1].saved then Some(passes[n - 1].report) else LastSaved(passes, n - 1)
  }

  lemma {:induction false} LineageEnds(passes: seq<Pass>, n: nat)
    requires n <= |passes|
    ensures var l := Lineage(passes, n); LastSaved(passes, n) == if l == [] then None else Some(l[|l| - 1])
  {
    if n > 0 { LineageEnds(passes, n - 1); }
  }

  /**
   Over any run with lost writes and cached starts: an entry is stored iff the last saved result is active; it shows
   that result, and its start is the time of the one report that starts the current unbroken active streak of its
   lineage.
   */
  lemma StoredMeansStreak(passes: seq<Pass>, n: nat, slot: Slot)
    requires n <= |passes|
    ensures var e, last := EntryOf(Stored(passes, n), slot), LastSaved(passes, n);
      && (e.Some? <==> last.Some? && Active(Result(last.value, slot)))
      && (e.Some? ==> Result(last.value, slot) == Some(e.value.result) && e.value.lastTransition == last.value.now)
    ensures var e, lineage := EntryOf(Stored(passes, n), slot), Lineage(passes, n);
      e.Some? ==>
        && (exists i: nat :: StartsStreak(lineage, slot, i))
        && forall i: nat :: StartsStreak(lineage, slot, i) ==> e.value.start == lineage[i].now
  {
    StoredIsAfterLineage(passes, n);
    LineageEnds(passes, n);
    var lineage := Lineage(passes, n);
    var i := EntryMeansStreak(lineage, slot);
    if EntryOf(After(lineage), slot).Some? {
      forall j: nat | StartsStreak(lineage, slot, j) ensures j == i { StreakStartUnique(lineage, slot, i, j); }
    }
  }

  /** The reports of the saved passes. */
  function SavedReports(passes: seq<Pass>, n: nat): seq<Report>
    requires n <= |passes|
  {
    if n == 0 then [] else
    var front, p := SavedReports(passes, n - 1), passes[n - 1];
    if p.saved then front + [p.report] else front
  }

  /** If every pass starts from the latest status, the lineage is the saved reports, and the streak is theirs. */
  lemma {:induction false} FreshLineage(passes: seq<Pass>, n: nat)
    requires n <= |passes| && forall i :: 0 <= i < n ==> passes[i].lag == 0
    ensures Lineage(passes, n) == SavedReports(passes, n)
  {
    if n > 0 { FreshLineage(passes, n - 1); }
  }

  /** A cached start can move the start of an unbroken streak: the second pass starts from before the first. */
  lemma StaleStartMovesStreak(r: RestartResult, t: Time, u: Time)
    requires r.phase != Idle && t != u
    ensures var first, second := Report(Some(r), None, None, t), Report(Some(r), None, None, u);
      var passes := [Pass(0, first, true), Pass(1, second, true)];
      && StartsStreak(SavedReports(passes, 2), Indexer, 0) && SavedReports(passes, 2)[0].now == t
      && EntryOf(Stored(passes, 2), Indexer) == Some(ComponentRestart(r, u, u))
  {
    var passes := [Pass(0, Report(Some(r), None, None, t), true), Pass(1, Report(Some(r), None, None, u), true)];
    assert SavedReports(passes, 1) == [passes[0].report];
    assert SavedReports(passes, 2) == [passes[0].report, passes[1].report];
    assert Stored(passes, 0).None?;
  }

  /** The status is absent iff no component is active, and its flag says whether some entry is in progress. */
  lemma StatusMeansReports(reports: seq<Report>)
    ensures var s := After(reports);
      && (s.None? <==> forall slot: Slot :: EntryOf(s, slot).None?)
      && (s.Some? ==> (s.value.inProgress <==>
            exists slot: Slot :: EntryOf(s, slot).Some? && EntryOf(s, slot).value.result.phase == InProgress))
  {
    var s := After(reports);
    if s.Some? {
      var front, r := After(reports[..|reports| - 1]), reports[|reports| - 1];
      NextEntry(front, r, Indexer);
      NextEntry(front, r, Master);
      NextEntry(front, r, Worker);
      assert EntryOf(s, Indexer).Some? || EntryOf(s, Master).Some? || EntryOf(s, Worker).Some?;
    }
  }
}
