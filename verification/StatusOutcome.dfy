/**
 What a reader of the cluster finds after updateStatus: when the call succeeds, and what the phase and the conditions
 it has written say about the components.
 */
module StatusOutcome {
  import opened Prelude
  import opened OptimisticRetry
  import opened Conditions
  import opened StatusWrites

  // ----- When the call succeeds -----

  function Attempts(c: StatusCall): (r: seq<Attempt<ClusterStatus>>)
    ensures |r| == |c.script| && forall i :: 0 <= i < |r| ==> r[i] == c.script[i].attempt
  {
    seq(|c.script|, i requires 0 <= i < |c.script| => c.script[i].attempt)
  }

  /** The attempt loses a race: the version it read is no longer the last one when it writes, on a live cluster. */
  predicate Overtaken(h: Clusters, a: Attempt<ClusterStatus>)
    requires |h| > 0
  {
    var read := h + Foreigns(a.before);
    var now, i := read + Foreigns(a.between), ReadIndex(|read|, a.lag);
    a.fate.Clean? && !a.cancelled && read[i].value.Some? && i < |now| - 1 && now[|now| - 1].value.Some?
  }

  predicate OvertakenAt(c: StatusCall, h: Clusters, k: nat)
    requires |h| > 0 && k < |c.script|
  {
    Overtaken(Lost(h, Attempts(c), k), c.script[k].attempt)
  }

  lemma OvertakenLoses(w: seq<Condition>, spare: nat, r: Readings, work: Copied, h: Clusters,
                       a: Attempt<ClusterStatus>)
    requires |h| > 0
    ensures Overtaken(h, a) <==> Loses(StatusPlan(w, spare, r, work), h, a)
  {
    hide Written;
  }

  lemma OvertakenLives(h: Clusters, a: Attempt<ClusterStatus>)
    requires |h| > 0 && Overtaken(h, a)
    ensures !a.cancelled
  {}

  lemma OvertakenStep(c: StatusCall, h: Clusters, k: nat)
    requires |h| > 0 && k < |c.script| && OvertakenAt(c, h, k) && AllLost(c, h, k)
    ensures AllLost(c, h, k + 1) && FailsFor(c, h, k)
  {
    hide OptimisticRetry.Try, Loses, Overtaken, StatusPlan, Attempted, AllUp, ReadOf, WorkingNext;
    var p, t := After(c, h, k), c.script[k];
    OvertakenLoses(p.working, c.spare, t.readings, c.work, p.history, t.attempt);
    LosesTry(StatusPlan(p.working, c.spare, t.readings, c.work), p.history, t.attempt);
    assert !t.attempt.cancelled by { OvertakenLives(p.history, t.attempt); }
  }

  /** Attempt k fails in a way that is worth another one, and nobody cancels. */
  predicate FailsFor(c: StatusCall, h: Clusters, k: nat)
    requires |h| > 0 && k < |c.script|
  {
    ErrorAt(c, h, k) == Some(Transient) && !c.script[k].attempt.cancelled
  }

  predicate AllLost(c: StatusCall, h: Clusters, k: nat)
    requires |h| > 0 && k <= |c.script|
  {
    After(c, h, k).history == Lost(h, Attempts(c), k)
  }

  lemma NothingLost(c: StatusCall, h: Clusters)
    requires |h| > 0
    ensures AllLost(c, h, 0)
  {}

  lemma {:induction false} OvertakenAgain(c: StatusCall, h: Clusters, k: nat)
    requires |h| > 0 && k <= |c.script| && forall j :: 0 <= j < k ==> OvertakenAt(c, h, j)
    ensures AllLost(c, h, k) && forall j :: 0 <= j < k ==> FailsFor(c, h, j)
  {
    hide OvertakenAt, FailsFor, AllLost;
    if k == 0 {
      NothingLost(c, h);
    } else {
      OvertakenAgain(c, h, k - 1);
      OvertakenStep(c, h, k - 1);
    }
  }

  /** The latest version of a live cluster. */
  predicate IsLive(h: Clusters) { |h| > 0 && h[|h| - 1].value.Some? }

  /** The history g is h with the attempt's overlay of its last version added. */
  ghost predicate AddsOverlay(h: Clusters, w: seq<Condition>, spare: nat, t: StatusAttempt, work: Copied, g: Clusters) {
    && IsLive(h)
    && var write := Written(w, spare, t.readings, work, h[|h| - 1].value.value, t.attempt.now);
       g == h + [Version(Some(write), Operator(t.attempt.now))]
  }

  /**
   Lost races are made up for: the first attempt that reads the latest version of a live cluster, and that nobody gets
   ahead of, ends the call with its write in place.
   */
  lemma UpdateStatusProgress(c: StatusCall, h: Clusters, k: nat)
    requires |h| > 0 && |c.script| == MAX_ATTEMPTS && k < MAX_ATTEMPTS
    requires forall j :: 0 <= j < k ==> OvertakenAt(c, h, j)
    requires var a := c.script[k].attempt; a.fate.Clean? && a.lag == 0 && a.between == []
    requires IsLive(Lost(h, Attempts(c), k) + Foreigns(c.script[k].attempt.before))
    ensures EndsAt(c, h, k) && FinalError(c, h, k).None?
    ensures AddsOverlay(Lost(h, Attempts(c), k) + Foreigns(c.script[k].attempt.before), After(c, h, k).working, c.spare,
                        c.script[k], c.work, After(c, h, k + 1).history)
  {
    hide OptimisticRetry.Try, OvertakenAt, Written, ReadOf, AllUp, Attempted;
    OvertakenAgain(c, h, k);
    var p, t := After(c, h, k), c.script[k];
    FreshTry(StatusPlan(p.working, c.spare, t.readings, c.work), p.history, t.attempt);
    forall j | 0 <= j < k ensures GoesOn(c, h, j) { assert FailsFor(c, h, j); }
  }

  lemma NotOvertaken(c: StatusCall, h: Clusters, k: nat)
    requires |h| > 0 && k < |c.script| && OnlyRaces(h, Attempts(c)) && !OvertakenAt(c, h, k)
    requires AllLost(c, h, k)
    ensures ErrorAt(c, h, k).None?
  {
    hide OptimisticRetry.Try, Loses, Overtaken, StatusPlan, Attempted, AllUp, ReadOf, WorkingNext;
    var p, t := After(c, h, k), c.script[k];
    var plan := StatusPlan(p.working, c.spare, t.readings, c.work);
    OvertakenLoses(p.working, c.spare, t.readings, c.work, p.history, t.attempt);
    LivePrefix(h, Attempts(c), k + 1);
    assert t.attempt == Attempts(c)[k];
    assert Lost(h, Attempts(c), k + 1)
        == Lost(h, Attempts(c), k) + Foreigns(t.attempt.before) + Foreigns(t.attempt.between);
    WonTry(plan, p.history, t.attempt);
  }

  /** Where only races can go wrong, the call fails exactly when all four attempts lose theirs. */
  lemma UpdateStatusFailsIff(c: StatusCall, h: Clusters, k: nat)
    requires |h| > 0 && |c.script| == MAX_ATTEMPTS && OnlyRaces(h, Attempts(c)) && EndsAt(c, h, k)
    ensures FinalError(c, h, k).Some? <==> forall j :: 0 <= j < MAX_ATTEMPTS ==> OvertakenAt(c, h, j)
    ensures FinalError(c, h, k).Some? ==> k == 3 && After(c, h, 4).history == Lost(h, Attempts(c), 4)
  {
    var m := 0;
    hide OvertakenAt, OnlyRaces, ErrorAt, After, Lost;
    while m < MAX_ATTEMPTS && OvertakenAt(c, h, m)
      invariant m <= MAX_ATTEMPTS && forall j :: 0 <= j < m ==> OvertakenAt(c, h, j)
    {
      m := m + 1;
    }
    OvertakenAgain(c, h, m);
    forall j | 0 <= j < m && j < 3 ensures GoesOn(c, h, j) { assert FailsFor(c, h, j); }
    if m < MAX_ATTEMPTS {
      NotOvertaken(c, h, m);
      assert !GoesOn(c, h, m);
    } else {
      assert !GoesOn(c, h, 3) && FailsFor(c, h, 3);
    }
  }

  /**
   Every call ends, after at most four attempts, with the first one that succeeds, fails for good or is cancelled while
   waiting for the next; a cancellation after the fourth makes no difference.
   */
  lemma UpdateStatusEnds(c: StatusCall, h: Clusters) returns (k: nat)
    requires |h| > 0 && |c.script| == MAX_ATTEMPTS
    ensures k <= 3 && EndsAt(c, h, k) && (forall j :: 0 <= j < k ==> FailsFor(c, h, j))
    ensures k == 3 || !FailsFor(c, h, k)
    ensures FinalError(c, h, k) ==
      if k < 3 && ErrorAt(c, h, k) == Some(Transient) then Some(Cancelled) else ErrorAt(c, h, k)
  {
    hide ErrorAt;
    k := 0;
    while k < 3 && FailsFor(c, h, k)
      invariant k <= 3 && forall j :: 0 <= j < k ==> FailsFor(c, h, j) && GoesOn(c, h, j)
    {
      k := k + 1;
    }
  }

  // ----- What it then says -----

  /** The first entry of a type, which is the one readers look up. */
  function EntryFor(list: seq<Condition>, kind: Kind): Option<Condition> {
    var i := Find(list, kind);
    if i < |list| then Some(list[i]) else None
  }

  lemma UpsertEntries(list: seq<Condition>, c: Call, kind: Kind)
    ensures EntryFor(Upsert(list, c), kind) ==
      if kind != c.kind then EntryFor(list, kind)
      else match EntryFor(list, kind)
        case None => Some(Entry(c, c.now))
        case Some(e) => Some(Entry(c, if e.status == c.status then e.since else c.now))
  {
    var i, j, after := Find(list, kind), Find(Upsert(list, c), kind), Upsert(list, c);
    assert forall m :: 0 <= m < |list| ==> after[m].kind == list[m].kind;
    if i < |list| {
      assert j == i;
    } else if kind == c.kind {
      assert after[|list|].kind == kind && j == |list|;
    } else {
      assert forall m :: 0 <= m < |after| ==> after[m].kind != kind;
    }
  }

  /** A true condition with this reason, held since the working copy says or, if it did not hold there, since now. */
  ghost predicate Says(list: seq<Condition>, w: seq<Condition>, kind: Kind, reason: string, now: Time,
                       generation: int) {
    && EntryFor(list, kind).Some?
    && var e, was := EntryFor(list, kind).value, EntryFor(w, kind);
       && e.status == ConditionTrue && e.reason == reason && e.generation == generation
       && e.since == if was.Some? && was.value.status == ConditionTrue then was.value.since else now
  }

  /** Every other condition is that of the working copy. */
  ghost predicate OthersAs(list: seq<Condition>, w: seq<Condition>, kinds: set<Kind>) {
    forall kind :: kind !in kinds ==> EntryFor(list, kind) == EntryFor(w, kind)
  }

  lemma UpsertSays(list: seq<Condition>, c: Call)
    requires c.status == ConditionTrue
    ensures Says(Upsert(list, c), list, c.kind, c.reason, c.now, c.generation)
    ensures OthersAs(Upsert(list, c), list, {c.kind})
  {
    UpsertEntries(list, c, c.kind);
    forall kind | kind !in {c.kind} ensures EntryFor(Upsert(list, c), kind) == EntryFor(list, kind) {
      UpsertEntries(list, c, kind);
    }
    hide EntryFor, Upsert;
  }

  /** A condition write that succeeds leaves the condition false, with its reason, in the last version. */
  lemma ConditionIsPersisted(kind: Kind, reason: string, message: string, h: Clusters,
                             script: seq<Attempt<ClusterStatus>>)
    requires |h| > 0 && |script| == MAX_ATTEMPTS
    requires Retry(ConditionPlan(kind, reason, message), h, script, 0).error.None?
    ensures var g := Retry(ConditionPlan(kind, reason, message), h, script, 0).history;
      && IsLive(g)
      && var e := EntryFor(g[|g| - 1].value.value.conditions, kind);
         e.Some? && e.value.status == ConditionFalse && e.value.reason == reason && e.value.message == message
  {
    hide Retry, EntryFor, Upsert;
    var plan := ConditionPlan(kind, reason, message);
    SuccessWrites(plan, h, script, 0);
    var g := Retry(plan, h, script, 0).history;
    var was, now := g[|g| - 2].value.value, g[|g| - 1].author.now;
    UpsertEntries(was.conditions, Call(kind, ConditionFalse, reason, message, now, was.generation), kind);
  }

  lemma RunningConditions(w: seq<Condition>, spare: nat, now: Time, generation: int)
    ensures var list := Attempted(w, spare, true, now, generation).latest;
      && Says(list, w, Ready, "ClusterReady", now, generation)
      && Says(list, w, Available, "ClusterAvailable", now, generation)
      && OthersAs(list, w, {Ready, Available})
  {
    hide EntryFor, Upsert;
    var batch, s := Batch(true, now, generation), Slices(w, w, spare, true);
    PushTwo(s, batch[0], batch[1]);
    var first := Upsert(w, batch[0]);
    assert Push(s, batch[0]).latest == first;
    assert Attempted(w, spare, true, now, generation).latest == Upsert(first, batch[1]);
    hide Push, Attempted;
    UpsertSays(w, batch[0]);
    UpsertSays(first, batch[1]);
    assert EntryFor(Upsert(first, batch[1]), Ready) == EntryFor(first, Ready);
    assert EntryFor(first, Available) == EntryFor(w, Available);
  }

  lemma CreatingConditions(w: seq<Condition>, spare: nat, now: Time, generation: int)
    ensures var list := Attempted(w, spare, false, now, generation).latest;
      Says(list, w, Progressing, "ComponentsStarting", now, generation) && OthersAs(list, w, {Progressing})
  {
    hide EntryFor, Upsert;
    var batch, s := Batch(false, now, generation), Slices(w, w, spare, true);
    PushOne(s, batch[0]);
    assert Attempted(w, spare, false, now, generation).latest == Upsert(w, batch[0]);
    hide Push, Attempted;
    UpsertSays(w, batch[0]);
  }

  /** A component counts as up: its status is there, and a reading that did not fail has every replica ready. */
  predicate Up(r: Reading, s: ComponentStatus) { s.Some? && (r.Got? ==> s.value.0 >= s.value.1) }

  /** The new status of a component is its reading; a failed one keeps the old. */
  predicate Reads(r: Reading, was: ComponentStatus, s: ComponentStatus) {
    match r case Failed => s == was case Got(status) => s == status
  }

  /** The object written over `was` with the working conditions w says what the readings say. */
  ghost predicate Reflects(r: Readings, w: seq<Condition>, now: Time, was: ClusterStatus, v: ClusterStatus) {
    && Reads(r.indexer, was.indexer, v.indexer) && Reads(r.manager, was.manager, v.manager)
    && Reads(r.dashboard, was.dashboard, v.dashboard)
    && v.generation == was.generation && v.lastUpdate == Some(now)
    && if Up(r.indexer, v.indexer) && Up(r.manager, v.manager) && Up(r.dashboard, v.dashboard)
       then
         && v.phase == Running
         && Says(v.conditions, w, Ready, "ClusterReady", now, v.generation)
         && Says(v.conditions, w, Available, "ClusterAvailable", now, v.generation)
         && OthersAs(v.conditions, w, {Ready, Available})
       else
         && v.phase == Creating
         && Says(v.conditions, w, Progressing, "ComponentsStarting", now, v.generation)
         && OthersAs(v.conditions, w, {Progressing})
  }

  lemma WrittenReflects(w: seq<Condition>, spare: nat, r: Readings, work: Copied, was: ClusterStatus, now: Time)
    ensures Reflects(r, w, now, was, Written(w, spare, r, work, was, now))
  {
    RunningConditions(w, spare, now, was.generation);
    CreatingConditions(w, spare, now, was.generation);
    hide Attempted, Says, OthersAs;
  }

  /** The last version of the history is an own write at this time that reflects the readings over the one before it. */
  ghost predicate LastReflects(g: Clusters, r: Readings, w: seq<Condition>, now: Time) {
    && |g| > 1 && g[|g| - 2].value.Some? && g[|g| - 1].value.Some? && g[|g| - 1].author == Operator(now)
    && Reflects(r, w, now, g[|g| - 2].value.value, g[|g| - 1].value.value)
  }

  lemma TryReflects(w: seq<Condition>, spare: nat, t: StatusAttempt, work: Copied, h: Clusters)
    requires |h| > 0
    requires OptimisticRetry.Try(StatusPlan(w, spare, t.readings, work), h, t.attempt).error.None?
    ensures var g := OptimisticRetry.Try(StatusPlan(w, spare, t.readings, work), h, t.attempt).history;
      |g| > |h| && LastReflects(g, t.readings, w, t.attempt.now)
  {
    hide OptimisticRetry.Try, ReadOf, Written, Reflects;
    var plan := StatusPlan(w, spare, t.readings, work);
    SuccessfulTry(plan, h, t.attempt);
    TrySerial(plan, h, t.attempt);
    var g := OptimisticRetry.Try(plan, h, t.attempt).history;
    assert OwnStep(plan, g, |g| - 1);
    WrittenReflects(w, spare, t.readings, work, g[|g| - 2].value.value, t.attempt.now);
  }

  /**
   What a successful call has written over the version before it: each component's status is its last reading or, if
   that failed, the stored one; the phase is Running iff every component is up, a failed reading neither blocking nor
   supplying readiness; and the conditions of that phase are set, all others being the working copy's.
   */
  lemma PersistedReflectsReadings(c: StatusCall, h: Clusters, k: nat)
    requires |h| > 0 && EndsAt(c, h, k) && FinalError(c, h, k).None?
    ensures var g, t := After(c, h, k + 1).history, c.script[k];
      |g| > |h| && LastReflects(g, t.readings, After(c, h, k).working, t.attempt.now)
  {
    hide OptimisticRetry.Try, StatusPlan, ReadOf, AllUp, Attempted, LastReflects;
    var p, t := After(c, h, k), c.script[k];
    TryReflects(p.working, c.spare, t, c.work, p.history);
  }

  predicate AllReady(v: ClusterStatus) {
    && v.indexer.Some? && v.indexer.value.0 >= v.indexer.value.1
    && v.manager.Some? && v.manager.value.0 >= v.manager.value.1
    && v.dashboard.Some? && v.dashboard.value.0 >= v.dashboard.value.1
  }

  /** With readings that do not fail, the written phase says whether the written component statuses are all ready. */
  lemma RunningIffReady(c: StatusCall, h: Clusters, k: nat)
    requires |h| > 0 && EndsAt(c, h, k) && FinalError(c, h, k).None?
    requires var r := c.script[k].readings; r.indexer.Got? && r.manager.Got? && r.dashboard.Got?
    ensures var g := After(c, h, k + 1).history;
      && |g| > |h| && g[|g| - 1].value.Some?
      && g[|g| - 1].value.value.phase == if AllReady(g[|g| - 1].value.value) then Running else Creating
  {
    hide After, EndsAt, FinalError, Says, OthersAs;
    PersistedReflectsReadings(c, h, k);
  }
}
