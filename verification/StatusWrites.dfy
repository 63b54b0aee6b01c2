/**
 Status writes of a pass. The drain and condition writers re-read the cluster, overlay their own part and write it
 back conditionally. updateStatus does the same but shares the working copy's condition slice with the object it
 writes, so every attempt also mutates what the next attempt starts from.
 */
module StatusWrites {
  import opened Prelude
  import opened OptimisticRetry
  import opened Conditions

  /** The parts of the status that updateStatus copies from its working copy besides the conditions. */
  datatype Copied = Copied(rollouts: string, security: string, drain: string, rollingRestart: string)

  /** The status of one component: ready and desired replicas. */
  type ComponentStatus = Option<(int, int)>

  datatype Phase = Running | Creating | OtherPhase(name: string)

  /** The cluster: its generation and its status; fields no writer here looks into are kept by name. */
  datatype ClusterStatus = ClusterStatus(conditions: seq<Condition>, copied: Copied, indexer: ComponentStatus,
                                         manager: ComponentStatus, dashboard: ComponentStatus, phase: Phase,
                                         observed: int, lastUpdate: Option<Time>, generation: int,
                                         others: map<string, string>)

  function DrainPlan(work: string): Plan<ClusterStatus> {
    (v: ClusterStatus, now: Time) => Some(v.(copied := v.copied.(drain := work), lastUpdate := Some(now)))
  }

  function FalseCall(kind: Kind, reason: string, message: string, now: Time, generation: int): Call {
    Call(kind, ConditionFalse, reason, message, now, generation)
  }

  function ConditionPlan(kind: Kind, reason: string, message: string): Plan<ClusterStatus> {
    (v: ClusterStatus, now: Time) =>
      Some(v.(conditions := Upsert(v.conditions, FalseCall(kind, reason, message, now, v.generation))))
  }

  /** What the drain writer must not touch. */
  function DrainRest(): ClusterStatus -> ClusterStatus {
    (v: ClusterStatus) => v.(copied := v.copied.(drain := ""), lastUpdate := None)
  }

  /** The conditions of every other type, in list order. */
  function OtherKinds(list: seq<Condition>, kind: Kind): seq<Condition> {
    if list == [] then []
    else if list[0].kind == kind then OtherKinds(list[1..], kind)
    else [list[0]] + OtherKinds(list[1..], kind)
  }

  /** What the writer of one condition type must not touch. */
  function ConditionRest(kind: Kind): ClusterStatus -> (ClusterStatus, seq<Condition>) {
    (v: ClusterStatus) => (v.(conditions := []), OtherKinds(v.conditions, kind))
  }

  method UpdateDrainStatus(store: StoredObject<ClusterStatus>, work: string, script: seq<Attempt<ClusterStatus>>)
    returns (error: Option<Error>)
    requires |store.history| > 0 && |script| == MAX_ATTEMPTS
    modifies store
    ensures Outcome(store.history, error) == Retry(DrainPlan(work), old(store.history), script, 0)
    ensures error.None? ==>
      var last := store.history[|store.history| - 1]; last.value.Some? && last.value.value.copied.drain == work
  {
    hide Retry;
    error := store.RetryOnConflict(DrainPlan(work), script);
    if error.None? { SuccessWrites(DrainPlan(work), old(store.history), script, 0); }
  }

  /** Sets a condition to False in the working copy and, best effort, in the stored cluster. */
  method PersistCondition(working: ConditionList, store: StoredObject<ClusterStatus>, call: Call,
                          script: seq<Attempt<ClusterStatus>>) returns (error: Option<Error>)
    requires |store.history| > 0 && |script| == MAX_ATTEMPTS && call.status == ConditionFalse
    modifies working, store
    ensures Outcome(store.history, error)
         == Retry(ConditionPlan(call.kind, call.reason, call.message), old(store.history), script, 0)
    ensures error.Some? ==> working.conditions == Upsert(old(working.conditions), call)
    ensures error.None? ==> var last := store.history[|store.history| - 1];
      last.value.Some? && working.conditions == last.value.value.conditions
  {
    hide Retry, Upsert;
    working.UpdateCondition(call);
    var plan := ConditionPlan(call.kind, call.reason, call.message);
    error := store.RetryOnConflict(plan, script);
    if error.None? {
      SuccessWrites(plan, old(store.history), script, 0);
      working.conditions := store.history[|store.history| - 1].value.value.conditions;
    }
  }

  /** A drain write loses no foreign update other than to Drain and LastUpdateTime. */
  lemma DrainWriteLosesNothing(work: string, h: seq<Version<ClusterStatus>>, script: seq<Attempt<ClusterStatus>>)
    requires |h| > 0 && |script| == MAX_ATTEMPTS
    ensures var g := Retry(DrainPlan(work), h, script, 0).history;
      h <= g && Observe(DrainRest(), g[|g| - 1]) == Observe(DrainRest(), g[LastForeign(g, |h|)])
  {
    hide Retry, DrainPlan, DrainRest, Preserves;
    DrainPreserves(work);
    NoLostUpdate(DrainPlan(work), DrainRest(), h, script);
  }

  lemma DrainPreserves(work: string)
    ensures Preserves(DrainPlan(work), DrainRest())
  {}

  lemma {:induction false} OtherKindsAppend(a: seq<Condition>, b: seq<Condition>, kind: Kind)
    ensures OtherKinds(a + b, kind) == OtherKinds(a, kind) + OtherKinds(b, kind)
  {
    if a == [] {
      assert a + b == b;
    } else {
      assert (a + b)[1..] == a[1..] + b && (a + b)[0] == a[0];
      OtherKindsAppend(a[1..], b, kind);
      var rest, more := OtherKinds(a[1..], kind), OtherKinds(b, kind);
      assert [a[0]] + (rest + more) == ([a[0]] + rest) + more;
    }
  }

  lemma UpsertKeepsOthers(list: seq<Condition>, c: Call)
    ensures OtherKinds(Upsert(list, c), c.kind) == OtherKinds(list, c.kind)
  {
    var i, after := Find(list, c.kind), Upsert(list, c);
    if i == |list| {
      OtherKindsAppend(list, [after[i]], c.kind);
    } else {
      assert list == list[..i] + ([list[i]] + list[i + 1..]);
      assert after == list[..i] + ([after[i]] + list[i + 1..]);
      OtherKindsAppend(list[..i], [list[i]] + list[i + 1..], c.kind);
      OtherKindsAppend(list[..i], [after[i]] + list[i + 1..], c.kind);
    }
  }

  /** A condition write loses no foreign update other than to its own condition type. */
  lemma ConditionWriteLosesNothing(kind: Kind, reason: string, message: string,
                                   h: seq<Version<ClusterStatus>>, script: seq<Attempt<ClusterStatus>>)
    requires |h| > 0 && |script| == MAX_ATTEMPTS
    ensures var g := Retry(ConditionPlan(kind, reason, message), h, script, 0).history;
      h <= g && Observe(ConditionRest(kind), g[|g| - 1]) == Observe(ConditionRest(kind), g[LastForeign(g, |h|)])
  {
    hide Retry, ConditionPlan, ConditionRest, Preserves;
    ConditionPreserves(kind, reason, message);
    NoLostUpdate(ConditionPlan(kind, reason, message), ConditionRest(kind), h, script);
  }

  lemma ConditionPreserves(kind: Kind, reason: string, message: string)
    ensures Preserves(ConditionPlan(kind, reason, message), ConditionRest(kind))
  {
    var plan := ConditionPlan(kind, reason, message);
    forall v, now | plan(v, now).Some? ensures ConditionRest(kind)(plan(v, now).value) == ConditionRest(kind)(v) {
      UpsertKeepsOthers(v.conditions, FalseCall(kind, reason, message, now, v.generation));
    }
  }

  // ----- updateStatus: attempts that share a slice -----

  /** A reading of one component: failed, or its status with ready and desired replicas. */
  datatype Reading = Failed | Got(status: ComponentStatus)

  datatype Readings = Readings(indexer: Reading, manager: Reading, dashboard: Reading)

  /** Which component statuses the freshly read cluster already has. */
  datatype Present = Present(indexer: bool, manager: bool, dashboard: bool)

  predicate NotBehind(r: Reading) { r.Got? && r.status.Some? ==> r.status.value.0 >= r.status.value.1 }

  predicate Known(r: Reading, present: bool) { if r.Failed? then present else r.status.Some? }

  /** The guard of the Running branch. */
  predicate AllUp(r: Readings, p: Present) {
    && NotBehind(r.indexer) && NotBehind(r.manager) && NotBehind(r.dashboard)
    && Known(r.indexer, p.indexer) && Known(r.manager, p.manager) && Known(r.dashboard, p.dashboard)
  }

  function PhaseOf(up: bool): Phase { if up then Running else Creating }

  /** Conditions set by an attempt: two in the Running branch, one otherwise. */
  function Batch(up: bool, now: Time, generation: int): seq<Call> {
    if up then
      [Call(Ready, ConditionTrue, "ClusterReady", "All components are ready", now, generation),
       Call(Available, ConditionTrue, "ClusterAvailable", "Cluster is available", now, generation)]
    else
      [Call(Progressing, ConditionTrue, "ComponentsStarting", "Waiting for components to be ready", now, generation)]
  }

  /**
   Two Go slices: the working copy's and that of the object being written. They start on one backing array with
   `spare` free slots behind them and part when an append has to reallocate.
   */
  datatype Slices = Slices(working: seq<Condition>, latest: seq<Condition>, spare: nat, shared: bool)

  function Push(s: Slices, c: Call): Slices {
    var i, latest := Find(s.latest, c.kind), Upsert(s.latest, c);
    if i < |s.latest| then
      s.(latest := latest, working := if s.shared && i < |s.working| then s.working[i := latest[i]] else s.working)
    else if s.spare > 0 then s.(latest := latest, spare := s.spare - 1)
    else s.(latest := latest, shared := false)
  }

  function PushAll(s: Slices, cs: seq<Call>): Slices
    decreases |cs|
  {
    if cs == [] then s else PushAll(Push(s, cs[0]), cs[1..])
  }

  lemma PushOne(s: Slices, c: Call)
    ensures PushAll(s, [c]) == Push(s, c)
  {
    assert [c][1..] == [];
  }

  lemma PushTwo(s: Slices, c: Call, d: Call)
    ensures PushAll(s, [c, d]) == Push(Push(s, c), d)
  {
    assert [c, d][1..] == [d];
    PushOne(Push(s, c), d);
  }

  /** One attempt: the new object starts from the working copy's slice. */
  function Attempted(working: seq<Condition>, spare: nat, up: bool, now: Time, generation: int): Slices {
    PushAll(Slices(working, working, spare, true), Batch(up, now, generation))
  }

  /** updateCondition on a slice of length `len` over the backing array a. */
  method UpdateConditionInSlice(a: array<Condition>, len: nat, c: Call) returns (b: array<Condition>, n: nat)
    requires len <= a.Length
    modifies a
    ensures n <= b.Length && b[..n] == Upsert(old(a[..len]), c)
    ensures Find(old(a[..len]), c.kind) < len ==> b == a && n == len
    ensures Find(old(a[..len]), c.kind) == len ==>
      n == len + 1 && a[..len] == old(a[..len]) && (if len < a.Length then b == a else fresh(b))
    ensures b == a || fresh(b)
  {
    ghost var list := a[..len];
    var i := 0;
    while i < len
      invariant 0 <= i <= len && a[..len] == list
      invariant forall j :: 0 <= j < i ==> list[j].kind != c.kind
    {
      if a[i].kind == c.kind {
        var since := if a[i].status != c.status then c.now else a[i].since;
        assert Find(list, c.kind) == i;
        a[i] := Entry(c, since);
        assert a[..len] == list[i := Entry(c, since)];
        return a, len;
      }
      i := i + 1;
    }
    assert Find(list, c.kind) == len;
    if len < a.Length {
      a[len] := Entry(c, c.now);
      assert a[..len] == list;
      assert a[..len + 1] == list + [Entry(c, c.now)];
      return a, len + 1;
    }
    b := new Condition[2 * len + 1](k requires 0 <= k < 2 * len + 1 reads a =>
                                      if k < len then a[k] else Entry(c, c.now));
    n := len + 1;
    assert b[..n] == list + [Entry(c, c.now)];
  }

  /** The arrays hold these slices: the working copy is a[..len], the object being written b[..n]. */
  ghost predicate Holds(a: array<Condition>, len: nat, b: array<Condition>, n: nat, s: Slices)
    reads a, b
  {
    && len <= a.Length && len <= n <= b.Length
    && a[..len] == s.working && b[..n] == s.latest
    && (s.shared <==> a == b)
    && s.spare == if s.shared then a.Length - n else 0
  }

  method PushInPlace(a: array<Condition>, len: nat, b: array<Condition>, n: nat, c: Call, ghost s: Slices)
    returns (b': array<Condition>, n': nat)
    requires Holds(a, len, b, n, s)
    modifies a, b
    ensures Holds(a, len, b', n', Push(s, c))
    ensures b' == b || fresh(b')
  {
    hide Upsert;
    b', n' := UpdateConditionInSlice(b, n, c);
    assert s.shared ==> a[..len] == a[..n][..len];
    assert s.shared ==> b'[..n'][..len] == b'[..len];
    UpsertFront(s.latest, c);
  }

  lemma UpsertFront(list: seq<Condition>, c: Call)
    ensures |Upsert(list, c)| >= |list|
    ensures forall j :: 0 <= j < |list| && j != Find(list, c.kind) ==> Upsert(list, c)[j] == list[j]
  {}

  /** One attempt of updateStatus on the working copy's slice; what it would persist is the contents of b[..n]. */
  method UpdateStatusAttempt(a: array<Condition>, len: nat, r: Readings, p: Present, now: Time, generation: int)
    returns (phase: Phase, b: array<Condition>, n: nat)
    requires len <= a.Length
    modifies a
    ensures phase == PhaseOf(AllUp(r, p))
    ensures var s := Attempted(old(a[..len]), a.Length - len, AllUp(r, p), now, generation);
      n <= b.Length && b[..n] == s.latest && a[..len] == s.working
  {
    var up := AllUp(r, p);
    ghost var s := Slices(a[..len], a[..len], a.Length - len, true);
    var batch := Batch(up, now, generation);
    if up {
      phase := Running;
      PushTwo(s, batch[0], batch[1]);
      hide Push;
      b, n := PushInPlace(a, len, a, len, batch[0], s);
      b, n := PushInPlace(a, len, b, n, batch[1], Push(s, batch[0]));
    } else {
      phase := Creating;
      PushOne(s, batch[0]);
      b, n := PushInPlace(a, len, a, len, batch[0], s);
    }
  }

  /** An attempt that got as far as setting conditions: the branch it took, its clock and the generation it read. */
  datatype Try = Try(up: bool, now: Time, generation: int)

  /** The working copy after these attempts failed to write. */
  function WorkingAfter(working: seq<Condition>, spare: nat, tries: seq<Try>): seq<Condition> {
    if tries == [] then working else
    var t := tries[|tries| - 1];
    Attempted(WorkingAfter(working, spare, tries[..|tries| - 1]), spare, t.up, t.now, t.generation).working
  }

  /** The conditions persisted when all attempts but the last one fail. */
  function Persisted(working: seq<Condition>, spare: nat, tries: seq<Try>): seq<Condition>
    requires tries != []
  {
    var t := tries[|tries| - 1];
    Attempted(WorkingAfter(working, spare, tries[..|tries| - 1]), spare, t.up, t.now, t.generation).latest
  }

  /** One round of the retry loop: the read fails, or the attempt runs and its write ends with `error`. */
  datatype Round = Unread(error: Error)
                 | Round(readings: Readings, present: Present, now: Time, generation: int, outcome: Option<Error>)

  /** The attempts of the first n rounds. */
  function Tries(rounds: seq<Round>, n: nat): seq<Try>
    requires n <= |rounds|
  {
    if n == 0 then [] else
    var front, r := Tries(rounds, n - 1), rounds[n - 1];
    if r.Unread? then front else front + [Try(AllUp(r.readings, r.present), r.now, r.generation)]
  }

  /** Round k persisted the phase of its readings and the conditions its attempts add up to. */
  ghost predicate Wrote(w: seq<Condition>, spare: nat, rounds: seq<Round>, k: nat, phase: Phase,
                        conditions: seq<Condition>) {
    && k < |rounds| && rounds[k].Round? && Tries(rounds, k + 1) != []
    && phase == PhaseOf(AllUp(rounds[k].readings, rounds[k].present))
    && conditions == Persisted(w, spare, Tries(rounds, k + 1))
  }

  /** What one more round adds. */
  lemma RoundAdds(w: seq<Condition>, spare: nat, rounds: seq<Round>, k: nat)
    requires k < |rounds|
    ensures rounds[k].Unread? ==> Tries(rounds, k + 1) == Tries(rounds, k)
    ensures rounds[k].Round? ==>
      var r, before := rounds[k], WorkingAfter(w, spare, Tries(rounds, k));
      var s := Attempted(before, spare, AllUp(r.readings, r.present), r.now, r.generation);
      && WorkingAfter(w, spare, Tries(rounds, k + 1)) == s.working
      && Wrote(w, spare, rounds, k, PhaseOf(AllUp(r.readings, r.present)), s.latest)
  {
    hide AllUp, Attempted;
    if rounds[k].Round? {
      var front, r := Tries(rounds, k), rounds[k];
      var t := Try(AllUp(r.readings, r.present), r.now, r.generation);
      assert (front + [t])[..|front|] == front;
    }
  }

  // ----- updateStatus on the stored cluster -----

  function PresentOf(v: ClusterStatus): Present { Present(v.indexer.Some?, v.manager.Some?, v.dashboard.Some?) }

  /** A component status after its reading; a failed one leaves it. */
  function ReadInto(r: Reading, was: ComponentStatus): ComponentStatus { if r.Failed? then was else r.status }

  /** The object an attempt writes, given what it read. */
  function Written(w: seq<Condition>, spare: nat, r: Readings, work: Copied, v: ClusterStatus,
                   now: Time): ClusterStatus {
    var up := AllUp(r, PresentOf(v));
    v.(conditions := Attempted(w, spare, up, now, v.generation).latest, copied := work,
       indexer := ReadInto(r.indexer, v.indexer), manager := ReadInto(r.manager, v.manager),
       dashboard := ReadInto(r.dashboard, v.dashboard), phase := PhaseOf(up), observed := v.generation,
       lastUpdate := Some(now))
  }

  /** The overlay of one attempt on the working copy w. */
  function StatusPlan(w: seq<Condition>, spare: nat, r: Readings, work: Copied): Plan<ClusterStatus> {
    (v: ClusterStatus, now: Time) => Some(Written(w, spare, r, work, v, now))
  }

  /** One attempt: the component readings it makes and what its API calls meet. */
  datatype StatusAttempt = StatusAttempt(readings: Readings, attempt: Attempt<ClusterStatus>)

  type Clusters = seq<Version<ClusterStatus>>

  /** What the attempt reads. */
  function ReadOf(h: Clusters, a: Attempt<ClusterStatus>): Option<ClusterStatus>
    requires |h| > 0
  {
    var h1 := h + Foreigns(a.before);
    if a.fate.GetFails? then None else h1[ReadIndex(|h1|, a.lag)].value
  }

  /** A call of updateStatus: its working conditions with their spare capacity, its other fields, and its attempts. */
  datatype StatusCall = StatusCall(w: seq<Condition>, spare: nat, work: Copied, script: seq<StatusAttempt>)

  /** The stored cluster and the working copy. */
  datatype Progress = Progress(history: Clusters, working: seq<Condition>)

  function Attempting(c: StatusCall, p: Progress, k: nat): Outcome<ClusterStatus>
    requires k < |c.script| && |p.history| > 0
  {
    OptimisticRetry.Try(StatusPlan(p.working, c.spare, c.script[k].readings, c.work), p.history, c.script[k].attempt)
  }

  function WorkingNext(c: StatusCall, p: Progress, k: nat): seq<Condition>
    requires k < |c.script| && |p.history| > 0
  {
    var t := c.script[k];
    match ReadOf(p.history, t.attempt)
    case None => p.working
    case Some(v) =>
      Attempted(p.working, c.spare, AllUp(t.readings, PresentOf(v)), t.attempt.now, v.generation).working
  }

  /** Where the first k attempts leave the call. */
  function After(c: StatusCall, h: Clusters, k: nat): (p: Progress)
    requires k <= |c.script| && |h| > 0
    ensures h <= p.history
  {
    if k == 0 then Progress(h, c.w) else
    var p := After(c, h, k - 1);
    var plan := StatusPlan(p.working, c.spare, c.script[k - 1].readings, c.work);
    TryExtends(plan, p.history, c.script[k - 1].attempt);
    Progress(Attempting(c, p, k - 1).history, WorkingNext(c, p, k - 1))
  }

  function ErrorAt(c: StatusCall, h: Clusters, k: nat): Option<Error>
    requires k < |c.script| && |h| > 0
  {
    Attempting(c, After(c, h, k), k).error
  }

  /** The call goes on after attempt k. */
  predicate GoesOn(c: StatusCall, h: Clusters, k: nat)
    requires k < |c.script| && |h| > 0
  {
    ErrorAt(c, h, k) == Some(Transient) && k < MAX_ATTEMPTS - 1 && !c.script[k].attempt.cancelled
  }

  /** The call ends with attempt k. */
  ghost predicate EndsAt(c: StatusCall, h: Clusters, k: nat)
    requires |h| > 0
  {
    && k < |c.script| && !GoesOn(c, h, k) && forall i :: 0 <= i < k ==> GoesOn(c, h, i)
  }

  /** Its error: that of the last attempt, or the cancellation while waiting for another one. */
  function FinalError(c: StatusCall, h: Clusters, k: nat): Option<Error>
    requires k < |c.script| && |h| > 0
  {
    var e := ErrorAt(c, h, k);
    if e == Some(Transient) && k < MAX_ATTEMPTS - 1 && c.script[k].attempt.cancelled then Some(Cancelled) else e
  }

  /** One attempt on the stored cluster and the shared slice. */
  method RunAttempt(store: StoredObject<ClusterStatus>, a: array<Condition>, len: nat, work: Copied, t: StatusAttempt)
    returns (error: Option<Error>)
    requires |store.history| > 0 && len <= a.Length
    modifies store, a
    ensures var plan := StatusPlan(old(a[..len]), a.Length - len, t.readings, work);
      Outcome(store.history, error) == OptimisticRetry.Try(plan, old(store.history), t.attempt)
    ensures a[..len] == match ReadOf(old(store.history), t.attempt)
      case None => old(a[..len])
      case Some(v) =>
        Attempted(old(a[..len]), a.Length - len, AllUp(t.readings, PresentOf(v)), t.attempt.now, v.generation).working
  {
    hide Attempted, AllUp;
    var e := t.attempt;
    store.history := store.history + Foreigns(e.before);
    if e.fate.GetFails? { return Some(e.fate.error); }
    var version := ReadIndex(|store.history|, e.lag);
    var read := store.history[version].value;
    if read.None? { return Some(NotFound); }
    var v, r := read.value, t.readings;
    var phase, b, n := UpdateStatusAttempt(a, len, r, PresentOf(v), e.now, v.generation);
    var write := v.(conditions := b[..n], copied := work, indexer := ReadInto(r.indexer, v.indexer),
      manager := ReadInto(r.manager, v.manager), dashboard := ReadInto(r.dashboard, v.dashboard), phase := phase,
      observed := v.generation, lastUpdate := Some(e.now));
    assert write == Written(old(a[..len]), a.Length - len, r, work, v, e.now);
    hide Written;
    store.history := store.history + Foreigns(e.between);
    if e.fate.UpdateFails? {
      if e.fate.applied {
        var _ := store.CompareAndSwap(write, version, e.now);
      }
      return Some(e.fate.error);
    }
    var ok := store.CompareAndSwap(write, version, e.now);
    if ok { return None; }
    return Some(if store.history[|store.history| - 1].value.None? then NotFound else Transient);
  }

  /** updateStatus: the attempt it ends with, its error, and the stored cluster and working copy it leaves. */
  method UpdateStatus(store: StoredObject<ClusterStatus>, a: array<Condition>, len: nat, work: Copied,
                      script: seq<StatusAttempt>) returns (k: nat, error: Option<Error>)
    requires |store.history| > 0 && len <= a.Length && |script| == MAX_ATTEMPTS
    modifies store, a
    ensures var c := StatusCall(old(a[..len]), a.Length - len, work, script);
      && EndsAt(c, old(store.history), k) && error == FinalError(c, old(store.history), k)
      && Progress(store.history, a[..len]) == After(c, old(store.history), k + 1)
  {
    hide OptimisticRetry.Try, StatusPlan, Attempted, AllUp, ReadOf;
    ghost var c, h := StatusCall(a[..len], a.Length - len, work, script), store.history;
    k := 0;
    while true
      invariant k < MAX_ATTEMPTS && Progress(store.history, a[..len]) == After(c, h, k)
      invariant forall i :: 0 <= i < k ==> GoesOn(c, h, i)
      decreases MAX_ATTEMPTS - k
    {
      error := RunAttempt(store, a, len, work, script[k]);
      if error != Some(Transient) || k == MAX_ATTEMPTS - 1 { return; }
      if script[k].attempt.cancelled { return k, Some(Cancelled); }
      k := k + 1;
    }
  }

  // ----- What the call persists -----

  /** Attempt i as a round. */
  function RoundOf(c: StatusCall, h: Clusters, i: nat): Round
    requires i < |c.script| && |h| > 0
  {
    var p, t := After(c, h, i), c.script[i];
    match ReadOf(p.history, t.attempt)
    case None => Unread(NotFound)
    case Some(v) => Round(t.readings, PresentOf(v), t.attempt.now, v.generation, ErrorAt(c, h, i))
  }

  function Rounds(c: StatusCall, h: Clusters, n: nat): (r: seq<Round>)
    requires n <= |c.script| && |h| > 0
    ensures |r| == n && forall i :: 0 <= i < n ==> r[i] == RoundOf(c, h, i)
  {
    seq(n, i requires 0 <= i < n && n <= |c.script| => RoundOf(c, h, i))
  }

  lemma {:induction false} TriesOfPrefix(rounds: seq<Round>, more: seq<Round>, n: nat)
    requires n <= |rounds| <= |more| && forall i :: 0 <= i < n ==> rounds[i] == more[i]
    ensures Tries(rounds, n) == Tries(more, n)
  {
    if n > 0 { TriesOfPrefix(rounds, more, n - 1); }
  }

  lemma RoundMoves(c: StatusCall, h: Clusters, k: nat)
    requires k < |c.script| && |h| > 0
    ensures var w, r, after := After(c, h, k).working, RoundOf(c, h, k), After(c, h, k + 1).working;
      after == if r.Unread? then w
               else Attempted(w, c.spare, AllUp(r.readings, r.present), r.now, r.generation).working
  {
    hide OptimisticRetry.Try, StatusPlan, Attempted, AllUp, ReadOf;
  }

  /** The working copy after k attempts is what their rounds add up to. */
  ghost predicate AddsUp(c: StatusCall, h: Clusters, k: nat)
    requires k <= |c.script| && |h| > 0
  {
    After(c, h, k).working == WorkingAfter(c.w, c.spare, Tries(Rounds(c, h, k), k))
  }

  lemma AddsUpStep(c: StatusCall, h: Clusters, k: nat)
    requires k < |c.script| && |h| > 0 && AddsUp(c, h, k)
    ensures AddsUp(c, h, k + 1)
    ensures var w := WorkingAfter(c.w, c.spare, Tries(Rounds(c, h, k + 1), k)); After(c, h, k).working == w
  {
    hide After, RoundOf, Attempted, AllUp, WorkingAfter, Rounds, Tries, Wrote;
    var rounds := Rounds(c, h, k + 1);
    TriesOfPrefix(Rounds(c, h, k), rounds, k);
    RoundMoves(c, h, k);
    RoundAdds(c.w, c.spare, rounds, k);
  }

  lemma AddsUpStart(c: StatusCall, h: Clusters)
    requires |h| > 0
    ensures AddsUp(c, h, 0)
  {
    hide Attempted, AllUp, RoundOf;
    assert Tries(Rounds(c, h, 0), 0) == [];
  }

  /** So also after a failed call: the attempts leave their marks on the caller's slice. */
  lemma {:induction false} RoundsAddUp(c: StatusCall, h: Clusters, k: nat)
    requires k <= |c.script| && |h| > 0
    ensures AddsUp(c, h, k)
  {
    hide AddsUp;
    if k == 0 {
      AddsUpStart(c, h);
    } else {
      RoundsAddUp(c, h, k - 1);
      AddsUpStep(c, h, k - 1);
    }
  }

  lemma SuccessfulTry(plan: Plan<ClusterStatus>, h: Clusters, a: Attempt<ClusterStatus>)
    requires |h| > 0 && OptimisticRetry.Try(plan, h, a).error.None? && forall v, now :: plan(v, now).Some?
    ensures var g := OptimisticRetry.Try(plan, h, a).history;
      && |g| > |h| && ReadOf(h, a).Some? && g[|g| - 1].author == Operator(a.now)
      && g[|g| - 1].value == plan(ReadOf(h, a).value, a.now)
  {}

  /**
   A successful call persists its working copy's fields whatever others wrote there, the phase of its last readings, and
   the conditions its attempts on the shared slice add up to.
   */
  lemma UpdateStatusPersists(c: StatusCall, h: Clusters, k: nat)
    requires |h| > 0 && EndsAt(c, h, k) && FinalError(c, h, k).None?
    ensures var g := After(c, h, k + 1).history;
      && |g| > |h| && g[|g| - 1].value.Some?
      && g[|g| - 1].value.value.copied == c.work
      && g[|g| - 1].value.value.observed == g[|g| - 1].value.value.generation
      && Wrote(c.w, c.spare, Rounds(c, h, k + 1), k, g[|g| - 1].value.value.phase, g[|g| - 1].value.value.conditions)
  {
    hide OptimisticRetry.Try, ReadOf, Attempted, AllUp, Tries, WorkingAfter, Rounds, Wrote;
    var p, t := After(c, h, k), c.script[k];
    var plan := StatusPlan(p.working, c.spare, t.readings, c.work);
    SuccessfulTry(plan, p.history, t.attempt);
    RoundsAddUp(c, h, k);
    AddsUpStep(c, h, k);
    RoundAdds(c.w, c.spare, Rounds(c, h, k + 1), k);
  }

  /** What updateStatus must not touch. */
  function StatusRest(): ClusterStatus -> (int, map<string, string>) { (v: ClusterStatus) => (v.generation, v.others) }

  /** Own versions from `from` on leave the observation as they found it. */
  ghost predicate OwnKeep<R(!new)>(rest: ClusterStatus -> R, g: Clusters, from: nat)
    requires 0 < from
  {
    forall i :: from <= i < |g| && g[i].author.Operator? ==> Observe(rest, g[i]) == Observe(rest, g[i - 1])
  }

  lemma {:induction false} KeptSinceForeign<R(!new)>(rest: ClusterStatus -> R, g: Clusters, from: nat, j: nat)
    requires 0 < from <= |g| && OwnKeep(rest, g, from) && LastForeign(g, from) <= j < |g|
    ensures Observe(rest, g[j]) == Observe(rest, g[LastForeign(g, from)])
  {
    hide LastForeign;
    if j > LastForeign(g, from) { KeptSinceForeign(rest, g, from, j - 1); }
  }

  lemma {:induction false} StatusOwnKeep(c: StatusCall, h: Clusters, k: nat)
    requires k <= |c.script| && |h| > 0
    ensures OwnKeep(StatusRest(), After(c, h, k).history, |h|)
  {
    if k > 0 {
      StatusOwnKeep(c, h, k - 1);
      var p, t := After(c, h, k - 1), c.script[k - 1];
      var plan := StatusPlan(p.working, c.spare, t.readings, c.work);
      TrySerial(plan, p.history, t.attempt);
      var g := After(c, h, k).history;
      assert g == OptimisticRetry.Try(plan, p.history, t.attempt).history;
      hide OptimisticRetry.Try, Attempted, AllUp, After;
      forall i | |h| <= i < |g| && g[i].author.Operator?
        ensures Observe(StatusRest(), g[i]) == Observe(StatusRest(), g[i - 1])
      {
        if i < |p.history| {
          assert g[i] == p.history[i] && g[i - 1] == p.history[i - 1];
        } else {
          assert OwnStep(plan, g, i);
        }
      }
    }
  }

  /** Whatever the attempts meet, the call loses no foreign update outside the fields it copies or computes. */
  lemma StatusWriteLosesNothingElse(c: StatusCall, h: Clusters, k: nat)
    requires k <= |c.script| && |h| > 0
    ensures var g := After(c, h, k).history;
      h <= g && Observe(StatusRest(), g[|g| - 1]) == Observe(StatusRest(), g[LastForeign(g, |h|)])
  {
    hide After, StatusRest, OwnKeep;
    StatusOwnKeep(c, h, k);
    var g := After(c, h, k).history;
    KeptSinceForeign(StatusRest(), g, |h|, |g| - 1);
  }

  /** What a reader of the conditions acts on: type, status, reason and message, in list order. */
  function View(list: seq<Condition>): seq<(Kind, Status, string, string)> {
    seq(|list|, i requires 0 <= i < |list| => Shown(list[i]))
  }

  function Shown(e: Condition): (Kind, Status, string, string) { (e.kind, e.status, e.reason, e.message) }

  function UpsertAll(list: seq<Condition>, cs: seq<Call>): seq<Condition>
    decreases |cs|
  {
    if cs == [] then list else UpsertAll(Upsert(list, cs[0]), cs[1..])
  }

  function Kinds(cs: seq<Call>): set<Kind> { set c | c in cs :: c.kind }

  /** The lists show the same except possibly in the entries an upsert of these types would replace. */
  ghost predicate Alike(v: seq<Condition>, w: seq<Condition>, kinds: set<Kind>) {
    && |v| == |w|
    && (forall i :: 0 <= i < |v| ==> v[i].kind == w[i].kind)
    && (forall i :: 0 <= i < |v| && Shown(v[i]) != Shown(w[i]) ==> v[i].kind in kinds && i == Find(v, v[i].kind))
  }

  lemma AlikeFind(v: seq<Condition>, w: seq<Condition>, kinds: set<Kind>, kind: Kind)
    requires Alike(v, w, kinds)
    ensures Find(v, kind) == Find(w, kind)
  {}

  lemma AlikeUpsert(v: seq<Condition>, w: seq<Condition>, kinds: set<Kind>, c: Call)
    requires Alike(v, w, kinds)
    ensures Alike(Upsert(v, c), Upsert(w, c), kinds - {c.kind})
  {
    AlikeFind(v, w, kinds, c.kind);
  }

  lemma {:induction false} AlikeUpsertAll(v: seq<Condition>, w: seq<Condition>, kinds: set<Kind>, cs: seq<Call>)
    requires Alike(v, w, kinds) && kinds <= Kinds(cs)
    ensures View(UpsertAll(v, cs)) == View(UpsertAll(w, cs))
    decreases |cs|
  {
    if cs == [] {
    } else {
      AlikeUpsert(v, w, kinds, cs[0]);
      AlikeUpsertAll(Upsert(v, cs[0]), Upsert(w, cs[0]), kinds - {cs[0].kind}, cs[1..]);
    }
  }

  /** While the slices share their array the working copy is the front of the other one. */
  ghost predicate InStep(s: Slices) {
    s.shared ==> |s.working| <= |s.latest| && s.working == s.latest[..|s.working|]
  }

  lemma AlikeReplace(w: seq<Condition>, v: seq<Condition>, kinds: set<Kind>, i: nat, e: Condition)
    requires Alike(w, v, kinds) && i < |v| && i == Find(w, e.kind)
    ensures Alike(w, v[i := e], kinds + {e.kind})
  {}

  lemma PushInStep(s: Slices, c: Call)
    requires InStep(s)
    ensures InStep(Push(s, c))
  {
    UpsertFront(s.latest, c);
    hide Upsert;
  }

  lemma PushEffect(w: seq<Condition>, s: Slices, kinds: set<Kind>, c: Call)
    requires InStep(s) && Alike(w, s.working, kinds)
    ensures InStep(Push(s, c)) && Alike(w, Push(s, c).working, kinds + {c.kind})
  {
    PushInStep(s, c);
    AlikeFind(w, s.working, kinds, c.kind);
    var i := Find(s.latest, c.kind);
    if s.shared && i < |s.working| {
      assert i == Find(s.working, c.kind);
      AlikeReplace(w, s.working, kinds, i, Upsert(s.latest, c)[i]);
    }
  }

  lemma {:induction false} PushAllEffect(w: seq<Condition>, s: Slices, kinds: set<Kind>, cs: seq<Call>)
    requires InStep(s) && Alike(w, s.working, kinds)
    ensures PushAll(s, cs).latest == UpsertAll(s.latest, cs)
    ensures Alike(w, PushAll(s, cs).working, kinds + Kinds(cs))
    decreases |cs|
  {
    if cs != [] {
      var c, t := cs[0], Push(s, cs[0]);
      assert t.latest == Upsert(s.latest, c);
      hide Push, Alike, InStep, Upsert;
      PushEffect(w, s, kinds, c);
      PushAllEffect(w, t, kinds + {c.kind}, cs[1..]);
      assert kinds + {c.kind} + Kinds(cs[1..]) == kinds + Kinds(cs);
    }
  }

  lemma AttemptEffect(w: seq<Condition>, v: seq<Condition>, spare: nat, t: Try)
    requires Alike(w, v, Kinds(Batch(t.up, t.now, t.generation)))
    ensures var s := Attempted(v, spare, t.up, t.now, t.generation);
      && s.latest == UpsertAll(v, Batch(t.up, t.now, t.generation))
      && Alike(w, s.working, Kinds(Batch(t.up, t.now, t.generation)))
  {
    var batch := Batch(t.up, t.now, t.generation);
    PushAllEffect(w, Slices(v, v, spare, true), Kinds(batch), batch);
    assert Kinds(batch) + Kinds(batch) == Kinds(batch);
  }

  lemma BatchKinds(t: Try)
    ensures Kinds(Batch(t.up, t.now, t.generation)) == if t.up then {Ready, Available} else {Progressing}
  {
    var b := Batch(t.up, t.now, t.generation);
    if t.up { assert b[0] in b && b[1] in b; } else { assert b[0] in b; }
  }

  ghost predicate SameBranch(tries: seq<Try>, up: bool) {
    forall i :: 0 <= i < |tries| ==> tries[i].up == up
  }

  lemma {:induction false} WorkingStaysAlike(w: seq<Condition>, spare: nat, tries: seq<Try>, t: Try)
    requires SameBranch(tries, t.up)
    ensures Alike(w, WorkingAfter(w, spare, tries), Kinds(Batch(t.up, t.now, t.generation)))
    decreases |tries|
  {
    if tries != [] {
      var front, u := tries[..|tries| - 1], tries[|tries| - 1];
      BatchKinds(t);
      BatchKinds(u);
      WorkingStaysAlike(w, spare, front, t);
      AttemptEffect(w, WorkingAfter(w, spare, front), spare, u);
    }
  }

  /** Retries are invisible for this working copy: the outcome shows what the last attempt alone would have written. */
  ghost predicate TransparentFor(w: seq<Condition>, spare: nat, tries: seq<Try>)
    requires tries != []
  {
    View(Persisted(w, spare, tries)) == View(Persisted(w, spare, [tries[|tries| - 1]]))
  }

  /** Retries are invisible for every working copy and capacity. */
  ghost predicate Transparent(tries: seq<Try>) { tries != [] && forall w, spare :: TransparentFor(w, spare, tries) }

  lemma SameBranchTransparent(w: seq<Condition>, spare: nat, tries: seq<Try>)
    requires tries != [] && SameBranch(tries, tries[|tries| - 1].up)
    ensures TransparentFor(w, spare, tries)
    ensures View(Persisted(w, spare, tries)) ==
      var t := tries[|tries| - 1]; View(UpsertAll(w, Batch(t.up, t.now, t.generation)))
  {
    var front, t := tries[..|tries| - 1], tries[|tries| - 1];
    var batch := Batch(t.up, t.now, t.generation);
    WorkingStaysAlike(w, spare, front, t);
    AttemptEffect(w, WorkingAfter(w, spare, front), spare, t);
    AttemptEffect(w, w, spare, t);
    AlikeUpsertAll(w, WorkingAfter(w, spare, front), Kinds(batch), batch);
    assert [t][..0] == [];
  }

  function Plain(kind: Kind): Condition { Condition(kind, ConditionFalse, "", "", 0, 0) }

  const PLAIN_LIST: seq<Condition> := [Plain(Ready), Plain(Available), Plain(Progressing)]

  /** The three conditions in place, Ready (or Progressing) true exactly if some attempt took that branch. */
  ghost predicate Marked(list: seq<Condition>, tries: seq<Try>) {
    && |list| == 3 && list[0].kind == Ready && list[1].kind == Available && list[2].kind == Progressing
    && (list[0].status == ConditionTrue <==> exists i :: 0 <= i < |tries| && tries[i].up)
    && (list[2].status == ConditionTrue <==> exists i :: 0 <= i < |tries| && !tries[i].up)
  }

  lemma MarkedStep(list: seq<Condition>, tries: seq<Try>)
    requires tries != [] && Marked(list, tries[..|tries| - 1])
    ensures var t := tries[|tries| - 1];
      var s := Attempted(list, 0, t.up, t.now, t.generation);
      Marked(s.working, tries) && Marked(s.latest, tries)
  {
    var t, front := tries[|tries| - 1], tries[..|tries| - 1];
    var batch := Batch(t.up, t.now, t.generation);
    var s := Slices(list, list, 0, true);
    assert forall i :: 0 <= i < |front| ==> front[i] == tries[i];
    if t.up {
      assert Find(list, Ready) == 0;
      var u := Push(s, batch[0]);
      assert Find(u.latest, Available) == 1;
      PushTwo(s, batch[0], batch[1]);
    } else {
      assert Find(list, Progressing) == 2;
      PushOne(s, batch[0]);
    }
  }

  lemma {:induction false} MarkedAfter(tries: seq<Try>)
    ensures Marked(WorkingAfter(PLAIN_LIST, 0, tries), tries)
    decreases |tries|
  {
    if tries == [] {
      assert WorkingAfter(PLAIN_LIST, 0, tries) == PLAIN_LIST;
    } else {
      hide Attempted, Marked, PLAIN_LIST;
      MarkedAfter(tries[..|tries| - 1]);
      MarkedStep(WorkingAfter(PLAIN_LIST, 0, tries[..|tries| - 1]), tries);
    }
  }

  lemma PlainPersisted(tries: seq<Try>)
    requires tries != []
    ensures Marked(Persisted(PLAIN_LIST, 0, tries), tries)
  {
    hide Attempted, Marked, PLAIN_LIST, WorkingAfter;
    MarkedAfter(tries[..|tries| - 1]);
    MarkedStep(WorkingAfter(PLAIN_LIST, 0, tries[..|tries| - 1]), tries);
  }

  lemma OtherBranchShows(tries: seq<Try>)
    requires tries != [] && !SameBranch(tries, tries[|tries| - 1].up)
    ensures !TransparentFor(PLAIN_LIST, 0, tries)
  {
    hide Persisted;
    var t := tries[|tries| - 1];
    PlainPersisted(tries);
    PlainPersisted([t]);
    var i :| 0 <= i < |tries| && tries[i].up != t.up;
    var long, single := Persisted(PLAIN_LIST, 0, tries), Persisted(PLAIN_LIST, 0, [t]);
    var k := if t.up then 2 else 0;
    assert long[k].status == ConditionTrue && single[k].status != ConditionTrue;
    assert View(long)[k] == Shown(long[k]) && View(single)[k] == Shown(single[k]);
  }

  /**
   Conflict retries are invisible in the persisted conditions for every working copy and capacity if and only if
   no attempt takes another branch than the last one.
   */
  lemma RetriesTransparentIff(tries: seq<Try>)
    requires tries != []
    ensures Transparent(tries) <==> SameBranch(tries, tries[|tries| - 1].up)
  {
    if SameBranch(tries, tries[|tries| - 1].up) {
      forall w, spare ensures TransparentFor(w, spare, tries) { SameBranchTransparent(w, spare, tries); }
    } else {
      OtherBranchShows(tries);
    }
  }

  /** The branch round i takes. */
  predicate Branch(r: Round)
    requires r.Round?
  {
    AllUp(r.readings, r.present)
  }

  /** Every attempt up to round k takes the branch of round k. */
  ghost predicate OneBranch(rounds: seq<Round>, k: nat)
    requires k < |rounds| && rounds[k].Round?
  {
    forall i :: 0 <= i <= k && rounds[i].Round? ==> Branch(rounds[i]) == Branch(rounds[k])
  }

  lemma {:induction false} BranchesOfTries(rounds: seq<Round>, n: nat, up: bool)
    requires n <= |rounds|
    ensures SameBranch(Tries(rounds, n), up) <==> forall i :: 0 <= i < n && rounds[i].Round? ==> Branch(rounds[i]) == up
  {
    hide AllUp;
    if n > 0 {
      BranchesOfTries(rounds, n - 1, up);
      var front, all := Tries(rounds, n - 1), Tries(rounds, n);
      assert forall i :: 0 <= i < |front| ==> all[i] == front[i];
      if rounds[n - 1].Round? { assert all[|front|].up == Branch(rounds[n - 1]); }
    }
  }

  lemma TriesOfRound(rounds: seq<Round>, k: nat)
    requires k < |rounds| && rounds[k].Round?
    ensures var t := Tries(rounds, k + 1);
      t != [] && t[|t| - 1] == Try(Branch(rounds[k]), rounds[k].now, rounds[k].generation)
      && (SameBranch(t, t[|t| - 1].up) <==> OneBranch(rounds, k))
  {
    BranchesOfTries(rounds, k + 1, Branch(rounds[k]));
    hide AllUp, SameBranch;
  }

  /**
   Which conflict retries of updateStatus are invisible in what round k persists, for every working copy: exactly those
   where no earlier attempt takes another branch.
   */
  lemma RoundsTransparentIff(rounds: seq<Round>, k: nat)
    requires k < |rounds| && rounds[k].Round?
    ensures Transparent(Tries(rounds, k + 1)) <==> OneBranch(rounds, k)
  {
    hide AllUp, SameBranch, TransparentFor, OneBranch;
    TriesOfRound(rounds, k);
    RetriesTransparentIff(Tries(rounds, k + 1));
  }

  /** What a successful updateStatus persists when its attempts agree: what one attempt on the working copy would. */
  lemma OneBranchPersists(w: seq<Condition>, spare: nat, rounds: seq<Round>, k: nat, phase: Phase,
                          conditions: seq<Condition>)
    requires Wrote(w, spare, rounds, k, phase, conditions) && OneBranch(rounds, k)
    ensures phase == PhaseOf(Branch(rounds[k]))
    ensures View(conditions) == View(UpsertAll(w, Batch(Branch(rounds[k]), rounds[k].now, rounds[k].generation)))
  {
    hide AllUp, SameBranch, Persisted, OneBranch;
    TriesOfRound(rounds, k);
    SameBranchTransparent(w, spare, Tries(rounds, k + 1));
  }

  ghost predicate Steady(rounds: seq<Round>, k: nat, r: Readings) {
    forall i :: 0 <= i <= k && i < |rounds| && rounds[i].Round? ==> rounds[i].readings == r
  }

  /**
   With steady readings, failing ones included, retries are invisible for every working copy iff the re-read clusters
   decide the branch alike in every attempt.
   */
  lemma SteadyReadingsTransparentIff(rounds: seq<Round>, k: nat, r: Readings)
    requires k < |rounds| && rounds[k].Round? && Steady(rounds, k, r)
    ensures Transparent(Tries(rounds, k + 1)) <==>
      forall i :: 0 <= i <= k && rounds[i].Round? ==> AllUp(r, rounds[i].present) == AllUp(r, rounds[k].present)
  {
    RoundsTransparentIff(rounds, k);
    hide AllUp, Transparent;
  }

  /** Readings that all succeed fix the branch whatever statuses the re-read cluster has. */
  lemma SteadyReadingsFixBranch(r: Readings, p: Present, q: Present)
    requires !r.indexer.Failed? && !r.manager.Failed? && !r.dashboard.Failed?
    ensures AllUp(r, p) == AllUp(r, q)
  {}

  /**
   With component readings that neither fail nor change between attempts, any number of conflict retries, against any
   interfering writers, persists the phase and the conditions of a single attempt.
   */
  lemma SteadyReadingsTransparent(w: seq<Condition>, spare: nat, rounds: seq<Round>, k: nat, r: Readings, phase: Phase,
                                  conditions: seq<Condition>)
    requires Wrote(w, spare, rounds, k, phase, conditions) && Steady(rounds, k, r)
    requires !r.indexer.Failed? && !r.manager.Failed? && !r.dashboard.Failed?
    ensures phase == PhaseOf(AllUp(r, rounds[k].present))
    ensures View(conditions) ==
      View(UpsertAll(w, Batch(AllUp(r, rounds[k].present), rounds[k].now, rounds[k].generation)))
  {
    forall i | 0 <= i <= k && rounds[i].Round? ensures Branch(rounds[i]) == Branch(rounds[k]) {
      SteadyReadingsFixBranch(r, rounds[i].present, rounds[k].present);
    }
    hide AllUp, Persisted;
    OneBranchPersists(w, spare, rounds, k, phase, conditions);
  }

  /** The same reading fails in both attempts; another writer clears the indexer's status in between. */
  const FAILING := Readings(Failed, Got(Some((1, 1))), Got(Some((1, 1))))

  const FLIPPED_ROUNDS: seq<Round> :=
    [Round(FAILING, Present(true, true, true), 1, 1, Some(Transient)),
     Round(FAILING, Present(false, true, true), 2, 1, None)]

  /** Steady readings that fail are not enough: the first attempt's Running branch shows in what the second persists. */
  lemma FailingReadingShows()
    ensures Steady(FLIPPED_ROUNDS, 1, FAILING) && Tries(FLIPPED_ROUNDS, 2) != []
    ensures !TransparentFor(PLAIN_LIST, 0, Tries(FLIPPED_ROUNDS, 2))
  {
    TriesOfRound(FLIPPED_ROUNDS, 1);
    assert Branch(FLIPPED_ROUNDS[0]) && !Branch(FLIPPED_ROUNDS[1]);
    hide AllUp, TransparentFor;
    OtherBranchShows(Tries(FLIPPED_ROUNDS, 2));
  }
}
