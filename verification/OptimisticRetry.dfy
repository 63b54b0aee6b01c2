/**
 Optimistic concurrency against the Kubernetes API server: an object is read, an overlay is computed
 from what was read, and the result is written back only if nobody wrote in between.

 An object is its whole history of versions. The resource version of a read is an index into that
 history, so a write succeeds exactly when the version it was computed from is still the last one.
 What the rest of the cluster does meanwhile, and how each API call ends, is an explicit script.
 */
module OptimisticRetry {
  import opened Prelude

  /** Attempts made by RetryOnConflict: the first one and MaxRetries = 3 more. */
  const MAX_ATTEMPTS: nat := 4

  datatype Error = NotFound | Transient | Permanent | Cancelled | Crashed

  datatype Writer = Foreign | Operator(now: Time)

  /** One version of an object; a deleted object has no value. */
  datatype Version<V> = Version(value: Option<V>, author: Writer)

  /** How the API calls of one attempt end. A failed update may still have been applied. */
  datatype Fate = Clean | GetFails(error: Error) | UpdateFails(error: Error, applied: bool)

  /**
   The environment of one attempt: versions written by others before the read and between read and
   write, how stale the read is, how the calls end, and whether the context is cancelled while waiting.
   */
  datatype Attempt<V> = Attempt(now: Time, before: seq<Option<V>>, lag: nat, between: seq<Option<V>>,
                                fate: Fate, cancelled: bool)

  /** The overlay closure: what to write given what was read, or nothing to write. */
  type Plan<!V> = (V, Time) -> Option<V>

  datatype Outcome<V> = Outcome(history: seq<Version<V>>, error: Option<Error>)

  function Foreigns<V>(values: seq<Option<V>>): (r: seq<Version<V>>)
    ensures |r| == |values|
    ensures forall i :: 0 <= i < |r| ==> r[i] == Version(values[i], Foreign)
  {
    seq(|values|, i requires 0 <= i < |values| => Version(values[i], Foreign))
  }

  /** The index a read with this lag sees. */
  function ReadIndex(length: nat, lag: nat): (i: nat)
    requires 0 < length
    ensures i < length
    ensures lag == 0 ==> i == length - 1
  {
    if lag < length then length - 1 - lag else 0
  }

  function Try<V>(plan: Plan<V>, h: seq<Version<V>>, a: Attempt<V>): (r: Outcome<V>)
    requires 0 < |h|
  {
    var h1 := h + Foreigns(a.before);
    if a.fate.GetFails? then Outcome(h1, Some(a.fate.error)) else
    var i := ReadIndex(|h1|, a.lag);
    match h1[i].value
    case None => Outcome(h1, Some(NotFound))
    case Some(v) =>
      match plan(v, a.now)
      case None => Outcome(h1, None)
      case Some(w) =>
        var h2 := h1 + Foreigns(a.between);
        if i < |h2| - 1 then
          Outcome(h2, Some(if a.fate.UpdateFails? then a.fate.error
                           else if h2[|h2| - 1].value.None? then NotFound else Transient))
        else
          var h3 := h2 + [Version(Some(w), Operator(a.now))];
          match a.fate
          case UpdateFails(e, applied) => Outcome(if applied then h3 else h2, Some(e))
          case _ => Outcome(h3, None)
  }

  /** The retry loop from attempt k on: only transient errors are retried. */
  function Retry<V>(plan: Plan<V>, h: seq<Version<V>>, script: seq<Attempt<V>>, k: nat): (r: Outcome<V>)
    requires 0 < |h| && |script| == MAX_ATTEMPTS && k < MAX_ATTEMPTS
    decreases MAX_ATTEMPTS - k
  {
    var t := Try(plan, h, script[k]);
    if t.error != Some(Transient) || k == MAX_ATTEMPTS - 1 then t
    else if script[k].cancelled then t.(error := Some(Cancelled))
    else (TryExtends(plan, h, script[k]); Retry(plan, t.history, script, k + 1))
  }

  /** An object kept by the API server, updated only through versioned writes. */
  class StoredObject<V> {
    var history: seq<Version<V>>

    constructor (initial: Option<V>)
      ensures history == [Version(initial, Foreign)]
    {
      history := [Version(initial, Foreign)];
    }

    /** Writes v if `version` is still the last one. */
    method CompareAndSwap(v: V, version: nat, now: Time) returns (ok: bool)
      requires 0 < |history|
      modifies this
      ensures ok <==> version == |old(history)| - 1
      ensures history == if ok then old(history) + [Version(Some(v), Operator(now))] else old(history)
    {
      ok := version == |history| - 1;
      if ok { history := history + [Version(Some(v), Operator(now))]; }
    }

    /** One run of the overlay closure: read, overlay, conditional write. */
    method RunClosure(plan: Plan<V>, a: Attempt<V>) returns (error: Option<Error>)
      requires 0 < |history|
      modifies this
      ensures Outcome(history, error) == Try(plan, old(history), a)
      ensures 0 < |history|
    {
      history := history + Foreigns(a.before);
      if a.fate.GetFails? { return Some(a.fate.error); }
      var version := ReadIndex(|history|, a.lag);
      var read := history[version].value;
      if read.None? { return Some(NotFound); }
      var write := plan(read.value, a.now);
      if write.None? { return None; }
      history := history + Foreigns(a.between);
      if a.fate.UpdateFails? {
        if a.fate.applied {
          var _ := CompareAndSwap(write.value, version, a.now);
        }
        return Some(a.fate.error);
      }
      var ok := CompareAndSwap(write.value, version, a.now);
      if ok { return None; }
      return Some(if history[|history| - 1].value.None? then NotFound else Transient);
    }

    /** RetryOnConflict over the overlay closure. */
    method RetryOnConflict(plan: Plan<V>, script: seq<Attempt<V>>) returns (error: Option<Error>)
      requires 0 < |history| && |script| == MAX_ATTEMPTS
      modifies this
      ensures Outcome(history, error) == Retry(plan, old(history), script, 0)
      ensures 0 < |history|
    {
      var k := 0;
      while true
        invariant 0 <= k < MAX_ATTEMPTS && 0 < |history|
        invariant Retry(plan, old(history), script, 0) == Retry(plan, history, script, k)
        decreases MAX_ATTEMPTS - k
      {
        error := RunClosure(plan, script[k]);
        if error != Some(Transient) || k == MAX_ATTEMPTS - 1 { return; }
        if script[k].cancelled { return Some(Cancelled); }
        k := k + 1;
      }
    }
  }

  /** Version i is an operator write that applied the plan to the version right before it. */
  ghost predicate OwnStep<V>(plan: Plan<V>, h: seq<Version<V>>, i: nat)
    requires 0 < i < |h|
  {
    && h[i].author.Operator? && h[i].value.Some? && h[i - 1].value.Some?
    && plan(h[i - 1].value.value, h[i].author.now) == Some(h[i].value.value)
  }

  /** Every version from `from` on is a foreign write or an own step of the plan. */
  ghost predicate Serial<V>(plan: Plan<V>, h: seq<Version<V>>, from: nat)
    requires 0 < from <= |h|
  {
    forall i :: from <= i < |h| && h[i].author.Operator? ==> OwnStep(plan, h, i)
  }

  lemma TryExtends<V>(plan: Plan<V>, h: seq<Version<V>>, a: Attempt<V>)
    requires 0 < |h|
    ensures h <= Try(plan, h, a).history
    ensures 0 < |Try(plan, h, a).history|
  {}

  lemma TrySerial<V>(plan: Plan<V>, h: seq<Version<V>>, a: Attempt<V>)
    requires 0 < |h|
    ensures h <= Try(plan, h, a).history
    ensures Serial(plan, Try(plan, h, a).history, |h|)
  {}

  lemma SerialJoin<V>(plan: Plan<V>, h: seq<Version<V>>, mid: nat, from: nat)
    requires 0 < from <= mid <= |h|
    requires Serial(plan, h[..mid], from) && Serial(plan, h, mid)
    ensures Serial(plan, h, from)
  {
    forall i | from <= i < |h| && h[i].author.Operator? ensures OwnStep(plan, h, i) {
      if i < mid { assert OwnStep(plan, h[..mid], i); }
    }
  }

  /**
   Whatever the interleaving, staleness and failures, the loop behaves as if each of its writes had been
   one atomic application of the plan to the object's then current value: no foreign version is lost.
   */
  lemma {:induction false} RetrySerial<V>(plan: Plan<V>, h: seq<Version<V>>, script: seq<Attempt<V>>, k: nat)
    requires 0 < |h| && |script| == MAX_ATTEMPTS && k < MAX_ATTEMPTS
    ensures h <= Retry(plan, h, script, k).history
    ensures Serial(plan, Retry(plan, h, script, k).history, |h|)
    decreases MAX_ATTEMPTS - k
  {
    var t := Try(plan, h, script[k]);
    TrySerial(plan, h, script[k]);
    if t.error != Some(Transient) || k == MAX_ATTEMPTS - 1 || script[k].cancelled {
    } else {
      RetrySerial(plan, t.history, script, k + 1);
      var r := Retry(plan, t.history, script, k + 1).history;
      assert r[..|t.history|] == t.history;
      SerialJoin(plan, r, |t.history|, |h|);
    }
  }

  /** The plan leaves the observation `rest` of an object alone. */
  ghost predicate Preserves<V(!new), R>(plan: Plan<V>, rest: V -> R) {
    forall v, now :: plan(v, now).Some? ==> rest(plan(v, now).value) == rest(v)
  }

  /** The last version at index `from` or later that somebody else wrote, else the version before `from`. */
  function LastForeign<V>(h: seq<Version<V>>, from: nat): (i: nat)
    requires 0 < from <= |h|
    ensures from - 1 <= i < |h|
    ensures i >= from ==> h[i].author.Foreign?
    ensures forall j :: i < j < |h| ==> h[j].author.Operator?
    decreases |h|
  {
    if |h| == from then from - 1
    else if h[|h| - 1].author.Foreign? then |h| - 1
    else LastForeign(h[..|h| - 1], from)
  }

  function Observe<V, R>(rest: V -> R, v: Version<V>): Option<R> {
    if v.value.Some? then Some(rest(v.value.value)) else None
  }

  lemma {:induction false} OwnStepsPreserve<V(!new), R>(plan: Plan<V>, rest: V -> R, h: seq<Version<V>>, i: nat,
                                                        j: nat)
    requires i <= j < |h| && Preserves(plan, rest)
    requires forall k :: i < k <= j ==> OwnStep(plan, h, k)
    ensures Observe(rest, h[j]) == Observe(rest, h[i])
  {
    if i < j {
      OwnStepsPreserve(plan, rest, h, i, j - 1);
      assert OwnStep(plan, h, j);
    }
  }

  /**
   No lost update: whatever the loop does, everything outside its write set ends as the last foreign writer left
   it, including writers that struck between its reads and its writes.
   */
  lemma NoLostUpdate<V(!new), R>(plan: Plan<V>, rest: V -> R, h: seq<Version<V>>, script: seq<Attempt<V>>)
    requires 0 < |h| && |script| == MAX_ATTEMPTS && Preserves(plan, rest)
    ensures var g := Retry(plan, h, script, 0).history;
      h <= g && Observe(rest, g[|g| - 1]) == Observe(rest, g[LastForeign(g, |h|)])
  {
    hide Retry, Preserves, Observe, OwnStep, LastForeign;
    RetrySerial(plan, h, script, 0);
    var g := Retry(plan, h, script, 0).history;
    var i := LastForeign(g, |h|);
    forall k | i < k <= |g| - 1 ensures OwnStep(plan, g, k) {}
    OwnStepsPreserve(plan, rest, g, i, |g| - 1);
  }

  /** A loop whose plan always writes ends without error only with its own write in place. */
  lemma {:induction false} SuccessWrites<V(!new)>(plan: Plan<V>, h: seq<Version<V>>, script: seq<Attempt<V>>, k: nat)
    requires 0 < |h| && |script| == MAX_ATTEMPTS && k < MAX_ATTEMPTS
    requires forall v, now :: plan(v, now).Some?
    requires Retry(plan, h, script, k).error.None?
    ensures var g := Retry(plan, h, script, k).history; |g| > |h| && OwnStep(plan, g, |g| - 1)
    decreases MAX_ATTEMPTS - k
  {
    var t := Try(plan, h, script[k]);
    TrySerial(plan, h, script[k]);
    if t.error == Some(Transient) && k < MAX_ATTEMPTS - 1 && !script[k].cancelled {
      hide Try;
      SuccessWrites(plan, t.history, script, k + 1);
    }
  }

  /** Nobody else writes, reads are fresh, and only an absent object is reported as not found. */
  ghost predicate Quiet<V>(script: seq<Attempt<V>>) {
    forall k :: 0 <= k < |script| ==>
      && script[k].before == [] && script[k].between == [] && script[k].lag == 0
      && (!script[k].fate.Clean? ==> script[k].fate.error != NotFound)
  }

  predicate Skips<V>(plan: Plan<V>, v: V, now: Time) { plan(v, now).None? }

  /** At some time the plan has nothing to write. */
  ghost predicate MaySkip<V>(plan: Plan<V>, v: V) { exists now :: Skips(plan, v, now) }

  /** What a quiet loop leaves behind: own writes only and, unless it failed, a settled object. */
  ghost predicate Settles<V>(plan: Plan<V>, h: seq<Version<V>>, r: Outcome<V>)
    requires 0 < |h|
  {
    && h <= r.history
    && (forall i :: |h| <= i < |r.history| ==> OwnStep(plan, r.history, i))
    && (h[|h| - 1].value.Some? ==> r.error != Some(NotFound))
    && (r.error.None? && |r.history| == |h| ==>
          h[|h| - 1].value.Some? && MaySkip(plan, h[|h| - 1].value.value))
  }

  lemma QuietTry<V>(plan: Plan<V>, h: seq<Version<V>>, script: seq<Attempt<V>>, k: nat)
    requires 0 < |h| && k < |script| && Quiet(script)
    ensures Settles(plan, h, Try(plan, h, script[k]))
  {
    var a := script[k];
    assert h + Foreigns<V>([]) == h;
    var last := h[|h| - 1].value;
    if last.Some? && plan(last.value, a.now).None? { assert Skips(plan, last.value, a.now); }
  }

  lemma SettlesJoin<V>(plan: Plan<V>, h: seq<Version<V>>, t: Outcome<V>, r: Outcome<V>)
    requires 0 < |h| && Settles(plan, h, t) && t.error == Some(Transient)
    requires 0 < |t.history| && Settles(plan, t.history, r)
    ensures Settles(plan, h, r)
  {
    forall i | |h| <= i < |r.history| ensures OwnStep(plan, r.history, i) {
      if i < |t.history| { assert OwnStep(plan, t.history, i); }
    }
    if |t.history| > |h| {
      assert OwnStep(plan, t.history, |t.history| - 1);
    } else {
      assert t.history == h;
    }
  }

  lemma SettlesCancelled<V>(plan: Plan<V>, h: seq<Version<V>>, t: Outcome<V>)
    requires 0 < |h| && Settles(plan, h, t)
    ensures Settles(plan, h, t.(error := Some(Cancelled)))
  {}

  lemma {:induction false} QuietRetry<V>(plan: Plan<V>, h: seq<Version<V>>, script: seq<Attempt<V>>, k: nat)
    requires 0 < |h| && |script| == MAX_ATTEMPTS && k < MAX_ATTEMPTS && Quiet(script)
    ensures Settles(plan, h, Retry(plan, h, script, k))
    decreases MAX_ATTEMPTS - k
  {
    hide Try, Settles;
    var t := Try(plan, h, script[k]);
    TryExtends(plan, h, script[k]);
    QuietTry(plan, h, script, k);
    if t.error != Some(Transient) || k == MAX_ATTEMPTS - 1 {
    } else if script[k].cancelled {
      SettlesCancelled(plan, h, t);
    } else {
      QuietRetry(plan, t.history, script, k + 1);
      SettlesJoin(plan, h, t, Retry(plan, t.history, script, k + 1));
    }
  }

  /** A caller that ignores absent objects takes this for success. */
  predicate Tolerated(e: Option<Error>) { e.None? || e.value.NotFound? }

  /**
   Reads lag by at most `lag` versions, whatever others write around them, and only an absent version is reported as not
   found. Reads of every script lag by some bounded number of versions, so the first half excludes nothing.
   */
  ghost predicate Within<V>(script: seq<Attempt<V>>, lag: nat) {
    forall k :: 0 <= k < |script| ==>
      script[k].lag <= lag && (!script[k].fate.Clean? ==> script[k].fate.error != NotFound)
  }

  /** Nothing to do at this version: it is absent or, at some time, needs no write. */
  ghost predicate Skippable<V>(plan: Plan<V>, v: Version<V>) { v.value.None? || MaySkip(plan, v.value.value) }

  /** Version i, which a read of the loop can have seen, left nothing to do, or is the loop's own. */
  ghost predicate DoneAt<V>(plan: Plan<V>, g: seq<Version<V>>, from: nat, lag: nat, i: nat)
    requires 0 < from <= |g|
  {
    from - 1 - lag <= i < |g| && (Skippable(plan, g[i]) || (from <= i && OwnStep(plan, g, i)))
  }

  lemma TryMeets<V>(plan: Plan<V>, h: seq<Version<V>>, script: seq<Attempt<V>>, k: nat, lag: nat) returns (i: nat)
    requires 0 < |h| && k < |script| && Within(script, lag)
    requires Tolerated(Try(plan, h, script[k]).error)
    ensures var g := Try(plan, h, script[k]).history; |h| <= |g| && DoneAt(plan, g, |h|, lag, i)
  {
    var a, t := script[k], Try(plan, h, script[k]);
    TryExtends(plan, h, a);
    var h1 := h + Foreigns(a.before);
    var seen := ReadIndex(|h1|, a.lag);
    var read := h1[seen].value;
    if read.None? {
      i := seen;
    } else if plan(read.value, a.now).None? {
      assert Skips(plan, read.value, a.now);
      i := seen;
    } else {
      i := |t.history| - 1;
    }
  }

  /** A loop that succeeds, or finds nothing, has met a version that left nothing to do. */
  lemma {:induction false} RetryMeets<V>(plan: Plan<V>, h: seq<Version<V>>, script: seq<Attempt<V>>, k: nat, lag: nat)
    returns (i: nat)
    requires 0 < |h| && |script| == MAX_ATTEMPTS && k < MAX_ATTEMPTS && Within(script, lag)
    requires Tolerated(Retry(plan, h, script, k).error)
    ensures var g := Retry(plan, h, script, k).history; |h| <= |g| && DoneAt(plan, g, |h|, lag, i)
    decreases MAX_ATTEMPTS - k
  {
    hide Try, Skippable;
    var t := Try(plan, h, script[k]);
    TryExtends(plan, h, script[k]);
    if t.error != Some(Transient) || k == MAX_ATTEMPTS - 1 {
      i := TryMeets(plan, h, script, k, lag);
    } else {
      i := RetryMeets(plan, t.history, script, k + 1, lag);
    }
  }

  /** Left alone, a first attempt whose read gives it nothing to write ends the loop without a write. */
  lemma {:induction false} SkippingRetry<V>(plan: Plan<V>, h: seq<Version<V>>, script: seq<Attempt<V>>, i: nat)
    requires i < |h| && |script| == MAX_ATTEMPTS
    requires var a := script[0]; a.before == [] && a.lag == |h| - 1 - i && a.fate.Clean?
    requires h[i].value.None? || Skips(plan, h[i].value.value, script[0].now)
    ensures var o := Retry(plan, h, script, 0); Tolerated(o.error) && o.history == h
  {
    assert h + Foreigns<V>([]) == h;
    assert Try(plan, h, script[0]).history == h && Tolerated(Try(plan, h, script[0]).error);
    hide Try;
  }

  /** Left alone, a first attempt with a current read of a present object succeeds. */
  lemma {:induction false} CleanRetry<V>(plan: Plan<V>, h: seq<Version<V>>, script: seq<Attempt<V>>)
    requires |h| > 0 && h[|h| - 1].value.Some? && |script| == MAX_ATTEMPTS
    requires var a := script[0]; a.before == [] && a.between == [] && a.lag == 0 && a.fate.Clean?
    ensures Retry(plan, h, script, 0).error.None?
  {
    assert h + Foreigns<V>([]) == h;
    assert Try(plan, h, script[0]).error.None?;
    hide Try;
  }

  // ----- Progress -----

  /** The object after the first n attempts. */
  function Tried<V>(plan: Plan<V>, h: seq<Version<V>>, script: seq<Attempt<V>>, n: nat): (r: seq<Version<V>>)
    requires 0 < |h| && n <= |script|
    ensures h <= r
  {
    if n == 0 then h else
    var g := Tried(plan, h, script, n - 1);
    TryExtends(plan, g, script[n - 1]);
    Try(plan, g, script[n - 1]).history
  }

  function ErrorOf<V>(plan: Plan<V>, h: seq<Version<V>>, script: seq<Attempt<V>>, k: nat): Option<Error>
    requires 0 < |h| && k < |script|
  {
    Try(plan, Tried(plan, h, script, k), script[k]).error
  }

  /** Attempt k fails in a way that is worth another attempt, and nobody cancels the wait for it. */
  predicate TriesAgain<V>(plan: Plan<V>, h: seq<Version<V>>, script: seq<Attempt<V>>, k: nat)
    requires 0 < |h| && k < |script|
  {
    ErrorOf(plan, h, script, k) == Some(Transient) && !script[k].cancelled
  }

  lemma {:induction false} RetryReaches<V>(plan: Plan<V>, h: seq<Version<V>>, script: seq<Attempt<V>>, k: nat)
    requires 0 < |h| && |script| == MAX_ATTEMPTS && k < MAX_ATTEMPTS
    requires forall j :: 0 <= j < k ==> TriesAgain(plan, h, script, j)
    ensures Retry(plan, h, script, 0) == Retry(plan, Tried(plan, h, script, k), script, k)
  {
    hide Try;
    if k > 0 {
      RetryReaches(plan, h, script, k - 1);
      assert TriesAgain(plan, h, script, k - 1);
    }
  }

  /**
   The loop ends with the first attempt that succeeds, fails for good or is cancelled, and else with the fourth: an
   error that is worth a retry is retried, and no other one is.
   */
  lemma RetryEndsAt<V>(plan: Plan<V>, h: seq<Version<V>>, script: seq<Attempt<V>>, k: nat)
    requires 0 < |h| && |script| == MAX_ATTEMPTS && k < MAX_ATTEMPTS
    requires forall j :: 0 <= j < k ==> TriesAgain(plan, h, script, j)
    requires k == 3 || !TriesAgain(plan, h, script, k)
    ensures var r, e := Retry(plan, h, script, 0), ErrorOf(plan, h, script, k);
      && r.history == Tried(plan, h, script, k + 1)
      && r.error == if k < 3 && e == Some(Transient) then Some(Cancelled) else e
  {
    hide Try;
    RetryReaches(plan, h, script, k);
  }

  /** The object after n attempts that write nothing: what others wrote meanwhile is added. */
  function Lost<V>(h: seq<Version<V>>, script: seq<Attempt<V>>, n: nat): (r: seq<Version<V>>)
    requires n <= |script|
    ensures h <= r
  {
    if n == 0 then h
    else Lost(h, script, n - 1) + Foreigns(script[n - 1].before) + Foreigns(script[n - 1].between)
  }

  /** The attempt loses a race: it wants to write over a version that is no longer the last one, on a live object. */
  predicate Loses<V>(plan: Plan<V>, h: seq<Version<V>>, a: Attempt<V>)
    requires 0 < |h|
  {
    var read := h + Foreigns(a.before);
    var now, i := read + Foreigns(a.between), ReadIndex(|read|, a.lag);
    && a.fate.Clean? && !a.cancelled
    && read[i].value.Some? && plan(read[i].value.value, a.now).Some?
    && i < |now| - 1 && now[|now| - 1].value.Some?
  }

  /** Attempt k loses when all before it lost. */
  predicate LosesAt<V>(plan: Plan<V>, h: seq<Version<V>>, script: seq<Attempt<V>>, k: nat)
    requires 0 < |h| && k < |script|
  {
    Loses(plan, Lost(h, script, k), script[k])
  }

  lemma LosesTry<V>(plan: Plan<V>, h: seq<Version<V>>, a: Attempt<V>)
    requires 0 < |h| && Loses(plan, h, a)
    ensures Try(plan, h, a) == Outcome(h + Foreigns(a.before) + Foreigns(a.between), Some(Transient))
  {}

  /** An attempt that loses to a deletion finds the object gone, which ends the loop. */
  lemma DeletionEndsLoop<V>(plan: Plan<V>, h: seq<Version<V>>, script: seq<Attempt<V>>)
    requires 0 < |h| && |script| == MAX_ATTEMPTS && script[0].fate.Clean?
    requires var read := h + Foreigns(script[0].before);
      var now, i := read + Foreigns(script[0].between), ReadIndex(|read|, script[0].lag);
      && read[i].value.Some? && plan(read[i].value.value, script[0].now).Some?
      && i < |now| - 1 && now[|now| - 1].value.None?
    ensures Retry(plan, h, script, 0)
         == Outcome(h + Foreigns(script[0].before) + Foreigns(script[0].between), Some(NotFound))
  {
    assert Try(plan, h, script[0])
        == Outcome(h + Foreigns(script[0].before) + Foreigns(script[0].between), Some(NotFound));
    hide Try;
  }

  /** An attempt that reads the latest version of a live object, and that nobody gets ahead of, leaves nothing to do. */
  lemma FreshTry<V>(plan: Plan<V>, h: seq<Version<V>>, a: Attempt<V>)
    requires 0 < |h| && a.fate.Clean? && a.lag == 0 && a.between == []
    requires var read := h + Foreigns(a.before); read[|read| - 1].value.Some?
    ensures var read, t := h + Foreigns(a.before), Try(plan, h, a);
      && t.error.None?
      && match plan(read[|read| - 1].value.value, a.now)
         case None => t.history == read
         case Some(w) => t.history == read + [Version(Some(w), Operator(a.now))]
  {
    var read := h + Foreigns(a.before);
    assert read + Foreigns<V>([]) == read;
  }

  /** The first k attempts wrote nothing. */
  ghost predicate AllLost<V>(plan: Plan<V>, h: seq<Version<V>>, script: seq<Attempt<V>>, k: nat)
    requires 0 < |h| && k <= |script|
  {
    Tried(plan, h, script, k) == Lost(h, script, k)
  }

  lemma NoneLost<V>(plan: Plan<V>, h: seq<Version<V>>, script: seq<Attempt<V>>)
    requires 0 < |h|
    ensures AllLost(plan, h, script, 0)
  {}

  lemma LosesStep<V>(plan: Plan<V>, h: seq<Version<V>>, script: seq<Attempt<V>>, k: nat)
    requires 0 < |h| && k < |script| && LosesAt(plan, h, script, k) && AllLost(plan, h, script, k)
    ensures AllLost(plan, h, script, k + 1) && TriesAgain(plan, h, script, k)
  {
    LosesTry(plan, Lost(h, script, k), script[k]);
    assert !script[k].cancelled;
    hide Try, Loses;
  }

  lemma {:induction false} LosesAgain<V>(plan: Plan<V>, h: seq<Version<V>>, script: seq<Attempt<V>>, k: nat)
    requires 0 < |h| && k <= |script|
    requires forall j :: 0 <= j < k ==> LosesAt(plan, h, script, j)
    ensures AllLost(plan, h, script, k) && forall j :: 0 <= j < k ==> TriesAgain(plan, h, script, j)
  {
    hide LosesAt, TriesAgain, AllLost;
    if k == 0 {
      NoneLost(plan, h, script);
    } else {
      LosesAgain(plan, h, script, k - 1);
      LosesStep(plan, h, script, k - 1);
    }
  }

  /**
   Lost races are made up for: whatever up to three attempts lose to, the first one that reads the latest version and
   that nobody gets ahead of ends the loop without error, with its own write in place or nothing to write.
   */
  lemma RetryProgress<V>(plan: Plan<V>, h: seq<Version<V>>, script: seq<Attempt<V>>, k: nat)
    requires 0 < |h| && |script| == MAX_ATTEMPTS && k < MAX_ATTEMPTS
    requires forall j :: 0 <= j < k ==> LosesAt(plan, h, script, j)
    requires script[k].fate.Clean? && script[k].lag == 0 && script[k].between == []
    requires var read := Lost(h, script, k) + Foreigns(script[k].before); read[|read| - 1].value.Some?
    ensures var read, r := Lost(h, script, k) + Foreigns(script[k].before), Retry(plan, h, script, 0);
      && r.error.None?
      && match plan(read[|read| - 1].value.value, script[k].now)
         case None => r.history == read
         case Some(w) => r.history == read + [Version(Some(w), Operator(script[k].now))]
  {
    hide Try, LosesAt;
    LosesAgain(plan, h, script, k);
    FreshTry(plan, Lost(h, script, k), script[k]);
    RetryEndsAt(plan, h, script, k);
  }

  /** Calls that do not fail by themselves, on an object that is never absent. */
  ghost predicate OnlyRaces<V>(h: seq<Version<V>>, script: seq<Attempt<V>>) {
    && (forall j :: 0 <= j < |script| ==> script[j].fate.Clean? && !script[j].cancelled)
    && forall i :: 0 <= i < |Lost(h, script, |script|)| ==> Lost(h, script, |script|)[i].value.Some?
  }

  lemma {:induction false} LostPrefix<V>(h: seq<Version<V>>, script: seq<Attempt<V>>, k: nat, n: nat)
    requires k <= n <= |script|
    ensures Lost(h, script, k) <= Lost(h, script, n)
  {
    if k < n { LostPrefix(h, script, k, n - 1); }
  }

  lemma LivePrefix<V>(h: seq<Version<V>>, script: seq<Attempt<V>>, k: nat)
    requires k <= |script| && OnlyRaces(h, script)
    ensures forall i :: 0 <= i < |Lost(h, script, k)| ==> Lost(h, script, k)[i].value.Some?
  {
    LostPrefix(h, script, k, |script|);
    var g, all := Lost(h, script, k), Lost(h, script, |script|);
    hide Lost;
    assert forall i :: 0 <= i < |g| ==> g[i] == all[i];
  }

  /** An attempt that does not lose then succeeds. */
  lemma WonTry<V>(plan: Plan<V>, h: seq<Version<V>>, a: Attempt<V>)
    requires 0 < |h| && a.fate.Clean? && !a.cancelled && !Loses(plan, h, a)
    requires var now := h + Foreigns(a.before) + Foreigns(a.between); forall i :: 0 <= i < |now| ==> now[i].value.Some?
    ensures Try(plan, h, a).error.None?
  {
    var read := h + Foreigns(a.before);
    var now, i := read + Foreigns(a.between), ReadIndex(|read|, a.lag);
    assert now[i] == read[i] && now[|now| - 1].value.Some?;
  }

  lemma RaceWon<V>(plan: Plan<V>, h: seq<Version<V>>, script: seq<Attempt<V>>, k: nat)
    requires 0 < |h| && k < |script| && OnlyRaces(h, script) && !LosesAt(plan, h, script, k)
    requires AllLost(plan, h, script, k)
    ensures ErrorOf(plan, h, script, k).None?
  {
    hide Try, Loses, Tried;
    LivePrefix(h, script, k + 1);
    assert Lost(h, script, k + 1)
        == Lost(h, script, k) + Foreigns(script[k].before) + Foreigns(script[k].between);
    WonTry(plan, Lost(h, script, k), script[k]);
  }

  /** Where only races can go wrong, the loop fails exactly when all four attempts lose theirs. */
  lemma RetryFailsIff<V>(plan: Plan<V>, h: seq<Version<V>>, script: seq<Attempt<V>>)
    requires 0 < |h| && |script| == MAX_ATTEMPTS && OnlyRaces(h, script)
    ensures Retry(plan, h, script, 0).error.Some? <==>
      forall j :: 0 <= j < MAX_ATTEMPTS ==> LosesAt(plan, h, script, j)
    ensures Retry(plan, h, script, 0).error.Some? ==>
      Retry(plan, h, script, 0) == Outcome(Lost(h, script, MAX_ATTEMPTS), Some(Transient))
  {
    hide Try, LosesAt, OnlyRaces, Retry, Tried, Lost, ErrorOf;
    var k := 0;
    while k < MAX_ATTEMPTS && LosesAt(plan, h, script, k)
      invariant k <= MAX_ATTEMPTS && forall j :: 0 <= j < k ==> LosesAt(plan, h, script, j)
    {
      k := k + 1;
    }
    LosesAgain(plan, h, script, k);
    if k == MAX_ATTEMPTS {
      assert TriesAgain(plan, h, script, 3);
      RetryEndsAt(plan, h, script, 3);
    } else {
      RaceWon(plan, h, script, k);
      RetryEndsAt(plan, h, script, k);
    }
  }
}
