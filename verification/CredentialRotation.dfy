/**
 Rotation of the Wazuh API and authd credentials. The hash of the secret is compared with the hash kept in
 the cluster status; on a change every dependent workload is stamped with the new hash and only then does the
 status hash move. The stamp is the durable record: passes may fail or crash after any API call, and the
 status write that ends a pass may be lost.

 One credential is followed at a time; restarts for the other credential are foreign writes to it
 (see OtherCredentialKeepsKey).
 */
module CredentialRotation {
  import opened Prelude
  import opened OptimisticRetry

  const RESTARTED_AT := "wazuh.com/restarted-at"
  const RESTART_TRIGGERED := "wazuh.com/rolling-restart-triggered"

  datatype Value = Text(text: string) | Instant(at: Time)

  /** The part of a StatefulSet or Deployment that a restart looks at. */
  datatype Workload = Workload(replicas: Option<int>, annotations: map<string, Value>)

  datatype Role = Master | Worker | Dashboard

  datatype Fleet<T> = Fleet(master: T, worker: T, dashboard: T) {
    function At(role: Role): T {
      match role case Master => master case Worker => worker case Dashboard => dashboard
    }

    function With(role: Role, t: T): Fleet<T> {
      match role
      case Master => this.(master := t)
      case Worker => this.(worker := t)
      case Dashboard => this.(dashboard := t)
    }
  }

  type Trail = seq<Version<Workload>>
  type Script = seq<Attempt<Workload>>

  datatype Credential = Api | Authd

  function Key(c: Credential): string {
    match c
    case Api => "wazuh.com/api-credential-recovery-hash"
    case Authd => "wazuh.com/authd-credential-recovery-hash"
  }

  /** Workloads restarted for a credential, in order. */
  function Required(c: Credential, masterOnly: bool): seq<Role> {
    match c
    case Api => [Master, Worker, Dashboard]
    case Authd => if masterOnly then [Master] else [Master, Worker]
  }

  /** What computing the hash of the secret yields; an empty digest means an empty secret. */
  datatype Read = NoManager | Missing | Broken | Unconfigured | Digest(hash: string)

  function Annotation(w: Workload, key: string): Value {
    if key in w.annotations then w.annotations[key] else Text("")
  }

  predicate ScaledToZero(w: Workload) { w.replicas == Some(0) }

  /** The closure retried by the restart triggers. */
  function RestartPlan(key: string, hash: string): Plan<Workload> {
    (w: Workload, now: Time) =>
      if ScaledToZero(w) || Annotation(w, key) == Text(hash) then None
      else Some(w.(annotations := w.annotations[RESTARTED_AT := Instant(now)]
                                               [RESTART_TRIGGERED := Text("true")][key := Text(hash)]))
  }

  predicate Live(f: Fleet<Trail>) { |f.master| > 0 && |f.worker| > 0 && |f.dashboard| > 0 }

  predicate Complete(s: Fleet<Script>) {
    |s.master| == |s.worker| == |s.dashboard| == MAX_ATTEMPTS
  }

  datatype Rotation = Rotation(stored: string, fleet: Fleet<Trail>, error: Option<Error>)

  /** Triggers restarts role by role, stopping at the first error other than NotFound. */
  function Trigger(key: string, hash: string, roles: seq<Role>, f: Fleet<Trail>, s: Fleet<Script>)
    : (r: (Fleet<Trail>, Option<Error>))
    requires Live(f) && Complete(s)
    ensures Live(r.0)
  {
    if roles == [] then (f, None) else
    var o := Retry(RestartPlan(key, hash), f.At(roles[0]), s.At(roles[0]), 0);
    RetrySerial(RestartPlan(key, hash), f.At(roles[0]), s.At(roles[0]), 0);
    var f1 := f.With(roles[0], o.history);
    if Tolerated(o.error) then Trigger(key, hash, roles[1..], f1, s) else (f1, o.error)
  }

  /** One rotation check within a pass, from the status hash read at its start. */
  function Rotate(c: Credential, masterOnly: bool, stored: string, read: Read, f: Fleet<Trail>, s: Fleet<Script>)
    : (r: Rotation)
    requires Live(f) && Complete(s)
    ensures Live(r.fleet)
    ensures r.error.Some? ==> r.stored == stored
  {
    match read
    case NoManager => Rotation(stored, f, None)
    case Missing => Rotation(stored, f, None)
    case Broken => Rotation(stored, f, Some(Permanent))
    case Unconfigured => Rotation(if c.Authd? then "" else stored, f, None)
    case Digest(hash) =>
      if hash == "" then Rotation(if c.Authd? then "" else stored, f, None)
      else if stored == hash then Rotation(stored, f, None)
      else if stored == "" then Rotation(hash, f, None)
      else
        var t := Trigger(Key(c), hash, Required(c, masterOnly), f, s);
        Rotation(if t.1.None? then hash else stored, t.0, t.1)
  }

  /** The rotation part of the reconciler: two status hashes and three workloads. */
  class CredentialReconciler {
    var apiHash: string
    var authdHash: string
    const master: StoredObject<Workload>
    const worker: StoredObject<Workload>
    const dashboard: StoredObject<Workload>

    constructor (apiHash: string, authdHash: string, master: StoredObject<Workload>,
                 worker: StoredObject<Workload>, dashboard: StoredObject<Workload>)
      requires master != worker && master != dashboard && worker != dashboard
      requires |master.history| > 0 && |worker.history| > 0 && |dashboard.history| > 0
      ensures Valid() && this.apiHash == apiHash && this.authdHash == authdHash
      ensures this.master == master && this.worker == worker && this.dashboard == dashboard
    {
      this.apiHash, this.authdHash := apiHash, authdHash;
      this.master, this.worker, this.dashboard := master, worker, dashboard;
    }

    ghost predicate Valid()
      reads this, master, worker, dashboard
    {
      master != worker && master != dashboard && worker != dashboard && Live(Now())
    }

    ghost function Now(): Fleet<Trail>
      reads this, master, worker, dashboard
    {
      Fleet(master.history, worker.history, dashboard.history)
    }

    method TriggerRestartWithHash(workload: StoredObject<Workload>, key: string, hash: string, script: Script)
      returns (error: Option<Error>)
      requires |workload.history| > 0 && |script| == MAX_ATTEMPTS
      modifies workload
      ensures Outcome(workload.history, error) == Retry(RestartPlan(key, hash), old(workload.history), script, 0)
      ensures |workload.history| > 0
    {
      error := workload.RetryOnConflict(RestartPlan(key, hash), script);
    }

    method ReconcileApiCredentials(read: Read, s: Fleet<Script>) returns (error: Option<Error>)
      requires Valid() && Complete(s) && !read.Unconfigured?
      modifies this, master, worker, dashboard
      ensures Valid()
      ensures Rotation(apiHash, Now(), error) == Rotate(Api, true, old(apiHash), read, old(Now()), s)
      ensures authdHash == old(authdHash)
    {
      if read.NoManager? { return None; }
      if read.Missing? { return None; }
      if read.Broken? { return Some(Permanent); }
      var newHash := read.hash;
      if newHash == "" { return None; }
      var oldHash := apiHash;
      if oldHash == newHash { return None; }
      if oldHash == "" {
        apiHash := newHash;
        return None;
      }
      hide Retry, RestartPlan;
      ghost var f0 := Now();
      var key := Key(Api);
      error := TriggerRestartWithHash(master, key, newHash, s.master);
      ghost var f1 := f0.With(Master, master.history);
      assert Trigger(key, newHash, Required(Api, true), f0, s) ==
             if Tolerated(error) then Trigger(key, newHash, [Worker, Dashboard], f1, s) else (f1, error)
      by { assert Required(Api, true)[1..] == [Worker, Dashboard]; }
      if !Tolerated(error) { return; }
      error := TriggerRestartWithHash(worker, key, newHash, s.worker);
      ghost var f2 := f1.With(Worker, worker.history);
      assert Trigger(key, newHash, [Worker, Dashboard], f1, s) ==
             if Tolerated(error) then Trigger(key, newHash, [Dashboard], f2, s) else (f2, error)
      by { assert [Worker, Dashboard][1..] == [Dashboard]; }
      if !Tolerated(error) { return; }
      error := TriggerRestartWithHash(dashboard, key, newHash, s.dashboard);
      assert Trigger(key, newHash, [Dashboard], f2, s) ==
             (f2.With(Dashboard, dashboard.history), if Tolerated(error) then None else error)
      by { assert [Dashboard][1..] == []; }
      if !Tolerated(error) { return; }
      apiHash := newHash;
      return None;
    }

    method ReconcileAuthdCredentials(read: Read, masterOnly: bool, s: Fleet<Script>)
      returns (error: Option<Error>)
      requires Valid() && Complete(s)
      modifies this, master, worker, dashboard
      ensures Valid()
      ensures Rotation(authdHash, Now(), error) == Rotate(Authd, masterOnly, old(authdHash), read, old(Now()), s)
      ensures apiHash == old(apiHash)
    {
      if read.NoManager? { return None; }
      if read.Missing? { return None; }
      if read.Broken? { return Some(Permanent); }
      var oldHash := authdHash;
      if read.Unconfigured? || read.hash == "" {
        if oldHash != "" { authdHash := ""; }
        return None;
      }
      var newHash := read.hash;
      if oldHash == newHash { return None; }
      if oldHash == "" {
        authdHash := newHash;
        return None;
      }
      hide Retry, RestartPlan;
      ghost var f0 := Now();
      var key := Key(Authd);
      error := TriggerRestartWithHash(master, key, newHash, s.master);
      ghost var f1 := f0.With(Master, master.history);
      ghost var rest := if masterOnly then [] else [Worker];
      assert Trigger(key, newHash, Required(Authd, masterOnly), f0, s) ==
             if Tolerated(error) then Trigger(key, newHash, rest, f1, s) else (f1, error)
      by { assert Required(Authd, masterOnly)[1..] == rest; }
      if !Tolerated(error) { return; }
      if !masterOnly {
        error := TriggerRestartWithHash(worker, key, newHash, s.worker);
        assert Trigger(key, newHash, [Worker], f1, s) ==
               (f1.With(Worker, worker.history), if Tolerated(error) then None else error)
        by { assert [Worker][1..] == []; }
        if !Tolerated(error) { return; }
      }
      authdHash := newHash;
      return None;
    }
  }

  // ----- Runs of passes -----

  /**
   One pass as seen by a credential: foreign writes since the last pass, a stale or lost status hash if that is
   what the pass reads, what the secret yields, the environment of each restart call, and whether the status
   write that ends the pass is saved.
   */
  datatype Pass = Pass(idle: Fleet<seq<Option<Workload>>>, stale: Option<string>, read: Read, masterOnly: bool,
                       scripts: Fleet<Script>, saved: bool)

  datatype World = World(stored: string, fleet: Fleet<Trail>)

  predicate Ready(passes: seq<Pass>) { forall i :: 0 <= i < |passes| ==> Complete(passes[i].scripts) }

  function Idle(f: Fleet<Trail>, idle: Fleet<seq<Option<Workload>>>): (r: Fleet<Trail>)
    requires Live(f)
    ensures Live(r)
  {
    Fleet(f.master + Foreigns(idle.master), f.worker + Foreigns(idle.worker),
          f.dashboard + Foreigns(idle.dashboard))
  }

  /** The status hash the pass starts from. */
  function Seen(w: World, p: Pass): string { if p.stale.Some? then p.stale.value else w.stored }

  function Attempted(c: Credential, w: World, p: Pass): (r: Rotation)
    requires Live(w.fleet) && Complete(p.scripts)
    ensures Live(r.fleet)
  {
    Rotate(c, p.masterOnly, Seen(w, p), p.read, Idle(w.fleet, p.idle), p.scripts)
  }

  /** A pass moves the persisted hash only if it ends without error and its status write is saved. */
  function Step(c: Credential, w: World, p: Pass): (r: World)
    requires Live(w.fleet) && Complete(p.scripts)
    ensures Live(r.fleet)
  {
    var a := Attempted(c, w, p);
    World(if a.error.None? && p.saved then a.stored else w.stored, a.fleet)
  }

  function Run(c: Credential, w: World, passes: seq<Pass>): (r: World)
    requires Live(w.fleet) && Ready(passes)
    ensures Live(r.fleet)
  {
    if passes == [] then w
    else Step(c, Run(c, w, passes[..|passes| - 1]), passes[|passes| - 1])
  }

  /** The hash a pass may stamp, if any. */
  function Target(read: Read): Option<string> {
    if read.Digest? && read.hash != "" then Some(read.hash) else None
  }

  /** The non-empty hashes the passes of a run observed, in order. */
  function Observed(passes: seq<Pass>): seq<string> {
    if passes == [] then [] else
    var front, target := Observed(passes[..|passes| - 1]), Target(passes[|passes| - 1].read);
    if target.Some? then front + [target.value] else front
  }

  /** Number of maximal constant blocks of a sequence. */
  function Blocks(s: seq<string>): nat {
    if |s| == 0 then 0
    else if |s| > 1 && s[|s| - 1] == s[|s| - 2] then Blocks(s[..|s| - 1])
    else Blocks(s[..|s| - 1]) + 1
  }

  /** Number of versions from index `from` on that the operator wrote. */
  function OwnWrites(h: Trail, from: nat): nat {
    if |h| <= from then 0
    else OwnWrites(h[..|h| - 1], from) + if h[|h| - 1].author.Operator? then 1 else 0
  }

  function KeyOf(key: string, v: Option<Workload>): Value {
    if v.None? then Text("") else Annotation(v.value, key)
  }

  function Stamp(key: string, h: Trail): Value
    requires |h| > 0
  {
    KeyOf(key, h[|h| - 1].value)
  }

  /**
   Foreign versions from index `from` on that change the hash annotation. Foreign here means not the restart trigger: a
   component reconcile that replaces the pod template, deletions and recreations count too.
   */
  function Erasures(key: string, h: Trail, from: nat): nat
    requires 0 < from
  {
    if |h| <= from then 0 else
    var front, last := Erasures(key, h[..|h| - 1], from), h[|h| - 1];
    if last.author.Foreign? && KeyOf(key, last.value) != KeyOf(key, h[|h| - 2].value) then front + 1 else front
  }

  /** A restart rewrites exactly its three annotations of a workload that runs pods and lacks the hash. */
  lemma RestartWriteSet(key: string, hash: string, w: Workload, now: Time)
    requires key != RESTARTED_AT && key != RESTART_TRIGGERED
    ensures RestartPlan(key, hash)(w, now).None? <==> ScaledToZero(w) || Annotation(w, key) == Text(hash)
    ensures RestartPlan(key, hash)(w, now).Some? ==>
      var v := RestartPlan(key, hash)(w, now).value;
      && v.replicas == w.replicas
      && v.annotations.Keys == w.annotations.Keys + {RESTARTED_AT, RESTART_TRIGGERED, key}
      && v.annotations[RESTARTED_AT] == Instant(now) && v.annotations[RESTART_TRIGGERED] == Text("true")
      && v.annotations[key] == Text(hash)
      && v.annotations - {RESTARTED_AT, RESTART_TRIGGERED, key}
           == w.annotations - {RESTARTED_AT, RESTART_TRIGGERED, key}
  {}

  /** What a restart must not touch. */
  function RestartRest(key: string): Workload -> Workload {
    (w: Workload) => w.(annotations := w.annotations - {RESTARTED_AT, RESTART_TRIGGERED, key})
  }

  /** A restart trigger loses no foreign update other than to its three annotations. */
  lemma RestartLosesNothing(key: string, hash: string, h: Trail, script: Script)
    requires |h| > 0 && |script| == MAX_ATTEMPTS
    ensures var g := Retry(RestartPlan(key, hash), h, script, 0).history;
      h <= g && Observe(RestartRest(key), g[|g| - 1]) == Observe(RestartRest(key), g[LastForeign(g, |h|)])
  {
    RestartPreserves(key, hash);
    hide Retry, RestartPlan, RestartRest, Preserves;
    NoLostUpdate(RestartPlan(key, hash), RestartRest(key), h, script);
  }

  lemma RestartPreserves(key: string, hash: string)
    ensures Preserves(RestartPlan(key, hash), RestartRest(key))
  {
    var plan := RestartPlan(key, hash);
    forall w, now | plan(w, now).Some? ensures RestartRest(key)(plan(w, now).value) == RestartRest(key)(w) {
      assert plan(w, now).value.annotations - {RESTARTED_AT, RESTART_TRIGGERED, key}
          == w.annotations - {RESTARTED_AT, RESTART_TRIGGERED, key};
    }
  }

  /** A restart for one credential is a foreign write that keeps the key of the other. */
  lemma OtherCredentialKeepsKey(c: Credential, d: Credential, hash: string, w: Workload, now: Time)
    requires c != d
    requires RestartPlan(Key(d), hash)(w, now).Some?
    ensures Annotation(RestartPlan(Key(d), hash)(w, now).value, Key(c)) == Annotation(w, Key(c))
  {
    KeysDiffer();
  }

  lemma KeysDiffer()
    ensures Key(Api) != Key(Authd)
    ensures forall c: Credential :: Key(c) != RESTARTED_AT && Key(c) != RESTART_TRIGGERED
  {
    assert |Key(Api)| != |Key(Authd)|;
    assert forall c: Credential :: Key(c)[10] == 'a' && RESTARTED_AT[10] == 'r' && RESTART_TRIGGERED[10] == 'r';
  }

  lemma {:induction false} OwnWritesSplit(h: Trail, mid: nat, from: nat)
    requires from <= mid <= |h|
    ensures OwnWrites(h, from) == OwnWrites(h[..mid], from) + OwnWrites(h, mid)
  {
    if |h| > mid {
      OwnWritesSplit(h[..|h| - 1], mid, from);
      assert h[..|h| - 1][..mid] == h[..mid];
    } else {
      assert h[..mid] == h;
    }
  }

  lemma {:induction false} ErasuresSplit(key: string, h: Trail, mid: nat, from: nat)
    requires 0 < from <= mid <= |h|
    ensures Erasures(key, h, from) == Erasures(key, h[..mid], from) + Erasures(key, h, mid)
  {
    if |h| > mid {
      ErasuresSplit(key, h[..|h| - 1], mid, from);
      assert h[..|h| - 1][..mid] == h[..mid];
    } else {
      assert h[..mid] == h;
    }
  }

  /**
   Within one block of writes for the same hash a workload is stamped at most once, and once more per erasure; if that
   often, it carries the hash.
   */
  lemma {:induction false} Segment(key: string, hash: string, h: Trail, from: nat)
    requires 0 < from <= |h| && Serial(RestartPlan(key, hash), h, from)
    requires key != RESTARTED_AT && key != RESTART_TRIGGERED
    ensures var most := Erasures(key, h, from) + if KeyOf(key, h[from - 1].value) == Text(hash) then 0 else 1;
      OwnWrites(h, from) <= most && (OwnWrites(h, from) == most ==> Stamp(key, h) == Text(hash))
  {
    if |h| > from {
      var g := h[..|h| - 1];
      forall i | from <= i < |g| && g[i].author.Operator? ensures OwnStep(RestartPlan(key, hash), g, i) {
        assert OwnStep(RestartPlan(key, hash), h, i);
      }
      Segment(key, hash, g, from);
      if h[|h| - 1].author.Operator? { assert OwnStep(RestartPlan(key, hash), h, |h| - 1); }
    }
  }

  /** The trigger sequence extends every workload's history by foreign writes and restarts for this hash only. */
  lemma {:induction false} TriggerSerial(key: string, hash: string, roles: seq<Role>, f: Fleet<Trail>,
                                         s: Fleet<Script>, role: Role)
    requires Live(f) && Complete(s)
    ensures var g := Trigger(key, hash, roles, f, s).0;
      f.At(role) <= g.At(role) && Serial(RestartPlan(key, hash), g.At(role), |f.At(role)|)
    decreases |roles|
  {
    if roles != [] {
      var plan := RestartPlan(key, hash);
      var o := Retry(plan, f.At(roles[0]), s.At(roles[0]), 0);
      RetrySerial(plan, f.At(roles[0]), s.At(roles[0]), 0);
      var f1 := f.With(roles[0], o.history);
      if Tolerated(o.error) {
        TriggerSerial(key, hash, roles[1..], f1, s, role);
        var g := Trigger(key, hash, roles[1..], f1, s).0;
        assert g.At(role)[..|f1.At(role)|] == f1.At(role);
        SerialJoin(plan, g.At(role), |f1.At(role)|, |f.At(role)|);
      }
    }
  }

  /** From index `from` on there are only foreign writes and restarts for the target hash. */
  ghost predicate Appended(key: string, target: Option<string>, h: Trail, from: nat)
    requires 0 < from <= |h|
  {
    if target.Some? then Serial(RestartPlan(key, target.value), h, from)
    else forall i :: from <= i < |h| ==> h[i].author.Foreign?
  }

  lemma RotateAppends(c: Credential, masterOnly: bool, stored: string, read: Read, f: Fleet<Trail>,
                      s: Fleet<Script>, role: Role)
    requires Live(f) && Complete(s)
    ensures var g := Rotate(c, masterOnly, stored, read, f, s).fleet;
      f.At(role) <= g.At(role) && Appended(Key(c), Target(read), g.At(role), |f.At(role)|)
  {
    hide Retry, RestartPlan, Trigger;
    if Target(read).Some? {
      TriggerSerial(Key(c), read.hash, Required(c, masterOnly), f, s, role);
    }
  }

  /** Foreign versions before what a rotation appends. */
  lemma AppendedAfterIdle(key: string, target: Option<string>, h: Trail, f: Trail, g: Trail)
    requires 0 < |h| && h <= f <= g && Appended(key, target, g, |f|)
    requires forall i :: |h| <= i < |f| ==> f[i].author.Foreign?
    ensures Appended(key, target, g, |h|)
  {
    hide RestartPlan;
    assert g[..|f|] == f;
    if target.Some? { SerialJoin(RestartPlan(key, target.value), g, |f|, |h|); }
  }

  /** What one pass appends to a workload's history. */
  lemma StepAppends(c: Credential, w: World, p: Pass, role: Role)
    requires Live(w.fleet) && Complete(p.scripts)
    ensures var h, g := w.fleet.At(role), Step(c, w, p).fleet.At(role);
      h <= g && Appended(Key(c), Target(p.read), g, |h|)
  {
    hide Retry, RestartPlan, Trigger, Rotate, Appended;
    var f := Idle(w.fleet, p.idle);
    RotateAppends(c, p.masterOnly, Seen(w, p), p.read, f, p.scripts, role);
    AppendedAfterIdle(Key(c), Target(p.read), w.fleet.At(role), f.At(role), Step(c, w, p).fleet.At(role));
  }

  lemma {:induction false} ForeignOnly(key: string, h: Trail, from: nat)
    requires 0 < from <= |h| && forall i :: from <= i < |h| ==> h[i].author.Foreign?
    ensures OwnWrites(h, from) == 0
    ensures Erasures(key, h, from) == 0 ==> Stamp(key, h) == KeyOf(key, h[from - 1].value)
  {
    if |h| > from { ForeignOnly(key, h[..|h| - 1], from); }
  }

  /**
   The bound kept by every run prefix that observed the hashes o: one restart per block of equal hashes and one per
   erasure; if that many, the workload carries the last hash.
   */
  ghost predicate Bounded(key: string, h: Trail, from: nat, o: seq<string>)
    requires 0 < from <= |h|
  {
    var most := Blocks(o) + Erasures(key, h, from);
    OwnWrites(h, from) <= most && (o != [] && OwnWrites(h, from) == most ==> Stamp(key, h) == Text(o[|o| - 1]))
  }

  /** One more pass keeps the bound. */
  lemma BoundedStep(key: string, target: Option<string>, h: Trail, mid: nat, from: nat, o: seq<string>)
    requires 0 < from <= mid <= |h| && key != RESTARTED_AT && key != RESTART_TRIGGERED
    requires Bounded(key, h[..mid], from, o) && Appended(key, target, h, mid)
    ensures Bounded(key, h, from, if target.Some? then o + [target.value] else o)
  {
    OwnWritesSplit(h, mid, from);
    ErasuresSplit(key, h, mid, from);
    if target.Some? {
      Segment(key, target.value, h, mid);
      assert (o + [target.value])[..|o|] == o;
    } else {
      ForeignOnly(key, h, mid);
    }
  }

  /**
   Over any run of passes, with failures and crashes after any call, stale reads, lost status writes and any other
   writers, the component reconciles included, a workload is restarted at most once per change of the credential and
   once per erasure of its stamp.
   */
  lemma {:induction false} RestartsPerChange(c: Credential, w: World, passes: seq<Pass>, role: Role)
    requires Live(w.fleet) && Ready(passes)
    ensures var h := Run(c, w, passes).fleet.At(role);
      w.fleet.At(role) <= h && Bounded(Key(c), h, |w.fleet.At(role)|, Observed(passes))
    decreases |passes|
  {
    hide Retry, RestartPlan, Trigger, Rotate, Idle, Step;
    KeysDiffer();
    if passes != [] {
      var front, p, from := passes[..|passes| - 1], passes[|passes| - 1], |w.fleet.At(role)|;
      var mid, h := Run(c, w, front).fleet.At(role), Run(c, w, passes).fleet.At(role);
      StepAppends(c, Run(c, w, front), p, role);
      assert h[..|mid|] == mid;
      RestartsPerChange(c, w, front, role);
      BoundedStep(Key(c), Target(p.read), h, |mid|, from, Observed(front));
    }
  }

  /** Where nobody else touches the stamp, that is at most once per change of the credential. */
  lemma AtMostOncePerChange(c: Credential, w: World, passes: seq<Pass>, role: Role)
    requires Live(w.fleet) && Ready(passes)
    requires Erasures(Key(c), Run(c, w, passes).fleet.At(role), |w.fleet.At(role)|) == 0
    ensures OwnWrites(Run(c, w, passes).fleet.At(role), |w.fleet.At(role)|) <= Blocks(Observed(passes))
  {
    hide Run;
    RestartsPerChange(c, w, passes, role);
  }

  lemma {:induction false} RunExtends(c: Credential, w: World, passes: seq<Pass>, role: Role)
    requires Live(w.fleet) && Ready(passes)
    ensures w.fleet.At(role) <= Run(c, w, passes).fleet.At(role)
    decreases |passes|
  {
    if passes != [] {
      RunExtends(c, w, passes[..|passes| - 1], role);
      StepAppends(c, Run(c, w, passes[..|passes| - 1]), passes[|passes| - 1], role);
    }
  }

  // ----- Completion and resumption -----

  ghost predicate QuietFleet(s: Fleet<Script>) {
    Complete(s) && Quiet(s.master) && Quiet(s.worker) && Quiet(s.dashboard)
  }

  /** The workload exists and runs pods. */
  predicate Active(h: Trail)
    requires |h| > 0
  {
    h[|h| - 1].value.Some? && !ScaledToZero(h[|h| - 1].value.value)
  }

  predicate Carries(c: Credential, hash: string, h: Trail)
    requires |h| > 0
  {
    Stamp(Key(c), h) == Text(hash)
  }

  /** `after` is `before` with exactly the missing restart added. */
  ghost predicate StampedIfMissing(c: Credential, hash: string, before: Trail, after: Trail)
    requires |before| > 0
  {
    if Active(before) && !Carries(c, hash, before)
    then |after| == |before| + 1 && before <= after && OwnStep(RestartPlan(Key(c), hash), after, |before|)
    else after == before
  }

  /** One quiet, tolerated restart call stamps the workload exactly if it was missing. */
  lemma QuietRestart(c: Credential, hash: string, h: Trail, script: Script)
    requires |h| > 0 && |script| == MAX_ATTEMPTS && Quiet(script)
    requires Tolerated(Retry(RestartPlan(Key(c), hash), h, script, 0).error)
    ensures StampedIfMissing(c, hash, h, Retry(RestartPlan(Key(c), hash), h, script, 0).history)
  {
    hide Retry, RestartPlan;
    KeysDiffer();
    QuietRetry(RestartPlan(Key(c), hash), h, script, 0);
    SettledStamp(c, hash, h, Retry(RestartPlan(Key(c), hash), h, script, 0));
  }

  lemma SettledStamp(c: Credential, hash: string, h: Trail, r: Outcome<Workload>)
    requires |h| > 0 && Settles(RestartPlan(Key(c), hash), h, r) && Tolerated(r.error)
    ensures StampedIfMissing(c, hash, h, r.history)
  {
    hide RestartPlan;
    KeysDiffer();
    var plan := RestartPlan(Key(c), hash);
    if |r.history| > |h| {
      assert OwnStep(plan, r.history, |h|);
      RestartWriteSet(Key(c), hash, h[|h| - 1].value.value, r.history[|h|].author.now);
      RestartedOnce(Key(c), hash, r.history, |h|);
    } else {
      assert r.history == h;
      if h[|h| - 1].value.Some? {
        var now :| Skips(plan, h[|h| - 1].value.value, now);
        RestartWriteSet(Key(c), hash, h[|h| - 1].value.value, now);
      }
    }
  }

  lemma RestartedOnce(key: string, hash: string, h: Trail, from: nat)
    requires 0 < from < |h| && key != RESTARTED_AT && key != RESTART_TRIGGERED
    requires forall i :: from <= i < |h| ==> OwnStep(RestartPlan(key, hash), h, i)
    ensures |h| == from + 1
  {
    forall i | from <= i < |h| ensures h[i].author.Operator? {
      assert OwnStep(RestartPlan(key, hash), h, i);
    }
    Segment(key, hash, h, from);
    AllOwn(h, from);
  }

  lemma {:induction false} AllOwn(h: Trail, from: nat)
    requires from <= |h| && forall i :: from <= i < |h| ==> h[i].author.Operator?
    ensures OwnWrites(h, from) == |h| - from
  {
    if |h| > from { AllOwn(h[..|h| - 1], from); }
  }

  lemma {:induction false} QuietTrigger(c: Credential, hash: string, roles: seq<Role>, f: Fleet<Trail>,
                                        s: Fleet<Script>, role: Role)
    requires Live(f) && QuietFleet(s)
    requires forall i, j :: 0 <= i < j < |roles| ==> roles[i] != roles[j]
    requires Trigger(Key(c), hash, roles, f, s).1.None?
    ensures var g := Trigger(Key(c), hash, roles, f, s).0;
      if role in roles then StampedIfMissing(c, hash, f.At(role), g.At(role)) else g.At(role) == f.At(role)
    decreases |roles|
  {
    hide Retry, StampedIfMissing, RestartPlan;
    if roles != [] {
      var o := Retry(RestartPlan(Key(c), hash), f.At(roles[0]), s.At(roles[0]), 0);
      RetrySerial(RestartPlan(Key(c), hash), f.At(roles[0]), s.At(roles[0]), 0);
      QuietRestart(c, hash, f.At(roles[0]), s.At(roles[0]));
      QuietTrigger(c, hash, roles[1..], f.With(roles[0], o.history), s, role);
      assert roles == [roles[0]] + roles[1..];
    }
  }

  /** The pass goes through the restarts: a hash is stored and the secret has another one. */
  predicate Rotates(stored: string, hash: string) {
    hash != "" && stored != "" && stored != hash
  }

  /**
   Completion and resumption: an error-free pass that moves the stored hash stamps exactly the required
   workloads that still miss it, whatever earlier failed passes had already done, and touches nothing else.
   */
  lemma QuietPassStampsMissing(c: Credential, masterOnly: bool, stored: string, hash: string, f: Fleet<Trail>,
                               s: Fleet<Script>, role: Role)
    requires Live(f) && QuietFleet(s) && Rotates(stored, hash)
    requires Rotate(c, masterOnly, stored, Digest(hash), f, s).error.None?
    ensures var r := Rotate(c, masterOnly, stored, Digest(hash), f, s);
      && r.stored == hash
      && (role in Required(c, masterOnly) ==> StampedIfMissing(c, hash, f.At(role), r.fleet.At(role)))
      && (role !in Required(c, masterOnly) ==> r.fleet.At(role) == f.At(role))
  {
    hide Retry, StampedIfMissing, RestartPlan, Trigger;
    QuietTrigger(c, hash, Required(c, masterOnly), f, s, role);
  }

  // ----- Completion while others write and reads lag -----

  ghost predicate WithinFleet(s: Fleet<Script>, lag: nat) {
    Complete(s) && Within(s.master, lag) && Within(s.worker, lag) && Within(s.dashboard, lag)
  }

  predicate Inactive(v: Version<Workload>) { v.value.None? || ScaledToZero(v.value.value) }

  /** A restart that reads this version skips it. */
  predicate PassesOver(c: Credential, hash: string, v: Version<Workload>) {
    Inactive(v) || KeyOf(Key(c), v.value) == Text(hash)
  }

  /** A version that reads of the pass reach is inactive, or lies before the pass and carries the hash. */
  ghost predicate Missable(c: Credential, hash: string, g: Trail, from: nat, lag: nat) {
    exists i :: 0 <= i < |g| && from - 1 - lag <= i && (Inactive(g[i]) || (i < from - 1 && PassesOver(c, hash, g[i])))
  }

  /** A stamp stays while others leave it alone and restarts are for the same hash. */
  lemma {:induction false} StampStays(key: string, hash: string, g: Trail, from: nat, i: nat)
    requires 0 < from <= |g| && from - 1 <= i < |g| && key != RESTARTED_AT && key != RESTART_TRIGGERED
    requires Serial(RestartPlan(key, hash), g, from) && KeyOf(key, g[i].value) == Text(hash)
    ensures Stamp(key, g) == Text(hash) || Erasures(key, g, from) > 0
  {
    if i < |g| - 1 {
      var front := g[..|g| - 1];
      forall j | from <= j < |front| && front[j].author.Operator? ensures OwnStep(RestartPlan(key, hash), front, j) {
        assert OwnStep(RestartPlan(key, hash), g, j);
      }
      assert g[|g| - 1].author.Operator? ==> OwnStep(RestartPlan(key, hash), g, |g| - 1);
      StampStays(key, hash, front, from, i);
    }
  }

  lemma SkippableIff(c: Credential, hash: string, v: Version<Workload>)
    ensures Skippable(RestartPlan(Key(c), hash), v) <==> PassesOver(c, hash, v)
  {
    hide Key;
    var plan := RestartPlan(Key(c), hash);
    if v.value.Some? && PassesOver(c, hash, v) { assert Skips(plan, v.value.value, 0); }
  }

  lemma DoneMeans(c: Credential, hash: string, g: Trail, from: nat, lag: nat, i: nat)
    requires 0 < from <= |g| && DoneAt(RestartPlan(Key(c), hash), g, from, lag, i)
    ensures PassesOver(c, hash, g[i])
  {
    KeysDiffer();
    SkippableIff(c, hash, g[i]);
    hide Key, Skippable;
  }

  /** A tolerated restart call stamps its workload unless it could read a version it passes over. */
  lemma RestartStampsOrMisses(c: Credential, hash: string, h: Trail, script: Script, lag: nat, o: Outcome<Workload>,
                              g: Trail)
    requires |h| > 0 && |script| == MAX_ATTEMPTS && Within(script, lag)
    requires o == Retry(RestartPlan(Key(c), hash), h, script, 0) && Tolerated(o.error)
    requires |h| <= |g| && o.history <= g && Serial(RestartPlan(Key(c), hash), g, |h|)
    ensures |g| > 0 && (Carries(c, hash, g) || Missable(c, hash, g, |h|, lag) || Erasures(Key(c), g, |h|) > 0)
  {
    hide Retry, RestartPlan, Serial, Erasures, Within, Key, Stamp;
    var i := RetryMeets(RestartPlan(Key(c), hash), h, script, 0, lag);
    DoneMeans(c, hash, o.history, |h|, lag, i);
    hide DoneAt, KeyOf, Inactive;
    assert g[i] == o.history[i];
    KeysDiffer();
    if !Inactive(g[i]) && |h| - 1 <= i { StampStays(Key(c), hash, g, |h|, i); }
  }

  /** The workload carries the hash, or could be passed over, or others changed its stamp during the pass. */
  ghost predicate StampedOrMissed(c: Credential, hash: string, g: Trail, from: nat, lag: nat)
    requires 0 < from && |g| > 0
  {
    Carries(c, hash, g) || Missable(c, hash, g, from, lag) || Erasures(Key(c), g, from) > 0
  }

  lemma {:induction false} TriggerStampsOrMisses(c: Credential, hash: string, roles: seq<Role>, f: Fleet<Trail>,
                                                 s: Fleet<Script>, lag: nat, role: Role)
    requires Live(f) && WithinFleet(s, lag) && role in roles
    requires Trigger(Key(c), hash, roles, f, s).1.None?
    ensures var g := Trigger(Key(c), hash, roles, f, s).0.At(role);
      |g| > 0 && StampedOrMissed(c, hash, g, |f.At(role)|, lag)
    decreases |roles|
  {
    hide Retry, RestartPlan, Missable, Erasures;
    var plan := RestartPlan(Key(c), hash);
    var o := Retry(plan, f.At(roles[0]), s.At(roles[0]), 0);
    var f1 := f.With(roles[0], o.history);
    RetrySerial(plan, f.At(roles[0]), s.At(roles[0]), 0);
    TriggerSerial(Key(c), hash, roles, f, s, role);
    TriggerSerial(Key(c), hash, roles[1..], f1, s, role);
    var g := Trigger(Key(c), hash, roles, f, s).0.At(role);
    if role == roles[0] {
      RestartStampsOrMisses(c, hash, f.At(role), s.At(role), lag, o, g);
    } else {
      TriggerStampsOrMisses(c, hash, roles[1..], f1, s, lag, role);
    }
  }

  /**
   Completion while others write and reads lag: a pass that moves the stored hash from one value to another ends with a
   required workload carrying the new hash, unless a version its reads reach is absent or scaled to zero, or is older
   than the pass and carries the hash, or others change the stamp while the pass restarts workloads.
   */
  lemma CompletionUnderInterference(c: Credential, masterOnly: bool, stored: string, hash: string, f: Fleet<Trail>,
                                    s: Fleet<Script>, lag: nat, role: Role)
    requires Live(f) && WithinFleet(s, lag) && Rotates(stored, hash) && role in Required(c, masterOnly)
    requires Rotate(c, masterOnly, stored, Digest(hash), f, s).error.None?
    ensures var r := Rotate(c, masterOnly, stored, Digest(hash), f, s);
      r.stored == hash && StampedOrMissed(c, hash, r.fleet.At(role), |f.At(role)|, lag)
  {
    hide Retry, RestartPlan, Trigger, StampedOrMissed, WithinFleet;
    TriggerStampsOrMisses(c, hash, Required(c, masterOnly), f, s, lag, role);
  }

  /** Others leave the workload in place and running from version `from` on. */
  ghost predicate KeepsActive(g: Trail, from: nat) {
    forall i :: from <= i < |g| && g[i].author.Foreign? ==> !Inactive(g[i])
  }

  lemma {:induction false} ActiveThroughout(key: string, hash: string, g: Trail, from: nat, i: nat)
    requires 0 < from <= |g| && from - 1 <= i < |g| && !Inactive(g[from - 1])
    requires Serial(RestartPlan(key, hash), g, from) && KeepsActive(g, from)
    ensures !Inactive(g[i])
  {
    if from <= i && g[i].author.Operator? {
      ActiveThroughout(key, hash, g, from, i - 1);
      assert OwnStep(RestartPlan(key, hash), g, i);
    }
  }

  /** No version that reads reach before the pass makes a restart pass over a workload that runs and lacks the hash. */
  ghost predicate Unmistakable(c: Credential, hash: string, h: Trail, lag: nat)
    requires |h| > 0
  {
    !Inactive(h[|h| - 1]) && forall i :: 0 <= i < |h| - 1 && |h| - 1 - lag <= i ==> !PassesOver(c, hash, h[i])
  }

  lemma NothingMissed(c: Credential, hash: string, h: Trail, g: Trail, lag: nat)
    requires |h| > 0 && h <= g && Unmistakable(c, hash, h, lag)
    requires Serial(RestartPlan(Key(c), hash), g, |h|) && KeepsActive(g, |h|)
    ensures !Missable(c, hash, g, |h|, lag)
  {
    hide PassesOver, Serial, KeepsActive, Key, Inactive;
    forall i | |h| - 1 <= i < |g| ensures !Inactive(g[i]) { ActiveThroughout(Key(c), hash, g, |h|, i); }
    forall i | 0 <= i < |h| - 1 && |h| - 1 - lag <= i ensures !Inactive(g[i]) && !PassesOver(c, hash, g[i]) {
      PassesOverInactive(c, hash, h[i]);
    }
  }

  lemma PassesOverInactive(c: Credential, hash: string, v: Version<Workload>)
    ensures Inactive(v) ==> PassesOver(c, hash, v)
  {}

  /** Completion that can be told before the pass: unmistakable workloads that others keep running end with the hash. */
  lemma SureCompletion(c: Credential, masterOnly: bool, stored: string, hash: string, f: Fleet<Trail>,
                       s: Fleet<Script>, lag: nat, role: Role)
    requires Live(f) && WithinFleet(s, lag) && Rotates(stored, hash) && role in Required(c, masterOnly)
    requires Rotate(c, masterOnly, stored, Digest(hash), f, s).error.None?
    requires var g := Rotate(c, masterOnly, stored, Digest(hash), f, s).fleet.At(role);
      Erasures(Key(c), g, |f.At(role)|) == 0 && KeepsActive(g, |f.At(role)|)
    requires Unmistakable(c, hash, f.At(role), lag)
    ensures Carries(c, hash, Rotate(c, masterOnly, stored, Digest(hash), f, s).fleet.At(role))
  {
    CompletionUnderInterference(c, masterOnly, stored, hash, f, s, lag, role);
    RotateAppends(c, masterOnly, stored, Digest(hash), f, s, role);
    hide Retry, RestartPlan, Trigger, Erasures, KeepsActive, Missable, WithinFleet, Unmistakable, Rotate;
    NothingMissed(c, hash, f.At(role), Rotate(c, masterOnly, stored, Digest(hash), f, s).fleet.At(role), lag);
  }

  /** The restart call with this script, if tolerated and left alone by others, stamps the workload. */
  ghost predicate StampsWith(c: Credential, hash: string, h: Trail, lag: nat, script: Script)
    requires |h| > 0
  {
    |script| == MAX_ATTEMPTS && Within(script, lag) ==>
      var o := Retry(RestartPlan(Key(c), hash), h, script, 0);
      Tolerated(o.error) && Erasures(Key(c), o.history, |h|) == 0 && KeepsActive(o.history, |h|) ==>
        |o.history| > 0 && Carries(c, hash, o.history)
  }

  function StaleBy(lag: nat): Attempt<Workload> { Attempt(0, [], lag, [], Clean, false) }

  /** Reading an old version that it passes over, a restart does nothing and reports no error but an absent workload. */
  lemma StaleRestartSkips(c: Credential, hash: string, h: Trail, i: nat)
    requires i < |h| && PassesOver(c, hash, h[i])
    ensures var o := Retry(RestartPlan(Key(c), hash), h, Always(StaleBy(|h| - 1 - i)), 0);
      Tolerated(o.error) && o.history == h
  {
    hide Key, Retry;
    SkippingRetry(RestartPlan(Key(c), hash), h, Always(StaleBy(|h| - 1 - i)), i);
  }

  /**
   When a restart is sure to stamp a running workload that lacks the hash, for every script, interference and failure:
   if and only if no version within the lag of its reads is one it passes over.
   */
  lemma RestartSureIff(c: Credential, hash: string, h: Trail, lag: nat)
    requires |h| > 0 && !PassesOver(c, hash, h[|h| - 1])
    ensures (forall script :: StampsWith(c, hash, h, lag, script)) <==> Unmistakable(c, hash, h, lag)
  {
    if Unmistakable(c, hash, h, lag) {
      forall script ensures StampsWith(c, hash, h, lag, script) { UnmistakableStamps(c, hash, h, lag, script); }
    } else {
      PassesOverInactive(c, hash, h[|h| - 1]);
      var i :| 0 <= i < |h| - 1 && |h| - 1 - lag <= i && PassesOver(c, hash, h[i]);
      MistakableMisses(c, hash, h, lag, i);
    }
  }

  lemma UnmistakableStamps(c: Credential, hash: string, h: Trail, lag: nat, script: Script)
    requires |h| > 0 && Unmistakable(c, hash, h, lag)
    ensures StampsWith(c, hash, h, lag, script)
  {
    hide Retry, RestartPlan, Erasures, KeepsActive, Unmistakable, Missable, Within, Key;
    if |script| == MAX_ATTEMPTS && Within(script, lag) {
      var plan := RestartPlan(Key(c), hash);
      var o := Retry(plan, h, script, 0);
      RetrySerial(plan, h, script, 0);
      if Tolerated(o.error) && Erasures(Key(c), o.history, |h|) == 0 && KeepsActive(o.history, |h|) {
        RestartStampsOrMisses(c, hash, h, script, lag, o, o.history);
        NothingMissed(c, hash, h, o.history, lag);
      }
    }
  }

  lemma MistakableMisses(c: Credential, hash: string, h: Trail, lag: nat, i: nat)
    requires 0 <= i < |h| - 1 && |h| - 1 - lag <= i && PassesOver(c, hash, h[i]) && !PassesOver(c, hash, h[|h| - 1])
    ensures !StampsWith(c, hash, h, lag, Always(StaleBy(|h| - 1 - i)))
  {
    hide Retry, RestartPlan, Key;
    StaleRestartSkips(c, hash, h, i);
    assert Within(Always(StaleBy(|h| - 1 - i)), lag);
  }

  // ----- A run in which a stale read loses a rotation -----

  const NO_IDLE: Fleet<seq<Option<Workload>>> := Fleet([], [], [])

  function SamePass(hash: string, a: Attempt<Workload>): Pass {
    Pass(NO_IDLE, None, Digest(hash), true, Fleet(Always(a), Always(a), Always(a)), true)
  }

  lemma NoIdle(f: Fleet<Trail>)
    requires Live(f)
    ensures Idle(f, NO_IDLE) == f
  {
    assert f.master + Foreigns<Workload>([]) == f.master && f.worker + Foreigns<Workload>([]) == f.worker
        && f.dashboard + Foreigns<Workload>([]) == f.dashboard;
  }

  lemma {:induction false} StaleTriggerSkips(c: Credential, hash: string, roles: seq<Role>, f: Fleet<Trail>)
    requires Live(f) && forall role: Role :: |f.At(role)| > 1 && PassesOver(c, hash, f.At(role)[|f.At(role)| - 2])
    ensures var s := SamePass(hash, StaleBy(1)).scripts; Trigger(Key(c), hash, roles, f, s) == (f, None)
    decreases |roles|
  {
    hide Retry, RestartPlan, PassesOver, Key;
    if roles != [] {
      var h := f.At(roles[0]);
      assert |h| > 1 && PassesOver(c, hash, h[|h| - 2]);
      StaleRestartSkips(c, hash, h, |h| - 2);
      assert f.With(roles[0], h) == f;
      StaleTriggerSkips(c, hash, roles[1..], f);
    }
  }

  /**
   The lost rotation: workloads that run with the hash a are rotated to b without any fault, the secret returns to a,
   and a pass whose reads lag by one version moves the stored hash to a while every workload keeps b.
   */
  lemma StaleReadLosesRotation(c: Credential, a: string, b: string, w: World, role: Role)
    requires Live(w.fleet) && w.stored == a && Rotates(a, b) && role in Required(c, true)
    requires forall r: Role :: !Inactive(w.fleet.At(r)[|w.fleet.At(r)| - 1]) && Carries(c, a, w.fleet.At(r))
    requires c.Api?
    ensures var passes := [SamePass(b, OK_ATTEMPT), SamePass(a, StaleBy(1))];
      Ready(passes) && var r := Run(c, w, passes);
      r.stored == a && Carries(c, b, r.fleet.At(role)) && !Carries(c, a, r.fleet.At(role))
  {
    hide Key, Step, Stamp;
    var p, q := SamePass(b, OK_ATTEMPT), SamePass(a, StaleBy(1));
    RunTwo(c, w, p, q);
    CleanRotation(c, a, b, w, p);
    StaleRotation(c, a, b, Step(c, w, p));
    assert Restamped(c, a, b, Step(c, w, p).fleet.At(role));
  }

  lemma RunTwo(c: Credential, w: World, p: Pass, q: Pass)
    requires Live(w.fleet) && Complete(p.scripts) && Complete(q.scripts)
    ensures Ready([p, q]) && Run(c, w, [p, q]) == Step(c, Step(c, w, p), q)
  {
    hide Step;
    assert [p, q][..1] == [p] && [p][..0] == [];
    assert Run(c, w, [p]) == Step(c, Run(c, w, []), p);
  }

  lemma StaleRotation(c: Credential, a: string, b: string, v: World)
    requires Live(v.fleet) && v.stored == b && Rotates(b, a) && forall r: Role :: Restamped(c, a, b, v.fleet.At(r))
    ensures Step(c, v, SamePass(a, StaleBy(1))) == World(a, v.fleet)
  {
    hide Trigger, PassesOver, Carries, Key;
    NoIdle(v.fleet);
    forall r: Role ensures |v.fleet.At(r)| > 1 && PassesOver(c, a, v.fleet.At(r)[|v.fleet.At(r)| - 2]) {
      assert Restamped(c, a, b, v.fleet.At(r));
    }
    StaleTriggerSkips(c, a, Required(c, true), v.fleet);
  }

  lemma {:induction false} OkTrigger(c: Credential, hash: string, roles: seq<Role>, f: Fleet<Trail>)
    requires Live(f) && forall i, j :: 0 <= i < j < |roles| ==> roles[i] != roles[j]
    requires forall role :: role in roles ==> !Inactive(f.At(role)[|f.At(role)| - 1])
    ensures Trigger(Key(c), hash, roles, f, SamePass(hash, OK_ATTEMPT).scripts).1.None?
    decreases |roles|
  {
    hide Retry, RestartPlan, Key;
    if roles != [] {
      var s := SamePass(hash, OK_ATTEMPT).scripts;
      var o := Retry(RestartPlan(Key(c), hash), f.At(roles[0]), s.At(roles[0]), 0);
      RetrySerial(RestartPlan(Key(c), hash), f.At(roles[0]), s.At(roles[0]), 0);
      CleanRetry(RestartPlan(Key(c), hash), f.At(roles[0]), s.At(roles[0]));
      var f1 := f.With(roles[0], o.history);
      forall role | role in roles[1..] ensures f1.At(role) == f.At(role) && !Inactive(f.At(role)[|f.At(role)| - 1]) {
        assert role in roles && role != roles[0];
      }
      OkTrigger(c, hash, roles[1..], f1);
    }
  }

  /** The last version carries b and not a, the one before it carried a. */
  predicate Restamped(c: Credential, a: string, b: string, g: Trail) {
    |g| > 1 && Carries(c, b, g) && !Carries(c, a, g) && PassesOver(c, a, g[|g| - 2])
  }

  /** A faultless rotation stamps every workload on top of its old stamp. */
  lemma CleanRotation(c: Credential, a: string, b: string, w: World, p: Pass)
    requires c.Api? && Live(w.fleet) && w.stored == a && Rotates(a, b) && p == SamePass(b, OK_ATTEMPT)
    requires forall r: Role :: !Inactive(w.fleet.At(r)[|w.fleet.At(r)| - 1]) && Carries(c, a, w.fleet.At(r))
    ensures var v := Step(c, w, p);
      v.stored == b && forall r: Role :: Restamped(c, a, b, v.fleet.At(r))
  {
    NoIdle(w.fleet);
    OkTrigger(c, b, Required(c, true), w.fleet);
    hide Retry, RestartPlan, Trigger, StampedIfMissing, Key, Carries, Inactive, Restamped;
    forall r: Role ensures Restamped(c, a, b, Step(c, w, p).fleet.At(r)) {
      assert r == Required(c, true)[if r.Master? then 0 else if r.Worker? then 1 else 2];
      QuietPassStampsMissing(c, true, a, b, w.fleet, p.scripts, r);
      StampedOnTop(c, a, b, w.fleet.At(r), Step(c, w, p).fleet.At(r));
    }
  }

  lemma StampedOnTop(c: Credential, a: string, b: string, before: Trail, after: Trail)
    requires |before| > 0 && StampedIfMissing(c, b, before, after) && a != b
    requires !Inactive(before[|before| - 1]) && Carries(c, a, before)
    ensures Restamped(c, a, b, after)
  {
    StampedActive(c, b, before, after);
    hide RestartPlan, Key;
  }

  /** Every required workload that runs pods carries the hash. */
  ghost predicate AllCarry(c: Credential, masterOnly: bool, hash: string, f: Fleet<Trail>)
    requires Live(f)
  {
    forall role :: role in Required(c, masterOnly) && Active(f.At(role)) ==> Carries(c, hash, f.At(role))
  }

  lemma StampedCarries(c: Credential, hash: string, before: Trail, after: Trail)
    requires |before| > 0 && StampedIfMissing(c, hash, before, after)
    ensures |after| > 0 && (Active(after) ==> Carries(c, hash, after))
  {
    KeysDiffer();
  }

  /**
   "The workloads carry the current hash after an error-free pass" is not an invariant of the code; it holds
   if and only if the pass rotated or they carried it already.
   */
  lemma CarryAfterPassIff(c: Credential, masterOnly: bool, stored: string, hash: string, f: Fleet<Trail>,
                          s: Fleet<Script>)
    requires Live(f) && QuietFleet(s) && hash != ""
    requires Rotate(c, masterOnly, stored, Digest(hash), f, s).error.None?
    ensures var r := Rotate(c, masterOnly, stored, Digest(hash), f, s);
      && r.stored == hash
      && (AllCarry(c, masterOnly, hash, r.fleet) <==>
            Rotates(stored, hash) || AllCarry(c, masterOnly, hash, f))
  {
    hide Retry, StampedIfMissing, RestartPlan, Trigger;
    var r := Rotate(c, masterOnly, stored, Digest(hash), f, s);
    if Rotates(stored, hash) {
      forall role | role in Required(c, masterOnly) && Active(r.fleet.At(role))
        ensures Carries(c, hash, r.fleet.At(role))
      {
        QuietPassStampsMissing(c, masterOnly, stored, hash, f, s, role);
        StampedCarries(c, hash, f.At(role), r.fleet.At(role));
      }
    }
  }

  /**
   Exactly once: after any run of passes on one hash, failing, crashing or not, whose last pass rotates without error in
   a quiet environment, a required workload that lacked the hash carries it and has been restarted at most once more
   than its stamp was changed by others; exactly once if it was not.
   */
  lemma ExactlyOnce(c: Credential, w: World, passes: seq<Pass>, hash: string, role: Role)
    requires Live(w.fleet) && Ready(passes) && passes != []
    requires forall i :: 0 <= i < |passes| ==> passes[i].read == Digest(hash)
    requires var p := passes[|passes| - 1]; var v := Run(c, w, passes[..|passes| - 1]);
      && Rotates(Seen(v, p), hash) && QuietFleet(p.scripts) && Attempted(c, v, p).error.None?
      && role in Required(c, p.masterOnly) && Active(Idle(v.fleet, p.idle).At(role))
    requires !Carries(c, hash, w.fleet.At(role))
    ensures var h, from := Run(c, w, passes).fleet.At(role), |w.fleet.At(role)|;
      Carries(c, hash, h) && OncePerErasure(c, h, from)
  {
    hide Retry, RestartPlan, Trigger, Rotate, Idle, Key, Attempted, Step, Seen, OncePerErasure;
    var v, p := Run(c, w, passes[..|passes| - 1]), passes[|passes| - 1];
    LastPassCarries(c, v, p, hash, role);
    OnceWhenCarried(c, w, passes, hash, role);
  }

  /** At most one restart more than erasures; exactly one if there are none. */
  ghost predicate OncePerErasure(c: Credential, h: Trail, from: nat)
    requires 0 < from
  {
    OwnWrites(h, from) <= 1 + Erasures(Key(c), h, from) && (Erasures(Key(c), h, from) == 0 ==> OwnWrites(h, from) == 1)
  }

  lemma OnceWhenCarried(c: Credential, w: World, passes: seq<Pass>, hash: string, role: Role)
    requires Live(w.fleet) && Ready(passes) && forall i :: 0 <= i < |passes| ==> passes[i].read == Digest(hash)
    requires !Carries(c, hash, w.fleet.At(role))
    ensures var h := Run(c, w, passes).fleet.At(role);
      |h| > 0 && (Carries(c, hash, h) ==> OncePerErasure(c, h, |w.fleet.At(role)|))
  {
    hide Run, Key;
    var from, h := |w.fleet.At(role)|, Run(c, w, passes).fleet.At(role);
    RestartsPerChange(c, w, passes, role);
    ConstantBlocks(passes, hash);
    if OwnWrites(h, from) == 0 && Erasures(Key(c), h, from) == 0 { NoOwnKeepsStamp(Key(c), h, from); }
  }

  /**
   The same in any environment: unless a version that the last pass can have read makes the workload be passed over, or
   others change its stamp while the last pass restarts workloads, it carries the hash; and whenever it does, it has
   been restarted at most once more than its stamp was changed by others, exactly once if it was not.
   */
  lemma ExactlyOnceUnderInterference(c: Credential, w: World, passes: seq<Pass>, hash: string, lag: nat, role: Role)
    requires Live(w.fleet) && Ready(passes) && passes != []
    requires forall i :: 0 <= i < |passes| ==> passes[i].read == Digest(hash)
    requires var p := passes[|passes| - 1]; var v := Run(c, w, passes[..|passes| - 1]);
      && Rotates(Seen(v, p), hash) && WithinFleet(p.scripts, lag) && Attempted(c, v, p).error.None?
      && role in Required(c, p.masterOnly)
    requires !Carries(c, hash, w.fleet.At(role))
    ensures var p := passes[|passes| - 1]; var v := Run(c, w, passes[..|passes| - 1]);
      var h := Run(c, w, passes).fleet.At(role);
      && |h| > 0 && StampedOrMissed(c, hash, h, |Idle(v.fleet, p.idle).At(role)|, lag)
      && (Carries(c, hash, h) ==> OncePerErasure(c, h, |w.fleet.At(role)|))
  {
    hide Retry, RestartPlan, Trigger, Rotate, Key, Attempted, Step, Seen, StampedOrMissed, OncePerErasure;
    var v, p := Run(c, w, passes[..|passes| - 1]), passes[|passes| - 1];
    LastPassStampsOrMisses(c, v, p, hash, lag, role);
    OnceWhenCarried(c, w, passes, hash, role);
  }

  lemma LastPassStampsOrMisses(c: Credential, v: World, p: Pass, hash: string, lag: nat, role: Role)
    requires Live(v.fleet) && Complete(p.scripts) && p.read == Digest(hash) && WithinFleet(p.scripts, lag)
    requires Rotates(Seen(v, p), hash) && Attempted(c, v, p).error.None? && role in Required(c, p.masterOnly)
    ensures StampedOrMissed(c, hash, Step(c, v, p).fleet.At(role), |Idle(v.fleet, p.idle).At(role)|, lag)
  {
    hide Retry, RestartPlan, Trigger, Rotate, Idle, Key, StampedOrMissed;
    CompletionUnderInterference(c, p.masterOnly, Seen(v, p), hash, Idle(v.fleet, p.idle), p.scripts, lag, role);
  }

  lemma LastPassCarries(c: Credential, v: World, p: Pass, hash: string, role: Role)
    requires Live(v.fleet) && Complete(p.scripts) && p.read == Digest(hash)
    requires Rotates(Seen(v, p), hash) && QuietFleet(p.scripts) && Attempted(c, v, p).error.None?
    requires role in Required(c, p.masterOnly) && Active(Idle(v.fleet, p.idle).At(role))
    ensures Carries(c, hash, Step(c, v, p).fleet.At(role))
  {
    hide Retry, StampedIfMissing, RestartPlan, Trigger, Rotate, Idle, Key;
    QuietPassStampsMissing(c, p.masterOnly, Seen(v, p), hash, Idle(v.fleet, p.idle), p.scripts, role);
    StampedActive(c, hash, Idle(v.fleet, p.idle).At(role), Step(c, v, p).fleet.At(role));
  }

  lemma StampedActive(c: Credential, hash: string, before: Trail, after: Trail)
    requires |before| > 0 && StampedIfMissing(c, hash, before, after) && Active(before)
    ensures |after| > 0 && Carries(c, hash, after)
  {
    KeysDiffer();
  }

  lemma {:induction false} ConstantBlocks(passes: seq<Pass>, hash: string)
    requires forall i :: 0 <= i < |passes| ==> passes[i].read == Digest(hash)
    ensures Blocks(Observed(passes)) <= 1
    ensures hash != "" ==> |Observed(passes)| == |passes| && (passes != [] ==> Blocks(Observed(passes)) == 1)
    ensures forall i :: 0 <= i < |Observed(passes)| ==> Observed(passes)[i] == hash
    decreases |passes|
  {
    if passes != [] {
      var front := Observed(passes[..|passes| - 1]);
      ConstantBlocks(passes[..|passes| - 1], hash);
      if hash != "" { assert (front + [hash])[..|front|] == front; }
    }
  }

  lemma {:induction false} NoOwnKeepsStamp(key: string, h: Trail, from: nat)
    requires 0 < from <= |h| && Erasures(key, h, from) == 0 && OwnWrites(h, from) == 0
    ensures Stamp(key, h) == KeyOf(key, h[from - 1].value)
  {
    if |h| > from { NoOwnKeepsStamp(key, h[..|h| - 1], from); }
  }

  const OK_ATTEMPT: Attempt<Workload> := Attempt(0, [], 0, [], Clean, false)
  const BAD_ATTEMPT: Attempt<Workload> := Attempt(0, [], 0, [], GetFails(Permanent), false)

  function Always(a: Attempt<Workload>): Script { [a, a, a, a] }

  /** A pass on "b" in which only the call for the workers fails. */
  const HALF_PASS := Pass(Fleet([], [], []), None, Digest("b"), true,
                          Fleet(Always(OK_ATTEMPT), Always(BAD_ATTEMPT), Always(OK_ATTEMPT)), true)

  const UNSTAMPED: Trail := [Version(Some(Workload(None, map[])), Foreign)]

  /**
   The abandoned hash: a pass on "b" stamps the master and fails on the workers, then the secret returns to the
   stored "a". Every later pass on "a" is clean and does nothing, and the master keeps the stamp "b".
   */
  lemma {:induction false} AbandonedHash(passes: seq<Pass>)
    requires Ready(passes) && forall i :: 0 <= i < |passes| ==>
      passes[i].read == Digest("a") && passes[i].stale.None? && passes[i].idle == Fleet([], [], [])
    ensures var w := World("a", Fleet(UNSTAMPED, UNSTAMPED, UNSTAMPED));
      var r := Run(Api, Step(Api, w, HALF_PASS), passes);
      r.stored == "a" && Carries(Api, "b", r.fleet.master) && !Carries(Api, "b", r.fleet.worker)
  {
    var f := Fleet(UNSTAMPED, UNSTAMPED, UNSTAMPED);
    var s := HALF_PASS.scripts;
    var plan := RestartPlan(Key(Api), "b");
    assert UNSTAMPED + Foreigns<Workload>([]) == UNSTAMPED;
    assert Idle(f, HALF_PASS.idle) == f;
    var o := Retry(plan, UNSTAMPED, s.master, 0);
    assert o.error.None? && Carries(Api, "b", o.history);
    var f1 := f.With(Master, o.history);
    assert Required(Api, true)[1..] == [Worker, Dashboard];
    assert Retry(plan, UNSTAMPED, s.worker, 0) == Outcome(UNSTAMPED, Some(Permanent));
    assert Trigger(Key(Api), "b", [Worker, Dashboard], f1, s) == (f1, Some(Permanent));
    assert Step(Api, World("a", f), HALF_PASS) == World("a", f1);
    IdleRun(World("a", f1), passes);
  }

  lemma {:induction false} IdleRun(w: World, passes: seq<Pass>)
    requires Live(w.fleet) && Ready(passes) && forall i :: 0 <= i < |passes| ==>
      passes[i].read == Digest(w.stored) && passes[i].stale.None? && passes[i].idle == Fleet([], [], [])
    requires w.stored != ""
    ensures Run(Api, w, passes) == w
    decreases |passes|
  {
    if passes != [] {
      IdleRun(w, passes[..|passes| - 1]);
      var p := passes[|passes| - 1];
      assert p.idle == Fleet([], [], []);
      assert Idle(w.fleet, p.idle).At(Master) == w.fleet.At(Master);
      assert Idle(w.fleet, p.idle).At(Worker) == w.fleet.At(Worker);
      assert Idle(w.fleet, p.idle).At(Dashboard) == w.fleet.At(Dashboard);
    }
  }

  // ----- Erased stamps -----

  const PLAIN := Workload(None, map[])

  /** The half pass again, after a component reconcile has replaced the master's pod template. */
  const ERASING_PASS := HALF_PASS.(idle := Fleet([Some(PLAIN)], [], []))

  /** A half pass and n more, the template being replaced before each of them. */
  function ErasingPasses(n: nat): seq<Pass> { if n == 0 then [HALF_PASS] else ErasingPasses(n - 1) + [ERASING_PASS] }

  function Restarted(): Workload {
    PLAIN.(annotations := map[RESTARTED_AT := Instant(0)][RESTART_TRIGGERED := Text("true")][Key(Api) := Text("b")])
  }

  lemma {:induction false} PlainRestart(h: Trail)
    requires |h| > 0 && h[|h| - 1].value == Some(PLAIN)
    ensures Retry(RestartPlan(Key(Api), "b"), h, Always(OK_ATTEMPT), 0)
         == Outcome(h + [Version(Some(Restarted()), Operator(0))], None)
  {
    hide Key;
    assert h + Foreigns<Workload>([]) == h;
    var plan := RestartPlan(Key(Api), "b");
    assert plan(PLAIN, 0) == Some(Restarted());
    hide RestartPlan;
    assert Try(plan, h, OK_ATTEMPT) == Outcome(h + [Version(Some(Restarted()), Operator(0))], None);
    hide Try;
  }

  lemma {:induction false} FailedRestart(h: Trail)
    requires |h| > 0
    ensures Retry(RestartPlan(Key(Api), "b"), h, Always(BAD_ATTEMPT), 0) == Outcome(h, Some(Permanent))
  {
    hide Key, RestartPlan;
    assert h + Foreigns<Workload>([]) == h;
  }

  /** A half pass stamps the master, fails on the workers and leaves the stored hash. */
  lemma HalfStep(w: World, p: Pass, h: Trail)
    requires Live(w.fleet) && w.stored == "a" && p in {HALF_PASS, ERASING_PASS}
    requires h == w.fleet.master + Foreigns(p.idle.master) && h[|h| - 1].value == Some(PLAIN)
    ensures Step(Api, w, p) == World("a", w.fleet.(master := h + [Version(Some(Restarted()), Operator(0))]))
  {
    var f, s := Idle(w.fleet, p.idle), p.scripts;
    assert f.master == h && f.worker == w.fleet.worker && f.dashboard == w.fleet.dashboard;
    PlainRestart(h);
    FailedRestart(f.worker);
    hide Retry, RestartPlan, Key, Restarted;
    var f1 := f.With(Master, h + [Version(Some(Restarted()), Operator(0))]);
    assert Required(Api, true)[1..] == [Worker, Dashboard];
    assert Trigger(Key(Api), "b", [Worker, Dashboard], f1, s) == (f1, Some(Permanent));
    assert Trigger(Key(Api), "b", Required(Api, true), f, s) == (f1, Some(Permanent));
  }

  const ALL_UNSTAMPED := World("a", Fleet(UNSTAMPED, UNSTAMPED, UNSTAMPED))

  /** The stored hash has not moved, and the master's stamp was erased n times and set n + 1 times. */
  predicate Stormed(r: World, n: nat) {
    && Live(r.fleet) && r.stored == "a" && Stamp(Key(Api), r.fleet.master) == Text("b")
    && Erasures(Key(Api), r.fleet.master, 1) == n && OwnWrites(r.fleet.master, 1) == n + 1
  }

  lemma FirstStorm()
    ensures Live(ALL_UNSTAMPED.fleet) && Stormed(Step(Api, ALL_UNSTAMPED, HALF_PASS), 0)
  {
    assert UNSTAMPED + Foreigns<Workload>([]) == UNSTAMPED;
    HalfStep(ALL_UNSTAMPED, HALF_PASS, UNSTAMPED);
    hide Key, Restarted, Step;
    HalfCounts(UNSTAMPED, UNSTAMPED, 0);
  }

  lemma NextStorm(v: World, n: nat)
    requires n > 0 && Stormed(v, n - 1)
    ensures Stormed(Step(Api, v, ERASING_PASS), n)
  {
    hide Key, Restarted;
    var h := v.fleet.master + [Version(Some(PLAIN), Foreign)];
    assert Foreigns([Some(PLAIN)]) == [Version(Some(PLAIN), Foreign)];
    HalfStep(v, ERASING_PASS, h);
    hide Step;
    HalfCounts(v.fleet.master, h, n);
  }

  /**
   The bound of RestartsPerChange is attained for any number of erasures: on one hash, n template replacements between
   passes that fail on the workers restart the master n + 1 times.
   */
  lemma {:induction false} ErasedStampRestartsAgain(n: nat)
    ensures Live(ALL_UNSTAMPED.fleet) && Ready(ErasingPasses(n)) && Blocks(Observed(ErasingPasses(n))) == 1
    ensures Stormed(Run(Api, ALL_UNSTAMPED, ErasingPasses(n)), n)
  {
    hide Step, Stormed, Observed;
    FirstStorm();
    ErasingReads(n);
    var passes := ErasingPasses(n);
    ConstantBlocks(passes, "b");
    var front := passes[..n];
    if n == 0 {
      assert front == [];
    } else {
      ErasedStampRestartsAgain(n - 1);
      assert front == ErasingPasses(n - 1);
      NextStorm(Run(Api, ALL_UNSTAMPED, front), n);
    }
    hide ALL_UNSTAMPED, HALF_PASS, ERASING_PASS;
    assert Run(Api, ALL_UNSTAMPED, passes) == Step(Api, Run(Api, ALL_UNSTAMPED, front), passes[n]);
  }

  lemma {:induction false} ErasingReads(n: nat)
    ensures var passes := ErasingPasses(n);
      && |passes| == n + 1 && Ready(passes) && (forall i :: 0 <= i <= n ==> passes[i].read == Digest("b"))
      && passes[n] == (if n == 0 then HALF_PASS else ERASING_PASS)
  {
    assert forall p :: p in {HALF_PASS, ERASING_PASS} ==> p.read == Digest("b") && Complete(p.scripts);
    hide HALF_PASS, ERASING_PASS, Complete;
    if n > 0 { ErasingReads(n - 1); }
  }

  lemma HalfCounts(before: Trail, h: Trail, n: nat)
    requires |before| > 0 && |h| > 0
    requires if n == 0 then before == UNSTAMPED && h == before
      else && h == before + [Version(Some(PLAIN), Foreign)] && Stamp(Key(Api), before) == Text("b")
           && Erasures(Key(Api), before, 1) == n - 1 && OwnWrites(before, 1) == n
    ensures var g := h + [Version(Some(Restarted()), Operator(0))];
      Stamp(Key(Api), g) == Text("b") && Erasures(Key(Api), g, 1) == n && OwnWrites(g, 1) == n + 1
  {
    hide Key;
    var g := h + [Version(Some(Restarted()), Operator(0))];
    assert g[..|g| - 1] == h;
    if n > 0 { assert h[..|h| - 1] == before; }
  }
}
