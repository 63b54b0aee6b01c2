/**
 Which workloads a change of a credential restarts, and which observations of its secret lead to a restart at all, with
 workloads, annotations and order written out.
 */
module CredentialOutcome {
  import opened Prelude
  import opened OptimisticRetry
  import opened CredentialRotation

  const API_KEY := "wazuh.com/api-credential-recovery-hash"
  const AUTHD_KEY := "wazuh.com/authd-credential-recovery-hash"

  // ----- The order of the restarts -----

  /** The restart call for one workload. */
  function Called(key: string, hash: string, h: Trail, script: Script): Outcome<Workload>
    requires |h| > 0 && |script| == MAX_ATTEMPTS
  {
    Retry(RestartPlan(key, hash), h, script, 0)
  }

  /** A rotation of the API credential: master, workers and dashboard in this order, up to the first failure. */
  ghost predicate ApiInOrder(stored: string, hash: string, f: Fleet<Trail>, s: Fleet<Script>, r: Rotation)
    requires Live(f) && Complete(s)
  {
    var m, w := Called(API_KEY, hash, f.master, s.master), Called(API_KEY, hash, f.worker, s.worker);
    var d := Called(API_KEY, hash, f.dashboard, s.dashboard);
    if !Tolerated(m.error) then r == Rotation(stored, f.(master := m.history), m.error)
    else if !Tolerated(w.error) then r == Rotation(stored, f.(master := m.history, worker := w.history), w.error)
    else if !Tolerated(d.error) then r == Rotation(stored, Fleet(m.history, w.history, d.history), d.error)
    else r == Rotation(hash, Fleet(m.history, w.history, d.history), None)
  }

  /** A rotation of the authd credential: the master, then the workers unless authd runs on the master only. */
  ghost predicate AuthdInOrder(masterOnly: bool, stored: string, hash: string, f: Fleet<Trail>, s: Fleet<Script>,
                               r: Rotation)
    requires Live(f) && Complete(s)
  {
    var m, w := Called(AUTHD_KEY, hash, f.master, s.master), Called(AUTHD_KEY, hash, f.worker, s.worker);
    if !Tolerated(m.error) then r == Rotation(stored, f.(master := m.history), m.error)
    else if masterOnly then r == Rotation(hash, f.(master := m.history), None)
    else if !Tolerated(w.error) then r == Rotation(stored, f.(master := m.history, worker := w.history), w.error)
    else r == Rotation(hash, f.(master := m.history, worker := w.history), None)
  }

  lemma TriggerUnrolls(key: string, hash: string, roles: seq<Role>, f: Fleet<Trail>, s: Fleet<Script>)
    requires Live(f) && Complete(s)
    ensures roles == [] ==> Trigger(key, hash, roles, f, s) == (f, None)
    ensures roles != [] ==>
      var o := Called(key, hash, f.At(roles[0]), s.At(roles[0]));
      && |o.history| > 0
      && Trigger(key, hash, roles, f, s) ==
           if Tolerated(o.error) then Trigger(key, hash, roles[1..], f.With(roles[0], o.history), s)
           else (f.With(roles[0], o.history), o.error)
  {
    hide Retry, RestartPlan;
    if roles != [] { RetrySerial(RestartPlan(key, hash), f.At(roles[0]), s.At(roles[0]), 0); }
  }

  lemma ApiRotationInOrder(masterOnly: bool, stored: string, hash: string, f: Fleet<Trail>, s: Fleet<Script>)
    requires Live(f) && Complete(s) && Rotates(stored, hash)
    ensures ApiInOrder(stored, hash, f, s, Rotate(Api, masterOnly, stored, Digest(hash), f, s))
  {
    hide Called, Trigger;
    var m, w := Called(API_KEY, hash, f.master, s.master), Called(API_KEY, hash, f.worker, s.worker);
    var d := Called(API_KEY, hash, f.dashboard, s.dashboard);
    assert Required(Api, masterOnly)[1..] == [Worker, Dashboard] && [Worker, Dashboard][1..] == [Dashboard];
    assert [Dashboard][1..] == [];
    TriggerUnrolls(API_KEY, hash, Required(Api, masterOnly), f, s);
    if Tolerated(m.error) {
      var f1 := f.With(Master, m.history);
      TriggerUnrolls(API_KEY, hash, [Worker, Dashboard], f1, s);
      if Tolerated(w.error) {
        var f2 := f1.With(Worker, w.history);
        TriggerUnrolls(API_KEY, hash, [Dashboard], f2, s);
        if Tolerated(d.error) { TriggerUnrolls(API_KEY, hash, [], f2.With(Dashboard, d.history), s); }
      }
    }
  }

  lemma AuthdRotationInOrder(masterOnly: bool, stored: string, hash: string, f: Fleet<Trail>, s: Fleet<Script>)
    requires Live(f) && Complete(s) && Rotates(stored, hash)
    ensures AuthdInOrder(masterOnly, stored, hash, f, s, Rotate(Authd, masterOnly, stored, Digest(hash), f, s))
  {
    hide Called, Trigger;
    var m, w := Called(AUTHD_KEY, hash, f.master, s.master), Called(AUTHD_KEY, hash, f.worker, s.worker);
    var rest := if masterOnly then [] else [Worker];
    assert Required(Authd, masterOnly)[1..] == rest && [Worker][1..] == [];
    TriggerUnrolls(AUTHD_KEY, hash, Required(Authd, masterOnly), f, s);
    if Tolerated(m.error) {
      var f1 := f.With(Master, m.history);
      TriggerUnrolls(AUTHD_KEY, hash, rest, f1, s);
      if !masterOnly && Tolerated(w.error) { TriggerUnrolls(AUTHD_KEY, hash, [], f1.With(Worker, w.history), s); }
    }
  }

  // ----- A pass without faults -----

  /** Nobody interferes and the calls of the first attempt succeed. */
  ghost predicate Calm(script: Script) { |script| == MAX_ATTEMPTS && Quiet(script) && script[0].fate.Clean? }

  ghost predicate CalmFleet(s: Fleet<Script>) { Calm(s.master) && Calm(s.worker) && Calm(s.dashboard) }

  /**
   The workload is restarted for this hash: unless it is absent, scaled to zero or already carries the hash, in
   which cases nothing happens, one version is added, with the three annotations set and everything else kept.
   */
  ghost predicate Restamps(key: string, hash: string, before: Trail, after: Trail)
    requires |before| > 0
  {
    var w := before[|before| - 1].value;
    if w.None? || w.value.replicas == Some(0)
       || (key in w.value.annotations && w.value.annotations[key] == Text(hash)) then after == before
    else
      && |after| == |before| + 1 && before <= after && after[|before|].author.Operator?
      && var now := after[|before|].author.now;
         after[|before|].value == Some(w.value.(annotations :=
           w.value.annotations["wazuh.com/restarted-at" := Instant(now)]
                              ["wazuh.com/rolling-restart-triggered" := Text("true")][key := Text(hash)]))
  }

  lemma CalmCall(key: string, hash: string, h: Trail, script: Script)
    requires |h| > 0 && Calm(script) && hash != ""
    ensures Tolerated(Called(key, hash, h, script).error)
    ensures Restamps(key, hash, h, Called(key, hash, h, script).history)
  {
    var plan, a := RestartPlan(key, hash), script[0];
    assert h + Foreigns<Workload>([]) == h;
    if h[|h| - 1].value.None? {
      SkippingRetry(plan, h, script, |h| - 1);
    } else if plan(h[|h| - 1].value.value, a.now).None? {
      assert Skips(plan, h[|h| - 1].value.value, a.now);
      SkippingRetry(plan, h, script, |h| - 1);
    } else {
      RetryProgress(plan, h, script, 0);
    }
    hide Retry, Quiet;
  }

  /** The workloads a change of the credential restarts, and those it leaves alone. */
  ghost predicate RestartsFor(c: Credential, masterOnly: bool, hash: string, f: Fleet<Trail>, g: Fleet<Trail>)
    requires Live(f)
  {
    match c
    case Api =>
      && Restamps(API_KEY, hash, f.master, g.master)
      && Restamps(API_KEY, hash, f.worker, g.worker)
      && Restamps(API_KEY, hash, f.dashboard, g.dashboard)
    case Authd =>
      && Restamps(AUTHD_KEY, hash, f.master, g.master)
      && (if masterOnly then g.worker == f.worker
          else Restamps(AUTHD_KEY, hash, f.worker, g.worker))
      && g.dashboard == f.dashboard
  }

  /** A rotation without faults succeeds, moves the stored hash, and restarts exactly the credential's workloads. */
  lemma RotationRestarts(c: Credential, masterOnly: bool, stored: string, hash: string, f: Fleet<Trail>,
                         s: Fleet<Script>)
    requires Live(f) && CalmFleet(s) && Rotates(stored, hash)
    ensures var r := Rotate(c, masterOnly, stored, Digest(hash), f, s);
      r.error.None? && r.stored == hash && RestartsFor(c, masterOnly, hash, f, r.fleet)
  {
    hide Called, Restamps, Rotate;
    var key := if c.Api? then API_KEY else AUTHD_KEY;
    CalmCall(key, hash, f.master, s.master);
    CalmCall(key, hash, f.worker, s.worker);
    CalmCall(key, hash, f.dashboard, s.dashboard);
    if c.Api? {
      ApiRotationInOrder(masterOnly, stored, hash, f, s);
    } else {
      AuthdRotationInOrder(masterOnly, stored, hash, f, s);
    }
  }

  // ----- Observations that restart nothing -----

  /** The pass learns no hash: no manager, no secret, an unreadable one or, for the API credential, an empty one. */
  predicate Blind(c: Credential, p: Pass) {
    && p.stale.None?
    && (p.read in {NoManager, Missing, Broken} || (c.Api? && p.read in {Unconfigured, Digest("")}))
  }

  /** Only others have added versions. */
  ghost predicate OnlyOthers(before: Trail, after: Trail) {
    before <= after && forall i :: |before| <= i < |after| ==> after[i].author.Foreign?
  }

  ghost predicate FleetOnlyOthers(f: Fleet<Trail>, g: Fleet<Trail>) {
    OnlyOthers(f.master, g.master) && OnlyOthers(f.worker, g.worker) && OnlyOthers(f.dashboard, g.dashboard)
  }

  lemma BlindStep(c: Credential, w: World, p: Pass)
    requires Live(w.fleet) && Complete(p.scripts) && Blind(c, p)
    ensures Step(c, w, p) == World(w.stored, Idle(w.fleet, p.idle))
    ensures FleetOnlyOthers(w.fleet, Step(c, w, p).fleet)
    ensures Attempted(c, w, p).error.Some? <==> p.read == Broken
  {
    hide Trigger;
  }

  /** Passes that learn no hash keep the stored one and restart nothing. */
  lemma {:induction false} BlindRun(c: Credential, w: World, passes: seq<Pass>)
    requires Live(w.fleet) && Ready(passes) && forall i :: 0 <= i < |passes| ==> Blind(c, passes[i])
    ensures Run(c, w, passes).stored == w.stored && FleetOnlyOthers(w.fleet, Run(c, w, passes).fleet)
    decreases |passes|
  {
    hide Step;
    if passes != [] {
      BlindRun(c, w, passes[..|passes| - 1]);
      BlindStep(c, Run(c, w, passes[..|passes| - 1]), passes[|passes| - 1]);
    }
  }

  /**
   So a secret that changes while it cannot be read is still a change: after any number of passes that learn no hash,
   the first one that reads another hash than the stored one, without faults, restarts the credential's workloads.
   */
  lemma RotationAfterAbsence(c: Credential, w: World, passes: seq<Pass>, p: Pass, hash: string)
    requires Live(w.fleet) && Ready(passes + [p]) && forall i :: 0 <= i < |passes| ==> Blind(c, passes[i])
    requires p.read == Digest(hash) && p.stale.None? && p.saved && CalmFleet(p.scripts) && Rotates(w.stored, hash)
    ensures Ready(passes) && Run(c, w, passes + [p]).stored == hash
    ensures RestartsFor(c, p.masterOnly, hash, Idle(Run(c, w, passes).fleet, p.idle), Run(c, w, passes + [p]).fleet)
  {
    hide RestartsFor, Rotate;
    var all := passes + [p];
    assert all[..|all| - 1] == passes && all[|all| - 1] == p;
    assert Ready(passes) by {
      forall i | 0 <= i < |passes| ensures Complete(passes[i].scripts) { assert all[i] == passes[i]; }
    }
    BlindRun(c, w, passes);
    var v := Run(c, w, passes);
    RotationRestarts(c, p.masterOnly, v.stored, hash, Idle(v.fleet, p.idle), p.scripts);
  }

  /** Without a stored hash the first one read is adopted and nothing is restarted. */
  lemma FirstHashRestartsNothing(c: Credential, w: World, p: Pass, hash: string)
    requires Live(w.fleet) && Complete(p.scripts) && w.stored == "" && p.stale.None?
    requires p.read == Digest(hash)
    ensures Step(c, w, p) == World(if p.saved then hash else "", Idle(w.fleet, p.idle))
  {
    hide Trigger;
  }

  /** The authd credential is forgotten when it is switched off: a hash read after that counts as the first one. */
  lemma SwitchedOffForgets(w: World, p: Pass, q: Pass, hash: string)
    requires Live(w.fleet) && Complete(p.scripts) && Complete(q.scripts) && p.stale.None? && q.stale.None?
    requires p.read in {Unconfigured, Digest("")} && p.saved && q.read == Digest(hash)
    ensures Step(Authd, w, p).stored == ""
    ensures FleetOnlyOthers(w.fleet, Step(Authd, Step(Authd, w, p), q).fleet)
  {
    hide Trigger;
    FirstHashRestartsNothing(Authd, Step(Authd, w, p), q, hash);
  }
}
