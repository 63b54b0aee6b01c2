/**
 The admission webhook of the cluster resource: defaulting, validation and update rules, and what they mean for whole
 runs of accepted requests.
 */
module Admission {
  import opened Prelude
  import opened NodePools

  datatype LogRotation = LogRotation(enabled: bool, retentionDays: Option<int>)

  /** A gateway API configuration with the name of its gateway, if it has a reference. */
  datatype Gateway = Gateway(enabled: bool, gatewayRef: Option<string>)

  /** How a component is exposed: gateway API routes, and whether an ingress is enabled. */
  datatype Exposure = Exposure(gateway: Option<Gateway>, ingress: Option<bool>)

  datatype ManagerSpec = ManagerSpec(workers: Option<Int32>, logRotation: Option<LogRotation>, masterExposure: Exposure,
                                     workerExposure: Exposure)

  datatype IndexerSpec = IndexerSpec(replicas: Int32, pools: seq<Pool>, exposure: Exposure)

  datatype DashboardSpec = DashboardSpec(replicas: Int32, exposure: Exposure)

  /** Custom certificates carry an optional reference to the secret of the certificate authority. */
  datatype Tls = Tls(enabled: Option<bool>, customCa: Option<Option<string>>)

  datatype DrainSpec = DrainSpec(indexerTimeout: Option<int>, healthInterval: Option<int>, managerTimeout: Option<int>,
                                 maxAttempts: Option<int>)

  datatype Spec = Spec(version: string, manager: Option<ManagerSpec>, indexer: Option<IndexerSpec>,
                       dashboard: Option<DashboardSpec>, managerRef: Option<string>, indexerRef: Option<string>,
                       dashboardRef: Option<string>, tls: Option<Tls>, drain: Option<DrainSpec>)

  predicate IsInline(s: Spec) { s.manager.Some? || s.indexer.Some? || s.dashboard.Some? }

  predicate IsReference(s: Spec) { s.managerRef.Some? || s.indexerRef.Some? || s.dashboardRef.Some? }

  predicate IsAdvanced(x: IndexerSpec) { |x.pools| > 0 }

  predicate IsSimple(x: IndexerSpec) { x.replicas > 0 && |x.pools| == 0 }

  /** The 32-bit total of an indexer's replicas. */
  function Total(x: IndexerSpec): Int32 { if IsAdvanced(x) then Wrap(Replicas(x.pools)) else x.replicas }

  // ----- Defaulting -----

  function DefaultedTls(t: Option<Tls>): Option<Tls> {
    var u := if t.None? then Tls(None, None) else t.value;
    Some(if u.enabled.None? then u.(enabled := Some(true)) else u)
  }

  function DefaultedIndexer(x: IndexerSpec): IndexerSpec {
    if !IsAdvanced(x) && x.replicas == 0 then x.(replicas := 3) else x
  }

  function DefaultedDashboard(d: DashboardSpec): DashboardSpec {
    if d.replicas == 0 then d.(replicas := 1) else d
  }

  function Defaulted(s: Spec): Spec {
    s.(tls := DefaultedTls(s.tls),
       indexer := if s.indexer.Some? then Some(DefaultedIndexer(s.indexer.value)) else None,
       dashboard := if s.dashboard.Some? then Some(DefaultedDashboard(s.dashboard.value)) else None)
  }

  // ----- Validation -----

  predicate Digits(s: string) { |s| > 0 && forall c :: c in s ==> '0' <= c <= '9' }

  /** The dots of a version are at i and j. */
  predicate DotsAt(v: string, i: int, j: int) {
    && 0 <= i < j < |v| && v[i] == '.' && v[j] == '.'
    && Digits(v[..i]) && Digits(v[i + 1..j]) && Digits(v[j + 1..])
  }

  /** Three dot-separated numbers. */
  predicate IsVersion(v: string) { exists i, j :: 0 <= i < j < |v| && DotsAt(v, i, j) }

  predicate Numeral(s: string) { s != "" && forall i :: 0 <= i < |s| ==> IsDigit(s[i]) }

  predicate Joins(v: string, a: string, b: string, c: string) {
    v == a + "." + b + "." + c && Numeral(a) && Numeral(b) && Numeral(c)
  }

  lemma NumeralIff(s: string)
    ensures Digits(s) <==> Numeral(s)
  {
    forall c: char ensures IsDigit(c) <==> '0' <= c <= '9' { DigitIff(c); }
    hide IsDigit;
    if Digits(s) { assert forall i :: 0 <= i < |s| ==> s[i] in s; }
  }

  lemma SplitJoins(v: string, i: int, j: int)
    requires DotsAt(v, i, j)
    ensures Joins(v, v[..i], v[i + 1..j], v[j + 1..])
  {
    hide Digits, Numeral;
    NumeralIff(v[..i]);
    NumeralIff(v[i + 1..j]);
    NumeralIff(v[j + 1..]);
    assert v == v[..i] + "." + v[i + 1..j] + "." + v[j + 1..];
  }

  /** A version is accepted iff it is three decimal numerals joined by dots. */
  lemma VersionIff(v: string)
    ensures IsVersion(v) <==> exists a, b, c :: Joins(v, a, b, c)
  {
    hide Joins, DotsAt;
    forall i, j | 0 <= i < j < |v| && DotsAt(v, i, j) ensures exists a, b, c :: Joins(v, a, b, c) {
      SplitJoins(v, i, j);
    }
    forall a, b, c | Joins(v, a, b, c) ensures IsVersion(v) { JoinedIsVersion(v, a, b, c); }
  }

  lemma JoinedIsVersion(v: string, a: string, b: string, c: string)
    requires Joins(v, a, b, c)
    ensures IsVersion(v)
  {
    hide Digits, Numeral;
    NumeralIff(a);
    NumeralIff(b);
    NumeralIff(c);
    var i, j := |a|, |a| + 1 + |b|;
    assert v[..i] == a && v[i] == '.' && v[i + 1..j] == b && v[j] == '.' && v[j + 1..] == c;
    assert DotsAt(v, i, j);
  }

  /** At most one way of exposure, and an enabled gateway names its gateway. */
  predicate ValidExposure(x: Exposure) {
    x.gateway.Some? && x.gateway.value.enabled ==>
      x.ingress != Some(true) && x.gateway.value.gatewayRef.Some? && x.gateway.value.gatewayRef.value != ""
  }

  predicate ValidManager(m: ManagerSpec) {
    && (m.workers.Some? ==> m.workers.value >= 0)
    && (m.logRotation.Some? && m.logRotation.value.enabled && m.logRotation.value.retentionDays.Some? ==>
          m.logRotation.value.retentionDays.value >= 1)
    && ValidExposure(m.masterExposure) && ValidExposure(m.workerExposure)
  }

  predicate ValidIndexer(x: IndexerSpec) {
    !(x.replicas > 0 && IsAdvanced(x)) && (IsAdvanced(x) ==> Problems(x.pools) == []) && ValidExposure(x.exposure)
  }

  predicate ValidDashboard(d: DashboardSpec) { d.replicas >= 1 && ValidExposure(d.exposure) }

  predicate ValidTls(t: Tls) {
    t.customCa.Some? ==> t.customCa.value.Some? && t.customCa.value.value != ""
  }

  predicate AtLeast(x: Option<int>, low: int) { x.Some? ==> x.value >= low }

  predicate ValidDrain(d: DrainSpec) {
    && AtLeast(d.indexerTimeout, 0) && AtLeast(d.healthInterval, 0)
    && AtLeast(d.managerTimeout, 0) && AtLeast(d.maxAttempts, 0)
  }

  predicate ValidRef(r: Option<string>) { r.Some? ==> r.value != "" }

  predicate Valid(s: Spec) {
    && IsVersion(s.version) && !(IsInline(s) && IsReference(s))
    && (s.manager.Some? ==> ValidManager(s.manager.value))
    && (s.indexer.Some? ==> ValidIndexer(s.indexer.value))
    && (s.dashboard.Some? ==> ValidDashboard(s.dashboard.value))
    && ValidRef(s.managerRef) && ValidRef(s.indexerRef) && ValidRef(s.dashboardRef)
    && (s.tls.Some? ==> ValidTls(s.tls.value)) && (s.drain.Some? ==> ValidDrain(s.drain.value))
  }

  datatype Error =
    | BadVersion | MixedMode | BadWorkers | BadRetention | TwoExposures | GatewayRequired | ReplicasAndPools
    | BadPool(problem: Problem) | TooFewReplicas | EmptyRefName | MissingCa | NegativeDrainSetting
    | ModeTransition | TopologyTransition

  // ----- The rule behind each error, on the fields of the request -----

  predicate BreaksExposure(x: Exposure, e: Error) {
    match e
    case TwoExposures => x.gateway.Some? && x.gateway.value.enabled && x.ingress == Some(true)
    case GatewayRequired =>
      && x.gateway.Some? && x.gateway.value.enabled
      && (x.gateway.value.gatewayRef.None? || x.gateway.value.gatewayRef.value == "")
    case _ => false
  }

  predicate BreaksManager(m: ManagerSpec, e: Error) {
    match e
    case BadWorkers => m.workers.Some? && m.workers.value < 0
    case BadRetention =>
      && m.logRotation.Some? && m.logRotation.value.enabled && m.logRotation.value.retentionDays.Some?
      && m.logRotation.value.retentionDays.value <= 0
    case _ => BreaksExposure(m.masterExposure, e) || BreaksExposure(m.workerExposure, e)
  }

  /** Setting replicas and pools at once hides every other error of the indexer. */
  predicate BreaksIndexer(x: IndexerSpec, e: Error) {
    if x.replicas > 0 && x.pools != [] then e == ReplicasAndPools
    else match e
      case BadPool(p) => x.pools != [] && p in Problems(x.pools)
      case _ => BreaksExposure(x.exposure, e)
  }

  predicate BreaksDashboard(d: DashboardSpec, e: Error) {
    if e == TooFewReplicas then d.replicas <= 0 else BreaksExposure(d.exposure, e)
  }

  predicate BreaksTls(t: Tls) { t.customCa.Some? && (t.customCa.value.None? || t.customCa.value.value == "") }

  predicate BreaksDrain(d: DrainSpec) {
    || (d.indexerTimeout.Some? && d.indexerTimeout.value < 0) || (d.healthInterval.Some? && d.healthInterval.value < 0)
    || (d.managerTimeout.Some? && d.managerTimeout.value < 0) || (d.maxAttempts.Some? && d.maxAttempts.value < 0)
  }

  predicate BreaksInline(s: Spec, e: Error) {
    || (s.manager.Some? && BreaksManager(s.manager.value, e))
    || (s.indexer.Some? && BreaksIndexer(s.indexer.value, e))
    || (s.dashboard.Some? && BreaksDashboard(s.dashboard.value, e))
  }

  predicate BreaksWhole(s: Spec, e: Error) {
    match e
    case BadVersion => !IsVersion(s.version)
    case MixedMode =>
      && !(s.manager.None? && s.indexer.None? && s.dashboard.None?)
      && !(s.managerRef.None? && s.indexerRef.None? && s.dashboardRef.None?)
    case EmptyRefName => Some("") in {s.managerRef, s.indexerRef, s.dashboardRef}
    case MissingCa => s.tls.Some? && BreaksTls(s.tls.value)
    case NegativeDrainSetting => s.drain.Some? && BreaksDrain(s.drain.value)
    case _ => false
  }

  predicate Breaks(s: Spec, e: Error) { BreaksInline(s, e) || BreaksWhole(s, e) }

  lemma ExposureIff(x: Exposure)
    ensures ValidExposure(x) <==> forall e :: !BreaksExposure(x, e)
  {
    assert ValidExposure(x) <==> !BreaksExposure(x, TwoExposures) && !BreaksExposure(x, GatewayRequired);
  }

  lemma ManagerIff(m: ManagerSpec)
    ensures ValidManager(m) <==> forall e :: !BreaksManager(m, e)
  {
    ExposureIff(m.masterExposure);
    ExposureIff(m.workerExposure);
    hide ValidExposure;
    if forall e :: !BreaksManager(m, e) {
      assert !BreaksManager(m, BadWorkers) && !BreaksManager(m, BadRetention);
      forall e ensures !BreaksExposure(m.masterExposure, e) && !BreaksExposure(m.workerExposure, e) {
        assert !BreaksManager(m, e);
      }
    }
  }

  lemma IndexerIff(x: IndexerSpec)
    ensures ValidIndexer(x) <==> forall e :: !BreaksIndexer(x, e)
  {
    ExposureIff(x.exposure);
    hide ValidExposure, Problems;
    assert BreaksIndexer(x, ReplicasAndPools) <==> x.replicas > 0 && x.pools != [];
    if !(x.replicas > 0 && x.pools != []) {
      if x.pools != [] && Problems(x.pools) != [] {
        assert BreaksIndexer(x, BadPool(Problems(x.pools)[0]));
      } else if forall e :: !BreaksIndexer(x, e) {
        forall e ensures !BreaksExposure(x.exposure, e) { assert !BreaksIndexer(x, e); }
      }
    }
  }

  lemma DashboardIff(d: DashboardSpec)
    ensures ValidDashboard(d) <==> forall e :: !BreaksDashboard(d, e)
  {
    ExposureIff(d.exposure);
    hide ValidExposure;
    assert BreaksDashboard(d, TooFewReplicas) <==> d.replicas <= 0;
    if forall e :: !BreaksDashboard(d, e) {
      forall e ensures !BreaksExposure(d.exposure, e) { assert !BreaksDashboard(d, e); }
    }
  }

  lemma InlineIff(s: Spec)
    ensures (forall e :: !BreaksInline(s, e)) <==>
      && (s.manager.Some? ==> ValidManager(s.manager.value)) && (s.indexer.Some? ==> ValidIndexer(s.indexer.value))
      && (s.dashboard.Some? ==> ValidDashboard(s.dashboard.value))
  {
    hide ValidManager, ValidIndexer, ValidDashboard, BreaksManager, BreaksIndexer, BreaksDashboard;
    if s.manager.Some? { ManagerIff(s.manager.value); }
    if s.indexer.Some? { IndexerIff(s.indexer.value); }
    if s.dashboard.Some? { DashboardIff(s.dashboard.value); }
    if forall e :: !BreaksInline(s, e) {
      forall e ensures s.manager.Some? ==> !BreaksManager(s.manager.value, e) { assert !BreaksInline(s, e); }
      forall e ensures s.indexer.Some? ==> !BreaksIndexer(s.indexer.value, e) { assert !BreaksInline(s, e); }
      forall e ensures s.dashboard.Some? ==> !BreaksDashboard(s.dashboard.value, e) { assert !BreaksInline(s, e); }
    }
  }

  lemma WholeIff(s: Spec)
    ensures (forall e :: !BreaksWhole(s, e)) <==>
      && IsVersion(s.version) && !(IsInline(s) && IsReference(s))
      && ValidRef(s.managerRef) && ValidRef(s.indexerRef) && ValidRef(s.dashboardRef)
      && (s.tls.Some? ==> ValidTls(s.tls.value)) && (s.drain.Some? ==> ValidDrain(s.drain.value))
  {
    hide IsVersion;
    assert BreaksWhole(s, BadVersion) <==> !IsVersion(s.version);
    assert BreaksWhole(s, MixedMode) <==> IsInline(s) && IsReference(s);
    assert BreaksWhole(s, EmptyRefName) <==>
      !(ValidRef(s.managerRef) && ValidRef(s.indexerRef) && ValidRef(s.dashboardRef));
    assert BreaksWhole(s, MissingCa) <==> s.tls.Some? && !ValidTls(s.tls.value);
    assert BreaksWhole(s, NegativeDrainSetting) <==> s.drain.Some? && !ValidDrain(s.drain.value);
  }

  /** A specification is valid iff it breaks no rule. */
  lemma ValidIff(s: Spec)
    ensures Valid(s) <==> forall e :: !Breaks(s, e)
  {
    hide IsVersion, IsInline, IsReference, ValidManager, ValidIndexer, ValidDashboard, ValidRef, ValidTls, ValidDrain;
    hide BreaksInline, BreaksWhole;
    InlineIff(s);
    WholeIff(s);
    if forall e :: !Breaks(s, e) {
      forall e ensures !BreaksInline(s, e) && !BreaksWhole(s, e) { assert !Breaks(s, e); }
    }
  }

  method ValidateGatewayApiConfig(x: Exposure) returns (errors: seq<Error>)
    ensures errors == [] <==> ValidExposure(x)
    ensures forall e :: e in errors <==> BreaksExposure(x, e)
  {
    errors := [];
    var gatewayEnabled := x.gateway.Some? && x.gateway.value.enabled;
    var ingressEnabled := x.ingress == Some(true);
    if gatewayEnabled && ingressEnabled { errors := errors + [TwoExposures]; }
    if gatewayEnabled {
      var ref := x.gateway.value.gatewayRef;
      if ref.None? || ref.value == "" { errors := errors + [GatewayRequired]; }
    }
  }

  method ValidateManagerSpec(m: ManagerSpec) returns (errors: seq<Error>)
    ensures errors == [] <==> ValidManager(m)
    ensures forall e :: e in errors <==> BreaksManager(m, e)
  {
    hide ValidExposure;
    errors := [];
    if m.workers.Some? && m.workers.value < 0 { errors := errors + [BadWorkers]; }
    if m.logRotation.Some? && m.logRotation.value.enabled {
      var days := m.logRotation.value.retentionDays;
      if days.Some? && days.value < 1 { errors := errors + [BadRetention]; }
    }
    var master := ValidateGatewayApiConfig(m.masterExposure);
    var workers := ValidateGatewayApiConfig(m.workerExposure);
    errors := errors + master + workers;
  }

  method ValidateIndexerSpec(x: IndexerSpec) returns (errors: seq<Error>)
    ensures errors == [] <==> ValidIndexer(x)
    ensures forall e :: e in errors <==> BreaksIndexer(x, e)
  {
    hide ValidExposure, Problems;
    if x.replicas > 0 && |x.pools| > 0 { return [ReplicasAndPools]; }
    errors := [];
    if IsAdvanced(x) {
      var problems, _ := ValidateNodePools(x.pools);
      for i := 0 to |problems|
        invariant |errors| == i && forall e :: e in errors <==> e.BadPool? && e.problem in problems[..i]
      {
        errors := errors + [BadPool(problems[i])];
      }
    }
    var gateway := ValidateGatewayApiConfig(x.exposure);
    errors := errors + gateway;
  }

  method ValidateReferences(s: Spec) returns (errors: seq<Error>)
    ensures errors == [] <==> ValidRef(s.managerRef) && ValidRef(s.indexerRef) && ValidRef(s.dashboardRef)
    ensures forall e :: e in errors <==> e == EmptyRefName && Some("") in {s.managerRef, s.indexerRef, s.dashboardRef}
  {
    errors := [];
    if s.managerRef == Some("") { errors := errors + [EmptyRefName]; }
    if s.indexerRef == Some("") { errors := errors + [EmptyRefName]; }
    if s.dashboardRef == Some("") { errors := errors + [EmptyRefName]; }
  }

  method ValidateTlsConfig(t: Tls) returns (errors: seq<Error>)
    ensures errors == [] <==> ValidTls(t)
    ensures forall e :: e in errors <==> e == MissingCa && BreaksTls(t)
  {
    errors := [];
    if t.customCa.Some? {
      var ca := t.customCa.value;
      if ca.None? || ca.value == "" { errors := errors + [MissingCa]; }
    }
  }

  method ValidateDrainConfig(d: DrainSpec) returns (errors: seq<Error>)
    ensures errors == [] <==> ValidDrain(d)
    ensures forall e :: e in errors <==> e == NegativeDrainSetting && BreaksDrain(d)
  {
    errors := [];
    if d.indexerTimeout.Some? && d.indexerTimeout.value < 0 { errors := errors + [NegativeDrainSetting]; }
    if d.healthInterval.Some? && d.healthInterval.value < 0 { errors := errors + [NegativeDrainSetting]; }
    if d.managerTimeout.Some? && d.managerTimeout.value < 0 { errors := errors + [NegativeDrainSetting]; }
    if d.maxAttempts.Some? && d.maxAttempts.value < 0 { errors := errors + [NegativeDrainSetting]; }
  }

  method ValidateInlineMode(s: Spec) returns (errors: seq<Error>)
    ensures errors == [] <==>
      && (s.manager.Some? ==> ValidManager(s.manager.value)) && (s.indexer.Some? ==> ValidIndexer(s.indexer.value))
      && (s.dashboard.Some? ==> ValidDashboard(s.dashboard.value))
    ensures forall e :: e in errors <==> BreaksInline(s, e)
  {
    hide ValidManager, ValidIndexer, BreaksManager, BreaksIndexer, ValidExposure;
    var more;
    errors := [];
    if s.manager.Some? {
      more := ValidateManagerSpec(s.manager.value);
      errors := errors + more;
    }
    if s.indexer.Some? {
      more := ValidateIndexerSpec(s.indexer.value);
      errors := errors + more;
    }
    if s.dashboard.Some? {
      if s.dashboard.value.replicas < 1 { errors := errors + [TooFewReplicas]; }
      more := ValidateGatewayApiConfig(s.dashboard.value.exposure);
      errors := errors + more;
    }
  }

  /** validateWazuhCluster: every check runs, and the errors are those of the rules the request breaks. */
  method ValidateCluster(s: Spec) returns (errors: seq<Error>)
    ensures errors == [] <==> Valid(s)
    ensures forall e :: e in errors <==> Breaks(s, e)
  {
    hide ValidManager, ValidIndexer, ValidDashboard, ValidDrain, ValidTls, IsVersion, BreaksDrain, BreaksInline;
    var more;
    errors := [];
    if !IsVersion(s.version) { errors := errors + [BadVersion]; }
    if IsInline(s) && IsReference(s) { errors := errors + [MixedMode]; }
    if IsInline(s) {
      more := ValidateInlineMode(s);
      errors := errors + more;
    } else {
      NothingInline(s);
    }
    if IsReference(s) {
      more := ValidateReferences(s);
      errors := errors + more;
    }
    if s.tls.Some? {
      more := ValidateTlsConfig(s.tls.value);
      errors := errors + more;
    }
    if s.drain.Some? {
      more := ValidateDrainConfig(s.drain.value);
      errors := errors + more;
    }
  }

  lemma NothingInline(s: Spec)
    requires !IsInline(s)
    ensures forall e :: !BreaksInline(s, e)
  {}

  /** The transitions an update may not make. */
  predicate Forbidden(was: Spec, s: Spec) {
    || (IsInline(was) && IsReference(s)) || (IsReference(was) && IsInline(s))
    || (was.indexer.Some? && s.indexer.Some?
        && ((IsSimple(was.indexer.value) && IsAdvanced(s.indexer.value))
            || (IsAdvanced(was.indexer.value) && IsSimple(s.indexer.value))))
  }

  /** The stored cluster. */
  class ClusterResource {
    var spec: Option<Spec>

    constructor ()
      ensures spec.None?
    {
      spec := None;
    }

    /** The mutating webhook. */
    static method Default(s: Spec) returns (d: Spec)
      ensures d == Defaulted(s)
    {
      d := s;
      if d.tls.None? { d := d.(tls := Some(Tls(None, None))); }
      if d.tls.value.enabled.None? { d := d.(tls := Some(d.tls.value.(enabled := Some(true)))); }
      if d.indexer.Some? && !IsAdvanced(d.indexer.value) && d.indexer.value.replicas == 0 {
        d := d.(indexer := Some(d.indexer.value.(replicas := 3)));
      }
      if d.dashboard.Some? && d.dashboard.value.replicas == 0 {
        d := d.(dashboard := Some(d.dashboard.value.(replicas := 1)));
      }
    }

    /** validateUpdate, with its warning about scaling the indexer down. */
    static method ValidateUpdate(was: Spec, s: Spec) returns (error: Option<Error>, scalesDown: bool)
      ensures error.Some? <==> Forbidden(was, s)
      ensures scalesDown <==>
        !Forbidden(was, s) && was.indexer.Some? && s.indexer.Some? && Total(was.indexer.value) > Total(s.indexer.value)
    {
      scalesDown := false;
      if IsInline(was) && IsReference(s) { return Some(ModeTransition), false; }
      if IsReference(was) && IsInline(s) { return Some(ModeTransition), false; }
      if was.indexer.Some? && s.indexer.Some? {
        if IsSimple(was.indexer.value) && IsAdvanced(s.indexer.value) { return Some(TopologyTransition), false; }
        if IsAdvanced(was.indexer.value) && IsSimple(s.indexer.value) { return Some(TopologyTransition), false; }
        var before := GetTotalReplicas(was.indexer.value.replicas, was.indexer.value.pools);
        var after := GetTotalReplicas(s.indexer.value.replicas, s.indexer.value.pools);
        scalesDown := before > after;
      }
      return None, scalesDown;
    }

    /** A create or update request at the API server: defaulted, held against the schema, then validated. */
    method Submit(request: Spec) returns (accepted: bool)
      modifies this
      ensures accepted <==> Admits(old(spec), request)
      ensures spec == if accepted then Some(Defaulted(request)) else old(spec)
    {
      var d := Default(request);
      if d.indexer.Some? && d.indexer.value.replicas < 1 { return false; }
      if d.dashboard.Some? && d.dashboard.value.replicas < 1 { return false; }
      accepted := Apply(request);
    }

    /** The webhook's part of a create or update request: defaulted first, stored if accepted. */
    method Apply(request: Spec) returns (accepted: bool)
      modifies this
      ensures accepted <==> Accepts(old(spec), request)
      ensures spec == if accepted then Some(Defaulted(request)) else old(spec)
    {
      hide Valid, Forbidden;
      var d := Default(request);
      var errors := ValidateCluster(d);
      if |errors| > 0 { return false; }
      if spec.Some? {
        var error, _ := ValidateUpdate(spec.value, d);
        if error.Some? { return false; }
      }
      spec := Some(d);
      return true;
    }
  }

  predicate Accepts(was: Option<Spec>, request: Spec) {
    Valid(Defaulted(request)) && (was.Some? ==> !Forbidden(was.value, Defaulted(request)))
  }

  // ----- The schema in front of the webhook -----

  /**
   What the schema of the resource lets through to validation: at least one indexer and one dashboard replica. An absent
   count is filled in before admission, with 3 and 2.
   */
  predicate SchemaAllows(s: Spec) {
    && (s.indexer.Some? ==> s.indexer.value.replicas >= 1)
    && (s.dashboard.Some? ==> s.dashboard.value.replicas >= 1)
  }

  /** A request passes the schema and the webhook. */
  predicate Admits(was: Option<Spec>, request: Spec) {
    SchemaAllows(Defaulted(request)) && Accepts(was, request)
  }

  /**
   Behind the schema no indexer with node pools is ever admitted: the replica count the schema insists on excludes them
   in the webhook. The topology of every admitted indexer is simple.
   */
  lemma AdmittedIsSimple(was: Option<Spec>, request: Spec)
    requires Admits(was, request) && request.indexer.Some?
    ensures IsSimple(Defaulted(request).indexer.value) && request.indexer.value.pools == []
  {
    hide IsVersion, ValidManager, ValidDashboard, ValidDrain, ValidTls, Problems;
  }

  /** What the schema adds to the webhook: an indexer is admitted iff it has no pools and no negative count. */
  lemma AdmitsIff(was: Option<Spec>, request: Spec)
    ensures Admits(was, request) <==>
      && Accepts(was, request)
      && (request.indexer.Some? ==> request.indexer.value.pools == [] && request.indexer.value.replicas >= 0)
  {
    hide IsVersion, ValidManager, ValidDrain, ValidTls, Problems, ValidExposure, Forbidden;
  }

  // ----- Runs of accepted requests -----

  /** The specs stored one after the other. */
  ghost predicate IsRun(stored: seq<Spec>) {
    forall i :: 0 <= i < |stored| ==> Follows(stored, i)
  }

  /** Entry i is what an accepted request stored. */
  ghost predicate Follows(stored: seq<Spec>, i: nat)
    requires i < |stored|
  {
    exists request :: stored[i] == Defaulted(request)
      && Accepts(if i == 0 then None else Some(stored[i - 1]), request)
  }

  predicate IsEmpty(s: Spec) { !IsInline(s) && !IsReference(s) }

  /** Defaulting changes nothing it has already set, and keeps the configuration mode and the topology. */
  lemma DefaultingIsStable(s: Spec)
    ensures Defaulted(Defaulted(s)) == Defaulted(s)
    ensures IsInline(Defaulted(s)) == IsInline(s) && IsReference(Defaulted(s)) == IsReference(s)
    ensures s.indexer.Some? ==> IsAdvanced(Defaulted(s).indexer.value) == IsAdvanced(s.indexer.value)
  {}

  /** Defaulting fills in what is not set: transport encryption, three indexer nodes, one dashboard. */
  lemma DefaultingFillsGaps(s: Spec)
    ensures var d := Defaulted(s);
      && d.(tls := s.tls, indexer := s.indexer, dashboard := s.dashboard) == s
      && d.tls.Some? && d.tls.value.customCa == (if s.tls.Some? then s.tls.value.customCa else None)
      && d.tls.value.enabled == (if s.tls.None? || s.tls.value.enabled.None? then Some(true) else s.tls.value.enabled)
      && (d.indexer.None? <==> s.indexer.None?) && (d.dashboard.None? <==> s.dashboard.None?)
      && (s.indexer.Some? ==>
            var x, n := s.indexer.value, d.indexer.value.replicas;
            d.indexer.value == x.(replicas := n) && n == if x.replicas == 0 && x.pools == [] then 3 else x.replicas)
      && (s.dashboard.Some? ==>
            var x, n := s.dashboard.value, d.dashboard.value.replicas;
            d.dashboard.value == x.(replicas := n) && n == if x.replicas == 0 then 1 else x.replicas)
  {}

  lemma RunEntry(stored: seq<Spec>, i: nat)
    requires IsRun(stored) && i < |stored|
    ensures Defaulted(stored[i]) == stored[i] && Valid(stored[i])
    ensures i > 0 ==> !Forbidden(stored[i - 1], stored[i])
  {
    assert Follows(stored, i);
    var request :| stored[i] == Defaulted(request) && Accepts(if i == 0 then None else Some(stored[i - 1]), request);
    DefaultingIsStable(request);
    hide Valid, Forbidden;
  }

  /** The mode never changes while every stored spec keeps some component. */
  lemma {:induction false} ModeConstant(stored: seq<Spec>, i: nat, j: nat)
    requires IsRun(stored) && i <= j < |stored| && forall k :: i <= k <= j ==> !IsEmpty(stored[k])
    ensures IsInline(stored[i]) <==> IsInline(stored[j])
    ensures IsReference(stored[i]) <==> IsReference(stored[j])
  {
    RunEntry(stored, j);
    if i < j {
      ModeConstant(stored, i, j - 1);
      assert !IsEmpty(stored[j - 1]);
      RunEntry(stored, j - 1);
    }
  }

  predicate NonNegativeReplicas(s: Spec) { s.indexer.Some? ==> s.indexer.value.replicas >= 0 }

  lemma SimpleOrAdvanced(s: Spec)
    requires Defaulted(s) == s && s.indexer.Some? && NonNegativeReplicas(s)
    ensures IsSimple(s.indexer.value) <==> !IsAdvanced(s.indexer.value)
  {}

  /** The indexer topology never changes while the indexer stays and its replicas are not negative. */
  lemma {:induction false} TopologyConstant(stored: seq<Spec>, i: nat, j: nat)
    requires IsRun(stored) && i <= j < |stored|
    requires forall k :: i <= k <= j ==> stored[k].indexer.Some? && NonNegativeReplicas(stored[k])
    ensures IsAdvanced(stored[i].indexer.value) <==> IsAdvanced(stored[j].indexer.value)
  {
    if i < j {
      TopologyConstant(stored, i, j - 1);
      RunEntry(stored, j);
      RunEntry(stored, j - 1);
      assert stored[j - 1].indexer.Some?;
      SimpleOrAdvanced(stored[j - 1]);
      SimpleOrAdvanced(stored[j]);
      hide Valid, Defaulted, IsRun, IsInline, IsReference;
    }
  }

  // ----- The hypotheses are needed, whatever the two specs -----

  function Emptied(s: Spec): Spec {
    s.(manager := None, indexer := None, dashboard := None,
       managerRef := None, indexerRef := None, dashboardRef := None)
  }

  lemma StoredFollows(stored: seq<Spec>, i: nat)
    requires i < |stored| && Defaulted(stored[i]) == stored[i] && Valid(stored[i])
    requires i > 0 ==> !Forbidden(stored[i - 1], stored[i])
    ensures Follows(stored, i)
  {
    assert Accepts(if i == 0 then None else Some(stored[i - 1]), stored[i]);
    assert Follows(stored, i);
  }

  lemma TwoUpdates(a: Spec, mid: Spec, b: Spec)
    requires forall s :: s in {a, mid, b} ==> Defaulted(s) == s && Valid(s)
    requires !Forbidden(a, mid) && !Forbidden(mid, b)
    ensures IsRun([a, mid, b])
  {
    hide Valid, Defaulted, Forbidden;
    var run := [a, mid, b];
    StoredFollows(run, 0);
    StoredFollows(run, 1);
    StoredFollows(run, 2);
    hide Follows;
  }

  /** Any two accepted specs of opposite modes: the direct update is refused, two through an empty spec are not. */
  lemma ModeChangesThroughEmpty(a: Spec, b: Spec)
    requires Defaulted(a) == a && Defaulted(b) == b && Valid(a) && Valid(b)
    requires (IsInline(a) && IsReference(b)) || (IsReference(a) && IsInline(b))
    ensures !Accepts(Some(a), b) && IsRun([a, Emptied(a), b]) && SchemaAllows(Emptied(a))
  {
    assert Valid(Emptied(a)) && Defaulted(Emptied(a)) == Emptied(a);
    TwoUpdates(a, Emptied(a), b);
  }

  /**
   Any simple and any advanced spec the webhook accepts: the direct update is refused, two updates through a spec
   without the indexer are not. This is the webhook alone; the schema admits no advanced spec.
   */
  lemma TopologyChangesThroughAbsent(a: Spec, b: Spec)
    requires Defaulted(a) == a && Defaulted(b) == b && Valid(a) && Valid(b) && a.indexer.Some? && b.indexer.Some?
    requires IsSimple(a.indexer.value) != IsSimple(b.indexer.value)
    requires IsAdvanced(a.indexer.value) != IsAdvanced(b.indexer.value)
    ensures !Accepts(Some(a), b) && IsRun([a, a.(indexer := None), b])
  {
    var mid := a.(indexer := None);
    assert Valid(mid) && Defaulted(mid) == mid && !IsReference(mid) && !IsReference(b) by {
      hide IsVersion, ValidManager, ValidDashboard, ValidDrain, ValidTls, Problems, ValidExposure;
    }
    hide Valid, Defaulted;
    TwoUpdates(a, mid, b);
  }

  function WithReplicas(s: Spec, n: Int32): Spec
    requires s.indexer.Some?
  {
    s.(indexer := Some(s.indexer.value.(replicas := n)))
  }

  /**
   Why TopologyConstant speaks of non-negative replicas: in the webhook alone, two updates through a negative count
   connect any simple and any advanced spec. The schema refuses that count.
   */
  lemma TopologyChangesThroughNegative(a: Spec, b: Spec)
    requires Defaulted(a) == a && Defaulted(b) == b && Valid(a) && Valid(b) && a.indexer.Some? && b.indexer.Some?
    requires IsSimple(a.indexer.value) && IsAdvanced(b.indexer.value)
    ensures !Accepts(Some(a), b) && IsRun([a, WithReplicas(a, -1), b])
    ensures !SchemaAllows(WithReplicas(a, -1)) && !SchemaAllows(b)
  {
    NegativeStandIn(a);
    assert !IsReference(b);
    hide Valid, Defaulted;
    TwoUpdates(a, WithReplicas(a, -1), b);
  }

  lemma NegativeStandIn(a: Spec)
    requires Defaulted(a) == a && Valid(a) && a.indexer.Some? && IsSimple(a.indexer.value)
    ensures var mid := WithReplicas(a, -1);
      Defaulted(mid) == mid && Valid(mid) && IsInline(mid) && !IsReference(mid) && !IsReference(a)
  {
    hide IsVersion, ValidManager, ValidDashboard, ValidDrain, ValidTls, Problems;
  }
}
