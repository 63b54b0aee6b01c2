/**
 Watch handlers: from a changed object to the objects to reconcile again. Each handler must be the inverse of the
 forward reading the reconcilers do.
 */
module Watches {
  import opened Prelude

  datatype Key = Key(namespace: string, name: string)

  /** A reference whose empty namespace means that of the object holding it. */
  datatype Ref = Ref(name: string, namespace: string)

  function Target(r: Ref, home: string): Key {
    Key(if r.namespace == "" then home else r.namespace, r.name)
  }

  datatype SecretKeyRef = SecretKeyRef(name: string, key: string)

  datatype CredentialsRef = CredentialsRef(secretName: string, external: Option<string>, usernameKey: string,
                                           passwordKey: string)

  datatype AuthConfig = AuthConfig(disabled: Option<bool>, usePassword: Option<bool>, masterOnly: Option<bool>,
                                   passwordRef: Option<SecretKeyRef>)

  /** The parts of a manager specification that name secrets. */
  datatype ManagerSpec = ManagerSpec(api: Option<CredentialsRef>, auth: Option<AuthConfig>,
                                     legacyAuthd: Option<SecretKeyRef>)

  datatype Kind = Manager | Indexer | Dashboard

  datatype Cluster = Cluster(key: Key, manager: Option<ManagerSpec>, managerRef: Option<Ref>, indexerRef: Option<Ref>,
                             dashboardRef: Option<Ref>)

  function RefOf(c: Cluster, kind: Kind): Option<Ref> {
    match kind
    case Manager => c.managerRef
    case Indexer => c.indexerRef
    case Dashboard => c.dashboardRef
  }

  // ----- Component references -----

  datatype Resolved<T> = Unused | NotFound | Fetched(key: Key, spec: T)

  /** resolveManagerRef and its two siblings, against the objects of the kind that exist. */
  function Resolve<T>(c: Cluster, kind: Kind, objects: map<Key, T>): Resolved<T> {
    match RefOf(c, kind)
    case None => Unused
    case Some(r) =>
      var k := Target(r, c.key.namespace);
      if k in objects then Fetched(k, objects[k]) else NotFound
  }

  predicate Refers(c: Cluster, kind: Kind, changed: Key) {
    RefOf(c, kind).Some? && Target(RefOf(c, kind).value, c.key.namespace) == changed
  }

  /** The keys of the clusters that refer to the object, in list order. */
  function Referring(clusters: seq<Cluster>, kind: Kind, changed: Key): seq<Key> {
    if clusters == [] then [] else
    var front, last := Referring(clusters[..|clusters| - 1], kind, changed), clusters[|clusters| - 1];
    if Refers(last, kind, changed) then front + [last.key] else front
  }

  /** findClustersForManager, findClustersForIndexer and findClustersForDashboard; no list means listing failed. */
  method FindClustersForComponent(clusters: Option<seq<Cluster>>, kind: Kind, changed: Key) returns (requests: seq<Key>)
    ensures clusters.None? ==> requests == []
    ensures clusters.Some? ==> requests == Referring(clusters.value, kind, changed)
  {
    requests := [];
    if clusters.None? { return; }
    var items := clusters.value;
    for i := 0 to |items|
      invariant requests == Referring(items[..i], kind, changed)
    {
      assert items[..i + 1][..i] == items[..i];
      var ref := RefOf(items[i], kind);
      if ref.Some? && ref.value.name == changed.name {
        var refNamespace := ref.value.namespace;
        if refNamespace == "" { refNamespace := items[i].key.namespace; }
        if refNamespace == changed.namespace { requests := requests + [items[i].key]; }
      }
    }
    assert items[..|items|] == items;
  }

  lemma {:induction false} ReferringMembers(clusters: seq<Cluster>, kind: Kind, changed: Key, k: Key)
    ensures k in Referring(clusters, kind, changed) <==>
      exists c :: c in clusters && c.key == k && Refers(c, kind, changed)
  {
    if clusters != [] {
      var front, last := clusters[..|clusters| - 1], clusters[|clusters| - 1];
      ReferringMembers(front, kind, changed, k);
      assert forall c :: c in clusters <==> c in front || c == last;
    }
  }

  predicate DistinctKeys(clusters: seq<Cluster>) {
    forall c, d :: c in clusters && d in clusters && c.key == d.key ==> c == d
  }

  /** Reverse lookup is the inverse of resolution: a cluster is enqueued for an object iff resolving fetches it. */
  lemma LookupInvertsResolution<T>(clusters: seq<Cluster>, c: Cluster, kind: Kind, objects: map<Key, T>, changed: Key)
    requires c in clusters && DistinctKeys(clusters) && changed in objects
    ensures c.key in Referring(clusters, kind, changed) <==>
      Resolve(c, kind, objects) == Fetched(changed, objects[changed])
  {
    ReferringMembers(clusters, kind, changed, c.key);
  }

  /** Name and namespace of a reference are those of the object, an empty namespace standing for `home`. */
  predicate Points(r: Option<Ref>, home: string, changed: Key) {
    && r.Some? && r.value.name == changed.name
    && changed.namespace == if r.value.namespace == "" then home else r.value.namespace
  }

  /** Which field each kind of object is looked up through, and which field is resolved to it. */
  lemma ManagerLookup<T>(clusters: seq<Cluster>, changed: Key, k: Key, c: Cluster, objects: map<Key, T>)
    ensures k in Referring(clusters, Manager, changed) <==>
      exists d :: d in clusters && d.key == k && Points(d.managerRef, d.key.namespace, changed)
    ensures changed in objects ==>
      (Resolve(c, Manager, objects) == Fetched(changed, objects[changed]) <==>
       Points(c.managerRef, c.key.namespace, changed))
    ensures Resolve(c, Manager, objects).Unused? <==> c.managerRef.None?
  {
    ReferringMembers(clusters, Manager, changed, k);
  }

  lemma IndexerLookup<T>(clusters: seq<Cluster>, changed: Key, k: Key, c: Cluster, objects: map<Key, T>)
    ensures k in Referring(clusters, Indexer, changed) <==>
      exists d :: d in clusters && d.key == k && Points(d.indexerRef, d.key.namespace, changed)
    ensures changed in objects ==>
      (Resolve(c, Indexer, objects) == Fetched(changed, objects[changed]) <==>
       Points(c.indexerRef, c.key.namespace, changed))
    ensures Resolve(c, Indexer, objects).Unused? <==> c.indexerRef.None?
  {
    ReferringMembers(clusters, Indexer, changed, k);
  }

  lemma DashboardLookup<T>(clusters: seq<Cluster>, changed: Key, k: Key, c: Cluster, objects: map<Key, T>)
    ensures k in Referring(clusters, Dashboard, changed) <==>
      exists d :: d in clusters && d.key == k && Points(d.dashboardRef, d.key.namespace, changed)
    ensures changed in objects ==>
      (Resolve(c, Dashboard, objects) == Fetched(changed, objects[changed]) <==>
       Points(c.dashboardRef, c.key.namespace, changed))
    ensures Resolve(c, Dashboard, objects).Unused? <==> c.dashboardRef.None?
  {
    ReferringMembers(clusters, Dashboard, changed, k);
  }

  // ----- Secrets -----

  const SUFFIX_INDEXER_CREDENTIALS := "-indexer-credentials"
  const SUFFIX_INDEXER_SECURITY := "-indexer-security"
  const SUFFIX_API_CREDENTIALS := "-api-credentials"
  const SUFFIX_AUTHD := "-authd-pass"

  function GetSecretName(r: CredentialsRef): string {
    if r.external.Some? then r.external.value else r.secretName
  }

  /** resolveAPICredentialsRef: secret name, user name key and password key. */
  function ResolveApi(cluster: Key, m: Option<ManagerSpec>): (string, string, string) {
    var fallback := cluster.name + SUFFIX_API_CREDENTIALS;
    if m.None? || m.value.api.None? then (fallback, "api-username", "api-password")
    else
      var r := m.value.api.value;
      var custom := GetSecretName(r) != "";
      (if custom then GetSecretName(r) else fallback,
       if r.usernameKey != "" then r.usernameKey else if custom then "username" else "api-username",
       if r.passwordKey != "" then r.passwordKey else if custom then "password" else "api-password")
  }

  function AuthRef(m: ManagerSpec): Option<SecretKeyRef> {
    if m.auth.Some? then m.auth.value.passwordRef else None
  }

  predicate AuthNames(m: ManagerSpec) { AuthRef(m).Some? && AuthRef(m).value.name != "" }

  /** resolveAuthdCredentialsRef: the secret to read, if authd passwords are configured. */
  function ResolveAuthd(m: Option<ManagerSpec>): Option<string> {
    if m.None? then None
    else
      var v := m.value;
      var disabled := v.auth.Some? && v.auth.value.disabled == Some(true);
      var legacy := !AuthNames(v) && v.legacyAuthd.Some?;
      var usePassword := legacy || (v.auth.Some? && v.auth.value.usePassword == Some(true));
      var name := if AuthNames(v) then AuthRef(v).value.name else if legacy then v.legacyAuthd.value.name else "";
      if disabled || !usePassword || name == "" then None else Some(name)
  }

  /** The secrets read to compute the two credential hashes of a cluster with this manager specification. */
  function SecretsRead(cluster: Key, m: Option<ManagerSpec>): set<Key> {
    {Key(cluster.namespace, ResolveApi(cluster, m).0)}
      + match ResolveAuthd(m)
        case None => {}
        case Some(name) => {Key(cluster.namespace, name)}
  }

  /** The name a credentials reference gives, if any. */
  function Named(r: CredentialsRef): string {
    match r.external case Some(name) => name case None => r.secretName
  }

  /** Where the API credentials are read: a named secret with its own keys, or the generated one with its. */
  lemma ApiReferenceIs(cluster: Key, m: Option<ManagerSpec>)
    ensures m.None? || m.value.api.None? ==>
      ResolveApi(cluster, m) == (cluster.name + "-api-credentials", "api-username", "api-password")
    ensures m.Some? && m.value.api.Some? ==>
      var r := m.value.api.value;
      var (name, user, password) := ResolveApi(cluster, m);
      && (Named(r) != "" ==> name == Named(r)) && (Named(r) == "" ==> name == cluster.name + "-api-credentials")
      && (r.usernameKey != "" ==> user == r.usernameKey) && (r.passwordKey != "" ==> password == r.passwordKey)
      && (r.usernameKey == "" ==> user == if Named(r) == "" then "api-username" else "username")
      && (r.passwordKey == "" ==> password == if Named(r) == "" then "api-password" else "password")
  {}

  /**
   A password for authd is read iff it is not disabled and either the reference in the auth section has a name and
   passwords are switched on there, or it has none and the legacy reference has one.
   */
  lemma AuthdReadIff(m: ManagerSpec, name: string)
    ensures ResolveAuthd(Some(m)) == Some(name) <==>
      && name != "" && !(m.auth.Some? && m.auth.value.disabled == Some(true))
      && if m.auth.Some? && m.auth.value.passwordRef.Some? && m.auth.value.passwordRef.value.name != ""
         then m.auth.value.passwordRef.value.name == name && m.auth.value.usePassword == Some(true)
         else m.legacyAuthd.Some? && m.legacyAuthd.value.name == name
  {}

  function Defaults(cluster: Key): set<string> {
    {cluster.name + SUFFIX_INDEXER_CREDENTIALS, cluster.name + SUFFIX_INDEXER_SECURITY,
     cluster.name + SUFFIX_API_CREDENTIALS}
  }

  /** The authd secret name watched for a cluster. */
  function WatchedAuthd(cluster: Key, m: Option<ManagerSpec>): string {
    if m.Some? && AuthNames(m.value) then AuthRef(m.value).value.name
    else if m.Some? && m.value.legacyAuthd.Some? && m.value.legacyAuthd.value.name != "" then
      m.value.legacyAuthd.value.name
    else cluster.name + SUFFIX_AUTHD
  }

  predicate Watches(c: Cluster, secret: Key) {
    && c.key.namespace == secret.namespace
    && (secret.name in Defaults(c.key)
        || secret.name == ResolveApi(c.key, c.manager).0
        || secret.name == WatchedAuthd(c.key, c.manager))
  }

  function Affected(clusters: seq<Cluster>, secret: Key): seq<Key> {
    if clusters == [] then [] else
    var front, last := Affected(clusters[..|clusters| - 1], secret), clusters[|clusters| - 1];
    if Watches(last, secret) then front + [last.key] else front
  }

  /** findClustersForSecret over the clusters of all namespaces; the listing keeps those of the secret's. */
  method FindClustersForSecret(clusters: Option<seq<Cluster>>, secret: Key) returns (requests: seq<Key>)
    ensures clusters.None? ==> requests == []
    ensures clusters.Some? ==> requests == Affected(clusters.value, secret)
  {
    requests := [];
    if clusters.None? { return; }
    var items := clusters.value;
    for i := 0 to |items|
      invariant requests == Affected(items[..i], secret)
    {
      assert items[..i + 1][..i] == items[..i];
      var c := items[i];
      if c.key.namespace == secret.namespace {
        var watched := WatchedNames(c);
        if secret.name in watched { requests := requests + [c.key]; }
      }
    }
    assert items[..|items|] == items;
  }

  /** The names one iteration of findClustersForSecret compares with. */
  method WatchedNames(c: Cluster) returns (names: set<string>)
    ensures names == Defaults(c.key) + {ResolveApi(c.key, c.manager).0, WatchedAuthd(c.key, c.manager)}
  {
    hide SUFFIX_INDEXER_CREDENTIALS, SUFFIX_INDEXER_SECURITY, SUFFIX_API_CREDENTIALS, SUFFIX_AUTHD;
    var expectedApi := c.key.name + SUFFIX_API_CREDENTIALS;
    var expectedAuthd := c.key.name + SUFFIX_AUTHD;
    var customApi := expectedApi;
    if c.manager.Some? && c.manager.value.api.Some? {
      var ref := GetSecretName(c.manager.value.api.value);
      if ref != "" { customApi := ref; }
    }
    if c.manager.Some? {
      var m := c.manager.value;
      if m.auth.Some? && m.auth.value.passwordRef.Some? && m.auth.value.passwordRef.value.name != "" {
        expectedAuthd := m.auth.value.passwordRef.value.name;
      } else if m.legacyAuthd.Some? && m.legacyAuthd.value.name != "" {
        expectedAuthd := m.legacyAuthd.value.name;
      }
    }
    names := {c.key.name + SUFFIX_INDEXER_CREDENTIALS, c.key.name + SUFFIX_INDEXER_SECURITY, expectedApi, customApi,
              expectedAuthd};
  }

  lemma {:induction false} AffectedMembers(clusters: seq<Cluster>, secret: Key, k: Key)
    ensures k in Affected(clusters, secret) <==> exists c :: c in clusters && c.key == k && Watches(c, secret)
  {
    hide Watches;
    if clusters != [] {
      var front, last := clusters[..|clusters| - 1], clusters[|clusters| - 1];
      AffectedMembers(front, secret, k);
      assert forall c :: c in clusters <==> c in front || c == last;
    }
  }

  /** The authd secret a specification names: in its auth section, else by the legacy reference, else none. */
  function NamedAuthd(m: ManagerSpec): string {
    if m.auth.Some? && m.auth.value.passwordRef.Some? && m.auth.value.passwordRef.value.name != ""
    then m.auth.value.passwordRef.value.name
    else if m.legacyAuthd.Some? then m.legacyAuthd.value.name else ""
  }

  /** The name is one of the generated names of the cluster's secrets, or one its manager specification gives. */
  predicate IsSecretOf(c: Cluster, name: string) {
    || name in {c.key.name + "-indexer-credentials", c.key.name + "-indexer-security", c.key.name + "-api-credentials"}
    || (c.manager.Some? && c.manager.value.api.Some? && name != "" && name == Named(c.manager.value.api.value))
    || (if c.manager.Some? && NamedAuthd(c.manager.value) != "" then name == NamedAuthd(c.manager.value)
        else name == c.key.name + "-authd-pass")
  }

  lemma WatchesIff(c: Cluster, secret: Key)
    ensures Watches(c, secret) <==> c.key.namespace == secret.namespace && IsSecretOf(c, secret.name)
  {
    ApiReferenceIs(c.key, c.manager);
    hide ResolveApi;
  }

  /** A cluster is enqueued for a secret of its namespace iff the secret's name is one of its own. */
  lemma SecretLookup(clusters: seq<Cluster>, secret: Key, k: Key)
    ensures k in Affected(clusters, secret) <==>
      exists c :: c in clusters && c.key == k && k.namespace == secret.namespace && IsSecretOf(c, secret.name)
  {
    hide Watches, IsSecretOf, Affected;
    AffectedMembers(clusters, secret, k);
    forall c ensures Watches(c, secret) <==> c.key.namespace == secret.namespace && IsSecretOf(c, secret.name) {
      WatchesIff(c, secret);
    }
  }

  /** The manager specification a pass works with: the stored one, or that of the resolved reference. */
  function Effective(c: Cluster, managers: map<Key, ManagerSpec>): Option<ManagerSpec> {
    match Resolve(c, Manager, managers)
    case Fetched(_, spec) => Some(spec)
    case _ => c.manager
  }

  lemma ReadIsWatched(c: Cluster, secret: Key)
    requires secret in SecretsRead(c.key, c.manager)
    ensures Watches(c, secret)
  {
    hide SUFFIX_INDEXER_CREDENTIALS, SUFFIX_INDEXER_SECURITY, SUFFIX_API_CREDENTIALS, SUFFIX_AUTHD;
  }

  /** For an inline cluster, a change of any secret its hashes are computed from enqueues it. */
  lemma InlineSecretsEnqueue(clusters: seq<Cluster>, c: Cluster, managers: map<Key, ManagerSpec>, secret: Key)
    requires c in clusters && c.managerRef.None?
    requires secret in SecretsRead(c.key, Effective(c, managers))
    ensures c.key in Affected(clusters, secret)
  {
    ReadIsWatched(c, secret);
    AffectedMembers(clusters, secret, c.key);
  }

  /**
   For a cluster that gets its manager by reference, a secret its hashes are computed from enqueues it iff the secret
   has one of the four default names.
   */
  lemma ReferenceSecretsEnqueueIff(clusters: seq<Cluster>, c: Cluster, managers: map<Key, ManagerSpec>, secret: Key)
    requires c in clusters && DistinctKeys(clusters) && c.manager.None? && Resolve(c, Manager, managers).Fetched?
    requires secret in SecretsRead(c.key, Effective(c, managers))
    ensures c.key in Affected(clusters, secret) <==>
      secret.name in Defaults(c.key) || secret.name == c.key.name + SUFFIX_AUTHD
  {
    AffectedMembers(clusters, secret, c.key);
    hide SUFFIX_INDEXER_CREDENTIALS, SUFFIX_INDEXER_SECURITY, SUFFIX_API_CREDENTIALS, SUFFIX_AUTHD;
    assert secret.namespace == c.key.namespace;
  }

  /** A reference-mode cluster with a custom secret name misses its secret's changes. */
  lemma CustomSecretMissed() returns (c: Cluster, m: ManagerSpec, secret: Key)
    ensures c.manager.None? && Resolve(c, Manager, map[Key("ns", "m") := m]).Fetched?
    ensures secret in SecretsRead(c.key, Effective(c, map[Key("ns", "m") := m]))
    ensures c.key !in Affected([c], secret)
  {
    c := Cluster(Key("ns", "a"), None, Some(Ref("m", "")), None, None);
    m := ManagerSpec(Some(CredentialsRef("s", None, "", "")), None, None);
    secret := Key("ns", "s");
    assert |"a" + SUFFIX_API_CREDENTIALS| > 1 && |"a" + SUFFIX_INDEXER_CREDENTIALS| > 1
        && |"a" + SUFFIX_INDEXER_SECURITY| > 1 && |"a" + SUFFIX_AUTHD| > 1;
    ReferenceSecretsEnqueueIff([c], c, map[Key("ns", "m") := m], secret);
  }

  // ----- Rules, decoders and filebeat configurations -----

  /** A rule, decoder or filebeat configuration with its reference to a cluster. */
  datatype Dependent = Dependent(key: Key, clusterRef: Ref)

  function ClusterOf(d: Dependent): Key { Target(d.clusterRef, d.key.namespace) }

  /** findClustersForRule and findClustersForDecoder. */
  method FindClustersForDependent(d: Dependent) returns (requests: seq<Key>)
    ensures requests == [ClusterOf(d)]
  {
    var namespace := d.clusterRef.namespace;
    if namespace == "" { namespace := d.key.namespace; }
    requests := [Key(namespace, d.clusterRef.name)];
  }

  predicate Depends(d: Dependent, cluster: Key, everywhere: bool) {
    ClusterOf(d) == cluster && (everywhere || d.key.namespace == cluster.namespace)
  }

  function Dependents(items: seq<Dependent>, cluster: Key, everywhere: bool): seq<Key> {
    if items == [] then [] else
    var front, last := Dependents(items[..|items| - 1], cluster, everywhere), items[|items| - 1];
    if Depends(last, cluster, everywhere) then front + [last.key] else front
  }

  /** findRulesForCluster and findDecodersForCluster list one namespace, findFilebeatForCluster all of them. */
  method FindDependents(items: Option<seq<Dependent>>, cluster: Key, everywhere: bool) returns (requests: seq<Key>)
    ensures items.None? ==> requests == []
    ensures items.Some? ==> requests == Dependents(items.value, cluster, everywhere)
  {
    requests := [];
    if items.None? { return; }
    var list := items.value;
    for i := 0 to |list|
      invariant requests == Dependents(list[..i], cluster, everywhere)
    {
      assert list[..i + 1][..i] == list[..i];
      var d := list[i];
      if everywhere || d.key.namespace == cluster.namespace {
        var refNamespace := d.clusterRef.namespace;
        if refNamespace == "" { refNamespace := d.key.namespace; }
        if d.clusterRef.name == cluster.name && refNamespace == cluster.namespace { requests := requests + [d.key]; }
      }
    }
    assert list[..|list|] == list;
  }

  lemma {:induction false} DependentsMembers(items: seq<Dependent>, cluster: Key, everywhere: bool, k: Key)
    ensures k in Dependents(items, cluster, everywhere) <==>
      exists d :: d in items && d.key == k && Depends(d, cluster, everywhere)
  {
    if items != [] {
      var front, last := items[..|items| - 1], items[|items| - 1];
      DependentsMembers(front, cluster, everywhere, k);
      assert forall d :: d in items <==> d in front || d == last;
    }
  }

  /**
   A dependent whose forward target is the cluster is found from the cluster iff the lookup spans all namespaces or the
   two share one; what is found maps back to the cluster.
   */
  lemma DependentFoundIff(items: seq<Dependent>, d: Dependent, cluster: Key, everywhere: bool)
    requires d in items && forall e, f :: e in items && f in items && e.key == f.key ==> e == f
    ensures ClusterOf(d) == cluster <==> Points(Some(d.clusterRef), d.key.namespace, cluster)
    ensures d.key in Dependents(items, cluster, everywhere) ==> ClusterOf(d) == cluster
    ensures ClusterOf(d) == cluster ==>
      (d.key in Dependents(items, cluster, everywhere) <==> everywhere || d.key.namespace == cluster.namespace)
  {
    DependentsMembers(items, cluster, everywhere, d.key);
  }

  /** A rule in another namespace than its cluster is reconciled towards the cluster but not found from it. */
  lemma CrossNamespaceRuleMissed() returns (d: Dependent, cluster: Key)
    ensures ClusterOf(d) == cluster && d.key !in Dependents([d], cluster, false)
  {
    d, cluster := Dependent(Key("a", "r"), Ref("c", "b")), Key("b", "c");
    DependentsMembers([d], cluster, false, d.key);
  }
}
