/**
 Names of the resources deleted with a cluster: the cluster name followed by a fixed suffix, per resource kind and in
 the order in which they are deleted.
 */
module ResourceNames {

  datatype Kind = StatefulSet | Deployment | Service | ConfigMap | Secret

  datatype Resource = Resource(kind: Kind, namespace: string, name: string)

  function Suffixes(kind: Kind): seq<string> {
    match kind
    case StatefulSet => ["-manager-master", "-manager-worker", "-indexer"]
    case Deployment => ["-dashboard"]
    case Service => ["-manager-master", "-manager-master-headless", "-manager-worker", "-manager-worker-headless",
                     "-indexer", "-indexer-headless", "-dashboard", "-agents"]
    case ConfigMap => ["-manager-master-config", "-manager-worker-config", "-indexer-config", "-dashboard-config",
                       "-filebeat-config"]
    case Secret => ["-manager-master-certs", "-manager-worker-certs", "-indexer-certs", "-indexer-security",
                    "-indexer-credentials", "-dashboard-certs", "-admin-certs", "-filebeat-certs", "-cluster-key",
                    "-api-credentials"]
  }

  function OfKind(kind: Kind, namespace: string, cluster: string): (r: seq<Resource>)
    ensures |r| == |Suffixes(kind)|
    ensures forall i :: 0 <= i < |r| ==> r[i] == Resource(kind, namespace, cluster + Suffixes(kind)[i])
  {
    seq(|Suffixes(kind)|, i requires 0 <= i < |Suffixes(kind)| =>
      Resource(kind, namespace, cluster + Suffixes(kind)[i]))
  }

  /** All 27 resources deleted with a cluster, workloads first. */
  function Listed(namespace: string, cluster: string): (r: seq<Resource>)
    ensures |r| == 27
  {
    OfKind(StatefulSet, namespace, cluster) + OfKind(Deployment, namespace, cluster)
      + OfKind(Service, namespace, cluster) + OfKind(ConfigMap, namespace, cluster)
      + OfKind(Secret, namespace, cluster)
  }

  lemma ListedByKind(namespace: string, cluster: string, r: Resource)
    ensures r in Listed(namespace, cluster) <==> r in OfKind(r.kind, namespace, cluster)
  {}

  /** The character k places before the end. */
  function FromEnd(s: string, k: nat): char { if k < |s| then s[|s| - 1 - k] else ' ' }

  /** Index of the suffix of a listed name, read off a few of its last characters. */
  function Classify(kind: Kind, name: string): nat {
    match kind
    case StatefulSet => Stem(FromEnd(name, 2))
    case Deployment => 0
    case Service =>
      if FromEnd(name, 0) == 'r' then 2 * Stem(FromEnd(name, 2))
      else if FromEnd(name, 0) == 'd' then 6
      else if FromEnd(name, 1) == 't' then 7
      else 2 * Stem(FromEnd(name, 11)) + 1
    case ConfigMap =>
      if FromEnd(name, 7) == 'd' then 3 else if FromEnd(name, 7) == 't' then 4 else Stem(FromEnd(name, 9))
    case Secret =>
      if FromEnd(name, 0) == 'y' then (if FromEnd(name, 1) == 't' then 3 else 8)
      else if FromEnd(name, 1) == 'l' then (if FromEnd(name, 12) == 'r' then 4 else 9)
      else if FromEnd(name, 6) == 'd' then 5
      else if FromEnd(name, 6) == 'n' then 6
      else if FromEnd(name, 6) == 't' then 7
      else Stem(FromEnd(name, 8))
  }

  /** The third last letter of master, worker and indexer. */
  function Stem(c: char): nat { if c == 't' then 0 else if c == 'k' then 1 else 2 }

  lemma FromEndOfSum(a: string, s: string, k: nat)
    requires k < |s|
    ensures FromEnd(a + s, k) == FromEnd(s, k)
  {}

  /** Listed suffixes are classified by their index. */
  lemma ClassifyBare(kind: Kind, i: nat)
    requires i < |Suffixes(kind)|
    ensures Classify(kind, Suffixes(kind)[i]) == i
  {
    match kind
    case Service => ClassifyService(i);
    case Secret => if i < 5 { ClassifySecretLow(i); } else { ClassifySecretHigh(i); }
    case _ =>
  }

  lemma ClassifyService(i: nat)
    requires i < |Suffixes(Service)|
    ensures Classify(Service, Suffixes(Service)[i]) == i
  {}

  lemma ClassifySecretLow(i: nat)
    requires i < 5
    ensures Classify(Secret, Suffixes(Secret)[i]) == i
  {}

  lemma ClassifySecretHigh(i: nat)
    requires 5 <= i < |Suffixes(Secret)|
    ensures Classify(Secret, Suffixes(Secret)[i]) == i
  {}

  /** A suffix is long enough for every character its classification reads. */
  predicate Reads(kind: Kind, s: string) {
    match kind
    case StatefulSet => |s| > 2
    case Deployment => true
    case Service => |s| > 2 && (FromEnd(s, 0) !in {'r', 'd'} && FromEnd(s, 1) != 't' ==> |s| > 11)
    case ConfigMap => |s| > 9
    case Secret => |s| > 8 && (FromEnd(s, 0) != 'y' && FromEnd(s, 1) == 'l' ==> |s| > 12)
  }

  lemma ReadsBare(kind: Kind, i: nat)
    requires i < |Suffixes(kind)|
    ensures Reads(kind, Suffixes(kind)[i])
  {}

  lemma ClassifySum(kind: Kind, a: string, s: string)
    requires Reads(kind, s)
    ensures Classify(kind, a + s) == Classify(kind, s)
  {
    forall k: nat | k < |s| ensures FromEnd(a + s, k) == FromEnd(s, k) { FromEndOfSum(a, s, k); }
    hide FromEnd;
  }

  /** Classification does not depend on what precedes the suffix. */
  lemma ClassifySuffix(kind: Kind, a: string, i: nat)
    requires i < |Suffixes(kind)|
    ensures Classify(kind, a + Suffixes(kind)[i]) == i
  {
    hide Suffixes, Classify, Reads;
    ReadsBare(kind, i);
    ClassifyBare(kind, i);
    ClassifySum(kind, a, Suffixes(kind)[i]);
  }

  /** No listed suffix of a kind ends another listed suffix of that kind. */
  lemma SuffixFree(kind: Kind, i: nat, j: nat, a: string)
    requires i < |Suffixes(kind)| && j < |Suffixes(kind)|
    requires Suffixes(kind)[i] == a + Suffixes(kind)[j]
    ensures i == j && a == ""
  {
    hide Suffixes, Classify;
    ClassifySuffix(kind, a, j);
    ClassifySuffix(kind, "", i);
    assert "" + Suffixes(kind)[i] == Suffixes(kind)[i];
  }

  /** The cleanup names of two clusters never collide: a shared listed resource means the same cluster. */
  lemma ListedDisjoint(ns: string, a: string, ms: string, b: string, r: Resource)
    requires r in Listed(ns, a) && r in Listed(ms, b)
    ensures ns == ms && a == b
  {
    hide Suffixes, Listed, Classify;
    ListedByKind(ns, a, r);
    ListedByKind(ms, b, r);
    var i :| 0 <= i < |Suffixes(r.kind)| && r == OfKind(r.kind, ns, a)[i];
    var j :| 0 <= j < |Suffixes(r.kind)| && r == OfKind(r.kind, ms, b)[j];
    ClassifySuffix(r.kind, a, i);
    ClassifySuffix(r.kind, b, j);
    var s := Suffixes(r.kind)[i];
    assert a == (a + s)[..|a + s| - |s|];
    assert b == (b + s)[..|b + s| - |s|];
  }
}
