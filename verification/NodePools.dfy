/**
 Node-pool validation of the admission webhook: one loop over the pools with a set of seen names and 32-bit node
 counters. Names are byte strings.
 */
module NodePools {
  import opened Prelude

  const TWO_TO_31: int := 0x8000_0000
  const TWO_TO_32: int := 0x1_0000_0000

  type Int32 = x: int | -0x8000_0000 <= x < 0x8000_0000

  /** Two's complement wrap-around. */
  function Wrap(x: int): Int32 { (x + TWO_TO_31) % TWO_TO_32 - TWO_TO_31 }

  lemma WrapCongruent(x: int) returns (q: int)
    ensures Wrap(x) == x - q * TWO_TO_32
  {
    q := (x + TWO_TO_31) / TWO_TO_32;
  }

  lemma WrapUnique(x: int, q: int)
    requires -TWO_TO_31 <= x - q * TWO_TO_32 < TWO_TO_31
    ensures Wrap(x) == x - q * TWO_TO_32
  {
    var p := WrapCongruent(x);
    assert -TWO_TO_32 < (p - q) * TWO_TO_32 < TWO_TO_32;
  }

  /** Adding to a wrapped sum is adding to the sum. */
  lemma WrapAdd(a: int, b: int)
    ensures Wrap(Wrap(a) + b) == Wrap(a + b)
  {
    var p := WrapCongruent(a);
    var q := WrapCongruent(Wrap(a) + b);
    assert a + b - (p + q) * TWO_TO_32 == Wrap(Wrap(a) + b);
    WrapUnique(a + b, p + q);
  }

  datatype Role = ClusterManager | Data | OtherRole(name: string)

  datatype Pool = Pool(name: string, replicas: Int32, roles: seq<Role>)

  method HasRole(p: Pool, role: Role) returns (found: bool)
    ensures found <==> role in p.roles
  {
    for i := 0 to |p.roles|
      invariant role !in p.roles[..i]
    {
      if p.roles[i] == role { return true; }
    }
    return false;
  }

  /** The number of nodes with the role, without wrap-around. */
  function Nodes(pools: seq<Pool>, role: Role): int {
    if pools == [] then 0 else
    var last := pools[|pools| - 1];
    Nodes(pools[..|pools| - 1], role) + if role in last.roles then last.replicas else 0
  }

  function Replicas(pools: seq<Pool>): int {
    if pools == [] then 0 else Replicas(pools[..|pools| - 1]) + pools[|pools| - 1].replicas
  }

  predicate Occurs(pools: seq<Pool>, role: Role) { exists p :: p in pools && role in p.roles }

  /** CountClusterManagerNodes and CountDataNodes. */
  method CountNodes(pools: seq<Pool>, role: Role) returns (count: Int32)
    ensures count == Wrap(Nodes(pools, role))
  {
    count := 0;
    for i := 0 to |pools|
      invariant count == Wrap(Nodes(pools[..i], role))
    {
      assert pools[..i + 1][..i] == pools[..i];
      var has := HasRole(pools[i], role);
      if has {
        WrapAdd(Nodes(pools[..i], role), pools[i].replicas);
        count := Wrap(count + pools[i].replicas);
      }
    }
    assert pools[..|pools|] == pools;
  }

  /** GetTotalReplicas of an indexer with these pools, or with this replica count if there are none. */
  method GetTotalReplicas(replicas: Int32, pools: seq<Pool>) returns (total: Int32)
    ensures total == if |pools| > 0 then Wrap(Replicas(pools)) else replicas
  {
    if |pools| == 0 { return replicas; }
    total := 0;
    for i := 0 to |pools|
      invariant total == Wrap(Replicas(pools[..i]))
    {
      assert pools[..i + 1][..i] == pools[..i];
      WrapAdd(Replicas(pools[..i]), pools[i].replicas);
      total := Wrap(total + pools[i].replicas);
    }
    assert pools[..|pools|] == pools;
  }

  // ----- Names: section 2.1 of RFC 1123 -----

  predicate Alphanumeric(c: char) { 'a' <= c <= 'z' || '0' <= c <= '9' }

  /** The name pattern: letters, digits and hyphens, with no hyphen at either end. */
  predicate Label(name: string) {
    && |name| > 0 && Alphanumeric(name[0]) && Alphanumeric(name[|name| - 1])
    && forall i :: 0 <= i < |name| ==> name[i] == '-' || Alphanumeric(name[i])
  }

  predicate IsDigit(c: char) { c in {'0', '1', '2', '3', '4', '5', '6', '7', '8', '9'} }

  predicate IsLetter(c: char) {
    c in {'a', 'b', 'c', 'd', 'e', 'f', 'g', 'h', 'i', 'j', 'k', 'l', 'm', 'n', 'o', 'p', 'q', 'r', 's', 't', 'u', 'v',
          'w', 'x', 'y', 'z'}
  }

  /** How far a name has been matched: not at all, up to a letter or digit, up to a hyphen, or not matched. */
  datatype Match = Fresh | Ended | Open | Refused

  /** The automaton of the name pattern. */
  function Scan(name: string): Match {
    if name == "" then Fresh else
    var before, c := Scan(name[..|name| - 1]), name[|name| - 1];
    if before == Refused then Refused
    else if IsLetter(c) || IsDigit(c) then Ended
    else if c == '-' && before != Fresh then Open
    else Refused
  }

  lemma DigitIff(c: char)
    ensures IsDigit(c) <==> '0' <= c <= '9'
  {}

  lemma AlphanumericIff(c: char)
    ensures Alphanumeric(c) <==> IsLetter(c) || IsDigit(c)
  {
    DigitIff(c);
    assert IsLetter(c) <==> 'a' <= c <= 'z';
  }

  /** The pattern so far: letters, digits and hyphens, the first one not a hyphen. */
  predicate Begins(name: string) {
    && name != "" && Alphanumeric(name[0])
    && forall i :: 0 <= i < |name| ==> name[i] == '-' || Alphanumeric(name[i])
  }

  lemma {:induction false} ScanMeans(name: string)
    ensures Scan(name) == Fresh <==> name == ""
    ensures Scan(name) in {Ended, Open} <==> Begins(name)
    ensures Scan(name) == Ended <==> Begins(name) && Alphanumeric(name[|name| - 1])
  {
    if name != "" {
      var front, c := name[..|name| - 1], name[|name| - 1];
      ScanMeans(front);
      AlphanumericIff(c);
      hide Alphanumeric, IsLetter, IsDigit;
      assert front != "" ==> front[0] == name[0];
      assert Begins(name) && front != "" ==> Begins(front);
    }
  }

  /** A name is well formed iff the automaton ends in its accepting state. */
  lemma LabelIff(name: string)
    ensures Label(name) <==> Scan(name) == Ended
  {
    ScanMeans(name);
  }

  // ----- Findings -----

  datatype Problem = NoPools | NameRequired(i: nat) | NameMalformed(i: nat) | NameTooLong(i: nat)
                   | NameDuplicate(i: nat) | NegativeReplicas(i: nat) | NoQuorum(found: Int32)
                   | NoDataNodes(found: Int32)

  datatype Warning = MixedRoles(i: nat) | NoDataRole

  predicate Repeats(pools: seq<Pool>, i: nat)
    requires i < |pools|
  {
    exists j :: 0 <= j < i && pools[j].name == pools[i].name
  }

  function If<T>(b: bool, x: T): seq<T> { if b then [x] else [] }

  /** What is wrong with pool i. */
  function ProblemsAt(pools: seq<Pool>, i: nat): seq<Problem>
    requires i < |pools|
  {
    var name := pools[i].name;
    (if name == "" then [NameRequired(i)]
     else If(!Label(name), NameMalformed(i)) + If(|name| > 63, NameTooLong(i))
          + If(Repeats(pools, i), NameDuplicate(i)))
    + If(pools[i].replicas < 0, NegativeReplicas(i))
  }

  function PoolProblems(pools: seq<Pool>, n: nat): seq<Problem>
    requires n <= |pools|
  {
    if n == 0 then [] else PoolProblems(pools, n - 1) + ProblemsAt(pools, n - 1)
  }

  function CountProblems(pools: seq<Pool>): seq<Problem> {
    var managers, data := Wrap(Nodes(pools, ClusterManager)), Wrap(Nodes(pools, Data));
    If(Occurs(pools, ClusterManager) && managers < 3, NoQuorum(managers))
    + If(Occurs(pools, Data) && data < 1, NoDataNodes(data))
  }

  function Problems(pools: seq<Pool>): seq<Problem> {
    if pools == [] then [NoPools] else PoolProblems(pools, |pools|) + CountProblems(pools)
  }

  predicate MixesRoles(p: Pool) { ClusterManager in p.roles && Data in p.roles }

  function MixedRolesUpTo(pools: seq<Pool>, n: nat): seq<Warning>
    requires n <= |pools|
  {
    if n == 0 then [] else MixedRolesUpTo(pools, n - 1) + If(MixesRoles(pools[n - 1]), MixedRoles(n - 1))
  }

  function Warnings(pools: seq<Pool>): seq<Warning> {
    if pools == [] then [] else MixedRolesUpTo(pools, |pools|) + If(!Occurs(pools, Data), NoDataRole)
  }

  // ----- The loop -----

  ghost predicate Seen(pools: seq<Pool>, n: nat, seen: set<string>)
    requires n <= |pools|
  {
    forall name :: name in seen <==> name != "" && exists j :: 0 <= j < n && pools[j].name == name
  }

  lemma SeenNext(pools: seq<Pool>, n: nat, seen: set<string>)
    requires n < |pools| && Seen(pools, n, seen)
    ensures Seen(pools, n + 1, if pools[n].name == "" then seen else seen + {pools[n].name})
    ensures pools[n].name != "" ==> (pools[n].name in seen <==> Repeats(pools, n))
  {}

  /** The checks of one pool's name and replicas. */
  method CheckPool(pools: seq<Pool>, i: nat, seen: set<string>) returns (errors: seq<Problem>, seen': set<string>)
    requires i < |pools| && Seen(pools, i, seen)
    ensures errors == ProblemsAt(pools, i) && Seen(pools, i + 1, seen')
  {
    SeenNext(pools, i, seen);
    hide Seen, Repeats, Label;
    var pool := pools[i];
    errors, seen' := [], seen;
    if pool.name == "" {
      errors := errors + [NameRequired(i)];
    } else {
      if !Label(pool.name) { errors := errors + [NameMalformed(i)]; }
      if |pool.name| > 63 { errors := errors + [NameTooLong(i)]; }
      if pool.name in seen { errors := errors + [NameDuplicate(i)]; }
      seen' := seen + {pool.name};
    }
    if pool.replicas < 0 { errors := errors + [NegativeReplicas(i)]; }
  }

  /** One role's counter in the loop. */
  method CountPool(pools: seq<Pool>, i: nat, role: Role, occurs: bool, count: Int32)
    returns (has: bool, occurs': bool, count': Int32)
    requires i < |pools|
    requires occurs == Occurs(pools[..i], role) && count == Wrap(Nodes(pools[..i], role))
    ensures has <==> role in pools[i].roles
    ensures occurs' == Occurs(pools[..i + 1], role) && count' == Wrap(Nodes(pools[..i + 1], role))
  {
    assert pools[..i + 1][..i] == pools[..i];
    assert forall p :: p in pools[..i + 1] <==> p in pools[..i] || p == pools[i];
    occurs', count' := occurs, count;
    has := HasRole(pools[i], role);
    if has {
      WrapAdd(Nodes(pools[..i], role), pools[i].replicas);
      occurs', count' := true, Wrap(count + pools[i].replicas);
    }
  }

  method ValidateNodePools(pools: seq<Pool>) returns (errors: seq<Problem>, warnings: seq<Warning>)
    ensures errors == Problems(pools) && warnings == Warnings(pools)
  {
    hide ProblemsAt, Nodes, Wrap, Seen;
    errors, warnings := [], [];
    if |pools| == 0 { return [NoPools], []; }
    var seen: set<string> := {};
    var managers, data := 0, 0;
    var hasManagers, hasData := false, false;
    Start(pools);
    for i := 0 to |pools|
      invariant errors == PoolProblems(pools, i) && warnings == MixedRolesUpTo(pools, i) && Seen(pools, i, seen)
      invariant hasManagers == Occurs(pools[..i], ClusterManager) && hasData == Occurs(pools[..i], Data)
      invariant managers == Wrap(Nodes(pools[..i], ClusterManager)) && data == Wrap(Nodes(pools[..i], Data))
    {
      hide Occurs;
      var found, isManager, isData;
      found, seen := CheckPool(pools, i, seen);
      errors := errors + found;
      isManager, hasManagers, managers := CountPool(pools, i, ClusterManager, hasManagers, managers);
      isData, hasData, data := CountPool(pools, i, Data, hasData, data);
      if isManager && isData { warnings := warnings + [MixedRoles(i)]; }
    }
    assert pools[..|pools|] == pools;
    if hasManagers && managers < 3 { errors := errors + [NoQuorum(managers)]; }
    if hasData && data < 1 { errors := errors + [NoDataNodes(data)]; }
    if !hasData { warnings := warnings + [NoDataRole]; }
  }

  lemma Start(pools: seq<Pool>)
    ensures Seen(pools, 0, {}) && Wrap(Nodes(pools[..0], ClusterManager)) == 0 == Wrap(Nodes(pools[..0], Data))
  {}

  // ----- What is reported -----

  /** The rule behind each error. */
  ghost predicate Breaks(pools: seq<Pool>, e: Problem) {
    match e
    case NoPools => pools == []
    case NameRequired(i) => i < |pools| && pools[i].name == ""
    case NameMalformed(i) => i < |pools| && pools[i].name != "" && !Label(pools[i].name)
    case NameTooLong(i) => i < |pools| && |pools[i].name| >= 64
    case NameDuplicate(i) => i < |pools| && pools[i].name != "" && Repeats(pools, i)
    case NegativeReplicas(i) => i < |pools| && pools[i].replicas <= -1
    case NoQuorum(n) => Occurs(pools, ClusterManager) && n == Wrap(Nodes(pools, ClusterManager)) <= 2
    case NoDataNodes(n) => Occurs(pools, Data) && n == Wrap(Nodes(pools, Data)) <= 0
  }

  function IndexOf(e: Problem): int {
    match e
    case NameRequired(i) => i
    case NameMalformed(i) => i
    case NameTooLong(i) => i
    case NameDuplicate(i) => i
    case NegativeReplicas(i) => i
    case _ => -1
  }

  lemma ProblemsAtAre(pools: seq<Pool>, i: nat, e: Problem)
    requires i < |pools|
    ensures e in ProblemsAt(pools, i) <==> IndexOf(e) == i && Breaks(pools, e)
  {
    hide Label, Repeats, Occurs, Nodes, Wrap;
  }

  lemma {:induction false} PoolProblemsAre(pools: seq<Pool>, n: nat, e: Problem)
    requires n <= |pools|
    ensures e in PoolProblems(pools, n) <==> 0 <= IndexOf(e) < n && Breaks(pools, e)
  {
    hide ProblemsAt, Breaks;
    if n > 0 {
      PoolProblemsAre(pools, n - 1, e);
      ProblemsAtAre(pools, n - 1, e);
    }
  }

  /** The errors are exactly those of the rules the pools break. */
  lemma ProblemsAre(pools: seq<Pool>, e: Problem)
    ensures e in Problems(pools) <==> Breaks(pools, e)
  {
    PoolProblemsAre(pools, |pools|, e);
    hide PoolProblems, Label, Repeats, Nodes, Wrap;
  }

  lemma {:induction false} MixedRolesAre(pools: seq<Pool>, n: nat, w: Warning)
    requires n <= |pools|
    ensures w in MixedRolesUpTo(pools, n) <==>
      w.MixedRoles? && w.i < n && ClusterManager in pools[w.i].roles && Data in pools[w.i].roles
  {
    if n > 0 { MixedRolesAre(pools, n - 1, w); }
  }

  /** The warnings name the pools with both roles, and say if no pool has the data role. */
  lemma WarningsAre(pools: seq<Pool>, w: Warning)
    ensures w in Warnings(pools) <==>
      match w
      case MixedRoles(i) => i < |pools| && ClusterManager in pools[i].roles && Data in pools[i].roles
      case NoDataRole => pools != [] && forall p :: p in pools ==> Data !in p.roles
  {
    MixedRolesAre(pools, |pools|, w);
  }

  /** Node counts add up pool by pool. */
  lemma {:induction false} NodesAdd(a: seq<Pool>, b: seq<Pool>, p: Pool, role: Role)
    ensures Nodes(a + b, role) == Nodes(a, role) + Nodes(b, role) && Replicas(a + b) == Replicas(a) + Replicas(b)
    ensures Nodes([p], role) == (if role in p.roles then p.replicas else 0) && Replicas([p]) == p.replicas
    decreases |b|
  {
    assert [p][..0] == [];
    if b == [] {
      assert a + b == a;
    } else {
      var front := b[..|b| - 1];
      NodesAdd(a, front, p, role);
      assert (a + b)[..|a + b| - 1] == a + front;
    }
  }

  // ----- What acceptance means -----

  ghost predicate WellNamed(pools: seq<Pool>) {
    && (forall i :: 0 <= i < |pools| ==> Label(pools[i].name) && |pools[i].name| <= 63)
    && forall i, j :: 0 <= i < j < |pools| ==> pools[i].name != pools[j].name
  }

  ghost predicate NonNegative(pools: seq<Pool>) { forall p :: p in pools ==> p.replicas >= 0 }

  lemma {:induction false} NoPoolProblems(pools: seq<Pool>, n: nat)
    requires n <= |pools|
    ensures PoolProblems(pools, n) == [] <==> forall i :: 0 <= i < n ==> ProblemsAt(pools, i) == []
  {
    hide ProblemsAt;
    if n > 0 { NoPoolProblems(pools, n - 1); }
  }

  lemma NoProblemsAt(pools: seq<Pool>, i: nat)
    requires i < |pools|
    ensures ProblemsAt(pools, i) == [] <==>
      Label(pools[i].name) && |pools[i].name| <= 63 && !Repeats(pools, i) && pools[i].replicas >= 0
  {
    hide Repeats;
  }

  /** No error exactly when the list is non-empty, well named, non-negative, and the wrapped counts suffice. */
  lemma AcceptedIff(pools: seq<Pool>)
    ensures Problems(pools) == [] <==>
      && pools != [] && WellNamed(pools) && NonNegative(pools)
      && (Occurs(pools, ClusterManager) ==> Wrap(Nodes(pools, ClusterManager)) >= 3)
      && (Occurs(pools, Data) ==> Wrap(Nodes(pools, Data)) >= 1)
  {
    NoPoolProblems(pools, |pools|);
    forall i: nat | i < |pools|
      ensures ProblemsAt(pools, i) == [] <==>
        Label(pools[i].name) && |pools[i].name| <= 63 && !Repeats(pools, i) && pools[i].replicas >= 0
    {
      NoProblemsAt(pools, i);
    }
    hide ProblemsAt, Label, Nodes, Wrap, Occurs;
    DistinctIff(pools);
  }

  lemma DistinctIff(pools: seq<Pool>)
    ensures (forall i: nat :: i < |pools| ==> !Repeats(pools, i)) <==>
      forall i, j :: 0 <= i < j < |pools| ==> pools[i].name != pools[j].name
  {
    if i, j :| 0 <= i < j < |pools| && pools[i].name == pools[j].name { assert Repeats(pools, j); }
  }

  // ----- Overflow -----

  lemma {:induction false} NodesNonNegative(pools: seq<Pool>, role: Role)
    requires NonNegative(pools)
    ensures Nodes(pools, role) >= 0
  {
    if pools != [] { NodesNonNegative(pools[..|pools| - 1], role); }
  }

  lemma WrapFits(n: int)
    ensures 0 <= n && Fits(n) ==> Wrap(n) == n
  {}

  /** Wrap-around never lets a cluster in: accepted pools really have three cluster managers and a data node. */
  lemma AcceptedHaveNodes(pools: seq<Pool>)
    requires Problems(pools) == []
    ensures Occurs(pools, ClusterManager) ==> Nodes(pools, ClusterManager) >= 3
    ensures Occurs(pools, Data) ==> Nodes(pools, Data) >= 1
  {
    AcceptedIff(pools);
    NodesNonNegative(pools, ClusterManager);
    NodesNonNegative(pools, Data);
    WrapFits(Nodes(pools, ClusterManager));
    WrapFits(Nodes(pools, Data));
    hide Problems, Wrap, Nodes, WellNamed, Occurs, NonNegative;
  }

  predicate Fits(n: int) { n < TWO_TO_31 }

  /** Without overflow the test is exact: well-formed pools with enough nodes are accepted, and only they. */
  lemma ExactWithoutOverflow(pools: seq<Pool>)
    requires NonNegative(pools) && Fits(Nodes(pools, ClusterManager)) && Fits(Nodes(pools, Data))
    ensures Problems(pools) == [] <==>
      && pools != [] && WellNamed(pools)
      && (Occurs(pools, ClusterManager) ==> Nodes(pools, ClusterManager) >= 3)
      && (Occurs(pools, Data) ==> Nodes(pools, Data) >= 1)
  {
    AcceptedIff(pools);
    NodesNonNegative(pools, ClusterManager);
    NodesNonNegative(pools, Data);
    WrapFits(Nodes(pools, ClusterManager));
    WrapFits(Nodes(pools, Data));
    hide Problems, Wrap, Nodes, WellNamed, Occurs, NonNegative;
  }

  /** Two pools of as many cluster managers as a counter can hold. */
  const HUGE: seq<Pool> :=
    [Pool("a", 0x7fff_ffff, [ClusterManager]), Pool("b", 0x7fff_ffff, [ClusterManager])]

  lemma HugeCounts()
    ensures Nodes(HUGE, ClusterManager) == 0xffff_fffe && Occurs(HUGE, ClusterManager) && !Occurs(HUGE, Data)
  {
    NodesAdd([HUGE[0]], [HUGE[1]], HUGE[0], ClusterManager);
    NodesAdd([HUGE[0]], [HUGE[1]], HUGE[1], ClusterManager);
    assert HUGE == [HUGE[0]] + [HUGE[1]];
    hide Nodes;
    assert HUGE[0] in HUGE && ClusterManager in HUGE[0].roles;
  }

  lemma HugeNames()
    ensures PoolProblems(HUGE, 2) == []
  {
    NoProblemsAt(HUGE, 0);
    NoProblemsAt(HUGE, 1);
    hide ProblemsAt;
    assert PoolProblems(HUGE, 1) == [];
  }

  /** With overflow it can turn pools away that have more than enough cluster managers. */
  lemma OverflowRejects()
    ensures NonNegative(HUGE) && Nodes(HUGE, ClusterManager) >= 3
    ensures Problems(HUGE) == [NoQuorum(-2)]
  {
    HugeCounts();
    HugeNames();
    hide Nodes, Occurs, PoolProblems;
  }

  /** Accepted cluster managers keep a strict majority after losing one, and three is the least number that does. */
  lemma QuorumSurvivesOneLoss(pools: seq<Pool>, n: int)
    requires Problems(pools) == [] && Occurs(pools, ClusterManager)
    ensures var c := Nodes(pools, ClusterManager); 2 * (c - 1) > c
    ensures 2 * (n - 1) > n <==> n >= 3
  {
    AcceptedHaveNodes(pools);
  }
}
