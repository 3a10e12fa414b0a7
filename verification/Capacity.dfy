/** Hosting capacity admission: first-fit placement of the reserved pods. */
module Capacity {
  import opened Types

  /** CPU, memory, ephemeral storage and pod slots. Free capacity may be negative on an overcommitted node. */
  datatype Resources = Resources(cpu: int, memory: int, ephemeral: int, pods: int)

  function Plus(a: Resources, b: Resources): Resources {
    Resources(a.cpu + b.cpu, a.memory + b.memory, a.ephemeral + b.ephemeral, a.pods + b.pods)
  }

  function Minus(a: Resources, b: Resources): Resources {
    Resources(a.cpu - b.cpu, a.memory - b.memory, a.ephemeral - b.ephemeral, a.pods - b.pods)
  }

  function Times(k: nat, a: Resources): Resources {
    Resources(k * a.cpu, k * a.memory, k * a.ephemeral, k * a.pods)
  }

  const Nothing := Resources(0, 0, 0, 0)

  predicate Fits(free: Resources, request: Resources) {
    free.pods >= request.pods && free.cpu >= request.cpu && free.memory >= request.memory
    && free.ephemeral >= request.ephemeral
  }

  predicate AnyNegative(r: Resources) {
    r.pods < 0 || r.cpu < 0 || r.memory < 0 || r.ephemeral < 0
  }

  // ------------------------------------------------------------ reservation

  datatype Mode = Standard | Pinned | Resilient

  datatype Hosting = Hosting(replicas: int, maxReplicas: int, mode: Mode, storage: bool)

  /** Replicas of the rendered Deployment. */
  function Rendered(h: Hosting): int {
    if h.mode.Resilient? && h.replicas < 2 then 2 else h.replicas
  }

  /** What configuration validation admits. */
  predicate Admitted(h: Hosting) {
    && 1 <= h.maxReplicas <= 1000 && Rendered(h) <= h.maxReplicas
    && (h.storage ==> h.mode.Pinned? && h.replicas == 1)
  }

  /** Extra pods of a rollout: none when the old pod goes first, one in the resilient mode, and otherwise
      a quarter of the replicas rounded up, which is the Deployment default of 25 percent. */
  function RolloutSurge(h: Hosting): int {
    if h.storage then 0 else if h.mode.Resilient? then 1 else (25 * Rendered(h) + 99) / 100
  }

  function ReservedSurge(h: Hosting): int {
    if h.storage then 0 else if h.mode.Resilient? then 1 else (h.maxReplicas + 3) / 4
  }

  function ReservedPods(h: Hosting): int {
    h.maxReplicas + ReservedSurge(h)
  }

  /** The reservation covers the rollout of every admitted replica count, and is no larger than the
      largest of them needs. */
  lemma ReservationCoversRollout(h: Hosting)
    requires Admitted(h)
    ensures Rendered(h) + RolloutSurge(h) <= ReservedPods(h)
    ensures !h.storage && Rendered(h) == h.maxReplicas ==> Rendered(h) + RolloutSurge(h) == ReservedPods(h)
    ensures h.storage ==> ReservedPods(h) == h.maxReplicas
    ensures h.replicas <= Rendered(h) && (h.mode.Resilient? ==> Rendered(h) >= 2)
  {
    QuarterRoundsUp(Rendered(h));
  }

  /** The surge of a default rollout is the smallest number that is at least a quarter of the replicas; in the
      resilient mode it is one pod, and none where the old pod goes first. */
  lemma SurgeIsQuarter(h: Hosting)
    requires Admitted(h)
    ensures !h.storage && !h.mode.Resilient? ==>
              && Rendered(h) <= 4 * RolloutSurge(h) < Rendered(h) + 4
              && h.maxReplicas <= 4 * ReservedSurge(h) < h.maxReplicas + 4
    ensures !h.storage && h.mode.Resilient? ==> RolloutSurge(h) == 1
    ensures h.storage ==> RolloutSurge(h) == 0
  {
  }

  lemma QuarterRoundsUp(n: int)
    ensures (25 * n + 99) / 100 == (n + 3) / 4
  {
    var q := (n + 3) / 4;
    assert 4 * q <= n + 3 < 4 * q + 4;
    assert 100 * q <= 25 * n + 99 < 100 * q + 100;
  }

  // -------------------------------------------------------------- placement

  /** How many pods of `placement` node `v` receives. */
  function CountAt(placement: seq<nat>, v: nat): nat {
    multiset(placement)[v]
  }

  /** Every receiving node has room for all the pods it receives, and the first `spread` pods are on
      different nodes. */
  predicate Feasible(free: seq<Resources>, request: Resources, spread: nat, placement: seq<nat>) {
    && (forall i :: 0 <= i < |placement| ==> placement[i] < |free|)
    && (forall v :: 0 <= v < |free| && CountAt(placement, v) > 0 ==>
          Fits(free[v], Times(CountAt(placement, v), request)))
    && Spread(placement, spread)
  }

  predicate Spread(placement: seq<nat>, spread: nat) {
    forall i, j :: 0 <= i < j < |placement| && j < spread ==> placement[i] != placement[j]
  }

  /** What is left on the nodes after a placement. */
  ghost predicate LeftAfter(free: seq<Resources>, request: Resources, placement: seq<nat>, left: seq<Resources>) {
    |left| == |free| && forall v :: 0 <= v < |free| ==> left[v] == Minus(free[v], Times(CountAt(placement, v), request))
  }

  lemma FitsMore(free: Resources, request: Resources, k: nat)
    ensures Fits(Minus(free, Times(k, request)), request) <==> Fits(free, Times(k + 1, request))
  {
    assert Times(k + 1, request) == Plus(Times(k, request), request);
  }

  lemma FitsFewer(free: Resources, request: Resources, k: nat, m: nat)
    requires !AnyNegative(request) && k <= m && Fits(free, Times(m, request))
    ensures Fits(free, Times(k, request))
  {
    ScaleUp(k, m, request.cpu);
    ScaleUp(k, m, request.memory);
    ScaleUp(k, m, request.ephemeral);
    ScaleUp(k, m, request.pods);
  }

  lemma ScaleUp(k: nat, m: nat, x: int)
    requires k <= m && x >= 0
    ensures k * x <= m * x
  {
    assert m * x == k * x + (m - k) * x;
  }

  lemma OneMore(k: nat, a: Resources)
    ensures Times(k + 1, a) == Plus(Times(k, a), a)
  {
  }

  lemma CountGrows(placement: seq<nat>, v: nat, u: nat)
    ensures CountAt(placement + [v], u) == CountAt(placement, u) + if u == v then 1 else 0
  {
  }

  lemma PlaceLeaves(free: seq<Resources>, request: Resources, placement: seq<nat>, left: seq<Resources>, v: nat)
    requires LeftAfter(free, request, placement, left) && v < |free|
    ensures LeftAfter(free, request, placement + [v], left[v := Minus(left[v], request)])
  {
    forall u | 0 <= u < |free|
      ensures left[v := Minus(left[v], request)][u] == Minus(free[u], Times(CountAt(placement + [v], u), request))
    {
      CountGrows(placement, v, u);
      OneMore(CountAt(placement, u), request);
    }
  }

  lemma PlaceFits(free: seq<Resources>, request: Resources, placement: seq<nat>, left: seq<Resources>, v: nat, u: nat)
    requires LeftAfter(free, request, placement, left) && v < |free| && Fits(left[v], request) && u < |free|
    requires CountAt(placement, u) > 0 ==> Fits(free[u], Times(CountAt(placement, u), request))
    ensures CountAt(placement + [v], u) > 0 ==> Fits(free[u], Times(CountAt(placement + [v], u), request))
  {
    CountGrows(placement, v, u);
    if u == v {
      FitsMore(free[v], request, CountAt(placement, v));
    }
  }

  lemma PlaceOne(free: seq<Resources>, request: Resources, spread: nat, placement: seq<nat>,
                 left: seq<Resources>, v: nat)
    requires Feasible(free, request, spread, placement) && LeftAfter(free, request, placement, left)
    requires v < |free| && Fits(left[v], request)
    requires |placement| < spread ==> v !in placement
    ensures Feasible(free, request, spread, placement + [v])
    ensures LeftAfter(free, request, placement + [v], left[v := Minus(left[v], request)])
  {
    PlaceLeaves(free, request, placement, left, v);
    forall u | 0 <= u < |free|
      ensures CountAt(placement + [v], u) > 0 ==> Fits(free[u], Times(CountAt(placement + [v], u), request))
    {
      PlaceFits(free, request, placement, left, v, u);
    }
  }

  // ------------------------------------------------------------ completeness

  lemma CountBound(p: seq<nat>, q: seq<nat>)
    requires forall v: nat :: CountAt(p, v) <= CountAt(q, v)
    ensures |p| <= |q|
  {
    assert multiset(p) <= multiset(q) by {
      forall v: nat ensures multiset(p)[v] <= multiset(q)[v] {
        assert CountAt(p, v) <= CountAt(q, v);
      }
    }
    assert multiset(q) == multiset(p) + (multiset(q) - multiset(p));
    assert |multiset(p)| == |p| && |multiset(q)| == |q|;
  }

  lemma CountAbsent(p: seq<nat>, v: nat)
    ensures CountAt(p, v) > 0 <==> v in p
  {
  }

  /** When no node takes one more pod, no feasible placement is longer. */
  lemma FullIsMaximal(free: seq<Resources>, request: Resources, placed: seq<nat>, left: seq<Resources>,
                      spread: nat, other: seq<nat>)
    requires !AnyNegative(request) && LeftAfter(free, request, placed, left)
    requires forall v :: 0 <= v < |free| ==> !Fits(left[v], request)
    requires Feasible(free, request, spread, other)
    ensures |other| <= |placed|
  {
    forall v: nat ensures CountAt(other, v) <= CountAt(placed, v) {
      CountAbsent(other, v);
      if v < |free| && CountAt(other, v) > CountAt(placed, v) {
        FitsMore(free[v], request, CountAt(placed, v));
        FitsFewer(free[v], request, CountAt(placed, v) + 1, CountAt(other, v));
      }
    }
    CountBound(other, placed);
  }

  lemma DistinctFit(s: seq<nat>, used: set<nat>)
    requires forall i, j :: 0 <= i < j < |s| ==> s[i] != s[j]
    requires forall i :: 0 <= i < |s| ==> s[i] in used
    ensures |s| <= |used|
    decreases |s|
  {
    if s != [] {
      DistinctFit(s[1..], used - {s[0]});
    }
  }

  ghost function NodesOf(placed: seq<nat>): set<nat> {
    set v | v in placed
  }

  lemma {:induction false} NodesCount(placed: seq<nat>)
    ensures |NodesOf(placed)| <= |placed|
  {
    if placed == [] {
      assert NodesOf(placed) == {};
    } else {
      NodesCount(placed[1..]);
      assert NodesOf(placed) == {placed[0]} + NodesOf(placed[1..]);
    }
  }

  /** While pods are spread, a placement that cannot go on has used every node that takes any pod. */
  lemma SpreadIsMaximal(free: seq<Resources>, request: Resources, placed: seq<nat>, left: seq<Resources>,
                        spread: nat, other: seq<nat>)
    requires !AnyNegative(request) && LeftAfter(free, request, placed, left) && |placed| < spread
    requires forall v :: 0 <= v < |free| ==> v in placed || !Fits(left[v], request)
    requires Feasible(free, request, spread, other)
    ensures |other| <= |placed|
  {
    var used := NodesOf(placed);
    var m := if spread <= |other| then spread else |other|;
    forall i | 0 <= i < m ensures other[i] in used {
      var v := other[i];
      CountAbsent(other, v);
      CountAbsent(placed, v);
      FitsFewer(free[v], request, 1, CountAt(other, v));
      FitsMore(free[v], request, 0);
    }
    DistinctFit(other[..m], used);
    NodesCount(placed);
  }

  // --------------------------------------------------------------- first fit

  /** The first node that may take the next pod. */
  method FirstFit(left: seq<Resources>, request: Resources, taken: set<nat>, spreading: bool)
    returns (chosen: Option<nat>)
    ensures chosen.Some? ==> && chosen.value < |left| && Fits(left[chosen.value], request)
                             && (spreading ==> chosen.value !in taken)
    ensures chosen.None? ==> forall v :: 0 <= v < |left| ==> !Fits(left[v], request) || (spreading && v in taken)
  {
    for v := 0 to |left|
      invariant forall u :: 0 <= u < v ==> !Fits(left[u], request) || (spreading && u in taken)
    {
      if spreading && v in taken {
        continue;
      }
      if Fits(left[v], request) {
        return Some(v);
      }
    }
    return None;
  }

  ghost predicate SomePlacement(free: seq<Resources>, request: Resources, spread: nat, pods: nat) {
    exists placement :: |placement| == pods && Feasible(free, request, spread, placement)
  }

  lemma CannotGoOn(free: seq<Resources>, request: Resources, placed: seq<nat>, left: seq<Resources>,
                   spread: nat, pods: nat)
    requires !AnyNegative(request) && LeftAfter(free, request, placed, left) && |placed| < pods && spread <= pods
    requires forall v :: 0 <= v < |left| ==> !Fits(left[v], request) || (|placed| < spread && v in placed)
    ensures !SomePlacement(free, request, spread, pods)
  {
    forall other | Feasible(free, request, spread, other) ensures |other| <= |placed| {
      if |placed| < spread {
        SpreadIsMaximal(free, request, placed, left, spread, other);
      } else {
        FullIsMaximal(free, request, placed, left, spread, other);
      }
    }
  }

  /** First fit is exact: it succeeds if and only if some placement of all pods exists, and then
      returns one. */
  method PlacePods(free: seq<Resources>, request: Resources, spread: nat, pods: nat)
    returns (placement: Option<seq<nat>>)
    requires !AnyNegative(request) && spread <= pods
    ensures placement.Some? <==> SomePlacement(free, request, spread, pods)
    ensures placement.Some? ==> |placement.value| == pods && Feasible(free, request, spread, placement.value)
  {
    var left, placed: seq<nat>, taken: set<nat> := free, [], {};
    for index := 0 to pods
      invariant |placed| == index && Feasible(free, request, spread, placed) && LeftAfter(free, request, placed, left)
      invariant forall v :: v in taken ==> v in placed
      invariant forall i :: 0 <= i < index && i < spread ==> placed[i] in taken
    {
      var chosen := FirstFit(left, request, taken, index < spread);
      if chosen.None? {
        CannotGoOn(free, request, placed, left, spread, pods);
        return None;
      }
      PlaceOne(free, request, spread, placed, left, chosen.value);
      left := left[chosen.value := Minus(left[chosen.value], request)];
      placed := placed + [chosen.value];
      if index < spread {
        taken := taken + {chosen.value};
      }
    }
    return Some(placed);
  }

  // --------------------------------------------------------------- measuring

  /** A node; `eligible` if it is schedulable, ready, untainted and matches the placement. */
  datatype Node = Node(name: nat, eligible: bool, allocatable: Option<Resources>)

  datatype Pod = Pod(node: Option<nat>, terminal: bool, podLevel: bool, containers: seq<Resources>,
                     initContainers: seq<Resources>, overhead: Resources)

  function Sum(rs: seq<Resources>): Resources {
    if rs == [] then Nothing else Plus(Sum(rs[..|rs| - 1]), rs[|rs| - 1])
  }

  function PodRequest(pod: Pod): Resources {
    Plus(Plus(Sum(pod.containers), Sum(pod.initContainers)), pod.overhead).(pods := 1)
  }

  predicate Occupies(pod: Pod, name: nat) {
    !pod.terminal && pod.node == Some(name)
  }

  function UsedOn(pods: seq<Pod>, name: nat): Resources {
    if pods == [] then Nothing
    else
      var rest := UsedOn(pods[..|pods| - 1], name);
      if Occupies(pods[|pods| - 1], name) then Plus(rest, PodRequest(pods[|pods| - 1])) else rest
  }

  function Eligible(nodes: seq<Node>): seq<Node> {
    if nodes == [] then []
    else
      var rest := Eligible(nodes[..|nodes| - 1]);
      if nodes[|nodes| - 1].eligible then rest + [nodes[|nodes| - 1]] else rest
  }

  predicate DistinctNames(nodes: seq<Node>) {
    forall i, j :: 0 <= i < j < |nodes| ==> nodes[i].name != nodes[j].name
  }

  predicate NodesKnown(nodes: seq<Node>) {
    forall i :: 0 <= i < |nodes| ==> nodes[i].allocatable.Some?
  }

  predicate IsName(nodes: seq<Node>, name: nat) {
    exists i :: 0 <= i < |nodes| && nodes[i].name == name
  }

  /** A running pod makes the free capacity unknown if it is not assigned yet, or if it is on one of
      the nodes and uses pod-level resources. */
  predicate PodKnown(nodes: seq<Node>, pod: Pod) {
    pod.terminal || (pod.node.Some? && (IsName(nodes, pod.node.value) ==> !pod.podLevel))
  }

  predicate PodsKnown(nodes: seq<Node>, pods: seq<Pod>) {
    forall i :: 0 <= i < |pods| ==> PodKnown(nodes, pods[i])
  }

  function FreeOn(node: Node, pods: seq<Pod>): Resources
    requires node.allocatable.Some?
  {
    Minus(node.allocatable.value, UsedOn(pods, node.name))
  }

  function FreeAll(nodes: seq<Node>, pods: seq<Pod>): seq<Resources>
    requires NodesKnown(nodes)
  {
    seq(|nodes|, i requires 0 <= i < |nodes| => FreeOn(nodes[i], pods))
  }

  ghost predicate Tracks(free: map<nat, Resources>, nodes: seq<Node>, pods: seq<Pod>)
    requires NodesKnown(nodes)
  {
    && (forall name :: name in free <==> IsName(nodes, name))
    && (forall i :: 0 <= i < |nodes| ==> free[nodes[i].name] == FreeOn(nodes[i], pods))
  }

  lemma EligibleOneMore(nodes: seq<Node>, n: nat)
    requires n < |nodes|
    ensures Eligible(nodes[..n + 1]) ==
              if nodes[n].eligible then Eligible(nodes[..n]) + [nodes[n]] else Eligible(nodes[..n])
  {
    assert nodes[..n + 1][..n] == nodes[..n];
  }

  lemma {:induction false} EligibleAmong(nodes: seq<Node>)
    ensures forall e :: e in Eligible(nodes) <==> e in nodes && e.eligible
    ensures DistinctNames(nodes) ==> DistinctNames(Eligible(nodes))
  {
    if nodes != [] {
      EligibleAmong(nodes[..|nodes| - 1]);
      assert nodes == nodes[..|nodes| - 1] + [nodes[|nodes| - 1]];
      var rest := Eligible(nodes[..|nodes| - 1]);
      forall i | 0 <= i < |rest| ensures rest[i] in nodes[..|nodes| - 1] {
        assert rest[i] in rest;
      }
    }
  }

  /** The nodes that can be used, or nothing if the capacity of one of them is unknown. */
  method ListNodes(nodes: seq<Node>) returns (usable: Option<seq<Node>>)
    ensures usable.Some? <==> NodesKnown(Eligible(nodes))
    ensures usable.Some? ==> usable.value == Eligible(nodes)
  {
    var found: seq<Node> := [];
    for n := 0 to |nodes|
      invariant found == Eligible(nodes[..n]) && NodesKnown(found)
    {
      EligibleOneMore(nodes, n);
      if !nodes[n].eligible {
        continue;
      }
      if nodes[n].allocatable.None? {
        EligibleAmong(nodes);
        assert nodes[n] in nodes && nodes[n] in Eligible(nodes);
        return None;
      }
      found := found + [nodes[n]];
    }
    assert nodes[..|nodes|] == nodes;
    return Some(found);
  }

  lemma UsedOneMore(pods: seq<Pod>, n: nat, name: nat)
    requires n < |pods|
    ensures UsedOn(pods[..n + 1], name) ==
              if Occupies(pods[n], name) then Plus(UsedOn(pods[..n], name), PodRequest(pods[n]))
              else UsedOn(pods[..n], name)
  {
    assert pods[..n + 1][..n] == pods[..n];
  }

  lemma TracksOneMore(free: map<nat, Resources>, nodes: seq<Node>, pods: seq<Pod>, n: nat, name: nat)
    requires NodesKnown(nodes) && n < |pods| && Tracks(free, nodes, pods[..n])
    requires Occupies(pods[n], name) && name in free
    ensures Tracks(free[name := Minus(free[name], PodRequest(pods[n]))], nodes, pods[..n + 1])
  {
    forall i | 0 <= i < |nodes|
      ensures free[name := Minus(free[name], PodRequest(pods[n]))][nodes[i].name] == FreeOn(nodes[i], pods[..n + 1])
    {
      UsedOneMore(pods, n, nodes[i].name);
    }
  }

  lemma TracksSame(free: map<nat, Resources>, nodes: seq<Node>, pods: seq<Pod>, n: nat)
    requires NodesKnown(nodes) && n < |pods| && Tracks(free, nodes, pods[..n])
    requires forall name :: name in free ==> !Occupies(pods[n], name)
    ensures Tracks(free, nodes, pods[..n + 1])
  {
    forall i | 0 <= i < |nodes| ensures free[nodes[i].name] == FreeOn(nodes[i], pods[..n + 1]) {
      UsedOneMore(pods, n, nodes[i].name);
    }
  }

  lemma IsNameOneMore(nodes: seq<Node>, n: nat, name: nat)
    requires n < |nodes|
    ensures IsName(nodes[..n + 1], name) <==> IsName(nodes[..n], name) || name == nodes[n].name
  {
    if IsName(nodes[..n], name) {
      var i :| 0 <= i < n && nodes[i].name == name;
      assert nodes[..n + 1][i].name == name;
    }
    assert nodes[..n + 1][n] == nodes[n];
  }

  /** Subtracts what the running pods request from what the nodes have. */
  method SubtractPods(nodes: seq<Node>, pods: seq<Pod>) returns (free: Option<seq<Resources>>)
    requires NodesKnown(nodes) && DistinctNames(nodes)
    ensures free.Some? <==> PodsKnown(nodes, pods)
    ensures free.Some? <==>
            forall i :: 0 <= i < |pods| && !pods[i].terminal ==>
              && pods[i].node.Some?
              && !(pods[i].podLevel && exists j :: 0 <= j < |nodes| && nodes[j].name == pods[i].node.value)
    ensures free.Some? ==> free.value == FreeAll(nodes, pods)
  {
    var left: map<nat, Resources> := map[];
    for n := 0 to |nodes|
      invariant forall name: nat :: name in left <==> IsName(nodes[..n], name)
      invariant forall i :: 0 <= i < n ==> left[nodes[i].name] == nodes[i].allocatable.value
    {
      left := left[nodes[n].name := nodes[n].allocatable.value];
      forall name: nat ensures name in left <==> IsName(nodes[..n + 1], name) {
        IsNameOneMore(nodes, n, name);
      }
    }
    assert nodes[..|nodes|] == nodes && pods[..0] == [];
    assert Tracks(left, nodes, pods[..0]);
    for n := 0 to |pods|
      invariant Tracks(left, nodes, pods[..n])
      invariant forall i :: 0 <= i < n ==> PodKnown(nodes, pods[i])
    {
      var pod := pods[n];
      if pod.terminal {
        TracksSame(left, nodes, pods, n);
        continue;
      }
      if pod.node.None? {
        return None;
      }
      if pod.node.value in left {
        if pod.podLevel {
          return None;
        }
        TracksOneMore(left, nodes, pods, n, pod.node.value);
        left := left[pod.node.value := Minus(left[pod.node.value], PodRequest(pod))];
      } else {
        TracksSame(left, nodes, pods, n);
      }
    }
    assert pods[..|pods|] == pods;
    return Some(seq(|nodes|, i requires 0 <= i < |nodes| => left[nodes[i].name]));
  }

  // --------------------------------------------------------------- preflight

  function SpreadOf(h: Hosting): nat {
    if h.mode.Resilient? && h.maxReplicas >= 0 then h.maxReplicas else 0
  }

  ghost function NatsTo(n: nat): (r: set<nat>)
    ensures |r| == n && forall v: nat :: v in r <==> v < n
  {
    if n == 0 then {} else NatsTo(n - 1) + {n - 1}
  }

  lemma SpreadNeedsNodes(placement: seq<nat>, n: nat, spread: nat)
    requires Spread(placement, spread) && forall i :: 0 <= i < |placement| ==> placement[i] < n
    ensures |placement| <= n || spread <= n
  {
    DistinctFit(placement[..if spread <= |placement| then spread else |placement|], NatsTo(n));
  }

  lemma TooFewNodes(free: seq<Resources>, request: Resources, spread: nat, pods: nat)
    requires pods > 0 && (free == [] || (|free| < spread <= pods))
    ensures !SomePlacement(free, request, spread, pods)
  {
    forall other | Feasible(free, request, spread, other)
      ensures |other| <= |free| || (spread <= |free| && free != [])
    {
      SpreadNeedsNodes(other, |free|, spread);
      SpreadNeedsNodes(other, |free|, 1);
    }
  }

  /** Admission is exact: it accepts if and only if the capacity of every eligible node is known and the
      reserved pods can be placed with no receiving node over what it has left, the resilient replicas
      on different nodes. */
  method PreflightHostingCapacity(nodes: seq<Node>, pods: seq<Pod>, resources: Resources, h: Hosting) returns (ok: bool)
    requires Admitted(h) && DistinctNames(nodes)
    ensures ok <==>
      && !AnyNegative(resources.(pods := 1))
      && NodesKnown(Eligible(nodes)) && PodsKnown(Eligible(nodes), pods)
      && SomePlacement(FreeAll(Eligible(nodes), pods), resources.(pods := 1), SpreadOf(h), ReservedPods(h))
  {
    var requested := resources.(pods := 1);
    if AnyNegative(requested) {
      return false;
    }
    var usable := ListNodes(nodes);
    if usable.None? {
      return false;
    }
    EligibleAmong(nodes);
    if usable.value == [] {
      if PodsKnown(Eligible(nodes), pods) {
        TooFewNodes(FreeAll(Eligible(nodes), pods), requested, SpreadOf(h), ReservedPods(h));
      }
      return false;
    }
    var free := SubtractPods(usable.value, pods);
    if free.None? {
      return false;
    }
    if h.mode.Resilient? && h.maxReplicas > |usable.value| {
      TooFewNodes(free.value, requested, SpreadOf(h), ReservedPods(h));
      return false;
    }
    var placement := PlacePods(free.value, requested, SpreadOf(h), ReservedPods(h));
    return placement.Some?;
  }

  // ------------------------------------------------------- what counts as used

  /** A node without pods has everything it says it has. */
  lemma FreeWithoutPods(node: Node)
    requires node.allocatable.Some?
    ensures FreeOn(node, []) == node.allocatable.value
  {
  }

  /** Every running pod takes exactly one pod slot of its node, whatever it requests; a finished pod, or one
      elsewhere, takes nothing. */
  lemma {:induction false} PodTakesSlot(node: Node, pods: seq<Pod>, pod: Pod)
    requires node.allocatable.Some?
    ensures if !pod.terminal && pod.node == Some(node.name)
            then FreeOn(node, pods + [pod]).pods == FreeOn(node, pods).pods - 1
            else FreeOn(node, pods + [pod]) == FreeOn(node, pods)
  {
    FreeWithLast(node, pods, pod, PodRequest(pod));
  }

  /** A running pod that requests nothing takes nothing but its slot. */
  lemma {:induction false} BarePodTakesNoMore(node: Node, pods: seq<Pod>, pod: Pod)
    requires node.allocatable.Some? && |pod.containers| == 0 && |pod.initContainers| == 0 && pod.overhead == Nothing
    ensures Compute(FreeOn(node, pods + [pod])) == Compute(FreeOn(node, pods))
  {
    BareRequest(pod);
    NothingTaken(node, pods, pod);
  }

  lemma {:induction false} NothingTaken(node: Node, pods: seq<Pod>, pod: Pod)
    requires node.allocatable.Some? && Compute(PodRequest(pod)) == Nothing
    ensures Compute(FreeOn(node, pods + [pod])) == Compute(FreeOn(node, pods))
  {
    FreeWithLast(node, pods, pod, PodRequest(pod));
  }

  lemma {:induction false} FreeWithLast(node: Node, pods: seq<Pod>, pod: Pod, request: Resources)
    requires node.allocatable.Some? && PodRequest(pod) == request
    ensures FreeOn(node, pods + [pod]) ==
              if !pod.terminal && pod.node == Some(node.name) then Minus(FreeOn(node, pods), request)
              else FreeOn(node, pods)
  {
    UsedWithLast(pods, pod, node.name);
  }

  lemma {:induction false} BareRequest(pod: Pod)
    requires |pod.containers| == 0 && |pod.initContainers| == 0 && pod.overhead == Nothing
    ensures Compute(PodRequest(pod)) == Nothing
  {
  }

  lemma {:induction false} UsedWithLast(pods: seq<Pod>, pod: Pod, name: nat)
    ensures UsedOn(pods + [pod], name) ==
              if Occupies(pod, name) then Plus(UsedOn(pods, name), PodRequest(pod)) else UsedOn(pods, name)
  {
    assert (pods + [pod])[..|pods|] == pods;
  }

  /** The part of a request that a container can name: everything but pod slots. */
  function Compute(v: Resources): Resources {
    Resources(v.cpu, v.memory, v.ephemeral, 0)
  }

  lemma {:induction false} SumOneMore(rs: seq<Resources>, v: Resources)
    ensures Sum(rs + [v]) == Plus(Sum(rs), v)
  {
    assert (rs + [v])[..|rs|] == rs;
  }

  /** `more` is `pod` with one more vector in a container, in an init container, or on the overhead. */
  predicate AddsTo(pod: Pod, more: Pod, v: Resources) {
    || more == pod.(containers := pod.containers + [v])
    || more == pod.(initContainers := pod.initContainers + [v])
    || more == pod.(overhead := Plus(pod.overhead, v))
  }

  lemma {:induction false} RequestAdds(pod: Pod, more: Pod, v: Resources)
    requires AddsTo(pod, more, v)
    ensures PodRequest(more) == Plus(PodRequest(pod), Compute(v))
    ensures more.terminal == pod.terminal && more.node == pod.node
  {
    if more == pod.(containers := pod.containers + [v]) {
      SumOneMore(pod.containers, v);
    } else if more == pod.(initContainers := pod.initContainers + [v]) {
      SumOneMore(pod.initContainers, v);
    }
  }

  /** Whatever a running pod asks for, in a container, in an init container or as overhead, is missing from its
      node, to the last unit, and from no other node. */
  lemma {:induction false} RequestLowersFree(node: Node, pods: seq<Pod>, i: nat, more: Pod, v: Resources)
    requires node.allocatable.Some? && i < |pods| && AddsTo(pods[i], more, v)
    ensures FreeOn(node, pods[i := more]) ==
              if !pods[i].terminal && pods[i].node == Some(node.name) then Minus(FreeOn(node, pods), Compute(v))
              else FreeOn(node, pods)
    decreases |pods|
  {
    var front, last := pods[..|pods| - 1], pods[|pods| - 1];
    assert pods == front + [last];
    if i == |front| {
      assert pods[i := more] == front + [more];
      LastLowersFree(node, front, last, more, v);
    } else {
      RequestLowersFree(node, front, i, more, v);
      assert pods[i := more] == front[i := more] + [last];
      FreeWithLast(node, front, last, PodRequest(last));
      FreeWithLast(node, front[i := more], last, PodRequest(last));
    }
  }

  lemma {:induction false} LastLowersFree(node: Node, front: seq<Pod>, last: Pod, more: Pod, v: Resources)
    requires node.allocatable.Some? && AddsTo(last, more, v)
    ensures FreeOn(node, front + [more]) ==
              if !last.terminal && last.node == Some(node.name) then Minus(FreeOn(node, front + [last]), Compute(v))
              else FreeOn(node, front + [last])
  {
    RequestAdds(last, more, v);
    FreeDiffers(node, front, last, more, v);
  }

  lemma {:induction false} FreeDiffers(node: Node, front: seq<Pod>, last: Pod, more: Pod, v: Resources)
    requires node.allocatable.Some? && PodRequest(more) == Plus(PodRequest(last), Compute(v))
    requires more.terminal == last.terminal && more.node == last.node
    ensures FreeOn(node, front + [more]) ==
              if !last.terminal && last.node == Some(node.name) then Minus(FreeOn(node, front + [last]), Compute(v))
              else FreeOn(node, front + [last])
  {
    FreeWithLast(node, front, last, PodRequest(last));
    FreeWithLast(node, front, more, PodRequest(more));
  }

  // --------------------------------------------------- what acceptance means

  /** The pods `node` would hold beside what runs on it stay within what it has, resource by resource. */
  predicate Within(node: Node, pods: seq<Pod>, request: Resources, k: nat)
    requires node.allocatable.Some?
  {
    var has, used := node.allocatable.value, UsedOn(pods, node.name);
    && used.cpu + k * request.cpu <= has.cpu && used.memory + k * request.memory <= has.memory
    && used.ephemeral + k * request.ephemeral <= has.ephemeral && used.pods + k * request.pods <= has.pods
  }

  /** A placement is feasible exactly when every node that receives pods stays within its allocatable CPU, memory,
      ephemeral storage and pod count, and the pods to be spread are on different nodes. */
  lemma FeasibleMeans(nodes: seq<Node>, pods: seq<Pod>, request: Resources, spread: nat, placement: seq<nat>)
    requires NodesKnown(nodes)
    ensures Feasible(FreeAll(nodes, pods), request, spread, placement) <==>
            && (forall i :: 0 <= i < |placement| ==> placement[i] < |nodes|)
            && (forall v :: 0 <= v < |nodes| && v in placement ==>
                  Within(nodes[v], pods, request, multiset(placement)[v]))
            && (forall i, j :: 0 <= i < j < |placement| && j < spread ==> placement[i] != placement[j])
  {
    var free := FreeAll(nodes, pods);
    forall v | 0 <= v < |nodes| && v in placement
      ensures CountAt(placement, v) > 0
      ensures Fits(free[v], Times(CountAt(placement, v), request)) <==>
              Within(nodes[v], pods, request, multiset(placement)[v])
    {
      CountAbsent(placement, v);
      assert free[v] == FreeOn(nodes[v], pods);
    }
  }

  /** In the resilient mode the replicas up to the ceiling must be on different nodes; in the others nothing
      needs to be. */
  lemma SpreadMeans(free: seq<Resources>, request: Resources, h: Hosting, placement: seq<nat>)
    requires Admitted(h)
    ensures Feasible(free, request, SpreadOf(h), placement) <==>
            && Feasible(free, request, 0, placement)
            && (h.mode.Resilient? ==>
                  forall i, j :: 0 <= i < j < |placement| && j < h.maxReplicas ==> placement[i] != placement[j])
  {
  }
}
