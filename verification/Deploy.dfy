/** The topological order of the enabled services in which a container plan is deployed. Containers
    are known by their service name, which stands for the container name derived from it. */
module Deploy {
  import opened Wrappers
  import opened Order
  import opened Graphs
  import opened ContainerPlan

  // ----- topological order -----

  function EnabledNames(services: seq<Service>): set<string> {
    set s | s in services && s.enabled :: s.name
  }

  /** `depends_on` among the enabled services; the order looks at nothing else. */
  function OrderGraph(services: seq<Service>): Graph
    requires UniqueNames(services)
  {
    map s | s in services && s.enabled :: s.name := s.dependsOn * EnabledNames(services)
  }

  function Unplaced(deps: set<string>, ordered: seq<string>): set<string> {
    set d | d in deps && d !in ordered
  }

  /** What is still to be placed, each with the dependencies that are still to be placed. */
  ghost predicate Remaining(g: Graph, ordered: seq<string>, pending: Graph) {
    && Distinct(ordered) && Respects(g, ordered)
    && (forall n :: n in ordered ==> n in g)
    && (forall n :: n in pending <==> n in g && n !in ordered)
    && (forall n :: n in pending ==> n in g && pending[n] == Unplaced(g[n], ordered))
  }

  /** `topologically_sorted_services`; None stands for the `ValueError` on a cycle. */
  method TopologicallySorted(services: seq<Service>) returns (order: Option<seq<string>>)
    requires UniqueNames(services)
    ensures order.Some? ==> Distinct(order.value) && forall n :: n in order.value <==> n in EnabledNames(services)
    ensures order.Some? ==> Respects(OrderGraph(services), order.value)
    ensures order.None? <==> Cyclic(OrderGraph(services))
    ensures order.Some? ==> forall s, t :: s in services && s.enabled && t in services && t.enabled && t.name in s.dependsOn ==>
      exists i, j :: 0 <= i < j < |order.value| && order.value[i] == t.name && order.value[j] == s.name
    ensures order.None? <==> exists chain :: IsLoop(services, chain)
  {
    var g := OrderGraph(services);
    assert g.Keys == EnabledNames(services) && Closed(g);
    order := Kahn(g);
    CyclicIff(services);
    if order.Some? { DependenciesFirst(services, order.value); }
    hide *;
  }

  /** Enabled services that each list the next, and the last is the first again. */
  ghost predicate IsLoop(services: seq<Service>, chain: seq<Service>) {
    && |chain| > 1 && chain[0] == chain[|chain| - 1]
    && (forall k :: 0 <= k < |chain| ==> chain[k] in services && chain[k].enabled)
    && forall k :: 0 <= k < |chain| - 1 ==> chain[k + 1].name in chain[k].dependsOn
  }

  lemma OrderEdge(services: seq<Service>, s: Service, t: Service)
    requires UniqueNames(services) && s in services && s.enabled && t in services && t.enabled
    ensures s.name in OrderGraph(services) && t.name in OrderGraph(services)
    ensures t.name in OrderGraph(services)[s.name] <==> t.name in s.dependsOn
  {
    assert t.name in EnabledNames(services);
    hide UniqueNames, EnabledNames;
  }

  lemma EnabledNamed(services: seq<Service>, n: string) returns (s: Service)
    requires UniqueNames(services) && n in OrderGraph(services)
    ensures s in services && s.enabled && s.name == n
  {
    s :| s in services && s.enabled && s.name == n;
  }

  lemma OrderWalk(services: seq<Service>, walk: seq<string>) returns (chain: seq<Service>)
    requires UniqueNames(services) && IsWalk(OrderGraph(services), walk)
    ensures |chain| == |walk| && forall k :: 0 <= k < |walk| ==> chain[k].name == walk[k] && chain[k] in services && chain[k].enabled
    ensures forall k :: 0 <= k < |chain| - 1 ==> chain[k + 1].name in chain[k].dependsOn
    decreases |walk|
  {
    var s := EnabledNamed(services, walk[0]);
    if |walk| == 1 {
      return [s];
    }
    assert walk[1] in OrderGraph(services)[walk[0]];
    var rest := OrderWalk(services, walk[1..]);
    OrderEdge(services, s, rest[0]);
    hide OrderGraph, UniqueNames;
    chain := [s] + rest;
    forall k | 0 <= k < |walk| ensures chain[k].name == walk[k] && chain[k] in services && chain[k].enabled {
      if k > 0 { assert rest[k - 1].name == walk[1..][k - 1]; }
    }
    forall k | 0 <= k < |chain| - 1 ensures chain[k + 1].name in chain[k].dependsOn {
      if k > 0 { assert rest[k - 1 + 1].name in rest[k - 1].dependsOn; }
    }
  }

  lemma CyclicIff(services: seq<Service>)
    requires UniqueNames(services)
    ensures Cyclic(OrderGraph(services)) <==> exists chain :: IsLoop(services, chain)
  {
    var g := OrderGraph(services);
    if walk :| IsCycle(g, walk) {
      var chain := OrderWalk(services, walk);
      SameService(services, chain[0], chain[|chain| - 1]);
      assert IsLoop(services, chain);
    }
    if chain :| IsLoop(services, chain) {
      LoopIsCycle(services, chain);
    }
    hide OrderGraph, UniqueNames;
  }

  lemma LoopIsCycle(services: seq<Service>, chain: seq<Service>)
    requires UniqueNames(services) && IsLoop(services, chain)
    ensures IsCycle(OrderGraph(services), NamesAlong(chain))
  {
    hide OrderGraph, UniqueNames;
    forall k | 0 <= k < |chain| ensures chain[k].name in OrderGraph(services) {
      OrderEdge(services, chain[k], chain[k]);
    }
    forall k | 0 <= k < |chain| - 1 ensures chain[k + 1].name in OrderGraph(services)[chain[k].name] {
      OrderEdge(services, chain[k], chain[k + 1]);
    }
  }

  lemma DependenciesFirst(services: seq<Service>, order: seq<string>)
    requires UniqueNames(services) && Respects(OrderGraph(services), order)
    requires forall n :: n in order <==> n in EnabledNames(services)
    ensures forall s, t :: s in services && s.enabled && t in services && t.enabled && t.name in s.dependsOn ==>
      exists i, j :: 0 <= i < j < |order| && order[i] == t.name && order[j] == s.name
  {
    forall s, t | s in services && s.enabled && t in services && t.enabled && t.name in s.dependsOn
      ensures exists i, j :: 0 <= i < j < |order| && order[i] == t.name && order[j] == s.name
    {
      OrderEdge(services, s, t);
      assert s.name in EnabledNames(services);
      hide OrderGraph, UniqueNames, EnabledNames;
      var j :| 0 <= j < |order| && order[j] == s.name;
      assert t.name in order[..j];
      var i :| 0 <= i < j && order[i] == t.name;
    }
  }

  method Kahn(g: Graph) returns (order: Option<seq<string>>)
    requires Closed(g)
    ensures order.Some? ==> Distinct(order.value) && Respects(g, order.value) && forall n :: n in order.value <==> n in g
    ensures order.None? <==> Cyclic(g)
  {
    var pending := g;
    var ordered: seq<string> := [];
    NothingPlaced(g);
    while pending != map[]
      invariant Remaining(g, ordered, pending)
      decreases |pending.Keys|
    {
      var ready := Ready(pending);
      if ready == {} {
        Stuck(g, ordered, pending);
        return None;
      }
      AppendReady(g, ordered, pending, ready);
      ordered := ordered + Sorted(ready);
      pending := Without(pending, ready);
    }
    AllPlaced(g, ordered);
    return Some(ordered);
  }

  function Ready(pending: Graph): (ready: set<string>)
    ensures forall n :: n in ready <==> n in pending && pending[n] == {}
  {
    set n | n in pending && pending[n] == {}
  }

  lemma AllPlaced(g: Graph, ordered: seq<string>)
    requires Remaining(g, ordered, map[])
    ensures !Cyclic(g) && forall n :: n in ordered <==> n in g
  {
    forall n | n in g ensures n in ordered {
      var nothing: Graph := map[];
      assert n !in nothing;
    }
    RespectedIsAcyclic(g, ordered);
  }

  /** The placed names are popped, and dropped from every remaining dependency set. */
  function Without(pending: Graph, ready: set<string>): (rest: Graph)
    ensures rest.Keys == pending.Keys - ready
    ensures forall n :: n in rest ==> rest[n] == pending[n] - ready
  {
    map n | n in pending && n !in ready :: pending[n] - ready
  }

  lemma NothingPlaced(g: Graph)
    ensures Remaining(g, [], g)
  {
    forall n | n in g ensures g[n] == Unplaced(g[n], []) {}
  }

  lemma Stuck(g: Graph, ordered: seq<string>, pending: Graph)
    requires Closed(g) && Remaining(g, ordered, pending) && pending != map[] && Ready(pending) == {}
    ensures Cyclic(g)
  {
    forall m | m in pending.Keys ensures m in g && g[m] * pending.Keys != {} {
      assert m !in Ready(pending);
      WaitsInside(g, ordered, pending, m);
    }
    assert pending.Keys != {};
    WaitingIsCyclic(g, pending.Keys);
  }

  lemma WaitingIsCyclic(g: Graph, waiting: set<string>)
    requires waiting != {} && forall m :: m in waiting ==> m in g && g[m] * waiting != {}
    ensures Cyclic(g)
  {
    var n :| n in waiting;
    StuckIsCyclic(g, waiting, [n]);
  }

  lemma WaitsInside(g: Graph, ordered: seq<string>, pending: Graph, m: string)
    requires Closed(g) && Remaining(g, ordered, pending) && m in pending && pending[m] != {}
    ensures g[m] * pending.Keys != {}
  {
    assert pending[m] == Unplaced(g[m], ordered);
    var d :| d in Unplaced(g[m], ordered);
    assert d in g[m] * pending.Keys;
  }

  lemma AppendReady(g: Graph, ordered: seq<string>, pending: Graph, ready: set<string>)
    requires Remaining(g, ordered, pending) && ready <= pending.Keys && forall n :: n in ready ==> pending[n] == {}
    ensures Remaining(g, ordered + Sorted(ready), Without(pending, ready))
  {
    var batch := Sorted(ready);
    forall n, d | n in batch && n in g && d in g[n] ensures d in ordered {
      assert pending[n] == Unplaced(g[n], ordered) == {};
      assert d !in Unplaced(g[n], ordered);
    }
    AppendDistinct(ordered, batch);
    AppendRespects(g, ordered, batch);
    forall n | n in Without(pending, ready) ensures pending[n] - ready == Unplaced(g[n], ordered + batch) {
      PlaceBatch(g[n], ordered, batch, ready);
    }
  }

  lemma PlaceBatch(deps: set<string>, ordered: seq<string>, batch: seq<string>, ready: set<string>)
    requires forall n :: n in batch <==> n in ready
    ensures Unplaced(deps, ordered) - ready == Unplaced(deps, ordered + batch)
  {
  }

  lemma AppendDistinct(ordered: seq<string>, batch: seq<string>)
    requires Distinct(ordered) && Ascending(batch) && forall n :: n in batch ==> n !in ordered
    ensures Distinct(ordered + batch)
  {
    var all := ordered + batch;
    forall i, j | 0 <= i < j < |all| ensures all[i] != all[j] {
      if |ordered| <= i {
        Total(all[i], all[i]);
      } else if |ordered| <= j {
        assert all[i] in ordered && all[j] in batch;
      }
    }
  }

  lemma AppendRespects(g: Graph, ordered: seq<string>, batch: seq<string>)
    requires Respects(g, ordered) && forall n, d :: n in batch && n in g && d in g[n] ==> d in ordered
    ensures Respects(g, ordered + batch)
  {
    var all := ordered + batch;
    forall k, d | 0 <= k < |all| && all[k] in g && d in g[all[k]] ensures d in all[..k] {
      if k < |ordered| {
        assert all[..k] == ordered[..k];
      } else {
        assert all[k] in batch && d in ordered;
        assert all[..k] == ordered + batch[..k - |ordered|];
      }
    }
  }
}
