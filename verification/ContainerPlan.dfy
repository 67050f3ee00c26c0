/** The container plan: a decision per enabled service from what was observed, then the
    propagation of (re)creation to everything that depends on it. */
module ContainerPlan {
  import opened Wrappers
  import opened Graphs

  datatype Action = Create | Recreate | Keep

  /** `network_mode`: unset, `service:<target>`, or anything else. */
  datatype Network = Bridge | Share(target: string) | Mode(text: string)

  /** `rest` stands for everything else that goes into the container definition. */
  datatype Service = Service(name: string, enabled: bool, dependsOn: set<string>, network: Network, rest: string)

  /** The payload handed to the engine; its hash is the identity of a container. */
  datatype Definition = Definition(network: Network, rest: string)

  datatype Seen = Seen(made: Definition, running: bool, healthy: Option<bool>)

  /** One managed container of the inventory. */
  datatype Container = Container(name: string, seen: Seen)

  type Decisions = map<string, Action>

  function Define(s: Service): Definition {
    Definition(s.network, s.rest)
  }

  /** `_decide_action`, with definitions in place of their hashes. */
  function Decide(desired: Definition, existing: Option<Seen>): Action {
    match existing
    case None => Create
    case Some(seen) =>
      if seen.made != desired || !seen.running || seen.healthy == Some(false) then Recreate else Keep
  }

  type Inventory = map<string, Seen>

  function Find(seen: Inventory, name: string): Option<Seen> {
    if name in seen then Some(seen[name]) else None
  }

  /** A dictionary comprehension: of two containers of one name the last counts. */
  function ByName(observed: seq<Container>): Inventory {
    if observed == [] then map[]
    else
      var last := observed[|observed| - 1];
      ByName(observed[..|observed| - 1])[last.name := last.seen]
  }

  function Enabled(services: seq<Service>): (r: seq<Service>)
    ensures forall s :: s in r <==> s in services && s.enabled
  {
    if services == [] then []
    else
      var last := services[|services| - 1];
      assert services == services[..|services| - 1] + [last];
      Enabled(services[..|services| - 1]) + if last.enabled then [last] else []
  }

  /** The decisions before propagation. */
  function Decided(services: seq<Service>, seen: Inventory): Decisions
    requires UniqueNames(services)
  {
    map s | s in services :: s.name := Decide(Define(s), Find(seen, s.name))
  }

  /** Observed containers that no enabled service claims, in the order of the inventory. */
  function Undesired(observed: seq<Container>, names: set<string>): (r: seq<string>)
    ensures forall n :: n in r <==> n !in names && exists c :: c in observed && c.name == n
  {
    if observed == [] then []
    else
      var last := observed[|observed| - 1];
      assert observed == observed[..|observed| - 1] + [last];
      Undesired(observed[..|observed| - 1], names) + if last.name in names then [] else [last.name]
  }

  predicate Rebuilt(a: Action) {
    a.Create? || a.Recreate?
  }

  /** `_dependencies`: only names that have a decision, that is, enabled services. */
  function Dependencies(s: Service, names: set<string>): set<string> {
    s.dependsOn * names + if s.network.Share? then {s.network.target} * names else {}
  }

  ghost predicate UniqueNames(services: seq<Service>) {
    forall i, j :: 0 <= i < j < |services| ==> services[i].name != services[j].name
  }

  function Names(services: seq<Service>): set<string> {
    set s | s in services :: s.name
  }

  /** The edges along which (re)creation spreads. */
  ghost function Edges(services: seq<Service>): Graph
    requires UniqueNames(services)
  {
    map s | s in services :: s.name := Dependencies(s, Names(services))
  }

  /** A walk along dependencies from `name` to a service that was to be (re)created to begin with. */
  ghost predicate ReachesRebuilt(g: Graph, start: Decisions, walk: seq<string>, name: string) {
    IsWalk(g, walk) && walk[0] == name && walk[|walk| - 1] in start && Rebuilt(start[walk[|walk| - 1]])
  }

  ghost predicate MustRebuild(g: Graph, start: Decisions, name: string) {
    exists walk :: ReachesRebuilt(g, start, walk, name)
  }

  /** What propagation should decide, for any graph, cyclic ones included. */
  ghost function Propagated(services: seq<Service>, start: Decisions): Decisions
    requires UniqueNames(services)
  {
    map n | n in start :: if start[n].Keep? && MustRebuild(Edges(services), start, n) then Recreate else start[n]
  }

  /** The order of the services plays no role. */
  lemma PropagationIgnoresOrder(a: seq<Service>, b: seq<Service>, start: Decisions)
    requires UniqueNames(a) && UniqueNames(b) && forall s :: s in a <==> s in b
    ensures Propagated(a, start) == Propagated(b, start)
  {
    assert Names(a) == Names(b);
    assert Edges(a) == Edges(b);
  }

  ghost function Kept(d: Decisions): set<string> {
    set n | n in d && d[n].Keep?
  }

  /** Only upgrades from keep to recreate, and only where a walk justifies them. */
  ghost predicate Justified(g: Graph, start: Decisions, d: Decisions) {
    && d.Keys == start.Keys
    && forall n :: n in d ==> d[n] == start[n] || (start[n].Keep? && d[n].Recreate? && MustRebuild(g, start, n))
  }

  ghost predicate IsGraphOf(services: seq<Service>, g: Graph) {
    && g.Keys == Names(services)
    && forall s :: s in services ==> s.name in g && g[s.name] == Dependencies(s, g.Keys)
  }

  /** A kept service with a rebuilt dependency may be upgraded. */
  lemma Upgrade(g: Graph, start: Decisions, d: Decisions, name: string, dep: string)
    requires Justified(g, start, d) && name in g && name in d && d[name].Keep?
    requires dep in g[name] && dep in d && dep in g && Rebuilt(d[dep])
    ensures Justified(g, start, d[name := Recreate])
    ensures Kept(d[name := Recreate]) == Kept(d) - {name} && name in Kept(d)
  {
    if d[dep] == start[dep] {
      assert ReachesRebuilt(g, start, [name, dep], name);
    } else {
      var walk :| ReachesRebuilt(g, start, walk, dep);
      assert ReachesRebuilt(g, start, [name] + walk, name);
    }
  }

  ghost predicate Settled(g: Graph, d: Decisions, name: string) {
    name in d && name in g && (d[name].Keep? ==> forall dep :: dep in g[name] && dep in d ==> !Rebuilt(d[dep]))
  }

  /** At a fixpoint nothing kept can reach a rebuilt service. */
  lemma {:induction false} FixpointCovers(g: Graph, start: Decisions, d: Decisions, walk: seq<string>, name: string)
    requires Justified(g, start, d) && g.Keys == d.Keys && ReachesRebuilt(g, start, walk, name)
    requires forall n :: n in d ==> Settled(g, d, n)
    ensures name in d && Rebuilt(d[name])
    decreases |walk|
  {
    if |walk| > 1 {
      FixpointCovers(g, start, d, walk[1..], walk[1]);
      assert walk[1] in g[name];
    }
  }

  lemma FixpointIsPropagated(services: seq<Service>, start: Decisions, d: Decisions)
    requires UniqueNames(services) && start.Keys == Names(services)
    requires Justified(Edges(services), start, d) && forall n :: n in d ==> Settled(Edges(services), d, n)
    ensures d == Propagated(services, start)
  {
    var g := Edges(services);
    EdgesOfNames(services);
    hide *;
    SameKeys(g, start, d);
    forall n | n in d && start[n].Keep? ensures d[n].Recreate? <==> MustRebuild(g, start, n) {
      FixpointAt(g, start, d, n);
    }
    PropagatedIs(services, start, d);
  }

  lemma EdgesOfNames(services: seq<Service>)
    requires UniqueNames(services)
    ensures Edges(services).Keys == Names(services)
  {
    hide Dependencies;
  }

  lemma SameKeys(g: Graph, start: Decisions, d: Decisions)
    requires Justified(g, start, d)
    ensures d.Keys == start.Keys
  {
    hide MustRebuild;
  }

  lemma PropagatedIs(services: seq<Service>, start: Decisions, d: Decisions)
    requires UniqueNames(services) && Justified(Edges(services), start, d)
    requires forall n :: n in d && start[n].Keep? ==> (d[n].Recreate? <==> MustRebuild(Edges(services), start, n))
    ensures d == Propagated(services, start)
  {
    hide Edges, UniqueNames, MustRebuild;
  }

  lemma FixpointAt(g: Graph, start: Decisions, d: Decisions, n: string)
    requires Justified(g, start, d) && g.Keys == d.Keys && n in d && start[n].Keep?
    requires forall m :: m in d ==> Settled(g, d, m)
    ensures d[n].Recreate? <==> MustRebuild(g, start, n)
  {
    hide Settled, ReachesRebuilt;
    if walk :| ReachesRebuilt(g, start, walk, n) {
      FixpointCovers(g, start, d, walk, n);
    }
  }

  // ----- propagation on the services themselves -----

  /** `s` lists `t` among its dependencies or lives in its namespace. */
  predicate DependsOn(s: Service, t: Service) {
    t.name in s.dependsOn || s.network == Share(t.name)
  }

  /** Services that each depend on the next. */
  ghost predicate IsChain(services: seq<Service>, chain: seq<Service>) {
    && chain != []
    && (forall k :: 0 <= k < |chain| ==> chain[k] in services)
    && forall k :: 0 <= k < |chain| - 1 ==> DependsOn(chain[k], chain[k + 1])
  }

  /** A chain from `s` to a service that was to be (re)created to begin with. */
  ghost predicate ChainsToRebuilt(services: seq<Service>, start: Decisions, s: Service, chain: seq<Service>)
    requires start.Keys == Names(services)
  {
    IsChain(services, chain) && chain[0] == s && Rebuilt(start[chain[|chain| - 1].name])
  }

  lemma EdgeIff(services: seq<Service>, s: Service, t: Service)
    requires UniqueNames(services) && s in services && t in services
    ensures s.name in Edges(services) && t.name in Edges(services)
    ensures t.name in Edges(services)[s.name] <==> DependsOn(s, t)
  {
    assert t.name in Names(services);
    assert Edges(services)[s.name] == Dependencies(s, Names(services)) by { EdgeOf(services, s); }
    hide Edges, UniqueNames, Names;
  }

  lemma EdgeOf(services: seq<Service>, s: Service)
    requires UniqueNames(services) && s in services
    ensures s.name in Edges(services) && Edges(services)[s.name] == Dependencies(s, Names(services))
  {
    hide Dependencies, Names;
  }

  lemma OnlyNames(services: seq<Service>, g: Graph)
    requires UniqueNames(services) && g == Edges(services)
    ensures g.Keys == Names(services) && forall n :: n in g ==> g[n] <= g.Keys
  {
  }

  function NamesAlong(chain: seq<Service>): (walk: seq<string>)
    ensures |walk| == |chain| && forall k :: 0 <= k < |walk| ==> walk[k] == chain[k].name
  {
    seq(|chain|, k requires 0 <= k < |chain| => chain[k].name)
  }

  lemma ChainIsWalk(services: seq<Service>, chain: seq<Service>)
    requires UniqueNames(services) && IsChain(services, chain)
    ensures IsWalk(Edges(services), NamesAlong(chain))
  {
    hide Edges, DependsOn, UniqueNames;
    forall k | 0 <= k < |chain| ensures chain[k].name in Edges(services) {
      EdgeIff(services, chain[k], chain[k]);
    }
    forall k | 0 <= k < |chain| - 1 ensures chain[k + 1].name in Edges(services)[chain[k].name] {
      EdgeIff(services, chain[k], chain[k + 1]);
    }
  }

  lemma Named(services: seq<Service>, n: string) returns (s: Service)
    requires n in Names(services)
    ensures s in services && s.name == n
  {
    s :| s in services && s.name == n;
  }

  lemma SameService(services: seq<Service>, s: Service, t: Service)
    requires UniqueNames(services) && s in services && t in services && s.name == t.name
    ensures s == t
  {
    var i :| 0 <= i < |services| && services[i] == s;
    var j :| 0 <= j < |services| && services[j] == t;
    if i < j {} else if j < i {}
  }

  lemma {:induction false} WalkIsChain(services: seq<Service>, walk: seq<string>) returns (chain: seq<Service>)
    requires UniqueNames(services) && IsWalk(Edges(services), walk)
    ensures IsChain(services, chain) && NamesAlong(chain) == walk
    decreases |walk|
  {
    var g := Edges(services);
    OnlyNames(services, g);
    assert walk[0] in g;
    var s := Named(services, walk[0]);
    if |walk| == 1 {
      return [s];
    }
    var rest := WalkIsChain(services, walk[1..]);
    assert walk[1] in g[walk[0]];
    EdgeIff(services, s, rest[0]);
    hide Edges, UniqueNames, DependsOn;
    assert NamesAlong(rest)[0] == walk[1];
    chain := [s] + rest;
    assert forall k :: 0 < k < |chain| ==> chain[k] == rest[k - 1];
    assert NamesAlong(chain) == walk by {
      forall k | 0 <= k < |walk| ensures chain[k].name == walk[k] {
        if k > 0 { assert rest[k - 1].name == NamesAlong(rest)[k - 1] == walk[1..][k - 1]; }
      }
    }
  }

  /** Reaching along edges is reaching along a chain of services. */
  lemma MustRebuildIff(services: seq<Service>, start: Decisions, s: Service)
    requires UniqueNames(services) && start.Keys == Names(services) && s in services
    ensures MustRebuild(Edges(services), start, s.name) <==> exists chain :: ChainsToRebuilt(services, start, s, chain)
  {
    var g := Edges(services);
    hide Edges, DependsOn, Rebuilt;
    if walk :| ReachesRebuilt(g, start, walk, s.name) {
      var chain := WalkIsChain(services, walk);
      assert NamesAlong(chain)[0] == s.name && NamesAlong(chain)[|chain| - 1] == walk[|walk| - 1];
      SameService(services, chain[0], s);
      hide UniqueNames;
      assert ChainsToRebuilt(services, start, s, chain);
    }
    if chain :| ChainsToRebuilt(services, start, s, chain) {
      ChainIsWalk(services, chain);
      assert ReachesRebuilt(g, start, NamesAlong(chain), s.name);
    }
  }

  /** Nothing is kept beside a dependency that is (re)created, and nothing is recreated for any other
      reason than such a dependency. */
  ghost predicate SpreadsAlong(services: seq<Service>, start: Decisions, d: Decisions)
    requires start.Keys == Names(services) && d.Keys == start.Keys
  {
    && (forall s, t :: s in services && t in services && DependsOn(s, t) && Rebuilt(d[t.name]) ==> !d[s.name].Keep?)
    && (forall s :: s in services && start[s.name].Keep? && d[s.name].Recreate? ==>
          exists t :: t in services && DependsOn(s, t) && Rebuilt(d[t.name]))
    && (forall s :: s in services && !start[s.name].Keep? ==> d[s.name] == start[s.name])
    && (forall s :: s in services && start[s.name].Keep? ==> !d[s.name].Create?)
  }

  lemma PropagatedMeans(services: seq<Service>, start: Decisions)
    requires UniqueNames(services) && start.Keys == Names(services)
    ensures Propagated(services, start).Keys == start.Keys
    ensures SpreadsAlong(services, start, Propagated(services, start))
    ensures forall s :: s in services && start[s.name].Keep? ==>
      (Propagated(services, start)[s.name].Recreate? <==> exists chain :: ChainsToRebuilt(services, start, s, chain))
  {
    var d := Propagated(services, start);
    KeysStay(services, start);
    forall s | s in services ensures ChainsDecide(services, start, d, s) {
      PropagatedAt(services, start, s);
    }
    hide Propagated, UniqueNames, DependsOn, ChainsToRebuilt, Rebuilt;
    forall s, t | s in services && t in services && DependsOn(s, t) && Rebuilt(d[t.name]) ensures !d[s.name].Keep? {
      SpreadsFrom(services, start, d, s, t);
    }
    forall s | s in services && start[s.name].Keep? && d[s.name].Recreate?
      ensures exists t :: t in services && DependsOn(s, t) && Rebuilt(d[t.name])
    {
      var t := SpreadsFor(services, start, d, s);
    }
  }

  lemma KeysStay(services: seq<Service>, start: Decisions)
    requires UniqueNames(services)
    ensures Propagated(services, start).Keys == start.Keys
  {
    hide MustRebuild, Edges, UniqueNames;
  }

  lemma PropagatedAt(services: seq<Service>, start: Decisions, s: Service)
    requires UniqueNames(services) && start.Keys == Names(services) && s in services
    requires Propagated(services, start).Keys == start.Keys
    ensures ChainsDecide(services, start, Propagated(services, start), s)
  {
    MustRebuildIff(services, start, s);
    assert s.name in start;
    ValueAt(services, start, s.name);
    hide Propagated, Edges, MustRebuild, ChainsToRebuilt, UniqueNames, Names;
  }

  lemma ValueAt(services: seq<Service>, start: Decisions, n: string)
    requires UniqueNames(services) && n in start && n in Propagated(services, start)
    ensures Propagated(services, start)[n]
         == if start[n].Keep? && MustRebuild(Edges(services), start, n) then Recreate else start[n]
  {
    hide MustRebuild, Edges, UniqueNames;
  }

  ghost predicate ChainsDecide(services: seq<Service>, start: Decisions, d: Decisions, s: Service)
    requires start.Keys == Names(services) && d.Keys == start.Keys && s in services
  {
    && (!start[s.name].Keep? ==> d[s.name] == start[s.name])
    && (start[s.name].Keep? ==> !d[s.name].Create?)
    && (start[s.name].Keep? ==> (d[s.name].Recreate? <==> exists chain :: ChainsToRebuilt(services, start, s, chain)))
  }

  lemma SpreadsFrom(services: seq<Service>, start: Decisions, d: Decisions, s: Service, t: Service)
    requires start.Keys == Names(services) && d.Keys == start.Keys && s in services && t in services
    requires DependsOn(s, t) && Rebuilt(d[t.name])
    requires ChainsDecide(services, start, d, s) && ChainsDecide(services, start, d, t)
    ensures !d[s.name].Keep?
  {
    hide DependsOn;
    if start[s.name].Keep? {
      if start[t.name].Keep? {
        var chain :| ChainsToRebuilt(services, start, t, chain);
        assert ChainsToRebuilt(services, start, s, [s] + chain);
      } else {
        assert ChainsToRebuilt(services, start, s, [s, t]);
      }
    }
  }

  lemma SpreadsFor(services: seq<Service>, start: Decisions, d: Decisions, s: Service) returns (t: Service)
    requires start.Keys == Names(services) && d.Keys == start.Keys && s in services
    requires start[s.name].Keep? && d[s.name].Recreate?
    requires forall x :: x in services ==> ChainsDecide(services, start, d, x)
    ensures t in services && DependsOn(s, t) && Rebuilt(d[t.name])
  {
    hide DependsOn;
    assert ChainsDecide(services, start, d, s);
    var chain :| ChainsToRebuilt(services, start, s, chain);
    t := chain[1];
    assert ChainsDecide(services, start, d, t);
    if start[t.name].Keep? {
      assert ChainsToRebuilt(services, start, t, chain[1..]);
    }
  }

  /** `_propagate_dependencies`: repeated passes that see their own upgrades, until one changes
      nothing. It terminates on every graph and marks exactly what must be rebuilt. */
  method Propagate(services: seq<Service>, start: Decisions) returns (d: Decisions)
    requires UniqueNames(services) && start.Keys == Names(services)
    ensures d == Propagated(services, start) && d.Keys == start.Keys
    ensures forall s, t :: s in services && t in services && (t.name in s.dependsOn || s.network == Share(t.name)) ==>
      Rebuilt(d[t.name]) ==> !d[s.name].Keep?
    ensures forall s :: s in services && start[s.name].Keep? && d[s.name].Recreate? ==>
      exists t :: t in services && (t.name in s.dependsOn || s.network == Share(t.name)) && Rebuilt(d[t.name])
    ensures forall s :: s in services && !start[s.name].Keep? ==> d[s.name] == start[s.name]
    ensures forall s :: s in services && start[s.name].Keep? ==>
      if exists chain :: ChainsToRebuilt(services, start, s, chain) then d[s.name].Recreate? else d[s.name].Keep?
  {
    PropagatedMeans(services, start);
    d := PropagateAlong(services, start);
    OnFields(services, start, d);
    hide *;
  }

  lemma OnFields(services: seq<Service>, start: Decisions, d: Decisions)
    requires start.Keys == Names(services) && d.Keys == start.Keys && SpreadsAlong(services, start, d)
    ensures forall s, t :: s in services && t in services && (t.name in s.dependsOn || s.network == Share(t.name)) ==>
      Rebuilt(d[t.name]) ==> !d[s.name].Keep?
    ensures forall s :: s in services && start[s.name].Keep? && d[s.name].Recreate? ==>
      exists t :: t in services && (t.name in s.dependsOn || s.network == Share(t.name)) && Rebuilt(d[t.name])
  {
    hide Rebuilt, Names;
    forall s | s in services ensures s.name in d {
      NameOf(services, s);
    }
    forall s | s in services && start[s.name].Keep? && d[s.name].Recreate?
      ensures exists t :: t in services && (t.name in s.dependsOn || s.network == Share(t.name)) && Rebuilt(d[t.name])
    {
      var t :| t in services && DependsOn(s, t) && Rebuilt(d[t.name]);
    }
  }

  lemma NameOf(services: seq<Service>, s: Service)
    requires s in services
    ensures s.name in Names(services)
  {
  }

  method PropagateAlong(services: seq<Service>, start: Decisions) returns (d: Decisions)
    requires UniqueNames(services) && start.Keys == Names(services)
    ensures d == Propagated(services, start)
  {
    ghost var g := Edges(services);
    assert IsGraphOf(services, g);
    d := start;
    var changed := true;
    while changed
      invariant Justified(g, start, d)
      invariant !changed ==> forall n :: n in d ==> Settled(g, d, n)
      decreases |Kept(d)|, changed
    {
      d, changed := Pass(services, g, start, d);
    }
    FixpointIsPropagated(services, start, d);
  }

  lemma EnabledAreUnique(services: seq<Service>)
    requires UniqueNames(services)
    ensures UniqueNames(Enabled(services))
  {
    if services != [] {
      var init, last := services[..|services| - 1], services[|services| - 1];
      EnabledAreUnique(init);
      forall i | 0 <= i < |Enabled(init)| ensures Enabled(init)[i].name != last.name {
        assert Enabled(init)[i] in init;
      }
    }
  }

  lemma {:induction false} NamedInInventory(observed: seq<Container>, n: string)
    ensures n in ByName(observed) <==> exists c :: c in observed && c.name == n
  {
    if observed != [] {
      var last := observed[|observed| - 1];
      assert observed == observed[..|observed| - 1] + [last];
      NamedInInventory(observed[..|observed| - 1], n);
    }
  }

  /** The container that counts for this name: the last of it. */
  ghost predicate LastOf(observed: seq<Container>, k: nat, name: string) {
    k < |observed| && observed[k].name == name && forall j :: k < j < |observed| ==> observed[j].name != name
  }

  lemma {:induction false} LastCounts(observed: seq<Container>, name: string)
    ensures name in ByName(observed) <==> exists k: nat :: LastOf(observed, k, name)
    ensures forall k: nat :: LastOf(observed, k, name) ==> ByName(observed)[name] == observed[k].seen
  {
    if observed != [] {
      var init, last := observed[..|observed| - 1], observed[|observed| - 1];
      LastCounts(init, name);
      if last.name == name {
        assert LastOf(observed, |observed| - 1, name);
      } else {
        forall k: nat ensures LastOf(observed, k, name) <==> LastOf(init, k, name) {}
      }
    }
  }

  /** The container runs, is not reported unhealthy, and was made as the service is defined now. */
  predicate UpToDate(s: Service, c: Container) {
    c.seen.running && c.seen.healthy != Some(false) && c.seen.made.network == s.network && c.seen.made.rest == s.rest
  }

  lemma DecideMeans(s: Service, observed: seq<Container>)
    ensures var a := Decide(Define(s), Find(ByName(observed), s.name));
      && (a.Create? <==> forall c :: c in observed ==> c.name != s.name)
      && (a.Keep? <==> exists k: nat :: LastOf(observed, k, s.name) && UpToDate(s, observed[k]))
  {
    LastCounts(observed, s.name);
    NamedInInventory(observed, s.name);
    hide ByName, LastOf;
  }

  /** `out` names the undesired containers, which stand at `at`, in the order observed. */
  ghost predicate Picks(observed: seq<Container>, names: set<string>, at: seq<nat>, out: seq<string>) {
    && |at| == |out|
    && (forall i, j :: 0 <= i < j < |at| ==> at[i] < at[j])
    && (forall i :: 0 <= i < |at| ==> at[i] < |observed| && observed[at[i]].name == out[i])
    && (forall k :: 0 <= k < |observed| ==> (k in at <==> observed[k].name !in names))
  }

  lemma PickMore(observed: seq<Container>, names: set<string>, at: seq<nat>, out: seq<string>)
    requires observed != [] && Picks(observed[..|observed| - 1], names, at, out)
    ensures var last := |observed| - 1;
      if observed[last].name in names then Picks(observed, names, at, out)
      else Picks(observed, names, at + [last], out + [observed[last].name])
  {
    var last := |observed| - 1;
    assert last !in at;
    if observed[last].name !in names {
      forall k | 0 <= k < |observed| ensures k in at + [last] <==> observed[k].name !in names {
        if k < last { assert k in at <==> observed[..last][k].name !in names; }
      }
    }
  }

  lemma {:induction false} UndesiredInOrder(observed: seq<Container>, names: set<string>) returns (at: seq<nat>)
    ensures Picks(observed, names, at, Undesired(observed, names))
  {
    at := [];
    if observed != [] {
      var last := |observed| - 1;
      at := UndesiredInOrder(observed[..last], names);
      PickMore(observed, names, at, Undesired(observed[..last], names));
      hide Picks;
      if observed[last].name !in names { at := at + [last]; }
    }
  }

  /** `build_container_plan`: the final decisions, and the containers to remove. */
  method BuildContainerPlan(services: seq<Service>, observed: seq<Container>) returns (decisions: Decisions, orphans: seq<string>)
    requires UniqueNames(services)
    ensures UniqueNames(Enabled(services))
    ensures decisions == Propagated(Enabled(services), Decided(Enabled(services), ByName(observed)))
    ensures decisions.Keys == set s | s in services && s.enabled :: s.name
    ensures forall s :: s in services && s.enabled ==>
      (decisions[s.name].Create? <==> forall c :: c in observed ==> c.name != s.name)
    ensures forall s :: s in services && s.enabled ==>
      (decisions[s.name].Keep? <==>
        (exists k: nat :: LastOf(observed, k, s.name) && UpToDate(s, observed[k])) &&
        forall t :: t in services && t.enabled && DependsOn(s, t) ==> decisions[t.name].Keep?)
    ensures orphans == Undesired(observed, Names(Enabled(services)))
    ensures exists at :: Picks(observed, decisions.Keys, at, orphans)
  {
    EnabledAreUnique(services);
    EnabledNames(services);
    ghost var at := UndesiredInOrder(observed, Names(Enabled(services)));
    decisions, orphans := PlanContainers(services, observed);
    PlanMeans(services, observed, decisions);
    OnEnabled(services, observed, decisions);
    hide *;
  }

  lemma PlanMeans(services: seq<Service>, observed: seq<Container>, d: Decisions)
    requires UniqueNames(services) && UniqueNames(Enabled(services))
    requires d == Propagated(Enabled(services), Decided(Enabled(services), ByName(observed)))
    ensures d.Keys == Names(Enabled(services)) && forall s :: s in Enabled(services) ==> s.name in d
    ensures forall s :: s in Enabled(services) ==> PlannedAs(Enabled(services), observed, d, s)
  {
    hide Names, Propagated, Decided, Decide, Define, Find, ByName, LastOf, UpToDate, DependsOn, SpreadsAlong, ChainsToRebuilt, UniqueNames;
    var enabled := Enabled(services);
    StartOf(enabled, ByName(observed));
    PropagatedMeans(enabled, Decided(enabled, ByName(observed)));
    forall s | s in enabled ensures s.name in d { NameOf(enabled, s); }
    forall s | s in enabled ensures PlannedAs(enabled, observed, d, s) {
      PlanOf(enabled, observed, d, s);
    }
  }

  lemma OnEnabled(services: seq<Service>, observed: seq<Container>, d: Decisions)
    requires forall s :: s in Enabled(services) ==> s.name in d
    requires forall s :: s in Enabled(services) ==> PlannedAs(Enabled(services), observed, d, s)
    ensures forall s :: s in services && s.enabled ==> s.name in d
    ensures forall s :: s in services && s.enabled ==>
      (d[s.name].Create? <==> forall c :: c in observed ==> c.name != s.name)
    ensures forall s :: s in services && s.enabled ==>
      (d[s.name].Keep? <==>
        (exists k: nat :: LastOf(observed, k, s.name) && UpToDate(s, observed[k])) &&
        forall t :: t in services && t.enabled && DependsOn(s, t) ==> d[t.name].Keep?)
  {
    hide UpToDate, DependsOn;
    forall s | s in services && s.enabled
      ensures s.name in d
      ensures d[s.name].Create? <==> forall c :: c in observed ==> c.name != s.name
      ensures d[s.name].Keep? <==>
        (exists k: nat :: LastOf(observed, k, s.name) && UpToDate(s, observed[k])) &&
        forall t :: t in services && t.enabled && DependsOn(s, t) ==> d[t.name].Keep?
    {
      assert PlannedAs(Enabled(services), observed, d, s);
    }
  }

  ghost predicate PlannedAs(enabled: seq<Service>, observed: seq<Container>, d: Decisions, s: Service)
    requires forall t :: t in enabled ==> t.name in d
    requires s in enabled
  {
    && (d[s.name].Create? <==> forall c :: c in observed ==> c.name != s.name)
    && (d[s.name].Keep? <==>
          (exists k: nat :: LastOf(observed, k, s.name) && UpToDate(s, observed[k])) &&
          forall t :: t in enabled && DependsOn(s, t) ==> d[t.name].Keep?)
  }

  lemma PlanOf(enabled: seq<Service>, observed: seq<Container>, d: Decisions, s: Service)
    requires UniqueNames(enabled) && s in enabled && d.Keys == Decided(enabled, ByName(observed)).Keys == Names(enabled)
    requires SpreadsAlong(enabled, Decided(enabled, ByName(observed)), d)
    ensures forall t :: t in enabled ==> t.name in d
    ensures PlannedAs(enabled, observed, d, s)
  {
    hide Decided, Decide, Define, Find, ByName, LastOf, UpToDate, DependsOn, SpreadsAlong, UniqueNames, Names;
    StartOf(enabled, ByName(observed));
    DecideMeans(s, observed);
    PlanAt(enabled, Decided(enabled, ByName(observed)), d, s);
  }

  lemma EnabledNames(services: seq<Service>)
    ensures Names(Enabled(services)) == set s | s in services && s.enabled :: s.name
  {
  }

  lemma StartOf(services: seq<Service>, seen: Inventory)
    requires UniqueNames(services)
    ensures Decided(services, seen).Keys == Names(services)
    ensures forall s :: s in services ==>
      s.name in Decided(services, seen) && Decided(services, seen)[s.name] == Decide(Define(s), Find(seen, s.name))
  {
    hide Decide, Define, Find;
  }

  /** A service is kept exactly if it was to be kept and so are its dependencies. */
  lemma PlanAt(services: seq<Service>, start: Decisions, d: Decisions, s: Service)
    requires start.Keys == Names(services) && d.Keys == start.Keys && SpreadsAlong(services, start, d)
    requires s in services
    ensures s.name in start && (d[s.name].Create? <==> start[s.name].Create?)
    ensures forall t :: t in services ==> t.name in d
    ensures d[s.name].Keep? <==> start[s.name].Keep? && forall t :: t in services && DependsOn(s, t) ==> d[t.name].Keep?
  {
    hide DependsOn, Names;
    forall t | t in services ensures t.name in d { NameOf(services, t); }
  }

  method PlanContainers(services: seq<Service>, observed: seq<Container>) returns (decisions: Decisions, orphans: seq<string>)
    requires UniqueNames(services) && UniqueNames(Enabled(services))
    ensures decisions == Propagated(Enabled(services), Decided(Enabled(services), ByName(observed)))
    ensures orphans == Undesired(observed, Names(Enabled(services)))
  {
    var enabled := Enabled(services);
    var start := DecideAll(enabled, ByName(observed));
    decisions := Propagate(enabled, start);
    var names := Names(enabled);
    orphans := [];
    for k := 0 to |observed|
      invariant orphans == Undesired(observed[..k], names)
    {
      assert observed[..k + 1][..k] == observed[..k];
      if observed[k].name !in names {
        orphans := orphans + [observed[k].name];
      }
    }
    assert observed[..|observed|] == observed;
  }

  method DecideAll(services: seq<Service>, seen: Inventory) returns (start: Decisions)
    requires UniqueNames(services)
    ensures start == Decided(services, seen) && start.Keys == Names(services)
  {
    hide Decide, Find, Define;
    start := map[];
    for k := 0 to |services|
      invariant DecidedSoFar(services, seen, start, k)
    {
      start := start[services[k].name := Decide(Define(services[k]), Find(seen, services[k].name))];
    }
    AllDecided(services, seen, start);
  }

  ghost predicate DecidedSoFar(services: seq<Service>, seen: Inventory, start: Decisions, k: nat)
    requires k <= |services|
  {
    && (forall i :: 0 <= i < k ==>
          services[i].name in start && start[services[i].name] == Decide(Define(services[i]), Find(seen, services[i].name)))
    && forall n :: n in start ==> exists i :: 0 <= i < k && services[i].name == n
  }

  lemma AllDecided(services: seq<Service>, seen: Inventory, start: Decisions)
    requires UniqueNames(services) && DecidedSoFar(services, seen, start, |services|)
    ensures start == Decided(services, seen) && start.Keys == Names(services)
  {
    hide Decide, Find, Define;
    forall s | s in services ensures s.name in start && start[s.name] == Decide(Define(s), Find(seen, s.name)) {
      var i :| 0 <= i < |services| && services[i] == s;
    }
    forall n | n in start ensures n in Names(services) {
      var i :| 0 <= i < |services| && services[i].name == n;
      assert services[i] in services;
    }
  }

  method Pass(services: seq<Service>, ghost g: Graph, ghost start: Decisions, before: Decisions)
      returns (d: Decisions, changed: bool)
    requires IsGraphOf(services, g) && start.Keys == g.Keys && Justified(g, start, before)
    ensures Justified(g, start, d)
    ensures changed ==> |Kept(d)| < |Kept(before)|
    ensures !changed ==> d == before && forall n :: n in d ==> Settled(g, d, n)
  {
    d, changed := before, false;
    for i := 0 to |services|
      invariant Justified(g, start, d)
      invariant if changed then |Kept(d)| < |Kept(before)| else d == before
      invariant !changed ==> forall k :: 0 <= k < i ==> Settled(g, d, services[k].name)
    {
      var upgraded: bool;
      d, upgraded := Visit(services[i], g, start, d);
      changed := changed || upgraded;
    }
  }

  method Visit(s: Service, ghost g: Graph, ghost start: Decisions, before: Decisions)
      returns (d: Decisions, upgraded: bool)
    requires s.name in g && g[s.name] == Dependencies(s, g.Keys) && start.Keys == g.Keys && Justified(g, start, before)
    ensures Justified(g, start, d)
    ensures if upgraded then |Kept(d)| < |Kept(before)| else d == before && Settled(g, d, s.name)
  {
    d, upgraded := before, false;
    if d[s.name].Keep? {
      var rebuilt := set dep | dep in Dependencies(s, d.Keys) && Rebuilt(d[dep]);
      if rebuilt != {} {
        ghost var dep :| dep in rebuilt;
        Upgrade(g, start, d, s.name, dep);
        d, upgraded := d[s.name := Recreate], true;
      } else {
        assert forall dep :: dep in g[s.name] && dep in d ==> dep !in rebuilt;
      }
    }
  }
}
