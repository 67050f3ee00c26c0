/** Planning from what is observed, deploying, aborting, planning again: what a whole history of
    deploys keeps, so that the next plan may rely on it. */
module Redeploy {
  import opened Wrappers
  import opened Graphs
  import opened Sublists
  import opened ContainerPlan
  import opened DeployTrace
  import opened OldInstances
  import Deploy

  // ----- the plan made from an inventory -----

  function DefinitionsOf(services: seq<Service>): Definitions
    requires UniqueNames(services)
  {
    map s | s in services :: s.name := Define(s)
  }

  /** What is planned for these enabled services when this is what was observed. */
  ghost predicate PlannedFrom(p: Plan, services: seq<Service>, seen: Inventory)
    requires UniqueNames(services)
  {
    && p.decisions == Propagated(services, Decided(services, seen))
    && p.definitions == DefinitionsOf(services)
    && Distinct(p.order) && Respects(Deploy.OrderGraph(services), p.order)
    && (forall n :: n in p.order <==> n in Names(services))
    && Distinct(p.orphans) && forall n :: n in p.orphans <==> n in seen && n !in Names(services)
  }

  lemma {:induction false} OrphansAreDistinct(observed: seq<Container>, names: set<string>)
    requires forall i, j :: 0 <= i < j < |observed| ==> observed[i].name != observed[j].name
    ensures Distinct(Undesired(observed, names))
  {
    if observed != [] {
      OrphansAreDistinct(observed[..|observed| - 1], names);
    }
  }

  /** The plan and the order it is executed in; None stands for the `ValueError` on a cycle. */
  method MakePlan(services: seq<Service>, observed: seq<Container>) returns (p: Option<Plan>)
    requires UniqueNames(services)
    requires forall i, j :: 0 <= i < j < |observed| ==> observed[i].name != observed[j].name
    ensures UniqueNames(Enabled(services))
    ensures p.Some? ==> PlannedFrom(p.value, Enabled(services), ByName(observed))
    ensures p.None? <==> Cyclic(Deploy.OrderGraph(Enabled(services)))
  {
    var decisions, orphans := BuildContainerPlan(services, observed);
    var enabled := Enabled(services);
    OrphansAreDistinct(observed, Names(enabled));
    forall n ensures n in ByName(observed) <==> exists c :: c in observed && c.name == n {
      NamedInInventory(observed, n);
    }
    var order := Deploy.TopologicallySorted(enabled);
    if order.None? {
      return None;
    }
    assert Deploy.EnabledNames(enabled) == Names(enabled);
    p := Some(Plan(order.value, decisions, DefinitionsOf(enabled), orphans));
  }

  /** Every namespace target is an enabled service among the transitive `depends_on`. */
  ghost predicate TargetsAreDependencies(services: seq<Service>)
    requires UniqueNames(services)
  {
    forall s :: s in services && s.network.Share? ==>
      s.network.target in Names(services) &&
      exists walk :: IsWalk(Deploy.OrderGraph(services), walk) && |walk| > 1 &&
        walk[0] == s.name && walk[|walk| - 1] == s.network.target
  }

  ghost predicate Ready(services: seq<Service>) {
    UniqueNames(services) && (forall s :: s in services ==> s.enabled) && TargetsAreDependencies(services)
  }

  /** Propagated decisions in topological order make a coherent plan. */
  lemma PlannedIsCoherent(p: Plan, services: seq<Service>, seen: Inventory)
    requires Ready(services) && PlannedFrom(p, services, seen)
    ensures Coherent(p)
  {
    PlannedNames(p, services, seen);
    forall n | n in p.decisions && TargetOf(p.definitions[n]).Some?
      ensures var t := TargetOf(p.definitions[n]).value;
        t in p.decisions && Before(p.order, t, n) && (p.decisions[n].Keep? ==> p.decisions[t].Keep?)
    {
      var s :| s in services && s.name == n;
      TargetComesFirst(p, services, seen, s);
    }
  }

  lemma TargetComesFirst(p: Plan, services: seq<Service>, seen: Inventory, s: Service)
    requires Ready(services) && PlannedFrom(p, services, seen) && s in services && s.network.Share?
    ensures s.network.target in p.decisions && s.name in p.decisions && Before(p.order, s.network.target, s.name)
    ensures p.decisions[s.name].Keep? ==> p.decisions[s.network.target].Keep?
  {
    hide Propagated, Decided, IsWalk, Respects, Before, Distinct, UniqueNames, DefinitionsOf, Names, Deploy.OrderGraph;
    PlannedNames(p, services, seen);
    var walk :| IsWalk(Deploy.OrderGraph(services), walk) && |walk| > 1
      && walk[0] == s.name && walk[|walk| - 1] == s.network.target;
    assert walk[0] in p.order;
    WalkBefore(Deploy.OrderGraph(services), p.order, walk);
    KeptTogether(services, Decided(services, seen), s);
  }

  lemma PlannedNames(p: Plan, services: seq<Service>, seen: Inventory)
    requires UniqueNames(services) && PlannedFrom(p, services, seen)
    ensures p.decisions.Keys == p.definitions.Keys == Decided(services, seen).Keys == Names(services)
    ensures forall s :: s in services ==> s.name in p.definitions && p.definitions[s.name] == Define(s)
  {
    DecidedNames(services, seen);
    PropagatedNames(services, Decided(services, seen));
    hide Propagated, Decided, Names;
  }

  lemma DecidedNames(services: seq<Service>, seen: Inventory)
    requires UniqueNames(services)
    ensures Decided(services, seen).Keys == DefinitionsOf(services).Keys == Names(services)
    ensures forall s :: s in services ==> s.name in DefinitionsOf(services) && DefinitionsOf(services)[s.name] == Define(s)
  {
    hide Decide, Define, Find;
    DefinedNames(services);
    hide DefinitionsOf;
  }

  lemma DefinedNames(services: seq<Service>)
    requires UniqueNames(services)
    ensures DefinitionsOf(services).Keys == Names(services)
    ensures forall s :: s in services ==> s.name in DefinitionsOf(services) && DefinitionsOf(services)[s.name] == Define(s)
  {
    hide Define;
  }

  lemma PropagatedNames(services: seq<Service>, start: Decisions)
    requires UniqueNames(services)
    ensures Propagated(services, start).Keys == start.Keys
  {
    hide MustRebuild, Edges, UniqueNames;
  }

  /** A decision to keep rests on what was seen. */
  lemma KeptWasSeen(p: Plan, services: seq<Service>, seen: Inventory, n: string)
    requires UniqueNames(services) && PlannedFrom(p, services, seen) && n in p.decisions && p.decisions[n].Keep?
    ensures n in seen && n in p.definitions && seen[n].made == p.definitions[n] && seen[n].running
  {
    KeptFromStart(services, Decided(services, seen), n);
    hide Propagated;
    DecidedToKeep(services, seen, n);
    assert n in Names(services);
  }

  lemma KeptFromStart(services: seq<Service>, start: Decisions, n: string)
    requires UniqueNames(services) && n in Propagated(services, start) && Propagated(services, start)[n].Keep?
    ensures n in start && start[n].Keep?
  {
    hide MustRebuild, Edges;
  }

  lemma DecidedToKeep(services: seq<Service>, seen: Inventory, n: string)
    requires UniqueNames(services) && n in Decided(services, seen) && Decided(services, seen)[n].Keep?
    ensures n in Names(services) && n in seen && seen[n].made == DefinitionsOf(services)[n] && seen[n].running
  {
    var s :| s in services && s.name == n;
    assert Decided(services, seen)[s.name] == Decide(Define(s), Find(seen, s.name));
  }

  lemma KeptTogether(services: seq<Service>, start: Decisions, s: Service)
    requires UniqueNames(services) && start.Keys == Names(services)
    requires s in services && s.network.Share? && s.network.target in Names(services)
    ensures var d := Propagated(services, start); d[s.name].Keep? ==> d[s.network.target].Keep?
  {
    var g, t := Edges(services), s.network.target;
    assert t in g[s.name];
    assert t in g && s.name in start;
    hide Edges, Names, UniqueNames, MustRebuild;
    if Rebuilt(start[t]) || MustRebuild(g, start, t) {
      Spreads(g, start, s.name, t);
    }
  }

  /** Rebuilding spreads along an edge. */
  lemma Spreads(g: Graph, start: Decisions, n: string, t: string)
    requires n in g && t in g && t in g[n] && t in start && (Rebuilt(start[t]) || MustRebuild(g, start, t))
    ensures MustRebuild(g, start, n)
  {
    if Rebuilt(start[t]) {
      assert ReachesRebuilt(g, start, [n, t], n);
    } else {
      var walk :| ReachesRebuilt(g, start, walk, t);
      assert ReachesRebuilt(g, start, [n] + walk, n);
    }
  }

  // ----- what holds between deploys -----

  /** Every container was created in the namespace its definition names, unless that name is free
      now. Definitions are all that is compared later, so this is what makes a hash trustworthy. */
  ghost predicate Consistent(w: World) {
    Numbered(w) && forall n :: n in w.live ==> Truthful(w, n)
  }

  ghost predicate Truthful(w: World, n: string)
    requires n in w.live
  {
    match TargetOf(w.live[n].made)
    case None => w.live[n].shares == None
    case Some(t) => w.live[n].shares.Some? && (t in w.live ==> w.live[n].shares.value == w.live[t].id)
  }

  /** What the inventory shows; `health` holds the verdicts of the liveness probes. */
  function See(w: World, health: map<string, bool>): Inventory {
    map n | n in w.live :: Seen(w.live[n].made, w.live[n].running, if n in health then Some(health[n]) else None)
  }

  /** A plan made from a consistent world finds everything it takes for granted. */
  lemma PlanFits(w: World, p: Plan, services: seq<Service>, health: map<string, bool>)
    requires Consistent(w) && Ready(services) && PlannedFrom(p, services, See(w, health))
    ensures Coherent(p) && Fits(w, p)
  {
    hide Ready, PlannedFrom, Numbered, Before, Distinct, Propagated, Truthful;
    PlannedIsCoherent(p, services, See(w, health));
    assert forall n :: n in p.decisions ==> n in p.definitions;
    assert UniqueNames(services) by { ReadyIsUnique(services); }
    KeptAreLive(w, p, services, health);
    KeptAreAttached(w, p);
  }

  lemma ReadyIsUnique(services: seq<Service>)
    requires Ready(services)
    ensures UniqueNames(services)
  {
  }

  lemma KeptAreLive(w: World, p: Plan, services: seq<Service>, health: map<string, bool>)
    requires UniqueNames(services) && PlannedFrom(p, services, See(w, health))
    ensures forall n :: n in p.decisions && p.decisions[n].Keep? ==>
      n in w.live && w.live[n].running && n in p.definitions && w.live[n].made == p.definitions[n]
  {
    hide PlannedFrom, See;
    forall n | n in p.decisions && p.decisions[n].Keep?
      ensures n in w.live && w.live[n].running && n in p.definitions && w.live[n].made == p.definitions[n]
    {
      KeptWasSeen(p, services, See(w, health), n);
      SeenIsLive(w, health, n);
    }
  }

  lemma SeenIsLive(w: World, health: map<string, bool>, n: string)
    requires n in See(w, health)
    ensures n in w.live && See(w, health)[n].made == w.live[n].made && See(w, health)[n].running == w.live[n].running
  {
  }

  lemma KeptAreAttached(w: World, p: Plan)
    requires Coherent(p) && Consistent(w)
    requires forall n :: n in p.decisions && p.decisions[n].Keep? ==> n in w.live && w.live[n].made == p.definitions[n]
    ensures forall n :: n in p.decisions && p.decisions[n].Keep? ==> Attached(w, n)
  {
    hide Before, Numbered;
    forall n | n in p.decisions && p.decisions[n].Keep? ensures Attached(w, n) {
      assert Truthful(w, n);
    }
  }

  /** A container that was passed over stays behind while the one it shares with is created anew. */
  ghost predicate LeftBehind(w0: World, skipped: set<string>, made: set<string>) {
    exists n :: n in skipped && n in w0.live && TargetOf(w0.live[n].made).Some? && TargetOf(w0.live[n].made).value in made
  }

  ghost predicate CoversAll(w: World, p: Plan) {
    forall n :: n in w.live ==> n in p.decisions || n in p.orphans
  }

  lemma GoneOnceMade(p: Plan, skipped: set<string>, k: nat, n: string)
    requires Shaped(p) && k <= |Calls(p, skipped)| && Goes(p, n) && n !in skipped
    ensures Made(Calls(p, skipped)[..k]) != {} ==> n in Gone(Calls(p, skipped)[..k])
  {
    var names := Found(Removals(p), skipped);
    InSteps(p, n);
    assert n in names;
    GoneByThen(p, skipped, k);
    if k <= |names| {
      PrefixesOfCalls(p, skipped, k);
      assert Made(RemoveCalls(names[..k])) == {};
    } else {
      assert names[..|names|] == names;
    }
  }

  /** Wherever a deploy stops, the world is consistent again exactly if nothing was left behind. */
  lemma ConsistentIff(w0: World, p: Plan, skipped: set<string>, k: nat)
    requires Coherent(p) && Fits(w0, p) && Consistent(w0) && CoversAll(w0, p)
    requires k <= |Calls(p, skipped)| && AllAccepted(w0, Calls(p, skipped)[..k])
    ensures var calls := Calls(p, skipped)[..k];
      Consistent(Run(w0, calls)) <==> !LeftBehind(w0, skipped, Made(calls))
  {
    var calls := Calls(p, skipped)[..k];
    AtPrefix(w0, p, skipped, k);
    forall n | Made(calls) != {} && Goes(p, n) && n !in skipped ensures n in Gone(calls) {
      GoneOnceMade(p, skipped, k, n);
    }
    hide Calls, Made, Gone, AllAccepted, Run, Before, LeftBehind, Consistent;
    ConsistentAt(w0, p, skipped, Run(w0, calls), Gone(calls), Made(calls));
  }

  lemma ConsistentAt(w0: World, p: Plan, skipped: set<string>, w: World, gone: set<string>, made: set<string>)
    requires Coherent(p) && Fits(w0, p) && Consistent(w0) && CoversAll(w0, p) && At(w0, p, w, gone, made)
    requires forall n :: n in gone ==> Goes(p, n) && n !in skipped
    requires forall n :: n in made ==> n in p.decisions && Rebuilt(p.decisions[n])
    requires forall n :: made != {} && Goes(p, n) && n !in skipped ==> n in gone
    ensures Consistent(w) <==> !LeftBehind(w0, skipped, made)
  {
    hide Before, Numbered;
    forall n | n in w.live ensures Truthful(w, n) <==> !(n !in made && StaysBehind(w0, made, n)) {
      if n in made {
        assert Attached(w, n);
      } else {
        TruthAt(w0, p, w, gone, made, n);
      }
    }
    forall n | n in w.live && n !in made && n !in skipped ensures !StaysBehind(w0, made, n) {
      assert n in p.decisions || n in p.orphans;
      if n in p.decisions && p.decisions[n].Keep? {
        assert w0.live[n].made == p.definitions[n];
      }
    }
    assert forall n :: n in w0.live && n in skipped ==> n in w.live && n !in made;
    if LeftBehind(w0, skipped, made) {
      var n :| n in skipped && n in w0.live && TargetOf(w0.live[n].made).Some? && TargetOf(w0.live[n].made).value in made;
      assert StaysBehind(w0, made, n);
    }
  }

  ghost predicate StaysBehind(w0: World, made: set<string>, n: string) {
    n in w0.live && TargetOf(w0.live[n].made).Some? && TargetOf(w0.live[n].made).value in made
  }

  lemma TruthAt(w0: World, p: Plan, w: World, gone: set<string>, made: set<string>, n: string)
    requires Shaped(p) && Consistent(w0) && At(w0, p, w, gone, made) && n in w.live && n !in made
    ensures Truthful(w, n) <==> !StaysBehind(w0, made, n)
  {
    assert w.live[n] == w0.live[n] && Truthful(w0, n);
  }

  // ----- any history -----

  /** Between deploys containers may stop, start again or vanish; a deploy may stop anywhere. */
  datatype Event =
    | Drift(after: World)
    | Attempt(services: seq<Service>, health: map<string, bool>, plan: Plan, skipped: set<string>, done: nat)

  ghost predicate Possible(w: World, e: Event) {
    match e
    case Drift(after) =>
      after.next == w.next && forall n :: n in after.live ==>
        n in w.live && after.live[n] == w.live[n].(running := after.live[n].running)
    case Attempt(services, health, plan, skipped, done) =>
      && Ready(services) && PlannedFrom(plan, services, See(w, health)) && Shaped(plan)
      && done <= |Calls(plan, skipped)| && AllAccepted(w, Calls(plan, skipped)[..done])
  }

  ghost function After(w: World, e: Event): World
    requires Possible(w, e)
  {
    match e
    case Drift(after) => after
    case Attempt(_, _, plan, skipped, done) => Run(w, Calls(plan, skipped)[..done])
  }

  ghost predicate LeavesBehind(w: World, e: Event)
    requires Possible(w, e)
  {
    e.Attempt? && LeftBehind(w, e.skipped, Made(Calls(e.plan, e.skipped)[..e.done]))
  }

  ghost predicate History(w: World, events: seq<Event>, last: World)
    decreases |events|
  {
    if events == [] then last == w
    else Possible(w, events[0]) && History(After(w, events[0]), events[1..], last)
  }

  ghost predicate NothingLeftBehind(w: World, events: seq<Event>, last: World)
    requires History(w, events, last)
    decreases |events|
  {
    events != [] ==>
      !LeavesBehind(w, events[0]) && NothingLeftBehind(After(w, events[0]), events[1..], last)
  }

  lemma EventKeepsIff(w: World, e: Event)
    requires Consistent(w) && Possible(w, e)
    ensures Consistent(After(w, e)) <==> !LeavesBehind(w, e)
  {
    match e
    case Drift(after) =>
      forall n | n in after.live ensures Truthful(after, n) {
        assert Truthful(w, n);
      }
    case Attempt(services, health, plan, skipped, done) =>
      PlanFits(w, plan, services, health);
      assert CoversAll(w, plan);
      ConsistentIff(w, plan, skipped, done);
  }

  /** Over any history of drift and of deploys that stop anywhere, if nothing was left behind the
      world stays consistent, so whatever is planned next is coherent and finds what it takes for
      granted: no kept container dangles. */
  lemma {:induction false} HistoryKeeps(w: World, events: seq<Event>, last: World)
    requires Consistent(w) && History(w, events, last) && NothingLeftBehind(w, events, last)
    ensures Consistent(last)
    decreases |events|
  {
    if events != [] {
      EventKeepsIff(w, events[0]);
      HistoryKeeps(After(w, events[0]), events[1..], last);
    }
  }

  /** And one deploy that is let through to its end repairs whatever aborted ones left. */
  lemma NextDeployRecovers(w: World, events: seq<Event>, last: World, services: seq<Service>, health: map<string, bool>,
                           p: Plan, skipped: set<string>)
    requires Consistent(w) && History(w, events, last) && NothingLeftBehind(w, events, last)
    requires Ready(services) && PlannedFrom(p, services, See(last, health))
    requires forall n :: n in skipped ==> n !in last.live
    ensures Coherent(p) && Fits(last, p) && AllAccepted(last, Calls(p, skipped))
    ensures var after := Run(last, Calls(p, skipped));
      && after.live.Keys == Names(services) && Consistent(after)
      && forall s :: s in services ==>
           after.live[s.name].running && after.live[s.name].made == Define(s) && Attached(after, s.name)
  {
    hide Consistent, History, NothingLeftBehind, Fits;
    HistoryKeeps(w, events, last);
    PlanFits(last, p, services, health);
    PlannedNames(p, services, See(last, health));
    FullDeploy(last, p, skipped);
  }

  lemma FullDeploy(w: World, p: Plan, skipped: set<string>)
    requires Coherent(p) && Fits(w, p) && Consistent(w) && CoversAll(w, p)
    requires forall n :: n in skipped ==> n !in w.live
    ensures AllAccepted(w, Calls(p, skipped))
    ensures var after := Run(w, Calls(p, skipped));
      && after.live.Keys == p.decisions.Keys && Consistent(after)
      && forall n :: n in p.decisions ==>
           after.live[n].running && after.live[n].made == p.definitions[n] && Attached(after, n)
  {
    hide Consistent, Fits, Before, Steps, Run;
    EveryCallIsAcceptedIff(w, p, skipped);
    CompleteDeploy(w, p, skipped);
    var calls := Calls(p, skipped);
    hide Calls, Shaped, AllAccepted;
    assert calls[..|calls|] == calls;
    ConsistentIff(w, p, skipped, |calls|);
  }

  // ----- a container that stays behind is kept for good -----

  /** `x` alone, and `y` in its namespace. */
  ghost predicate Pair(x: Service, y: Service) {
    && x.name != y.name && x.enabled && y.enabled && x.network == Bridge && y.network == Share(x.name)
    && x.dependsOn == {} && y.dependsOn == {x.name}
  }

  lemma PairNames(x: Service, y: Service)
    requires Pair(x, y)
    ensures UniqueNames([x, y]) && Names([x, y]) == {x.name, y.name} && forall z :: z in [x, y] <==> z == x || z == y
  {
    assert [x, y][0] == x && [x, y][1] == y;
  }

  lemma PairGraph(x: Service, y: Service)
    requires Pair(x, y) && UniqueNames([x, y])
    ensures x.name in Edges([x, y]) && y.name in Edges([x, y]) && x.name in Edges([x, y])[y.name]
    ensures Deploy.OrderGraph([x, y]).Keys == {x.name, y.name} && Deploy.OrderGraph([x, y])[x.name] == {}
    ensures Deploy.OrderGraph([x, y])[y.name] == {x.name}
  {
    PairNames(x, y);
    var s := [x, y];
    assert x in s && y in s && Deploy.EnabledNames(s) == {x.name, y.name};
  }

  lemma PairIsReady(x: Service, y: Service)
    requires Pair(x, y)
    ensures Ready([x, y])
    ensures Respects(Deploy.OrderGraph([x, y]), [x.name, y.name]) && Distinct([x.name, y.name])
  {
    PairNames(x, y);
    PairGraph(x, y);
    TwoInOrder(Deploy.OrderGraph([x, y]), x.name, y.name);
    hide Deploy.OrderGraph, Respects, IsWalk, Names, UniqueNames, Edges, Distinct;
    assert TargetsAreDependencies([x, y]) by { PairTargets(x, y); }
  }

  lemma TwoInOrder(g: Graph, a: string, b: string)
    requires a != b && g.Keys == {a, b} && g[a] == {} && g[b] == {a}
    ensures Respects(g, [a, b]) && Distinct([a, b]) && IsWalk(g, [b, a])
  {
    assert [a, b][..1] == [a];
  }

  lemma PairTargets(x: Service, y: Service)
    requires Pair(x, y) && UniqueNames([x, y]) && x.name in Names([x, y]) && IsWalk(Deploy.OrderGraph([x, y]), [y.name, x.name])
    ensures TargetsAreDependencies([x, y])
  {
    hide Deploy.OrderGraph, IsWalk, Names, UniqueNames;
    var walk := [y.name, x.name];
    assert |walk| > 1 && walk[0] == y.name && walk[|walk| - 1] == x.name;
    assert forall s :: s in [x, y] ==> s == x || s == y;
  }

  /** The instances of the two, `y` created in the namespace of the instance `shared`. */
  function Two(x: Service, y: Service, made: Definition, id: nat, shared: nat, next: nat): World {
    World(map[x.name := Instance(id, made, None, true), y.name := Instance(1, Define(y), Some(shared), true)], next)
  }

  /** No liveness probe reports one of the two as failing. */
  ghost predicate NoComplaint(x: Service, y: Service, health: map<string, bool>) {
    (x.name in health ==> health[x.name]) && (y.name in health ==> health[y.name])
  }

  lemma PairDecided(x: Service, y: Service, made: Definition, id: nat, shared: nat, next: nat, health: map<string, bool>)
    requires Pair(x, y) && UniqueNames([x, y]) && NoComplaint(x, y, health)
    ensures var d := Decided([x, y], See(Two(x, y, made, id, shared, next), health));
      d == map[x.name := if made == Define(x) then Keep else Recreate, y.name := Keep]
  {
    PairNames(x, y);
    assert x in [x, y] && y in [x, y];
  }

  lemma BothRebuilt(services: seq<Service>, start: Decisions, a: string, b: string)
    requires UniqueNames(services) && start.Keys == {a, b} && start[a].Recreate? && start[b].Keep?
    requires MustRebuild(Edges(services), start, b)
    ensures Propagated(services, start) == map[a := Recreate, b := Recreate]
  {
    hide Edges, UniqueNames, MustRebuild;
  }

  lemma NoneRebuilt(services: seq<Service>, start: Decisions)
    requires UniqueNames(services) && forall n :: n in start ==> start[n].Keep?
    ensures Propagated(services, start) == start
  {
    hide Edges, UniqueNames, IsWalk;
    forall n | n in start ensures !MustRebuild(Edges(services), start, n) {
    }
  }

  lemma PairWalk(x: Service, y: Service, start: Decisions)
    requires Pair(x, y) && UniqueNames([x, y]) && x.name in start && Rebuilt(start[x.name])
    ensures MustRebuild(Edges([x, y]), start, y.name)
  {
    var g := Edges([x, y]);
    assert x in [x, y] && y in [x, y];
    assert x.name in g && y.name in g && x.name in g[y.name];
    hide Edges, Pair, UniqueNames;
    Spreads(g, start, y.name, x.name);
  }

  lemma KeepingTwo(a: string, b: string, keep: set<string>)
    ensures Keeping([a, b], keep) == (if a in keep then [a] else []) + (if b in keep then [b] else [])
  {
    assert [a, b][..1] == [a] && [a][..0] == [];
    assert Keeping([], keep) == [];
    assert Keeping([a], keep) == if a in keep then [a] else [];
  }

  lemma PairSteps(p: Plan, a: string, b: string)
    requires a != b && p.order == [a, b] && p.orphans == [] && p.decisions == map[a := Recreate, b := Recreate]
    ensures Steps(p) == [a, b] && Found(Removals(p), {b}) == [a]
  {
    hide Keeping, Reverse;
    KeepingTwo(a, b, RebuiltNames(p.decisions));
    assert Steps(p) == [a, b];
    assert Reverse([a, b]) == [b, a] by { ReverseTwo(a, b); }
    assert Removals(p) == [b, a];
    hide Steps, Removals;
    FoundTwo(a, b);
  }

  lemma ReverseTwo(a: string, b: string)
    ensures Reverse([a, b]) == [b, a]
  {
  }

  lemma FoundTwo(a: string, b: string)
    requires a != b
    ensures Found([b, a], {b}) == [a]
  {
    hide Keeping;
    KeepingTwo(b, a, (set n | n in [b, a]) - {b});
  }

  lemma CreateTwo(a: string, b: string, definitions: Definitions)
    requires a in definitions && b in definitions
    ensures CreateCalls([a, b], definitions)
         == [CreateIt(a, definitions[a]), StartIt(a), CreateIt(b, definitions[b]), StartIt(b)]
  {
    assert [a, b][..1] == [a] && [a][..0] == [];
    assert CreateCalls([], definitions) == [];
    assert CreateCalls([a], definitions) == [CreateIt(a, definitions[a]), StartIt(a)];
  }

  /** If the lookup of `b` fails, `a` is replaced and `b` stays. */
  lemma PairCalls(p: Plan, a: string, b: string)
    requires Shaped(p) && a != b && p.order == [a, b] && p.orphans == []
    requires p.decisions == map[a := Recreate, b := Recreate]
    ensures |Calls(p, {b})| >= 3 && Calls(p, {b})[..3] == [RemoveIt(a), CreateIt(a, p.definitions[a]), StartIt(a)]
  {
    PairSteps(p, a, b);
    CreateTwo(a, b, p.definitions);
    hide Steps, Removals, Found, CreateCalls;
    assert RemoveCalls([a]) == [RemoveIt(a)];
  }

  lemma PairRun(x: Service, y: Service, former: Definition)
    requires Pair(x, y)
    ensures var w0, calls := Two(x, y, former, 0, 0, 2), [RemoveIt(x.name), CreateIt(x.name, Define(x)), StartIt(x.name)];
      AllAccepted(w0, calls) && Run(w0, calls) == Two(x, y, Define(x), 2, 0, 3)
  {
    var w0 := Two(x, y, former, 0, 0, 2);
    var a, b, c := RemoveIt(x.name), CreateIt(x.name, Define(x)), StartIt(x.name);
    assert Apply(w0, a).live == map[y.name := Instance(1, Define(y), Some(0), true)];
    assert Accepts(w0, a) && Accepts(Apply(w0, a), b) && Accepts(Apply(Apply(w0, a), b), c);
    assert Apply(Apply(Apply(w0, a), b), c) == Two(x, y, Define(x), 2, 0, 3);
    ThreeCalls(w0, a, b, c);
  }

  lemma ThreeCalls(w: World, a: Call, b: Call, c: Call)
    requires Accepts(w, a) && Accepts(Apply(w, a), b) && Accepts(Apply(Apply(w, a), b), c)
    ensures AllAccepted(w, [a, b, c]) && Run(w, [a, b, c]) == Apply(Apply(Apply(w, a), b), c)
  {
    hide Accepts, Apply;
    assert [] + [a] == [a] && [a] + [b] == [a, b] && [a, b] + [c] == [a, b, c];
    AcceptedNext(w, [], a);
    AcceptedNext(w, [a], b);
    AcceptedNext(w, [a, b], c);
  }

  lemma PairPlanned(x: Service, y: Service, former: Definition, p: Plan, health: map<string, bool>)
    requires Pair(x, y) && UniqueNames([x, y]) && former != Define(x) && NoComplaint(x, y, health)
    requires p == PairPlan(x, y)
    ensures PlannedFrom(p, [x, y], See(Two(x, y, former, 0, 0, 2), health))
  {
    PairSeen(x, y, former, 0, 0, 2, health);
    hide *;
    PairIsReady(x, y);
    PairRebuilt(x, y, former, health);
    PlanOf(p, [x, y], See(Two(x, y, former, 0, 0, 2), health));
  }

  lemma PairSeen(x: Service, y: Service, made: Definition, id: nat, shared: nat, next: nat, health: map<string, bool>)
    requires Pair(x, y)
    ensures See(Two(x, y, made, id, shared, next), health).Keys == Names([x, y]) == set n | n in [x.name, y.name]
  {
    PairNames(x, y);
  }

  lemma PlanOf(p: Plan, services: seq<Service>, seen: Inventory)
    requires UniqueNames(services) && p.definitions == DefinitionsOf(services) && p.orphans == []
    requires p.decisions == Propagated(services, Decided(services, seen))
    requires Distinct(p.order) && Respects(Deploy.OrderGraph(services), p.order)
    requires Names(services) == seen.Keys == set n | n in p.order
    ensures PlannedFrom(p, services, seen)
  {
    assert Distinct(p.orphans);
    hide Propagated, Decided, DefinitionsOf, Respects, Distinct, UniqueNames, Names;
    assert forall n :: n in seen <==> n in seen.Keys;
    assert forall n :: n in p.order <==> n in Names(services);
  }

  lemma PairRebuilt(x: Service, y: Service, former: Definition, health: map<string, bool>)
    requires Pair(x, y) && UniqueNames([x, y]) && former != Define(x) && NoComplaint(x, y, health)
    ensures Propagated([x, y], Decided([x, y], See(Two(x, y, former, 0, 0, 2), health)))
         == map[x.name := Recreate, y.name := Recreate]
  {
    var start := Decided([x, y], See(Two(x, y, former, 0, 0, 2), health));
    PairDecided(x, y, former, 0, 0, 2, health);
    hide *;
    PairWalk(x, y, start);
    BothRebuilt([x, y], start, x.name, y.name);
  }

  lemma PairKept(x: Service, y: Service, health: map<string, bool>)
    requires Pair(x, y) && UniqueNames([x, y]) && NoComplaint(x, y, health)
    ensures Propagated([x, y], Decided([x, y], See(Two(x, y, Define(x), 2, 0, 3), health)))
         == map[x.name := Keep, y.name := Keep]
  {
    PairDecided(x, y, Define(x), 2, 0, 3, health);
    hide *;
    NoneRebuilt([x, y], Decided([x, y], See(Two(x, y, Define(x), 2, 0, 3), health)));
  }

  lemma NothingToDo(x: Service, y: Service, p: Plan, health: map<string, bool>)
    requires Pair(x, y) && UniqueNames([x, y]) && NoComplaint(x, y, health)
    requires PlannedFrom(p, [x, y], See(Two(x, y, Define(x), 2, 0, 3), health))
    ensures Idle(p)
  {
    var seen := See(Two(x, y, Define(x), 2, 0, 3), health);
    PairSeen(x, y, Define(x), 2, 0, 3, health);
    hide *;
    PairKept(x, y, health);
    QuietPlan(p, [x, y], seen, x.name, y.name);
  }

  lemma QuietPlan(p: Plan, services: seq<Service>, seen: Inventory, a: string, b: string)
    requires UniqueNames(services) && PlannedFrom(p, services, seen) && seen.Keys == Names(services)
    requires Propagated(services, Decided(services, seen)) == map[a := Keep, b := Keep]
    ensures Idle(p)
  {
    assert p.decisions == map[a := Keep, b := Keep];
    hide *;
    PlannedIsShaped(p, services, seen);
    NobodyGoes(p, services, seen);
    NoCalls(p);
  }

  lemma NobodyGoes(p: Plan, services: seq<Service>, seen: Inventory)
    requires UniqueNames(services) && PlannedFrom(p, services, seen) && seen.Keys == Names(services)
    ensures forall n :: n !in p.orphans
  {
    hide Propagated, Decided, DefinitionsOf, Respects, Names, UniqueNames, Distinct;
    assert forall n :: n in seen <==> n in seen.Keys;
  }

  lemma PlannedIsShaped(p: Plan, services: seq<Service>, seen: Inventory)
    requires UniqueNames(services) && PlannedFrom(p, services, seen)
    ensures Shaped(p)
  {
    hide Propagated, Decided, DefinitionsOf, Respects, Names, UniqueNames, Distinct;
    PlannedNames(p, services, seen);
    ShapedBy(p, Names(services), seen);
  }

  lemma ShapedBy(p: Plan, names: set<string>, seen: Inventory)
    requires p.decisions.Keys == names && p.definitions.Keys == names
    requires Distinct(p.order) && (forall n :: n in p.order <==> n in names)
    requires Distinct(p.orphans) && forall n :: n in p.orphans <==> n in seen && n !in names
    ensures Shaped(p)
  {
    hide Distinct;
  }

  lemma HasMember(s: seq<string>)
    requires s != []
    ensures exists n :: n in s
  {
    assert s[0] in s;
  }

  lemma NoMembers(s: seq<string>)
    requires forall n :: n !in s
    ensures s == []
  {
    if s != [] {
      HasMember(s);
      assert false;
    }
  }

  lemma NoCalls(p: Plan)
    requires Shaped(p) && (forall n :: n in p.decisions ==> p.decisions[n].Keep?) && forall n :: n !in p.orphans
    ensures Idle(p)
  {
    NoMembers(p.orphans);
    forall n ensures n !in Steps(p) { InSteps(p, n); }
    NoMembers(Steps(p));
    assert Removals(p) == [];
  }

  /** Every plan made from this inventory leaves everything as it is. */
  ghost predicate LeftAlone(services: seq<Service>, seen: Inventory)
    requires UniqueNames(services)
  {
    forall p :: PlannedFrom(p, services, seen) ==> Idle(p)
  }

  ghost predicate Idle(p: Plan) {
    Shaped(p) && forall skipped :: Calls(p, skipped) == []
  }

  lemma PairIsLeftAlone(x: Service, y: Service, health: map<string, bool>)
    requires Pair(x, y) && UniqueNames([x, y]) && NoComplaint(x, y, health)
    ensures LeftAlone([x, y], See(Two(x, y, Define(x), 2, 0, 3), health))
  {
    var seen := See(Two(x, y, Define(x), 2, 0, 3), health);
    hide PlannedFrom, Idle, Pair, UniqueNames, See;
    forall p | PlannedFrom(p, [x, y], seen) ensures Idle(p) {
      NothingToDo(x, y, p, health);
    }
  }

  ghost function PairPlan(x: Service, y: Service): Plan
    requires UniqueNames([x, y])
  {
    Plan([x.name, y.name], map[x.name := Recreate, y.name := Recreate], DefinitionsOf([x, y]), [])
  }

  /** The definition of `x` changes while the engine does not find `y`, which lives in its namespace:
      the deploy stops when `y` is to be created under its own name, `y` dangles, and since its
      definition and status are in order every later plan keeps it, as long as no liveness probe
      reports one of the two as failing. */
  lemma StaleSharerIsKept(x: Service, y: Service, former: Definition, health: map<string, bool>)
    requires Pair(x, y) && UniqueNames([x, y]) && former != Define(x) && former.network == Bridge && NoComplaint(x, y, health)
    ensures var w0, w1, p := Two(x, y, former, 0, 0, 2), Two(x, y, Define(x), 2, 0, 3), PairPlan(x, y);
      && Consistent(w0) && PlannedFrom(p, [x, y], See(w0, health)) && Shaped(p)
      && |Calls(p, {y.name})| >= 3 && AllAccepted(w0, Calls(p, {y.name})[..3]) && w1 == Run(w0, Calls(p, {y.name})[..3])
      && Dangling(w1, y.name) && forall later :: NoComplaint(x, y, later) ==> LeftAlone([x, y], See(w1, later))
  {
    PairShaped(x, y, PairPlan(x, y));
    hide *;
    PairPlanned(x, y, former, PairPlan(x, y), health);
    PairWorlds(x, y, former);
    forall later | NoComplaint(x, y, later) ensures LeftAlone([x, y], See(Two(x, y, Define(x), 2, 0, 3), later)) {
      PairIsLeftAlone(x, y, later);
    }
    PairStops(x, y, former, PairPlan(x, y));
  }

  lemma PairStops(x: Service, y: Service, former: Definition, p: Plan)
    requires Pair(x, y) && UniqueNames([x, y]) && p == PairPlan(x, y) && Shaped(p) && p.definitions[x.name] == Define(x)
    ensures var w0, calls := Two(x, y, former, 0, 0, 2), Calls(p, {y.name});
      |calls| >= 3 && AllAccepted(w0, calls[..3]) && Run(w0, calls[..3]) == Two(x, y, Define(x), 2, 0, 3)
  {
    assert x.name != y.name;
    hide *;
    PairCalls(p, x.name, y.name);
    PairRun(x, y, former);
  }

  lemma PairShaped(x: Service, y: Service, p: Plan)
    requires Pair(x, y) && UniqueNames([x, y])
    requires p == PairPlan(x, y)
    ensures Shaped(p) && p.definitions[x.name] == Define(x)
  {
    assert x in [x, y] && y in [x, y];
  }

  lemma PairWorlds(x: Service, y: Service, former: Definition)
    requires Pair(x, y) && former.network == Bridge
    ensures Consistent(Two(x, y, former, 0, 0, 2)) && Dangling(Two(x, y, Define(x), 2, 0, 3), y.name)
  {
  }

  lemma SomePair() returns (x: Service, y: Service, former: Definition)
    ensures Pair(x, y) && UniqueNames([x, y]) && Ready([x, y]) && former != Define(x) && former.network == Bridge
  {
    x, y, former := Service("a", true, {}, Bridge, "new"), Service("b", true, {"a"}, Share("a"), ""), Definition(Bridge, "old");
    assert "a"[0] != "b"[0] && "new"[0] != "old"[0];
    hide Ready;
    PairNames(x, y);
    PairIsReady(x, y);
  }
}
