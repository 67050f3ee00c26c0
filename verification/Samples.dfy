/** Small states, and the runs they start, for the lemmas that show a concrete case. */
module Samples {
  import opened Wrappers
  import opened Order
  import opened FilePlan
  import opened Convergence
  import opened Namespace
  import opened Rounds

  /** A plan, whatever the tree. */
  ghost function SomePlan(files: seq<Rendered>, tree: Tree): (plan: seq<Action>)
    ensures IsPlan(plan, files, tree)
  {
    DeletesOf(Sorted(Orphans(files, tree)));
    assert (set p | p in Sorted(Orphans(files, tree))) == Orphans(files, tree);
    RenderedActions(files, tree) + Deletes(Sorted(Orphans(files, tree)))
  }

  /** Only interfaces, plain and of fixed kinds, each name once, without a carriage return. */
  ghost predicate OnlyPlain(state: Desired, kinds: map<string, LinkKind>) {
    && state.others == [] && state.zones == [] && KindsMatch(state, kinds)
    && (forall i, j :: i in state.interfaces && j in state.interfaces && i.name == j.name ==> i == j)
    && (forall i :: i in state.interfaces ==> '\r' !in i.conf && '\r' !in i.script)
  }

  lemma NoReturns(state: Desired, kinds: map<string, LinkKind>, f: Rendered)
    requires OnlyPlain(state, kinds) && f in Files(state)
    ensures '\r' !in f.content
  {
    hide Files, ScriptPath, ConfPath, PlainName;
    var i :| i in state.interfaces && f in InterfaceFiles(i);
  }

  /** Interface files never collide, so such a state renders cleanly. */
  lemma PlainIsClean(state: Desired, kinds: map<string, LinkKind>)
    requires OnlyPlain(state, kinds)
    ensures Clean(Files(state))
  {
    hide Files, Contents, PlainName;
    forall f | f in Files(state) ensures Contents(Files(state))[f.path] == f.content && '\r' !in f.content {
      LastRendering(Files(state), f.path);
      NoReturns(state, kinds, f);
      assert Rendered(f.path, Contents(Files(state))[f.path]) in Files(state);
      hide OnlyPlain;
      SamePathSameFile(state, kinds, f, Rendered(f.path, Contents(Files(state))[f.path]));
    }
  }

  lemma SamePathSameFile(state: Desired, kinds: map<string, LinkKind>, f: Rendered, g: Rendered)
    requires OnlyPlain(state, kinds)
    requires f in Files(state) && g in Files(state) && f.path == g.path
    ensures f == g
  {
    hide Files, ScriptPath, ConfPath, PlainName;
    var i :| i in state.interfaces && f in InterfaceFiles(i);
    var j :| j in state.interfaces && g in InterfaceFiles(j);
    OwnedPath(j, g, i.name);
    PathsDiffer(i.name, i.name);
  }

  lemma PlainIsWellFormed(state: Desired, kinds: map<string, LinkKind>, d: Interface)
    requires OnlyPlain(state, kinds) && (LOOPBACK in kinds ==> kinds[LOOPBACK] == Dummy)
    requires d in state.interfaces && d.kind.Dummy?
    ensures WellFormed(state, kinds)
  {
    hide Files, PlainName, Clean, InterfaceFiles, Tops, ConfName, ScriptName, TopSegment;
    assert KindsMatch(state, kinds) && PlainName(d.name);
    PlainIsClean(state, kinds);
    ScriptsAreUsed(state, d);
    hide KindsMatch;
  }

  lemma ScriptsAreUsed(state: Desired, i: Interface)
    requires i in state.interfaces && i.kind.Dummy? && PlainName(i.name)
    ensures SCRIPTS in Tops(Files(state))
  {
    ScriptPathShape(i.name);
    var f := Rendered(ScriptPath(i.name), i.script);
    assert f in InterfaceFiles(i);
    hide Files, TopSegment, ScriptPath;
    assert f in Files(state);
  }

  // ----- a loopback, and perhaps a tunnel -----

  const TUNNEL := "a"
  const OTHER := "b"
  const KINDS: map<string, LinkKind> := map[LOOPBACK := Dummy, TUNNEL := WireGuard, OTHER := WireGuard]

  /** Nothing is rebuilt; everything is; the gateway alone, in the namespace of router-netns. */
  const HOT := Rebuilt(false, false, false, true)
  const REBUILD := Rebuilt(true, true, true, true)
  const GATEWAY_ONLY := Rebuilt(false, true, false, true)

  function Pair(lo: string, t: Option<Interface>): Desired {
    Desired([Interface(lo, Dummy, "", "")] + (if t.Some? then [t.value] else []), [], [])
  }

  function Tunnel(name: string, conf: string): Interface {
    Interface(name, WireGuard, conf, "")
  }

  /** The tunnel "a" with this conf, or none. */
  function Node(conf: Option<string>): Desired {
    Pair(LOOPBACK, if conf.Some? then Some(Tunnel(TUNNEL, conf.value)) else None)
  }

  lemma NamesDiffer()
    ensures PlainName(LOOPBACK) && PlainName(TUNNEL) && PlainName(OTHER)
    ensures LOOPBACK != TUNNEL && LOOPBACK != OTHER && TUNNEL != OTHER
  {
    LoopbackIsPlain();
    assert |LOOPBACK| == 7 && |TUNNEL| == 1 && |OTHER| == 1 && |ALL_WG| == 6 && TUNNEL[0] == 'a' && OTHER[0] == 'b';
  }

  lemma PairIsPlain(lo: string, t: Option<Interface>, kinds: map<string, LinkKind>)
    requires PlainName(lo) && lo in kinds && kinds[lo] == Dummy
    requires t.Some? ==> PlainName(t.value.name) && t.value.name in kinds && t.value.name != lo && t.value.kind.WireGuard?
    requires t.Some? ==> kinds[t.value.name] == WireGuard && '\r' !in t.value.conf && '\r' !in t.value.script
    ensures OnlyPlain(Pair(lo, t), kinds)
    ensures LinkNames(Pair(lo, t)) == {lo} + (if t.Some? then {t.value.name} else {})
    ensures Interface(lo, Dummy, "", "") in Pair(lo, t).interfaces && (t.Some? ==> t.value in Pair(lo, t).interfaces)
  {
    hide PlainName;
    var s := Pair(lo, t);
    assert s.interfaces[0] == Interface(lo, Dummy, "", "") && (t.Some? ==> s.interfaces[1] == t.value);
  }

  lemma PairIsWellFormed(t: Option<Interface>)
    requires t.Some? ==> t.value.name in {TUNNEL, OTHER} && t.value.kind.WireGuard?
    requires t.Some? ==> '\r' !in t.value.conf && '\r' !in t.value.script
    ensures WellFormed(Pair(LOOPBACK, t), KINDS)
    ensures LinkNames(Pair(LOOPBACK, t)) == {LOOPBACK} + (if t.Some? then {t.value.name} else {})
    ensures t.Some? ==> t.value in Pair(LOOPBACK, t).interfaces
  {
    NamesDiffer();
    PairIsPlain(LOOPBACK, t, KINDS);
    hide Pair, OnlyPlain, LinkNames, WellFormed;
    PlainIsWellFormed(Pair(LOOPBACK, t), KINDS, Interface(LOOPBACK, Dummy, "", ""));
  }

  lemma NodeIsWellFormed(conf: Option<string>)
    requires conf.Some? ==> '\r' !in conf.value
    ensures WellFormed(Node(conf), KINDS)
    ensures LinkNames(Node(conf)) == {LOOPBACK} + (if conf.Some? then {TUNNEL} else {})
    ensures conf.Some? ==> Tunnel(TUNNEL, conf.value) in Node(conf).interfaces
  {
    hide WellFormed, Pair;
    PairIsWellFormed(if conf.Some? then Some(Tunnel(TUNNEL, conf.value)) else None);
  }

  /** One more round of a run, with some plan for the disk it finds. */
  ghost function Then(rounds: seq<Round>, state: Desired, rebuilt: Rebuilt): seq<Round> {
    rounds + [Round(state, rebuilt, SomePlan(Files(state), AfterRounds(rounds).disk))]
  }

  lemma ThenIsRun(rounds: seq<Round>, kinds: map<string, LinkKind>, state: Desired, rebuilt: Rebuilt)
    requires IsRun(rounds, kinds) && WellFormed(state, kinds)
    ensures var more := Then(rounds, state, rebuilt);
      && IsRun(more, kinds) && LastState(more) == state && more[..|more| - 1] == rounds
      && InStep(AfterRounds(more), state, kinds)
  {
    hide WellFormed, AfterRounds, Files, InStep;
    var more := Then(rounds, state, rebuilt);
    assert more[..|more| - 1] == rounds;
    RunStaysInStep(more, kinds);
  }

  lemma EmptyRun(kinds: map<string, LinkKind>)
    ensures IsRun([], kinds) && AlwaysTidy([])
  {
  }

  /** A node that runs the tunnel with conf "1". */
  ghost function FirstRun(): seq<Round> {
    Then([], Node(Some("1")), REBUILD)
  }

  ghost function Before(): Machine {
    AfterRounds(FirstRun())
  }

  lemma FirstIsRun()
    ensures IsRun(FirstRun(), KINDS) && LastState(FirstRun()) == Node(Some("1")) && AlwaysTidy(FirstRun())
    ensures WellFormed(Node(Some("1")), KINDS) && InStep(Before(), Node(Some("1")), KINDS) && Holds(Node(Some("1")), Before().live)
  {
    hide WellFormed, AfterRounds, InStep, IsRun, Holds, Node, AlwaysTidy, LinkNames, Then;
    EmptyRun(KINDS);
    NodeIsWellFormed(Some("1"));
    ThenIsRun([], KINDS, Node(Some("1")), REBUILD);
    RebuiltIsTidy(Node(Some("1")));
    RunHoldsIff(FirstRun(), KINDS);
  }

  lemma RebuiltIsTidy(state: Desired)
    ensures AlwaysTidy(Then([], state, REBUILD))
  {
    hide LinkNames, AfterRounds, Files;
    EmptyRun(KINDS);
    var run := Then([], state, REBUILD);
    assert run[..|run| - 1] == [];
  }

  lemma BeforeHasLinks()
    ensures LOOPBACK in Before().live && TUNNEL in Before().live && Before().live[TUNNEL].config == WgConfig("1", "")
    ensures Before().live.Keys == {LOOPBACK, TUNNEL}
  {
    hide Before, WellFormed, InStep, Node, IsRun, FirstRun, AlwaysTidy, Holds, LinkNames, LastState;
    FirstIsRun();
    NodeIsWellFormed(Some("1"));
    HeldTunnel(Node(Some("1")), Before().live, Tunnel(TUNNEL, "1"));
  }

  lemma HeldTunnel(state: Desired, live: Links, i: Interface)
    requires Holds(state, live) && i in state.interfaces && i.kind.WireGuard?
    ensures live.Keys == LinkNames(state) && i.name in live && live[i.name].config == WgConfig(i.conf, i.script)
  {
    assert i.name in LinkNames(state);
  }
}
