/** The network namespace behind the convergence plan: what a link is, what a script run does to it,
    and what one round makes of the links that were there. */
module Namespace {
  import opened Wrappers
  import opened Order
  import opened FilePlan
  import opened Convergence

  // ----- scripts -----

  function FirstLine(text: string): (line: string)
    ensures line <= text && (|line| < |text| ==> text[|line|] == '\n')
  {
    if text == "" || text[0] == '\n' then "" else [text[0]] + FirstLine(text[1..])
  }

  function Lines(text: string): set<string>
    decreases |text|
  {
    if text == "" then {}
    else
      var line := FirstLine(text);
      {line} + if |line| < |text| then Lines(text[|line| + 1..]) else {}
  }

  /** The commands that give a link an address or a route. They replace an equal one and take none
      away. */
  predicate IsEntry(line: string) {
    StartsWith(line, "ip addr replace ") || StartsWith(line, "ip -6 addr replace ") ||
    StartsWith(line, "ip route replace ") || StartsWith(line, "ip -6 route replace ")
  }

  function Entries(script: string): set<string> {
    set l | l in Lines(script) && IsEntry(l)
  }

  // ----- links -----

  /** What a script run settles anew: the script with its MTU, and the conf that `wg syncconf` loads. */
  datatype Config = DummyConfig(script: string) | WgConfig(conf: string, script: string)

  /** A live link, with the addresses and routes that it has been given since it was created. */
  datatype Link = Link(config: Config, held: set<string>)

  type Links = map<string, Link>

  datatype Machine = Machine(disk: Tree, live: Links)

  function ReadFile(disk: Tree, path: string): string {
    if path in disk then disk[path] else ""
  }

  function ConfigOf(i: Interface): Config {
    if i.kind.WireGuard? then WgConfig(i.conf, i.script) else DummyConfig(i.script)
  }

  function RunScript(state: Desired, disk: Tree, name: string): Config {
    if name in NamesOf(state, WireGuard)
    then WgConfig(ReadFile(disk, ConfPath(name)), ReadFile(disk, ScriptPath(name)))
    else DummyConfig(ReadFile(disk, ScriptPath(name)))
  }

  function HeldBy(live: Links, name: string): set<string> {
    if name in live then live[name].held else {}
  }

  /** `ip link add ... || true`, so a live link is kept, and then the commands of the script. A script
      that is not on disk cannot run, and its link stays as it is. */
  function SyncLink(state: Desired, disk: Tree, live: Links, name: string): Links {
    if ScriptPath(name) in disk
    then live[name := Link(RunScript(state, disk, name), HeldBy(live, name) + Entries(disk[ScriptPath(name)]))]
    else live
  }

  function RunStep(state: Desired, disk: Tree, live: Links, step: Step): Links {
    match step
    case Reload => live
    case SyncLoopback => SyncLink(state, disk, live, LOOPBACK)
    case Sync(name) => SyncLink(state, disk, live, name)
    case Remove(name) => live - {name}
  }

  /** Steps listed in `failing` exit non-zero and leave the links alone; the others still run. */
  function RunSteps(state: Desired, disk: Tree, live: Links, steps: seq<Step>, failing: set<Step>): Links {
    if steps == [] then live
    else
      var before := RunSteps(state, disk, live, steps[..|steps| - 1], failing);
      var last := steps[|steps| - 1];
      if last in failing then before else RunStep(state, disk, before, last)
  }

  /** The links are exactly the dummies and WireGuard interfaces of the state, each with the script
      and the conf that the state renders for it. */
  ghost predicate Holds(state: Desired, live: Links) {
    && live.Keys == LinkNames(state)
    && forall i :: i in state.interfaces && !i.kind.Underlay? ==> live[i.name].config == ConfigOf(i)
  }

  /** And each with exactly the addresses and routes of its script. */
  ghost predicate Exact(state: Desired, live: Links) {
    && Holds(state, live)
    && forall i :: i in state.interfaces && !i.kind.Underlay? ==> live[i.name].held == Entries(i.script)
  }

  lemma ExactDetermines(state: Desired, a: Links, b: Links)
    requires Exact(state, a) && Exact(state, b)
    ensures a == b
  {
    hide Entries;
    forall n | n in a ensures a[n] == b[n] {
      var i :| i in state.interfaces && i.name == n && !i.kind.Underlay?;
    }
  }

  ghost predicate KindsMatch(state: Desired, kinds: map<string, LinkKind>) {
    forall i :: i in state.interfaces ==> PlainName(i.name) && i.name in kinds && kinds[i.name] == i.kind
  }

  const SCRIPTS := "scripts"

  /** One interface per name, plain names of a kind fixed for the whole run, the loopback a dummy if
      there is one, the aggregate scripts always rendered, and a clean rendering whose other files
      shadow no interface file. A decommissioned state, with no interface at all, is well formed. */
  ghost predicate WellFormed(state: Desired, kinds: map<string, LinkKind>) {
    && KindsMatch(state, kinds)
    && (forall i, j :: i in state.interfaces && j in state.interfaces && i.name == j.name ==> i == j)
    && (LOOPBACK in kinds ==> kinds[LOOPBACK] == Dummy)
    && SCRIPTS in Tops(Files(state))
    && Clean(Files(state))
    && (forall f :: f in state.others || f in state.zones ==> ConfName(f.path).None? && ScriptName(f.path).None?)
  }

  /** The links that the state asks for, without those left over. */
  function Wanted(state: Desired, live: Links): Links {
    map n | n in live && n in LinkNames(state) :: live[n]
  }

  /** What a round relies on: every link of the state is up, with its script and conf, and the disk
      holds the scripts of exactly the current interfaces and the confs of the current tunnels. Other
      links may be left over; so may confs of former tunnels, when the last tunnel took the
      `wireguard/` prefix out of the managed range. */
  ghost predicate InStep(m: Machine, state: Desired, kinds: map<string, LinkKind>) {
    && KindsMatch(state, kinds)
    && Holds(state, Wanted(state, m.live))
    && DiskInStep(m.disk, state, LinkNames(state), kinds)
  }

  ghost predicate DiskInStep(disk: Tree, state: Desired, names: set<string>, kinds: map<string, LinkKind>) {
    && (forall p :: p in disk ==> '\r' !in disk[p])
    && (forall n :: PlainName(n) && ScriptPath(n) in disk ==> n in names)
    && (forall n :: PlainName(n) && ConfPath(n) in disk ==> n in kinds && kinds[n] == WireGuard)
    && (forall i :: i in state.interfaces && !i.kind.Underlay? ==>
          ScriptPath(i.name) in disk && disk[ScriptPath(i.name)] == i.script)
    && (forall i :: i in state.interfaces && i.kind.WireGuard? ==>
          ConfPath(i.name) in disk && disk[ConfPath(i.name)] == i.conf)
  }

  /** A step that brings the link up is among the steps and does not fail. */
  ghost predicate Synced(steps: seq<Step>, failing: set<Step>, name: string) {
    (Sync(name) in steps && Sync(name) !in failing) ||
    (name == LOOPBACK && SyncLoopback in steps && SyncLoopback !in failing)
  }

  ghost predicate Removed(steps: seq<Step>, failing: set<Step>, name: string) {
    Remove(name) in steps && Remove(name) !in failing
  }

  ghost predicate SameLink(a: Links, b: Links, name: string) {
    (name in a <==> name in b) && (name in a ==> a[name] == b[name])
  }

  lemma {:induction false} RunAt(state: Desired, disk: Tree, live: Links, steps: seq<Step>, failing: set<Step>, name: string)
    ensures var out := RunSteps(state, disk, live, steps, failing);
      var up := Synced(steps, failing, name) && ScriptPath(name) in disk;
      && (!up && !Removed(steps, failing, name) ==> SameLink(out, live, name))
      && (up && !Removed(steps, failing, name) ==>
            name in out && out[name] == Link(RunScript(state, disk, name), HeldBy(live, name) + Entries(disk[ScriptPath(name)])))
      && (!up && Removed(steps, failing, name) ==> name !in out)
  {
    if steps != [] {
      var init, last := steps[..|steps| - 1], steps[|steps| - 1];
      assert steps == init + [last];
      RunAt(state, disk, live, init, failing, name);
      hide RunScript, ScriptPath, Entries;
      StepAt(state, disk, RunSteps(state, disk, live, init, failing), last, name);
      hide RunStep;
    }
  }

  /** One step touches one link. */
  lemma StepAt(state: Desired, disk: Tree, live: Links, step: Step, name: string)
    ensures var out := RunStep(state, disk, live, step);
      if step == Remove(name) then name !in out
      else if (step == Sync(name) || (name == LOOPBACK && step == SyncLoopback)) && ScriptPath(name) in disk then
        && name in out
        && out[name] == Link(RunScript(state, disk, name), HeldBy(live, name) + Entries(disk[ScriptPath(name)]))
      else SameLink(out, live, name)
  {
    hide RunScript, ScriptPath, Entries;
  }

  // ----- names and paths on disk -----

  lemma ScriptPathShape(name: string)
    requires PlainName(name)
    ensures TopSegment(ScriptPath(name)) == "scripts" && !IsTemp(ScriptPath(name))
  {
    var tail := "apply-" + name + SCRIPT_SUFFIX;
    assert ScriptPath(name) == "scripts/wg/" + tail;
    TopSegmentIs("scripts", "/wg/" + tail);
    assert ScriptPath(name) == "scripts" + ("/wg/" + tail);
    assert '/' !in tail && tail[0] == 'a';
    BaseOf("scripts/wg/", tail);
  }

  lemma {:induction false} BaseOf(dir: string, base: string)
    requires '/' !in base && (dir == "" || dir[|dir| - 1] == '/')
    ensures BaseName(dir + base) == base
  {
    if dir == "" {
      assert dir + base == base;
    } else {
      assert '/' in dir + base by { assert (dir + base)[|dir| - 1] == '/'; }
      assert (dir + base)[1..] == dir[1..] + base;
      BaseOf(dir[1..], base);
    }
  }

  lemma Owner(state: Desired, kinds: map<string, LinkKind>, f: Rendered) returns (i: Interface)
    requires WellFormed(state, kinds) && f in Files(state)
    requires ConfName(f.path).Some? || ScriptName(f.path).Some?
    ensures i in state.interfaces && f in InterfaceFiles(i)
  {
    i :| i in state.interfaces && f in InterfaceFiles(i);
  }

  lemma OwnedPath(i: Interface, f: Rendered, name: string)
    requires f in InterfaceFiles(i) && PlainName(i.name) && PlainName(name)
    ensures f.path == ScriptPath(name) ==> i.name == name
    ensures f.path == ConfPath(name) ==> i.name == name && i.kind.WireGuard?
  {
    PathsOf(name, f.path);
    PathsOf(i.name, f.path);
    PathsDiffer(name, i.name);
    PathsDiffer(i.name, name);
  }

  lemma RenderedOnlyFor(state: Desired, kinds: map<string, LinkKind>, name: string, f: Rendered)
    requires WellFormed(state, kinds) && PlainName(name) && f in Files(state)
    requires f.path == ScriptPath(name) || f.path == ConfPath(name)
    ensures name in NamesOf(state, Dummy) + NamesOf(state, WireGuard)
    ensures f.path == ConfPath(name) ==> name in NamesOf(state, WireGuard)
  {
    PathsOf(name, f.path);
    hide Files, ScriptPath, ConfPath, Contents, Clean, ConfName, ScriptName;
    var i := Owner(state, kinds, f);
    OwnedPath(i, f, name);
  }

  /** A script is rendered for exactly the dummies and tunnels, a conf for exactly the tunnels. */
  lemma RenderedPaths(state: Desired, kinds: map<string, LinkKind>, name: string)
    requires WellFormed(state, kinds) && PlainName(name)
    ensures ScriptPath(name) in Paths(Files(state)) <==> name in NamesOf(state, Dummy) + NamesOf(state, WireGuard)
    ensures ConfPath(name) in Paths(Files(state)) <==> name in NamesOf(state, WireGuard)
  {
    hide Files, ScriptPath, ConfPath, Contents;
    forall f | f in Files(state) && (f.path == ScriptPath(name) || f.path == ConfPath(name))
      ensures name in NamesOf(state, Dummy) + NamesOf(state, WireGuard)
      ensures f.path == ConfPath(name) ==> name in NamesOf(state, WireGuard)
    {
      RenderedOnlyFor(state, kinds, name, f);
    }
    forall i | i in state.interfaces && i.name == name && !i.kind.Underlay?
      ensures ScriptPath(name) in Paths(Files(state))
      ensures i.kind.WireGuard? ==> ConfPath(name) in Paths(Files(state))
    {
      RenderedContent(state, kinds, i);
    }
  }

  lemma PathsDiffer(a: string, b: string)
    ensures ScriptPath(a) != ConfPath(b)
  {
    assert ScriptPath(a)[0] == 's' && ConfPath(b)[0] == 'w';
  }

  lemma RenderedContent(state: Desired, kinds: map<string, LinkKind>, i: Interface)
    requires WellFormed(state, kinds) && i in state.interfaces && !i.kind.Underlay?
    ensures ScriptPath(i.name) in Paths(Files(state)) && Contents(Files(state))[ScriptPath(i.name)] == i.script
    ensures i.kind.WireGuard? ==>
      ConfPath(i.name) in Paths(Files(state)) && Contents(Files(state))[ConfPath(i.name)] == i.conf
  {
    assert Rendered(ScriptPath(i.name), i.script) in InterfaceFiles(i);
    assert Rendered(ScriptPath(i.name), i.script) in Files(state);
    if i.kind.WireGuard? {
      assert Rendered(ConfPath(i.name), i.conf) in InterfaceFiles(i);
      assert Rendered(ConfPath(i.name), i.conf) in Files(state);
    }
  }

  // ----- the files of one round -----

  /** The file at a rendered path after the plan ran over a tree without carriage returns. */
  lemma WrittenFile(files: seq<Rendered>, tree: Tree, p: string)
    requires Clean(files) && p in Paths(files) && (p in tree ==> '\r' !in tree[p])
    ensures p in Executed(files, tree) && Executed(files, tree)[p] == Contents(files)[p]
    ensures '\r' !in Contents(files)[p]
  {
    LastRendering(files, p);
    if p in tree { ReadTextIsIdentity(tree[p]); }
  }

  lemma DiskAfterRound(m: Machine, prev: Desired, next: Desired, kinds: map<string, LinkKind>)
    requires InStep(m, prev, kinds) && WellFormed(next, kinds)
    ensures DiskInStep(Executed(Files(next), m.disk), next, LinkNames(next), kinds)
  {
    var files, disk := Files(next), Executed(Files(next), m.disk);
    forall p | p in disk ensures '\r' !in disk[p] {
      if p in Paths(files) { WrittenFile(files, m.disk, p); }
    }
    forall n | PlainName(n) && ScriptPath(n) in disk ensures n in LinkNames(next) {
      RenderedPaths(next, kinds, n);
      if ScriptPath(n) !in Paths(files) {
        ScriptsAreManaged(next, kinds, n);
        assert IsOrphan(ScriptPath(n), files, m.disk);
        assert false;
      }
    }
    forall n | PlainName(n) && ConfPath(n) in disk ensures n in kinds && kinds[n] == WireGuard {
      RenderedPaths(next, kinds, n);
    }
    forall i | i in next.interfaces && !i.kind.Underlay?
      ensures ScriptPath(i.name) in disk && disk[ScriptPath(i.name)] == i.script
      ensures i.kind.WireGuard? ==> ConfPath(i.name) in disk && disk[ConfPath(i.name)] == i.conf
    {
      RenderedContent(next, kinds, i);
      WrittenFile(files, m.disk, ScriptPath(i.name));
      if i.kind.WireGuard? { WrittenFile(files, m.disk, ConfPath(i.name)); }
    }
  }

  lemma ScriptsAreManaged(state: Desired, kinds: map<string, LinkKind>, name: string)
    requires WellFormed(state, kinds) && PlainName(name)
    ensures TopSegment(ScriptPath(name)) in Tops(Files(state)) && !IsTemp(ScriptPath(name))
  {
    ScriptPathShape(name);
  }
}
