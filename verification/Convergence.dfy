/** Local convergence: from one file plan to the actions that bring the links of the router's
    network namespace to the new desired state without a rebuild. */
module Convergence {
  import opened Wrappers
  import opened Order
  import opened FilePlan

  datatype LinkKind = Dummy | WireGuard | Underlay

  /** `conf` and `script` stand for what the templates render from the interface. */
  datatype Interface = Interface(name: string, kind: LinkKind, conf: string, script: string)

  /** `others` are the files rendered before those of the interfaces (start scripts, bird), `zones`
      those after them (coredns). */
  datatype Desired = Desired(interfaces: seq<Interface>, others: seq<Rendered>, zones: seq<Rendered>)

  const LOOPBACK := "dn42-lo"
  const ALL_WG := "all-wg"
  const CONF_PREFIX := "wireguard/"
  const CONF_SUFFIX := ".conf"
  const SCRIPT_PREFIX := "scripts/wg/apply-"
  const SCRIPT_SUFFIX := ".sh"

  // ----- paths -----

  function ConfPath(name: string): string {
    CONF_PREFIX + name + CONF_SUFFIX
  }

  function ScriptPath(name: string): string {
    SCRIPT_PREFIX + name + SCRIPT_SUFFIX
  }

  predicate EndsWith(s: string, suffix: string) {
    |suffix| <= |s| && s[|s| - |suffix|..] == suffix
  }

  /** The middle of `prefix + name + suffix`, if it names something. Python's `startswith` and
      `endswith` may overlap, and its slice is then empty. */
  function Between(path: string, prefix: string, suffix: string): Option<string> {
    if !StartsWith(path, prefix) || !EndsWith(path, suffix) then None
    else if |path| < |prefix| + |suffix| then None
    else
      var name := path[|prefix|..|path| - |suffix|];
      if name == "" || '/' in name then None else Some(name)
  }

  /** `_wg_conf_interface`. */
  function ConfName(path: string): Option<string> {
    Between(path, CONF_PREFIX, CONF_SUFFIX)
  }

  /** `_apply_script_name`: any interface script except the aggregate one. */
  function ScriptName(path: string): Option<string> {
    var name := Between(path, SCRIPT_PREFIX, SCRIPT_SUFFIX);
    if name == Some(ALL_WG) then None else name
  }

  /** `_apply_script_interface`: the loopback script is excluded too. */
  function WgScriptName(path: string): Option<string> {
    var name := ScriptName(path);
    if name == Some(LOOPBACK) then None else name
  }

  predicate PlainName(name: string) {
    name != "" && '/' !in name && name != ALL_WG
  }

  lemma BetweenIs(name: string, path: string, prefix: string, suffix: string)
    requires name != "" && '/' !in name
    ensures Between(path, prefix, suffix) == Some(name) <==> path == prefix + name + suffix
  {
    var whole := prefix + name + suffix;
    assert whole[|prefix|..|whole| - |suffix|] == name;
    assert whole[|whole| - |suffix|..] == suffix;
    if Between(path, prefix, suffix) == Some(name) {
      assert path == path[..|prefix|] + path[|prefix|..|path| - |suffix|] + path[|path| - |suffix|..];
    }
  }

  lemma PathsOf(name: string, path: string)
    requires PlainName(name)
    ensures ConfName(path) == Some(name) <==> path == ConfPath(name)
    ensures ScriptName(path) == Some(name) <==> path == ScriptPath(name)
    ensures WgScriptName(path) == Some(name) <==> path == ScriptPath(name) && name != LOOPBACK
  {
    BetweenIs(name, path, CONF_PREFIX, CONF_SUFFIX);
    BetweenIs(name, path, SCRIPT_PREFIX, SCRIPT_SUFFIX);
  }

  // ----- rendering -----

  function InterfaceFiles(i: Interface): seq<Rendered> {
    match i.kind
    case Dummy => [Rendered(ScriptPath(i.name), i.script)]
    case WireGuard => [Rendered(ConfPath(i.name), i.conf), Rendered(ScriptPath(i.name), i.script)]
    case Underlay => []
  }

  function Render(interfaces: seq<Interface>): (files: seq<Rendered>)
    ensures forall f :: f in files <==> exists i :: i in interfaces && f in InterfaceFiles(i)
  {
    if interfaces == [] then []
    else
      assert interfaces == interfaces[..|interfaces| - 1] + [interfaces[|interfaces| - 1]];
      Render(interfaces[..|interfaces| - 1]) + InterfaceFiles(interfaces[|interfaces| - 1])
  }

  predicate NameBefore(a: Interface, b: Interface) {
    Less(a.name, b.name)
  }

  predicate PathBefore(a: Rendered, b: Rendered) {
    Less(a.path, b.path)
  }

  /** Interfaces are rendered by name, and the whole list is then sorted by path. */
  function Files(state: Desired): (files: seq<Rendered>)
    ensures forall f :: f in files <==>
      f in state.others || f in state.zones || exists i :: i in state.interfaces && f in InterfaceFiles(i)
  {
    var sorted := SortBy(state.interfaces, NameBefore);
    RenderSame(sorted, state.interfaces);
    SortBy(state.others + Render(sorted) + state.zones, PathBefore)
  }

  lemma RenderSame(a: seq<Interface>, b: seq<Interface>)
    requires forall i :: i in a <==> i in b
    ensures forall f :: f in Render(a) <==> exists i :: i in b && f in InterfaceFiles(i)
  {
  }

  lemma PathsInOrder(state: Desired)
    ensures InOrder(Files(state), PathBefore)
    ensures InOrder(SortBy(state.interfaces, NameBefore), NameBefore)
  {
    forall a: Rendered, b: Rendered ensures !(PathBefore(a, b) && PathBefore(b, a)) { Total(a.path, b.path); }
    forall a: Interface, b: Interface ensures !(NameBefore(a, b) && NameBefore(b, a)) { Total(a.name, b.name); }
    SortedInOrder(SortBy(state.interfaces, NameBefore), NameBefore);
    SortedInOrder(state.interfaces, NameBefore);
    SortedInOrder(state.others + Render(SortBy(state.interfaces, NameBefore)) + state.zones, PathBefore);
  }

  /** `render_desired_state`: the loop over the interfaces by name, between the other files, and the
      list in path order. */
  method RenderDesiredState(state: Desired) returns (files: seq<Rendered>)
    ensures files == Files(state) && InOrder(files, PathBefore)
    ensures multiset(files) == multiset(state.others + Render(SortBy(state.interfaces, NameBefore)) + state.zones)
  {
    PathsInOrder(state);
    hide Less, NameBefore, PathBefore, Render, SortBy, InOrder;
    var own := RenderInterfaces(SortBy(state.interfaces, NameBefore));
    files := SortBy(state.others + own + state.zones, PathBefore);
  }

  method RenderInterfaces(interfaces: seq<Interface>) returns (files: seq<Rendered>)
    ensures files == Render(interfaces)
  {
    files := [];
    for k := 0 to |interfaces|
      invariant files == Render(interfaces[..k])
    {
      assert interfaces[..k + 1][..k] == interfaces[..k];
      var i := interfaces[k];
      if i.kind.Dummy? {
        files := files + [Rendered(ScriptPath(i.name), i.script)];
      } else if i.kind.WireGuard? {
        files := files + [Rendered(ConfPath(i.name), i.conf)];
        files := files + [Rendered(ScriptPath(i.name), i.script)];
      }
    }
    assert interfaces[..|interfaces|] == interfaces;
  }

  function NamesOf(state: Desired, kind: LinkKind): set<string> {
    set i | i in state.interfaces && i.kind == kind :: i.name
  }

  function AllNames(state: Desired): set<string> {
    set i | i in state.interfaces :: i.name
  }

  function LinkNames(state: Desired): set<string> {
    NamesOf(state, Dummy) + NamesOf(state, WireGuard)
  }

  /** `_managed_dummy_interface_names` without the sorting. */
  function ManagedDummies(state: Desired): set<string> {
    NamesOf(state, Dummy) - {LOOPBACK}
  }

  // ----- the plan -----

  datatype Step = Reload | SyncLoopback | Sync(name: string) | Remove(name: string)

  function Named(name: Option<string>): set<string> {
    if name.Some? then {name.value} else {}
  }

  /** Names of the WireGuard interfaces one file action makes us sync, and those it removes. */
  function WgChange(names: set<string>, a: Action): set<string> {
    if IsWrite(a) then (Named(ConfName(a.path)) + Named(WgScriptName(a.path))) * names else {}
  }

  function WgGone(a: Action): set<string> {
    if a.kind.Delete? then Named(ConfName(a.path)) else {}
  }

  /** The same for dummies other than the loopback, which have no conf. A deleted script counts
      only if no interface bears the name and no conf of that name is deleted alongside. */
  function DummyChange(managed: set<string>, a: Action): set<string> {
    if IsWrite(a) then Named(ScriptName(a.path)) * managed else {}
  }

  function DummyGone(current: set<string>, confDeleted: set<string>, a: Action): set<string> {
    if a.kind.Delete? then Named(ScriptName(a.path)) - current - confDeleted else {}
  }

  function Gather(actions: seq<Action>, f: Action -> set<string>): (names: set<string>)
    ensures forall n :: n in names <==> exists a :: a in actions && n in f(a)
  {
    if actions == [] then {}
    else
      var last := actions[|actions| - 1];
      assert actions == actions[..|actions| - 1] + [last];
      Gather(actions[..|actions| - 1], f) + f(last)
  }

  lemma GatherNext(actions: seq<Action>, k: nat, f: Action -> set<string>)
    requires k < |actions|
    ensures Gather(actions[..k + 1], f) == Gather(actions[..k], f) + f(actions[k])
  {
    assert actions[..k + 1][..k] == actions[..k];
  }

  function WgChanges(state: Desired, actions: seq<Action>): set<string> {
    var names := NamesOf(state, WireGuard);
    Gather(actions, a => WgChange(names, a))
  }

  function WgRemovals(actions: seq<Action>): set<string> {
    Gather(actions, WgGone)
  }

  function DummyChanges(state: Desired, actions: seq<Action>): set<string> {
    var managed := ManagedDummies(state);
    Gather(actions, a => DummyChange(managed, a))
  }

  function DummyRemovals(state: Desired, actions: seq<Action>): set<string> {
    var current, confDeleted := AllNames(state) + {LOOPBACK}, WgRemovals(actions);
    Gather(actions, a => DummyGone(current, confDeleted, a))
  }

  /** `_changed_wg_interfaces`. */
  method ChangedWireGuard(state: Desired, actions: seq<Action>) returns (changed: seq<string>, removed: seq<string>)
    ensures changed == Sorted(WgChanges(state, actions)) && removed == Sorted(WgRemovals(actions))
  {
    hide Gather, WgChange, WgGone, NamesOf, Less;
    var names := NamesOf(state, WireGuard);
    ghost var f := a => WgChange(names, a);
    assert Gather(actions[..0], f) == {} && Gather(actions[..0], WgGone) == {} by { GatherNone(f); }
    var change, gone := {}, {};
    for k := 0 to |actions|
      invariant change == Gather(actions[..k], f) && gone == Gather(actions[..k], WgGone)
    {
      GatherNext(actions, k, f);
      GatherNext(actions, k, WgGone);
      change, gone := NoteTunnel(actions[k], names, change, gone);
    }
    assert actions[..|actions|] == actions;
    changed, removed := Sorted(change), Sorted(gone);
  }

  lemma GatherNone(f: Action -> set<string>)
    ensures forall actions: seq<Action> :: Gather(actions[..0], f) == {} && Gather(actions[..0], WgGone) == {}
  {
  }

  method NoteTunnel(a: Action, names: set<string>, change: set<string>, gone: set<string>)
      returns (changeNow: set<string>, goneNow: set<string>)
    ensures changeNow == change + WgChange(names, a)
    ensures goneNow == gone + WgGone(a)
  {
    hide ConfName, WgScriptName;
    changeNow, goneNow := change, gone;
    var conf, script := ConfName(a.path), WgScriptName(a.path);
    if IsWrite(a) {
      if conf.Some? && conf.value in names { changeNow := changeNow + {conf.value}; }
      if script.Some? && script.value in names { changeNow := changeNow + {script.value}; }
    } else if a.kind.Delete? && conf.Some? {
      goneNow := goneNow + {conf.value};
    }
  }

  method NoteDummy(a: Action, managed: set<string>, current: set<string>, confDeleted: set<string>,
                   change: set<string>, gone: set<string>) returns (changeNow: set<string>, goneNow: set<string>)
    ensures changeNow == change + DummyChange(managed, a)
    ensures goneNow == gone + DummyGone(current, confDeleted, a)
  {
    changeNow, goneNow := change, gone;
    var name := ScriptName(a.path);
    if !a.kind.Noop? && name.Some? {
      if IsWrite(a) {
        if name.value in managed { changeNow := change + {name.value}; }
      } else if name.value !in current && name.value !in confDeleted {
        goneNow := gone + {name.value};
      }
    }
  }

  /** `_changed_dummy_interfaces`. */
  method ChangedDummies(state: Desired, actions: seq<Action>) returns (changed: seq<string>, removed: seq<string>)
    ensures changed == Sorted(DummyChanges(state, actions)) && removed == Sorted(DummyRemovals(state, actions))
  {
    hide Gather, DummyChange, DummyGone, WgGone, ManagedDummies, AllNames, Less;
    var managed := ManagedDummies(state);
    var current := AllNames(state) + {LOOPBACK};
    var confDeleted := Gather(actions, WgGone);
    ghost var f, g := a => DummyChange(managed, a), a => DummyGone(current, confDeleted, a);
    assert Gather(actions[..0], f) == {} && Gather(actions[..0], g) == {};
    var change, gone := {}, {};
    for k := 0 to |actions|
      invariant change == Gather(actions[..k], f) && gone == Gather(actions[..k], g)
    {
      GatherNext(actions, k, f);
      GatherNext(actions, k, g);
      change, gone := NoteDummy(actions[k], managed, current, confDeleted, change, gone);
    }
    assert actions[..|actions|] == actions;
    changed, removed := Sorted(change), Sorted(gone);
  }

  function Syncs(names: seq<string>): seq<Step> {
    seq(|names|, k requires 0 <= k < |names| => Sync(names[k]))
  }

  function Removes(names: seq<string>): seq<Step> {
    seq(|names|, k requires 0 <= k < |names| => Remove(names[k]))
  }

  predicate BirdChanged(actions: seq<Action>) {
    exists k :: 0 <= k < |actions| && StartsWith(actions[k].path, "bird/") && !actions[k].kind.Noop?
  }

  predicate LoopbackChanged(actions: seq<Action>) {
    exists k :: 0 <= k < |actions| && actions[k].path == ScriptPath(LOOPBACK) && IsWrite(actions[k])
  }

  /** Which of the three roles the container plan (re)creates, and whether the gateway lives in the
      network namespace of router-netns, which nothing but the plan's definitions decides. */
  datatype Rebuilt = Rebuilt(netns: bool, gateway: bool, bird: bool, shared: bool)

  /** The planner takes the namespace for lost. */
  predicate BringsUp(rebuilt: Rebuilt) {
    rebuilt.netns || rebuilt.gateway
  }

  /** The namespace the scripts run in is gone: that of the container that owns it. */
  predicate Emptied(rebuilt: Rebuilt) {
    if rebuilt.shared then rebuilt.netns else rebuilt.gateway
  }

  function FullBringUp(before: seq<Step>, state: Desired): seq<Step> {
    Assemble(before + [SyncLoopback], ManagedDummies(state), NamesOf(state, WireGuard), {}, {})
  }

  /** Dummies then tunnels are synced, tunnels then dummies removed, each group by name. */
  function Assemble(before: seq<Step>, dummies: set<string>, tunnels: set<string>,
                    tunnelsGone: set<string>, dummiesGone: set<string>): seq<Step> {
    before + Syncs(Sorted(dummies)) + Syncs(Sorted(tunnels)) + Removes(Sorted(tunnelsGone)) + Removes(Sorted(dummiesGone))
  }

  function HotSteps(before: seq<Step>, state: Desired, actions: seq<Action>): seq<Step> {
    Assemble(if LoopbackChanged(actions) then before + [SyncLoopback] else before,
             DummyChanges(state, actions), WgChanges(state, actions), WgRemovals(actions), DummyRemovals(state, actions))
  }

  function Plan(state: Desired, rebuilt: Rebuilt, actions: seq<Action>): seq<Step> {
    var reload := if BirdChanged(actions) && !rebuilt.bird then [Reload] else [];
    if BringsUp(rebuilt) then FullBringUp(reload, state) else HotSteps(reload, state, actions)
  }

  /** Reload, loopback, then what is synced, then what is removed. */
  function Phase(step: Step): nat {
    match step
    case Reload => 0
    case SyncLoopback => 1
    case Sync(_) => 2
    case Remove(_) => 3
  }

  /** In phases, with one reload at most. */
  ghost predicate InPhases(steps: seq<Step>) {
    forall i, j :: 0 <= i < j < |steps| ==> Phase(steps[i]) <= Phase(steps[j]) && !steps[j].Reload?
  }

  /** Some file under `bird/` is created, updated or deleted. */
  ghost predicate TouchesBird(actions: seq<Action>) {
    exists a :: a in actions && "bird/" <= a.path && !a.kind.Noop?
  }

  ghost predicate HasLink(state: Desired, kind: LinkKind, name: string) {
    exists i :: i in state.interfaces && i.name == name && i.kind == kind
  }

  /** What a hot plan does to the link of this name, as the files of its interface decide it. */
  ghost predicate HotFor(state: Desired, actions: seq<Action>, steps: seq<Step>, name: string) {
    && (Sync(name) in steps <==>
          (HasLink(state, WireGuard, name) &&
            (Writes(actions, ConfPath(name)) || (name != LOOPBACK && Writes(actions, ScriptPath(name))))) ||
          (HasLink(state, Dummy, name) && name != LOOPBACK && Writes(actions, ScriptPath(name))))
    && (Remove(name) in steps <==>
          Action(Delete, ConfPath(name)) in actions ||
          (Action(Delete, ScriptPath(name)) in actions && name != LOOPBACK &&
            forall i :: i in state.interfaces ==> i.name != name))
  }

  /** What a plan that brings everything up does to it. */
  ghost predicate UpFor(state: Desired, steps: seq<Step>, name: string) {
    && (Sync(name) in steps <==> HasLink(state, WireGuard, name) || (HasLink(state, Dummy, name) && name != LOOPBACK))
    && Remove(name) !in steps
  }

  /** `build_convergence_plan`. A state may have no service in the role of the router or of the
      gateway; then nothing is reloaded or nothing is done to links. */
  method BuildConvergencePlan(state: Desired, hasBird: bool, hasGateway: bool, rebuilt: Rebuilt, actions: seq<Action>)
      returns (steps: seq<Step>)
    ensures hasBird && hasGateway ==> steps == Plan(state, rebuilt, actions)
    ensures InPhases(steps)
    ensures Reload in steps <==> hasBird && !rebuilt.bird && TouchesBird(actions)
    ensures !hasGateway ==> forall s :: s in steps ==> s == Reload
    ensures hasGateway ==>
      (SyncLoopback in steps <==> rebuilt.netns || rebuilt.gateway || Writes(actions, ScriptPath(LOOPBACK)))
    ensures hasGateway && (rebuilt.netns || rebuilt.gateway) ==> forall n :: UpFor(state, steps, n)
    ensures hasGateway && !rebuilt.netns && !rebuilt.gateway ==> forall n :: PlainName(n) ==> HotFor(state, actions, steps, n)
  {
    BirdChangedIff(actions);
    hide Syncs, Removes, ManagedDummies, NamesOf, LoopbackChanged, BirdChanged, DummyChanges, WgChanges, WgRemovals, DummyRemovals,
         HotFor, UpFor, TouchesBird, Writes, ScriptPath, PlainName;
    steps := [];
    if hasBird && BirdChanged(actions) && !rebuilt.bird {
      steps := [Reload];
    }
    ghost var reload := steps;
    if !hasGateway {
      return;
    }
    if rebuilt.netns || rebuilt.gateway {
      steps := steps + [SyncLoopback];
      steps := steps + Syncs(Sorted(ManagedDummies(state)));
      steps := steps + Syncs(Sorted(NamesOf(state, WireGuard)));
      BroughtUp(reload, state, steps);
      return;
    }
    if LoopbackChanged(actions) {
      steps := steps + [SyncLoopback];
    }
    var dummyChanged, dummyRemoved := ChangedDummies(state, actions);
    var changed, removed := ChangedWireGuard(state, actions);
    steps := steps + Syncs(dummyChanged);
    steps := steps + Syncs(changed);
    steps := steps + Removes(removed);
    steps := steps + Removes(dummyRemoved);
    Updated(reload, state, actions);
  }

  lemma BirdChangedIff(actions: seq<Action>)
    ensures BirdChanged(actions) <==> TouchesBird(actions)
  {
    if BirdChanged(actions) {
      var k :| 0 <= k < |actions| && StartsWith(actions[k].path, "bird/") && !actions[k].kind.Noop?;
      assert actions[k] in actions;
    }
  }

  // ----- what the plan contains -----

  lemma InAssembled(before: seq<Step>, a: set<string>, b: set<string>, c: set<string>, d: set<string>, name: string)
    ensures var all := Assemble(before, a, b, c, d);
      && (Sync(name) in all <==> Sync(name) in before || name in a || name in b)
      && (SyncLoopback in all <==> SyncLoopback in before)
      && (Remove(name) in all <==> Remove(name) in before || name in c || name in d)
  {
    SyncsOf(Sorted(a), name);
    SyncsOf(Sorted(b), name);
    SyncsOf(Sorted(c), name);
    SyncsOf(Sorted(d), name);
  }

  lemma InPlan(before: seq<Step>, state: Desired, actions: seq<Action>, name: string)
    requires forall s :: s in before ==> s == Reload
    ensures var hot := HotSteps(before, state, actions);
      && (Sync(name) in hot <==> name in DummyChanges(state, actions) || name in WgChanges(state, actions))
      && (SyncLoopback in hot <==> LoopbackChanged(actions))
      && (Remove(name) in hot <==> name in WgRemovals(actions) || name in DummyRemovals(state, actions))
    ensures var full := FullBringUp(before, state);
      && (Sync(name) in full <==> name in ManagedDummies(state) || name in NamesOf(state, WireGuard))
      && SyncLoopback in full && Remove(name) !in full
  {
    var start := if LoopbackChanged(actions) then before + [SyncLoopback] else before;
    InAssembled(start, DummyChanges(state, actions), WgChanges(state, actions),
                WgRemovals(actions), DummyRemovals(state, actions), name);
    InAssembled(before + [SyncLoopback], ManagedDummies(state), NamesOf(state, WireGuard), {}, {}, name);
  }

  lemma SyncsOf(names: seq<string>, name: string)
    ensures Sync(name) in Syncs(names) <==> name in names
    ensures Remove(name) in Removes(names) <==> name in names
    ensures Remove(name) !in Syncs(names) && SyncLoopback !in Syncs(names)
    ensures Sync(name) !in Removes(names) && SyncLoopback !in Removes(names)
  {
    if name in names {
      var k :| 0 <= k < |names| && names[k] == name;
      assert Syncs(names)[k] == Sync(name) && Removes(names)[k] == Remove(name);
    }
  }

  lemma ActionsOf(actions: seq<Action>, name: string)
    requires PlainName(name)
    ensures forall a :: a in actions ==>
      && (ConfName(a.path) == Some(name) <==> a.path == ConfPath(name))
      && (ScriptName(a.path) == Some(name) <==> a.path == ScriptPath(name))
      && (WgScriptName(a.path) == Some(name) <==> a.path == ScriptPath(name) && name != LOOPBACK)
      && a == Action(a.kind, a.path)
  {
    hide ConfName, ScriptName, WgScriptName, ConfPath, ScriptPath, PlainName;
    forall a | a in actions
      ensures ConfName(a.path) == Some(name) <==> a.path == ConfPath(name)
      ensures ScriptName(a.path) == Some(name) <==> a.path == ScriptPath(name)
      ensures WgScriptName(a.path) == Some(name) <==> a.path == ScriptPath(name) && name != LOOPBACK
    {
      PathsOf(name, a.path);
    }
  }

  lemma WgCauses(state: Desired, actions: seq<Action>, name: string)
    requires PlainName(name)
    ensures name in WgChanges(state, actions) <==>
      name in NamesOf(state, WireGuard) &&
      (Writes(actions, ConfPath(name)) || (name != LOOPBACK && Writes(actions, ScriptPath(name))))
    ensures name in WgRemovals(actions) <==> Action(Delete, ConfPath(name)) in actions
  {
    ActionsOf(actions, name);
    hide ConfName, ScriptName, WgScriptName, ConfPath, ScriptPath, PlainName, NamesOf;
  }

  lemma DummyCauses(state: Desired, actions: seq<Action>, name: string)
    requires PlainName(name)
    ensures name in DummyChanges(state, actions) <==> name in ManagedDummies(state) && Writes(actions, ScriptPath(name))
    ensures name in DummyRemovals(state, actions) <==>
      Action(Delete, ScriptPath(name)) in actions &&
      name !in AllNames(state) + {LOOPBACK} && name !in WgRemovals(actions)
  {
    ActionsOf(actions, name);
    hide ConfName, ScriptName, WgScriptName, ConfPath, ScriptPath, PlainName, AllNames, ManagedDummies, WgRemovals;
  }

  lemma LoopbackCauses(actions: seq<Action>)
    ensures LoopbackChanged(actions) <==> Writes(actions, ScriptPath(LOOPBACK))
  {
    hide ScriptPath;
    if LoopbackChanged(actions) {
      var k :| 0 <= k < |actions| && actions[k].path == ScriptPath(LOOPBACK) && IsWrite(actions[k]);
      assert actions[k] == Action(actions[k].kind, ScriptPath(LOOPBACK)) && actions[k] in actions;
    }
  }

  lemma Causes(state: Desired, actions: seq<Action>, name: string)
    requires PlainName(name)
    ensures name in WgChanges(state, actions) <==>
      name in NamesOf(state, WireGuard) &&
      (Writes(actions, ConfPath(name)) || (name != LOOPBACK && Writes(actions, ScriptPath(name))))
    ensures name in WgRemovals(actions) <==> Action(Delete, ConfPath(name)) in actions
    ensures name in DummyChanges(state, actions) <==> name in ManagedDummies(state) && Writes(actions, ScriptPath(name))
    ensures name in DummyRemovals(state, actions) <==>
      Action(Delete, ScriptPath(name)) in actions &&
      name !in AllNames(state) + {LOOPBACK} && name !in WgRemovals(actions)
    ensures LoopbackChanged(actions) <==> Writes(actions, ScriptPath(LOOPBACK))
  {
    hide *;
    WgCauses(state, actions, name);
    DummyCauses(state, actions, name);
    LoopbackCauses(actions);
  }

  lemma PlanWrites(plan: seq<Action>, files: seq<Rendered>, tree: Tree, p: string)
    requires IsPlan(plan, files, tree) && Clean(files)
    ensures Writes(plan, p) <==>
      p in Paths(files) && (p !in tree || ReadText(tree[p]) != Contents(files)[p])
    ensures Action(Delete, p) in plan <==> IsOrphan(p, files, tree)
  {
    hide IsPlan, IsOrphan, Writes, Contents, ReadText, Settled;
    WritesIff(plan, files, tree, p);
    DeletesIff(plan, files, tree, p);
    if p in Paths(files) {
      SettledIff(files, tree, p);
    }
  }

  /** Of a clean rendering a file is settled if it reads back as its content. */
  lemma SettledIff(files: seq<Rendered>, tree: Tree, p: string)
    requires Clean(files) && p in Paths(files)
    ensures Settled(files, tree, p) <==> p in tree && ReadText(tree[p]) == Contents(files)[p]
  {
    hide Contents, ReadText;
    LastRendering(files, p);
  }

  // ----- the plan as a whole -----

  predicate OnlyReload(before: seq<Step>) {
    before == [] || before == [Reload]
  }

  lemma AssembledInPhases(before: seq<Step>, a: seq<string>, b: seq<string>, c: seq<string>, d: seq<string>)
    requires InPhases(before) && forall s :: s in before ==> Phase(s) <= 1
    ensures InPhases(before + Syncs(a) + Syncs(b) + Removes(c) + Removes(d))
  {
    MorePhases(before, Syncs(a), 2);
    MorePhases(before + Syncs(a), Syncs(b), 2);
    MorePhases(before + Syncs(a) + Syncs(b), Removes(c), 3);
    MorePhases(before + Syncs(a) + Syncs(b) + Removes(c), Removes(d), 3);
  }

  lemma MorePhases(a: seq<Step>, b: seq<Step>, phase: nat)
    requires InPhases(a) && phase > 0 && (forall s :: s in a ==> Phase(s) <= phase) && forall s :: s in b ==> Phase(s) == phase
    ensures InPhases(a + b)
  {
  }

  lemma LinkNamed(state: Desired, name: string)
    ensures name in NamesOf(state, WireGuard) <==> HasLink(state, WireGuard, name)
    ensures name in ManagedDummies(state) <==> HasLink(state, Dummy, name) && name != LOOPBACK
    ensures name in AllNames(state) <==> exists i :: i in state.interfaces && i.name == name
  {
  }

  lemma AssembledReload(before: seq<Step>, a: set<string>, b: set<string>, c: set<string>, d: set<string>)
    ensures Reload in Assemble(before, a, b, c, d) <==> Reload in before
  {
    NoReload(Sorted(a));
    NoReload(Sorted(b));
    NoReload(Sorted(c));
    NoReload(Sorted(d));
    hide Syncs, Removes;
  }

  lemma NoReload(names: seq<string>)
    ensures Reload !in Syncs(names) && Reload !in Removes(names)
  {
  }

  lemma BroughtUp(reload: seq<Step>, state: Desired, steps: seq<Step>)
    requires OnlyReload(reload)
    requires steps == reload + [SyncLoopback] + Syncs(Sorted(ManagedDummies(state))) + Syncs(Sorted(NamesOf(state, WireGuard)))
    ensures steps == FullBringUp(reload, state) && InPhases(steps) && SyncLoopback in steps
    ensures Reload in steps <==> reload != []
    ensures forall n :: UpFor(state, steps, n)
  {
    hide *;
    BroughtUpIs(reload, state, steps);
    BroughtUpInPhases(reload, state);
    forall n ensures UpFor(state, FullBringUp(reload, state), n) {
      BroughtUpAt(reload, state, n);
    }
    BroughtUpLoopback(reload, state);
  }

  lemma BroughtUpIs(reload: seq<Step>, state: Desired, steps: seq<Step>)
    requires steps == reload + [SyncLoopback] + Syncs(Sorted(ManagedDummies(state))) + Syncs(Sorted(NamesOf(state, WireGuard)))
    ensures steps == FullBringUp(reload, state)
  {
    hide ManagedDummies, NamesOf, Syncs;
    assert Removes(Sorted({})) == [];
  }

  lemma BroughtUpInPhases(reload: seq<Step>, state: Desired)
    requires OnlyReload(reload)
    ensures InPhases(FullBringUp(reload, state))
    ensures Reload in FullBringUp(reload, state) <==> reload != []
  {
    var before := reload + [SyncLoopback];
    assert InPhases(before) && forall s :: s in before ==> Phase(s) <= 1;
    assert Reload in before <==> reload != [];
    hide ManagedDummies, NamesOf, Syncs, Removes, InPhases, OnlyReload;
    var a, b := ManagedDummies(state), NamesOf(state, WireGuard);
    AssembledInPhases(before, Sorted(a), Sorted(b), Sorted({}), Sorted({}));
    AssembledReload(before, a, b, {}, {});
  }

  lemma BroughtUpAt(reload: seq<Step>, state: Desired, name: string)
    requires OnlyReload(reload)
    ensures UpFor(state, FullBringUp(reload, state), name)
  {
    hide FullBringUp, HotSteps, HasLink, ManagedDummies, NamesOf, DummyChanges, WgChanges, WgRemovals, DummyRemovals;
    InPlan(reload, state, [], name);
    LinkNamed(state, name);
  }

  lemma BroughtUpLoopback(reload: seq<Step>, state: Desired)
    requires OnlyReload(reload)
    ensures SyncLoopback in FullBringUp(reload, state)
  {
    hide FullBringUp, HotSteps, ManagedDummies, NamesOf, DummyChanges, WgChanges, WgRemovals, DummyRemovals;
    InPlan(reload, state, [], LOOPBACK);
  }

  lemma Updated(reload: seq<Step>, state: Desired, actions: seq<Action>)
    requires OnlyReload(reload)
    ensures var steps := HotSteps(reload, state, actions);
      && InPhases(steps)
      && (Reload in steps <==> reload != [])
      && (SyncLoopback in steps <==> Writes(actions, ScriptPath(LOOPBACK)))
      && forall n :: PlainName(n) ==> HotFor(state, actions, steps, n)
  {
    var steps := HotSteps(reload, state, actions);
    HotInPhases(reload, state, actions);
    hide *;
    forall n | PlainName(n) ensures HotFor(state, actions, steps, n) {
      UpdatedAt(reload, state, actions, n);
    }
    UpdatedLoopback(reload, state, actions);
  }

  lemma HotInPhases(reload: seq<Step>, state: Desired, actions: seq<Action>)
    requires OnlyReload(reload)
    ensures InPhases(HotSteps(reload, state, actions))
    ensures Reload in HotSteps(reload, state, actions) <==> reload != []
  {
    var before := if LoopbackChanged(actions) then reload + [SyncLoopback] else reload;
    assert InPhases(before) && forall s :: s in before ==> Phase(s) <= 1;
    assert Reload in before <==> reload != [];
    hide DummyChanges, WgChanges, WgRemovals, DummyRemovals, LoopbackChanged, Syncs, Removes, InPhases, OnlyReload;
    var a, b, c, d := DummyChanges(state, actions), WgChanges(state, actions), WgRemovals(actions), DummyRemovals(state, actions);
    AssembledInPhases(before, Sorted(a), Sorted(b), Sorted(c), Sorted(d));
    AssembledReload(before, a, b, c, d);
  }

  lemma UpdatedAt(reload: seq<Step>, state: Desired, actions: seq<Action>, name: string)
    requires OnlyReload(reload) && PlainName(name)
    ensures HotFor(state, actions, HotSteps(reload, state, actions), name)
  {
    hide HotSteps, FullBringUp, DummyChanges, WgChanges, WgRemovals, DummyRemovals, LoopbackChanged, PlainName, ConfPath,
         ScriptPath, HasLink, NamesOf, ManagedDummies, AllNames, Writes;
    InPlan(reload, state, actions, name);
    Causes(state, actions, name);
    LinkNamed(state, name);
  }

  lemma UpdatedLoopback(reload: seq<Step>, state: Desired, actions: seq<Action>)
    requires OnlyReload(reload)
    ensures SyncLoopback in HotSteps(reload, state, actions) <==> Writes(actions, ScriptPath(LOOPBACK))
  {
    hide HotSteps, FullBringUp, ScriptPath, Writes;
    InPlan(reload, state, actions, LOOPBACK);
    LoopbackCauses(actions);
  }
}
