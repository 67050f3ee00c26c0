/** One round of the agent as far as links are concerned, and any sequence of rounds: the file plan is
    executed, the namespace may be gone, and the convergence plan runs. */
module Rounds {
  import opened Wrappers
  import opened Order
  import opened FilePlan
  import opened Convergence
  import opened Namespace

  /** The links that the convergence steps find. */
  function Start(m: Machine, rebuilt: Rebuilt): Links {
    if Emptied(rebuilt) then map[] else m.live
  }

  ghost function AfterRound(m: Machine, next: Desired, rebuilt: Rebuilt, plan: seq<Action>, failing: set<Step>): Machine {
    var disk := Executed(Files(next), m.disk);
    Machine(disk, RunSteps(next, disk, Start(m, rebuilt), Plan(next, rebuilt, plan), failing))
  }

  lemma LinksOfRound(m: Machine, next: Desired, rebuilt: Rebuilt, plan: seq<Action>, failing: set<Step>)
    ensures var out := AfterRound(m, next, rebuilt, plan, failing);
      && out.disk == Executed(Files(next), m.disk)
      && out.live == RunSteps(next, out.disk, Start(m, rebuilt), Plan(next, rebuilt, plan), failing)
  {
  }

  // ----- what a hot plan leaves alone, and what it takes away -----

  /** A wanted link that the plan leaves alone was already up with the rendered script and conf. */
  lemma UntouchedIsUpToDate(m: Machine, prev: Desired, next: Desired, kinds: map<string, LinkKind>,
                            plan: seq<Action>, name: string)
    requires InStep(m, prev, kinds) && WellFormed(next, kinds) && IsPlan(plan, Files(next), m.disk)
    requires PlainName(name) && name in LinkNames(next)
    requires name !in DummyChanges(next, plan) && name !in WgChanges(next, plan)
    requires name == LOOPBACK ==> !LoopbackChanged(plan)
    ensures name in LinkNames(prev) && name in m.live
    ensures m.live[name].config == RunScript(next, Executed(Files(next), m.disk), name)
  {
    hide Files, IsPlan, ScriptPath, ConfPath, Executed, DummyChanges, WgChanges, WellFormed, LoopbackChanged, PlainName;
    UntouchedFiles(m, prev, next, kinds, plan, name);
    var i :| i in prev.interfaces && i.name == name && !i.kind.Underlay?;
    ConfigHeld(prev, m.live, i);
    SameKind(prev, next, kinds, i);
    FilesOf(m.disk, prev, kinds, i);
    hide LinkNames, NamesOf;
  }

  lemma ConfigHeld(state: Desired, live: Links, i: Interface)
    requires Holds(state, Wanted(state, live)) && i in state.interfaces && !i.kind.Underlay?
    ensures i.name in live && live[i.name].config == ConfigOf(i)
  {
    assert i.name in LinkNames(state);
    hide LinkNames;
    assert i.name in Wanted(state, live);
  }

  lemma FilesOf(disk: Tree, state: Desired, kinds: map<string, LinkKind>, i: Interface)
    requires DiskInStep(disk, state, LinkNames(state), kinds) && i in state.interfaces && !i.kind.Underlay?
    ensures ScriptPath(i.name) in disk && disk[ScriptPath(i.name)] == i.script
    ensures i.kind.WireGuard? ==> ConfPath(i.name) in disk && disk[ConfPath(i.name)] == i.conf
  {
    hide PlainName, ScriptPath, ConfPath, LinkNames;
  }

  lemma SameKind(prev: Desired, next: Desired, kinds: map<string, LinkKind>, i: Interface)
    requires KindsMatch(prev, kinds) && WellFormed(next, kinds) && i in prev.interfaces && i.name in LinkNames(next)
    ensures i.name in NamesOf(next, WireGuard) <==> i.kind.WireGuard?
  {
    hide Files, Clean, PlainName;
  }

  /** Its files are on disk as rendered, and so they were before. */
  lemma UntouchedFiles(m: Machine, prev: Desired, next: Desired, kinds: map<string, LinkKind>,
                       plan: seq<Action>, name: string)
    requires InStep(m, prev, kinds) && WellFormed(next, kinds) && IsPlan(plan, Files(next), m.disk)
    requires PlainName(name) && name in LinkNames(next)
    requires name !in DummyChanges(next, plan) && name !in WgChanges(next, plan)
    requires name == LOOPBACK ==> !LoopbackChanged(plan)
    ensures name in LinkNames(prev)
    ensures var disk := Executed(Files(next), m.disk);
      && ScriptPath(name) in m.disk && ScriptPath(name) in disk && disk[ScriptPath(name)] == m.disk[ScriptPath(name)]
      && (name in NamesOf(next, WireGuard) ==>
            ConfPath(name) in m.disk && ConfPath(name) in disk && disk[ConfPath(name)] == m.disk[ConfPath(name)])
  {
    hide Files, Contents, Render, IsPlan, ScriptPath, ConfPath, ReadText, Executed, DummyChanges, WgChanges, Holds, Wanted;
    assert Clean(Files(next));
    Causes(next, plan, name);
    RenderedPaths(next, kinds, name);
    hide WellFormed;
    Unwritten(m.disk, Files(next), plan, ScriptPath(name));
    if name in NamesOf(next, WireGuard) {
      Unwritten(m.disk, Files(next), plan, ConfPath(name));
    }
  }

  /** A rendered file that the plan does not write is there already, exactly as rendered. */
  lemma Unwritten(disk: Tree, files: seq<Rendered>, plan: seq<Action>, p: string)
    requires IsPlan(plan, files, disk) && Clean(files) && p in Paths(files) && !Writes(plan, p)
    requires p in disk ==> '\r' !in disk[p]
    ensures p in disk && p in Executed(files, disk) && Executed(files, disk)[p] == disk[p]
  {
    PlanWrites(plan, files, disk, p);
    hide Contents, IsPlan, ReadText, Executed, Clean;
    ReadTextIsIdentity(disk[p]);
    WrittenFile(files, disk, p);
  }

  /** A link that leaves the state is removed, by its conf or by its script. */
  lemma GoneIsRemoved(m: Machine, prev: Desired, next: Desired, kinds: map<string, LinkKind>,
                      plan: seq<Action>, name: string)
    requires InStep(m, prev, kinds) && WellFormed(next, kinds) && IsPlan(plan, Files(next), m.disk)
    requires name in LinkNames(prev) && name !in LinkNames(next) && name != LOOPBACK
    ensures name in WgRemovals(plan) || name in DummyRemovals(next, plan)
  {
    hide Holds, Wanted, DiskInStep, ScriptPath, ConfPath, DummyRemovals, WgRemovals, Files, IsPlan, PlainName, Clean;
    var i :| i in prev.interfaces && i.name == name && !i.kind.Underlay?;
    FilesOf(m.disk, prev, kinds, i);
    NotEvenUnderlay(prev, next, kinds, i);
    hide WellFormed, KindsMatch, LinkNames, AllNames;
    Causes(next, plan, name);
    ScriptGoes(m.disk, next, kinds, plan, name);
  }

  lemma NotEvenUnderlay(prev: Desired, next: Desired, kinds: map<string, LinkKind>, i: Interface)
    requires KindsMatch(prev, kinds) && KindsMatch(next, kinds) && i in prev.interfaces && !i.kind.Underlay?
    requires i.name !in LinkNames(next)
    ensures i.name !in AllNames(next)
  {
    hide PlainName;
  }

  lemma ScriptGoes(disk: Tree, next: Desired, kinds: map<string, LinkKind>, plan: seq<Action>, name: string)
    requires WellFormed(next, kinds) && IsPlan(plan, Files(next), disk) && PlainName(name)
    requires ScriptPath(name) in disk && name !in LinkNames(next)
    ensures Action(Delete, ScriptPath(name)) in plan
  {
    RenderedPaths(next, kinds, name);
    ScriptsAreManaged(next, kinds, name);
    hide IsPlan, ScriptPath, Files, Clean, ConfPath;
    assert Clean(Files(next)) by { CleanFiles(next, kinds); }
    PlanWrites(plan, Files(next), disk, ScriptPath(name));
    assert IsOrphan(ScriptPath(name), Files(next), disk);
  }

  lemma CleanFiles(state: Desired, kinds: map<string, LinkKind>)
    requires WellFormed(state, kinds)
    ensures Clean(Files(state))
  {
  }

  /** Nothing the state wants is removed, and the loopback never is. */
  lemma WantedIsKept(disk: Tree, next: Desired, kinds: map<string, LinkKind>, plan: seq<Action>, name: string)
    requires WellFormed(next, kinds) && IsPlan(plan, Files(next), disk)
    requires forall n :: PlainName(n) && ConfPath(n) in disk ==> n in kinds && kinds[n] == WireGuard
    requires name in LinkNames(next) || name == LOOPBACK
    ensures name !in WgRemovals(plan) && name !in DummyRemovals(next, plan)
  {
    LoopbackIsPlain();
    CleanFiles(next, kinds);
    hide Files, Clean, IsPlan, ScriptPath, ConfPath, DummyRemovals, WgRemovals, PlainName;
    WantedIsPlain(next, kinds, name);
    Causes(next, plan, name);
    RenderedPaths(next, kinds, name);
    hide WellFormed;
    PlanWrites(plan, Files(next), disk, ConfPath(name));
  }

  /** A wanted name is plain, and no other kind of interface has it. */
  lemma WantedIsPlain(state: Desired, kinds: map<string, LinkKind>, name: string)
    requires WellFormed(state, kinds) && (name in LinkNames(state) || name == LOOPBACK)
    ensures PlainName(name)
    ensures name in LinkNames(state) ==> name in AllNames(state)
    ensures name in kinds && kinds[name] == WireGuard ==> name != LOOPBACK && (name in LinkNames(state) ==> name in NamesOf(state, WireGuard))
  {
    LoopbackIsPlain();
    hide Files, Clean, PlainName;
    if name in LinkNames(state) {
      var i :| i in state.interfaces && i.name == name && !i.kind.Underlay?;
    }
  }

  lemma LoopbackIsPlain()
    ensures PlainName(LOOPBACK)
  {
    assert LOOPBACK[0] == 'd' && LOOPBACK[4] == '-';
  }

  lemma NotSynced(next: Desired, plan: seq<Action>, name: string)
    requires name !in LinkNames(next)
    ensures name !in DummyChanges(next, plan) && name !in WgChanges(next, plan)
  {
  }

  /** Without a loopback in the state, its script is not on disk. */
  lemma LoopbackIsAbsent(disk: Tree, next: Desired, kinds: map<string, LinkKind>)
    requires DiskInStep(disk, next, LinkNames(next), kinds) && LOOPBACK !in LinkNames(next)
    ensures ScriptPath(LOOPBACK) !in disk
  {
    LoopbackIsPlain();
  }

  // ----- what the steps decide for one name -----

  /** A wanted link is synced or already right, and never removed; an unwanted one is not brought up. */
  ghost predicate Covered(next: Desired, disk: Tree, live: Links, steps: seq<Step>, name: string) {
    if name in LinkNames(next) then
      Remove(name) !in steps && ScriptPath(name) in disk &&
      (Synced(steps, {}, name) || (name in live && live[name].config == RunScript(next, disk, name)))
    else Synced(steps, {}, name) ==> ScriptPath(name) !in disk
  }

  /** Every wanted link has its script and conf; any other is gone if it was removed, and as before if
      it was not. */
  ghost predicate Reached(next: Desired, disk: Tree, before: Links, steps: seq<Step>, live: Links) {
    forall n ::
      if n in LinkNames(next) then n in live && live[n].config == RunScript(next, disk, n)
      else if Remove(n) in steps then n !in live
      else SameLink(live, before, n)
  }

  lemma CoveredReaches(next: Desired, disk: Tree, live: Links, steps: seq<Step>)
    requires forall n :: Covered(next, disk, live, steps, n)
    ensures Reached(next, disk, live, steps, RunSteps(next, disk, live, steps, {}))
  {
    hide RunScript, RunSteps, ScriptPath, Entries;
    var out := RunSteps(next, disk, live, steps, {});
    forall n
      ensures if n in LinkNames(next) then n in out && out[n].config == RunScript(next, disk, n)
              else if Remove(n) in steps then n !in out
              else SameLink(out, live, n)
    {
      assert Covered(next, disk, live, steps, n);
      RunAt(next, disk, live, steps, {}, n);
    }
  }

  lemma ScriptRuns(next: Desired, kinds: map<string, LinkKind>, disk: Tree, i: Interface)
    requires WellFormed(next, kinds) && DiskInStep(disk, next, LinkNames(next), kinds)
    requires i in next.interfaces && !i.kind.Underlay?
    ensures i.name in LinkNames(next) && RunScript(next, disk, i.name) == ConfigOf(i)
    ensures ScriptPath(i.name) in disk && disk[ScriptPath(i.name)] == i.script
  {
    hide Files, Clean, PlainName, ScriptPath, ConfPath;
  }

  /** On a settled disk a state holds exactly when every name is as its script leaves it. */
  lemma HoldsAtEach(next: Desired, kinds: map<string, LinkKind>, disk: Tree, live: Links)
    requires WellFormed(next, kinds) && DiskInStep(disk, next, LinkNames(next), kinds)
    ensures Holds(next, live) <==>
      forall n :: if n in LinkNames(next) then n in live && live[n].config == RunScript(next, disk, n) else n !in live
  {
    hide WellFormed, DiskInStep, RunScript;
    forall i | i in next.interfaces && !i.kind.Underlay?
      ensures i.name in LinkNames(next) && RunScript(next, disk, i.name) == ConfigOf(i)
    {
      ScriptRuns(next, kinds, disk, i);
    }
    forall n | n in LinkNames(next) ensures exists i :: i in next.interfaces && i.name == n && !i.kind.Underlay? {
    }
  }

  lemma ReachedHolds(next: Desired, kinds: map<string, LinkKind>, disk: Tree, before: Links, steps: seq<Step>, live: Links)
    requires WellFormed(next, kinds) && DiskInStep(disk, next, LinkNames(next), kinds)
    requires Reached(next, disk, before, steps, live)
    ensures Holds(next, Wanted(next, live))
    ensures Holds(next, live) <==> forall n :: n in before && n !in LinkNames(next) ==> Remove(n) in steps
  {
    HoldsAtEach(next, kinds, disk, live);
    HoldsAtEach(next, kinds, disk, Wanted(next, live));
    hide Holds, WellFormed, DiskInStep, LinkNames, RunScript;
  }

  lemma RebuildCovers(next: Desired, kinds: map<string, LinkKind>, disk: Tree, live: Links, before: seq<Step>, name: string)
    requires WellFormed(next, kinds) && DiskInStep(disk, next, LinkNames(next), kinds)
    requires forall s :: s in before ==> s == Reload
    ensures Covered(next, disk, live, FullBringUp(before, next), name)
    ensures name in LinkNames(next) ==> Synced(FullBringUp(before, next), {}, name)
    ensures Remove(name) !in FullBringUp(before, next)
  {
    LoopbackIsPlain();
    hide Files, Clean, PlainName, ScriptPath, ConfPath, FullBringUp, HotSteps, RunScript;
    InPlan(before, next, [], name);
    if name in LinkNames(next) {
      var i :| i in next.interfaces && i.name == name && !i.kind.Underlay?;
    }
  }

  lemma HotCovers(m: Machine, prev: Desired, next: Desired, kinds: map<string, LinkKind>,
                  before: seq<Step>, plan: seq<Action>, name: string)
    requires InStep(m, prev, kinds) && WellFormed(next, kinds) && IsPlan(plan, Files(next), m.disk)
    requires forall s :: s in before ==> s == Reload
    ensures Covered(next, Executed(Files(next), m.disk), m.live, HotSteps(before, next, plan), name)
  {
    var disk := Executed(Files(next), m.disk);
    DiskAfterRound(m, prev, next, kinds);
    InPlan(before, next, plan, name);
    hide Executed, Files, HotSteps, RunScript, WellFormed, IsPlan, Holds, Wanted, ScriptPath, ConfPath, PlainName, LinkNames;
    if name in LinkNames(next) {
      WantedIsKept(m.disk, next, kinds, plan, name);
      WantedScript(disk, next, kinds, name);
      if name !in DummyChanges(next, plan) && name !in WgChanges(next, plan) && (name == LOOPBACK ==> !LoopbackChanged(plan)) {
        UntouchedIsUpToDate(m, prev, next, kinds, plan, name);
      }
    } else {
      NotSynced(next, plan, name);
      if name == LOOPBACK { LoopbackIsAbsent(disk, next, kinds); }
    }
  }

  lemma WantedScript(disk: Tree, next: Desired, kinds: map<string, LinkKind>, name: string)
    requires WellFormed(next, kinds) && DiskInStep(disk, next, LinkNames(next), kinds) && name in LinkNames(next)
    ensures PlainName(name) && ScriptPath(name) in disk
  {
    hide Files, Clean, ScriptPath, ConfPath;
    var i :| i in next.interfaces && i.name == name && !i.kind.Underlay?;
  }

  lemma RoundCovers(m: Machine, prev: Desired, next: Desired, kinds: map<string, LinkKind>,
                    rebuilt: Rebuilt, plan: seq<Action>, name: string)
    requires InStep(m, prev, kinds) && WellFormed(next, kinds) && IsPlan(plan, Files(next), m.disk)
    ensures Covered(next, Executed(Files(next), m.disk), Start(m, rebuilt), Plan(next, rebuilt, plan), name)
  {
    hide InStep, WellFormed, IsPlan, Executed, Covered, Files, HotSteps, FullBringUp;
    var reload := if BirdChanged(plan) && !rebuilt.bird then [Reload] else [];
    DiskAfterRound(m, prev, next, kinds);
    if BringsUp(rebuilt) {
      RebuildCovers(next, kinds, Executed(Files(next), m.disk), Start(m, rebuilt), reload, name);
    } else {
      HotCovers(m, prev, next, kinds, reload, plan, name);
    }
  }

  /** The heart of it: a round in which no step fails takes any in-step machine to the next state,
      whether it converges hot or brings everything up, and whether the namespace was lost or not. Its
      links are then exactly those of the state if and only if the plan removes every other one. */
  lemma RoundConverges(m: Machine, prev: Desired, next: Desired, kinds: map<string, LinkKind>,
                       rebuilt: Rebuilt, plan: seq<Action>)
    requires InStep(m, prev, kinds) && WellFormed(next, kinds) && IsPlan(plan, Files(next), m.disk)
    ensures InStep(AfterRound(m, next, rebuilt, plan, {}), next, kinds)
    ensures Holds(next, AfterRound(m, next, rebuilt, plan, {}).live) <==>
      forall n :: n in Start(m, rebuilt) && n !in LinkNames(next) ==> Remove(n) in Plan(next, rebuilt, plan)
  {
    hide Holds, DiskInStep, RunSteps, Plan, Covered, Reached, Executed, Start, IsPlan;
    var disk, live, steps := Executed(Files(next), m.disk), Start(m, rebuilt), Plan(next, rebuilt, plan);
    DiskAfterRound(m, prev, next, kinds);
    forall n ensures Covered(next, disk, live, steps, n) {
      RoundCovers(m, prev, next, kinds, rebuilt, plan, n);
    }
    CoveredReaches(next, disk, live, steps);
    ReachedHolds(next, kinds, disk, live, steps, AfterRound(m, next, rebuilt, plan, {}).live);
  }

  /** What leaves the state is removed by the hot plan alone, and the loopback by none. */
  lemma RemovalIff(m: Machine, prev: Desired, next: Desired, kinds: map<string, LinkKind>,
                   rebuilt: Rebuilt, plan: seq<Action>, name: string)
    requires InStep(m, prev, kinds) && WellFormed(next, kinds) && IsPlan(plan, Files(next), m.disk)
    requires name in LinkNames(prev) && name !in LinkNames(next)
    ensures Remove(name) in Plan(next, rebuilt, plan) <==> !BringsUp(rebuilt) && name != LOOPBACK
  {
    var reload := if BirdChanged(plan) && !rebuilt.bird then [Reload] else [];
    hide WellFormed, IsPlan, Files, HotSteps, FullBringUp, LinkNames, PlainName, ConfPath, WgRemovals, DummyRemovals, BirdChanged,
         Holds, Wanted, LoopbackChanged;
    InPlan(reload, next, plan, name);
    if name == LOOPBACK {
      ConfsAreTunnels(m.disk, prev, kinds);
      hide DiskInStep;
      WantedIsKept(m.disk, next, kinds, plan, name);
    } else {
      GoneIsRemoved(m, prev, next, kinds, plan, name);
    }
  }

  lemma ConfsAreTunnels(disk: Tree, state: Desired, kinds: map<string, LinkKind>)
    requires DiskInStep(disk, state, LinkNames(state), kinds)
    ensures forall n :: PlainName(n) && ConfPath(n) in disk ==> n in kinds && kinds[n] == WireGuard
  {
    hide PlainName, ConfPath, ScriptPath, LinkNames;
  }

  /** No link is left over by this round: the namespace is gone anyway, or whatever leaves the state
      leaves it in a hot round and is not the loopback. */
  ghost predicate Tidy(prev: Desired, next: Desired, rebuilt: Rebuilt) {
    Emptied(rebuilt) || forall n :: n in LinkNames(prev) && n !in LinkNames(next) ==> !BringsUp(rebuilt) && n != LOOPBACK
  }

  /** From a state that held, the next one holds exactly if the round is tidy: a plan that brings
      everything up removes nothing, although the namespace may have survived. */
  lemma RoundHoldsIff(m: Machine, prev: Desired, next: Desired, kinds: map<string, LinkKind>,
                      rebuilt: Rebuilt, plan: seq<Action>)
    requires InStep(m, prev, kinds) && Holds(prev, m.live) && WellFormed(next, kinds) && IsPlan(plan, Files(next), m.disk)
    ensures Holds(next, AfterRound(m, next, rebuilt, plan, {}).live) <==> Tidy(prev, next, rebuilt)
  {
    RoundConverges(m, prev, next, kinds, rebuilt, plan);
    assert m.live.Keys == LinkNames(prev);
    hide InStep, Holds, WellFormed, IsPlan, Plan, LinkNames, AfterRound, Files;
    forall n | n in LinkNames(prev) && n !in LinkNames(next)
      ensures Remove(n) in Plan(next, rebuilt, plan) <==> !BringsUp(rebuilt) && n != LOOPBACK
    {
      RemovalIff(m, prev, next, kinds, rebuilt, plan, n);
    }
  }

  // ----- runs -----

  datatype Round = Round(state: Desired, rebuilt: Rebuilt, plan: seq<Action>)

  const FRESH := Machine(map[], map[])
  const NO_STATE := Desired([], [], [])

  ghost function AfterRounds(rounds: seq<Round>): Machine {
    if rounds == [] then FRESH
    else
      var r := rounds[|rounds| - 1];
      AfterRound(AfterRounds(rounds[..|rounds| - 1]), r.state, r.rebuilt, r.plan, {})
  }

  /** A run of well-formed states in which every round executes a plan made for the disk it finds. */
  ghost predicate IsRun(rounds: seq<Round>, kinds: map<string, LinkKind>) {
    rounds != [] ==>
      var r, before := rounds[|rounds| - 1], rounds[..|rounds| - 1];
      IsRun(before, kinds) && WellFormed(r.state, kinds) && IsPlan(r.plan, Files(r.state), AfterRounds(before).disk)
  }

  ghost function LastState(rounds: seq<Round>): Desired {
    if rounds == [] then NO_STATE else rounds[|rounds| - 1].state
  }

  lemma FreshIsInStep(kinds: map<string, LinkKind>)
    ensures InStep(FRESH, NO_STATE, kinds) && Holds(NO_STATE, FRESH.live)
  {
    assert Wanted(NO_STATE, FRESH.live) == map[];
  }

  lemma {:induction false} RunStaysInStep(rounds: seq<Round>, kinds: map<string, LinkKind>)
    requires IsRun(rounds, kinds)
    ensures InStep(AfterRounds(rounds), LastState(rounds), kinds)
  {
    if rounds == [] {
      FreshIsInStep(kinds);
    } else {
      hide WellFormed, InStep, AfterRound;
      var before := rounds[..|rounds| - 1];
      RunStaysInStep(before, kinds);
      var r := rounds[|rounds| - 1];
      RoundConverges(AfterRounds(before), LastState(before), r.state, kinds, r.rebuilt, r.plan);
    }
  }

  ghost predicate AlwaysHolds(rounds: seq<Round>) {
    Holds(LastState(rounds), AfterRounds(rounds).live) && (rounds != [] ==> AlwaysHolds(rounds[..|rounds| - 1]))
  }

  ghost predicate AlwaysTidy(rounds: seq<Round>) {
    rounds != [] ==>
      var r, before := rounds[|rounds| - 1], rounds[..|rounds| - 1];
      AlwaysTidy(before) && Tidy(LastState(before), r.state, r.rebuilt)
  }

  /** Over any run from a fresh node in which no step fails, the links are those of the state after
      every round if and only if every round is tidy. */
  lemma {:induction false} RunHoldsIff(rounds: seq<Round>, kinds: map<string, LinkKind>)
    requires IsRun(rounds, kinds)
    ensures AlwaysHolds(rounds) <==> AlwaysTidy(rounds)
  {
    if rounds == [] {
      FreshIsInStep(kinds);
    } else {
      hide WellFormed, InStep, AfterRound, Holds, Tidy, IsPlan;
      var before, r := rounds[..|rounds| - 1], rounds[|rounds| - 1];
      RunHoldsIff(before, kinds);
      RunStaysInStep(before, kinds);
      if AlwaysHolds(before) {
        RoundHoldsIff(AfterRounds(before), LastState(before), r.state, kinds, r.rebuilt, r.plan);
      }
    }
  }
}
