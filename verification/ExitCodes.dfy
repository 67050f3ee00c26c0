/** What the convergence of a round reports: every step has to exit with zero, so a plan that asks for
    a script that is not there, or for the removal of a link that is not there, fails its round. */
module ExitCodes {
  import opened Wrappers
  import opened Order
  import opened FilePlan
  import opened Convergence
  import opened Namespace
  import opened Rounds
  import opened Residue
  import opened Samples

  /** `sh` finds the script, and `ip link del` finds the link. */
  predicate StepOk(disk: Tree, live: Links, step: Step) {
    match step
    case Reload => true
    case SyncLoopback => ScriptPath(LOOPBACK) in disk
    case Sync(name) => ScriptPath(name) in disk
    case Remove(name) => name in live
  }

  /** `ConvergenceResult.ok`: all steps are run, and all have to succeed. */
  ghost predicate StepsOk(state: Desired, disk: Tree, live: Links, steps: seq<Step>, failing: set<Step>) {
    forall k :: 0 <= k < |steps| ==>
      steps[k] !in failing && StepOk(disk, RunSteps(state, disk, live, steps[..k], failing), steps[k])
  }

  ghost predicate RoundOk(m: Machine, next: Desired, rebuilt: Rebuilt, plan: seq<Action>, failing: set<Step>) {
    StepsOk(next, Executed(Files(next), m.disk), Start(m, rebuilt), Plan(next, rebuilt, plan), failing)
  }

  // ----- no link is removed twice -----

  ghost predicate RemovedOnce(steps: seq<Step>) {
    forall i, j :: 0 <= i < j < |steps| && steps[i].Remove? ==> steps[i] != steps[j]
  }

  ghost predicate NoRemovals(steps: seq<Step>) {
    forall s :: s in steps ==> !s.Remove?
  }

  lemma OnceAfter(a: seq<Step>, b: seq<Step>)
    requires RemovedOnce(a) && RemovedOnce(b) && forall n :: Remove(n) in a ==> Remove(n) !in b
    ensures RemovedOnce(a + b)
  {
    var all := a + b;
    forall i, j | 0 <= i < j < |all| && all[i].Remove? ensures all[i] != all[j] {
      if i < |a| <= j {
        assert all[i] == Remove(all[i].name) && all[i] in a && all[j] in b;
      }
    }
  }

  lemma RemovesOnce(names: seq<string>)
    requires Ascending(names)
    ensures RemovedOnce(Removes(names))
  {
    forall i, j | 0 <= i < j < |names| ensures names[i] != names[j] {
      Total(names[i], names[j]);
    }
  }

  lemma SyncsRemoveNothing(names: seq<string>)
    ensures NoRemovals(Syncs(names)) && RemovedOnce(Syncs(names))
  {
  }

  lemma AssembledOnce(before: seq<Step>, a: set<string>, b: set<string>, c: set<string>, d: set<string>)
    requires NoRemovals(before) && c !! d
    ensures RemovedOnce(Assemble(before, a, b, c, d))
  {
    SyncsRemoveNothing(Sorted(a));
    SyncsRemoveNothing(Sorted(b));
    var start := before + Syncs(Sorted(a)) + Syncs(Sorted(b));
    assert NoRemovals(start) && RemovedOnce(start);
    RemovesOnce(Sorted(c));
    RemovesOnce(Sorted(d));
    forall n
      ensures Remove(n) in Removes(Sorted(c)) <==> n in c
      ensures Remove(n) in Removes(Sorted(d)) <==> n in d
    {
      SyncsOf(Sorted(c), n);
      SyncsOf(Sorted(d), n);
    }
    hide Syncs, Removes, RemovedOnce, NoRemovals;
    OnceAfter(start, Removes(Sorted(c))) by { NoneToRemove(start); }
    OnceAfter(start + Removes(Sorted(c)), Removes(Sorted(d))) by { NoneToRemove(start); }
  }

  lemma NoneToRemove(steps: seq<Step>)
    requires NoRemovals(steps)
    ensures forall n :: Remove(n) !in steps
  {
  }

  lemma PlanRemovesOnce(next: Desired, rebuilt: Rebuilt, plan: seq<Action>)
    ensures RemovedOnce(Plan(next, rebuilt, plan))
  {
    var reload := if BirdChanged(plan) && !rebuilt.bird then [Reload] else [];
    if BringsUp(rebuilt) {
      AssembledOnce(reload + [SyncLoopback], ManagedDummies(next), NamesOf(next, WireGuard), {}, {});
    } else {
      var before := if LoopbackChanged(plan) then reload + [SyncLoopback] else reload;
      RemovalsApart(next, plan);
      hide DummyRemovals, WgRemovals, DummyChanges, WgChanges, BirdChanged, LoopbackChanged;
      assert NoRemovals(before);
      AssembledOnce(before, DummyChanges(next, plan), WgChanges(next, plan), WgRemovals(plan), DummyRemovals(next, plan));
    }
  }

  lemma RemovalsApart(next: Desired, plan: seq<Action>)
    ensures WgRemovals(plan) !! DummyRemovals(next, plan)
  {
    hide WgGone, ScriptName;
  }

  // ----- when the steps succeed -----

  lemma StepsOkIff(state: Desired, disk: Tree, live: Links, steps: seq<Step>)
    requires RemovedOnce(steps)
    requires forall n :: Sync(n) in steps ==> ScriptPath(n) in disk
    requires forall n :: Remove(n) in steps ==> !Synced(steps, {}, n)
    ensures StepsOk(state, disk, live, steps, {}) <==>
      (SyncLoopback in steps ==> ScriptPath(LOOPBACK) in disk) && forall n :: Remove(n) in steps ==> n in live
  {
    hide ScriptPath, RunSteps;
    forall k | 0 <= k < |steps|
      ensures StepOk(disk, RunSteps(state, disk, live, steps[..k], {}), steps[k]) <==>
        (steps[k] == SyncLoopback ==> ScriptPath(LOOPBACK) in disk) && (steps[k].Remove? ==> steps[k].name in live)
    {
      assert steps[k] in steps;
      if steps[k].Remove? {
        FirstRemoval(steps, k);
        RunAt(state, disk, live, steps[..k], {}, steps[k].name);
      } else if steps[k].Sync? {
        assert Sync(steps[k].name) in steps;
      }
    }
    hide StepOk, RemovedOnce;
    if SyncLoopback in steps {
      var k :| 0 <= k < |steps| && steps[k] == SyncLoopback;
    }
    forall n | Remove(n) in steps ensures exists k :: 0 <= k < |steps| && steps[k] == Remove(n) {
    }
  }

  lemma FirstRemoval(steps: seq<Step>, k: nat)
    requires RemovedOnce(steps) && k < |steps| && steps[k].Remove? && !Synced(steps, {}, steps[k].name)
    ensures !Removed(steps[..k], {}, steps[k].name) && !Synced(steps[..k], {}, steps[k].name)
  {
    assert steps[k] == Remove(steps[k].name);
    assert forall s :: s in steps[..k] ==> s in steps;
  }

  /** Exactly when a round in which every command works is reported as a success: a plan that brings
      everything up also runs the loopback script, rendered or not, and a hot plan removes the tunnel of
      every deleted conf, live or not. */
  lemma RoundOkIff(m: Machine, prev: Desired, next: Desired, kinds: map<string, LinkKind>,
                   rebuilt: Rebuilt, plan: seq<Action>)
    requires InStep(m, prev, kinds) && WellFormed(next, kinds) && IsPlan(plan, Files(next), m.disk)
    ensures RoundOk(m, next, rebuilt, plan, {}) <==>
      if BringsUp(rebuilt) then LOOPBACK in LinkNames(next) else WgRemovals(plan) <= m.live.Keys
  {
    var disk, steps := Executed(Files(next), m.disk), Plan(next, rebuilt, plan);
    assert RoundOk(m, next, rebuilt, plan, {}) == StepsOk(next, disk, Start(m, rebuilt), steps, {});
    hide *;
    LoopbackIsPlain();
    HotStart(m, rebuilt);
    DiskAfterRound(m, prev, next, kinds);
    ScriptIffWanted(disk, next, kinds, LOOPBACK);
    PlanRemovesOnce(next, rebuilt, plan);
    forall n
      ensures Sync(n) in steps ==> ScriptPath(n) in disk
      ensures Remove(n) in steps ==> !Synced(steps, {}, n)
      ensures Remove(n) in steps <==> !BringsUp(rebuilt) && (n in WgRemovals(plan) || n in DummyRemovals(next, plan))
      ensures n in DummyRemovals(next, plan) ==> n in m.live
    {
      StepsFor(m, prev, next, kinds, rebuilt, plan, n);
      if n in DummyRemovals(next, plan) { RemovedDummyIsLive(m, prev, next, kinds, plan, n); }
    }
    LoopbackStep(m, prev, next, kinds, rebuilt, plan);
    StepsOkIff(next, disk, Start(m, rebuilt), steps);
    OkWhen(StepsOk(next, disk, Start(m, rebuilt), steps, {}), LOOPBACK in LinkNames(next), BringsUp(rebuilt), steps,
           WgRemovals(plan), DummyRemovals(next, plan), Start(m, rebuilt), m.live);
  }

  lemma HotStart(m: Machine, rebuilt: Rebuilt)
    ensures !BringsUp(rebuilt) ==> Start(m, rebuilt) == m.live
  {
  }

  lemma OkWhen(ok: bool, lo: bool, up: bool, steps: seq<Step>, tunnels: set<string>, dummies: set<string>,
               start: Links, live: Links)
    requires ok <==> (SyncLoopback in steps ==> lo) && forall n :: Remove(n) in steps ==> n in start
    requires forall n :: Remove(n) in steps <==> !up && (n in tunnels || n in dummies)
    requires (up ==> SyncLoopback in steps) && (!up && SyncLoopback in steps ==> lo)
    requires (!up ==> start == live) && forall n :: n in dummies ==> n in live
    ensures ok <==> if up then lo else tunnels <= live.Keys
  {
  }

  lemma ScriptIffWanted(disk: Tree, next: Desired, kinds: map<string, LinkKind>, name: string)
    requires WellFormed(next, kinds) && DiskInStep(disk, next, LinkNames(next), kinds) && PlainName(name)
    ensures ScriptPath(name) in disk <==> name in LinkNames(next)
  {
    hide Files, Clean, ScriptPath, ConfPath, PlainName;
    if name in LinkNames(next) {
      var i :| i in next.interfaces && i.name == name && !i.kind.Underlay?;
    }
  }

  lemma StepsFor(m: Machine, prev: Desired, next: Desired, kinds: map<string, LinkKind>,
                 rebuilt: Rebuilt, plan: seq<Action>, name: string)
    requires InStep(m, prev, kinds) && WellFormed(next, kinds) && IsPlan(plan, Files(next), m.disk)
    ensures var disk, steps := Executed(Files(next), m.disk), Plan(next, rebuilt, plan);
      && (Sync(name) in steps ==> ScriptPath(name) in disk)
      && (Remove(name) in steps ==> !Synced(steps, {}, name))
      && (Remove(name) in steps <==> !BringsUp(rebuilt) && (name in WgRemovals(plan) || name in DummyRemovals(next, plan)))
  {
    hide *;
    PlannedFor(next, rebuilt, plan, name);
    RoundCovers(m, prev, next, kinds, rebuilt, plan, name);
    CoversScript(next, Executed(Files(next), m.disk), Start(m, rebuilt), Plan(next, rebuilt, plan), name);
    if name in LinkNames(next) || name == LOOPBACK {
      InStepDisk(m, prev, kinds);
      ConfsAreTunnels(m.disk, prev, kinds);
      WantedIsKept(m.disk, next, kinds, plan, name);
    }
  }

  lemma InStepDisk(m: Machine, state: Desired, kinds: map<string, LinkKind>)
    requires InStep(m, state, kinds)
    ensures DiskInStep(m.disk, state, LinkNames(state), kinds)
  {
  }

  lemma CoversScript(next: Desired, disk: Tree, live: Links, steps: seq<Step>, name: string)
    requires Covered(next, disk, live, steps, name)
    ensures name in LinkNames(next) ==> ScriptPath(name) in disk
  {
    hide LinkNames, ScriptPath, RunScript;
  }

  /** What the plan asks for, by name: only wanted links are synced, apart from the loopback. */
  lemma PlannedFor(next: Desired, rebuilt: Rebuilt, plan: seq<Action>, name: string)
    ensures var steps := Plan(next, rebuilt, plan);
      && (Sync(name) in steps ==> name in LinkNames(next))
      && (Synced(steps, {}, name) ==> name in LinkNames(next) || name == LOOPBACK)
      && (Remove(name) in steps <==> !BringsUp(rebuilt) && (name in WgRemovals(plan) || name in DummyRemovals(next, plan)))
  {
    var reload := if BirdChanged(plan) && !rebuilt.bird then [Reload] else [];
    assert name in ManagedDummies(next) || name in NamesOf(next, WireGuard) ==> name in LinkNames(next);
    hide HotSteps, FullBringUp, WgRemovals, DummyRemovals, DummyChanges, WgChanges, LoopbackChanged, BirdChanged, LinkNames,
         ManagedDummies, NamesOf;
    InPlan(reload, next, plan, name);
    if name !in LinkNames(next) {
      NotSynced(next, plan, name);
    }
  }

  lemma LoopbackStep(m: Machine, prev: Desired, next: Desired, kinds: map<string, LinkKind>,
                     rebuilt: Rebuilt, plan: seq<Action>)
    requires InStep(m, prev, kinds) && WellFormed(next, kinds) && IsPlan(plan, Files(next), m.disk)
    ensures BringsUp(rebuilt) ==> SyncLoopback in Plan(next, rebuilt, plan)
    ensures !BringsUp(rebuilt) && SyncLoopback in Plan(next, rebuilt, plan) ==> LOOPBACK in LinkNames(next)
  {
    var reload := if BirdChanged(plan) && !rebuilt.bird then [Reload] else [];
    hide InStep, IsPlan, Files, HotSteps, FullBringUp, PlainName, ScriptPath, Clean, LoopbackChanged, WellFormed, LinkNames,
         WgRemovals, DummyRemovals, BirdChanged;
    InPlan(reload, next, plan, LOOPBACK);
    if LoopbackChanged(plan) { ChangedLoopbackIsWanted(m.disk, next, kinds, plan); }
  }

  lemma ChangedLoopbackIsWanted(disk: Tree, next: Desired, kinds: map<string, LinkKind>, plan: seq<Action>)
    requires WellFormed(next, kinds) && IsPlan(plan, Files(next), disk) && LoopbackChanged(plan)
    ensures LOOPBACK in LinkNames(next)
  {
    hide *;
    LoopbackIsPlain();
    CleanFiles(next, kinds);
    LoopbackCauses(plan);
    PlanWrites(plan, Files(next), disk, ScriptPath(LOOPBACK));
    RenderedPaths(next, kinds, LOOPBACK);
    NamesAdd(next);
  }

  lemma NamesAdd(state: Desired)
    ensures LinkNames(state) == NamesOf(state, Dummy) + NamesOf(state, WireGuard)
  {
  }

  lemma RemovedDummyIsLive(m: Machine, prev: Desired, next: Desired, kinds: map<string, LinkKind>,
                           plan: seq<Action>, name: string)
    requires InStep(m, prev, kinds) && WellFormed(next, kinds) && IsPlan(plan, Files(next), m.disk)
    requires name in DummyRemovals(next, plan)
    ensures name in m.live
  {
    hide IsPlan, Files, ScriptPath, Clean, DummyRemovals, WellFormed, PlainName, ConfPath, LinkNames;
    RemovedHasName(next, plan, name);
    CleanFiles(next, kinds);
    DummyCauses(next, plan, name);
    PlanWrites(plan, Files(next), m.disk, ScriptPath(name));
    assert name in LinkNames(prev);
    hide DiskInStep;
    assert name in Wanted(prev, m.live);
  }

  lemma RemovedHasName(next: Desired, plan: seq<Action>, name: string)
    requires name in DummyRemovals(next, plan)
    ensures PlainName(name)
  {
    hide AllNames, WgRemovals;
  }

  // ----- a conf that outlives its tunnel -----

  const TUNNELS := "wireguard"

  lemma ConfPathShape(name: string)
    requires PlainName(name) && name[0] != '.'
    ensures TopSegment(ConfPath(name)) == TUNNELS && !IsTemp(ConfPath(name))
  {
    var base := name + CONF_SUFFIX;
    assert ConfPath(name) == "wireguard/" + base;
    TopSegmentIs(TUNNELS, "/" + base);
    assert ConfPath(name) == TUNNELS + ("/" + base);
    assert '/' !in base && base[0] != '.';
    BaseOf("wireguard/", base);
  }

  /** Without a tunnel in the state its rendering leaves `wireguard/` alone, and a conf there stays. */
  lemma ConfOutlives(disk: Tree, lo: Interface, state: Desired, kinds: map<string, LinkKind>, name: string)
    requires state == Desired([lo], [], []) && lo.kind.Dummy? && WellFormed(state, kinds)
    requires PlainName(name) && name[0] != '.' && ConfPath(name) in disk && name !in NamesOf(state, WireGuard)
    ensures ConfPath(name) in Executed(Files(state), disk)
  {
    hide Files, TopSegment, IsTemp, ConfPath, ScriptPath, Contents, Settled, WellFormed, PlainName, ReadText;
    ConfPathShape(name);
    RenderedPaths(state, kinds, name);
    OnlyScripts(lo, state, kinds);
    assert TUNNELS[0] != SCRIPTS[0];
    assert TUNNELS !in Tops(Files(state));
  }

  lemma OnlyScripts(lo: Interface, state: Desired, kinds: map<string, LinkKind>)
    requires state == Desired([lo], [], []) && lo.kind.Dummy? && WellFormed(state, kinds)
    ensures forall f :: f in Files(state) ==> TopSegment(f.path) == SCRIPTS
  {
    assert lo in state.interfaces && PlainName(lo.name);
    hide *;
    forall f | f in Files(state) ensures TopSegment(f.path) == SCRIPTS {
      var i :| i in state.interfaces && f in InterfaceFiles(i);
      IsScript(lo, f);
    }
  }

  lemma IsScript(i: Interface, f: Rendered)
    requires i.kind.Dummy? && PlainName(i.name) && f in InterfaceFiles(i)
    ensures TopSegment(f.path) == SCRIPTS
  {
    hide TopSegment, PlainName, ScriptPath, IsTemp;
    ScriptPathShape(i.name);
  }

  /** With one it is an orphan, and the plan removes a link that is not there. */
  lemma ConfIsOrphan(disk: Tree, state: Desired, kinds: map<string, LinkKind>, i: Interface, plan: seq<Action>, name: string)
    requires WellFormed(state, kinds) && i in state.interfaces && i.kind.WireGuard? && i.name[0] != '.'
    requires PlainName(name) && name[0] != '.' && ConfPath(name) in disk && name !in NamesOf(state, WireGuard)
    requires IsPlan(plan, Files(state), disk)
    ensures name in WgRemovals(plan)
  {
    assert PlainName(i.name);
    hide Files, TopSegment, IsTemp, ConfPath, ScriptPath, WellFormed, Clean, IsPlan, WgRemovals, PlainName, NamesOf;
    CleanFiles(state, kinds);
    ConfPathShape(name);
    ConfPathShape(i.name);
    RenderedPaths(state, kinds, name);
    RenderedContent(state, kinds, i);
    assert TopSegment(ConfPath(i.name)) in Tops(Files(state));
    assert IsOrphan(ConfPath(name), Files(state), disk);
    hide IsOrphan;
    WgCauses(state, plan, name);
    PlanWrites(plan, Files(state), disk, ConfPath(name));
  }

  ghost function SecondRun(): seq<Round> {
    Then(FirstRun(), Node(None), HOT)
  }

  lemma SecondIsRun()
    ensures IsRun(SecondRun(), KINDS) && InStep(AfterRounds(SecondRun()), Node(None), KINDS)
    ensures Holds(Node(None), AfterRounds(SecondRun()).live)
  {
    hide WellFormed, InStep, AfterRounds, IsRun, Holds, FirstRun, Tidy, Node;
    NodeIsWellFormed(None);
    FirstIsRun();
    ThenIsRun(FirstRun(), KINDS, Node(None), HOT);
    StopIsTidy();
    assert AlwaysTidy(SecondRun());
    RunHoldsIff(SecondRun(), KINDS);
  }

  lemma StopIsTidy()
    ensures Tidy(Node(Some("1")), Node(None), HOT)
  {
    NodeIsWellFormed(Some("1"));
    NodeIsWellFormed(None);
    NamesDiffer();
    hide WellFormed, Node, PlainName;
  }

  /** The only tunnel leaves the state; its link goes, its conf stays. */
  lemma ConfIsLeft(m: Machine)
    requires m == AfterRounds(SecondRun())
    ensures TUNNEL !in m.live && ConfPath(TUNNEL) in m.disk
  {
    hide WellFormed, AfterRounds, IsRun, FirstRun, Files, PlainName, ConfPath, AfterRound, Node;
    var rounds := SecondRun();
    var r := rounds[|rounds| - 1];
    assert rounds[..|rounds| - 1] == FirstRun() && r.state == Node(None) && r.rebuilt == HOT;
    LastStep(rounds);
    LinkGoes(Before(), r);
    ConfStaysOn(Before().disk);
    DiskOfRound(Before(), r);
  }

  lemma ConfStaysOn(disk: Tree)
    requires disk == Before().disk
    ensures ConfPath(TUNNEL) in Executed(Files(Node(None)), disk)
  {
    hide WellFormed, Files, PlainName, ConfPath, Before, Executed, Node, NamesOf;
    NodeIsWellFormed(None);
    NamesDiffer();
    ConfWasThere();
    NoTunnel();
    assert TUNNEL[0] == 'a';
    ConfOutlives(disk, Interface(LOOPBACK, Dummy, "", ""), Node(None), KINDS, TUNNEL);
  }

  lemma DiskOfRound(m: Machine, r: Round)
    ensures AfterRound(m, r.state, r.rebuilt, r.plan, {}).disk == Executed(Files(r.state), m.disk)
  {
  }

  lemma NoTunnel()
    ensures NamesOf(Node(None), WireGuard) == {} && Node(None) == Desired([Interface(LOOPBACK, Dummy, "", "")], [], [])
  {
  }

  lemma ConfWasThere()
    ensures ConfPath(TUNNEL) in Before().disk
  {
    FirstIsRun();
    NodeIsWellFormed(Some("1"));
    hide WellFormed, Before, Files, PlainName, ConfPath, Holds, ScriptPath, Node;
    assert Tunnel(TUNNEL, "1") in Node(Some("1")).interfaces;
  }

  lemma LinkGoes(m: Machine, r: Round)
    requires m == Before() && r.state == Node(None) && r.rebuilt == HOT && IsPlan(r.plan, Files(r.state), m.disk)
    ensures TUNNEL !in AfterRound(m, r.state, r.rebuilt, r.plan, {}).live
  {
    hide *;
    FirstIsRun();
    NodeIsWellFormed(Some("1"));
    NodeIsWellFormed(None);
    NamesDiffer();
    HotBringsNothingUp();
    BeforeIs();
    RunIsFed(FirstRun(), KINDS);
    RemovalIff(m, Node(Some("1")), r.state, KINDS, r.rebuilt, r.plan, TUNNEL);
    HeldAfterRound(m, Node(Some("1")), r.state, KINDS, r.rebuilt, r.plan, TUNNEL);
  }

  lemma GrowingIsTidy(prev: Desired, next: Desired, rebuilt: Rebuilt)
    requires LinkNames(prev) <= LinkNames(next)
    ensures Tidy(prev, next, rebuilt)
  {
    hide LinkNames;
  }

  lemma Another(t: Interface, next: Desired)
    requires t == Tunnel(OTHER, "1") && next == Pair(LOOPBACK, Some(t))
    ensures WellFormed(next, KINDS) && Tidy(Node(None), next, HOT)
    ensures t in next.interfaces && TUNNEL !in NamesOf(next, WireGuard)
  {
    TunnelOf(t);
    NamesDiffer();
    assert Node(None) == Pair(LOOPBACK, None);
    hide WellFormed, PlainName, NamesOf, Pair, LinkNames, Tidy, Node;
    PairIsWellFormed(Some(t));
    PairIsWellFormed(None);
    GrowingIsTidy(Node(None), next, HOT);
  }

  lemma RemovesAgain(m: Machine, next: Desired, plan: seq<Action>)
    requires m == AfterRounds(SecondRun()) && WellFormed(next, KINDS) && IsPlan(plan, Files(next), m.disk)
    requires Tunnel(OTHER, "1") in next.interfaces && TUNNEL !in NamesOf(next, WireGuard)
    ensures !(WgRemovals(plan) <= m.live.Keys)
  {
    hide WellFormed, SecondRun, Files, PlainName, ConfPath, NamesOf, IsPlan, WgRemovals;
    NamesDiffer();
    ConfIsLeft(m);
    assert TUNNEL[0] == 'a' && OTHER[0] == 'b';
    ConfIsOrphan(m.disk, next, KINDS, Tunnel(OTHER, "1"), plan, TUNNEL);
  }

  /** When a tunnel of another name is added afterwards, the round removes the old link a second time
      and so is reported as failed, although its links are exactly those of the state. */
  lemma FirstTunnelAgainFails() returns (next: Desired, plan: seq<Action>)
    ensures var m := AfterRounds(SecondRun());
      && IsRun(SecondRun(), KINDS) && next == Pair(LOOPBACK, Some(Tunnel(OTHER, "1"))) && WellFormed(next, KINDS)
      && IsPlan(plan, Files(next), m.disk)
      && Holds(next, AfterRound(m, next, HOT, plan, {}).live) && !RoundOk(m, next, HOT, plan, {})
  {
    next := Pair(LOOPBACK, Some(Tunnel(OTHER, "1")));
    hide *;
    Another(Tunnel(OTHER, "1"), next);
    SecondIsRun();
    var m := AfterRounds(SecondRun());
    plan := SomePlan(Files(next), m.disk);
    RemovesAgain(m, next, plan);
    assert !BringsUp(HOT) by { HotBringsNothingUp(); }
    RoundOkIff(m, Node(None), next, KINDS, HOT, plan);
    RoundHoldsIff(m, Node(None), next, KINDS, HOT, plan);
  }

  lemma HotBringsNothingUp()
    ensures !BringsUp(HOT) && !Emptied(HOT)
  {
  }

  lemma TunnelOf(t: Interface)
    requires t.kind.WireGuard?
    ensures NamesOf(Pair(LOOPBACK, Some(t)), WireGuard) == {t.name}
  {
    assert Pair(LOOPBACK, Some(t)).interfaces[1] == t;
  }
}
