/** What stays on a link that is never taken down: its scripts give it addresses and routes, and none
    of them takes one away. */
module Residue {
  import opened Wrappers
  import opened Order
  import opened FilePlan
  import opened Convergence
  import opened Namespace
  import opened Rounds
  import opened Samples

  /** The addresses and routes a state asks for on a link. */
  function EntriesFor(state: Desired, name: string): set<string> {
    set i, e | i in state.interfaces && i.name == name && !i.kind.Underlay? && e in Entries(i.script) :: e
  }

  lemma EntriesOfInterface(state: Desired, kinds: map<string, LinkKind>, i: Interface)
    requires WellFormed(state, kinds) && i in state.interfaces && !i.kind.Underlay?
    ensures EntriesFor(state, i.name) == Entries(i.script)
  {
    hide Files, Clean, PlainName, Entries;
  }

  // ----- one round -----

  /** Every link of the state has at least what the state asks for. */
  ghost predicate Fed(live: Links, state: Desired) {
    forall n :: n in LinkNames(state) ==> n in live && EntriesFor(state, n) <= live[n].held
  }

  /** A wanted link that no step syncs was asked for the same before. */
  lemma UnsyncedIsSame(m: Machine, prev: Desired, next: Desired, kinds: map<string, LinkKind>,
                       before: seq<Step>, plan: seq<Action>, name: string)
    requires InStep(m, prev, kinds) && WellFormed(prev, kinds) && WellFormed(next, kinds) && IsPlan(plan, Files(next), m.disk)
    requires forall s :: s in before ==> s == Reload
    requires name in LinkNames(next) && !Synced(HotSteps(before, next, plan), {}, name)
    ensures name in LinkNames(prev) && name in m.live && EntriesFor(prev, name) == EntriesFor(next, name)
  {
    var disk := Executed(Files(next), m.disk);
    DiskAfterRound(m, prev, next, kinds);
    InPlan(before, next, plan, name);
    WantedScript(disk, next, kinds, name);
    hide HotSteps, Executed, Files, IsPlan, DummyChanges, WgChanges, WellFormed, DiskInStep, RunScript, EntriesFor, Entries;
    UntouchedIsUpToDate(m, prev, next, kinds, plan, name);
    SameScript(m.live, prev, next, kinds, disk, name);
  }

  lemma SameScript(live: Links, prev: Desired, next: Desired, kinds: map<string, LinkKind>, disk: Tree, name: string)
    requires WellFormed(prev, kinds) && WellFormed(next, kinds) && DiskInStep(disk, next, LinkNames(next), kinds)
    requires Holds(prev, Wanted(prev, live)) && name in LinkNames(prev) && name in LinkNames(next)
    requires name in live && live[name].config == RunScript(next, disk, name)
    ensures EntriesFor(prev, name) == EntriesFor(next, name)
  {
    hide Holds, WellFormed, DiskInStep, RunScript, EntriesFor, Entries;
    var i :| i in prev.interfaces && i.name == name && !i.kind.Underlay?;
    var j :| j in next.interfaces && j.name == name && !j.kind.Underlay?;
    ConfigHeld(prev, live, i);
    hide LinkNames, Wanted;
    ScriptRuns(next, kinds, disk, j);
    EntriesOfInterface(prev, kinds, i);
    EntriesOfInterface(next, kinds, j);
  }

  /** After a round every wanted link holds what it held, if it was there, and what the state asks for. */
  lemma HeldAfterRound(m: Machine, prev: Desired, next: Desired, kinds: map<string, LinkKind>,
                       rebuilt: Rebuilt, plan: seq<Action>, name: string)
    requires InStep(m, prev, kinds) && (prev != NO_STATE ==> WellFormed(prev, kinds)) && WellFormed(next, kinds)
    requires IsPlan(plan, Files(next), m.disk) && Fed(m.live, prev)
    ensures var start, out := Start(m, rebuilt), AfterRound(m, next, rebuilt, plan, {}).live;
      if name in LinkNames(next) then
        && name in out && out[name].held == HeldBy(start, name) + EntriesFor(next, name)
        && Remove(name) !in Plan(next, rebuilt, plan)
      else if Remove(name) in Plan(next, rebuilt, plan) then name !in out
      else SameLink(out, start, name)
  {
    hide *;
    var disk, steps := Executed(Files(next), m.disk), Plan(next, rebuilt, plan);
    LinksOfRound(m, next, rebuilt, plan, {});
    RoundCovers(m, prev, next, kinds, rebuilt, plan, name);
    DiskAfterRound(m, prev, next, kinds);
    if name in LinkNames(next) {
      ScriptEntries(next, kinds, disk, name);
      if !Synced(steps, {}, name) {
        UnsyncedInRound(m, prev, next, kinds, rebuilt, plan, name);
        StartsAs(m, rebuilt);
      }
    }
    HeldFrom(next, disk, Start(m, rebuilt), steps, name);
  }

  lemma StartsAs(m: Machine, rebuilt: Rebuilt)
    ensures Start(m, rebuilt) == if Emptied(rebuilt) then map[] else m.live
  {
  }

  /** The same for any covering steps, with what is known about the script of a wanted link. */
  lemma HeldFrom(next: Desired, disk: Tree, start: Links, steps: seq<Step>, name: string)
    requires Covered(next, disk, start, steps, name)
    requires name in LinkNames(next) ==>
      ScriptPath(name) in disk && EntriesFor(next, name) == Entries(disk[ScriptPath(name)]) &&
      (!Synced(steps, {}, name) ==> name in start && EntriesFor(next, name) <= start[name].held)
    ensures var out := RunSteps(next, disk, start, steps, {});
      if name in LinkNames(next) then
        name in out && out[name].held == HeldBy(start, name) + EntriesFor(next, name) && Remove(name) !in steps
      else if Remove(name) in steps then name !in out
      else SameLink(out, start, name)
  {
    hide RunSteps, RunScript, Entries, EntriesFor, ScriptPath, LinkNames;
    RunAt(next, disk, start, steps, {}, name);
  }

  lemma ScriptEntries(next: Desired, kinds: map<string, LinkKind>, disk: Tree, name: string)
    requires WellFormed(next, kinds) && DiskInStep(disk, next, LinkNames(next), kinds) && name in LinkNames(next)
    ensures ScriptPath(name) in disk && EntriesFor(next, name) == Entries(disk[ScriptPath(name)])
  {
    var i :| i in next.interfaces && i.name == name && !i.kind.Underlay?;
    hide WellFormed, DiskInStep, EntriesFor, Entries, ScriptPath;
    ScriptRuns(next, kinds, disk, i);
    EntriesOfInterface(next, kinds, i);
  }

  lemma UnsyncedInRound(m: Machine, prev: Desired, next: Desired, kinds: map<string, LinkKind>,
                        rebuilt: Rebuilt, plan: seq<Action>, name: string)
    requires InStep(m, prev, kinds) && (prev != NO_STATE ==> WellFormed(prev, kinds)) && WellFormed(next, kinds)
    requires IsPlan(plan, Files(next), m.disk) && Fed(m.live, prev)
    requires name in LinkNames(next) && !Synced(Plan(next, rebuilt, plan), {}, name)
    ensures !Emptied(rebuilt) && name in m.live && EntriesFor(next, name) <= m.live[name].held
  {
    var reload := if BirdChanged(plan) && !rebuilt.bird then [Reload] else [];
    hide WellFormed, IsPlan, EntriesFor, HotSteps, FullBringUp, Files;
    if BringsUp(rebuilt) {
      DiskAfterRound(m, prev, next, kinds);
      RebuildCovers(next, kinds, Executed(Files(next), m.disk), m.live, reload, name);
    } else if prev == NO_STATE {
      NothingBefore(m, next, kinds, reload, plan, name);
    } else {
      UnsyncedIsSame(m, prev, next, kinds, reload, plan, name);
    }
  }

  lemma NothingBefore(m: Machine, next: Desired, kinds: map<string, LinkKind>, before: seq<Step>, plan: seq<Action>, name: string)
    requires InStep(m, NO_STATE, kinds) && WellFormed(next, kinds) && IsPlan(plan, Files(next), m.disk)
    requires forall s :: s in before ==> s == Reload
    requires name in LinkNames(next)
    ensures Synced(HotSteps(before, next, plan), {}, name)
  {
    NothingNamed();
    hide HotSteps, Executed, Files, IsPlan, DummyChanges, WgChanges, WellFormed, DiskInStep, LinkNames, InStep, PlainName, ScriptPath;
    InPlan(before, next, plan, name);
    DiskAfterRound(m, NO_STATE, next, kinds);
    WantedScript(Executed(Files(next), m.disk), next, kinds, name);
    if !Synced(HotSteps(before, next, plan), {}, name) {
      UntouchedIsUpToDate(m, NO_STATE, next, kinds, plan, name);
      assert false;
    }
  }

  lemma NothingNamed()
    ensures LinkNames(NO_STATE) == {}
  {
  }

  lemma FedAfterRound(m: Machine, prev: Desired, next: Desired, kinds: map<string, LinkKind>,
                      rebuilt: Rebuilt, plan: seq<Action>)
    requires InStep(m, prev, kinds) && (prev != NO_STATE ==> WellFormed(prev, kinds)) && WellFormed(next, kinds)
    requires IsPlan(plan, Files(next), m.disk) && Fed(m.live, prev)
    ensures Fed(AfterRound(m, next, rebuilt, plan, {}).live, next)
  {
    hide InStep, WellFormed, IsPlan, Files, AfterRound, Plan, EntriesFor;
    forall n | n in LinkNames(next)
      ensures n in AfterRound(m, next, rebuilt, plan, {}).live
      ensures EntriesFor(next, n) <= AfterRound(m, next, rebuilt, plan, {}).live[n].held
    {
      HeldAfterRound(m, prev, next, kinds, rebuilt, plan, n);
    }
  }

  // ----- runs -----

  /** The link is not taken down in this round, neither by the plan nor with its namespace. */
  ghost predicate Survives(r: Round, name: string) {
    !Emptied(r.rebuilt) && Remove(name) !in Plan(r.state, r.rebuilt, r.plan)
  }

  /** The link of round `k` has been up ever since. */
  ghost predicate Stays(rounds: seq<Round>, k: nat, name: string)
    requires k < |rounds|
  {
    name in LinkNames(rounds[k].state) && forall j :: k < j < |rounds| ==> Survives(rounds[j], name)
  }

  lemma StaysNext(rounds: seq<Round>, k: nat, name: string)
    requires rounds != [] && k < |rounds|
    ensures var n := |rounds| - 1;
      Stays(rounds, k, name) <==>
        if k == n then name in LinkNames(rounds[n].state) else Stays(rounds[..n], k, name) && Survives(rounds[n], name)
  {
    hide Survives, LinkNames;
    var init := rounds[..|rounds| - 1];
    assert forall j :: 0 <= j < |init| ==> init[j] == rounds[j];
  }

  /** Some state asked for this entry while the link was up, and it has been up ever since. */
  ghost predicate Given(rounds: seq<Round>, name: string, entry: string) {
    exists k :: 0 <= k < |rounds| && Stays(rounds, k, name) && entry in EntriesFor(rounds[k].state, name)
  }

  ghost predicate IsUp(rounds: seq<Round>, name: string) {
    exists k :: 0 <= k < |rounds| && Stays(rounds, k, name)
  }

  lemma GivenNext(rounds: seq<Round>, name: string, entry: string)
    requires rounds != []
    ensures var r, before := rounds[|rounds| - 1], rounds[..|rounds| - 1];
      && (Given(rounds, name, entry) <==>
            (name in LinkNames(r.state) && entry in EntriesFor(r.state, name)) ||
            (Survives(r, name) && Given(before, name, entry)))
      && (IsUp(rounds, name) <==> name in LinkNames(r.state) || (Survives(r, name) && IsUp(before, name)))
  {
    hide Survives, LinkNames, EntriesFor, Stays;
    var n, before := |rounds| - 1, rounds[..|rounds| - 1];
    forall k | 0 <= k < |rounds|
      ensures Stays(rounds, k, name) <==>
        if k == n then name in LinkNames(rounds[n].state) else Stays(before, k, name) && Survives(rounds[n], name)
      ensures k < n ==> before[k] == rounds[k]
    {
      StaysNext(rounds, k, name);
    }
    if Survives(rounds[n], name) {
      if k :| 0 <= k < |before| && Stays(before, k, name) && entry in EntriesFor(before[k].state, name) {
        assert Stays(rounds, k, name);
      }
      if k :| 0 <= k < |before| && Stays(before, k, name) {
        assert Stays(rounds, k, name);
      }
    }
    if name in LinkNames(rounds[n].state) {
      assert Stays(rounds, n, name);
    }
  }

  ghost predicate LastIsFormed(rounds: seq<Round>, kinds: map<string, LinkKind>) {
    LastState(rounds) != NO_STATE ==> WellFormed(LastState(rounds), kinds)
  }

  lemma {:induction false} RunIsFed(rounds: seq<Round>, kinds: map<string, LinkKind>)
    requires IsRun(rounds, kinds)
    ensures Fed(AfterRounds(rounds).live, LastState(rounds)) && LastIsFormed(rounds, kinds)
  {
    if rounds != [] {
      hide WellFormed, InStep, AfterRound, IsPlan, Fed, Files;
      var before, r := rounds[..|rounds| - 1], rounds[|rounds| - 1];
      RunStaysInStep(before, kinds);
      RunIsFed(before, kinds);
      FedAfterRound(AfterRounds(before), LastState(before), r.state, kinds, r.rebuilt, r.plan);
    }
  }

  /** After any run in which no step fails, a link is up if some state asked for it and it has not been
      taken down since, and it holds exactly the addresses and routes that any state asked for from
      then on. */
  lemma {:induction false} HeldIsUnion(rounds: seq<Round>, kinds: map<string, LinkKind>, name: string)
    requires IsRun(rounds, kinds)
    ensures name in AfterRounds(rounds).live <==> IsUp(rounds, name)
    ensures name in AfterRounds(rounds).live ==>
      forall e :: e in AfterRounds(rounds).live[name].held <==> Given(rounds, name, e)
    decreases |rounds|
  {
    if rounds != [] {
      hide WellFormed, InStep, AfterRound, IsPlan, Fed, Files, Given, IsUp, Plan, LinkNames, EntriesFor;
      var before, r := rounds[..|rounds| - 1], rounds[|rounds| - 1];
      HeldIsUnion(before, kinds, name);
      RunStaysInStep(before, kinds);
      RunIsFed(before, kinds);
      HeldAfterRound(AfterRounds(before), LastState(before), r.state, kinds, r.rebuilt, r.plan, name);
      GivenNext(rounds, name, "");
      forall e ensures Given(rounds, name, e) <==>
        (name in LinkNames(r.state) && e in EntriesFor(r.state, name)) || (Survives(r, name) && Given(before, name, e))
      {
        GivenNext(rounds, name, e);
      }
      NotUpNotGiven(before, name);
    }
  }

  lemma NotUpNotGiven(rounds: seq<Round>, name: string)
    ensures !IsUp(rounds, name) ==> forall e :: !Given(rounds, name, e)
  {
    hide Stays, EntriesFor;
  }

  // ----- hot convergence against a rebuild -----

  /** Every link that has been up since some round is still wanted, and no address or route that was
      asked for since has been dropped. */
  ghost predicate NothingDropped(rounds: seq<Round>) {
    forall k, n :: 0 <= k < |rounds| && Stays(rounds, k, n) ==>
      n in LinkNames(LastState(rounds)) && EntriesFor(rounds[k].state, n) <= EntriesFor(LastState(rounds), n)
  }

  /** A state is exactly up when every link is wanted and holds what is asked for and no more. */
  lemma ExactAtEach(state: Desired, kinds: map<string, LinkKind>, live: Links)
    requires WellFormed(state, kinds) && Holds(state, Wanted(state, live)) && Fed(live, state)
    ensures Exact(state, live) <==> forall n :: n in live ==> n in LinkNames(state) && live[n].held <= EntriesFor(state, n)
  {
    hide WellFormed, Entries, EntriesFor;
    forall i | i in state.interfaces && !i.kind.Underlay?
      ensures i.name in LinkNames(state) && EntriesFor(state, i.name) == Entries(i.script)
    {
      EntriesOfInterface(state, kinds, i);
    }
    if forall n :: n in live ==> n in LinkNames(state) {
      assert Wanted(state, live) == live;
    }
    if Exact(state, live) {
      forall n | n in live ensures live[n].held <= EntriesFor(state, n) {
        var i :| i in state.interfaces && i.name == n && !i.kind.Underlay?;
      }
    }
  }

  /** After a run the namespace is exactly what the last state describes if and only if nothing was
      dropped since. */
  lemma RunIsExactIff(rounds: seq<Round>, kinds: map<string, LinkKind>)
    requires IsRun(rounds, kinds) && rounds != []
    ensures Exact(LastState(rounds), AfterRounds(rounds).live) <==> NothingDropped(rounds)
  {
    var state, live := LastState(rounds), AfterRounds(rounds).live;
    RunStaysInStep(rounds, kinds);
    RunIsFed(rounds, kinds);
    assert Holds(state, Wanted(state, live)) && WellFormed(state, kinds);
    hide *;
    ExactAtEach(state, kinds, live);
    forall n ensures (n in live <==> IsUp(rounds, n)) && (n in live ==> forall e :: e in live[n].held <==> Given(rounds, n, e)) {
      HeldIsUnion(rounds, kinds, n);
    }
    if NothingDropped(rounds) {
      KeptIsWanted(rounds, live);
    } else {
      DroppedIsHeld(rounds, live);
    }
  }

  lemma KeptIsWanted(rounds: seq<Round>, live: Links)
    requires NothingDropped(rounds)
    requires forall n :: (n in live <==> IsUp(rounds, n)) && (n in live ==> forall e :: e in live[n].held <==> Given(rounds, n, e))
    ensures var state := LastState(rounds);
      forall n :: n in live ==> n in LinkNames(state) && live[n].held <= EntriesFor(state, n)
  {
    var state := LastState(rounds);
    hide EntriesFor, Stays, LinkNames, LastState;
    forall n | n in live ensures n in LinkNames(state) && live[n].held <= EntriesFor(state, n) {
      assert IsUp(rounds, n);
    }
  }

  lemma DroppedIsHeld(rounds: seq<Round>, live: Links)
    requires !NothingDropped(rounds)
    requires forall n :: (n in live <==> IsUp(rounds, n)) && (n in live ==> forall e :: e in live[n].held <==> Given(rounds, n, e))
    ensures var state := LastState(rounds);
      exists n :: n in live && !(n in LinkNames(state) && live[n].held <= EntriesFor(state, n))
  {
    var state := LastState(rounds);
    hide EntriesFor, Stays, LinkNames, LastState;
    var k, n :| 0 <= k < |rounds| && Stays(rounds, k, n) &&
      !(n in LinkNames(state) && EntriesFor(rounds[k].state, n) <= EntriesFor(state, n));
    assert IsUp(rounds, n);
    if n in LinkNames(state) {
      var e :| e in EntriesFor(rounds[k].state, n) && e !in EntriesFor(state, n);
      assert Given(rounds, n, e);
    }
  }

  /** A round that loses the namespace leaves it exactly as the state describes it. */
  lemma RebuildIsExact(m: Machine, prev: Desired, next: Desired, kinds: map<string, LinkKind>,
                       rebuilt: Rebuilt, plan: seq<Action>)
    requires InStep(m, prev, kinds) && (prev != NO_STATE ==> WellFormed(prev, kinds)) && WellFormed(next, kinds)
    requires IsPlan(plan, Files(next), m.disk) && Fed(m.live, prev) && Emptied(rebuilt)
    ensures Exact(next, AfterRound(m, next, rebuilt, plan, {}).live)
  {
    var live := AfterRound(m, next, rebuilt, plan, {}).live;
    hide WellFormed, IsPlan, Fed, AfterRound, Plan, DiskInStep, Holds, Files, EntriesFor, LinkNames, Exact;
    RoundConverges(m, prev, next, kinds, rebuilt, plan);
    FedAfterRound(m, prev, next, kinds, rebuilt, plan);
    ExactAtEach(next, kinds, live);
    forall n | n in live ensures n in LinkNames(next) && live[n].held <= EntriesFor(next, n) {
      HeldAfterRound(m, prev, next, kinds, rebuilt, plan, n);
    }
  }

  /** Hot convergence equals a rebuild, addresses and routes included, if and only if nothing was
      dropped: over any run in which no step fails, the machine after the last round is the one that
      this round would have left by losing the namespace. */
  lemma HotEqualsRebuildIff(rounds: seq<Round>, kinds: map<string, LinkKind>, rebuilt: Rebuilt)
    requires IsRun(rounds, kinds) && rounds != [] && Emptied(rebuilt)
    ensures var r, m := rounds[|rounds| - 1], AfterRounds(rounds[..|rounds| - 1]);
      AfterRounds(rounds) == AfterRound(m, r.state, rebuilt, r.plan, {}) <==> NothingDropped(rounds)
  {
    var before, r := rounds[..|rounds| - 1], rounds[|rounds| - 1];
    var m := AfterRounds(before);
    RunStaysInStep(before, kinds);
    RunIsFed(before, kinds);
    RunIsExactIff(rounds, kinds);
    assert AfterRounds(rounds).disk == AfterRound(m, r.state, rebuilt, r.plan, {}).disk;
    hide WellFormed, IsPlan, Fed, AfterRound, InStep, Files, Exact, NothingDropped;
    RebuildIsExact(m, LastState(before), r.state, kinds, rebuilt, r.plan);
    if Exact(r.state, AfterRounds(rounds).live) {
      ExactDetermines(r.state, AfterRounds(rounds).live, AfterRound(m, r.state, rebuilt, r.plan, {}).live);
    }
  }

  /** As far as names, scripts and confs go, the two always agree on the links of the state. */
  lemma HotEqualsRebuildByConfig(rounds: seq<Round>, kinds: map<string, LinkKind>, rebuilt: Rebuilt)
    requires IsRun(rounds, kinds) && rounds != []
    ensures var r, m := rounds[|rounds| - 1], AfterRounds(rounds[..|rounds| - 1]);
      var here, there := AfterRounds(rounds), AfterRound(m, r.state, rebuilt, r.plan, {});
      && here.disk == there.disk
      && Holds(r.state, Wanted(r.state, here.live)) && Holds(r.state, Wanted(r.state, there.live))
  {
    var before, r := rounds[..|rounds| - 1], rounds[|rounds| - 1];
    RunStaysInStep(before, kinds);
    RunStaysInStep(rounds, kinds);
    hide WellFormed, IsPlan, Files, DiskInStep, Holds, RunSteps, Plan, Executed;
    RoundConverges(AfterRounds(before), LastState(before), r.state, kinds, rebuilt, r.plan);
  }

  // ----- an address that stays -----

  function One(name: string, script: string): Desired {
    Desired([Interface(name, Dummy, "", script)], [], [])
  }

  lemma OneIsWellFormed(name: string, script: string)
    requires PlainName(name) && '\r' !in script
    ensures WellFormed(One(name, script), map[name := Dummy]) && LinkNames(One(name, script)) == {name}
    ensures EntriesFor(One(name, script), name) == Entries(script)
  {
    var i := Interface(name, Dummy, "", script);
    assert One(name, script).interfaces[0] == i;
    assert OnlyPlain(One(name, script), map[name := Dummy]);
    hide WellFormed, Entries, PlainName, OnlyPlain, Files;
    PlainIsWellFormed(One(name, script), map[name := Dummy], i);
    EntriesOfInterface(One(name, script), map[name := Dummy], i);
  }

  /** The state asks for `before` on a link, and then, in a hot round, for `after`. */
  ghost function Changed(name: string, before: string, after: string): seq<Round> {
    Then(Then([], One(name, before), REBUILD), One(name, after), HOT)
  }

  /** What the script no longer asks for stays on the link, and a rebuild would have taken it away. */
  lemma DroppedStays(name: string, before: string, after: string, entry: string)
    requires PlainName(name) && '\r' !in before && '\r' !in after && entry in Entries(before) && entry !in Entries(after)
    ensures var rounds := Changed(name, before, after);
      && IsRun(rounds, map[name := Dummy]) && |rounds| == 2
      && name in AfterRounds(rounds).live && entry in AfterRounds(rounds).live[name].held
      && AfterRounds(rounds) != AfterRound(AfterRounds(rounds[..1]), rounds[1].state, REBUILD, rounds[1].plan, {})
  {
    var kinds, first, rounds := map[name := Dummy], Then([], One(name, before), REBUILD), Changed(name, before, after);
    EmptyRun(kinds);
    hide WellFormed, IsRun, AfterRounds, Entries, EntriesFor, InStep, Stays, LinkNames, One, Files, AfterRound, PlainName;
    OneIsWellFormed(name, before);
    OneIsWellFormed(name, after);
    ThenIsRun([], kinds, One(name, before), REBUILD);
    ThenIsRun(first, kinds, One(name, after), HOT);
    StaysThen(first, One(name, before), One(name, after), kinds, name);
    hide WellFormed, IsRun, AfterRounds, Entries, EntriesFor, InStep, Stays, LinkNames, One, Files, AfterRound, NothingDropped, PlainName;
    assert rounds[0].state == One(name, before) && |rounds| == 2 && rounds[..1] == first;
    assert Given(rounds, name, entry);
    assert !NothingDropped(rounds) by { EntryIsDropped(rounds, name, entry); }
    HeldIsUnion(rounds, kinds, name);
    assert IsUp(rounds, name);
    HotEqualsRebuildIff(rounds, kinds, REBUILD);
  }

  lemma EntryIsDropped(rounds: seq<Round>, name: string, entry: string)
    requires |rounds| == 2 && Stays(rounds, 0, name)
    requires entry in EntriesFor(rounds[0].state, name) && entry !in EntriesFor(rounds[1].state, name)
    ensures !NothingDropped(rounds)
  {
    hide Stays, EntriesFor, LinkNames;
  }

  lemma WantedSurvives(m: Machine, prev: Desired, r: Round, kinds: map<string, LinkKind>, name: string)
    requires InStep(m, prev, kinds) && WellFormed(r.state, kinds) && IsPlan(r.plan, Files(r.state), m.disk)
    requires name in LinkNames(r.state) && !Emptied(r.rebuilt)
    ensures Survives(r, name)
  {
    hide InStep, WellFormed, IsPlan, Files, Plan, LinkNames, Executed, RunScript;
    RoundCovers(m, prev, r.state, kinds, r.rebuilt, r.plan, name);
  }

  lemma StaysForOne(rounds: seq<Round>, name: string)
    requires |rounds| == 2 && name in LinkNames(rounds[0].state) && Survives(rounds[1], name)
    ensures Stays(rounds, 0, name)
  {
    hide Survives, LinkNames;
  }

  lemma StaysThen(first: seq<Round>, prev: Desired, state: Desired, kinds: map<string, LinkKind>, name: string)
    requires |first| == 1 && WellFormed(state, kinds) && InStep(AfterRounds(first), prev, kinds)
    requires name in LinkNames(first[0].state) && name in LinkNames(state)
    ensures Stays(Then(first, state, HOT), 0, name)
  {
    hide WellFormed, InStep, AfterRounds, Files, LinkNames, Survives, IsPlan, Stays, Plan;
    var r := Round(state, HOT, SomePlan(Files(state), AfterRounds(first).disk));
    WantedSurvives(AfterRounds(first), prev, r, kinds, name);
    StaysForOne(Then(first, state, HOT), name);
  }

  const ANYCAST := "dns-anycast"
  const ADD := "ip addr replace "
  const FORMER := ADD + "172.20.0.53/32"
  const LATER := ADD + "172.20.0.54/32"

  lemma {:induction false} LineEnds(line: string, rest: string)
    requires '\n' !in line && (rest == "" || rest[0] == '\n')
    ensures FirstLine(line + rest) == line
  {
    if line != "" {
      assert (line + rest)[0] == line[0] && (line + rest)[1..] == line[1..] + rest;
      LineEnds(line[1..], rest);
    } else {
      assert line + rest == rest;
    }
  }

  lemma OneCommand(command: string)
    requires '\n' !in command && StartsWith(command, "ip addr replace ")
    ensures Entries(command) == {command}
  {
    LineEnds(command, "");
    assert command + "" == command;
    assert Lines(command) == {command};
  }

  lemma NoControl(address: string)
    requires '\n' !in address && '\r' !in address
    ensures '\n' !in ADD + address && '\r' !in ADD + address && ADD <= ADD + address
  {
    assert ADD == "ip addr replace ";
  }

  lemma TheAddresses()
    ensures '\n' !in "172.20.0.53/32" && '\r' !in "172.20.0.53/32"
    ensures '\n' !in "172.20.0.54/32" && '\r' !in "172.20.0.54/32"
    ensures "172.20.0.53/32"[10] != "172.20.0.54/32"[10]
  {
  }

  lemma TheTwoCommands()
    ensures Entries(FORMER) == {FORMER} && Entries(LATER) == {LATER} && FORMER != LATER
    ensures '\r' !in FORMER && '\r' !in LATER && PlainName(ANYCAST)
  {
    TheAddresses();
    NoControl("172.20.0.53/32");
    NoControl("172.20.0.54/32");
    assert FORMER[|ADD| + 10] == "172.20.0.53/32"[10] && LATER[|ADD| + 10] == "172.20.0.54/32"[10];
    hide Entries;
    OneCommand(FORMER);
    OneCommand(LATER);
    AnycastIsPlain();
  }

  lemma AnycastIsPlain()
    ensures PlainName(ANYCAST)
  {
    assert ANYCAST[0] == 'd' && ALL_WG[0] == 'a';
  }

  /** The anycast address of a DNS group moves from one to another: the interface then holds both. */
  lemma AnycastKeepsOldAddress() returns (rounds: seq<Round>)
    ensures rounds == Changed(ANYCAST, FORMER, LATER) && IsRun(rounds, map[ANYCAST := Dummy]) && |rounds| == 2
    ensures ANYCAST in AfterRounds(rounds).live && FORMER in AfterRounds(rounds).live[ANYCAST].held
    ensures AfterRounds(rounds) != AfterRound(AfterRounds(rounds[..1]), rounds[1].state, REBUILD, rounds[1].plan, {})
  {
    hide *;
    TheTwoCommands();
    rounds := Changed(ANYCAST, FORMER, LATER);
    DroppedStays(ANYCAST, FORMER, LATER, FORMER);
  }

  // ----- a gateway rebuilt alone -----

  /** The tunnel leaves the state in a round that rebuilds the gateway and not router-netns, whose
      namespace it uses: everything wanted is brought up, and the tunnel stays. */
  lemma GatewayRebuildForgets() returns (rounds: seq<Round>)
    ensures rounds == Then(FirstRun(), Node(None), GATEWAY_ONLY) && IsRun(rounds, KINDS)
    ensures !Holds(Node(None), AfterRounds(rounds).live) && TUNNEL in AfterRounds(rounds).live
    ensures TUNNEL !in LinkNames(Node(None))
  {
    hide *;
    rounds := Then(FirstRun(), Node(None), GATEWAY_ONLY);
    FirstIsRun();
    NodeIsWellFormed(None);
    NodeIsWellFormed(Some("1"));
    NamesDiffer();
    ThenIsRun(FirstRun(), KINDS, Node(None), GATEWAY_ONLY);
    BeforeIs();
    ThenEnds(FirstRun(), Node(None), GATEWAY_ONLY);
    var r := rounds[|rounds| - 1];
    BeforeHasLinks();
    GatewayOnly();
    RemovalIff(Before(), Node(Some("1")), r.state, KINDS, r.rebuilt, r.plan, TUNNEL);
    RunIsFed(FirstRun(), KINDS);
    HeldAfterRound(Before(), Node(Some("1")), r.state, KINDS, r.rebuilt, r.plan, TUNNEL);
    StartsAs(Before(), r.rebuilt);
    LastStep(rounds);
    StillUp(AfterRounds(rounds).live, Before().live, TUNNEL);
    TooMany(Node(None), AfterRounds(rounds).live, TUNNEL);
  }

  lemma BeforeIs()
    ensures Before() == AfterRounds(FirstRun())
  {
  }

  lemma GatewayOnly()
    ensures BringsUp(GATEWAY_ONLY) && !Emptied(GATEWAY_ONLY)
  {
  }

  lemma StillUp(out: Links, start: Links, name: string)
    requires SameLink(out, start, name) && name in start
    ensures name in out
  {
  }

  /** The last round of such a run, and what is known of it. */
  lemma ThenEnds(rounds: seq<Round>, state: Desired, rebuilt: Rebuilt)
    ensures var more := Then(rounds, state, rebuilt);
      |more| == |rounds| + 1 && var r := more[|rounds|];
      r.state == state && r.rebuilt == rebuilt && IsPlan(r.plan, Files(state), AfterRounds(rounds).disk)
  {
    hide IsPlan, Files, AfterRounds;
  }

  lemma LastStep(rounds: seq<Round>)
    requires rounds != []
    ensures var r := rounds[|rounds| - 1];
      AfterRounds(rounds) == AfterRound(AfterRounds(rounds[..|rounds| - 1]), r.state, r.rebuilt, r.plan, {})
  {
  }

  lemma TooMany(state: Desired, live: Links, name: string)
    requires name in live && name !in LinkNames(state)
    ensures !Holds(state, live)
  {
  }
}
