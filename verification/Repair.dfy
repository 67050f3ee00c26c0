/** What becomes of a round whose convergence steps fail: when its links are right all the same, what
    the rounds after it repair and report, and what the drift healer and a restart of the gateway
    repair beside them. */
module Repair {
  import opened Wrappers
  import opened Order
  import opened FilePlan
  import opened Convergence
  import opened Namespace
  import opened Rounds
  import opened Residue
  import opened ExitCodes
  import opened Samples
  import Progress
  import Session

  // ----- the failing round -----

  /** What the steps that did not fail must have done for one name. */
  ghost predicate FineAt(next: Desired, disk: Tree, live: Links, steps: seq<Step>, failing: set<Step>, name: string) {
    if name in LinkNames(next) then
      Synced(steps, failing, name) || (name in live && live[name].config == RunScript(next, disk, name))
    else name in live ==> Removed(steps, failing, name)
  }

  /** The link is as the state wants it: up with its script and conf, or absent. */
  ghost predicate RightAt(next: Desired, disk: Tree, live: Links, name: string) {
    if name in LinkNames(next) then name in live && live[name].config == RunScript(next, disk, name) else name !in live
  }

  lemma HoldsIffRight(next: Desired, kinds: map<string, LinkKind>, disk: Tree, live: Links)
    requires WellFormed(next, kinds) && DiskInStep(disk, next, LinkNames(next), kinds)
    ensures Holds(next, live) <==> forall n :: RightAt(next, disk, live, n)
  {
    hide WellFormed, DiskInStep, Holds, RunScript, LinkNames;
    HoldsAtEach(next, kinds, disk, live);
    assert forall n :: RightAt(next, disk, live, n) <==>
      if n in LinkNames(next) then n in live && live[n].config == RunScript(next, disk, n) else n !in live;
  }

  lemma FineMeans(next: Desired, disk: Tree, live: Links, steps: seq<Step>, failing: set<Step>, name: string)
    requires Covered(next, disk, live, steps, name)
    ensures FineAt(next, disk, live, steps, failing, name) <==> RightAt(next, disk, RunSteps(next, disk, live, steps, failing), name)
  {
    hide RunScript, RunSteps, ScriptPath, Entries, LinkNames;
    RunAt(next, disk, live, steps, failing, name);
  }

  /** Whatever the failing steps, the links are right exactly if every name is fine. */
  lemma FailedRoundHoldsIff(m: Machine, prev: Desired, next: Desired, kinds: map<string, LinkKind>, rebuilt: Rebuilt,
                            plan: seq<Action>, failing: set<Step>)
    requires InStep(m, prev, kinds) && WellFormed(next, kinds) && IsPlan(plan, Files(next), m.disk)
    ensures Holds(next, AfterRound(m, next, rebuilt, plan, failing).live) <==>
      forall n :: FineAt(next, Executed(Files(next), m.disk), Start(m, rebuilt), Plan(next, rebuilt, plan), failing, n)
  {
    hide InStep, WellFormed, Holds, DiskInStep, RunSteps, Plan, Covered, FineAt, Executed, RunScript, IsPlan, Start, LinkNames;
    var disk, live, steps := Executed(Files(next), m.disk), Start(m, rebuilt), Plan(next, rebuilt, plan);
    var out := RunSteps(next, disk, live, steps, failing);
    DiskAfterRound(m, prev, next, kinds);
    HoldsIffRight(next, kinds, disk, out);
    hide RightAt;
    forall n ensures FineAt(next, disk, live, steps, failing, n) <==> RightAt(next, disk, out, n) {
      RoundCovers(m, prev, next, kinds, rebuilt, plan, n);
      FineMeans(next, disk, live, steps, failing, n);
    }
  }

  // ----- the rounds after it -----

  /** Executing the plan of a clean rendering a second time changes nothing. */
  lemma ExecutedTwice(files: seq<Rendered>, tree: Tree)
    requires Clean(files)
    ensures Executed(files, Executed(files, tree)) == Executed(files, tree)
  {
    hide IsTemp, TopSegment, ReadText;
    var once := Executed(files, tree);
    NoOrphanLeft(files, tree);
    forall p | p in Paths(files) ensures p in once && Settled(files, once, p) {
      ReplanAt(files, tree, p);
    }
    forall p | p in once ensures !IsOrphan(p, files, once) {
      assert IsOrphan(p, files, once) ==> p in Orphans(files, once);
    }
  }

  /** The disk as an executed file plan leaves it. */
  ghost predicate Written(disk: Tree, next: Desired, kinds: map<string, LinkKind>) {
    WellFormed(next, kinds) && DiskInStep(disk, next, LinkNames(next), kinds) && Executed(Files(next), disk) == disk
  }

  lemma RoundWrites(m: Machine, prev: Desired, next: Desired, kinds: map<string, LinkKind>)
    requires InStep(m, prev, kinds) && WellFormed(next, kinds)
    ensures Written(Executed(Files(next), m.disk), next, kinds)
  {
    DiskAfterRound(m, prev, next, kinds);
    hide InStep, DiskInStep, Executed;
    ExecutedTwice(Files(next), m.disk);
  }

  /** With the files already written, a plan for the same state has only noops, and if nothing is
      brought up no convergence step at all. */
  lemma RetryPlansNothing(next: Desired, disk: Tree, again: Rebuilt, plan: seq<Action>)
    requires Clean(Files(next)) && Executed(Files(next), disk) == disk && IsPlan(plan, Files(next), disk)
    requires !BringsUp(again)
    ensures Plan(next, again, plan) == []
  {
    var files := Files(next);
    ReplanIsNoopIffClean(files, disk);
    hide Files, Executed, Clean, IsPlan;
    forall a | a in plan ensures a.kind.Noop? {
      PlanMembers(plan, files, disk, a);
      assert IsOrphan(a.path, files, disk) ==> a.path in Orphans(files, disk);
    }
    NoopsPlanNothing(next, again, plan);
  }

  lemma NoopsPlanNothing(next: Desired, again: Rebuilt, plan: seq<Action>)
    requires (forall a :: a in plan ==> a.kind.Noop?) && !BringsUp(again)
    ensures Plan(next, again, plan) == []
  {
    hide NamesOf, AllNames, ConfName, ScriptName, WgScriptName, StartsWith;
    assert DummyChanges(next, plan) == {} && WgChanges(next, plan) == {};
    assert WgRemovals(plan) == {} && DummyRemovals(next, plan) == {};
    assert !BirdChanged(plan) && !LoopbackChanged(plan);
  }

  /** A retry that brings nothing up leaves the whole machine as it was and is reported as a success:
      there is no step that could fail. */
  lemma RetryChangesNothing(m: Machine, next: Desired, kinds: map<string, LinkKind>, again: Rebuilt, plan: seq<Action>,
                            failing: set<Step>)
    requires Written(m.disk, next, kinds) && IsPlan(plan, Files(next), m.disk) && !BringsUp(again)
    ensures AfterRound(m, next, again, plan, failing) == m && RoundOk(m, next, again, plan, failing)
  {
    hide DiskInStep, Executed, IsPlan, Plan;
    RetryPlansNothing(next, m.disk, again, plan);
  }

  ghost predicate Missing(next: Desired, live: Links) {
    !(LinkNames(next) <= live.Keys)
  }

  ghost predicate Lingering(next: Desired, live: Links) {
    !(live.Keys <= LinkNames(next))
  }

  /** A retry that brings everything up settles every wanted link, and leaves the others. */
  lemma BringUpHoldsIff(m: Machine, next: Desired, kinds: map<string, LinkKind>, again: Rebuilt, plan: seq<Action>)
    requires Written(m.disk, next, kinds) && BringsUp(again)
    ensures AfterRound(m, next, again, plan, {}).disk == m.disk
    ensures Holds(next, AfterRound(m, next, again, plan, {}).live) <==> Emptied(again) || !Lingering(next, m.live)
  {
    var reload := if BirdChanged(plan) && !again.bird then [Reload] else [];
    var steps, live := FullBringUp(reload, next), Start(m, again);
    hide WellFormed, DiskInStep, Executed, Holds, RunSteps, FullBringUp, Reached, LinkNames, Covered;
    forall n ensures Covered(next, m.disk, live, steps, n) && Remove(n) !in steps {
      RebuildCovers(next, kinds, m.disk, live, reload, n);
    }
    CoveredReaches(next, m.disk, live, steps);
    ReachedHolds(next, kinds, m.disk, live, steps, RunSteps(next, m.disk, live, steps, {}));
  }

  /** What the next round of the same state makes of a failed one, whatever steps failed: a hot retry
      replays none of them, be it a missing link, an old configuration or a link that should be gone;
      one that brings everything up repairs all but links that linger in a namespace that survives. */
  lemma RetryHoldsIff(m: Machine, prev: Desired, next: Desired, kinds: map<string, LinkKind>, rebuilt: Rebuilt,
                      plan: seq<Action>, failing: set<Step>, again: Rebuilt, retry: seq<Action>)
    requires InStep(m, prev, kinds) && WellFormed(next, kinds) && IsPlan(plan, Files(next), m.disk)
    requires IsPlan(retry, Files(next), Executed(Files(next), m.disk))
    ensures var failed := AfterRound(m, next, rebuilt, plan, failing);
      Holds(next, AfterRound(failed, next, again, retry, {}).live) <==>
        if BringsUp(again) then Emptied(again) || !Lingering(next, failed.live) else Holds(next, failed.live)
  {
    var failed := AfterRound(m, next, rebuilt, plan, failing);
    assert failed.disk == Executed(Files(next), m.disk);
    RoundWrites(m, prev, next, kinds);
    hide AfterRound, Written, Holds, Executed, Lingering, InStep, WellFormed, IsPlan;
    if BringsUp(again) {
      BringUpHoldsIff(failed, next, kinds, again, retry);
    } else {
      RetryChangesNothing(failed, next, kinds, again, retry, {});
    }
  }

  /** So an applied generation does not imply its links: after a failed round the hot retry is a
      success, and once it is acknowledged the generation counts as applied; the links are right exactly
      if they were right after the failed round. */
  lemma AppliedWithLinksIff(m: Machine, prev: Desired, next: Desired, kinds: map<string, LinkKind>, rebuilt: Rebuilt,
                            plan: seq<Action>, failing: set<Step>, again: Rebuilt, retry: seq<Action>,
                            id: Progress.Identity, g: nat, s: Session.Script)
    requires InStep(m, prev, kinds) && WellFormed(next, kinds) && IsPlan(plan, Files(next), m.disk)
    requires IsPlan(retry, Files(next), Executed(Files(next), m.disk)) && !BringsUp(again)
    requires s.mode.Apply? && s.writes && s.deploys && Session.AfterRound(id, g, s).0
    requires var failed := AfterRound(m, next, rebuilt, plan, failing);
      s.converges == Some(RoundOk(failed, next, again, retry, {}))
    ensures var failed := AfterRound(m, next, rebuilt, plan, failing);
      && Session.AfterRound(id, g, s).1.applied == Some(g)
      && (Holds(next, AfterRound(failed, next, again, retry, {}).live) <==> Holds(next, failed.live))
  {
    var failed := AfterRound(m, next, rebuilt, plan, failing);
    assert failed.disk == Executed(Files(next), m.disk);
    RoundWrites(m, prev, next, kinds);
    hide AfterRound, Written, Holds, Executed, InStep, WellFormed, IsPlan, RoundOk, BringsUp;
    RetryChangesNothing(failed, next, kinds, again, retry, {});
    hide Session.AfterRound;
    SuccessAdvances(id, g, s);
  }

  lemma SuccessAdvances(id: Progress.Identity, g: nat, s: Session.Script)
    requires s.mode.Apply? && s.writes && s.deploys && s.converges == Some(true) && Session.AfterRound(id, g, s).0
    ensures Session.AfterRound(id, g, s).1.applied == Some(g)
  {
    hide Session.AfterRound;
    Session.RoundAdvancesIff(id, g, s);
  }

  // ----- all scripts in one go -----

  /** `apply-all-wg.sh`: every script of the state, dummies first. */
  function AllScripts(next: Desired): seq<Step> {
    Syncs(Sorted(NamesOf(next, Dummy))) + Syncs(Sorted(NamesOf(next, WireGuard)))
  }

  /** `set -e`: the first script that fails ends it. */
  function Until(steps: seq<Step>, failing: set<Step>): (done: seq<Step>)
    ensures done <= steps
  {
    if steps == [] || steps[0] in failing then [] else [steps[0]] + Until(steps[1..], failing)
  }

  ghost predicate Unblocked(steps: seq<Step>, failing: set<Step>, step: Step, k: nat)
    requires k < |steps|
  {
    steps[k] == step && forall j :: 0 <= j <= k ==> steps[j] !in failing
  }

  lemma UnblockedNext(steps: seq<Step>, failing: set<Step>, step: Step, k: nat)
    requires 0 < k < |steps| && steps[0] !in failing
    ensures Unblocked(steps, failing, step, k) <==> Unblocked(steps[1..], failing, step, k - 1)
  {
    if Unblocked(steps[1..], failing, step, k - 1) {
      forall j | 0 <= j <= k ensures steps[j] !in failing {
        if j > 0 { assert steps[j] == steps[1..][j - 1]; }
      }
    }
    if Unblocked(steps, failing, step, k) {
      forall j | 0 <= j <= k - 1 ensures steps[1..][j] !in failing {
        assert steps[1..][j] == steps[j + 1];
      }
    }
  }

  lemma {:induction false} UntilMeans(steps: seq<Step>, failing: set<Step>, step: Step)
    ensures step in Until(steps, failing) <==> exists k :: 0 <= k < |steps| && Unblocked(steps, failing, step, k)
  {
    if steps != [] {
      UntilMeans(steps[1..], failing, step);
      if steps[0] !in failing {
        forall k | 0 < k < |steps| ensures Unblocked(steps, failing, step, k) <==> Unblocked(steps[1..], failing, step, k - 1) {
          UnblockedNext(steps, failing, step, k);
        }
        if k :| 0 <= k < |steps| - 1 && Unblocked(steps[1..], failing, step, k) {
          assert Unblocked(steps, failing, step, k + 1);
        }
        if steps[0] == step { assert Unblocked(steps, failing, step, 0); }
      }
    }
  }

  /** The steps that run a script which keeps failing. */
  function StepsOf(scripts: set<string>): set<Step> {
    (set n | n in scripts :: Sync(n)) + if LOOPBACK in scripts then {SyncLoopback} else {}
  }

  /** No failing script stands before this one in the aggregate, nor is it one itself. */
  ghost predicate IsReached(next: Desired, scripts: set<string>, name: string) {
    Sync(name) in Until(AllScripts(next), StepsOf(scripts))
  }

  function RunAll(next: Desired, disk: Tree, live: Links, scripts: set<string>): Links {
    RunSteps(next, disk, live, Until(AllScripts(next), StepsOf(scripts)), {})
  }

  /** `heal_l3_drift`, the interface half: it looks at names only, and runs all scripts if one of
      the expected names is missing. */
  function Healed(next: Desired, disk: Tree, live: Links, scripts: set<string>): Links {
    if LinkNames(next) <= live.Keys then live else RunAll(next, disk, live, scripts)
  }

  lemma AllScriptsHas(next: Desired, name: string)
    ensures Sync(name) in AllScripts(next) <==> name in LinkNames(next)
    ensures Remove(name) !in AllScripts(next) && SyncLoopback !in AllScripts(next)
  {
    hide NamesOf, Syncs;
    SyncsOf(Sorted(NamesOf(next, Dummy)), name);
    SyncsOf(Sorted(NamesOf(next, WireGuard)), name);
  }

  lemma InPrefix(done: seq<Step>, steps: seq<Step>, step: Step)
    requires done <= steps && step in done
    ensures step in steps
  {
  }

  /** The scripts reached settle their links, and no other link is touched. */
  lemma RunAllAt(next: Desired, kinds: map<string, LinkKind>, disk: Tree, live: Links, scripts: set<string>, name: string)
    requires WellFormed(next, kinds) && DiskInStep(disk, next, LinkNames(next), kinds)
    ensures var out := RunAll(next, disk, live, scripts);
      if IsReached(next, scripts, name) then
        name in LinkNames(next) && name !in scripts && name in out && out[name].config == RunScript(next, disk, name)
      else SameLink(out, live, name)
  {
    var steps := Until(AllScripts(next), StepsOf(scripts));
    AllScriptsHas(next, name);
    UntilMeans(AllScripts(next), StepsOf(scripts), Sync(name));
    if Remove(name) in steps { InPrefix(steps, AllScripts(next), Remove(name)); }
    if SyncLoopback in steps { InPrefix(steps, AllScripts(next), SyncLoopback); }
    if IsReached(next, scripts, name) {
      InPrefix(steps, AllScripts(next), Sync(name));
      WantedScript(disk, next, kinds, name);
      assert Sync(name) !in StepsOf(scripts);
    }
    hide WellFormed, DiskInStep, AllScripts, Until, RunSteps, RunScript, Entries, ScriptPath, LinkNames;
    RunAt(next, disk, live, steps, {}, name);
  }

  /** A state holds when no link lingers and every wanted one is right. */
  lemma HoldsParts(next: Desired, kinds: map<string, LinkKind>, disk: Tree, live: Links)
    requires WellFormed(next, kinds) && DiskInStep(disk, next, LinkNames(next), kinds)
    ensures Holds(next, live) <==>
      !Lingering(next, live) && forall n :: n in LinkNames(next) ==> RightAt(next, disk, live, n)
    ensures Missing(next, live) ==> !Holds(next, live)
  {
    HoldsIffRight(next, kinds, disk, live);
    hide WellFormed, DiskInStep, Holds, RunScript, LinkNames;
    forall n | n !in LinkNames(next) ensures RightAt(next, disk, live, n) <==> n !in live {}
  }

  /** What a run of the scripts makes of every link. */
  lemma RunAllRight(next: Desired, kinds: map<string, LinkKind>, disk: Tree, live: Links, scripts: set<string>)
    requires WellFormed(next, kinds) && DiskInStep(disk, next, LinkNames(next), kinds)
    ensures var out := RunAll(next, disk, live, scripts);
      && (Lingering(next, out) <==> Lingering(next, live))
      && forall n ::
           && (IsReached(next, scripts, n) ==> n in LinkNames(next) && n !in scripts && RightAt(next, disk, out, n))
           && (n in LinkNames(next) && !IsReached(next, scripts, n) ==>
                 (RightAt(next, disk, out, n) <==> RightAt(next, disk, live, n)))
  {
    var out := RunAll(next, disk, live, scripts);
    hide WellFormed, DiskInStep, RunScript, RunAll, IsReached, LinkNames;
    forall n
      ensures IsReached(next, scripts, n) ==> n in LinkNames(next) && n !in scripts && RightAt(next, disk, out, n)
      ensures !IsReached(next, scripts, n) ==> (RightAt(next, disk, out, n) <==> RightAt(next, disk, live, n))
      ensures n !in LinkNames(next) ==> (n in out <==> n in live)
    {
      RunAllAt(next, kinds, disk, live, scripts, n);
    }
  }

  /** A heal leads to the links of the state exactly if they were right, or one was missing, none
      lingers, and every link that its run of the scripts does not reach was right. */
  lemma HealHoldsIff(next: Desired, kinds: map<string, LinkKind>, disk: Tree, live: Links, scripts: set<string>)
    requires WellFormed(next, kinds) && DiskInStep(disk, next, LinkNames(next), kinds)
    ensures Holds(next, Healed(next, disk, live, scripts)) <==>
      Holds(next, live) || (Missing(next, live) && !Lingering(next, live) &&
        forall n :: n in LinkNames(next) && !IsReached(next, scripts, n) ==> RightAt(next, disk, live, n))
  {
    var out := RunAll(next, disk, live, scripts);
    HealsIf(next, disk, live, scripts);
    hide *;
    HoldsParts(next, kinds, disk, live);
    HoldsParts(next, kinds, disk, out);
    RunAllRight(next, kinds, disk, live, scripts);
  }

  lemma HealsIf(next: Desired, disk: Tree, live: Links, scripts: set<string>)
    ensures Healed(next, disk, live, scripts) == if Missing(next, live) then RunAll(next, disk, live, scripts) else live
  {
    hide RunAll, LinkNames;
  }

  // ----- any sequence of repairs -----

  /** What may happen after a failed round while the desired state stays the same; a restart of the
      gateway runs all scripts, in a namespace that may be gone. */
  datatype Repair = Retry(again: Rebuilt, plan: seq<Action>) | Heal | Restart(emptied: bool)

  /** `scripts` keep failing all the time. */
  ghost function AfterRepair(m: Machine, next: Desired, scripts: set<string>, r: Repair): Machine {
    match r
    case Retry(again, plan) => AfterRound(m, next, again, plan, StepsOf(scripts))
    case Heal => m.(live := Healed(next, m.disk, m.live, scripts))
    case Restart(emptied) => m.(live := RunAll(next, m.disk, if emptied then map[] else m.live, scripts))
  }

  ghost function AfterRepairs(m: Machine, next: Desired, scripts: set<string>, run: seq<Repair>): Machine {
    if run == [] then m
    else AfterRepair(AfterRepairs(m, next, scripts, run[..|run| - 1]), next, scripts, run[|run| - 1])
  }

  ghost predicate Planned(run: seq<Repair>, next: Desired, disk: Tree) {
    forall r :: r in run && r.Retry? ==> IsPlan(r.plan, Files(next), disk)
  }

  ghost predicate Empties(r: Repair) {
    (r.Retry? && Emptied(r.again)) || (r.Restart? && r.emptied)
  }

  /** All scripts are run, whatever is there. */
  ghost predicate Sweeps(r: Repair) {
    (r.Retry? && BringsUp(r.again)) || r.Restart?
  }

  /** This settles the link; `missing` says whether a link was missing at first. */
  ghost predicate Settles(next: Desired, scripts: set<string>, missing: bool, r: Repair, name: string) {
    match r
    case Retry(again, _) => BringsUp(again) && name !in scripts
    case Heal => missing && IsReached(next, scripts, name)
    case Restart(_) => IsReached(next, scripts, name)
  }

  ghost predicate Loses(next: Desired, scripts: set<string>, r: Repair, name: string) {
    match r
    case Retry(again, _) => Emptied(again) && name in scripts
    case Heal => false
    case Restart(emptied) => emptied && !IsReached(next, scripts, name)
  }

  /** The link was right at first or settled later, and has not been lost since. */
  ghost predicate EndsRight(next: Desired, scripts: set<string>, right: bool, missing: bool, run: seq<Repair>, name: string) {
    exists k :: 0 <= k <= |run| && RightFrom(next, scripts, right, missing, run, name, k)
  }

  ghost predicate RightFrom(next: Desired, scripts: set<string>, right: bool, missing: bool, run: seq<Repair>, name: string, k: nat)
    requires k <= |run|
  {
    && (if k == 0 then right else Settles(next, scripts, missing, run[k - 1], name))
    && forall j :: k <= j < |run| ==> !Loses(next, scripts, run[j], name)
  }

  lemma RightFromNext(next: Desired, scripts: set<string>, right: bool, missing: bool, run: seq<Repair>, name: string, k: nat)
    requires run != [] && k <= |run|
    ensures var n := |run| - 1;
      RightFrom(next, scripts, right, missing, run, name, k) <==>
        if k == |run| then Settles(next, scripts, missing, run[n], name)
        else RightFrom(next, scripts, right, missing, run[..n], name, k) && !Loses(next, scripts, run[n], name)
  {
    hide Settles, Loses;
    var init := run[..|run| - 1];
    assert forall j :: 0 <= j < |init| ==> init[j] == run[j];
  }

  lemma EndsRightNext(next: Desired, scripts: set<string>, right: bool, missing: bool, run: seq<Repair>, name: string)
    requires run != []
    ensures var init, last := run[..|run| - 1], run[|run| - 1];
      EndsRight(next, scripts, right, missing, run, name) <==>
        Settles(next, scripts, missing, last, name) ||
        (EndsRight(next, scripts, right, missing, init, name) && !Loses(next, scripts, last, name))
  {
    var init, last := run[..|run| - 1], run[|run| - 1];
    hide Settles, Loses, RightFrom;
    forall k | 0 <= k <= |run|
      ensures RightFrom(next, scripts, right, missing, run, name, k) <==>
        if k == |run| then Settles(next, scripts, missing, last, name)
        else RightFrom(next, scripts, right, missing, init, name, k) && !Loses(next, scripts, last, name)
    {
      RightFromNext(next, scripts, right, missing, run, name, k);
    }
    if Settles(next, scripts, missing, last, name) {
      assert RightFrom(next, scripts, right, missing, run, name, |run|);
    }
    if EndsRight(next, scripts, right, missing, init, name) && !Loses(next, scripts, last, name) {
      var k :| 0 <= k <= |init| && RightFrom(next, scripts, right, missing, init, name, k);
      assert RightFrom(next, scripts, right, missing, run, name, k);
    }
  }

  /** Some repair of the run has run scripts. */
  ghost predicate Stirred(run: seq<Repair>, missing: bool) {
    exists r :: r in run && (Sweeps(r) || (r.Heal? && missing))
  }

  /** What a run of repairs keeps: as long as no scripts have run nothing has changed; once they have,
      all links they reach are right. */
  ghost predicate Tracked(m: Machine, next: Desired, scripts: set<string>, run: seq<Repair>, out: Machine) {
    && out.disk == m.disk
    && (Lingering(next, out.live) <==> Lingering(next, m.live) && forall r :: r in run ==> !Empties(r))
    && (!Stirred(run, Missing(next, m.live)) ==> out.live == m.live)
    && forall n :: n in LinkNames(next) ==> TrackedName(next, scripts, run, m.disk, m.live, out.live, n)
  }

  ghost predicate TrackedName(next: Desired, scripts: set<string>, run: seq<Repair>, disk: Tree, live: Links, out: Links, n: string) {
    && (RightAt(next, disk, out, n) <==> EndsRight(next, scripts, RightAt(next, disk, live, n), Missing(next, live), run, n))
    && (Stirred(run, Missing(next, live)) && IsReached(next, scripts, n) ==> RightAt(next, disk, out, n))
  }

  /** One repair for one link, from `live` to `out`. */
  ghost predicate RepairedName(next: Desired, scripts: set<string>, r: Repair, disk: Tree, live: Links, out: Links, n: string) {
    RightAt(next, disk, out, n) <==>
      Settles(next, scripts, Missing(next, live), r, n) || (RightAt(next, disk, live, n) && !Loses(next, scripts, r, n))
  }

  /** One bring-up with failing scripts, for one name. */
  lemma BringUpAt(next: Desired, kinds: map<string, LinkKind>, disk: Tree, live: Links, before: seq<Step>,
                  scripts: set<string>, name: string)
    requires WellFormed(next, kinds) && DiskInStep(disk, next, LinkNames(next), kinds)
    requires forall s :: s in before ==> s == Reload
    ensures var out := RunSteps(next, disk, live, FullBringUp(before, next), StepsOf(scripts));
      if name in LinkNames(next) && name !in scripts then name in out && out[name].config == RunScript(next, disk, name)
      else SameLink(out, live, name)
  {
    hide WellFormed, DiskInStep, FullBringUp, RunSteps, RunScript, Entries, ScriptPath, LinkNames, StepsOf, Synced;
    RebuildCovers(next, kinds, disk, live, before, name);
    SyncedUnless(FullBringUp(before, next), scripts, name);
    RunAt(next, disk, live, FullBringUp(before, next), StepsOf(scripts), name);
  }

  lemma SyncedUnless(steps: seq<Step>, scripts: set<string>, name: string)
    ensures Synced(steps, StepsOf(scripts), name) <==> Synced(steps, {}, name) && name !in scripts
  {
  }

  /** Bringing everything up settles what does not fail and touches nothing else. */
  lemma BringUpRight(m: Machine, next: Desired, kinds: map<string, LinkKind>, again: Rebuilt, plan: seq<Action>,
                     scripts: set<string>)
    requires Written(m.disk, next, kinds) && BringsUp(again)
    ensures var out := AfterRound(m, next, again, plan, StepsOf(scripts));
      && out.disk == m.disk && (Lingering(next, out.live) <==> Lingering(next, m.live) && !Emptied(again))
      && forall n :: n in LinkNames(next) ==>
           (RightAt(next, m.disk, out.live, n) <==>
              n !in scripts || (RightAt(next, m.disk, m.live, n) && !Emptied(again)))
  {
    var out := AfterRound(m, next, again, plan, StepsOf(scripts));
    hide *;
    var reload := BringUpPlan(next, again, plan);
    WrittenParts(m.disk, next, kinds);
    StartsAs(m, again);
    LinksOfRound(m, next, again, plan, StepsOf(scripts));
    forall n
      ensures if n in LinkNames(next) && n !in scripts then n in out.live && out.live[n].config == RunScript(next, m.disk, n)
              else SameLink(out.live, Start(m, again), n)
    {
      BringUpAt(next, kinds, m.disk, Start(m, again), reload, scripts, n);
    }
    SettledUnless(next, m.disk, m.live, out.live, Emptied(again), scripts);
  }

  lemma BringUpPlan(next: Desired, again: Rebuilt, plan: seq<Action>) returns (reload: seq<Step>)
    requires BringsUp(again)
    ensures Plan(next, again, plan) == FullBringUp(reload, next) && forall s :: s in reload ==> s == Reload
  {
    hide FullBringUp, BirdChanged;
    reload := if BirdChanged(plan) && !again.bird then [Reload] else [];
  }

  lemma WrittenParts(disk: Tree, next: Desired, kinds: map<string, LinkKind>)
    requires Written(disk, next, kinds)
    ensures WellFormed(next, kinds) && DiskInStep(disk, next, LinkNames(next), kinds) && Executed(Files(next), disk) == disk
  {
  }

  lemma SettledUnless(next: Desired, disk: Tree, live: Links, out: Links, emptied: bool, scripts: set<string>)
    requires forall n :: if n in LinkNames(next) && n !in scripts then n in out && out[n].config == RunScript(next, disk, n)
                         else SameLink(out, if emptied then map[] else live, n)
    ensures Lingering(next, out) <==> Lingering(next, live) && !emptied
    ensures forall n :: n in LinkNames(next) ==>
      (RightAt(next, disk, out, n) <==> n !in scripts || (RightAt(next, disk, live, n) && !emptied))
  {
    hide LinkNames, RunScript;
    forall n | n !in LinkNames(next) ensures n in out <==> n in live && !emptied {
      assert SameLink(out, if emptied then map[] else live, n);
    }
  }

  /** One repair, link by link. */
  lemma RepairAt(m: Machine, next: Desired, kinds: map<string, LinkKind>, scripts: set<string>, r: Repair)
    requires Written(m.disk, next, kinds) && (r.Retry? ==> IsPlan(r.plan, Files(next), m.disk))
    ensures var out := AfterRepair(m, next, scripts, r);
      && out.disk == m.disk && (Lingering(next, out.live) <==> Lingering(next, m.live) && !Empties(r))
      && (!Sweeps(r) && !(r.Heal? && Missing(next, m.live)) ==> out == m)
      && forall n :: n in LinkNames(next) ==> RepairedName(next, scripts, r, m.disk, m.live, out.live, n)
  {
    hide WellFormed, DiskInStep, Executed, LinkNames, IsReached, RunAll, IsPlan, AfterRound, Files, StepsOf, RunScript;
    match r
    case Retry(again, plan) =>
      if BringsUp(again) {
        BringUpRight(m, next, kinds, again, plan, scripts);
      } else {
        RetryChangesNothing(m, next, kinds, again, plan, StepsOf(scripts));
      }
    case Heal =>
      RunAllRight(next, kinds, m.disk, m.live, scripts);
    case Restart(emptied) =>
      RunAllRight(next, kinds, m.disk, if emptied then map[] else m.live, scripts);
  }

  lemma TrackedNext(m: Machine, next: Desired, kinds: map<string, LinkKind>, scripts: set<string>, run: seq<Repair>)
    requires run != [] && Written(m.disk, next, kinds) && Planned(run, next, m.disk)
    requires var init := run[..|run| - 1]; Tracked(m, next, scripts, init, AfterRepairs(m, next, scripts, init))
    ensures Tracked(m, next, scripts, run, AfterRepairs(m, next, scripts, run))
  {
    hide Written, AfterRepairs, AfterRepair, RightAt, Lingering, EndsRight, Missing, IsReached, LinkNames, Stirred, Empties,
         Sweeps, TrackedName, RepairedName, IsPlan, Files;
    var init, r := run[..|run| - 1], run[|run| - 1];
    var mid, out := AfterRepairs(m, next, scripts, init), AfterRepairs(m, next, scripts, run);
    var missing := Missing(next, m.live);
    assert run == init + [r];
    assert r in run;
    LastRepair(m, next, scripts, run);
    RepairAt(mid, next, kinds, scripts, r);
    StirredNext(init, r, missing);
    EmptiesNext(init, r);
    forall n | n in LinkNames(next) ensures TrackedName(next, scripts, run, m.disk, m.live, out.live, n) {
      TrackedAt(next, scripts, run, n, m.disk, m.live, mid.live, out.live);
    }
  }

  lemma LastRepair(m: Machine, next: Desired, scripts: set<string>, run: seq<Repair>)
    requires run != []
    ensures AfterRepairs(m, next, scripts, run)
         == AfterRepair(AfterRepairs(m, next, scripts, run[..|run| - 1]), next, scripts, run[|run| - 1])
  {
  }

  lemma TrackedAt(next: Desired, scripts: set<string>, run: seq<Repair>, n: string, disk: Tree, live: Links, mid: Links, out: Links)
    requires run != []
    requires var init, r := run[..|run| - 1], run[|run| - 1];
      && TrackedName(next, scripts, init, disk, live, mid, n) && RepairedName(next, scripts, r, disk, mid, out, n)
      && (!Stirred(init, Missing(next, live)) ==> Missing(next, mid) == Missing(next, live))
    ensures TrackedName(next, scripts, run, disk, live, out, n)
  {
    hide RightAt, Missing, IsReached, Stirred, Sweeps, Settles, Loses, EndsRight;
    var init, r := run[..|run| - 1], run[|run| - 1];
    var missing, now, right := Missing(next, live), Missing(next, mid), RightAt(next, disk, live, n);
    assert run == init + [r];
    StirredNext(init, r, missing);
    ReachedIsWanted(next, scripts);
    EndsRightNext(next, scripts, right, missing, run, n);
    ReachedIsNotLost(next, scripts, now, r, n);
    UnreachedBy(next, scripts, missing, now, r, n);
    NameNext(RightAt(next, disk, mid, n), RightAt(next, disk, out, n),
             EndsRight(next, scripts, right, missing, init, n), EndsRight(next, scripts, right, missing, run, n),
             Settles(next, scripts, missing, r, n), Settles(next, scripts, now, r, n), Loses(next, scripts, r, n),
             IsReached(next, scripts, n), missing, now, Stirred(init, missing), Stirred(run, missing), Sweeps(r), r.Heal?);
  }

  /** The case distinction for one name, where `mid` and `out` say whether it is right. */
  lemma NameNext(mid: bool, out: bool, endsInit: bool, endsRun: bool, settles: bool, settlesNow: bool, loses: bool,
                 reached: bool, missing: bool, now: bool, stirredInit: bool, stirredRun: bool, sweeps: bool, heals: bool)
    requires (mid <==> endsInit) && (out <==> settlesNow || (mid && !loses)) && (endsRun <==> settles || (endsInit && !loses))
    requires (stirredInit && reached ==> mid) && (!stirredInit ==> missing == now)
    requires (stirredRun <==> stirredInit || sweeps || (heals && missing)) && (reached ==> !loses)
    requires reached && (sweeps || (heals && now)) ==> settlesNow
    requires !reached || !heals || missing == now ==> (settles <==> settlesNow)
    ensures (out <==> endsRun) && (stirredRun && reached ==> out)
  {
  }

  /** A link that the scripts reach is not lost, and settled wherever scripts run. */
  lemma ReachedIsNotLost(next: Desired, scripts: set<string>, missing: bool, r: Repair, name: string)
    requires IsReached(next, scripts, name) ==> name !in scripts
    ensures IsReached(next, scripts, name) ==> !Loses(next, scripts, r, name)
    ensures IsReached(next, scripts, name) && (Sweeps(r) || (r.Heal? && missing)) ==> Settles(next, scripts, missing, r, name)
  {
    hide IsReached;
  }

  /** Whether a link is missing matters only to those reached by a heal. */
  lemma UnreachedBy(next: Desired, scripts: set<string>, missing: bool, now: bool, r: Repair, name: string)
    ensures !IsReached(next, scripts, name) || !r.Heal? || missing == now ==>
      (Settles(next, scripts, missing, r, name) <==> Settles(next, scripts, now, r, name))
  {
    hide IsReached;
  }

  lemma EmptiesNext(init: seq<Repair>, r: Repair)
    ensures (forall x :: x in init + [r] ==> !Empties(x)) <==> (forall x :: x in init ==> !Empties(x)) && !Empties(r)
  {
    hide Empties;
    assert forall x :: x in init + [r] <==> x in init || x == r;
  }

  lemma StirredNext(init: seq<Repair>, r: Repair, missing: bool)
    ensures Stirred(init + [r], missing) <==> Stirred(init, missing) || Sweeps(r) || (r.Heal? && missing)
  {
    hide Sweeps;
    assert forall x :: x in init + [r] <==> x in init || x == r;
  }

  lemma ReachedIsWanted(next: Desired, scripts: set<string>)
    ensures forall n :: IsReached(next, scripts, n) ==> n in LinkNames(next) && n !in scripts
  {
    forall n | IsReached(next, scripts, n) ensures n in LinkNames(next) && n !in scripts {
      AllScriptsHas(next, n);
      UntilMeans(AllScripts(next), StepsOf(scripts), Sync(n));
      assert Sync(n) !in StepsOf(scripts);
    }
  }

  lemma {:induction false} RunIsTracked(m: Machine, next: Desired, kinds: map<string, LinkKind>, scripts: set<string>, run: seq<Repair>)
    requires Written(m.disk, next, kinds) && Planned(run, next, m.disk)
    ensures Tracked(m, next, scripts, run, AfterRepairs(m, next, scripts, run))
  {
    hide Written;
    if run == [] {
      hide RightAt, Lingering, Missing, LinkNames;
      forall right, missing, n ensures EndsRight(next, scripts, right, missing, [], n) <==> right {
        assert RightFrom(next, scripts, right, missing, [], n, 0) <==> right;
      }
    } else {
      var init := run[..|run| - 1];
      assert forall x :: x in init ==> x in run;
      RunIsTracked(m, next, kinds, scripts, init);
      hide Tracked, AfterRepairs;
      TrackedNext(m, next, kinds, scripts, run);
    }
  }

  /** Over any sequence of retries, heals and restarts of the gateway, with any scripts failing all the
      time, the links end up right exactly if no link lingers, or the namespace has gone, and each wanted
      link was right or has been settled, and was not lost afterwards. */
  lemma RepairedIff(m: Machine, next: Desired, kinds: map<string, LinkKind>, scripts: set<string>, run: seq<Repair>)
    requires Written(m.disk, next, kinds) && Planned(run, next, m.disk)
    ensures Holds(next, AfterRepairs(m, next, scripts, run).live) <==>
      && (Lingering(next, m.live) ==> exists r :: r in run && Empties(r))
      && forall n :: n in LinkNames(next) ==>
           EndsRight(next, scripts, RightAt(next, m.disk, m.live, n), Missing(next, m.live), run, n)
  {
    RunIsTracked(m, next, kinds, scripts, run);
    hide WellFormed, DiskInStep, Executed, Planned, AfterRepairs, RightAt, EndsRight, Missing, LinkNames, Holds, Empties, Stirred, Lingering;
    HoldsParts(next, kinds, m.disk, AfterRepairs(m, next, scripts, run).live);
  }

  // ----- what no retry and no heal repairs -----

  /** Neither a hot retry nor a heal ever makes the state hold: it takes a run of all scripts. */
  ghost predicate NeedsSweep(m: Machine, next: Desired) {
    forall scripts, run :: Planned(run, next, m.disk) && (forall r :: r in run ==> !Sweeps(r)) ==>
      !Holds(next, AfterRepairs(m, next, scripts, run).live)
  }

  /** Nothing at all does while the namespace survives. */
  ghost predicate NeedsEmptying(m: Machine, next: Desired) {
    forall scripts, run :: Planned(run, next, m.disk) && (forall r :: r in run ==> !Empties(r)) ==>
      !Holds(next, AfterRepairs(m, next, scripts, run).live)
  }

  lemma StaleNeedsSweep(m: Machine, next: Desired, kinds: map<string, LinkKind>)
    requires Written(m.disk, next, kinds) && !Holds(next, m.live) && !Missing(next, m.live)
    ensures NeedsSweep(m, next)
  {
    hide Written, Holds, Planned, AfterRepairs, Missing, Lingering, Sweeps, Empties, RightAt, EndsRight, LinkNames;
    forall scripts, run | Planned(run, next, m.disk) && (forall r :: r in run ==> !Sweeps(r))
      ensures !Holds(next, AfterRepairs(m, next, scripts, run).live)
    {
      RunIsTracked(m, next, kinds, scripts, run);
    }
  }

  lemma LingeringNeedsEmptying(m: Machine, next: Desired, kinds: map<string, LinkKind>)
    requires Written(m.disk, next, kinds) && Lingering(next, m.live)
    ensures NeedsEmptying(m, next)
  {
    hide Written, Holds, Planned, AfterRepairs, Missing, Lingering, Sweeps, Empties, RightAt, EndsRight, LinkNames;
    forall scripts, run | Planned(run, next, m.disk) && (forall r :: r in run ==> !Empties(r))
      ensures !Holds(next, AfterRepairs(m, next, scripts, run).live)
    {
      RepairedIff(m, next, kinds, scripts, run);
    }
  }

  /** A script that fails in the aggregate blocks every script after it: the heal never brings the link
      of such a script back. */
  lemma BlockedStaysMissing(m: Machine, next: Desired, kinds: map<string, LinkKind>, scripts: set<string>, run: seq<Repair>, name: string)
    requires Written(m.disk, next, kinds) && Planned(run, next, m.disk)
    requires name in LinkNames(next) && name !in m.live && !IsReached(next, scripts, name)
    requires forall r :: r in run ==> !(r.Retry? && BringsUp(r.again))
    ensures !Holds(next, AfterRepairs(m, next, scripts, run).live)
  {
    assert !RightAt(next, m.disk, m.live, name);
    hide *;
    RepairedIff(m, next, kinds, scripts, run);
    NeverSettled(next, scripts, Missing(next, m.live), run, name);
  }

  lemma NeverSettled(next: Desired, scripts: set<string>, missing: bool, run: seq<Repair>, name: string)
    requires !IsReached(next, scripts, name) && forall r :: r in run ==> !(r.Retry? && BringsUp(r.again))
    ensures !EndsRight(next, scripts, false, missing, run, name)
  {
    hide IsReached, BringsUp, Loses;
    forall k | 0 <= k <= |run| ensures !RightFrom(next, scripts, false, missing, run, name, k) {
      if k > 0 { assert run[k - 1] in run; }
    }
  }

  // ----- concrete rounds -----

  /** A live link that is wanted, or whose removal fails, outlives a hot round; with its configuration,
      if it is not wanted or its sync fails. */
  lemma KeptLink(m: Machine, prev: Desired, next: Desired, kinds: map<string, LinkKind>, rebuilt: Rebuilt,
                 plan: seq<Action>, failing: set<Step>, name: string)
    requires InStep(m, prev, kinds) && WellFormed(next, kinds) && IsPlan(plan, Files(next), m.disk)
    requires !BringsUp(rebuilt) && name in m.live && (name in LinkNames(next) || Remove(name) in failing)
    ensures var failed := AfterRound(m, next, rebuilt, plan, failing);
      && name in failed.live
      && (name != LOOPBACK && (name in LinkNames(next) ==> Sync(name) in failing) ==> failed.live[name] == m.live[name])
  {
    hide *;
    var disk := Executed(Files(next), m.disk);
    HotStart(m, rebuilt);
    LinksOfRound(m, next, rebuilt, plan, failing);
    RoundCovers(m, prev, next, kinds, rebuilt, plan, name);
    PlannedFor(next, rebuilt, plan, name);
    KeptBy(next, disk, m.live, Plan(next, rebuilt, plan), failing, name);
  }

  lemma KeptBy(next: Desired, disk: Tree, live: Links, steps: seq<Step>, failing: set<Step>, name: string)
    requires Covered(next, disk, live, steps, name) && name in live
    requires (Sync(name) in steps ==> name in LinkNames(next)) && (name in LinkNames(next) || Remove(name) in failing)
    ensures var out := RunSteps(next, disk, live, steps, failing);
      && name in out
      && (name != LOOPBACK && (name in LinkNames(next) ==> Sync(name) in failing) ==> out[name] == live[name])
  {
    hide RunSteps, LinkNames, RunScript, Entries, ScriptPath;
    RunAt(next, disk, live, steps, failing, name);
  }

  /** A live tunnel whose new conf fails to load keeps the old one whatever retries and heals follow, if
      no other link was missing: no file changes any more, and the healer looks at names. */
  lemma StaleStays(m: Machine, prev: Desired, next: Desired, kinds: map<string, LinkKind>, plan: seq<Action>, i: Interface)
    requires InStep(m, prev, kinds) && WellFormed(next, kinds) && IsPlan(plan, Files(next), m.disk)
    requires i in next.interfaces && i.kind.WireGuard? && LinkNames(next) <= m.live.Keys && i.name != LOOPBACK
    requires m.live[i.name].config != ConfigOf(i)
    ensures var failed := AfterRound(m, next, HOT, plan, {Sync(i.name)});
      i.name in failed.live && failed.live[i.name] == m.live[i.name] && NeedsSweep(failed, next)
  {
    var failed := AfterRound(m, next, HOT, plan, {Sync(i.name)});
    assert i.name in LinkNames(next);
    hide *;
    LinksOfRound(m, next, HOT, plan, {Sync(i.name)});
    HotBringsNothingUp();
    KeptLink(m, prev, next, kinds, HOT, plan, {Sync(i.name)}, i.name);
    forall n | n in LinkNames(next) ensures n in failed.live {
      KeptLink(m, prev, next, kinds, HOT, plan, {Sync(i.name)}, n);
    }
    RoundWrites(m, prev, next, kinds);
    NoneMissing(next, failed.live);
    OtherConfig(next, failed.live, i);
    StaleNeedsSweep(failed, next, kinds);
  }

  lemma NoneMissing(next: Desired, live: Links)
    requires forall n :: n in LinkNames(next) ==> n in live
    ensures !Missing(next, live)
  {
    hide LinkNames;
  }

  lemma OtherConfig(next: Desired, live: Links, i: Interface)
    requires i in next.interfaces && i.kind.WireGuard? && i.name in live && live[i.name].config != ConfigOf(i)
    ensures !Holds(next, live)
  {
    hide LinkNames;
  }

  /** A link that has left the state and whose removal fails stays up until its namespace goes. */
  lemma RemovalStays(m: Machine, prev: Desired, next: Desired, kinds: map<string, LinkKind>, plan: seq<Action>, name: string)
    requires InStep(m, prev, kinds) && WellFormed(next, kinds) && IsPlan(plan, Files(next), m.disk)
    requires name in m.live && name !in LinkNames(next)
    ensures var failed := AfterRound(m, next, HOT, plan, {Remove(name)});
      name in failed.live && NeedsEmptying(failed, next)
  {
    var failed := AfterRound(m, next, HOT, plan, {Remove(name)});
    hide *;
    LinksOfRound(m, next, HOT, plan, {Remove(name)});
    HotBringsNothingUp();
    KeptLink(m, prev, next, kinds, HOT, plan, {Remove(name)}, name);
    RoundWrites(m, prev, next, kinds);
    assert Lingering(next, failed.live) by { LingersThere(next, failed.live, name); }
    LingeringNeedsEmptying(failed, next, kinds);
  }

  lemma LingersThere(next: Desired, live: Links, name: string)
    requires name in live && name !in LinkNames(next)
    ensures Lingering(next, live)
  {
    hide LinkNames;
  }

  lemma NewConf(next: Desired, i: Interface)
    requires next == Node(Some("2")) && i == Tunnel(TUNNEL, "2")
    ensures WellFormed(next, KINDS) && i in next.interfaces && LinkNames(next) <= Before().live.Keys && i.name != LOOPBACK
    ensures i.name in Before().live && Before().live[i.name].config != ConfigOf(i)
  {
    hide Before, Node, WellFormed, PlainName;
    BeforeHasLinks();
    NamesDiffer();
    assert "1"[0] != "2"[0];
    NodeIsWellFormed(Some("2"));
  }

  /** The tunnel's conf changes from "1" to "2" and its sync fails. */
  lemma StaleUpdateStays() returns (next: Desired, plan: seq<Action>, failed: Machine)
    ensures InStep(Before(), Node(Some("1")), KINDS) && next == Node(Some("2")) && WellFormed(next, KINDS)
    ensures IsPlan(plan, Files(next), Before().disk)
    ensures failed == AfterRound(Before(), next, HOT, plan, {Sync(TUNNEL)})
    ensures TUNNEL in failed.live && failed.live[TUNNEL].config == WgConfig("1", "") && NeedsSweep(failed, next)
  {
    next := Node(Some("2"));
    var i := Tunnel(TUNNEL, "2");
    assert i.name == TUNNEL && i.kind.WireGuard?;
    hide *;
    FirstIsRun();
    BeforeHasLinks();
    NewConf(next, i);
    plan := SomePlan(Files(next), Before().disk);
    StaleStays(Before(), Node(Some("1")), next, KINDS, plan, i);
    failed := AfterRound(Before(), next, HOT, plan, {Sync(TUNNEL)});
  }

  /** The round after it is a success, and the old conf is still there. */
  lemma SuccessWithStaleLink() returns (next: Desired, failed: Machine, retry: seq<Action>)
    ensures next == Node(Some("2")) && WellFormed(next, KINDS) && IsPlan(retry, Files(next), failed.disk)
    ensures exists plan :: IsPlan(plan, Files(next), Before().disk) && failed == AfterRound(Before(), next, HOT, plan, {Sync(TUNNEL)})
    ensures RoundOk(failed, next, HOT, retry, {}) && AfterRound(failed, next, HOT, retry, {}) == failed
    ensures TUNNEL in failed.live && failed.live[TUNNEL].config == WgConfig("1", "") && !Holds(next, failed.live)
  {
    hide *;
    var plan;
    next, plan, failed := StaleUpdateStays();
    retry := SomePlan(Files(next), failed.disk);
    FirstIsRun();
    RoundWrites(Before(), Node(Some("1")), next, KINDS);
    LinksOfRound(Before(), next, HOT, plan, {Sync(TUNNEL)});
    HotBringsNothingUp();
    RetryChangesNothing(failed, next, KINDS, HOT, retry, {});
    NewConfIs(next);
    OtherConfig(next, failed.live, Tunnel(TUNNEL, "2"));
  }

  lemma NewConfIs(next: Desired)
    requires next == Node(Some("2"))
    ensures Tunnel(TUNNEL, "2") in next.interfaces && Tunnel(TUNNEL, "2").kind.WireGuard? && Tunnel(TUNNEL, "2").name == TUNNEL
    ensures ConfigOf(Tunnel(TUNNEL, "2")) != WgConfig("1", "")
  {
    hide WellFormed, LinkNames;
    NodeIsWellFormed(Some("2"));
    assert "1"[0] != "2"[0];
  }

  lemma SortedSingle(name: string)
    ensures Sorted({name}) == [name]
  {
    var r := Sorted({name});
    assert r[0] in r;
  }

  /** A loopback script that fails keeps the tunnel's script from being run. */
  lemma FailingLoopbackBlocks()
    ensures !IsReached(Node(Some("1")), {LOOPBACK}, TUNNEL) && TUNNEL in LinkNames(Node(Some("1")))
  {
    hide *;
    NodeIsWellFormed(Some("1"));
    LoopbackFirst(Node(Some("1")));
    LoopbackFails();
    FirstBlocksAll(Node(Some("1")), {LOOPBACK}, TUNNEL);
  }

  lemma FirstBlocksAll(next: Desired, scripts: set<string>, name: string)
    requires AllScripts(next) != [] && AllScripts(next)[0] in StepsOf(scripts)
    ensures !IsReached(next, scripts, name)
  {
    hide AllScripts, StepsOf;
  }

  lemma LoopbackFails()
    ensures Sync(LOOPBACK) in StepsOf({LOOPBACK})
  {
  }

  lemma LoopbackFirst(state: Desired)
    requires state == Node(Some("1"))
    ensures AllScripts(state) != [] && AllScripts(state)[0] == Sync(LOOPBACK)
  {
    var lo := Interface(LOOPBACK, Dummy, "", "");
    assert state.interfaces == [lo] + [Tunnel(TUNNEL, "1")] && state.interfaces[0] == lo;
    assert NamesOf(state, Dummy) == {LOOPBACK};
    SortedSingle(LOOPBACK);
    assert Syncs([LOOPBACK])[0] == Sync(LOOPBACK);
  }

  /** The tunnel leaves the state and its removal fails. */
  lemma FailedRemovalStays() returns (next: Desired, plan: seq<Action>, failed: Machine)
    ensures InStep(Before(), Node(Some("1")), KINDS) && next == Node(None) && WellFormed(next, KINDS)
    ensures IsPlan(plan, Files(next), Before().disk)
    ensures failed == AfterRound(Before(), next, HOT, plan, {Remove(TUNNEL)})
    ensures TUNNEL in failed.live && TUNNEL !in LinkNames(next) && NeedsEmptying(failed, next)
  {
    hide *;
    next := Node(None);
    NodeIsWellFormed(None);
    NamesDiffer();
    FirstIsRun();
    BeforeHasLinks();
    plan := SomePlan(Files(next), Before().disk);
    RemovalStays(Before(), Node(Some("1")), next, KINDS, plan, TUNNEL);
    failed := AfterRound(Before(), next, HOT, plan, {Remove(TUNNEL)});
  }

  // ----- a loopback that is left over -----

  const START := "scripts/start.sh"

  /** A decommissioned state: no interface, only a start script. */
  function Decommissioned(): Desired {
    Desired([], [Rendered(START, "")], [])
  }

  lemma OtherPrefix(path: string, prefix: string, suffix: string, k: nat)
    requires k < |path| && k < |prefix| && path[k] != prefix[k]
    ensures Between(path, prefix, suffix).None?
  {
  }

  lemma StartIsNoInterfaceFile()
    ensures ConfName(START).None? && ScriptName(START).None? && TopSegment(START) == SCRIPTS
  {
    hide Between, TopSegment;
    OtherPrefix(START, CONF_PREFIX, CONF_SUFFIX, 0);
    OtherPrefix(START, SCRIPT_PREFIX, SCRIPT_SUFFIX, 8);
    TopSegmentIs(SCRIPTS, "/start.sh");
    assert START == SCRIPTS + "/start.sh";
  }

  lemma OneFile(state: Desired, f: Rendered)
    requires state == Desired([], [f], []) && '\r' !in f.content
    ensures Files(state) == [f] && Clean(Files(state)) && LinkNames(state) == {}
  {
    assert LinkNames(state) == {};
    assert [f] + [] + [] == [f];
    assert Files(state) == SortBy([f], PathBefore) by { NoInterfaces(); }
    hide *;
    SortedOne(f);
    CleanOne(f);
  }

  lemma NoInterfaces()
    ensures SortBy<Interface>([], NameBefore) == [] && Render([]) == []
  {
  }

  lemma CleanOne(f: Rendered)
    requires '\r' !in f.content
    ensures Clean([f])
  {
    assert Contents([]) == map[] && Contents([f]) == map[f.path := f.content];
  }

  lemma SortedOne(f: Rendered)
    ensures SortBy([f], PathBefore) == [f]
  {
    hide Less;
    assert [f][..0] == [] && SortBy([], PathBefore) == [];
  }

  lemma OneFileIsWellFormed(state: Desired, f: Rendered, kinds: map<string, LinkKind>)
    requires state == Desired([], [f], []) && '\r' !in f.content && (LOOPBACK in kinds ==> kinds[LOOPBACK] == Dummy)
    requires ConfName(f.path).None? && ScriptName(f.path).None? && TopSegment(f.path) == SCRIPTS
    ensures WellFormed(state, kinds)
  {
    OneFile(state, f);
    hide Files, Clean, TopSegment, ConfName, ScriptName;
    assert f in Files(state);
  }

  lemma DecommissionedIsWellFormed()
    ensures WellFormed(Decommissioned(), KINDS) && LinkNames(Decommissioned()) == {} && Decommissioned().interfaces == []
  {
    hide ConfName, ScriptName, TopSegment, WellFormed, Files, Clean;
    StartIsNoInterfaceFile();
    OneFile(Decommissioned(), Rendered(START, ""));
    OneFileIsWellFormed(Decommissioned(), Rendered(START, ""), KINDS);
  }

  /** Decommissioning a node without a rebuild leaves its loopback up. */
  lemma LoopbackIsLeftOver() returns (next: Desired, plan: seq<Action>, after: Machine)
    ensures InStep(Before(), Node(Some("1")), KINDS) && next == Decommissioned() && WellFormed(next, KINDS)
    ensures IsPlan(plan, Files(next), Before().disk) && after == AfterRound(Before(), next, HOT, plan, {})
    ensures LinkNames(next) == {} && after.live.Keys == {LOOPBACK}
  {
    next := Decommissioned();
    hide *;
    DecommissionedIsWellFormed();
    FirstIsRun();
    BeforeHasLinks();
    plan := SomePlan(Files(next), Before().disk);
    after := AfterRound(Before(), next, HOT, plan, {});
    OnlyLoopback(Before(), next, plan);
  }

  /** And decommissioning by a rebuild is reported as a failure, for the loopback script is gone. */
  lemma DecommissionByRebuildFails() returns (next: Desired, plan: seq<Action>)
    ensures next == Decommissioned() && WellFormed(next, KINDS) && IsPlan(plan, Files(next), Before().disk)
    ensures InStep(Before(), Node(Some("1")), KINDS) && !RoundOk(Before(), next, REBUILD, plan, {})
  {
    next := Decommissioned();
    assert BringsUp(REBUILD);
    hide *;
    DecommissionedIsWellFormed();
    FirstIsRun();
    plan := SomePlan(Files(next), Before().disk);
    RoundOkIff(Before(), Node(Some("1")), next, KINDS, REBUILD, plan);
  }

  lemma OnlyLoopback(m: Machine, next: Desired, plan: seq<Action>)
    requires InStep(m, Node(Some("1")), KINDS) && m.live.Keys == {LOOPBACK, TUNNEL}
    requires WellFormed(next, KINDS) && LinkNames(next) == {} && IsPlan(plan, Files(next), m.disk)
    ensures AfterRound(m, next, HOT, plan, {}).live.Keys == {LOOPBACK}
  {
    hide *;
    var prev, out := Node(Some("1")), AfterRound(m, next, HOT, plan, {}).live;
    NodeIsWellFormed(Some("1"));
    NamesDiffer();
    HotBringsNothingUp();
    RemovalIff(m, prev, next, KINDS, HOT, plan, LOOPBACK);
    RemovalIff(m, prev, next, KINDS, HOT, plan, TUNNEL);
    forall n ensures n in out <==> n in m.live && Remove(n) !in Plan(next, HOT, plan) {
      RestStays(m, prev, next, KINDS, HOT, plan, n);
    }
  }

  lemma RestStays(m: Machine, prev: Desired, next: Desired, kinds: map<string, LinkKind>, rebuilt: Rebuilt,
                  plan: seq<Action>, name: string)
    requires InStep(m, prev, kinds) && WellFormed(next, kinds) && IsPlan(plan, Files(next), m.disk)
    requires name !in LinkNames(next) && !BringsUp(rebuilt)
    ensures name in AfterRound(m, next, rebuilt, plan, {}).live <==>
      name in m.live && Remove(name) !in Plan(next, rebuilt, plan)
  {
    hide *;
    HotStart(m, rebuilt);
    LinksOfRound(m, next, rebuilt, plan, {});
    RoundCovers(m, prev, next, kinds, rebuilt, plan, name);
    RestBy(next, Executed(Files(next), m.disk), m.live, Plan(next, rebuilt, plan), name);
  }

  lemma RestBy(next: Desired, disk: Tree, live: Links, steps: seq<Step>, name: string)
    requires Covered(next, disk, live, steps, name) && name !in LinkNames(next)
    ensures name in RunSteps(next, disk, live, steps, {}) <==> name in live && Remove(name) !in steps
  {
    hide RunSteps, LinkNames, RunScript, Entries, ScriptPath;
    RunAt(next, disk, live, steps, {}, name);
  }
}
