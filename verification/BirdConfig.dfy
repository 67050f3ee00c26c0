/** What BIRD has loaded. The daemon reads the files under `bird/` when it starts and when it is told
    to reconfigure; in between it runs with what it read, whatever happens to the files. */
module BirdConfig {
  import opened Wrappers
  import opened Order
  import opened FilePlan
  import opened Convergence
  import Repair
  import Samples

  /** The directory that is mounted into the router. */
  function BirdFiles(tree: Tree): (r: Tree)
    ensures forall p :: p in r <==> p in tree && "bird/" <= p
    ensures forall p :: p in r ==> r[p] == tree[p]
  {
    map p | p in tree && "bird/" <= p :: tree[p]
  }

  datatype Router = Router(disk: Tree, loaded: Tree)

  ghost predicate UpToDate(r: Router) {
    r.loaded == BirdFiles(r.disk)
  }

  /** `birdc configure` reads the files anew. A step in `failing` exits non-zero, which leaves the old
      configuration in force. */
  function RunLoads(disk: Tree, loaded: Tree, steps: seq<Step>, failing: set<Step>): Tree {
    if steps == [] then loaded
    else
      var before := RunLoads(disk, loaded, steps[..|steps| - 1], failing);
      if steps[|steps| - 1] == Reload && Reload !in failing then BirdFiles(disk) else before
  }

  /** The files are written, a router that is rebuilt starts over them, and the plan runs. */
  ghost function AfterRound(r: Router, next: Desired, rebuilt: Rebuilt, plan: seq<Action>, failing: set<Step>): Router {
    var disk := Executed(Files(next), r.disk);
    Router(disk, RunLoads(disk, if rebuilt.bird then BirdFiles(disk) else r.loaded, Plan(next, rebuilt, plan), failing))
  }

  lemma {:induction false} RunLoadsIs(disk: Tree, loaded: Tree, steps: seq<Step>, failing: set<Step>)
    ensures RunLoads(disk, loaded, steps, failing) == if Reload in steps && Reload !in failing then BirdFiles(disk) else loaded
  {
    if steps != [] {
      assert steps == steps[..|steps| - 1] + [steps[|steps| - 1]];
      RunLoadsIs(disk, loaded, steps[..|steps| - 1], failing);
    }
  }

  lemma PlanReloads(next: Desired, rebuilt: Rebuilt, plan: seq<Action>)
    ensures Reload in Plan(next, rebuilt, plan) <==> TouchesBird(plan) && !rebuilt.bird
  {
    BirdChangedIff(plan);
    hide TouchesBird, BirdChanged, FullBringUp, HotSteps;
    var reload := if BirdChanged(plan) && !rebuilt.bird then [Reload] else [];
    BroughtUpInPhases(reload, next);
    HotInPhases(reload, next, plan);
    hide InPhases;
  }

  /** The round makes BIRD read its files: the container is new, or a file changed and the reload works. */
  ghost predicate Loads(rebuilt: Rebuilt, plan: seq<Action>, failing: set<Step>) {
    rebuilt.bird || (TouchesBird(plan) && Reload !in failing)
  }

  lemma LoadedAfterRound(r: Router, next: Desired, rebuilt: Rebuilt, plan: seq<Action>, failing: set<Step>)
    ensures var out := AfterRound(r, next, rebuilt, plan, failing);
      && out.disk == Executed(Files(next), r.disk)
      && out.loaded == if Loads(rebuilt, plan, failing) then BirdFiles(out.disk) else r.loaded
  {
    var disk := Executed(Files(next), r.disk);
    PlanReloads(next, rebuilt, plan);
    RunLoadsIs(disk, if rebuilt.bird then BirdFiles(disk) else r.loaded, Plan(next, rebuilt, plan), failing);
    hide Plan, Executed, Files, TouchesBird, RunLoads;
  }

  // ----- the plan sees every change under `bird/` -----

  lemma ChangedAt(plan: seq<Action>, files: seq<Rendered>, tree: Tree, p: string)
    requires IsPlan(plan, files, tree) && Clean(files)
    ensures var out := Executed(files, tree);
      Writes(plan, p) || Action(Delete, p) in plan <==>
        !((p in out <==> p in tree) && (p in out && p in tree ==> out[p] == tree[p]))
  {
    hide IsPlan, ReadText, Writes, Clean;
    PlanWrites(plan, files, tree, p);
    DeletesIff(plan, files, tree, p);
    WritesIff(plan, files, tree, p);
    if p in Paths(files) {
      LastIsClean(files, p);
      if p in tree { ReadTextIsIdentity(Contents(files)[p]); }
    }
  }

  lemma LastIsClean(files: seq<Rendered>, p: string)
    requires Clean(files) && p in Paths(files)
    ensures '\r' !in Contents(files)[p]
  {
    LastRendering(files, p);
  }

  lemma TouchIff(plan: seq<Action>, files: seq<Rendered>, tree: Tree)
    requires IsPlan(plan, files, tree) && Clean(files)
    ensures TouchesBird(plan) <==> BirdFiles(Executed(files, tree)) != BirdFiles(tree)
  {
    hide IsPlan, Executed, Clean;
    var out := Executed(files, tree);
    forall p: string ensures Writes(plan, p) || Action(Delete, p) in plan <==>
        !((p in out <==> p in tree) && (p in out && p in tree ==> out[p] == tree[p]))
    {
      ChangedAt(plan, files, tree, p);
    }
    TouchedPath(plan);
    var a, b := BirdFiles(out), BirdFiles(tree);
    if a == b {
      forall p | "bird/" <= p ensures (p in out <==> p in tree) && (p in out && p in tree ==> out[p] == tree[p]) {
        assert p in a <==> p in out;
        assert p in b <==> p in tree;
      }
    }
    if forall p :: "bird/" <= p ==> !Writes(plan, p) && Action(Delete, p) !in plan {
      assert a == b;
    }
  }

  lemma TouchedPath(plan: seq<Action>)
    ensures TouchesBird(plan) <==> exists p :: "bird/" <= p && (Writes(plan, p) || Action(Delete, p) in plan)
  {
    if a :| a in plan && "bird/" <= a.path && !a.kind.Noop? {
      assert a == Action(a.kind, a.path);
      assert Writes(plan, a.path) || Action(Delete, a.path) in plan;
    }
  }

  /** From a router that runs what is on disk, a round leads to one that does exactly if the router was
      rebuilt, no file of it changed, or the reload worked. */
  lemma RoundLoadsIff(r: Router, next: Desired, rebuilt: Rebuilt, plan: seq<Action>, failing: set<Step>)
    requires UpToDate(r) && IsPlan(plan, Files(next), r.disk) && Clean(Files(next))
    ensures UpToDate(AfterRound(r, next, rebuilt, plan, failing)) <==>
      rebuilt.bird || !TouchesBird(plan) || Reload !in failing
  {
    LoadedAfterRound(r, next, rebuilt, plan, failing);
    TouchIff(plan, Files(next), r.disk);
    hide AfterRound, TouchesBird, Executed, Files, IsPlan, Clean;
  }

  /** Files as they are when nothing else writes to the disk. */
  ghost predicate Orderly(disk: Tree) {
    forall p :: p in disk ==> '\r' !in disk[p] && !IsTemp(p)
  }

  lemma BirdTop(p: string)
    requires "bird/" <= p
    ensures TopSegment(p) == "bird"
  {
    TopSegmentIs("bird", p[4..]);
    assert p == "bird" + p[4..];
  }

  lemma WrittenAsRendered(files: seq<Rendered>, disk: Tree)
    requires Clean(files) && Orderly(disk) && "bird" in Tops(files)
    ensures BirdFiles(Executed(files, disk)) == BirdFiles(Contents(files))
  {
    var a, b := BirdFiles(Executed(files, disk)), BirdFiles(Contents(files));
    forall p: string | "bird/" <= p
      ensures p in a <==> p in b
      ensures p in a ==> a[p] == b[p]
    {
      BirdTop(p);
      ManagedAt(files, disk, p);
      hide TopSegment, IsTemp, Contents;
    }
    hide Executed, Contents, Tops;
  }

  /** From a router that runs what is on disk, a round of a state with a BIRD configuration leads to one
      that runs exactly the rendered one if and only if the round reads it, where it changed. */
  lemma RunsTheRenderingIff(r: Router, next: Desired, rebuilt: Rebuilt, plan: seq<Action>, failing: set<Step>)
    requires UpToDate(r) && IsPlan(plan, Files(next), r.disk) && Clean(Files(next))
    requires Orderly(r.disk) && "bird" in Tops(Files(next))
    ensures AfterRound(r, next, rebuilt, plan, failing).loaded == BirdFiles(Contents(Files(next))) <==>
      rebuilt.bird || !TouchesBird(plan) || Reload !in failing
  {
    WrittenAsRendered(Files(next), r.disk);
    hide Orderly, Tops, TouchesBird, IsPlan, Clean, Files, Executed, Contents, AfterRound;
    LoadedAfterRound(r, next, rebuilt, plan, failing);
    RoundLoadsIff(r, next, rebuilt, plan, failing);
  }

  // ----- histories -----

  /** A round, with the steps of it that fail, or the daemon starting over what is on disk: its
      container restarts, or the healer runs its script. */
  datatype Event = Turn(state: Desired, rebuilt: Rebuilt, plan: seq<Action>, failing: set<Step>) | Restart

  ghost function After(r: Router, e: Event): Router {
    match e
    case Turn(state, rebuilt, plan, failing) => AfterRound(r, state, rebuilt, plan, failing)
    case Restart => r.(loaded := BirdFiles(r.disk))
  }

  ghost predicate Allowed(r: Router, e: Event) {
    e.Turn? ==> IsPlan(e.plan, Files(e.state), r.disk) && Clean(Files(e.state))
  }

  ghost predicate Reads(e: Event) {
    e.Restart? || Loads(e.rebuilt, e.plan, e.failing)
  }

  ghost function AfterAll(r: Router, es: seq<Event>): Router {
    if es == [] then r else After(AfterAll(r, es[..|es| - 1]), es[|es| - 1])
  }

  ghost predicate IsHistory(r: Router, es: seq<Event>) {
    es != [] ==> IsHistory(r, es[..|es| - 1]) && Allowed(AfterAll(r, es[..|es| - 1]), es[|es| - 1])
  }

  lemma AfterReads(r: Router, e: Event)
    ensures After(r, e).loaded == if Reads(e) then BirdFiles(After(r, e).disk) else r.loaded
  {
    hide Loads, AfterRound;
    if e.Turn? { LoadedAfterRound(r, e.state, e.rebuilt, e.plan, e.failing); }
  }

  /** How many events there were when BIRD last read its files, 0 if it never did. */
  ghost function LastRead(es: seq<Event>): (k: nat)
    ensures k <= |es|
    ensures k > 0 ==> Reads(es[k - 1])
    ensures forall j :: k <= j < |es| ==> !Reads(es[j])
  {
    if es == [] then 0
    else if Reads(es[|es| - 1]) then |es|
    else LastRead(es[..|es| - 1])
  }

  /** Over any history, what is in force is what lay on disk when BIRD last read it. */
  lemma {:induction false} InForce(r: Router, es: seq<Event>)
    ensures AfterAll(r, es).loaded
         == if LastRead(es) == 0 then r.loaded else BirdFiles(AfterAll(r, es[..LastRead(es)]).disk)
  {
    hide Reads, After;
    if es != [] {
      var init, last := es[..|es| - 1], es[|es| - 1];
      AfterReads(AfterAll(r, init), last);
      if Reads(last) {
        assert es[..|es|] == es;
      } else {
        InForce(r, init);
        assert es[..LastRead(init)] == init[..LastRead(init)];
      }
    }
  }

  ghost predicate AlwaysUpToDate(r: Router, es: seq<Event>) {
    UpToDate(AfterAll(r, es)) && (es != [] ==> AlwaysUpToDate(r, es[..|es| - 1]))
  }

  /** No round leaves a change under `bird/` unread. */
  ghost predicate EachRead(es: seq<Event>) {
    forall e :: e in es && e.Turn? ==> e.rebuilt.bird || !TouchesBird(e.plan) || Reload !in e.failing
  }

  /** BIRD runs what is on disk at every point of a history exactly if each round that changes its
      files reloads them or rebuilds the router. */
  lemma {:induction false} RunLoadsIff(r: Router, es: seq<Event>)
    requires UpToDate(r) && IsHistory(r, es)
    ensures AlwaysUpToDate(r, es) <==> EachRead(es)
  {
    hide TouchesBird, After, Allowed;
    if es != [] {
      var init, last := es[..|es| - 1], es[|es| - 1];
      assert es == init + [last];
      RunLoadsIff(r, init);
      if AlwaysUpToDate(r, init) {
        assert UpToDate(AfterAll(r, init)) by { hide UpToDate; }
        EventLoadsIff(AfterAll(r, init), last);
      }
      hide UpToDate;
    }
  }

  lemma EventLoadsIff(r: Router, e: Event)
    requires UpToDate(r) && Allowed(r, e)
    ensures UpToDate(After(r, e)) <==> e.Turn? ==> e.rebuilt.bird || !TouchesBird(e.plan) || Reload !in e.failing
  {
    hide IsPlan, Clean, AfterRound, TouchesBird;
    if e.Turn? { RoundLoadsIff(r, e.state, e.rebuilt, e.plan, e.failing); }
  }

  // ----- what a retry makes of a reload that failed -----

  /** The files of the state are written. */
  ghost predicate Written(disk: Tree, state: Desired) {
    Clean(Files(state)) && Executed(Files(state), disk) == disk
  }

  ghost predicate Retries(es: seq<Event>, state: Desired) {
    forall e :: e in es && e.Turn? ==> e.state == state
  }

  lemma RetryTouchesNothing(r: Router, state: Desired, again: Rebuilt, plan: seq<Action>, failing: set<Step>)
    requires Written(r.disk, state) && IsPlan(plan, Files(state), r.disk)
    ensures !TouchesBird(plan) && AfterRound(r, state, again, plan, failing).disk == r.disk
  {
    hide IsPlan, TouchesBird, Files, Executed;
    TouchIff(plan, Files(state), r.disk);
    LoadedAfterRound(r, state, again, plan, failing);
  }

  /** Rounds of the same state once its files are written never reload, so a router that is behind its
      files stays behind until it is rebuilt or started anew. */
  lemma {:induction false} RetriesLoadIff(r: Router, state: Desired, es: seq<Event>)
    requires Written(r.disk, state) && IsHistory(r, es) && Retries(es, state)
    ensures AfterAll(r, es).disk == r.disk
    ensures UpToDate(AfterAll(r, es)) <==> UpToDate(r) || Renewed(es)
  {
    hide Written, After, UpToDate, Allowed, Renewed, Retries;
    if es != [] {
      var init, last := es[..|es| - 1], es[|es| - 1];
      LastRetries(es, state);
      RetriesLoadIff(r, state, init);
      RetryEvent(AfterAll(r, init), state, last);
    } else {
      NoneRenews();
    }
  }

  /** The router was rebuilt or started anew on the way. */
  ghost predicate Renewed(es: seq<Event>) {
    exists e :: e in es && (e.Restart? || e.rebuilt.bird)
  }

  lemma NoneRenews()
    ensures !Renewed([])
  {
  }

  lemma LastRetries(es: seq<Event>, state: Desired)
    requires es != [] && Retries(es, state)
    ensures var init, last := es[..|es| - 1], es[|es| - 1];
      && Retries(init, state) && (last.Turn? ==> last.state == state)
      && (Renewed(es) <==> Renewed(init) || last.Restart? || last.rebuilt.bird)
  {
    var init, last := es[..|es| - 1], es[|es| - 1];
    assert es == init + [last];
  }

  lemma RetryEvent(r: Router, state: Desired, e: Event)
    requires Written(r.disk, state) && Allowed(r, e) && (e.Turn? ==> e.state == state)
    ensures After(r, e).disk == r.disk
    ensures UpToDate(After(r, e)) <==> UpToDate(r) || e.Restart? || e.rebuilt.bird
  {
    hide IsPlan, Clean, AfterRound, TouchesBird, Written;
    if e.Turn? {
      RetryTouchesNothing(r, state, e.rebuilt, e.plan, e.failing);
      LoadedAfterRound(r, state, e.rebuilt, e.plan, e.failing);
    }
  }

  /** After any round whose reload failed: the hot retry has an empty plan, which is a success, and BIRD
      runs what is on disk exactly if it did before. */
  lemma RetryIsBlind(r: Router, state: Desired, rebuilt: Rebuilt, plan: seq<Action>, failing: set<Step>,
                     again: Rebuilt, retry: seq<Action>)
    requires IsPlan(plan, Files(state), r.disk) && Clean(Files(state)) && !BringsUp(again) && !again.bird
    requires var failed := AfterRound(r, state, rebuilt, plan, failing); IsPlan(retry, Files(state), failed.disk)
    ensures var failed := AfterRound(r, state, rebuilt, plan, failing);
      && Plan(state, again, retry) == []
      && AfterRound(failed, state, again, retry, {}) == failed
      && (UpToDate(r) ==> (UpToDate(failed) <==> Loads(rebuilt, plan, failing) || !TouchesBird(plan)))
  {
    var failed := AfterRound(r, state, rebuilt, plan, failing);
    LoadedAfterRound(r, state, rebuilt, plan, failing);
    if UpToDate(r) { RoundLoadsIff(r, state, rebuilt, plan, failing); }
    Repair.ExecutedTwice(Files(state), r.disk);
    hide IsPlan, Clean, AfterRound, TouchesBird, Executed, Files, Plan;
    RetryTouchesNothing(failed, state, again, retry, {});
    LoadedAfterRound(failed, state, again, retry, {});
    Repair.RetryPlansNothing(state, failed.disk, again, retry);
  }

  // ----- a node whose reload failed once -----

  const CONF := "bird/bird.conf"

  function Routed(conf: string): Desired {
    Desired([], [Rendered(CONF, conf)], [])
  }

  lemma OneFile(f: Rendered)
    ensures SortBy([f], PathBefore) == [f] && Contents([f]) == map[f.path := f.content]
  {
    hide SortBy;
    var sorted := SortBy([f], PathBefore);
    assert |sorted| == 1 && f in sorted;
    assert [f][..0] == [] && Contents([]) == map[];
  }

  lemma NoInterfaces()
    ensures Render(SortBy([], NameBefore)) == []
  {
    assert SortBy<Interface>([], NameBefore) == [];
  }

  lemma RoutedFiles(conf: string)
    ensures Files(Routed(conf)) == [Rendered(CONF, conf)]
    ensures '\r' !in conf ==> Clean(Files(Routed(conf)))
  {
    var f := Rendered(CONF, conf);
    OneFile(f);
    NoInterfaces();
    hide SortBy, Render, Contents, PathBefore, NameBefore;
    assert [f] + [] + [] == [f];
  }

  lemma RoutedDisk(conf: string, disk: Tree)
    requires disk.Keys <= {CONF} && (CONF in disk ==> disk[CONF] != conf && '\r' !in disk[CONF])
    ensures Executed(Files(Routed(conf)), disk) == map[CONF := conf]
  {
    RoutedFiles(conf);
    var files := Files(Routed(conf));
    assert files == [Rendered(CONF, conf)];
    assert Contents([]) == map[] && Contents(files) == map[CONF := conf];
    if CONF in disk { ReadTextIsIdentity(disk[CONF]); }
    hide IsTemp, TopSegment, ReadText, Files, Contents;
    assert CONF in Paths(files) && files[0] in files && !Settled(files, disk, CONF);
    assert Paths(files) == {CONF};
  }

  /** The reload of the second configuration fails once, and the retry is a success without a step: the
      second configuration lies on disk, the first one is in force. */
  lemma BirdStaysStale() returns (first: Router, second: Router, third: Router, retry: seq<Action>)
    ensures UpToDate(first) && first.disk == map[CONF := "1"]
    ensures exists plan ::
      IsPlan(plan, Files(Routed("2")), first.disk) && second == AfterRound(first, Routed("2"), Samples.HOT, plan, {Reload})
    ensures IsPlan(retry, Files(Routed("2")), second.disk) && Plan(Routed("2"), Samples.HOT, retry) == []
    ensures third == AfterRound(second, Routed("2"), Samples.HOT, retry, {})
    ensures third.disk == map[CONF := "2"] && third.loaded == map[CONF := "1"]
  {
    first := Router(map[CONF := "1"], BirdFiles(map[CONF := "1"]));
    assert first.loaded == map[CONF := "1"];
    RoutedDisk("2", first.disk);
    RoutedFiles("2");
    hide Executed, Files, IsPlan, Clean, AfterRound, TouchesBird, Plan;
    var plan := Samples.SomePlan(Files(Routed("2")), first.disk);
    second := AfterRound(first, Routed("2"), Samples.HOT, plan, {Reload});
    LoadedAfterRound(first, Routed("2"), Samples.HOT, plan, {Reload});
    retry := Samples.SomePlan(Files(Routed("2")), second.disk);
    third := AfterRound(second, Routed("2"), Samples.HOT, retry, {});
    RetryIsBlind(first, Routed("2"), Samples.HOT, plan, {Reload}, Samples.HOT, retry);
  }
}
