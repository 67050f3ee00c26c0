/** The file plan: compare rendered files with a directory tree, then execute exactly that plan.
    A tree maps relative paths to the raw text of the file there. */
module FilePlan {
  import opened Order

  datatype Rendered = Rendered(path: string, content: string)

  datatype Kind = Create | Update | Noop | Delete

  datatype Action = Action(kind: Kind, path: string)

  datatype Counts = Counts(create: nat, update: nat, delete: nat, noop: nat)

  type Tree = map<string, string>

  /** `Path.read_text`: text mode translates both "\r\n" and a lone "\r" to "\n". Writing does not
      translate (`newline="\n"`). */
  function ReadText(raw: string): string {
    if raw == "" then ""
    else if raw[0] == '\r' then
      "\n" + ReadText(if |raw| > 1 && raw[1] == '\n' then raw[2..] else raw[1..])
    else [raw[0]] + ReadText(raw[1..])
  }

  lemma {:induction false} ReadTextHasNoCarriageReturn(raw: string)
    ensures '\r' !in ReadText(raw)
    decreases |raw|
  {
    if raw != "" {
      ReadTextHasNoCarriageReturn(
        if raw[0] == '\r' && |raw| > 1 && raw[1] == '\n' then raw[2..] else raw[1..]);
    }
  }

  lemma {:induction false} ReadTextIsIdentity(raw: string)
    ensures ReadText(raw) == raw <==> '\r' !in raw
  {
    ReadTextHasNoCarriageReturn(raw);
    if '\r' !in raw && raw != "" {
      assert raw[0] in raw && forall c :: c in raw[1..] ==> c in raw;
      ReadTextIsIdentity(raw[1..]);
      assert raw == [raw[0]] + raw[1..];
    }
  }

  /** The first `/`-separated segment. */
  function TopSegment(path: string): string {
    if path == "" || path[0] == '/' then "" else [path[0]] + TopSegment(path[1..])
  }

  function BaseName(path: string): string {
    if '/' !in path then path else BaseName(path[1..])
  }

  predicate StartsWith(s: string, prefix: string) {
    prefix <= s
  }

  predicate Contains(s: string, part: string) {
    part <= s || (s != "" && Contains(s[1..], part))
  }

  /** Left-overs of the atomic writer, which the orphan scan skips. */
  predicate IsTemp(path: string) {
    StartsWith(BaseName(path), ".") && Contains(BaseName(path), ".tmp.")
  }

  function Paths(files: seq<Rendered>): set<string> {
    set f | f in files :: f.path
  }

  function Tops(files: seq<Rendered>): set<string> {
    set f | f in files :: TopSegment(f.path)
  }

  /** `content_by_path`: the last rendered file of a path wins. */
  function Contents(files: seq<Rendered>): (m: map<string, string>)
    ensures m.Keys == Paths(files)
  {
    if files == [] then map[]
    else
      var last := files[|files| - 1];
      assert files == files[..|files| - 1] + [last];
      Contents(files[..|files| - 1])[last.path := last.content]
  }

  function ActionFor(f: Rendered, tree: Tree): Action {
    if f.path !in tree then Action(Create, f.path)
    else if ReadText(tree[f.path]) == f.content then Action(Noop, f.path)
    else Action(Update, f.path)
  }

  predicate IsOrphan(path: string, files: seq<Rendered>, tree: Tree) {
    path in tree && !IsTemp(path) && path !in Paths(files) && TopSegment(path) in Tops(files)
  }

  function Orphans(files: seq<Rendered>, tree: Tree): set<string> {
    set p | p in tree && IsOrphan(p, files, tree)
  }

  ghost function RenderedActions(files: seq<Rendered>, tree: Tree): seq<Action> {
    seq(|files|, i requires 0 <= i < |files| => ActionFor(files[i], tree))
  }

  ghost function DeleteEach(paths: set<string>): set<Action> {
    set p | p in paths :: Action(Delete, p)
  }

  ghost function DeleteActions(files: seq<Rendered>, tree: Tree): set<Action> {
    DeleteEach(Orphans(files, tree))
  }

  /** A pruned plan, in whatever order: one action per rendered file, one delete per orphan. */
  ghost predicate IsPlan(plan: seq<Action>, files: seq<Rendered>, tree: Tree) {
    multiset(plan) == multiset(RenderedActions(files, tree)) + multiset(DeleteActions(files, tree))
  }

  function Count(plan: seq<Action>, kind: Kind): nat {
    if plan == [] then 0
    else Count(plan[..|plan| - 1], kind) + if plan[|plan| - 1].kind == kind then 1 else 0
  }

  function Tally(c: Counts, kind: Kind): Counts {
    match kind
    case Create => c.(create := c.create + 1)
    case Update => c.(update := c.update + 1)
    case Delete => c.(delete := c.delete + 1)
    case Noop => c.(noop := c.noop + 1)
  }

  ghost function Summary(plan: seq<Action>): Counts {
    Counts(Count(plan, Create), Count(plan, Update), Count(plan, Delete), Count(plan, Noop))
  }

  predicate ByPath(a: Rendered, b: Rendered) {
    Less(a.path, b.path)
  }

  /** The actions as they are spelled, in alphabetical order. */
  function Rank(kind: Kind): nat {
    match kind
    case Create => 0
    case Delete => 1
    case Noop => 2
    case Update => 3
  }

  predicate ActionBefore(a: Action, b: Action) {
    Less(a.path, b.path) || (a.path == b.path && Rank(a.kind) < Rank(b.kind))
  }

  lemma ActionsInOrder(plan: seq<Action>)
    ensures InOrder(SortBy(plan, ActionBefore), ActionBefore)
  {
    hide Less;
    forall a: Action, b: Action ensures !(ActionBefore(a, b) && ActionBefore(b, a)) { Total(a.path, b.path); }
    SortedInOrder(plan, ActionBefore);
  }

  lemma ActionsOfParts(a: seq<Rendered>, f: Rendered, b: seq<Rendered>, tree: Tree)
    ensures multiset(RenderedActions(a + [f] + b, tree)) == multiset(RenderedActions(a + b, tree)) + multiset{ActionFor(f, tree)}
  {
    assert RenderedActions(a + [f] + b, tree) == RenderedActions(a, tree) + [ActionFor(f, tree)] + RenderedActions(b, tree);
    assert RenderedActions(a + b, tree) == RenderedActions(a, tree) + RenderedActions(b, tree);
  }

  lemma {:induction false} SameActions(a: seq<Rendered>, b: seq<Rendered>, tree: Tree)
    requires multiset(a) == multiset(b)
    ensures multiset(RenderedActions(a, tree)) == multiset(RenderedActions(b, tree))
    decreases |a|
  {
    if a == [] {
      assert |b| == |multiset(b)| == 0;
    } else {
      hide RenderedActions;
      var init, last := a[..|a| - 1], a[|a| - 1];
      assert a == init + [last] + [];
      assert last in multiset(b);
      var i :| 0 <= i < |b| && b[i] == last;
      var before, after := b[..i], b[i + 1..];
      assert b == before + [last] + after;
      assert multiset(before + after) == multiset(b) - multiset{last} && multiset(init) == multiset(a) - multiset{last};
      SameActions(init, before + after, tree);
      ActionsOfParts(init, last, [], tree);
      assert init + [] == init;
      ActionsOfParts(before, last, after, tree);
    }
  }

  // ----- the plan path by path -----

  /** Created where it is missing, left alone where some rendering of it reads back, updated where one
      does not; deleted, when pruning, where nothing renders it but something renders beside it. */
  ghost predicate PlansPath(plan: seq<Action>, files: seq<Rendered>, tree: Tree, prune: bool, p: string) {
    && (Action(Create, p) in plan <==> p !in tree && exists f :: f in files && f.path == p)
    && (Action(Update, p) in plan <==> p in tree && exists f :: f in files && f.path == p && ReadText(tree[p]) != f.content)
    && (Action(Noop, p) in plan <==> p in tree && exists f :: f in files && f.path == p && ReadText(tree[p]) == f.content)
    && (Action(Delete, p) in plan <==>
          prune && p in tree && !IsTemp(p) && (forall f :: f in files ==> f.path != p) &&
          exists f :: f in files && TopSegment(f.path) == TopSegment(p))
  }

  lemma ActionForMeans(f: Rendered, tree: Tree)
    ensures var a := ActionFor(f, tree);
      && a.path == f.path && !a.kind.Delete?
      && (a.kind.Create? <==> f.path !in tree)
      && (a.kind.Update? <==> f.path in tree && ReadText(tree[f.path]) != f.content)
      && (a.kind.Noop? <==> f.path in tree && ReadText(tree[f.path]) == f.content)
  {
  }

  lemma RenderedMembers(files: seq<Rendered>, tree: Tree, a: Action)
    ensures a in RenderedActions(files, tree) <==> exists f :: f in files && a == ActionFor(f, tree)
  {
    if f :| f in files && a == ActionFor(f, tree) {
      var i :| 0 <= i < |files| && files[i] == f;
      assert RenderedActions(files, tree)[i] == a;
    }
  }

  lemma UnprunedMembers(plan: seq<Action>, files: seq<Rendered>, tree: Tree, prune: bool, a: Action)
    requires if prune then IsPlan(plan, files, tree) else multiset(plan) == multiset(RenderedActions(files, tree))
    ensures a in plan <==>
      (exists f :: f in files && a == ActionFor(f, tree)) || (prune && a.kind.Delete? && IsOrphan(a.path, files, tree))
  {
    hide ActionFor, IsOrphan, IsPlan;
    if prune {
      PlanMembers(plan, files, tree, a);
    } else {
      RenderedMembers(files, tree, a);
      assert a in plan <==> a in multiset(plan);
      assert a in RenderedActions(files, tree) <==> a in multiset(RenderedActions(files, tree));
    }
  }

  lemma PlannedAt(plan: seq<Action>, files: seq<Rendered>, tree: Tree, prune: bool, p: string)
    requires if prune then IsPlan(plan, files, tree) else multiset(plan) == multiset(RenderedActions(files, tree))
    ensures PlansPath(plan, files, tree, prune, p)
  {
    forall f | f in files ensures ActionFor(f, tree).path == f.path && !ActionFor(f, tree).kind.Delete? {
      ActionForMeans(f, tree);
    }
    UnprunedMembers(plan, files, tree, prune, Action(Delete, p));
    hide IsPlan, ReadText, IsTemp, TopSegment, RenderedActions;
    forall kind: Kind | !kind.Delete?
      ensures Action(kind, p) in plan <==> exists f :: f in files && Action(kind, p) == ActionFor(f, tree)
    {
      UnprunedMembers(plan, files, tree, prune, Action(kind, p));
    }
  }

  /** The places of the actions of one kind. */
  ghost function OfKind(plan: seq<Action>, kind: Kind): set<int> {
    set k | 0 <= k < |plan| && plan[k].kind == kind
  }

  lemma OneMoreOfKind(plan: seq<Action>, kind: Kind)
    requires plan != []
    ensures var last := |plan| - 1;
      && last !in OfKind(plan[..last], kind)
      && OfKind(plan, kind) == OfKind(plan[..last], kind) + (if plan[last].kind == kind then {last} else {})
  {
    var last := |plan| - 1;
    forall k ensures k in OfKind(plan, kind) <==> k in OfKind(plan[..last], kind) + (if plan[last].kind == kind then {last} else {}) {
    }
  }

  lemma {:induction false} CountIs(plan: seq<Action>, kind: Kind)
    ensures Count(plan, kind) == |OfKind(plan, kind)|
    decreases |plan|
  {
    if plan == [] {
      assert forall k :: k !in OfKind(plan, kind);
    } else {
      var last := |plan| - 1;
      CountIs(plan[..last], kind);
      OneMoreOfKind(plan, kind);
    }
  }

  lemma KindsCounted(plan: seq<Action>)
    ensures CountsKinds(Summary(plan), plan)
  {
    hide Count, OfKind;
    CountIs(plan, Create);
    CountIs(plan, Update);
    CountIs(plan, Delete);
    CountIs(plan, Noop);
  }

  ghost predicate CountsKinds(c: Counts, plan: seq<Action>) {
    && c.create == |OfKind(plan, Create)| && c.update == |OfKind(plan, Update)|
    && c.delete == |OfKind(plan, Delete)| && c.noop == |OfKind(plan, Noop)|
  }

  ghost predicate ByPaths(plan: seq<Action>) {
    forall i, j :: 0 <= i < j < |plan| ==> plan[i].path == plan[j].path || Less(plan[i].path, plan[j].path)
  }

  lemma OrderIsByPath(plan: seq<Action>)
    requires InOrder(plan, ActionBefore)
    ensures ByPaths(plan)
  {
    forall i, j | 0 <= i < j < |plan| ensures plan[i].path == plan[j].path || Less(plan[i].path, plan[j].path) {
      PathsFollow(plan, i, j);
    }
  }

  lemma {:induction false} PathsFollow(plan: seq<Action>, i: nat, j: nat)
    requires InOrder(plan, ActionBefore) && i < j < |plan|
    ensures plan[i].path == plan[j].path || Less(plan[i].path, plan[j].path)
    decreases j
  {
    assert !ActionBefore(plan[j], plan[j - 1]);
    Total(plan[j - 1].path, plan[j].path);
    if i < j - 1 {
      PathsFollow(plan, i, j - 1);
      if Less(plan[i].path, plan[j - 1].path) && Less(plan[j - 1].path, plan[j].path) {
        Transitive(plan[i].path, plan[j - 1].path, plan[j].path);
      }
    }
  }

  /** A left-over starts with a dot and has `.tmp.` somewhere in its name; the directory plays no role. */
  lemma {:induction false} TempIff(dir: string, base: string)
    requires '/' !in base && (dir == "" || dir[|dir| - 1] == '/')
    ensures IsTemp(dir + base) <==> base != "" && base[0] == '.' && exists k: nat :: StandsAt(base, ".tmp.", k)
    decreases |dir|
  {
    if dir == "" {
      assert dir + base == base;
      ContainsIff(base, ".tmp.");
    } else {
      assert (dir + base)[|dir| - 1] == '/';
      assert (dir + base)[1..] == dir[1..] + base;
      TempIff(dir[1..], base);
    }
  }

  /** What the atomic writer leaves when it is interrupted is such a file, so no plan deletes it. */
  lemma LeftOversAreTemp(dir: string, name: string, process: string)
    requires '/' !in name && '/' !in process && (dir == "" || dir[|dir| - 1] == '/')
    ensures IsTemp(dir + ("." + name + ".tmp." + process))
  {
    var base := "." + name + ".tmp." + process;
    TempIff(dir, base);
    assert base[|name| + 1..|name| + 6] == ".tmp.";
    assert StandsAt(base, ".tmp.", |name| + 1);
    hide IsTemp;
  }

  predicate StandsAt(s: string, part: string, k: nat) {
    k + |part| <= |s| && s[k..k + |part|] == part
  }

  lemma {:induction false} ContainsIff(s: string, part: string)
    ensures Contains(s, part) <==> exists k: nat :: StandsAt(s, part, k)
    decreases |s|
  {
    if part <= s {
      assert StandsAt(s, part, 0);
    } else if s != "" {
      ContainsIff(s[1..], part);
      if k: nat :| StandsAt(s[1..], part, k) {
        assert StandsAt(s, part, k + 1);
      }
      if k: nat :| StandsAt(s, part, k) {
        assert k > 0;
        assert StandsAt(s[1..], part, k - 1);
      }
    }
  }

  /** The first segment is what stands before the first slash. */
  lemma {:induction false} TopSegmentIs(segment: string, rest: string)
    requires '/' !in segment && (rest == "" || rest[0] == '/')
    ensures TopSegment(segment + rest) == segment
  {
    if segment == "" {
      assert segment + rest == rest;
    } else {
      assert (segment + rest)[1..] == segment[1..] + rest;
      TopSegmentIs(segment[1..], rest);
    }
  }

  /** Of several renderings of a path the last one is written. */
  lemma {:induction false} LastContent(files: seq<Rendered>, k: nat)
    requires k < |files| && forall j :: k < j < |files| ==> files[j].path != files[k].path
    ensures Contents(files)[files[k].path] == files[k].content
    decreases |files|
  {
    if k < |files| - 1 {
      LastContent(files[..|files| - 1], k);
    }
  }

  /** `build_file_plan`: the actions by path, and counts that add up to them. Without `prune` nothing
      is deleted. */
  method BuildFilePlan(files: seq<Rendered>, tree: Tree, prune: bool) returns (plan: seq<Action>, counts: Counts)
    ensures if prune then IsPlan(plan, files, tree) else multiset(plan) == multiset(RenderedActions(files, tree))
    ensures forall p :: PlansPath(plan, files, tree, prune, p)
    ensures InOrder(plan, ActionBefore) && ByPaths(plan)
    ensures counts == Summary(plan) && CountsKinds(counts, plan)
    ensures counts.create + counts.update + counts.delete + counts.noop == |plan|
  {
    plan := PlanRendered(files, tree);
    if prune {
      var deletes := ListOrphans(files, tree);
      plan := plan + deletes;
    }
    ActionsInOrder(plan);
    plan := SortBy(plan, ActionBefore);
    OrderIsByPath(plan);
    hide *;
    forall p ensures PlansPath(plan, files, tree, prune, p) {
      PlannedAt(plan, files, tree, prune, p);
    }
    counts := Summarise(plan);
    KindsCounted(plan);
  }

  /** The loop over the files, by path. */
  method PlanRendered(files: seq<Rendered>, tree: Tree) returns (plan: seq<Action>)
    ensures multiset(plan) == multiset(RenderedActions(files, tree))
  {
    var sorted := SortBy(files, ByPath);
    SameActions(sorted, files, tree);
    plan := [];
    for i := 0 to |sorted|
      invariant plan == RenderedActions(sorted, tree)[..i]
    {
      plan := plan + [ActionFor(sorted[i], tree)];
    }
    assert plan == RenderedActions(sorted, tree);
  }

  method ListOrphans(files: seq<Rendered>, tree: Tree) returns (deletes: seq<Action>)
    ensures multiset(deletes) == multiset(DeleteActions(files, tree))
  {
    hide IsOrphan, Less;
    var orphans := Sorted(Orphans(files, tree));
    deletes := [];
    for i := 0 to |orphans|
      invariant deletes == Deletes(orphans[..i])
    {
      assert orphans[..i + 1][..i] == orphans[..i];
      deletes := deletes + [Action(Delete, orphans[i])];
    }
    assert orphans[..|orphans|] == orphans;
    DeletesOf(orphans);
    assert (set p | p in orphans) == Orphans(files, tree);
  }

  function Deletes(paths: seq<string>): seq<Action> {
    if paths == [] then [] else Deletes(paths[..|paths| - 1]) + [Action(Delete, paths[|paths| - 1])]
  }

  lemma {:induction false} DeletesOf(paths: seq<string>)
    requires Ascending(paths)
    ensures multiset(Deletes(paths)) == multiset(DeleteEach(set p | p in paths))
    decreases |paths|
  {
    hide Less;
    if paths != [] {
      var init, last := paths[..|paths| - 1], paths[|paths| - 1];
      assert paths == init + [last];
      DeletesOf(init);
      LastIsNew(paths);
      OneMore((set p | p in init), last);
      assert (set p | p in paths) == (set p | p in init) + {last};
    }
  }

  lemma OneMore(paths: set<string>, p: string)
    requires p !in paths
    ensures multiset(DeleteEach(paths + {p})) == multiset(DeleteEach(paths)) + multiset{Action(Delete, p)}
  {
    assert DeleteEach(paths + {p}) == DeleteEach(paths) + {Action(Delete, p)};
  }

  lemma LastIsNew(paths: seq<string>)
    requires Ascending(paths) && paths != []
    ensures paths[|paths| - 1] !in paths[..|paths| - 1]
  {
    forall k | 0 <= k < |paths| - 1 ensures paths[k] != paths[|paths| - 1] {
      Total(paths[k], paths[|paths| - 1]);
    }
  }

  method Summarise(plan: seq<Action>) returns (counts: Counts)
    ensures counts == Summary(plan)
    ensures counts.create + counts.update + counts.delete + counts.noop == |plan|
  {
    counts := Counts(0, 0, 0, 0);
    for i := 0 to |plan|
      invariant counts == Summary(plan[..i])
      invariant counts.create + counts.update + counts.delete + counts.noop == i
    {
      assert plan[..i + 1][..i] == plan[..i];
      counts := Tally(counts, plan[i].kind);
    }
    assert plan[..|plan|] == plan;
  }

  // ----- execution -----

  predicate IsWrite(a: Action) {
    a.kind.Create? || a.kind.Update?
  }

  /** An action fails when the OS raises on its path, or when a planned write has no content. */
  predicate Fails(a: Action, contents: map<string, string>, faults: set<string>) {
    !a.kind.Noop? && (a.path in faults || (IsWrite(a) && a.path !in contents))
  }

  function ExecAction(a: Action, contents: map<string, string>, tree: Tree, faults: set<string>): Tree {
    if a.kind.Noop? || Fails(a, contents, faults) then tree
    else if a.kind.Delete? then tree - {a.path}
    else tree[a.path := contents[a.path]]
  }

  function ExecPlan(plan: seq<Action>, contents: map<string, string>, tree: Tree, faults: set<string>): Tree {
    if plan == [] then tree
    else ExecAction(plan[|plan| - 1], contents, ExecPlan(plan[..|plan| - 1], contents, tree, faults), faults)
  }

  ghost predicate ErrorFree(plan: seq<Action>, contents: map<string, string>, faults: set<string>) {
    forall a :: a in plan ==> !Fails(a, contents, faults)
  }

  class Disk {
    var files: Tree

    constructor (files: Tree)
      ensures this.files == files
    {
      this.files := files;
    }
  }

  method ExecuteOne(a: Action, contents: map<string, string>, disk: Disk, faults: set<string>) returns (ok: bool)
    modifies disk
    ensures ok <==> !Fails(a, contents, faults)
    ensures disk.files == ExecAction(a, contents, old(disk.files), faults)
  {
    if a.kind.Noop? {
      return true;
    }
    if Fails(a, contents, faults) {
      return false;
    }
    disk.files := if a.kind.Delete? then disk.files - {a.path} else disk.files[a.path := contents[a.path]];
    return true;
  }

  /** `execute_file_plan`: the given plan and nothing else; every action is either applied or
      reported as an error, and an error does not stop the ones after it. A dry run reports the
      whole plan as applied and touches nothing. */
  method ExecuteFilePlan(plan: seq<Action>, files: seq<Rendered>, disk: Disk, faults: set<string>, dryRun: bool)
      returns (applied: seq<Action>, errors: seq<Action>)
    modifies disk
    ensures disk.files == if dryRun then old(disk.files) else ExecPlan(plan, Contents(files), old(disk.files), faults)
    ensures errors == [] <==> dryRun || ErrorFree(plan, Contents(files), faults)
    ensures multiset(applied) + multiset(errors) == multiset(plan)
  {
    if dryRun {
      return plan, [];
    }
    applied, errors := ExecuteAll(plan, Contents(files), disk, faults);
  }

  lemma ExecNothing(contents: map<string, string>, tree: Tree, faults: set<string>)
    ensures ExecPlan([], contents, tree, faults) == tree && ErrorFree([], contents, faults)
  {
  }

  lemma ExecNext(plan: seq<Action>, a: Action, contents: map<string, string>, tree: Tree, faults: set<string>)
    ensures ExecPlan(plan + [a], contents, tree, faults) == ExecAction(a, contents, ExecPlan(plan, contents, tree, faults), faults)
    ensures ErrorFree(plan + [a], contents, faults) <==> ErrorFree(plan, contents, faults) && !Fails(a, contents, faults)
  {
    hide ExecAction, Fails;
    assert (plan + [a])[..|plan|] == plan;
    assert forall x :: x in plan + [a] <==> x in plan || x == a;
  }

  method ExecuteAll(plan: seq<Action>, contents: map<string, string>, disk: Disk, faults: set<string>)
      returns (applied: seq<Action>, errors: seq<Action>)
    modifies disk
    ensures disk.files == ExecPlan(plan, contents, old(disk.files), faults)
    ensures errors == [] <==> ErrorFree(plan, contents, faults)
    ensures multiset(applied) + multiset(errors) == multiset(plan)
  {
    hide ExecAction, Fails, ErrorFree, ExecPlan;
    ExecNothing(contents, disk.files, faults);
    applied, errors := [], [];
    for i := 0 to |plan|
      invariant disk.files == ExecPlan(plan[..i], contents, old(disk.files), faults)
      invariant errors == [] <==> ErrorFree(plan[..i], contents, faults)
      invariant multiset(applied) + multiset(errors) == multiset(plan[..i])
    {
      var a := plan[i];
      assert plan[..i + 1] == plan[..i] + [a];
      ExecNext(plan[..i], a, contents, old(disk.files), faults);
      var ok := ExecuteOne(a, contents, disk, faults);
      if ok {
        applied := applied + [a];
      } else {
        errors := errors + [a];
      }
    }
    assert plan[..|plan|] == plan;
  }

  ghost predicate Writes(plan: seq<Action>, p: string) {
    Action(Create, p) in plan || Action(Update, p) in plan
  }

  lemma {:induction false} ExecAt(plan: seq<Action>, contents: map<string, string>, tree: Tree,
                                  faults: set<string>, p: string)
    requires ErrorFree(plan, contents, faults)
    ensures var out := ExecPlan(plan, contents, tree, faults);
      && (!Writes(plan, p) && Action(Delete, p) !in plan ==>
            (p in out <==> p in tree) && (p in tree ==> out[p] == tree[p]))
      && (Writes(plan, p) && Action(Delete, p) !in plan ==> p in contents && p in out && out[p] == contents[p])
      && (!Writes(plan, p) && Action(Delete, p) in plan ==> p !in out)
  {
    if plan != [] {
      var last := plan[|plan| - 1];
      assert plan == plan[..|plan| - 1] + [last];
      ExecAt(plan[..|plan| - 1], contents, tree, faults, p);
    }
  }

  lemma PlanMembers(plan: seq<Action>, files: seq<Rendered>, tree: Tree, a: Action)
    requires IsPlan(plan, files, tree)
    ensures a in plan <==>
      (exists f :: f in files && a == ActionFor(f, tree)) || (a.kind.Delete? && IsOrphan(a.path, files, tree))
  {
    assert a in plan <==> a in multiset(plan);
    var rendered := RenderedActions(files, tree);
    assert a in rendered <==> a in multiset(rendered);
    if f :| f in files && a == ActionFor(f, tree) {
      var i :| 0 <= i < |files| && files[i] == f;
      assert rendered[i] == a;
    }
  }

  /** Every rendering of `p` reads back from the tree already, so none of them is written. */
  ghost predicate Settled(files: seq<Rendered>, tree: Tree, p: string) {
    p in tree && forall f :: f in files && f.path == p ==> ReadText(tree[p]) == f.content
  }

  /** The tree a pruned plan leaves behind. */
  ghost function Executed(files: seq<Rendered>, tree: Tree): Tree {
    map p | p in tree.Keys + Paths(files) && !IsOrphan(p, files, tree) ::
      if p in Paths(files) && !Settled(files, tree, p) then Contents(files)[p] else tree[p]
  }

  /** Whatever the order of its actions, an error-free pruned plan leaves exactly that tree. */
  lemma ExecutionIsOrderFree(plan: seq<Action>, files: seq<Rendered>, tree: Tree, faults: set<string>)
    requires IsPlan(plan, files, tree) && ErrorFree(plan, Contents(files), faults)
    ensures ExecPlan(plan, Contents(files), tree, faults) == Executed(files, tree)
  {
    hide *;
    var out, want := ExecPlan(plan, Contents(files), tree, faults), Executed(files, tree);
    forall p ensures (p in out <==> p in want) && (p in want ==> out[p] == want[p]) {
      ExecutionAt(plan, files, tree, faults, p);
    }
  }

  lemma ExecutionAt(plan: seq<Action>, files: seq<Rendered>, tree: Tree, faults: set<string>, p: string)
    requires IsPlan(plan, files, tree) && ErrorFree(plan, Contents(files), faults)
    ensures var out, want := ExecPlan(plan, Contents(files), tree, faults), Executed(files, tree);
      (p in out <==> p in want) && (p in want ==> out[p] == want[p])
  {
    hide IsPlan, ErrorFree, ReadText, IsTemp, TopSegment, Writes;
    ExecAt(plan, Contents(files), tree, faults, p);
    WritesIff(plan, files, tree, p);
    DeletesIff(plan, files, tree, p);
  }

  lemma DeletesIff(plan: seq<Action>, files: seq<Rendered>, tree: Tree, p: string)
    requires IsPlan(plan, files, tree)
    ensures Action(Delete, p) in plan <==> IsOrphan(p, files, tree)
  {
    hide IsPlan, IsOrphan, ReadText;
    PlanMembers(plan, files, tree, Action(Delete, p));
  }

  /** A path is written exactly when it is rendered and does not read back as rendered. */
  lemma WritesIff(plan: seq<Action>, files: seq<Rendered>, tree: Tree, p: string)
    requires IsPlan(plan, files, tree)
    ensures Writes(plan, p) <==> p in Paths(files) && !Settled(files, tree, p)
  {
    hide IsPlan, IsOrphan, ReadText;
    PlanMembers(plan, files, tree, Action(Create, p));
    PlanMembers(plan, files, tree, Action(Update, p));
    if p in Paths(files) && !Settled(files, tree, p) {
      var f :| f in files && f.path == p && (p in tree ==> ReadText(tree[p]) != f.content);
      assert ActionFor(f, tree) == Action(if p in tree then Update else Create, p);
    }
  }

  ghost predicate IsManaged(p: string, files: seq<Rendered>) {
    p in Paths(files) || (TopSegment(p) in Tops(files) && !IsTemp(p))
  }

  /** After an error-free execution the managed part of the tree is exactly the rendered set, and
      everything else is untouched; precisely unless a file was left alone because it differs from
      its rendering only in carriage returns, which the text-mode comparison cannot see. */
  lemma ManagedEqualsRendered(files: seq<Rendered>, tree: Tree)
    ensures var out := Executed(files, tree);
      && (forall p :: !IsManaged(p, files) ==> (p in out <==> p in tree) && (p in tree ==> out[p] == tree[p]))
      && ((map p | p in out && IsManaged(p, files) :: out[p]) == Contents(files)
          <==> forall p :: p in Paths(files) && Settled(files, tree, p) ==> '\r' !in tree[p])
  {
    hide IsTemp, TopSegment, ReadText, IsManaged, Executed;
    Unmanaged(files, tree);
    var out := Executed(files, tree);
    var managed := map p | p in out && IsManaged(p, files) :: out[p];
    forall p ensures p in managed <==> p in Paths(files) {
      ManagedAt(files, tree, p);
    }
    forall p | p in Paths(files)
      ensures managed[p] == Contents(files)[p] <==> (Settled(files, tree, p) ==> '\r' !in tree[p])
    {
      ManagedAt(files, tree, p);
    }
    assert managed.Keys == Contents(files).Keys;
  }

  lemma Unmanaged(files: seq<Rendered>, tree: Tree)
    ensures var out := Executed(files, tree);
      forall p :: !IsManaged(p, files) ==> (p in out <==> p in tree) && (p in tree ==> out[p] == tree[p])
  {
    hide IsTemp, TopSegment, ReadText;
  }

  lemma ManagedAt(files: seq<Rendered>, tree: Tree, p: string)
    ensures p in Paths(files) <==> p in Executed(files, tree) && IsManaged(p, files)
    ensures p in Paths(files) ==>
      (Executed(files, tree)[p] == Contents(files)[p] <==> (Settled(files, tree, p) ==> '\r' !in tree[p]))
  {
    if p in Paths(files) {
      LastRendering(files, p);
      if Settled(files, tree, p) {
        ReadTextIsIdentity(tree[p]);
      }
    }
  }

  lemma {:induction false} LastRendering(files: seq<Rendered>, p: string)
    requires p in Paths(files)
    ensures Rendered(p, Contents(files)[p]) in files
  {
    var last := files[|files| - 1];
    assert files == files[..|files| - 1] + [last];
    if last.path != p {
      LastRendering(files[..|files| - 1], p);
    }
  }

  /** One content per path, and none with a carriage return. */
  ghost predicate Clean(files: seq<Rendered>) {
    forall f :: f in files ==> Contents(files)[f.path] == f.content && '\r' !in f.content
  }

  /** Planning again finds only noops if and only if the rendering is clean: two contents for one
      path, or a carriage return in a content, are rewritten on every round for ever. */
  lemma ReplanIsNoopIffClean(files: seq<Rendered>, tree: Tree)
    ensures var out := Executed(files, tree);
      (Orphans(files, out) == {} && forall f :: f in files ==> ActionFor(f, out).kind.Noop?) <==> Clean(files)
  {
    hide IsTemp, TopSegment, ReadText, Settled;
    var out := Executed(files, tree);
    NoOrphanLeft(files, tree);
    hide IsOrphan, Executed;
    forall p | p in Paths(files)
      ensures p in out && (forall f :: f in files && f.path == p ==> ReadText(out[p]) == f.content)
        <==> forall f :: f in files && f.path == p ==> Contents(files)[p] == f.content && '\r' !in f.content
    {
      ReplanAt(files, tree, p);
    }
    forall f | f in files ensures f.path in Paths(files) {}
  }

  lemma NoOrphanLeft(files: seq<Rendered>, tree: Tree)
    ensures Orphans(files, Executed(files, tree)) == {}
  {
    hide IsTemp, TopSegment, ReadText, Settled;
  }

  lemma ReplanAt(files: seq<Rendered>, tree: Tree, p: string)
    requires p in Paths(files)
    ensures var out := Executed(files, tree);
      p in out &&
      ((forall f :: f in files && f.path == p ==> ReadText(out[p]) == f.content)
       <==> forall f :: f in files && f.path == p ==> Contents(files)[p] == f.content && '\r' !in f.content)
  {
    var out := Executed(files, tree);
    LastRendering(files, p);
    var last := Rendered(p, Contents(files)[p]);
    ReadTextHasNoCarriageReturn(out[p]);
    if !Settled(files, tree, p) {
      ReadTextIsIdentity(last.content);
    } else {
      assert ReadText(out[p]) == last.content;
    }
  }

  // ----- what carriage returns do -----

  /** The file ends its line the other way: it counts as equal and is left alone. */
  lemma HiddenReturnSurvives() returns (files: seq<Rendered>, tree: Tree)
    ensures files == [Rendered("a", "\n")] && Clean(files) && Executed(files, tree) == tree
    ensures tree == map["a" := "\r\n"] && tree["a"] != Contents(files)["a"]
  {
    files, tree := [Rendered("a", "\n")], map["a" := "\r\n"];
    ReturnReadsAsNewline();
    assert Contents([]) == map[] && Contents(files) == map["a" := "\n"];
    hide IsTemp, TopSegment, ReadText;
    assert Settled(files, tree, "a");
  }

  lemma ReturnReadsAsNewline()
    ensures ReadText("\r\n") == "\n" && ReadText("\r") == "\n"
  {
    assert "\r\n"[2..] == "" && "\r"[1..] == "" && ReadText("") == "";
  }

  /** A rendering with a carriage return is written again in every round. */
  lemma ReturnIsRewritten(tree: Tree) returns (files: seq<Rendered>)
    ensures files == [Rendered("a", "\r")] && ActionFor(files[0], Executed(files, tree)) == Action(Update, "a")
  {
    files := [Rendered("a", "\r")];
    ReadTextHasNoCarriageReturn(if "a" in tree then tree["a"] else "");
    ReadTextIsIdentity("\r");
    assert Contents([]) == map[] && Contents(files) == map["a" := "\r"];
    assert files[0] in files && "\r"[0] == '\r';
    hide IsTemp, TopSegment, ReadText;
    assert !Settled(files, tree, "a");
  }
}
