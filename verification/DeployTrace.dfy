/** The engine calls of one deploy, and what holds at every point of that trace: an abort at any
    call leaves the state of some prefix. */
module DeployTrace {
  import opened Wrappers
  import opened Graphs
  import opened Sublists
  import opened ContainerPlan

  // ----- the engine -----

  /** A live container; `shares` is the instance whose network namespace it was created in. */
  datatype Instance = Instance(id: nat, made: Definition, shares: Option<nat>, running: bool)

  /** Live containers by name, and the next instance id. */
  datatype World = World(live: map<string, Instance>, next: nat)

  datatype Call = RemoveIt(name: string) | CreateIt(name: string, made: Definition) | StartIt(name: string)

  function TargetOf(d: Definition): Option<string> {
    if d.network.Share? then Some(d.network.target) else None
  }

  predicate Runs(w: World, id: nat) {
    exists m :: m in w.live && w.live[m].id == id && w.live[m].running
  }

  /** The engine refuses to create a container under a live name or in the namespace of one that is
      not there, and to start one whose namespace does not run. */
  predicate Accepts(w: World, c: Call) {
    match c
    case RemoveIt(_) => true
    case CreateIt(name, made) => name !in w.live && (TargetOf(made).Some? ==> TargetOf(made).value in w.live)
    case StartIt(name) => name in w.live && (w.live[name].shares.Some? ==> Runs(w, w.live[name].shares.value))
  }

  function Apply(w: World, c: Call): World {
    if !Accepts(w, c) then w
    else
      match c
      case RemoveIt(name) => w.(live := w.live - {name})
      case CreateIt(name, made) =>
        var target := if TargetOf(made).Some? then Some(w.live[TargetOf(made).value].id) else None;
        World(w.live[name := Instance(w.next, made, target, false)], w.next + 1)
      case StartIt(name) => w.(live := w.live[name := w.live[name].(running := true)])
  }

  function Run(w: World, calls: seq<Call>): World {
    if calls == [] then w else Apply(Run(w, calls[..|calls| - 1]), calls[|calls| - 1])
  }

  ghost predicate AllAccepted(w: World, calls: seq<Call>) {
    forall k :: 0 <= k < |calls| ==> Accepts(Run(w, calls[..k]), calls[k])
  }

  lemma {:induction false} RunAppend(w: World, a: seq<Call>, b: seq<Call>)
    ensures Run(w, a + b) == Run(Run(w, a), b)
  {
    if b == [] {
      assert a + b == a;
    } else {
      assert (a + b)[..|a + b| - 1] == a + b[..|b| - 1];
      RunAppend(w, a, b[..|b| - 1]);
    }
  }

  lemma AcceptedNext(w: World, calls: seq<Call>, c: Call)
    ensures AllAccepted(w, calls + [c]) <==> AllAccepted(w, calls) && Accepts(Run(w, calls), c)
    ensures Run(w, calls + [c]) == Apply(Run(w, calls), c)
  {
    var all := calls + [c];
    assert all[..|calls|] == calls;
    forall k | 0 <= k < |calls| ensures all[..k] == calls[..k] && all[k] == calls[k] {}
  }

  lemma AcceptedPrefix(w: World, calls: seq<Call>, k: nat)
    requires AllAccepted(w, calls) && k <= |calls|
    ensures AllAccepted(w, calls[..k])
  {
    forall j | 0 <= j < k ensures calls[..k][..j] == calls[..j] {}
  }

  // ----- the calls of a plan -----

  type Definitions = map<string, Definition>

  /** What the executor is given: the topological order, the decisions, the definitions, and the
      observed containers that are no longer desired. */
  datatype Plan = Plan(order: seq<string>, decisions: Decisions, definitions: Definitions, orphans: seq<string>)

  function RebuiltNames(d: Decisions): set<string> {
    set n | n in d && Rebuilt(d[n])
  }

  /** `recreate_steps`: the (re)created services in topological order. */
  function Steps(p: Plan): seq<string> {
    Keeping(p.order, RebuiltNames(p.decisions))
  }

  /** Orphans go first, then the containers to be recreated, dependents before dependencies. */
  function Removals(p: Plan): seq<string> {
    p.orphans + Reverse(Steps(p))
  }

  /** A name whose lookup raises, for whatever reason, is passed over. */
  function Found(names: seq<string>, skipped: set<string>): seq<string> {
    Keeping(names, (set n | n in names) - skipped)
  }

  function RemoveCalls(names: seq<string>): seq<Call> {
    seq(|names|, k requires 0 <= k < |names| => RemoveIt(names[k]))
  }

  function CreateCalls(names: seq<string>, definitions: Definitions): seq<Call>
    requires forall n :: n in names ==> n in definitions
  {
    if names == [] then []
    else
      var last := names[|names| - 1];
      CreateCalls(names[..|names| - 1], definitions) + [CreateIt(last, definitions[last]), StartIt(last)]
  }

  function Calls(p: Plan, skipped: set<string>): seq<Call>
    requires Shaped(p)
  {
    RemoveCalls(Found(Removals(p), skipped)) + CreateCalls(Steps(p), p.definitions)
  }

  /** One decision and one definition for each ordered service, and each name once. */
  ghost predicate Shaped(p: Plan) {
    && p.decisions.Keys == p.definitions.Keys
    && Distinct(p.order) && (forall n :: n in p.order <==> n in p.decisions)
    && Distinct(p.orphans) && (forall n :: n in p.orphans ==> n !in p.decisions)
  }

  /** A namespace target is another service placed earlier, and is kept whenever its sharer is. */
  ghost predicate Coherent(p: Plan) {
    && Shaped(p)
    && forall n :: n in p.decisions && TargetOf(p.definitions[n]).Some? ==>
         var t := TargetOf(p.definitions[n]).value;
         t in p.decisions && Before(p.order, t, n) && (p.decisions[n].Keep? ==> p.decisions[t].Keep?)
  }

  /** The container lives in exactly the namespace its definition asks for, that of a live instance. */
  ghost predicate Attached(w: World, n: string)
    requires n in w.live
  {
    match TargetOf(w.live[n].made)
    case None => w.live[n].shares == None
    case Some(t) => t in w.live && w.live[n].shares == Some(w.live[t].id)
  }

  /** Instance ids are given out once. */
  ghost predicate Numbered(w: World) {
    && (forall n :: n in w.live ==> w.live[n].id < w.next && (w.live[n].shares.Some? ==> w.live[n].shares.value < w.next))
    && (forall m, n :: m in w.live && n in w.live && w.live[m].id == w.live[n].id ==> m == n)
  }

  /** What the plan takes for granted: kept containers are as defined, run and are attached. */
  ghost predicate Fits(w: World, p: Plan)
    requires Coherent(p)
  {
    && Numbered(w)
    && forall n :: n in p.decisions && p.decisions[n].Keep? ==>
         n in w.live && w.live[n].running && w.live[n].made == p.definitions[n] && Attached(w, n)
  }

  // ----- every prefix of the trace -----

  function Gone(calls: seq<Call>): set<string> {
    set c | c in calls && c.RemoveIt? :: c.name
  }

  function Made(calls: seq<Call>): set<string> {
    set c | c in calls && c.CreateIt? :: c.name
  }

  ghost predicate Goes(p: Plan, n: string) {
    n in p.orphans || (n in p.decisions && Rebuilt(p.decisions[n]))
  }

  ghost predicate MayFollow(p: Plan, calls: seq<Call>, c: Call) {
    match c
    case RemoveIt(n) => Goes(p, n) && Made(calls) == {}
    case CreateIt(n, d) => n in p.decisions && Rebuilt(p.decisions[n]) && n in p.definitions && d == p.definitions[n]
    case StartIt(n) => n in Made(calls)
  }

  /** Calls as the executor makes them: removals first, then creations, each started afterwards. */
  ghost predicate Conforms(p: Plan, calls: seq<Call>) {
    forall k :: 0 <= k < |calls| ==> MayFollow(p, calls[..k], calls[k])
  }

  lemma ConformsNext(p: Plan, calls: seq<Call>, c: Call)
    ensures Conforms(p, calls + [c]) <==> Conforms(p, calls) && MayFollow(p, calls, c)
    ensures Made(calls + [c]) == Made(calls) + (if c.CreateIt? then {c.name} else {})
    ensures Gone(calls + [c]) == Gone(calls) + (if c.RemoveIt? then {c.name} else {})
  {
    var all := calls + [c];
    assert all[..|calls|] == calls;
    forall k | 0 <= k < |calls| ensures all[..k] == calls[..k] && all[k] == calls[k] {}
  }

  /** The world after removing `gone` and creating `made`. */
  ghost predicate At(w0: World, p: Plan, w: World, gone: set<string>, made: set<string>)
    requires Shaped(p)
  {
    && w.next >= w0.next && Numbered(w)
    && (forall n :: n in w.live <==> n in made || (n in w0.live && n !in gone))
    && (forall n :: n in made && n in w0.live ==> n in gone)
    && (forall n :: n in made ==>
          n in w.live && n in p.decisions && w.live[n].id >= w0.next && w.live[n].made == p.definitions[n] && Attached(w, n))
    && (forall n :: n in w.live && n !in made ==> w.live[n] == w0.live[n])
  }

  lemma AtNext(w0: World, p: Plan, calls: seq<Call>, w: World, c: Call)
    requires Shaped(p) && At(w0, p, w, Gone(calls), Made(calls))
    requires MayFollow(p, calls, c) && Accepts(w, c)
    ensures At(w0, p, Apply(w, c), Gone(calls + [c]), Made(calls + [c]))
  {
    ConformsNext(p, calls, c);
    hide Gone, Made, At, Shaped, Runs, Numbered;
    match c
    case RemoveIt(n) =>
      assert Made(calls) == {} && Made(calls + [c]) == {};
      RemovedAt(w0, p, w, Gone(calls), n);
    case CreateIt(n, d) =>
      assert c == CreateIt(n, p.definitions[n]) && Gone(calls + [c]) == Gone(calls);
      CreatedAt(w0, p, w, Gone(calls), Made(calls), n);
    case StartIt(n) =>
      assert Made(calls + [c]) == Made(calls) && Gone(calls + [c]) == Gone(calls);
      StartedAt(w0, p, w, Gone(calls), Made(calls), n);
  }

  lemma RemovedAt(w0: World, p: Plan, w: World, gone: set<string>, n: string)
    requires Shaped(p) && At(w0, p, w, gone, {})
    ensures At(w0, p, Apply(w, RemoveIt(n)), gone + {n}, {})
  {
  }

  lemma CreatedAt(w0: World, p: Plan, w: World, gone: set<string>, made: set<string>, n: string)
    requires Shaped(p) && At(w0, p, w, gone, made) && n in p.decisions && Accepts(w, CreateIt(n, p.definitions[n]))
    ensures At(w0, p, Apply(w, CreateIt(n, p.definitions[n])), gone, made + {n})
  {
    var d := p.definitions[n];
    var out := Apply(w, CreateIt(n, d));
    NumberedNext(w, CreateIt(n, d));
    NewAttached(w, n, d);
    NewOnly(w, n, d);
    hide Apply, Accepts, Runs, Numbered, Attached, Shaped;
    forall m | m in made ensures m in out.live && Attached(out, m) {
      StillAttached(w, out, m);
    }
  }

  lemma NewOnly(w: World, n: string, d: Definition)
    requires Accepts(w, CreateIt(n, d))
    ensures var out := Apply(w, CreateIt(n, d));
      n !in w.live && out.live.Keys == w.live.Keys + {n} && forall m :: m in w.live ==> out.live[m] == w.live[m]
  {
    hide Runs;
  }

  lemma NewAttached(w: World, n: string, d: Definition)
    requires Accepts(w, CreateIt(n, d))
    ensures var out := Apply(w, CreateIt(n, d));
      n in out.live && out.live[n].id == w.next && out.live[n].made == d && Attached(out, n)
  {
  }

  /** Being attached is a matter of instances only. */
  lemma StillAttached(w: World, out: World, n: string)
    requires n in w.live && Attached(w, n) && w.live.Keys <= out.live.Keys
    requires out.live[n].made == w.live[n].made && out.live[n].shares == w.live[n].shares
    requires forall t :: t in w.live ==> out.live[t].id == w.live[t].id
    ensures Attached(out, n)
  {
  }

  lemma NumberedNext(w: World, c: Call)
    requires Numbered(w)
    ensures Numbered(Apply(w, c)) && Apply(w, c).next >= w.next
  {
    hide Runs;
  }

  lemma StartedAt(w0: World, p: Plan, w: World, gone: set<string>, made: set<string>, n: string)
    requires Shaped(p) && At(w0, p, w, gone, made) && n in made
    ensures At(w0, p, Apply(w, StartIt(n)), gone, made)
  {
    hide Shaped, Runs, Numbered, Attached;
    var out := Apply(w, StartIt(n));
    NumberedNext(w, StartIt(n));
    forall m | m in made ensures m in out.live && Attached(out, m) {
      StillAttached(w, out, m);
    }
  }

  lemma {:induction false} AtEvery(w0: World, p: Plan, calls: seq<Call>)
    requires Shaped(p) && Numbered(w0) && Conforms(p, calls) && AllAccepted(w0, calls)
    ensures At(w0, p, Run(w0, calls), Gone(calls), Made(calls))
  {
    hide *;
    if calls == [] {
      AtStart(w0, p);
    } else {
      var init, last := calls[..|calls| - 1], calls[|calls| - 1];
      assert calls == init + [last];
      ConformsNext(p, init, last);
      AcceptedNext(w0, init, last);
      AtEvery(w0, p, init);
      AtNext(w0, p, init, Run(w0, init), last);
    }
  }

  lemma AtStart(w0: World, p: Plan)
    requires Shaped(p) && Numbered(w0)
    ensures At(w0, p, Run(w0, []), Gone([]), Made([]))
  {
  }

  // ----- what the calls of a plan are -----

  lemma InSteps(p: Plan, n: string)
    requires Shaped(p)
    ensures n in Steps(p) <==> n in p.decisions && Rebuilt(p.decisions[n])
    ensures n in Removals(p) <==> Goes(p, n)
    ensures Distinct(Steps(p)) && Distinct(Removals(p))
  {
    KeepingDistinct(p.order, RebuiltNames(p.decisions));
    ReverseFlips(Steps(p), n, n);
    forall x | x in p.orphans ensures x !in Reverse(Steps(p)) {
      ReverseFlips(Steps(p), x, x);
    }
    DistinctParts(p.orphans, Reverse(Steps(p)));
  }

  lemma {:induction false} RemovalsConform(p: Plan, names: seq<string>)
    requires forall n :: n in names ==> Goes(p, n)
    ensures Conforms(p, RemoveCalls(names)) && Made(RemoveCalls(names)) == {}
    ensures Gone(RemoveCalls(names)) == set n | n in names
    ensures forall w :: AllAccepted(w, RemoveCalls(names))
  {
    if names != [] {
      var init, last := names[..|names| - 1], names[|names| - 1];
      assert names == init + [last];
      assert RemoveCalls(names) == RemoveCalls(init) + [RemoveIt(last)];
      RemovalsConform(p, init);
      ConformsNext(p, RemoveCalls(init), RemoveIt(last));
      forall w ensures AllAccepted(w, RemoveCalls(names)) {
        AcceptedNext(w, RemoveCalls(init), RemoveIt(last));
      }
    }
  }

  /** The calls up to the `j`-th creation. */
  function Upto(p: Plan, skipped: set<string>, j: nat): seq<Call>
    requires Shaped(p) && j <= |Steps(p)|
  {
    RemoveCalls(Found(Removals(p), skipped)) + CreateCalls(Steps(p)[..j], p.definitions)
  }

  lemma UptoNext(p: Plan, skipped: set<string>, j: nat)
    requires Shaped(p) && j < |Steps(p)|
    ensures Steps(p)[j] in p.definitions
    ensures var n := Steps(p)[j];
      Upto(p, skipped, j + 1) == (Upto(p, skipped, j) + [CreateIt(n, p.definitions[n])]) + [StartIt(n)]
  {
    var names := Steps(p)[..j + 1];
    assert Steps(p)[j] in Steps(p);
    assert names[..|names| - 1] == Steps(p)[..j];
  }

  lemma {:induction false} UptoConforms(p: Plan, skipped: set<string>, j: nat)
    requires Shaped(p) && j <= |Steps(p)|
    ensures var calls := Upto(p, skipped, j);
      && Conforms(p, calls)
      && Made(calls) == (set n | n in Steps(p)[..j])
      && Gone(calls) == set n | n in Found(Removals(p), skipped)
  {
    if j == 0 {
      NoCreations(p, skipped);
    } else {
      hide Upto, Conforms, Made, Gone, Found, Steps, Removals;
      UptoConforms(p, skipped, j - 1);
      UptoNext(p, skipped, j - 1);
      var calls, n := Upto(p, skipped, j - 1), Steps(p)[j - 1];
      InSteps(p, n);
      assert n in Steps(p);
      assert Steps(p)[..j] == Steps(p)[..j - 1] + [n];
      CreationConforms(p, calls, n);
    }
  }

  lemma CreationConforms(p: Plan, calls: seq<Call>, n: string)
    requires Conforms(p, calls) && n in p.decisions && Rebuilt(p.decisions[n]) && n in p.definitions
    ensures var more := (calls + [CreateIt(n, p.definitions[n])]) + [StartIt(n)];
      Conforms(p, more) && Made(more) == Made(calls) + {n} && Gone(more) == Gone(calls)
  {
    hide Conforms, Made, Gone;
    ConformsNext(p, calls, CreateIt(n, p.definitions[n]));
    ConformsNext(p, calls + [CreateIt(n, p.definitions[n])], StartIt(n));
  }

  lemma CallsConform(p: Plan, skipped: set<string>)
    requires Shaped(p)
    ensures var calls := Calls(p, skipped);
      && Conforms(p, calls)
      && Made(calls) == (set n | n in Steps(p))
      && Gone(calls) == set n | n in Found(Removals(p), skipped)
    ensures Calls(p, skipped) == Upto(p, skipped, |Steps(p)|)
  {
    UptoConforms(p, skipped, |Steps(p)|);
    assert Steps(p)[..|Steps(p)|] == Steps(p);
  }

  lemma ConformsPrefix(p: Plan, calls: seq<Call>, k: nat)
    requires Conforms(p, calls) && k <= |calls|
    ensures Conforms(p, calls[..k])
    ensures Made(calls[..k]) <= Made(calls) && Gone(calls[..k]) <= Gone(calls)
  {
    forall j | 0 <= j < k ensures calls[..k][..j] == calls[..j] {}
  }

  lemma AtPrefix(w0: World, p: Plan, skipped: set<string>, k: nat)
    requires Shaped(p) && Numbered(w0) && k <= |Calls(p, skipped)| && AllAccepted(w0, Calls(p, skipped)[..k])
    ensures var calls := Calls(p, skipped)[..k];
      && At(w0, p, Run(w0, calls), Gone(calls), Made(calls))
      && (forall n :: n in Gone(calls) ==> Goes(p, n) && n !in skipped)
      && (forall n :: n in Made(calls) ==> n in p.decisions && Rebuilt(p.decisions[n]))
  {
    CallsConform(p, skipped);
    ConformsPrefix(p, Calls(p, skipped), k);
    AtEvery(w0, p, Calls(p, skipped)[..k]);
    forall n ensures n in Removals(p) <==> Goes(p, n) { InSteps(p, n); }
    forall n ensures n in Steps(p) <==> n in p.decisions && Rebuilt(p.decisions[n]) { InSteps(p, n); }
  }

  // ----- the properties -----

  /** An instance from before the deploy that the plan means to replace. */
  ghost predicate Old(w0: World, p: Plan, w: World, n: string) {
    n in p.decisions && Rebuilt(p.decisions[n]) && n in w.live && n in w0.live && w.live[n] == w0.live[n]
  }

  /** Kept containers are untouched and attached; any other desired container is attached and as
      defined, or is an old instance. */
  ghost predicate Sound(w0: World, p: Plan, w: World)
    requires Shaped(p)
  {
    && (forall n :: n in p.decisions && p.decisions[n].Keep? ==>
          n in w.live && n in w0.live && w.live[n] == w0.live[n] && Attached(w, n))
    && (forall n :: n in p.decisions && n in w.live ==>
          Old(w0, p, w, n) || (Attached(w, n) && w.live[n].made == p.definitions[n]))
  }

  /** At every point of a deploy, an abort at any call included, and whatever the engine fails to
      find: kept containers are untouched, and no desired container dangles but an old instance that
      is waiting for its removal or was passed over. */
  lemma DeployNeverDangles(w0: World, p: Plan, skipped: set<string>, k: nat)
    requires Coherent(p) && Fits(w0, p) && k <= |Calls(p, skipped)| && AllAccepted(w0, Calls(p, skipped)[..k])
    ensures Sound(w0, p, Run(w0, Calls(p, skipped)[..k]))
  {
    AtPrefix(w0, p, skipped, k);
    var calls := Calls(p, skipped)[..k];
    hide Calls, Gone, Made, AllAccepted, Run, Before;
    SoundAt(w0, p, Run(w0, calls), Gone(calls), Made(calls));
  }

  lemma SoundAt(w0: World, p: Plan, w: World, gone: set<string>, made: set<string>)
    requires Coherent(p) && Fits(w0, p) && At(w0, p, w, gone, made)
    requires forall n :: n in gone ==> Goes(p, n)
    requires forall n :: n in made ==> n in p.decisions && Rebuilt(p.decisions[n])
    ensures Sound(w0, p, w)
  {
    hide Before, Numbered;
    forall n | n in p.decisions && p.decisions[n].Keep?
      ensures n in w.live && n in w0.live && w.live[n] == w0.live[n] && Attached(w, n)
    {
      assert Attached(w0, n) && n !in gone && n !in made;
    }
  }

  /** No container that the plan creates anew was passed over while it was there. */
  ghost predicate NothingInTheWay(w0: World, p: Plan, skipped: set<string>) {
    forall n :: n in Steps(p) && n in skipped ==> n !in w0.live
  }

  /** The `j` services created first run. */
  lemma {:induction false} CreationsAccepted(w0: World, p: Plan, skipped: set<string>, j: nat)
    requires Coherent(p) && Fits(w0, p) && NothingInTheWay(w0, p, skipped) && j <= |Steps(p)|
    ensures var calls := Upto(p, skipped, j);
      && AllAccepted(w0, calls)
      && forall n :: n in Steps(p)[..j] ==> n in Run(w0, calls).live && Run(w0, calls).live[n].running
  {
    hide *;
    IsShaped(p);
    if j == 0 {
      NoCreations(p, skipped);
    } else {
      CreationsAccepted(w0, p, skipped, j - 1);
      CreationAccepted(w0, p, skipped, j - 1);
    }
  }

  lemma IsShaped(p: Plan)
    requires Coherent(p)
    ensures Shaped(p)
  {
  }

  lemma NoCreations(p: Plan, skipped: set<string>)
    requires Shaped(p)
    ensures Upto(p, skipped, 0) == RemoveCalls(Found(Removals(p), skipped)) && Conforms(p, Upto(p, skipped, 0))
    ensures forall w :: AllAccepted(w, Upto(p, skipped, 0))
    ensures Made(Upto(p, skipped, 0)) == {} && Gone(Upto(p, skipped, 0)) == set n | n in Found(Removals(p), skipped)
  {
    FoundGoes(p, skipped);
    assert CreateCalls(Steps(p)[..0], p.definitions) == [];
    hide Steps, Removals, Found, Shaped, Conforms, AllAccepted, Made, Gone;
    assert RemoveCalls(Found(Removals(p), skipped)) + [] == RemoveCalls(Found(Removals(p), skipped));
    RemovalsConform(p, Found(Removals(p), skipped));
  }

  lemma FoundGoes(p: Plan, skipped: set<string>)
    requires Shaped(p)
    ensures forall n :: n in Found(Removals(p), skipped) ==> Goes(p, n)
  {
    hide Removals, Shaped, Goes;
    forall n | n in Found(Removals(p), skipped) ensures Goes(p, n) { InSteps(p, n); }
  }

  lemma CreationAccepted(w0: World, p: Plan, skipped: set<string>, j: nat)
    requires Coherent(p) && Fits(w0, p) && NothingInTheWay(w0, p, skipped) && j < |Steps(p)|
    requires var calls := Upto(p, skipped, j);
      && AllAccepted(w0, calls)
      && forall n :: n in Steps(p)[..j] ==> n in Run(w0, calls).live && Run(w0, calls).live[n].running
    ensures var calls := Upto(p, skipped, j + 1);
      && AllAccepted(w0, calls)
      && forall n :: n in Steps(p)[..j + 1] ==> n in Run(w0, calls).live && Run(w0, calls).live[n].running
  {
    hide Upto, Fits, Steps, Found, Removals, Conforms, At, NothingInTheWay, Gone, Made, AllAccepted, Run, Before, Distinct;
    var calls, n := Upto(p, skipped, j), Steps(p)[j];
    var w := Run(w0, calls);
    UptoConforms(p, skipped, j);
    assert Numbered(w0) by { FitsNumbered(w0, p); }
    AtEvery(w0, p, calls);
    UptoNext(p, skipped, j);
    NextFits(w0, p, skipped, w, j);
    hide *;
    CreatedAndStarted(w0, calls, n, p.definitions[n]);
    assert Steps(p)[..j + 1] == Steps(p)[..j] + [n];
  }

  lemma FitsNumbered(w: World, p: Plan)
    requires Coherent(p) && Fits(w, p)
    ensures Numbered(w)
  {
  }

  lemma CreatedAndStarted(w0: World, calls: seq<Call>, n: string, d: Definition)
    requires var w := Run(w0, calls);
      AllAccepted(w0, calls) && Accepts(w, CreateIt(n, d)) && Accepts(Apply(w, CreateIt(n, d)), StartIt(n))
    ensures var w, more := Run(w0, calls), (calls + [CreateIt(n, d)]) + [StartIt(n)];
      && AllAccepted(w0, more) && n in Run(w0, more).live && Run(w0, more).live[n].running
      && forall m :: m in w.live && w.live[m].running ==> m in Run(w0, more).live && Run(w0, more).live[m].running
  {
    hide AllAccepted, Run;
    AcceptedNext(w0, calls, CreateIt(n, d));
    AcceptedNext(w0, calls + [CreateIt(n, d)], StartIt(n));
  }

  lemma NextFits(w0: World, p: Plan, skipped: set<string>, w: World, j: nat)
    requires Coherent(p) && Fits(w0, p) && NothingInTheWay(w0, p, skipped) && j < |Steps(p)|
    requires At(w0, p, w, set n | n in Found(Removals(p), skipped), set n | n in Steps(p)[..j])
    requires forall n :: n in Steps(p)[..j] ==> n in w.live && w.live[n].running
    ensures Steps(p)[j] in p.definitions
    ensures var n := Steps(p)[j];
      var create := CreateIt(n, p.definitions[n]);
      Accepts(w, create) && Accepts(Apply(w, create), StartIt(n))
  {
    hide Steps, Removals, Found, Distinct, Before, Fits, Accepts, Apply, Runs;
    var n := Steps(p)[j];
    assert n in Steps(p);
    InSteps(p, n);
    NameIsFree(w0, p, skipped, w, j);
    if TargetOf(p.definitions[n]).Some? {
      TargetRuns(w0, p, skipped, w, j, TargetOf(p.definitions[n]).value);
    }
    hide Coherent, Shaped, At, NothingInTheWay;
    CreateAndStart(w, n, p.definitions[n]);
  }

  lemma NameIsFree(w0: World, p: Plan, skipped: set<string>, w: World, j: nat)
    requires Shaped(p) && NothingInTheWay(w0, p, skipped) && j < |Steps(p)|
    requires At(w0, p, w, set n | n in Found(Removals(p), skipped), set n | n in Steps(p)[..j])
    ensures Steps(p)[j] !in w.live
  {
    var n := Steps(p)[j];
    InSteps(p, n);
    hide Steps, Removals, Found, Shaped, Numbered;
    assert n in Steps(p);
    IsFound(Removals(p), skipped, n);
  }

  /** A free name and a running target are all it takes. */
  lemma CreateAndStart(w: World, n: string, d: Definition)
    requires n !in w.live
    requires TargetOf(d).Some? ==> TargetOf(d).value in w.live && w.live[TargetOf(d).value].running
    ensures Accepts(w, CreateIt(n, d)) && Accepts(Apply(w, CreateIt(n, d)), StartIt(n))
  {
    if TargetOf(d).Some? {
      var t, out := TargetOf(d).value, Apply(w, CreateIt(n, d));
      assert t in out.live && out.live[t] == w.live[t];
      assert Runs(out, out.live[n].shares.value);
    }
  }

  lemma TargetRuns(w0: World, p: Plan, skipped: set<string>, w: World, j: nat, t: string)
    requires Coherent(p) && Fits(w0, p) && j < |Steps(p)|
    requires At(w0, p, w, set n | n in Found(Removals(p), skipped), set n | n in Steps(p)[..j])
    requires forall n :: n in Steps(p)[..j] ==> n in w.live && w.live[n].running
    requires TargetOf(p.definitions[Steps(p)[j]]) == Some(t) && Steps(p)[j] in p.decisions
    ensures t in w.live && w.live[t].running
  {
    var n := Steps(p)[j];
    InSteps(p, t);
    if Rebuilt(p.decisions[t]) {
      KeepingOrder(p.order, RebuiltNames(p.decisions), t, n);
      var a, b :| 0 <= a < b < |Steps(p)| && Steps(p)[a] == t && Steps(p)[b] == n;
      assert b == j;
      assert t in Steps(p)[..j];
    } else {
      assert t !in Steps(p) && t !in Removals(p);
      assert forall x :: x in Steps(p)[..j] ==> x in Steps(p);
    }
  }

  /** The engine accepts every call of a coherent plan if and only if no container that is to be
      created was passed over while it was there. */
  lemma EveryCallIsAcceptedIff(w0: World, p: Plan, skipped: set<string>)
    requires Coherent(p) && Fits(w0, p)
    ensures AllAccepted(w0, Calls(p, skipped)) <==> NothingInTheWay(w0, p, skipped)
  {
    CallsConform(p, skipped);
    if NothingInTheWay(w0, p, skipped) {
      CreationsAccepted(w0, p, skipped, |Steps(p)|);
    }
    if n :| n in Steps(p) && n in skipped && n in w0.live {
      var calls := Calls(p, skipped);
      assert n in Made(calls);
      var k :| 0 <= k < |calls| && calls[k].CreateIt? && calls[k].name == n;
      if AllAccepted(w0, calls) {
        AcceptedPrefix(w0, calls, k);
        AtPrefix(w0, p, skipped, k);
        assert false;
      }
    }
  }

  /** A deploy that runs to its end leaves every service live, running, attached and as defined, and
      kept ones untouched; every orphan is gone that was found, and nothing else changes. */
  lemma CompleteDeploy(w0: World, p: Plan, skipped: set<string>)
    requires Coherent(p) && Fits(w0, p) && NothingInTheWay(w0, p, skipped)
    ensures var w := Run(w0, Calls(p, skipped));
      && (forall n :: n in p.decisions ==>
            n in w.live && w.live[n].running && w.live[n].made == p.definitions[n] && Attached(w, n) &&
            (p.decisions[n].Keep? <==> n in w0.live && w.live[n] == w0.live[n]))
      && (forall n :: n in p.orphans && n !in skipped ==> n !in w.live)
      && (forall n :: n !in p.decisions && (n !in p.orphans || n in skipped) ==>
            (n in w.live <==> n in w0.live) && (n in w.live ==> w.live[n] == w0.live[n]))
  {
    var calls := Calls(p, skipped);
    CallsConform(p, skipped);
    EveryCallIsAcceptedIff(w0, p, skipped);
    CreationsAccepted(w0, p, skipped, |Steps(p)|);
    AtEvery(w0, p, calls);
    assert Steps(p)[..|Steps(p)|] == Steps(p);
    hide *;
    EndOfDeploy(w0, p, skipped, Run(w0, calls), Gone(calls), Made(calls));
  }

  lemma EndOfDeploy(w0: World, p: Plan, skipped: set<string>, w: World, gone: set<string>, made: set<string>)
    requires Coherent(p) && Fits(w0, p) && At(w0, p, w, gone, made)
    requires gone == (set n | n in Found(Removals(p), skipped)) && made == (set n | n in Steps(p))
    requires forall n :: n in Steps(p) ==> n in w.live && w.live[n].running
    ensures forall n :: n in p.decisions ==>
      n in w.live && w.live[n].running && w.live[n].made == p.definitions[n] && Attached(w, n) &&
      (p.decisions[n].Keep? <==> n in w0.live && w.live[n] == w0.live[n])
    ensures forall n :: n in p.orphans && n !in skipped ==> n !in w.live
    ensures forall n :: n !in p.decisions && (n !in p.orphans || n in skipped) ==>
      (n in w.live <==> n in w0.live) && (n in w.live ==> w.live[n] == w0.live[n])
  {
    hide Steps, Removals, Found, Before, Distinct, Numbered;
    forall n ensures n in Removals(p) <==> Goes(p, n) { InSteps(p, n); }
    forall n ensures n in Steps(p) <==> n in p.decisions && Rebuilt(p.decisions[n]) { InSteps(p, n); }
    forall n ensures n in Found(Removals(p), skipped) <==> n in Removals(p) && n !in skipped { IsFound(Removals(p), skipped, n); }
    SoundAt(w0, p, w, gone, made);
    EndAt(w0, p, skipped, w, gone, made);
  }

  lemma IsFound(names: seq<string>, skipped: set<string>, n: string)
    ensures n in Found(names, skipped) <==> n in names && n !in skipped
  {
  }

  lemma EndAt(w0: World, p: Plan, skipped: set<string>, w: World, gone: set<string>, made: set<string>)
    requires Coherent(p) && Fits(w0, p) && At(w0, p, w, gone, made) && Sound(w0, p, w)
    requires forall n :: n in gone <==> Goes(p, n) && n !in skipped
    requires forall n :: n in made <==> n in p.decisions && Rebuilt(p.decisions[n])
    requires forall n :: n in made ==> n in w.live && w.live[n].running
    ensures forall n :: n in p.decisions ==>
      n in w.live && w.live[n].running && w.live[n].made == p.definitions[n] && Attached(w, n) &&
      (p.decisions[n].Keep? <==> n in w0.live && w.live[n] == w0.live[n])
    ensures forall n :: n in p.orphans && n !in skipped ==> n !in w.live
    ensures forall n :: n !in p.decisions && (n !in p.orphans || n in skipped) ==>
      (n in w.live <==> n in w0.live) && (n in w.live ==> w.live[n] == w0.live[n])
  {
    hide Before, Distinct, Attached;
    NumberedFrom(w0, p);
  }

  lemma NumberedFrom(w: World, p: Plan)
    requires Coherent(p) && Fits(w, p)
    ensures forall n :: n in w.live ==> w.live[n].id < w.next
  {
    hide Before, Distinct, Attached;
  }
}
