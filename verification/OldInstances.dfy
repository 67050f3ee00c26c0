/** Which old instances lose their network namespace in the course of a deploy. */
module OldInstances {
  import opened Wrappers
  import opened Graphs
  import opened Sublists
  import opened ContainerPlan
  import opened DeployTrace

  /** The instance whose namespace the container lives in is gone. */
  ghost predicate Dangling(w: World, n: string) {
    n in w.live && w.live[n].shares.Some? && forall m :: m in w.live ==> w.live[m].id != w.live[n].shares.value
  }

  ghost predicate DanglesAt(w0: World, p: Plan, skipped: set<string>, n: string, k: nat)
    requires Shaped(p) && k <= |Calls(p, skipped)|
  {
    var calls := Calls(p, skipped)[..k];
    && AllAccepted(w0, calls)
    && n in w0.live && n in Run(w0, calls).live && Run(w0, calls).live[n].id == w0.live[n].id
    && Dangling(Run(w0, calls), n)
  }

  /** The old instance dangles at some point that the trace reaches. */
  ghost predicate DanglesSometime(w0: World, p: Plan, skipped: set<string>, n: string)
    requires Shaped(p)
  {
    exists k :: 0 <= k <= |Calls(p, skipped)| && DanglesAt(w0, p, skipped, n, k)
  }

  /** `r` is removed before the recreated service `n`: it is an orphan, or a recreated service that
      the new order places after `n`. */
  ghost predicate RemovedFirst(p: Plan, r: string, n: string) {
    r in p.orphans || (r in p.decisions && Rebuilt(p.decisions[r]) && Before(p.order, n, r))
  }

  lemma BeforeInRemovals(p: Plan, r: string, n: string)
    requires Shaped(p) && n in Steps(p)
    ensures Before(Removals(p), r, n) <==> RemovedFirst(p, r, n)
  {
    var steps := Steps(p);
    InSteps(p, n);
    ReverseFlips(steps, n, n);
    ReverseFlips(steps, r, n);
    BeforeInSuffix(p.orphans, Reverse(steps), r, n);
    InSteps(p, r);
    if r in steps {
      KeepingOrder(p.order, RebuiltNames(p.decisions), n, r);
    } else {
      assert !Before(steps, n, r);
    }
  }

  lemma DanglesWhen(w0: World, p: Plan, skipped: set<string>, n: string, r: string, k: nat)
    requires Shaped(p) && Numbered(w0) && k <= |Calls(p, skipped)|
    requires n in w0.live && r in w0.live && w0.live[n].shares == Some(w0.live[r].id)
    ensures DanglesAt(w0, p, skipped, n, k) <==>
      var calls := Calls(p, skipped)[..k];
      AllAccepted(w0, calls) && r in Gone(calls) && n !in Gone(calls)
  {
    var calls := Calls(p, skipped)[..k];
    if AllAccepted(w0, calls) {
      AtPrefix(w0, p, skipped, k);
      assert DanglesAt(w0, p, skipped, n, k) <==> Still(w0, Run(w0, calls), n) && Dangling(Run(w0, calls), n);
      hide *;
      DanglesIn(w0, p, Run(w0, calls), Gone(calls), Made(calls), n, r);
    }
  }

  ghost predicate Still(w0: World, w: World, n: string)
    requires n in w0.live
  {
    n in w.live && w.live[n].id == w0.live[n].id
  }

  lemma DanglesIn(w0: World, p: Plan, w: World, gone: set<string>, made: set<string>, n: string, r: string)
    requires Shaped(p) && Numbered(w0) && At(w0, p, w, gone, made)
    requires n in w0.live && r in w0.live && w0.live[n].shares == Some(w0.live[r].id)
    ensures Still(w0, w, n) && Dangling(w, n) <==> r in gone && n !in gone
  {
    if r in gone {
      forall m | m in w.live ensures w.live[m].id != w0.live[r].id {
        if m !in made { assert w.live[m] == w0.live[m]; }
      }
    } else {
      assert r in w.live && w.live[r] == w0.live[r];
    }
  }

  lemma PrefixesOfCalls(p: Plan, skipped: set<string>, k: nat)
    requires Shaped(p) && k <= |Found(Removals(p), skipped)|
    ensures k <= |Calls(p, skipped)| && Calls(p, skipped)[..k] == RemoveCalls(Found(Removals(p), skipped)[..k])
    ensures Gone(Calls(p, skipped)[..k]) == set n | n in Found(Removals(p), skipped)[..k]
    ensures forall w :: AllAccepted(w, Calls(p, skipped)[..k])
  {
    var names := Found(Removals(p), skipped)[..k];
    forall n | n in names ensures Goes(p, n) {
      assert n in Found(Removals(p), skipped);
      InSteps(p, n);
    }
    RemovalsConform(p, names);
  }

  /** The first point at which `n` has not been removed and `r` has. */
  lemma OnTheWay(p: Plan, skipped: set<string>, n: string, r: string)
    requires Shaped(p) && n in Removals(p)
    ensures var names := Found(Removals(p), skipped);
      (exists k :: 0 <= k <= |names| && r in names[..k] && n !in names[..k]) <==>
        r in Removals(p) && r !in skipped && (n in skipped || Before(Removals(p), r, n))
  {
    var names := Found(Removals(p), skipped);
    var keep := (set x | x in Removals(p)) - skipped;
    InSteps(p, n);
    KeepingDistinct(Removals(p), keep);
    assert Distinct(names) && names[..|names|] == names;
    hide Removals, Steps, Shaped;
    if n in names && r in names {
      KeepingOrder(Removals(p), keep, r, n);
      SplitAt(names, n, r);
    } else if r in names {
      assert r in names[..|names|] && n !in names[..|names|];
    }
  }

  /** The exception is real, and this is all of it: the old instance of a service that is recreated
      dangles at some point of the trace if and only if the container it shares with is removed, and
      `n` itself was passed over or comes later. */
  lemma DoomedDanglesIff(w0: World, p: Plan, skipped: set<string>, n: string, r: string)
    requires Coherent(p) && Fits(w0, p)
    requires n in p.decisions && Rebuilt(p.decisions[n]) && n in w0.live && r in w0.live
    requires w0.live[n].shares == Some(w0.live[r].id)
    ensures DanglesSometime(w0, p, skipped, n) <==> Goes(p, r) && r !in skipped && (n in skipped || RemovedFirst(p, r, n))
  {
    var names := Found(Removals(p), skipped);
    assert Numbered(w0);
    InSteps(p, n);
    InSteps(p, r);
    BeforeInRemovals(p, r, n);
    OnTheWay(p, skipped, n, r);
    hide Coherent, Fits, Found, Removals, Before, DanglesAt, RemovedFirst, Numbered, Calls;
    if k :| 0 <= k <= |names| && r in names[..k] && n !in names[..k] {
      PrefixesOfCalls(p, skipped, k);
      DanglesWhen(w0, p, skipped, n, r, k);
      assert DanglesAt(w0, p, skipped, n, k);
    }
    if k :| 0 <= k <= |Calls(p, skipped)| && DanglesAt(w0, p, skipped, n, k) {
      DanglesWhen(w0, p, skipped, n, r, k);
      GoneByThen(p, skipped, k);
      var m := if k <= |names| then k else |names|;
      assert r in names[..m] && n !in names[..m];
    }
  }

  lemma GoneByThen(p: Plan, skipped: set<string>, k: nat)
    requires Shaped(p) && k <= |Calls(p, skipped)|
    ensures var names := Found(Removals(p), skipped);
      var upto := names[..if k <= |names| then k else |names|];
      Gone(Calls(p, skipped)[..k]) == set n | n in upto
  {
    var names, calls := Found(Removals(p), skipped), Calls(p, skipped);
    if k <= |names| {
      PrefixesOfCalls(p, skipped, k);
    } else {
      PrefixesOfCalls(p, skipped, |names|);
      CallsConform(p, skipped);
      assert calls[..k][..|names|] == calls[..|names|];
      assert Gone(calls[..|names|]) <= Gone(calls[..k]);
      ConformsPrefix(p, calls, k);
      assert names[..|names|] == names;
    }
  }

  const HOLDER := Instance(0, Definition(Bridge, ""), None, true)
  const SHARER := Instance(1, Definition(Share("x"), ""), Some(0), true)

  /** "a" leaves the namespace of "x", which is no longer desired and goes first. */
  lemma OldSharerDangles() returns (w0: World, p: Plan)
    ensures Coherent(p) && Fits(w0, p) && p.orphans == ["x"] && p.order == ["a"]
    ensures w0.live == map["x" := HOLDER, "a" := SHARER] && DanglesSometime(w0, p, {}, "a")
  {
    assert "a"[0] != "x"[0];
    w0 := World(map["x" := HOLDER, "a" := SHARER], 2);
    p := Plan(["a"], map["a" := Recreate], map["a" := Definition(Bridge, "")], ["x"]);
    assert "a" in p.order && "x" in p.orphans;
    DoomedDanglesIff(w0, p, {}, "a", "x");
  }
}
