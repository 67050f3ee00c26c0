/** The executor: it carries out a plan call by call, and what it leaves is a point of the trace. */
module Executor {
  import opened Wrappers
  import opened Graphs
  import opened Sublists
  import opened ContainerPlan
  import opened DeployTrace
  import opened OldInstances

  /** The container engine: lookups of `unreachable` names raise, and `patience` counts the other
      calls it will still answer before it raises. */
  class Engine {
    var world: World
    var patience: nat
    const unreachable: set<string>

    constructor (world: World, patience: nat, unreachable: set<string>)
      ensures this.world == world && this.patience == patience && this.unreachable == unreachable
    {
      this.world, this.patience, this.unreachable := world, patience, unreachable;
    }

    /** Whether `containers.get` returns. */
    method Get(name: string) returns (found: bool)
      ensures found <==> name in world.live && name !in unreachable
    {
      found := name in world.live && name !in unreachable;
    }

    method Do(call: Call) returns (ok: bool)
      modifies this
      ensures ok <==> old(patience) > 0 && Accepts(old(world), call)
      ensures world == if ok then Apply(old(world), call) else old(world)
      ensures patience == if ok then old(patience) - 1 else old(patience)
    {
      ok := patience > 0 && Accepts(world, call);
      if ok {
        world := Apply(world, call);
        patience := patience - 1;
      }
    }
  }

  /** The names whose lookup raises in this deploy. */
  ghost function Unseen(w: World, unreachable: set<string>, names: seq<string>): set<string> {
    set n | n in names && (n in unreachable || n !in w.live)
  }

  lemma InUnseen(w: World, unreachable: set<string>, names: seq<string>, k: nat)
    requires k < |names|
    ensures names[k] in Unseen(w, unreachable, names) <==> names[k] in unreachable || names[k] !in w.live
  {
  }

  lemma {:induction false} RunRemovals(w: World, names: seq<string>)
    ensures var out := Run(w, RemoveCalls(names));
      && (forall n :: n in out.live <==> n in w.live && n !in names)
  {
    if names != [] {
      var init := names[..|names| - 1];
      assert RemoveCalls(names)[..|names| - 1] == RemoveCalls(init);
      assert names == init + [names[|names| - 1]];
      RunRemovals(w, init);
    }
  }

  lemma FoundNext(names: seq<string>, skipped: set<string>, k: nat)
    requires k < |names|
    ensures var keep := (set n | n in names) - skipped;
      && Keeping(names[..k + 1], keep) == Keeping(names[..k], keep) + (if names[k] in skipped then [] else [names[k]])
      && Keeping(names[..k + 1], keep) <= Found(names, skipped)
    decreases |names| - k
  {
    assert names[..k + 1][..k] == names[..k];
    if k + 1 < |names| {
      FoundNext(names, skipped, k + 1);
    } else {
      assert names[..k + 1] == names;
    }
  }

  method RemoveOne(name: string, engine: Engine) returns (present: bool, ok: bool)
    modifies engine
    ensures present <==> name in old(engine.world).live && name !in engine.unreachable
    ensures ok <==> !present || old(engine.patience) > 0
    ensures engine.world == if present && ok then Apply(old(engine.world), RemoveIt(name)) else old(engine.world)
    ensures engine.patience == old(engine.patience) - if present && ok then 1 else 0
  {
    present := engine.Get(name);
    ok := true;
    if present {
      ok := engine.Do(RemoveIt(name));
    }
  }

  /** `_remove_containers`: a lookup that raises is swallowed, a removal that raises is not. */
  method RemoveContainers(names: seq<string>, engine: Engine) returns (ok: bool, ghost done: nat)
    requires Distinct(names)
    modifies engine
    ensures var found := Found(names, Unseen(old(engine.world), engine.unreachable, names));
      && done <= |found| && engine.world == Run(old(engine.world), RemoveCalls(found[..done]))
      && (ok <==> old(engine.patience) >= |found|)
      && (ok ==> done == |found| && engine.patience + done == old(engine.patience))
  {
    ghost var w0 := engine.world;
    ghost var skipped := Unseen(w0, engine.unreachable, names);
    ghost var keep := (set n | n in names) - skipped;
    ghost var found := Found(names, skipped);
    assert found == Keeping(names, keep) && Keeping([], keep) == [];
    hide Accepts, Apply, Runs, Found, Unseen, Keeping, Run, RemoveCalls, Distinct;
    assert found[..0] == [] && Run(w0, RemoveCalls([])) == w0 by { NothingRemoved(w0); }
    done := 0;
    for k := 0 to |names|
      invariant done <= |found| && Keeping(names[..k], keep) == found[..done]
      invariant engine.world == Run(w0, RemoveCalls(found[..done]))
      invariant engine.patience + done == old(engine.patience)
    {
      NextName(w0, engine.unreachable, names, k, done);
      var present;
      present, ok := RemoveOne(names[k], engine);
      if present {
        if !ok {
          return false, done;
        }
        done := done + 1;
      }
    }
    assert names[..|names|] == names && found[..|found|] == found;
    return true, done;
  }

  lemma NothingRemoved(w: World)
    ensures Run(w, RemoveCalls([])) == w
  {
  }

  /** The `k`-th name is live now if it was at the start, and it is the next one found or skipped. */
  lemma NextName(w0: World, unreachable: set<string>, names: seq<string>, k: nat, done: nat)
    requires Distinct(names) && k < |names|
    requires var skipped := Unseen(w0, unreachable, names);
      done <= |Found(names, skipped)| && Keeping(names[..k], (set n | n in names) - skipped) == Found(names, skipped)[..done]
    ensures var skipped := Unseen(w0, unreachable, names);
      var found, w := Found(names, skipped), Run(w0, RemoveCalls(Found(names, skipped)[..done]));
      var next := Keeping(names[..k + 1], (set n | n in names) - skipped);
      if names[k] in w.live && names[k] !in unreachable then
        && done < |found| && next == found[..done + 1]
        && Run(w0, RemoveCalls(found[..done + 1])) == Apply(w, RemoveIt(names[k]))
      else next == found[..done]
  {
    var skipped := Unseen(w0, unreachable, names);
    var found := Found(names, skipped);
    assert names[k] !in names[..k];
    InUnseen(w0, unreachable, names, k);
    hide Unseen, Distinct, Apply, Found, Keeping;
    FoundNext(names, skipped, k);
    RunRemovals(w0, found[..done]);
    assert names[k] !in found[..done];
    if names[k] !in skipped {
      RemovalNext(w0, found, done, names[k]);
    }
  }

  lemma RemovalNext(w0: World, found: seq<string>, done: nat, name: string)
    requires done <= |found| && found[..done] + [name] <= found
    ensures done < |found| && found[..done + 1] == found[..done] + [name]
    ensures Run(w0, RemoveCalls(found[..done + 1])) == Apply(Run(w0, RemoveCalls(found[..done])), RemoveIt(name))
  {
    assert found[done] == (found[..done] + [name])[done];
    assert RemoveCalls(found[..done + 1])[..done] == RemoveCalls(found[..done]);
  }

  /** Calls in sequence until the engine raises or refuses one. */
  method DoAll(calls: seq<Call>, engine: Engine) returns (ok: bool, ghost done: nat)
    modifies engine
    ensures done <= |calls| && engine.world == Run(old(engine.world), calls[..done])
    ensures AllAccepted(old(engine.world), calls[..done])
    ensures ok <==> old(engine.patience) >= |calls| && AllAccepted(old(engine.world), calls)
    ensures ok ==> done == |calls| && engine.patience + |calls| == old(engine.patience)
  {
    hide Accepts, Apply;
    done := 0;
    for k := 0 to |calls|
      invariant done == k && engine.world == Run(old(engine.world), calls[..k])
      invariant engine.patience + k == old(engine.patience)
      invariant AllAccepted(old(engine.world), calls[..k])
    {
      assert calls[..k + 1] == calls[..k] + [calls[k]];
      AcceptedNext(old(engine.world), calls[..k], calls[k]);
      ok := engine.Do(calls[k]);
      if !ok {
        return false, k;
      }
      done := k + 1;
    }
    assert calls[..|calls|] == calls;
    return true, |calls|;
  }

  /** The removals, then the network, then the creations. */
  method DoPhases(names: seq<string>, creating: seq<Call>, engine: Engine, networkApplied: bool)
      returns (succeeded: bool, ghost done: nat)
    requires Distinct(names)
    modifies engine
    ensures var calls := RemoveCalls(Found(names, Unseen(old(engine.world), engine.unreachable, names))) + creating;
      && done <= |calls| && engine.world == Run(old(engine.world), calls[..done])
      && AllAccepted(old(engine.world), calls[..done])
      && (succeeded ==> done == |calls|)
      && (succeeded <==> networkApplied && old(engine.patience) >= |calls| && AllAccepted(old(engine.world), calls))
  {
    hide AllAccepted, Found, Unseen, Run, Distinct;
    ghost var w0 := engine.world;
    ghost var found := Found(names, Unseen(w0, engine.unreachable, names));
    succeeded, done := RemoveContainers(names, engine);
    RemovalsAccepted(w0, found[..done]);
    RemovalsAccepted(w0, found);
    PrefixOfRemovals(found, creating, done);
    AcceptedInParts(w0, RemoveCalls(found), creating);
    if !succeeded || !networkApplied {
      return false, done;
    }
    ghost var more;
    succeeded, more := DoAll(creating, engine);
    PrefixOfCreations(w0, found, creating, more);
    done := |found| + more;
  }

  lemma {:induction false} RemovalsAccepted(w: World, names: seq<string>)
    ensures AllAccepted(w, RemoveCalls(names))
  {
  }

  lemma PrefixOfRemovals(found: seq<string>, creating: seq<Call>, done: nat)
    requires done <= |found|
    ensures (RemoveCalls(found) + creating)[..done] == RemoveCalls(found[..done])
    ensures found[..|found|] == found && creating[..|creating|] == creating
  {
  }

  lemma PrefixOfCreations(w: World, found: seq<string>, creating: seq<Call>, more: nat)
    requires more <= |creating|
    ensures var calls, base := (RemoveCalls(found) + creating)[..|found| + more], Run(w, RemoveCalls(found));
      Run(w, calls) == Run(base, creating[..more]) &&
      (AllAccepted(w, calls) <==> AllAccepted(w, RemoveCalls(found)) && AllAccepted(base, creating[..more]))
  {
    hide AllAccepted, Run;
    assert (RemoveCalls(found) + creating)[..|found| + more] == RemoveCalls(found) + creating[..more];
    RunAppend(w, RemoveCalls(found), creating[..more]);
    AcceptedInParts(w, RemoveCalls(found), creating[..more]);
  }

  /** `deploy` from the network check on: `networkPlanned` and `networkApplied` are the outcomes of
      the two network steps. The engine ends at a point that the trace reaches, so
      `DeployNeverDangles` speaks of every outcome; it succeeds when the networks do and the engine
      serves every call. */
  method DeployPlan(p: Plan, engine: Engine, networkPlanned: bool, networkApplied: bool)
      returns (succeeded: bool, ghost done: nat)
    requires Shaped(p)
    modifies engine
    ensures var calls := Calls(p, Unseen(old(engine.world), engine.unreachable, Removals(p)));
      && done <= |calls| && engine.world == Run(old(engine.world), calls[..done])
      && AllAccepted(old(engine.world), calls[..done])
      && (succeeded ==> done == |calls|)
      && (succeeded <==>
            networkPlanned && networkApplied && old(engine.patience) >= |calls| && AllAccepted(old(engine.world), calls))
  {
    if !networkPlanned {
      return false, 0;
    }
    InSteps(p, "");
    hide Removals, Steps, Found, Unseen, AllAccepted, Distinct;
    succeeded, done := DoPhases(Removals(p), CreateCalls(Steps(p), p.definitions), engine, networkApplied);
  }

  lemma AcceptedInParts(w: World, a: seq<Call>, b: seq<Call>)
    ensures AllAccepted(w, a + b) <==> AllAccepted(w, a) && AllAccepted(Run(w, a), b)
  {
    var all := a + b;
    forall k | 0 <= k < |all| ensures Run(w, all[..k]) ==
      if k < |a| then Run(w, a[..k]) else Run(Run(w, a), b[..k - |a|])
    {
      if k < |a| {
        assert all[..k] == a[..k];
      } else {
        assert all[..k] == a + b[..k - |a|];
        RunAppend(w, a, b[..k - |a|]);
      }
    }
    forall k | 0 <= k < |b| ensures all[|a| + k] == b[k] && Run(w, all[..|a| + k]) == Run(Run(w, a), b[..k]) {}
  }
}
