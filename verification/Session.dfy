/** The agent's session and one reconcile round over it. The session keeps one identity in memory
    and on disk, registers when it has no token, and heals a rejected token once per call. Every
    method is a run of the `Progress` system, so what that system never does, no round does. */
module Session {
  import opened Wrappers
  import opened Progress

  datatype Answer = Good | Unauthorized | Broken

  /** What the control server answers to one call: `entry` and `renewal` are the tokens it grants if
      the session has to register before the call or after a rejection; None is a refusal. */
  datatype Attempt = Attempt(entry: Option<nat>, first: Answer, renewal: Option<nat>, second: Answer)

  datatype Mode = PlanOnly | WriteRendered | Apply

  /** What the round meets: the answers to its calls, whether the files are written and the
      containers deployed without an error, and how convergence ends, if it is switched on. */
  datatype Script = Script(mode: Mode, fetch: Attempt, keys: seq<Attempt>, writes: bool, deploys: bool,
                           converges: Option<bool>, snapshot: Attempt, report: Attempt, result: Attempt)

  /** Keys are synchronised only where the round applies. */
  function KeyCalls(s: Script): seq<Attempt> {
    if s.mode.Apply? then s.keys else []
  }

  /** What counts as a success in each mode; a round that only plans is skipped. */
  predicate Succeeds(s: Script) {
    match s.mode
    case PlanOnly => false
    case WriteRendered => s.writes
    case Apply => s.writes && s.deploys && s.converges != Some(false)
  }

  /** `_execute`: how deep the round goes. Convergence runs only after a deploy without errors. */
  method ExecutePlan(s: Script) returns (succeeded: bool)
    ensures succeeded <==> Succeeds(s)
    ensures succeeded <==> !s.mode.PlanOnly? && s.writes && (s.mode.Apply? ==> s.deploys && s.converges != Some(false))
  {
    if s.mode.PlanOnly? {
      return false;
    }
    if s.mode.WriteRendered? {
      return s.writes;
    }
    var deployed := s.deploys && s.writes;
    succeeded := deployed;
    if deployed && s.converges.Some? {
      succeeded := s.converges.value;
    }
  }

  function Ensured(id: Identity, grant: Option<nat>): Option<Identity> {
    if id.token.Some? then Some(id)
    else if grant.Some? then Some(Identity(grant, None))
    else None
  }

  /** Whether a call gets through, and the identity it leaves. */
  function Called(id: Identity, a: Attempt): (bool, Identity) {
    match Ensured(id, a.entry)
    case None => (false, id)
    case Some(used) =>
      match a.first
      case Good => (true, used)
      case Broken => (false, used)
      case Unauthorized =>
        match Ensured(used.(token := None), a.renewal)
        case None => (false, used.(token := None))
        case Some(renewed) => (a.second.Good?, renewed)
  }

  function CalledAll(id: Identity, calls: seq<Attempt>): (bool, Identity)
    decreases |calls|
  {
    if calls == [] then (true, id)
    else
      var (ok, next) := Called(id, calls[0]);
      if ok then CalledAll(next, calls[1..]) else (false, next)
  }

  /** What a round makes of the identity: registrations forget the applied generation, and only a
      round that executes and gets everything acknowledged sets it. */
  function AfterRound(id: Identity, g: nat, s: Script): (bool, Identity) {
    var fetched := Called(id, s.fetch);
    if !fetched.0 then fetched
    else
      var keyed := CalledAll(fetched.1, KeyCalls(s));
      if !keyed.0 then keyed
      else
        var posted := CalledAll(keyed.1, [s.snapshot, s.report, s.result]);
        if !posted.0 || !Succeeds(s) then posted else (true, posted.1.(applied := Some(g)))
  }

  /** Nothing but a complete, successful round moves the applied generation forward. */
  lemma {:induction false} CallsNeverAdvance(id: Identity, calls: seq<Attempt>)
    ensures CalledAll(id, calls).1.applied in {id.applied, None}
    decreases |calls|
  {
    if calls != [] && Called(id, calls[0]).0 {
      CallsNeverAdvance(Called(id, calls[0]).1, calls[1..]);
    }
  }

  lemma RoundAdvancesIff(id: Identity, g: nat, s: Script)
    ensures AfterRound(id, g, s).0 && Succeeds(s) ==> AfterRound(id, g, s).1.applied == Some(g)
    ensures !(AfterRound(id, g, s).0 && Succeeds(s)) ==> AfterRound(id, g, s).1.applied in {id.applied, None}
  {
    var fetched := Called(id, s.fetch);
    if fetched.0 {
      CallsNeverAdvance(fetched.1, KeyCalls(s));
      CallsNeverAdvance(CalledAll(fetched.1, KeyCalls(s)).1, [s.snapshot, s.report, s.result]);
    }
  }

  lemma CalledThree(id: Identity, a: Attempt, b: Attempt, c: Attempt)
    ensures CalledAll(id, [a, b, c]) ==
      var x := Called(id, a);
      if !x.0 then x
      else
        var y := Called(x.1, b);
        if !y.0 then y else Called(y.1, c)
  {
    assert [a, b, c][1..] == [b, c] && [b, c][1..] == [c] && [c][1..] == [];
    var x := Called(id, a);
    assert CalledAll(id, [a, b, c]) == if x.0 then CalledAll(x.1, [b, c]) else (false, x.1);
    var y := Called(x.1, b);
    assert CalledAll(x.1, [b, c]) == if y.0 then CalledAll(y.1, [c]) else (false, y.1);
    var z := Called(y.1, c);
    assert CalledAll(y.1, [c]) == if z.0 then CalledAll(z.1, []) else (false, z.1);
  }

  // ----- what the answers decide, whatever the session does with them -----

  /** A call gets through if there is a token to be had and the answer is good, or if the token is
      rejected, a new one granted, and the second answer good. */
  predicate GetsThrough(a: Attempt, hasToken: bool) {
    (hasToken || a.entry.Some?) &&
    (a.first.Good? || (a.first.Unauthorized? && a.renewal.Some? && a.second.Good?))
  }

  /** It registers before its only attempt, or between two. */
  predicate Registers(a: Attempt, hasToken: bool) {
    if !hasToken && a.entry.None? then false
    else !hasToken || (a.first.Unauthorized? && a.renewal.Some?)
  }

  lemma CallMeans(id: Identity, a: Attempt)
    ensures var (ok, next) := Called(id, a);
      && (ok <==> GetsThrough(a, id.token.Some?))
      && (ok ==> next.token.Some?)
      && next.applied == if Registers(a, id.token.Some?) then None else id.applied
  {
  }

  /** After a call that got through there is a token. */
  ghost predicate AllGetThrough(calls: seq<Attempt>, hasToken: bool) {
    forall k :: 0 <= k < |calls| ==> GetsThrough(calls[k], k > 0 || hasToken)
  }

  /** One of the calls registers, and those before it get through. */
  ghost predicate SomeRegister(calls: seq<Attempt>, hasToken: bool) {
    exists k :: 0 <= k < |calls| && AllGetThrough(calls[..k], hasToken) && Registers(calls[k], k > 0 || hasToken)
  }

  lemma {:induction false} CallsMean(id: Identity, calls: seq<Attempt>)
    ensures var (ok, next) := CalledAll(id, calls);
      && (ok <==> AllGetThrough(calls, id.token.Some?))
      && (ok && calls != [] ==> next.token.Some?)
      && next.applied == if SomeRegister(calls, id.token.Some?) then None else id.applied
    decreases |calls|
  {
    hide Called, GetsThrough, Registers;
    if calls != [] {
      CallMeans(id, calls[0]);
      var (ok, next) := Called(id, calls[0]);
      if ok { CallsMean(next, calls[1..]); }
      FirstGetsThrough(calls, id.token.Some?);
      FirstRegisters(calls, id.token.Some?);
      hide AllGetThrough, SomeRegister;
    }
  }

  lemma FirstGetsThrough(calls: seq<Attempt>, hasToken: bool)
    requires calls != []
    ensures AllGetThrough(calls, hasToken) <==> GetsThrough(calls[0], hasToken) && AllGetThrough(calls[1..], true)
  {
    hide GetsThrough;
    if GetsThrough(calls[0], hasToken) && AllGetThrough(calls[1..], true) {
      forall k | 0 <= k < |calls| ensures GetsThrough(calls[k], k > 0 || hasToken) {
        if k > 0 { assert calls[1..][k - 1] == calls[k]; }
      }
    }
  }

  lemma FirstRegisters(calls: seq<Attempt>, hasToken: bool)
    requires calls != []
    ensures SomeRegister(calls, hasToken) <==>
      Registers(calls[0], hasToken) || (GetsThrough(calls[0], hasToken) && SomeRegister(calls[1..], true))
  {
    hide AllGetThrough, GetsThrough, Registers;
    assert AllGetThrough([], hasToken) by { NoneToGetThrough(hasToken); }
    forall k | 0 < k < |calls|
      ensures AllGetThrough(calls[..k], hasToken) <==> GetsThrough(calls[0], hasToken) && AllGetThrough(calls[1..][..k - 1], true)
      ensures calls[1..][k - 1] == calls[k]
    {
      FirstGetsThrough(calls[..k], hasToken);
      assert calls[..k][1..] == calls[1..][..k - 1];
    }
    assert calls[..0] == [];
    if GetsThrough(calls[0], hasToken) && SomeRegister(calls[1..], true) {
      var k :| 0 <= k < |calls[1..]| && AllGetThrough(calls[1..][..k], true) && Registers(calls[1..][k], k > 0 || true);
      assert calls[1..][k] == calls[k + 1] && AllGetThrough(calls[..k + 1], hasToken);
    }
  }

  lemma NoneToGetThrough(hasToken: bool)
    ensures AllGetThrough([], hasToken)
  {
  }

  /** The calls of a round, in order. */
  function Calls(s: Script): seq<Attempt> {
    [s.fetch] + (if s.mode.Apply? then s.keys else []) + [s.snapshot, s.report, s.result]
  }

  lemma {:induction false} CalledAppend(id: Identity, a: seq<Attempt>, b: seq<Attempt>)
    ensures CalledAll(id, a + b) == var x := CalledAll(id, a); if x.0 then CalledAll(x.1, b) else x
    decreases |a|
  {
    hide Called;
    if a == [] {
      assert a + b == b;
    } else {
      assert (a + b)[0] == a[0] && (a + b)[1..] == a[1..] + b;
      CalledAppend(Called(id, a[0]).1, a[1..], b);
    }
  }

  /** The whole round on the answers alone: it finishes exactly if all its calls get through, sets the
      applied generation exactly if it also succeeded, forgets it exactly if it registered anew, and
      else keeps it. */
  lemma RoundMeans(id: Identity, g: nat, s: Script)
    ensures var (finished, next) := AfterRound(id, g, s);
      && (finished <==> AllGetThrough(Calls(s), id.token.Some?))
      && next.applied == if finished && Succeeds(s) then Some(g)
                         else if SomeRegister(Calls(s), id.token.Some?) then None
                         else id.applied
  {
    hide Called, CalledAll, AllGetThrough, SomeRegister;
    CalledAppend(id, [s.fetch], KeyCalls(s));
    CalledAppend(id, [s.fetch] + KeyCalls(s), [s.snapshot, s.report, s.result]);
    CalledOne(id, s.fetch);
    assert Calls(s) == [s.fetch] + KeyCalls(s) + [s.snapshot, s.report, s.result];
    CallsMean(id, Calls(s));
  }

  lemma CalledOne(id: Identity, a: Attempt)
    ensures CalledAll(id, [a]) == Called(id, a)
  {
    hide Called;
    assert [a][1..] == [];
    assert CalledAll(Called(id, a).1, []).0;
  }

  lemma PublishMeans(id: Identity, s: Script)
    ensures CalledAll(id, [s.snapshot, s.report, s.result]).0 <==>
      GetsThrough(s.snapshot, id.token.Some?) && GetsThrough(s.report, true) && GetsThrough(s.result, true)
  {
    var calls := [s.snapshot, s.report, s.result];
    CallsMean(id, calls);
    hide GetsThrough, CalledAll;
    assert calls[0] == s.snapshot && calls[1] == s.report && calls[2] == s.result;
  }

  /** A single call that breaks, at once or after a renewal, ends the round where it is. */
  lemma BrokenCallEnds(calls: seq<Attempt>, hasToken: bool)
    ensures (exists a :: a in calls && (a.first.Broken? || (a.first.Unauthorized? && !a.second.Good?))) ==>
      !AllGetThrough(calls, hasToken)
  {
    forall k | 0 <= k < |calls| && GetsThrough(calls[k], k > 0 || hasToken)
      ensures !calls[k].first.Broken? && (calls[k].first.Unauthorized? ==> calls[k].second.Good?)
    {
    }
  }

  class Session {
    var disk: Identity
    var memory: Option<Identity>
    ghost var model: State

    ghost predicate Valid()
      reads this
    {
      model.disk == disk && model.memory == memory && (memory.Some? ==> memory.value == disk)
    }

    /** A process that starts over what an earlier one left on disk. */
    constructor (disk: Identity, ghost model: State)
      requires model.disk == disk && model.memory == None
      ensures Valid() && this.disk == disk && this.model == model && memory == None
    {
      this.disk, this.memory, this.model := disk, None, model;
    }

    /** Follows the system by one label. */
    ghost method Follow(from: State, run: seq<Label>, l: Label) returns (longer: seq<Label>)
      requires Legal(from, run) && model == Exec(from, run) && Enabled(model, l)
      modifies this`model
      ensures longer == run + [l] && Legal(from, longer) && model == Exec(from, longer)
      ensures model == Step(old(model), l)
    {
      longer := run + [l];
      var next := Step(model, l);
      assert Legal(next, []) && [l][1..] == [];
      assert Legal(model, [l]) && Exec(model, [l]) == next;
      AppendRun(from, run, [l]);
      model := next;
    }

    /** `_load` and `ensure`. */
    method Ensure(grant: Option<nat>, ghost from: State, ghost before: seq<Label>) returns (ok: bool, ghost run: seq<Label>)
      requires Valid() && !model.phase.Updated? && Legal(from, before) && model == Exec(from, before)
      modifies this
      ensures Valid() && Legal(from, run) && model == Exec(from, run)
      ensures model == old(model).(disk := disk, memory := memory) && memory == Some(disk)
      ensures ok <==> Ensured(old(disk), grant).Some?
      ensures disk == if ok then Ensured(old(disk), grant).value else old(disk)
      ensures ok <==> old(disk).token.Some? || grant.Some?
      ensures disk == if old(disk).token.Some? || grant.None? then old(disk) else Identity(grant, None)
      ensures ok ==> Authorized(model)
    {
      run := before;
      if memory.None? {
        run := Follow(from, run, Load);
        memory := Some(disk);
      }
      if memory.value.token.Some? {
        return true, run;
      }
      if grant.None? {
        return false, run;
      }
      run := Follow(from, run, Register(grant.value));
      disk := Identity(grant, None);
      memory := Some(disk);
      ok := true;
    }

    /** `invalidate`: the token goes, in memory and on disk; the applied generation stays. */
    method Invalidate(ghost from: State, ghost before: seq<Label>) returns (ghost run: seq<Label>)
      requires Valid() && !model.phase.Updated? && memory.Some? && Legal(from, before) && model == Exec(from, before)
      modifies this
      ensures Valid() && Legal(from, run) && model == Exec(from, run)
      ensures model == old(model).(disk := disk, memory := memory) && memory == Some(disk)
      ensures disk == old(disk).(token := None)
    {
      run := before;
      if memory.value.token.None? {
        return;
      }
      run := Follow(from, run, Progress.Invalidate);
      disk := memory.value.(token := None);
      memory := Some(disk);
    }

    /** `call`: one attempt, healed once if the token is rejected. */
    method Call(a: Attempt, ghost from: State, ghost before: seq<Label>) returns (ok: bool, ghost run: seq<Label>)
      requires Valid() && !model.phase.Updated? && Legal(from, before) && model == Exec(from, before)
      modifies this
      ensures Valid() && Legal(from, run) && model == Exec(from, run)
      ensures model == old(model).(disk := disk, memory := memory) && memory == Some(disk)
      ensures (ok, disk) == Called(old(disk), a)
      ensures ok <==>
        (old(disk).token.Some? || a.entry.Some?) &&
        (a.first.Good? || (a.first.Unauthorized? && a.renewal.Some? && a.second.Good?))
      ensures disk.token == if old(disk).token.None? && a.entry.None? then None
                            else if a.first.Unauthorized? then a.renewal
                            else if old(disk).token.Some? then old(disk).token else a.entry
      ensures disk.applied == if Registers(a, old(disk).token.Some?) then None else old(disk).applied
      ensures ok ==> Authorized(model)
    {
      CallMeans(disk, a);
      ok, run := Ensure(a.entry, from, before);
      if !ok {
        return;
      }
      match a.first {
        case Good =>
        case Broken =>
          ok := false;
        case Unauthorized =>
          run := Invalidate(from, run);
          ok, run := Ensure(a.renewal, from, run);
          if ok {
            ok := a.second.Good?;
          }
      }
    }

    /** The key report: the recovery key is fetched and the public key reported, if at all. */
    method CallEach(calls: seq<Attempt>, ghost from: State, ghost before: seq<Label>)
      returns (ok: bool, ghost run: seq<Label>)
      requires Valid() && !model.phase.Updated? && Legal(from, before) && model == Exec(from, before)
      requires memory == Some(disk)
      modifies this
      ensures Valid() && Legal(from, run) && model == Exec(from, run)
      ensures model == old(model).(disk := disk, memory := memory) && memory == Some(disk)
      ensures (ok, disk) == CalledAll(old(disk), calls)
    {
      ok, run := true, before;
      for k := 0 to |calls|
        invariant Valid() && Legal(from, run) && model == Exec(from, run)
        invariant model == old(model).(disk := disk, memory := memory) && memory == Some(disk)
        invariant CalledAll(old(disk), calls) == CalledAll(disk, calls[k..])
      {
        assert calls[k..][0] == calls[k] && calls[k..][1..] == calls[k + 1..];
        ok, run := Call(calls[k], from, run);
        if !ok {
          return;
        }
      }
      assert calls[|calls|..] == [];
    }

    /** The fetch of generation `g`, and the identity that goes with the round. */
    method Begin(g: nat, script: Script) returns (ok: bool, ghost run: seq<Label>)
      requires Valid() && model.phase.Idle? && g == model.server && (g == 0 ==> !Called(disk, script.fetch).0)
      modifies this
      ensures Valid() && Legal(old(model), run) && model == Exec(old(model), run)
      ensures (ok, disk) == Called(old(disk), script.fetch)
      ensures model.server == g && (if ok then model.phase.Ready? && model.phase.generation == g else model.phase.Idle?)
      ensures ok ==> memory == Some(disk)
    {
      ghost var from := model;
      assert Exec(model, []) == model;
      hide Exec, Called;
      ok, run := Call(script.fetch, from, []);
      if !ok {
        return;
      }
      run := Follow(from, run, Fetch);
      ok, run := Ensure(None, from, run);
      run := Follow(from, run, Prepare);
    }

    /** The last step: only now the applied generation moves, in memory and then on disk. */
    method Finish(g: nat, script: Script, ghost from: State, ghost before: seq<Label>) returns (ghost run: seq<Label>)
      requires Valid() && model.phase == Acked(g, Succeeds(script)) && Authorized(model)
      requires Legal(from, before) && model == Exec(from, before)
      modifies this
      ensures Valid() && Legal(from, run) && model == Exec(from, run) && model.phase.Idle?
      ensures disk == if Succeeds(script) then old(disk).(applied := Some(g)) else old(disk)
      ensures model.server == old(model.server)
    {
      hide Exec;
      var ok;
      ok, run := Ensure(None, from, before);
      run := Follow(from, run, Update);
      run := Follow(from, run, Save);
      if Succeeds(script) {
        disk := disk.(applied := Some(g));
        memory := Some(disk);
      }
    }

    /** `run_once` from the fetch on, without a crash: the round reports first and only then moves
        the applied generation, so it advances only if all of it went well. `g` is the generation
        of the state the fetch returns, the server's current one; a server without one fails it. */
    method RunOnce(g: nat, script: Script) returns (finished: bool, ghost run: seq<Label>)
      requires Valid() && model.phase.Idle? && g == model.server && (g == 0 ==> !Called(disk, script.fetch).0)
      modifies this
      ensures Valid() && Legal(old(model), run) && model == Exec(old(model), run) && model.phase.Idle?
      ensures (finished, disk) == AfterRound(old(disk), g, script)
      ensures finished <==> AllGetThrough(Calls(script), old(disk).token.Some?)
      ensures disk.applied == if finished && Succeeds(script) then Some(g)
                              else if SomeRegister(Calls(script), old(disk).token.Some?) then None
                              else old(disk).applied
      ensures (exists a :: a in Calls(script) && (a.first.Broken? || (a.first.Unauthorized? && !a.second.Good?))) ==>
        !finished && disk.applied in {old(disk).applied, None}
      ensures model.server == old(model.server)
    {
      hide Exec, Called, CalledAll, AllGetThrough, SomeRegister, Calls, Legal, Succeeds;
      RoundMeans(disk, g, script);
      BrokenCallEnds(Calls(script), disk.token.Some?);
      ghost var from := model;
      finished, run := Begin(g, script);
      if !finished {
        return;
      }
      finished, run := CallEach(KeyCalls(script), from, run);
      if !finished {
        run := Follow(from, run, Abort);
        return;
      }
      var succeeded := ExecutePlan(script);
      run := Follow(from, run, Execute(succeeded));
      finished, run := Publish(script, from, run);
      if !finished {
        run := Follow(from, run, Abort);
        return;
      }
      run := Finish(g, script, from, run);
    }

    /** `_publish`: snapshot, report, result, in this order, each only if the one before got through. */
    method Publish(script: Script, ghost from: State, ghost before: seq<Label>) returns (ok: bool, ghost run: seq<Label>)
      requires Valid() && model.phase.Ran? && Legal(from, before) && model == Exec(from, before)
      modifies this
      ensures Valid() && Legal(from, run) && model == Exec(from, run)
      ensures (ok, disk) == CalledAll(old(disk), [script.snapshot, script.report, script.result])
      ensures ok <==>
        GetsThrough(script.snapshot, old(disk).token.Some?) && GetsThrough(script.report, true) && GetsThrough(script.result, true)
      ensures ok ==> model.phase == Acked(old(model.phase.generation), old(model.phase.ok)) && Authorized(model)
      ensures model.server == old(model.server) && !model.phase.Updated?
    {
      hide Legal, Exec, Called, CalledAll;
      CalledThree(disk, script.snapshot, script.report, script.result);
      PublishMeans(disk, script);
      ok, run := Call(script.snapshot, from, before);
      if !ok {
        return;
      }
      run := Follow(from, run, PostSnapshot);
      ok, run := Call(script.report, from, run);
      if !ok {
        return;
      }
      run := Follow(from, run, PostReport);
      ok, run := Call(script.result, from, run);
      if !ok {
        return;
      }
      run := Follow(from, run, PostResult);
    }
  }
}
