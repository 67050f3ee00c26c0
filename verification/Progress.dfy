/** One reconcile round of the agent and the identity it keeps on disk, as a labelled transition
    system: crashes, failing calls, invalidated tokens and re-registrations may come anywhere. The
    generation a node claims to have applied must be one it really executed and fully reported. */
module Progress {
  import opened Wrappers

  /** `identity.json`. */
  datatype Identity = Identity(token: Option<nat>, applied: Option<nat>)

  datatype Milestone =
    | Executed                                // the plan of the generation ran without an error
    | SnapshotAcked(claimed: Option<nat>)     // with the applied generation the snapshot carried
    | ReportAcked
    | ResultAcked(succeeded: bool)

  datatype Event = Event(round: nat, generation: nat, what: Milestone)

  /** How far the current round has come. `was` is the applied generation it found at its start. */
  datatype Phase =
    | Idle
    | Fetched(generation: nat)
    | Ready(generation: nat, was: Option<nat>)
    | Ran(generation: nat, was: Option<nat>, ok: bool)
    | Snapshotted(generation: nat, ok: bool)
    | Reported(generation: nat, ok: bool)
    | Acked(generation: nat, ok: bool)
    | Updated

  datatype State = State(
    server: nat,                  // Node.current_generation on the control server
    disk: Identity,
    memory: Option<Identity>,     // the session's identity object, None until it is loaded
    phase: Phase,
    round: nat,
    log: seq<Event>)

  datatype Label =
    | Commit
    | Load | Invalidate | Register(token: nat)      // the session
    | Fetch | Prepare | Execute(ok: bool)            // the round
    | PostSnapshot | PostReport | PostResult | Update | Save
    | Abort                                          // an exception ends the round
    | Crash

  predicate Authorized(s: State) {
    s.memory.Some? && s.memory.value.token.Some?
  }

  predicate Enabled(s: State, l: Label) {
    match l
    case Commit => true
    case Load => s.memory.None?
    case Invalidate => Authorized(s) && !s.phase.Updated?
    case Register(_) => s.memory.Some? && s.memory.value.token.None? && !s.phase.Updated?
    case Fetch => s.phase.Idle? && Authorized(s) && s.server > 0
    case Prepare => s.phase.Fetched? && Authorized(s)
    case Execute(_) => s.phase.Ready?
    case PostSnapshot => s.phase.Ran? && Authorized(s)
    case PostReport => s.phase.Snapshotted? && Authorized(s)
    case PostResult => s.phase.Reported? && Authorized(s)
    case Update => s.phase.Acked? && Authorized(s)
    case Save => s.phase.Updated? && s.memory.Some?
    case Abort => true
    case Crash => true
  }

  function Note(s: State, what: Milestone): seq<Event>
    requires !s.phase.Idle? && !s.phase.Updated?
  {
    s.log + [Event(s.round, s.phase.generation, what)]
  }

  function Step(s: State, l: Label): State
    requires Enabled(s, l)
  {
    match l
    case Commit => s.(server := s.server + 1)
    case Load => s.(memory := Some(s.disk))
    case Invalidate =>
      var identity := s.memory.value.(token := None);
      s.(memory := Some(identity), disk := identity)
    case Register(token) =>
      var identity := Identity(Some(token), None);
      s.(memory := Some(identity), disk := identity)
    case Fetch => s.(phase := Fetched(s.server), round := s.round + 1)
    case Prepare => s.(phase := Ready(s.phase.generation, s.memory.value.applied))
    case Execute(ok) =>
      s.(phase := Ran(s.phase.generation, s.phase.was, ok), log := if ok then Note(s, Executed) else s.log)
    case PostSnapshot =>
      var claimed := if s.phase.ok then Some(s.phase.generation) else s.phase.was;
      s.(phase := Snapshotted(s.phase.generation, s.phase.ok), log := Note(s, SnapshotAcked(claimed)))
    case PostReport => s.(phase := Reported(s.phase.generation, s.phase.ok), log := Note(s, ReportAcked))
    case PostResult => s.(phase := Acked(s.phase.generation, s.phase.ok), log := Note(s, ResultAcked(s.phase.ok)))
    case Update =>
      s.(memory := Some(if s.phase.ok then s.memory.value.(applied := Some(s.phase.generation)) else s.memory.value),
         phase := Updated)
    case Save => s.(disk := s.memory.value, phase := Idle)
    case Abort => s.(phase := Idle)
    case Crash => s.(memory := None, phase := Idle)
  }

  predicate Legal(s: State, run: seq<Label>)
    decreases |run|
  {
    run != [] ==> Enabled(s, run[0]) && Legal(Step(s, run[0]), run[1..])
  }

  function Exec(s: State, run: seq<Label>): State
    requires Legal(s, run)
    decreases |run|
  {
    if run == [] then s else Exec(Step(s, run[0]), run[1..])
  }

  /** A new node: nothing on disk, nothing published. */
  const INITIAL := State(0, Identity(None, None), None, Idle, 0, [])

  // ----- the property -----

  /** The events occur in the log in this order. */
  ghost predicate Follows(log: seq<Event>, events: seq<Event>)
    decreases |events|
  {
    events == [] ||
    exists k :: 0 <= k < |log| && log[k] == events[|events| - 1] && Follows(log[..k], events[..|events| - 1])
  }

  /** What a successful round leaves in the log. */
  function Milestones(r: nat, g: nat): seq<Event> {
    [Event(r, g, Executed), Event(r, g, SnapshotAcked(Some(g))), Event(r, g, ReportAcked), Event(r, g, ResultAcked(true))]
  }

  /** Some round executed `g` without an error and then had its snapshot, its report and its result
      acknowledged, in that order. */
  ghost predicate Delivered(log: seq<Event>, g: nat) {
    exists r: nat :: Follows(log, Milestones(r, g))
  }

  ghost predicate Backed(log: seq<Event>, applied: Option<nat>, server: nat) {
    applied.Some? ==> 0 < applied.value <= server && Delivered(log, applied.value)
  }

  /** The first `n` of the four milestones of round `r`, in order. */
  ghost predicate Reached(log: seq<Event>, r: nat, g: nat, n: nat)
    requires n <= 4
  {
    Follows(log, Milestones(r, g)[..n])
  }

  ghost predicate PhaseBacked(s: State) {
    match s.phase
    case Idle => true
    case Fetched(g) => 0 < g <= s.server
    case Ready(g, was) => 0 < g <= s.server && Backed(s.log, was, s.server)
    case Ran(g, was, ok) => 0 < g <= s.server && Backed(s.log, was, s.server) && (ok ==> Reached(s.log, s.round, g, 1))
    case Snapshotted(g, ok) => 0 < g <= s.server && (ok ==> Reached(s.log, s.round, g, 2))
    case Reported(g, ok) => 0 < g <= s.server && (ok ==> Reached(s.log, s.round, g, 3))
    case Acked(g, ok) => 0 < g <= s.server && (ok ==> Reached(s.log, s.round, g, 4))
    case Updated => true
  }

  /** A snapshot claims only what its own round just executed or an earlier round delivered. */
  ghost predicate ClaimsHold(log: seq<Event>, server: nat) {
    forall k :: 0 <= k < |log| && log[k].what.SnapshotAcked? && log[k].what.claimed.Some? ==>
      var h := log[k].what.claimed.value;
      0 < h <= server &&
      (Delivered(log[..k], h) || (h == log[k].generation && Event(log[k].round, h, Executed) in log[..k]))
  }

  ghost predicate Inv(s: State) {
    && Backed(s.log, s.disk.applied, s.server)
    && (s.memory.Some? ==> Backed(s.log, s.memory.value.applied, s.server))
    && PhaseBacked(s)
    && ClaimsHold(s.log, s.server)
  }

  lemma FollowsStill(log: seq<Event>, e: Event, events: seq<Event>)
    requires Follows(log, events)
    ensures Follows(log + [e], events)
  {
    if events != [] {
      var k :| 0 <= k < |log| && log[k] == events[|events| - 1] && Follows(log[..k], events[..|events| - 1]);
      assert (log + [e])[k] == log[k] && (log + [e])[..k] == log[..k];
    }
  }

  lemma FollowsNext(log: seq<Event>, e: Event, events: seq<Event>)
    requires Follows(log, events)
    ensures Follows(log + [e], events + [e])
  {
    var more, longer := log + [e], events + [e];
    assert more[|log|] == longer[|longer| - 1] && more[..|log|] == log && longer[..|longer| - 1] == events;
  }

  lemma {:induction false} FollowsHas(log: seq<Event>, events: seq<Event>)
    requires Follows(log, events) && events != []
    ensures events[0] in log
    decreases |events|
  {
    var k :| 0 <= k < |log| && log[k] == events[|events| - 1] && Follows(log[..k], events[..|events| - 1]);
    if |events| > 1 {
      FollowsHas(log[..k], events[..|events| - 1]);
    }
  }

  lemma DeliveredStays(log: seq<Event>, e: Event, g: nat)
    requires Delivered(log, g)
    ensures Delivered(log + [e], g)
  {
    var r: nat :| Follows(log, Milestones(r, g));
    FollowsStill(log, e, Milestones(r, g));
  }

  lemma BackedStays(log: seq<Event>, e: Event, applied: Option<nat>, server: nat)
    requires Backed(log, applied, server)
    ensures Backed(log + [e], applied, server)
  {
    if applied.Some? {
      DeliveredStays(log, e, applied.value);
    }
  }

  /** The next milestone of a round. */
  lemma NextReached(log: seq<Event>, r: nat, g: nat, n: nat)
    requires n < 4 && Reached(log, r, g, n)
    ensures Reached(log + [Milestones(r, g)[n]], r, g, n + 1)
  {
    FollowsNext(log, Milestones(r, g)[n], Milestones(r, g)[..n]);
    assert Milestones(r, g)[..n] + [Milestones(r, g)[n]] == Milestones(r, g)[..n + 1];
  }

  lemma ReachedIsDelivered(log: seq<Event>, r: nat, g: nat)
    requires Reached(log, r, g, 4)
    ensures Delivered(log, g)
  {
    assert Milestones(r, g)[..4] == Milestones(r, g);
  }

  lemma ReachedHasRun(log: seq<Event>, r: nat, g: nat, n: nat)
    requires 1 <= n <= 4 && Reached(log, r, g, n)
    ensures Event(r, g, Executed) in log
  {
    FollowsHas(log, Milestones(r, g)[..n]);
  }

  lemma ClaimsStay(log: seq<Event>, e: Event, server: nat)
    requires ClaimsHold(log, server)
    requires e.what.SnapshotAcked? && e.what.claimed.Some? ==>
      var h := e.what.claimed.value;
      0 < h <= server && (Delivered(log, h) || (h == e.generation && Event(e.round, h, Executed) in log))
    ensures ClaimsHold(log + [e], server)
  {
    hide Delivered;
    var more := log + [e];
    forall k | 0 <= k < |more| && more[k].what.SnapshotAcked? && more[k].what.claimed.Some?
      ensures var h := more[k].what.claimed.value;
        0 < h <= server &&
        (Delivered(more[..k], h) || (h == more[k].generation && Event(more[k].round, h, Executed) in more[..k]))
    {
      assert more[..k] == log[..k];
      if k == |log| {
        assert log[..k] == log;
      } else {
        assert more[k] == log[k];
      }
    }
  }

  /** A step that notes a milestone keeps what the log already backs. */
  lemma NoteKeeps(s: State, t: State, e: Event)
    requires Inv(s) && t.log == s.log + [e] && t.server == s.server && t.disk == s.disk && t.memory == s.memory
    ensures Backed(t.log, t.disk.applied, t.server)
    ensures t.memory.Some? ==> Backed(t.log, t.memory.value.applied, t.server)
  {
    BackedStays(s.log, e, s.disk.applied, s.server);
    if s.memory.Some? {
      BackedStays(s.log, e, s.memory.value.applied, s.server);
    }
  }

  lemma ExecuteKeeps(s: State, ok: bool)
    requires Inv(s) && Enabled(s, Execute(ok))
    ensures Inv(Step(s, Execute(ok)))
  {
    if ok {
      var e := Event(s.round, s.phase.generation, Executed);
      var t := Step(s, Execute(ok));
      NoteKeeps(s, t, e);
      BackedStays(s.log, e, s.phase.was, s.server);
      NextReached(s.log, s.round, s.phase.generation, 0);
      ClaimsStay(s.log, e, s.server);
    }
  }

  lemma SnapshotKeeps(s: State)
    requires Inv(s) && Enabled(s, PostSnapshot)
    ensures Inv(Step(s, PostSnapshot))
  {
    var g := s.phase.generation;
    var e := Event(s.round, g, SnapshotAcked(if s.phase.ok then Some(g) else s.phase.was));
    NoteKeeps(s, Step(s, PostSnapshot), e);
    if s.phase.ok {
      NextReached(s.log, s.round, g, 1);
      ReachedHasRun(s.log, s.round, g, 1);
    }
    ClaimsStay(s.log, e, s.server);
  }

  lemma ReportKeeps(s: State)
    requires Inv(s) && Enabled(s, PostReport)
    ensures Inv(Step(s, PostReport))
  {
    var e := Event(s.round, s.phase.generation, ReportAcked);
    NoteKeeps(s, Step(s, PostReport), e);
    if s.phase.ok {
      NextReached(s.log, s.round, s.phase.generation, 2);
    }
    ClaimsStay(s.log, e, s.server);
  }

  lemma ResultKeeps(s: State)
    requires Inv(s) && Enabled(s, PostResult)
    ensures Inv(Step(s, PostResult))
  {
    var e := Event(s.round, s.phase.generation, ResultAcked(s.phase.ok));
    NoteKeeps(s, Step(s, PostResult), e);
    if s.phase.ok {
      NextReached(s.log, s.round, s.phase.generation, 3);
    }
    ClaimsStay(s.log, e, s.server);
  }

  lemma QuietKeeps(s: State, l: Label)
    requires Inv(s) && Enabled(s, l) && Step(s, l).log == s.log
    requires !l.Execute? && !l.PostSnapshot? && !l.PostReport? && !l.PostResult?
    ensures Inv(Step(s, l))
  {
    hide Delivered, Reached;
    if l.Update? && s.phase.ok {
      ReachedIsDelivered(s.log, s.round, s.phase.generation);
    }
  }

  lemma InvStep(s: State, l: Label)
    requires Inv(s) && Enabled(s, l)
    ensures Inv(Step(s, l))
  {
    hide Inv;
    match l
    case Execute(ok) => ExecuteKeeps(s, ok);
    case PostSnapshot => SnapshotKeeps(s);
    case PostReport => ReportKeeps(s);
    case PostResult => ResultKeeps(s);
    case _ => QuietKeeps(s, l);
  }

  lemma {:induction false} InvRun(s: State, run: seq<Label>)
    requires Inv(s) && Legal(s, run)
    ensures Inv(Exec(s, run))
    decreases |run|
  {
    hide Inv;
    if run != [] {
      InvStep(s, run[0]);
      InvRun(Step(s, run[0]), run[1..]);
    }
  }

  /** Crash-safe progress: at every point of every run, an applied generation on disk was executed
      by an earlier round that got all three acknowledgements, and the server has published it. */
  lemma CrashSafeProgress(run: seq<Label>)
    requires Legal(INITIAL, run)
    ensures var s := Exec(INITIAL, run);
      s.disk.applied.Some? ==> s.disk.applied.value <= s.server && Delivered(s.log, s.disk.applied.value)
  {
    InvRun(INITIAL, run);
  }

  /** No acknowledged snapshot ever claimed a generation that had not been executed before. */
  lemma SnapshotsNeverOverclaim(run: seq<Label>, k: nat)
    requires Legal(INITIAL, run) && k < |Exec(INITIAL, run).log|
    ensures var e := Exec(INITIAL, run).log[k];
      e.what.SnapshotAcked? && e.what.claimed.Some? ==>
        exists i, r :: 0 <= i < k && Exec(INITIAL, run).log[i] == Event(r, e.what.claimed.value, Executed)
  {
    InvRun(INITIAL, run);
    var log := Exec(INITIAL, run).log;
    var e := log[k];
    if e.what.SnapshotAcked? && e.what.claimed.Some? {
      var h := e.what.claimed.value;
      if Delivered(log[..k], h) {
        DeliveredHasRun(log[..k], h);
      }
      var r, i :| 0 <= i < k && log[..k][i] == Event(r, h, Executed);
      assert log[i] == log[..k][i];
    }
  }

  lemma DeliveredHasRun(log: seq<Event>, g: nat)
    requires Delivered(log, g)
    ensures exists r, i :: 0 <= i < |log| && log[i] == Event(r, g, Executed)
  {
    var r: nat :| Follows(log, Milestones(r, g));
    FollowsHas(log, Milestones(r, g));
    var i :| 0 <= i < |log| && log[i] == Event(r, g, Executed);
  }

  lemma {:induction false} AppendRun(s: State, run: seq<Label>, rest: seq<Label>)
    requires Legal(s, run)
    ensures Legal(s, run + rest) <==> Legal(Exec(s, run), rest)
    ensures Legal(s, run + rest) ==> Exec(s, run + rest) == Exec(Exec(s, run), rest)
    decreases |run|
  {
    hide Enabled, Step;
    if run == [] {
      assert run + rest == rest;
    } else {
      assert (run + rest)[0] == run[0] && (run + rest)[1..] == run[1..] + rest;
      AppendRun(Step(s, run[0]), run[1..], rest);
    }
  }
}
