/** The doorbell protocol between the control server and one node agent, as a labelled transition
    system. The server commits a generation and then publishes it into the bounded queue of the
    node's socket; the socket handler subscribes, then reads the current generation for `hello`,
    then pumps the queue; the agent's client task turns frames into rings of a latest-wins bell;
    one consumer drains the bell and reconciles. Every label is one atomic step, so a run is any
    interleaving of server, socket, client, consumer, crashes and re-registrations. */
module Doorbell {
  import opened Wrappers

  const QUEUE_CAPACITY := 64

  datatype Event = Updated(generation: Option<nat>) | SnapshotRequest

  datatype Frame = Hello(generation: Option<nat>) | Push(event: Event)

  /** What the server side of the socket has done so far. */
  datatype Socket =
    | Down
    | Accepted
    | Subscribed
    | HelloRead(hello: Option<nat>)
    | Live

  datatype Consumer = Idle | Woken | Running | Fetched(generation: nat)

  /** What may have swallowed a trigger since the last fetch. */
  datatype Excuse = Excuse(overflowed: bool, failed: bool, reset: bool)

  const NO_EXCUSE := Excuse(false, false, false)

  datatype State = State(
    committed: nat,             // Node.current_generation, 0 before the first one
    unpublished: set<nat>,      // committed, `publish` not yet called
    socket: Socket,
    queue: seq<Event>,          // EventBus queue of the handler
    wire: seq<Frame>,           // sent, not yet dispatched by the client task
    applied: Option<nat>,       // identity.applied_generation
    bell: bool,
    consumer: Consumer,
    excuse: Excuse)

  datatype Label =
    | Commit
    | Publish(generation: nat)
    | RequestSnapshot
    | Connect
    | Subscribe
    | ReadCurrent
    | SendHello
    | SendEvent
    | Drop(delivered: nat)
    | Dispatch
    | Wake
    | Drain
    | Fallback
    | Fetch
    | Succeed
    | Fail
    | Reregister
    | Restart

  predicate IsSubscribed(socket: Socket) {
    socket.Subscribed? || socket.HelloRead? || socket.Live?
  }

  predicate Behind(applied: Option<nat>, generation: nat) {
    applied.None? || applied.value < generation
  }

  /** The rule of `_dispatch_event`: which frames ring the bell. */
  predicate Rings(frame: Frame, applied: Option<nat>) {
    match frame
    case Hello(g) => g.Some? && Behind(applied, g.value)
    case Push(SnapshotRequest) => true
    case Push(Updated(g)) => g.None? || Behind(applied, g.value)
  }

  /** `put_nowait` on the handler's queue: a full queue drops the event. */
  function Offer(queue: seq<Event>, event: Event): seq<Event> {
    if |queue| < QUEUE_CAPACITY then queue + [event] else queue
  }

  predicate Enabled(s: State, l: Label) {
    match l
    case Commit => true
    case Publish(g) => g in s.unpublished
    case RequestSnapshot => true
    case Connect => s.socket.Down?
    case Subscribe => s.socket.Accepted?
    case ReadCurrent => s.socket.Subscribed?
    case SendHello => s.socket.HelloRead?
    case SendEvent => s.socket.Live? && s.queue != []
    case Drop(delivered) => !s.socket.Down? && delivered <= |s.wire|
    case Dispatch => s.wire != []
    case Wake => s.consumer.Idle? && s.bell
    case Drain => s.consumer.Woken?
    case Fallback => s.consumer.Idle?
    case Fetch => s.consumer.Running? && s.committed > 0
    case Succeed => s.consumer.Fetched?
    case Fail => s.consumer.Running? || s.consumer.Fetched?
    case Reregister => true
    case Restart => true
  }

  function Delivered(s: State, event: Event): State {
    if !IsSubscribed(s.socket) then s
    else s.(queue := Offer(s.queue, event),
            excuse := s.excuse.(overflowed := s.excuse.overflowed || |s.queue| >= QUEUE_CAPACITY))
  }

  function Step(s: State, l: Label): State
    requires Enabled(s, l)
  {
    match l
    case Commit => s.(committed := s.committed + 1, unpublished := s.unpublished + {s.committed + 1})
    case Publish(g) => Delivered(s.(unpublished := s.unpublished - {g}), Updated(Some(g)))
    case RequestSnapshot => Delivered(s, SnapshotRequest)
    case Connect => s.(socket := Accepted, queue := [], wire := [])
    case Subscribe => s.(socket := Subscribed, queue := [])
    case ReadCurrent => s.(socket := HelloRead(if s.committed == 0 then None else Some(s.committed)))
    case SendHello => s.(socket := Live, wire := s.wire + [Hello(s.socket.hello)])
    case SendEvent => s.(queue := s.queue[1..], wire := s.wire + [Push(s.queue[0])])
    case Drop(delivered) => s.(socket := Down, queue := [], wire := s.wire[..delivered])
    case Dispatch => s.(wire := s.wire[1..], bell := s.bell || Rings(s.wire[0], s.applied))
    case Wake => s.(consumer := Woken)
    case Drain => s.(consumer := Running, bell := false)
    case Fallback => s.(consumer := Running)
    case Fetch => s.(consumer := Fetched(s.committed), excuse := NO_EXCUSE)
    case Succeed => s.(consumer := Idle, applied := Some(s.consumer.generation))
    case Fail => s.(consumer := Idle, excuse := s.excuse.(failed := true))
    case Reregister => s.(applied := None, excuse := s.excuse.(reset := true))
    case Restart => s.(socket := Down, queue := [], wire := [], bell := false, consumer := Running)
  }

  /** The agent process starts with a reconcile of its own, before it opens the socket. */
  const INITIAL := State(0, {}, Down, [], [], None, false, Running, NO_EXCUSE)

  predicate Legal(s: State, run: seq<Label>)
    decreases run
  {
    run != [] ==> Enabled(s, run[0]) && Legal(Step(s, run[0]), run[1..])
  }

  function Exec(s: State, run: seq<Label>): State
    requires Legal(s, run)
    decreases run
  {
    if run == [] then s else Exec(Step(s, run[0]), run[1..])
  }

  // ----- the safety property -----

  /** Something that will still make the consumer fetch, or a round that already holds the latest. */
  predicate Triggered(s: State) {
    || s.committed in s.unpublished
    || Updated(Some(s.committed)) in s.queue
    || Push(Updated(Some(s.committed))) in s.wire
    || Hello(Some(s.committed)) in s.wire
    || s.socket == HelloRead(Some(s.committed))
    || s.socket.Subscribed?
    || s.socket.Accepted?
    || s.socket.Down?
    || s.bell
    || s.consumer.Running?
    || s.consumer == Fetched(s.committed)
  }

  predicate Stale(s: State) {
    s.committed > 0 && Behind(s.applied, s.committed)
  }

  predicate Inv(s: State) {
    && (s.applied.Some? ==> 0 < s.applied.value <= s.committed)
    && (s.consumer.Fetched? ==> 0 < s.consumer.generation <= s.committed)
    && (s.consumer.Fetched? && s.applied.Some? ==> s.applied.value <= s.consumer.generation)
    && (s.consumer.Woken? ==> s.bell)
    && (Stale(s) ==> Triggered(s) || s.excuse != NO_EXCUSE)
  }

  lemma ServerKeeps(s: State, l: Label)
    requires Inv(s) && Enabled(s, l) && (l.Commit? || l.Publish? || l.RequestSnapshot?)
    ensures Inv(Step(s, l))
  {
  }

  lemma SocketKeeps(s: State, l: Label)
    requires Inv(s) && Enabled(s, l) && (l.Connect? || l.Subscribe? || l.ReadCurrent? || l.SendHello? || l.Drop?)
    ensures Inv(Step(s, l))
  {
  }

  lemma SendKeeps(s: State)
    requires Inv(s) && Enabled(s, SendEvent)
    ensures Inv(Step(s, SendEvent))
  {
    assert s.queue == [s.queue[0]] + s.queue[1..];
  }

  lemma DispatchKeeps(s: State)
    requires Inv(s) && Enabled(s, Dispatch)
    ensures Inv(Step(s, Dispatch))
  {
    assert s.wire == [s.wire[0]] + s.wire[1..];
  }

  lemma ConsumerKeeps(s: State, l: Label)
    requires Inv(s) && Enabled(s, l) && (l.Wake? || l.Drain? || l.Fallback? || l.Fetch? || l.Succeed? || l.Fail?)
    ensures Inv(Step(s, l))
  {
  }

  lemma ResetKeeps(s: State, l: Label)
    requires Inv(s) && Enabled(s, l) && (l.Reregister? || l.Restart?)
    ensures Inv(Step(s, l))
  {
  }

  lemma InvStep(s: State, l: Label)
    requires Inv(s) && Enabled(s, l)
    ensures Inv(Step(s, l))
  {
    hide *;
    match l
    case Commit => ServerKeeps(s, l);
    case Publish(_) => ServerKeeps(s, l);
    case RequestSnapshot => ServerKeeps(s, l);
    case SendEvent => SendKeeps(s);
    case Dispatch => DispatchKeeps(s);
    case Connect => SocketKeeps(s, l);
    case Subscribe => SocketKeeps(s, l);
    case ReadCurrent => SocketKeeps(s, l);
    case SendHello => SocketKeeps(s, l);
    case Drop(_) => SocketKeeps(s, l);
    case Reregister => ResetKeeps(s, l);
    case Restart => ResetKeeps(s, l);
    case _ => ConsumerKeeps(s, l);
  }

  lemma {:induction false} InvRun(s: State, run: seq<Label>)
    requires Inv(s) && Legal(s, run)
    ensures Inv(Exec(s, run))
    decreases run
  {
    if run != [] {
      InvStep(s, run[0]);
      InvRun(Step(s, run[0]), run[1..]);
    }
  }

  /** No lost update: over every interleaving, an agent behind the committed generation has a
      trigger outstanding, unless since its last fetch the queue overflowed, a round failed or a
      re-registration wiped the applied generation. */
  lemma NoLostUpdate(run: seq<Label>)
    requires Legal(INITIAL, run)
    ensures var s := Exec(INITIAL, run);
      Stale(s) ==> Triggered(s) || s.excuse.overflowed || s.excuse.failed || s.excuse.reset
  {
    InvRun(INITIAL, run);
  }

  /** Nothing published is in flight, the socket pumps, and the consumer sleeps on a silent bell. */
  predicate Quiet(s: State) {
    s.unpublished == {} && s.socket.Live? && s.queue == [] && s.wire == [] && !s.bell && s.consumer.Idle?
  }

  /** A quiet system has converged, or is waiting for the fallback timer with a recorded excuse. */
  lemma QuietMeansConverged(run: seq<Label>)
    requires Legal(INITIAL, run) && Quiet(Exec(INITIAL, run)) && Exec(INITIAL, run).committed > 0
    ensures var s := Exec(INITIAL, run);
      s.excuse == NO_EXCUSE ==> s.applied == Some(s.committed)
  {
    InvRun(INITIAL, run);
  }

  // ----- progress -----

  lemma {:induction false} AppendRun(s: State, run: seq<Label>, rest: seq<Label>)
    requires Legal(s, run)
    ensures Legal(s, run + rest) <==> Legal(Exec(s, run), rest)
    ensures Legal(s, run + rest) ==> Exec(s, run + rest) == Exec(Exec(s, run), rest)
    decreases run
  {
    if run == [] {
      assert run + rest == rest;
    } else {
      assert (run + rest)[0] == run[0] && (run + rest)[1..] == run[1..] + rest;
      AppendRun(Step(s, run[0]), run[1..], rest);
    }
  }

  /** The applied generation only moves backwards through a re-registration. */
  lemma {:induction false} AppliedNeverRegresses(s: State, run: seq<Label>)
    requires Inv(s) && Legal(s, run) && Reregister !in run
    ensures s.applied.Some? ==> Exec(s, run).applied.Some? && s.applied.value <= Exec(s, run).applied.value
    decreases run
  {
    if run != [] {
      InvStep(s, run[0]);
      assert run[0] in run;
      AppliedNeverRegresses(Step(s, run[0]), run[1..]);
    }
  }

  /** One more label at the end of a run. */
  lemma Extend(from: State, run: seq<Label>, at: State, l: Label) returns (longer: seq<Label>, next: State)
    requires Legal(from, run) && Exec(from, run) == at && Enabled(at, l)
    ensures longer == run + [l] && next == Step(at, l)
    ensures Legal(from, longer) && Exec(from, longer) == next
  {
    longer, next := run + [l], Step(at, l);
    assert [l][1..] == [];
    assert Legal(next, []);
    assert Legal(at, [l]) && Exec(at, [l]) == next;
    AppendRun(from, run, [l]);
  }

  /** Whatever was lost, the consumer's next successful round repairs it: from every state it can
      take that round without waiting for any other task, and then holds the committed generation
      with no excuse left. */
  lemma FallbackRecovers(s: State) returns (round: seq<Label>)
    requires s.committed > 0
    ensures Legal(s, round) && forall l :: l in round ==> OfRound(l)
    ensures Exec(s, round).applied == Some(s.committed) && Exec(s, round).committed == s.committed
    ensures Exec(s, round).excuse == NO_EXCUSE
  {
    var t;
    round, t := BackToRunning(s);
    hide Legal, Exec;
    round, t := Extend(s, round, t, Fetch);
    round, t := Extend(s, round, t, Succeed);
  }

  /** The consumer's own steps, the fallback timer included. */
  predicate OfRound(l: Label) {
    l.Fallback? || l.Drain? || l.Fetch? || l.Succeed?
  }

  lemma BackToRunning(s: State) returns (round: seq<Label>, t: State)
    ensures Legal(s, round) && Exec(s, round) == t && t.consumer.Running? && t.committed == s.committed
    ensures forall l :: l in round ==> OfRound(l)
  {
    t := s;
    round := [];
    assert Legal(s, round) && Exec(s, round) == s;
    hide Legal, Exec;
    if t.consumer.Fetched? { round, t := Extend(s, round, t, Succeed); }
    if t.consumer.Idle? { round, t := Extend(s, round, t, Fallback); }
    if t.consumer.Woken? { round, t := Extend(s, round, t, Drain); }
  }

  // ----- a success does not excuse an overflow that happened during its own round -----

  /** The agent holds generation 1, the socket is live, and generations 2..last sit in the queue. */
  predicate Backlogged(s: State, last: nat) {
    && s.committed == last && s.unpublished == {} && s.socket.Live? && s.wire == []
    && s.applied == Some(1) && !s.bell && s.consumer.Idle?
    && 1 <= last && |s.queue| == last - 1
    && forall k :: 0 <= k < |s.queue| ==> s.queue[k] == Updated(Some(k + 2))
  }

  lemma Start() returns (run: seq<Label>)
    ensures run == [] && Legal(INITIAL, run) && Exec(INITIAL, run) == INITIAL
  {
    run := [];
  }

  /** The first generation is out and applied, and the socket is down. */
  lemma FirstRound() returns (run: seq<Label>, s: State)
    ensures Legal(INITIAL, run) && Exec(INITIAL, run) == s
    ensures s == State(1, {}, Down, [], [], Some(1), false, Idle, NO_EXCUSE)
  {
    hide Legal, Exec;
    run := Start();
    run, s := Extend(INITIAL, run, INITIAL, Commit);
    run, s := Extend(INITIAL, run, s, Publish(1));
    assert s.unpublished == {};
    run, s := Extend(INITIAL, run, s, Fetch);
    run, s := Extend(INITIAL, run, s, Succeed);
  }

  lemma Opening() returns (run: seq<Label>, s: State)
    ensures Legal(INITIAL, run) && Exec(INITIAL, run) == s && Backlogged(s, 1)
  {
    hide Legal, Exec;
    run, s := FirstRound();
    run, s := Extend(INITIAL, run, s, Connect);
    run, s := Extend(INITIAL, run, s, Subscribe);
    run, s := Extend(INITIAL, run, s, ReadCurrent);
    run, s := Extend(INITIAL, run, s, SendHello);
    assert s.wire == [Hello(Some(1))];
    run, s := Extend(INITIAL, run, s, Dispatch);
  }

  lemma {:induction false} Burst(last: nat) returns (run: seq<Label>, s: State)
    requires 1 <= last <= QUEUE_CAPACITY + 1
    ensures Legal(INITIAL, run) && Exec(INITIAL, run) == s && Backlogged(s, last)
  {
    if last == 1 {
      run, s := Opening();
    } else {
      run, s := Burst(last - 1);
      run, s := Extend(INITIAL, run, s, Commit);
      run, s := Extend(INITIAL, run, s, Publish(last));
    }
  }

  /** The other two excuses are needed as well: after a re-registration only the fallback timer is
      left. */
  lemma ResetIsNotRetriggered() returns (resetting: seq<Label>)
    ensures resetting != [] && resetting[|resetting| - 1] == Reregister && Legal(INITIAL, resetting)
    ensures Stale(Exec(INITIAL, resetting)) && !Triggered(Exec(INITIAL, resetting))
  {
    var opening, s := Opening();
    var t: State;
    resetting, t := Extend(INITIAL, opening, s, Reregister);
  }

  /** The agent holds generation 1 and has just been told of generation 2. */
  lemma Notified() returns (run: seq<Label>, s: State)
    ensures Legal(INITIAL, run) && Exec(INITIAL, run) == s
    ensures Backlogged(s.(bell := false, committed := 1), 1) && s.bell && s.committed == 2
  {
    run, s := Opening();
    run, s := Extend(INITIAL, run, s, Commit);
    run, s := Extend(INITIAL, run, s, Publish(2));
    run, s := Extend(INITIAL, run, s, SendEvent);
    run, s := Extend(INITIAL, run, s, Dispatch);
  }

  /** And a failed round is not triggered again. */
  lemma FailureIsNotRetriggered() returns (failing: seq<Label>)
    ensures failing != [] && failing[|failing| - 1] == Fail && Legal(INITIAL, failing)
    ensures Stale(Exec(INITIAL, failing)) && !Triggered(Exec(INITIAL, failing))
  {
    var t: State;
    failing, t := Notified();
    failing, t := Extend(INITIAL, failing, t, Wake);
    failing, t := Extend(INITIAL, failing, t, Drain);
    failing, t := Extend(INITIAL, failing, t, Fetch);
    failing, t := Extend(INITIAL, failing, t, Fail);
  }

  /** The excuse must reach back to the last fetch: here the queue overflows between a round's
      fetch and its success, and right after that success the agent is behind with no trigger. */
  lemma OverflowOutlivesSuccess() returns (run: seq<Label>)
    ensures run != [] && run[|run| - 1] == Succeed && Legal(INITIAL, run)
    ensures Stale(Exec(INITIAL, run)) && !Triggered(Exec(INITIAL, run))
  {
    hide Legal, Exec;
    var s: State;
    run, s := Burst(QUEUE_CAPACITY + 1);
    run, s := Extend(INITIAL, run, s, Fallback);
    run, s := Extend(INITIAL, run, s, Fetch);
    run, s := Extend(INITIAL, run, s, Commit);
    run, s := Extend(INITIAL, run, s, Publish(QUEUE_CAPACITY + 2));
    run, s := Extend(INITIAL, run, s, Succeed);
  }
}
