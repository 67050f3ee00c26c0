/** When an update is lost for good, as far as the doorbell protocol goes: when the tasks that already
    run can come to rest with the agent behind. Only the fallback timer, a reconnection or a further
    event of the server helps then. */
module LostUpdates {
  import opened Wrappers
  import opened Doorbell

  /** Steps that the running tasks take by themselves: no write or event of the server, no failure, no
      crash, no timer. A socket that is down is opened again. */
  predicate Calm(l: Label) {
    l.Connect? || l.Subscribe? || l.ReadCurrent? || l.SendHello? || l.SendEvent? || l.Dispatch? ||
    l.Wake? || l.Drain? || l.Fetch? || l.Succeed?
  }

  /** Nothing of all that is left to do. */
  predicate Drained(s: State) {
    s.socket.Live? && s.queue == [] && s.wire == [] && !s.bell && s.consumer.Idle?
  }

  ghost predicate CalmRun(s: State, run: seq<Label>) {
    Legal(s, run) && forall l :: l in run ==> Calm(l)
  }

  /** The tasks can come to rest while the agent is behind. */
  ghost predicate Lost(s: State) {
    exists run :: CalmRun(s, run) && Drained(Exec(s, run)) && Stale(Exec(s, run))
  }

  function Pushes(queue: seq<Event>): (frames: seq<Frame>)
    ensures |frames| == |queue| && forall k :: 0 <= k < |queue| ==> frames[k] == Push(queue[k])
  {
    seq(|queue|, k requires 0 <= k < |queue| => Push(queue[k]))
  }

  /** The frames still to be dispatched, in their order. */
  function Pending(s: State): seq<Frame> {
    s.wire + (if s.socket.HelloRead? then [Hello(s.socket.hello)] else []) + Pushes(s.queue)
  }

  predicate Above(g: nat, applied: Option<nat>, consumer: Consumer) {
    Behind(applied, g) && (consumer.Fetched? ==> consumer.generation < g)
  }

  /** Rings whenever it is dispatched: before the round in flight ends and after. */
  predicate StillRings(f: Frame, applied: Option<nat>, consumer: Consumer) {
    match f
    case Hello(g) => g.Some? && Above(g.value, applied, consumer)
    case Push(SnapshotRequest) => true
    case Push(Updated(g)) => g.None? || Above(g.value, applied, consumer)
  }

  /** A fetch of the committed generation is certain: the socket will still read it, the consumer is
      about to, or a frame on its way rings in any case. */
  ghost predicate Rescued(s: State) {
    || s.socket.Down? || s.socket.Accepted? || s.socket.Subscribed?
    || s.bell || s.consumer.Running? || s.consumer == Fetched(s.committed)
    || exists f :: f in Pending(s) && StillRings(f, s.applied, s.consumer)
  }

  // ----- rescued is rescued -----

  lemma DispatchRescues(s: State)
    requires Enabled(s, Dispatch) && Rescued(s)
    ensures Rescued(Step(s, Dispatch))
  {
    var t := Step(s, Dispatch);
    assert s.wire == [s.wire[0]] + s.wire[1..];
    assert forall f :: f in Pending(s) <==> f == s.wire[0] || f in Pending(t);
  }

  lemma SendRescues(s: State, l: Label)
    requires Enabled(s, l) && (l == SendHello || l == SendEvent) && Rescued(s)
    ensures Rescued(Step(s, l))
  {
    var t := Step(s, l);
    if l == SendEvent { assert Pushes(s.queue) == [Push(s.queue[0])] + Pushes(s.queue[1..]); }
    assert Pending(t) == Pending(s);
  }

  lemma ReadRescues(s: State)
    requires Inv(s) && Stale(s) && Enabled(s, ReadCurrent)
    ensures Rescued(Step(s, ReadCurrent))
  {
    var t := Step(s, ReadCurrent);
    assert Hello(Some(s.committed)) in Pending(t);
  }

  lemma SucceedRescues(s: State)
    requires Inv(s) && Enabled(s, Succeed) && Rescued(s)
    ensures Rescued(Step(s, Succeed)) || !Stale(Step(s, Succeed))
  {
    var t := Step(s, Succeed);
    assert Pending(t) == Pending(s);
  }

  lemma CalmStepRescues(s: State, l: Label)
    requires Inv(s) && Stale(s) && Rescued(s) && Enabled(s, l) && Calm(l)
    ensures Rescued(Step(s, l)) || !Stale(Step(s, l))
  {
    match l
    case Dispatch => DispatchRescues(s);
    case SendHello => SendRescues(s, l);
    case SendEvent => SendRescues(s, l);
    case ReadCurrent => ReadRescues(s);
    case Succeed => SucceedRescues(s);
    case Wake => assert Step(s, l).bell;
    case Connect => hide Pending;
    case Subscribe => hide Pending;
    case Drain => hide Pending;
    case Fetch => hide Pending;
  }

  lemma CalmStepKeepsUp(s: State, l: Label)
    requires Inv(s) && !Stale(s) && Enabled(s, l) && Calm(l)
    ensures !Stale(Step(s, l))
  {
  }

  lemma {:induction false} CalmRunRescues(s: State, run: seq<Label>)
    requires Inv(s) && (Rescued(s) || !Stale(s)) && CalmRun(s, run)
    ensures Rescued(Exec(s, run)) || !Stale(Exec(s, run))
    decreases |run|
  {
    if run != [] {
      hide Inv, Rescued, Stale, Calm, Step, Enabled;
      var l := run[0];
      assert l in run && forall x :: x in run[1..] ==> x in run;
      InvStep(s, l);
      if Stale(s) { CalmStepRescues(s, l); } else { CalmStepKeepsUp(s, l); }
      CalmRunRescues(Step(s, l), run[1..]);
    }
  }

  lemma DrainedIsNotRescued(s: State)
    requires Drained(s)
    ensures !Rescued(s)
  {
    assert Pending(s) == [];
  }

  // ----- and everything else is lost -----

  lemma CalmNext(s: State, l: Label, rest: seq<Label>)
    requires Enabled(s, l) && Calm(l) && CalmRun(Step(s, l), rest)
    ensures CalmRun(s, [l] + rest) && Exec(s, [l] + rest) == Exec(Step(s, l), rest)
  {
    hide Step, Enabled, Calm;
    assert ([l] + rest)[0] == l && ([l] + rest)[1..] == rest;
  }

  /** Frames that do not ring are passed on and dispatched without any effect. */
  lemma {:induction false} Flush(s: State) returns (run: seq<Label>)
    requires s.socket.Live? && s.consumer.Idle? && !s.bell && forall f :: f in Pending(s) ==> !Rings(f, s.applied)
    ensures CalmRun(s, run) && Drained(Exec(s, run))
    ensures Exec(s, run).applied == s.applied && Exec(s, run).committed == s.committed
    decreases 2 * |s.queue| + |s.wire|
  {
    if s.wire == [] && s.queue == [] {
      run := [];
    } else {
      var l := if s.wire != [] then Dispatch else SendEvent;
      FlushOne(s, l);
      var t := Step(s, l);
      hide Rings, Step, Enabled, Pending;
      var rest := Flush(t);
      CalmNext(s, l, rest);
      run := [l] + rest;
    }
  }

  lemma FlushOne(s: State, l: Label)
    requires s.socket.Live? && s.consumer.Idle? && !s.bell && (forall f :: f in Pending(s) ==> !Rings(f, s.applied))
    requires l == if s.wire != [] then Dispatch else SendEvent
    requires s.wire != [] || s.queue != []
    ensures Enabled(s, l) && Calm(l)
    ensures var t := Step(s, l);
      && t == s.(wire := t.wire, queue := t.queue) && 2 * |t.queue| + |t.wire| < 2 * |s.queue| + |s.wire|
      && forall f :: f in Pending(t) ==> !Rings(f, t.applied)
  {
    var t := Step(s, l);
    if s.wire != [] {
      assert s.wire == [s.wire[0]] + s.wire[1..];
      assert s.wire[0] in Pending(s);
      assert forall f :: f in Pending(t) ==> f in Pending(s);
    } else {
      assert Pushes(s.queue) == [Push(s.queue[0])] + Pushes(s.queue[1..]);
      assert Pending(t) == Pending(s);
    }
  }

  /** The round in flight ends, the hello goes out, and nothing rings. */
  lemma Settle(s: State) returns (run: seq<Label>, t: State)
    requires Inv(s) && Stale(s) && !Rescued(s)
    ensures CalmRun(s, run) && t == Exec(s, run) && Stale(t)
    ensures t.socket.Live? && t.consumer.Idle? && !t.bell && forall f :: f in Pending(t) ==> !Rings(f, t.applied)
  {
    run, t := [], s;
    if s.consumer.Fetched? {
      EndRound(s);
      t := Step(s, Succeed);
      CalmNext(s, Succeed, []);
      run := [Succeed];
      assert [Succeed] + [] == [Succeed];
    } else {
      QuietFrames(s);
    }
    if t.socket.HelloRead? {
      SayHello(t);
      ghost var u := Step(t, SendHello);
      hide Rings, Pending, Inv, Rescued;
      AppendRun(s, run, [SendHello]);
      assert [SendHello][1..] == [] && Legal(u, []) && Legal(t, [SendHello]) && Exec(t, [SendHello]) == u;
      run, t := run + [SendHello], u;
    }
  }

  lemma QuietFrames(s: State)
    requires Inv(s) && !Rescued(s) && !s.consumer.Fetched?
    ensures s.consumer.Idle? && forall f :: f in Pending(s) ==> !Rings(f, s.applied)
  {
    hide Pending;
  }

  lemma EndRound(s: State)
    requires Inv(s) && Stale(s) && !Rescued(s) && s.consumer.Fetched?
    ensures var t := Step(s, Succeed);
      && Stale(t) && t.consumer.Idle? && !t.bell && t.socket == s.socket
      && forall f :: f in Pending(t) ==> !Rings(f, t.applied)
  {
    var t := Step(s, Succeed);
    assert Pending(t) == Pending(s);
    hide Pending;
  }

  lemma SayHello(s: State)
    requires s.socket.HelloRead?
    ensures var t := Step(s, SendHello);
      t == s.(socket := Live, wire := t.wire) && Pending(t) == Pending(s)
  {
  }

  lemma UnrescuedIsLost(s: State)
    requires Inv(s) && Stale(s) && !Rescued(s)
    ensures Lost(s)
  {
    var run, t := Settle(s);
    var rest := Flush(t);
    hide Inv, Rescued, Pending, Rings, Calm;
    AppendRun(s, run, rest);
    assert CalmRun(s, run + rest) && Drained(Exec(s, run + rest));
    assert Stale(Exec(s, run + rest));
  }

  /** An update is lost exactly if the agent is behind and no fetch is certain. */
  lemma LostIff(s: State)
    requires Inv(s)
    ensures Lost(s) <==> Stale(s) && !Rescued(s)
  {
    hide Inv, Rescued, Stale;
    if Stale(s) && !Rescued(s) {
      UnrescuedIsLost(s);
    } else {
      forall run | CalmRun(s, run) && Drained(Exec(s, run)) ensures !Stale(Exec(s, run)) {
        CalmRunRescues(s, run);
        DrainedIsNotRescued(Exec(s, run));
      }
    }
  }

  /** So an event that a full queue drops loses the update exactly if the agent is behind and nothing
      that was under way rescues it. */
  lemma DroppedEventIff(run: seq<Label>, g: nat)
    requires Legal(INITIAL, run) && g in Exec(INITIAL, run).unpublished
    requires var s := Exec(INITIAL, run); IsSubscribed(s.socket) && |s.queue| >= QUEUE_CAPACITY
    ensures var s := Exec(INITIAL, run); Lost(Step(s, Publish(g))) <==> Stale(s) && !Rescued(s)
  {
    var s := Exec(INITIAL, run);
    var t := Step(s, Publish(g));
    InvRun(INITIAL, run);
    InvStep(s, Publish(g));
    DroppedChangesNothing(s, g);
    hide Rescued, Inv, Exec, Step;
    LostIff(t);
  }

  lemma DroppedChangesNothing(s: State, g: nat)
    requires g in s.unpublished && IsSubscribed(s.socket) && |s.queue| >= QUEUE_CAPACITY
    ensures var t := Step(s, Publish(g)); (Stale(t) <==> Stale(s)) && (Rescued(t) <==> Rescued(s))
  {
    assert Pending(Step(s, Publish(g))) == Pending(s);
  }

  /** A dropped event is harmless while others sit in the queue that ring. */
  lemma OverflowMayBeHarmless() returns (run: seq<Label>)
    ensures run != [] && run[|run| - 1] == Publish(QUEUE_CAPACITY + 2) && Legal(INITIAL, run)
    ensures Exec(INITIAL, run).excuse.overflowed && Stale(Exec(INITIAL, run)) && !Lost(Exec(INITIAL, run))
  {
    var s: State;
    run, s := Burst(QUEUE_CAPACITY + 1);
    run, s := Extend(INITIAL, run, s, Commit);
    assert s.queue[0] == Updated(Some(2));
    run, s := Extend(INITIAL, run, s, Publish(QUEUE_CAPACITY + 2));
    assert Push(s.queue[0]) in Pending(s) by { FirstIsPending(s); }
    assert StillRings(Push(s.queue[0]), s.applied, s.consumer);
    InvRun(INITIAL, run);
    LostIff(s);
  }

  lemma FirstIsPending(s: State)
    requires s.queue != []
    ensures Push(s.queue[0]) in Pending(s)
  {
    assert Pushes(s.queue)[0] == Push(s.queue[0]);
  }
}
