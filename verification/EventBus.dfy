/** The server's event bus: per node a list of subscriber queues, each bounded and dropping. */
module EventBus {
  import opened Wrappers
  import opened Doorbell

  class SubscriberQueue {
    var items: seq<Event>

    constructor ()
      ensures items == []
    {
      items := [];
    }

    /** `put_nowait`: false stands for `QueueFull`. */
    method PutNowait(event: Event) returns (accepted: bool)
      modifies this
      ensures items == Offer(old(items), event)
      ensures items == if |old(items)| < 64 then old(items) + [event] else old(items)
      ensures accepted <==> |old(items)| < QUEUE_CAPACITY
    {
      accepted := |items| < QUEUE_CAPACITY;
      if accepted {
        items := items + [event];
      }
    }
  }

  /** Python's `list.remove`: the first occurrence goes. */
  function Without<T(==)>(s: seq<T>, x: T): (r: seq<T>)
    ensures x !in s ==> r == s
    ensures forall y :: y in r ==> y in s
    ensures Distinct(s) ==> Distinct(r) && x !in r && forall y :: y in s && y != x ==> y in r
  {
    if s == [] then []
    else if s[0] == x then s[1..]
    else
      var rest := Without(s[1..], x);
      assert forall y :: y in s ==> y == s[0] || y in s[1..];
      assert Distinct(s) ==> Distinct(s[1..]) && s[0] !in s[1..];
      [s[0]] + rest
  }

  class Bus {
    var subscribers: map<string, seq<SubscriberQueue>>

    function Queues(node: string): seq<SubscriberQueue>
      reads this
    {
      if node in subscribers then subscribers[node] else []
    }

    /** A queue belongs to one connection of one node, and no node keeps an empty list. */
    ghost predicate Valid()
      reads this
    {
      && (forall n :: n in subscribers ==> subscribers[n] != [] && Distinct(subscribers[n]))
      && (forall m, n, q :: m in subscribers && n in subscribers && q in subscribers[m] && q in subscribers[n]
            ==> m == n)
    }

    constructor ()
      ensures Valid() && subscribers == map[]
    {
      subscribers := map[];
    }

    method Register(node: string) returns (queue: SubscriberQueue)
      requires Valid()
      requires forall n, q :: n in subscribers && q in subscribers[n] ==> allocated(q)
      modifies this
      ensures Valid() && fresh(queue) && queue.items == []
      ensures Queues(node) == old(Queues(node)) + [queue]
      ensures forall other :: other != node ==> Queues(other) == old(Queues(other))
    {
      queue := new SubscriberQueue();
      subscribers := subscribers[node := Queues(node) + [queue]];
    }

    method Unsubscribe(node: string, queue: SubscriberQueue)
      requires Valid()
      modifies this
      ensures Valid()
      ensures Queues(node) == Without(old(Queues(node)), queue) && queue !in Queues(node)
      ensures forall other :: other != node ==> Queues(other) == old(Queues(other))
    {
      if node !in subscribers {
        return;
      }
      var left := Without(subscribers[node], queue);
      subscribers := if left == [] then subscribers - {node} else subscribers[node := left];
    }

    /** Every queue of the node is offered the event, whatever happens to the others; no other
        queue changes. The result counts the queues that had room. */
    method Publish(node: string, event: Event) returns (delivered: nat)
      requires Valid()
      modifies Queues(node)
      ensures forall q :: q in Queues(node) ==> q.items == Offer(old(q.items), event)
      ensures delivered == |old(WithRoom(Queues(node)))|
    {
      var queues := Queues(node);
      ghost var roomy := WithRoom(queues);
      delivered := 0;
      Ends(roomy, |queues|);
      hide WithRoom, UpTo, Offer;
      for i := 0 to |queues|
        invariant forall k :: 0 <= k < i ==> queues[k].items == Offer(old(queues[k].items), event)
        invariant forall k :: i <= k < |queues| ==> queues[k].items == old(queues[k].items)
        invariant delivered == |UpTo(roomy, i)|
      {
        OneMore(roomy, i);
        assert i in roomy <==> |queues[i].items| < QUEUE_CAPACITY by { assert i in roomy <==> |old(queues[i].items)| < 64; }
        var accepted := queues[i].PutNowait(event);
        if accepted {
          delivered := delivered + 1;
        }
      }
    }
  }

  /** The places of the queues that have room. */
  ghost function WithRoom(queues: seq<SubscriberQueue>): set<int>
    reads queues
  {
    set k | 0 <= k < |queues| && |queues[k].items| < 64
  }

  ghost function UpTo(places: set<int>, i: int): set<int> {
    set k | k in places && k < i
  }

  lemma Ends(places: set<int>, n: nat)
    requires forall k :: k in places ==> 0 <= k < n
    ensures UpTo(places, 0) == {} && UpTo(places, n) == places
  {
  }

  lemma OneMore(places: set<int>, i: int)
    ensures UpTo(places, i + 1) == UpTo(places, i) + (if i in places then {i} else {})
    ensures i !in UpTo(places, i)
  {
  }
}
