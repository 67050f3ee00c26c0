/** Finite dependency graphs: walks, cycles, and orders that respect the edges. */
module Graphs {
  import opened Wrappers

  /** Every node, with the nodes it depends on. */
  type Graph = map<string, set<string>>

  ghost predicate Closed(g: Graph) {
    forall n :: n in g ==> g[n] <= g.Keys
  }

  ghost predicate IsWalk(g: Graph, walk: seq<string>) {
    && walk != []
    && (forall k :: 0 <= k < |walk| ==> walk[k] in g)
    && (forall k :: 0 <= k < |walk| - 1 ==> walk[k + 1] in g[walk[k]])
  }

  ghost predicate IsCycle(g: Graph, walk: seq<string>) {
    IsWalk(g, walk) && |walk| > 1 && walk[0] == walk[|walk| - 1]
  }

  ghost predicate Cyclic(g: Graph) {
    exists walk :: IsCycle(g, walk)
  }

  /** A node comes after everything it depends on. */
  ghost predicate Respects(g: Graph, order: seq<string>) {
    forall k, d :: 0 <= k < |order| && order[k] in g && d in g[order[k]] ==> d in order[..k]
  }

  lemma {:induction false} DistinctFits(s: seq<string>, nodes: set<string>)
    requires Distinct(s) && forall x :: x in s ==> x in nodes
    ensures |s| <= |nodes|
    decreases |s|
  {
    if s != [] {
      var init := s[..|s| - 1];
      assert forall x :: x in init ==> x in nodes - {s[|s| - 1]};
      DistinctFits(init, nodes - {s[|s| - 1]});
    }
  }

  /** Where everyone still waits for someone who waits, there is a cycle. */
  lemma {:induction false} StuckIsCyclic(g: Graph, waiting: set<string>, walk: seq<string>)
    requires waiting <= g.Keys && forall n :: n in waiting ==> g[n] * waiting != {}
    requires IsWalk(g, walk) && Distinct(walk) && forall n :: n in walk ==> n in waiting
    ensures Cyclic(g)
    decreases |waiting| - |walk|
  {
    DistinctFits(walk, waiting);
    var last := walk[|walk| - 1];
    var next :| next in g[last] * waiting;
    if next in walk {
      var k :| 0 <= k < |walk| && walk[k] == next;
      CloseWalk(g, walk, k, next);
    } else {
      DistinctFits(walk + [next], waiting);
      StuckIsCyclic(g, waiting, walk + [next]);
    }
  }

  lemma CloseWalk(g: Graph, walk: seq<string>, k: nat, next: string)
    requires IsWalk(g, walk) && k < |walk| && walk[k] == next && next in g[walk[|walk| - 1]]
    ensures IsCycle(g, walk[k..] + [next])
  {
  }

  /** Along a walk, positions in a respecting order go strictly down. */
  lemma {:induction false} WalkGoesBack(g: Graph, order: seq<string>, walk: seq<string>, from: nat)
    requires Respects(g, order) && Distinct(order) && IsWalk(g, walk)
    requires from < |order| && order[from] == walk[0]
    ensures |walk| > 1 ==> walk[|walk| - 1] in order[..from]
    decreases |walk|
  {
    if |walk| > 1 {
      assert walk[1] in order[..from];
      var to :| 0 <= to < from && order[to] == walk[1];
      WalkGoesBack(g, order, walk[1..], to);
    }
  }

  lemma RespectedIsAcyclic(g: Graph, order: seq<string>)
    requires Respects(g, order) && Distinct(order) && forall n :: n in g ==> n in order
    ensures !Cyclic(g)
  {
    if walk :| IsCycle(g, walk) {
      var from :| 0 <= from < |order| && order[from] == walk[0];
      WalkGoesBack(g, order, walk, from);
    }
  }
}
