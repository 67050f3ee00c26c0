/** The generations of a node: publishing a new one, rolling back to an old one, trimming, and
    reading the current one through a cache that may lose entries at any time. */
module Generations {
  import opened Wrappers
  import opened DesiredState
  import opened Validation

  /** One node: its current generation (0 for none), its rows in the generations table, and the
      cached snapshots, whose keys carry the generation. */
  datatype Node = Node(current: nat, rows: map<nat, State>, cache: map<nat, State>)

  datatype Op =
    | Materialise(assembled: State)   // what the tables give now; its generation field is overwritten
    | Rollback(target: nat)
    | Read
    | Lose(keys: set<nat>)

  datatype Outcome = Published(state: State) | NotFound | Refused | Nothing

  /** Rows that survive publishing `generation`; a retention of 0 or less keeps all. */
  function Trim(rows: map<nat, State>, generation: nat, keep: int): map<nat, State> {
    if keep > 0 && generation - keep > 0 then map g | g in rows && !(g <= generation - keep) :: rows[g] else rows
  }

  /** The snapshot as the next generation, if it validates. */
  function Next(n: Node, snapshot: State): Option<State> {
    Validate(snapshot.(generation := n.current + 1))
  }

  function Advance(n: Node, snapshot: State, keep: int): Node {
    match Next(n, snapshot)
    case None => n
    case Some(t) => n.(current := n.current + 1, rows := Trim(n.rows[n.current + 1 := t], n.current + 1, keep))
  }

  /** The snapshot a read takes: the cached one if there is one. */
  function Current(n: Node): Option<State> {
    if n.current == 0 then None
    else if n.current in n.cache then Some(n.cache[n.current])
    else if n.current in n.rows then Some(n.rows[n.current])
    else None
  }

  /** The same read with the cache switched off. */
  function Uncached(n: Node): Option<State> {
    Current(n.(cache := map[]))
  }

  function Step(n: Node, op: Op, keep: int): Node {
    match op
    case Materialise(assembled) => Advance(n, assembled, keep)
    case Rollback(target) => if target in n.rows then Advance(n, n.rows[target], keep) else n
    case Read =>
      if Current(n).None? then n else n.(cache := n.cache[n.current := Current(n).value])
    case Lose(keys) => n.(cache := n.cache - keys)
  }

  function Run(n: Node, ops: seq<Op>, keep: int): Node
    decreases |ops|
  {
    if ops == [] then n else Run(Step(n, ops[0], keep), ops[1..], keep)
  }

  const EMPTY := Node(0, map[], map[])

  /** Exactly the last `keep` generations. */
  predicate InWindow(g: nat, current: nat, keep: int) {
    1 <= g <= current && (keep > 0 ==> current - keep < g)
  }

  ghost predicate WasValidated(t: State) {
    exists s :: Validate(s) == Some(t)
  }

  ghost predicate Inv(n: Node, keep: int) {
    && (forall g :: g in n.rows <==> InWindow(g, n.current, keep))
    && (forall g :: g in n.rows ==> n.rows[g].generation == g && WasValidated(n.rows[g]))
    && (forall g :: g in n.cache ==> g <= n.current)
    && (forall g :: g in n.cache && g in n.rows ==> n.cache[g] == n.rows[g])
  }

  lemma Numbered(s: State, t: State)
    requires Validate(s) == Some(t)
    ensures t.generation == s.generation >= 1
  {
    Validated(s, t);
  }

  /** What one step may do to generations that exist: move on, forget, but never alter. */
  ghost predicate Later(a: Node, b: Node) {
    && a.current <= b.current
    && (forall g :: g in a.rows && g in b.rows ==> a.rows[g] == b.rows[g])
    && (forall g :: g in b.rows && g !in a.rows ==> a.current < g)
  }

  lemma PublishKeeps(n: Node, snapshot: State, keep: int)
    requires Inv(n, keep)
    ensures Inv(Advance(n, snapshot, keep), keep) && Later(n, Advance(n, snapshot, keep))
  {
    hide Validate;
    var next := Next(n, snapshot);
    if next.Some? {
      var g := n.current + 1;
      Numbered(snapshot.(generation := g), next.value);
      assert next.value.generation == g && WasValidated(next.value);
    }
  }

  lemma StepKeeps(n: Node, op: Op, keep: int)
    requires Inv(n, keep)
    ensures Inv(Step(n, op, keep), keep) && Later(n, Step(n, op, keep))
  {
    hide Validate;
    match op
    case Materialise(assembled) => PublishKeeps(n, assembled, keep);
    case Rollback(target) => if target in n.rows { PublishKeeps(n, n.rows[target], keep); }
    case Read =>
    case Lose(keys) =>
  }

  /** Over any run: the stored generations are exactly the last `keep` ones up to the current one,
      the current one never goes back, and no stored snapshot ever changes. */
  lemma {:induction false} RunKeeps(n: Node, ops: seq<Op>, keep: int)
    requires Inv(n, keep)
    ensures Inv(Run(n, ops, keep), keep) && Later(n, Run(n, ops, keep))
    decreases |ops|
  {
    hide Validate;
    if ops != [] {
      StepKeeps(n, ops[0], keep);
      var m := Step(n, ops[0], keep);
      RunKeeps(m, ops[1..], keep);
      var last := Run(m, ops[1..], keep);
      forall g | g in n.rows && g in last.rows ensures n.rows[g] == last.rows[g] {
        assert InWindow(g, m.current, keep);
      }
    }
  }

  /** A successful publication is the successor of the current generation and is stored as such. */
  lemma PublicationIsNext(n: Node, snapshot: State, keep: int)
    requires Inv(n, keep) && Next(n, snapshot).Some?
    ensures var m := Advance(n, snapshot, keep);
      && m.current == n.current + 1
      && m.current in m.rows && m.rows[m.current] == Next(n, snapshot).value
      && m.rows[m.current].generation == m.current
  {
    hide Validate;
    PublishKeeps(n, snapshot, keep);
  }

  /** The node with one generation more: the snapshot, numbered and validated, joins the rows, which are
      the last `keep` of them; the others are as they were, and so is the cache. */
  ghost predicate Follows(n: Node, m: Node, snapshot: State, published: State, keep: int) {
    var g := n.current + 1;
    && Validate(snapshot.(generation := g)) == Some(published) && published.generation == g
    && m.current == g && m.cache == n.cache
    && (forall k :: k in m.rows <==> 1 <= k <= g && (keep > 0 ==> g - keep < k))
    && g in m.rows && m.rows[g] == published
    && forall k :: k in m.rows && k != g ==> k in n.rows && m.rows[k] == n.rows[k]
  }

  lemma AdvanceMeans(n: Node, snapshot: State, keep: int)
    requires Inv(n, keep)
    ensures if Next(n, snapshot).None? then Advance(n, snapshot, keep) == n
            else Follows(n, Advance(n, snapshot, keep), snapshot, Next(n, snapshot).value, keep)
  {
    hide Validate;
    if Next(n, snapshot).Some? {
      PublishKeeps(n, snapshot, keep);
      Numbered(snapshot.(generation := n.current + 1), Next(n, snapshot).value);
      var m := Advance(n, snapshot, keep);
      assert InWindow(m.current, m.current, keep);
      forall k | k in m.rows && k != m.current ensures k in n.rows && m.rows[k] == n.rows[k] {
        assert InWindow(k, m.current, keep);
      }
    }
  }

  /** After any run, a read through the cache takes the very snapshot an uncached read takes, and
      once something has been published there always is one. */
  lemma CacheIsInvisible(ops: seq<Op>, keep: int)
    ensures var n := Run(EMPTY, ops, keep); Current(n) == Uncached(n) && (n.current > 0 ==> Current(n).Some?)
  {
    RunKeeps(EMPTY, ops, keep);
    var n := Run(EMPTY, ops, keep);
    assert n.current > 0 ==> InWindow(n.current, n.current, keep);
  }

  /** What a snapshot becomes when it is validated once more, under any generation. */
  lemma RevalidatedAs(t: State, g: nat)
    requires WasValidated(t) && g >= 1
    ensures Validate(t.(generation := g)) == if Anchored(t) then Some(t.(generation := g)) else None
  {
    hide Validate;
    var s :| Validate(s) == Some(t);
    RevalidationIffAnchored(s, t);
    Numbered(s, t);
    GenerationIsFree(t, g);
  }

  /** Rolling back to a stored generation publishes its snapshot again, unchanged but for the
      generation, exactly when no session hangs on a withdrawn anycast interface; otherwise the
      validation refuses it and nothing happens. A generation out of the window is not found. */
  lemma RollbackReproduces(n: Node, target: nat, keep: int)
    requires Inv(n, keep)
    ensures target in n.rows <==> InWindow(target, n.current, keep)
    ensures target in n.rows && Anchored(n.rows[target]) ==>
              var m := Step(n, Rollback(target), keep);
              m.current == n.current + 1 && m.current in m.rows &&
              m.rows[m.current] == n.rows[target].(generation := n.current + 1)
    ensures target in n.rows && !Anchored(n.rows[target]) ==> Step(n, Rollback(target), keep) == n
  {
    hide Validate;
    if target in n.rows {
      RevalidatedAs(n.rows[target], n.current + 1);
      PublishKeeps(n, n.rows[target], keep);
    }
  }

  /** Rolling back twice, to a generation and then to the one before the rollback, restores the
      earlier content if both are still stored. */
  lemma RollbackUndone(n: Node, target: nat, keep: int)
    requires Inv(n, keep) && InWindow(target, n.current, keep) && InWindow(n.current, n.current + 1, keep)
    requires Anchored(n.rows[target]) && Anchored(n.rows[n.current])
    ensures var m := Step(Step(n, Rollback(target), keep), Rollback(n.current), keep);
      && m.current == n.current + 2 && m.current in m.rows
      && m.rows[m.current] == n.rows[n.current].(generation := n.current + 2)
  {
    hide Validate;
    RollbackReproduces(n, target, keep);
    StepKeeps(n, Rollback(target), keep);
    var m := Step(n, Rollback(target), keep);
    assert InWindow(n.current, m.current, keep);
    assert m.rows[n.current] == n.rows[n.current];
    RollbackReproduces(m, n.current, keep);
  }

  // ----- the services, which change the tables in place -----

  class Store {
    const keep: int
    var nodes: map<string, Node>

    ghost predicate Valid()
      reads this
    {
      forall id :: id in nodes ==> Inv(nodes[id], keep)
    }

    constructor (keep: int)
      ensures Valid() && nodes == map[] && this.keep == keep
    {
      this.keep := keep;
      nodes := map[];
    }

    method Enroll(id: string)
      requires Valid()
      modifies this`nodes
      ensures Valid() && nodes == if id in old(nodes) then old(nodes) else old(nodes)[id := EMPTY]
    {
      if id !in nodes {
        nodes := nodes[id := EMPTY];
      }
    }

    /** `materialize`: None for an unknown node; a refused snapshot aborts the transaction. */
    method Materialize(id: string, assembled: State) returns (r: Outcome)
      requires Valid()
      modifies this`nodes
      ensures Valid()
      ensures r.Nothing? <==> id !in old(nodes)
      ensures id in old(nodes) ==> nodes == old(nodes)[id := Step(old(nodes)[id], Materialise(assembled), keep)]
      ensures id !in old(nodes) ==> nodes == old(nodes)
      ensures id in old(nodes) ==>
                r == if Next(old(nodes)[id], assembled).None? then Refused else Published(Next(old(nodes)[id], assembled).value)
      ensures r.Refused? ==> nodes == old(nodes)
      ensures r.Published? ==>
                && nodes == old(nodes)[id := nodes[id]]
                && Follows(old(nodes)[id], nodes[id], assembled, r.state, keep)
    {
      hide Validate, Inv, Advance, Next, Follows;
      if id !in nodes {
        return Nothing;
      }
      AdvanceMeans(nodes[id], assembled, keep);
      r := PublishNext(id, assembled);
    }

    /** The common tail of materialising and rolling back. */
    method PublishNext(id: string, snapshot: State) returns (r: Outcome)
      requires Valid() && id in nodes
      modifies this`nodes
      ensures Valid() && nodes == old(nodes)[id := Advance(old(nodes)[id], snapshot, keep)]
      ensures r == if Next(old(nodes)[id], snapshot).None? then Refused else Published(Next(old(nodes)[id], snapshot).value)
    {
      hide Validate;
      var node := nodes[id];
      PublishKeeps(node, snapshot, keep);
      var generation := node.current + 1;
      var desired := Validate(snapshot.(generation := generation));
      if desired.None? {
        assert nodes[id := node] == nodes;
        return Refused;
      }
      var rows := node.rows[generation := desired.value];
      if keep > 0 {
        var cutoff := generation - keep;
        if cutoff > 0 {
          rows := map g | g in rows && !(g <= cutoff) :: rows[g];
        }
      }
      nodes := nodes[id := node.(current := generation, rows := rows)];
      r := Published(desired.value);
    }

    /** `rollback_to_generation`. */
    method RollbackTo(id: string, target: nat) returns (r: Outcome)
      requires Valid()
      modifies this`nodes
      ensures Valid()
      ensures id !in old(nodes) ==> r.Nothing? && nodes == old(nodes)
      ensures id in old(nodes) ==> nodes == old(nodes)[id := Step(old(nodes)[id], Rollback(target), keep)]
      ensures id in old(nodes) ==>
                var n := old(nodes)[id];
                r == if !InWindow(target, n.current, keep) then NotFound
                     else if Anchored(n.rows[target]) then Published(n.rows[target].(generation := n.current + 1))
                     else Refused
    {
      hide Validate;
      if id !in nodes {
        return Nothing;
      }
      RollbackReproduces(nodes[id], target, keep);
      if target !in nodes[id].rows {
        assert nodes[id := nodes[id]] == nodes;
        return NotFound;
      }
      RevalidatedAs(nodes[id].rows[target], nodes[id].current + 1);
      r := PublishNext(id, nodes[id].rows[target]);
    }

    /** `DesiredStateStore.get`: reads through the cache and fills it; the snapshot is validated
        again on its way out. */
    method Get(id: string) returns (r: Outcome)
      requires Valid()
      modifies this`nodes
      ensures Valid()
      ensures id in old(nodes) ==> nodes == old(nodes)[id := Step(old(nodes)[id], Read, keep)]
      ensures id !in old(nodes) ==> nodes == old(nodes)
      ensures r == if id !in old(nodes) || old(nodes)[id].current == 0 then Nothing
                   else if Anchored(old(nodes)[id].rows[old(nodes)[id].current])
                     then Published(old(nodes)[id].rows[old(nodes)[id].current])
                   else Refused
      ensures id in old(nodes) && old(nodes)[id].current > 0 ==>
                var n := old(nodes)[id];
                nodes == old(nodes)[id := n.(cache := n.cache[n.current := n.rows[n.current]])]
    {
      hide Validate;
      if id !in nodes {
        return Nothing;
      }
      var node := nodes[id];
      StepKeeps(node, Read, keep);
      if node.current == 0 {
        assert nodes[id := node] == nodes;
        return Nothing;
      }
      assert InWindow(node.current, node.current, keep);
      ghost var stored := node.rows[node.current];
      RevalidatedAs(stored, node.current);
      assert stored.(generation := node.current) == stored;
      var snapshot;
      if node.current in node.cache {
        snapshot := node.cache[node.current];
        assert node.cache[node.current := snapshot] == node.cache;
        assert nodes[id := node] == nodes;
      } else {
        snapshot := node.rows[node.current];
        nodes := nodes[id := node.(cache := node.cache[node.current := snapshot])];
      }
      var desired := Validate(snapshot);
      r := if desired.None? then Refused else Published(desired.value);
    }
  }
}
