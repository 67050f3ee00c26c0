/** WireGuard public keys across nodes. A node's key is pinned by its first report; the snapshots of
    the nodes that peer with it carry it, because the report publishes them anew in the same step.
    The tables are projected to what this takes: of a snapshot, only the keys it hands out. */
module KeyPinning {
  import opened Wrappers
  import opened Order

  datatype Node = Node(key: Option<string>, escrow: Option<string>, retired: bool, generation: nat,
                       snapshot: map<nat, string>)

  datatype Peering = Peering(local: string, remote: Option<string>)

  /** A row of the interface table; `specKey` is the peer key its stored spec holds. */
  datatype Interface = Interface(node: string, enabled: bool, wireguard: bool, peering: Option<nat>, specKey: string)

  datatype Db = Db(nodes: map<string, Node>, peerings: map<nat, Peering>, interfaces: map<nat, Interface>)

  // ----- what a materialised snapshot hands out -----

  function RemoteOf(db: Db, i: Interface): Option<string> {
    if i.peering.Some? && i.peering.value in db.peerings then db.peerings[i.peering.value].remote else None
  }

  /** The key on record for a node, if there is a non-empty one. */
  function Recorded(db: Db, id: string): Option<string> {
    if id in db.nodes && db.nodes[id].key.Some? && db.nodes[id].key.value != "" then db.nodes[id].key else None
  }

  /** The key the other end of an interface has on record. */
  function PeerKey(db: Db, i: Interface): Option<string> {
    match RemoteOf(db, i)
    case None => None
    case Some(remote) => Recorded(db, remote)
  }

  function KeyFor(db: Db, i: Interface): string {
    if PeerKey(db, i).Some? then PeerKey(db, i).value else i.specKey
  }

  predicate HandsOut(db: Db, id: string, k: nat) {
    k in db.interfaces && db.interfaces[k].node == id && db.interfaces[k].enabled && db.interfaces[k].wireguard
  }

  function Assemble(db: Db, id: string): map<nat, string>
    requires id in db.nodes
  {
    if db.nodes[id].retired then map[]
    else map k | k in db.interfaces && HandsOut(db, id, k) :: KeyFor(db, db.interfaces[k])
  }

  function Materialize(db: Db, id: string): Db {
    if id !in db.nodes then db
    else
      var n := db.nodes[id];
      db.(nodes := db.nodes[id := n.(generation := n.generation + 1, snapshot := Assemble(db, id))])
  }

  function MaterializeAll(db: Db, ids: set<string>): Db {
    db.(nodes := map id | id in db.nodes ::
      if id in ids then db.nodes[id].(generation := db.nodes[id].generation + 1, snapshot := Assemble(db, id))
      else db.nodes[id])
  }

  // ----- the key report -----

  datatype Status = Stored | Matched | Rejected | UnknownNode

  /** The nodes that have a WireGuard interface towards `id`, other than `id` itself. */
  function Siblings(db: Db, id: string): set<string> {
    set k | k in db.interfaces && db.interfaces[k].wireguard && RemoteOf(db, db.interfaces[k]) == Some(id) &&
      db.interfaces[k].node != id :: db.interfaces[k].node
  }

  function Pin(db: Db, id: string, key: string, escrow: Option<string>): Db
    requires id in db.nodes
  {
    db.(nodes := db.nodes[id := db.nodes[id].(key := Some(key), escrow := escrow)])
  }

  function StatusOf(db: Db, id: string, key: string): Status {
    if id !in db.nodes then UnknownNode
    else if db.nodes[id].key.None? then Stored
    else if db.nodes[id].key.value == key then Matched
    else Rejected
  }

  function AfterReport(db: Db, id: string, key: string, escrow: Option<string>): Db {
    match StatusOf(db, id, key)
    case UnknownNode => db
    case Rejected => db
    case Matched => if escrow.Some? then db.(nodes := db.nodes[id := db.nodes[id].(escrow := escrow)]) else db
    case Stored => MaterializeAll(Pin(db, id, key, escrow), Siblings(db, id))
  }

  // ----- everything else that writes -----

  datatype Op =
    | Report(id: string, key: string, escrow: Option<string>)
    | Enroll(id: string)
    | Edit(id: string, interfaces: map<nat, Interface>, peerings: map<nat, Peering>)
    | Retire(id: string, retired: bool)
    | AddPeering(p: nat, peering: Peering)
    | DropPeering(p: nat)
    | Patch(p: nat, remote: Option<string>)
    | Backfill(id: string, added: map<nat, Peering>, links: map<nat, nat>)
    | Rollback(id: string, snapshot: map<nat, string>)

  /** Every peering has a local node, and its interfaces are on that node. Nothing keeps a node from
      peering with itself. */
  ghost predicate WellFormed(db: Db) {
    && (forall p :: p in db.peerings ==> db.peerings[p].local in db.nodes)
    && (forall k :: k in db.interfaces ==> db.interfaces[k].node in db.nodes && PeeringIsLocal(db, db.interfaces[k]))
  }

  predicate PeeringIsLocal(db: Db, i: Interface) {
    i.peering.None? || (i.peering.value in db.peerings && db.peerings[i.peering.value].local == i.node)
  }

  /** The admin writes on one node: they touch only its interfaces and its peerings. */
  ghost predicate OnlyOn(db: Db, id: string, interfaces: map<nat, Interface>, peerings: map<nat, Peering>) {
    && (forall k :: k in db.interfaces && db.interfaces[k].node != id ==> k in interfaces && interfaces[k] == db.interfaces[k])
    && (forall k :: k in interfaces && interfaces[k].node != id ==> k in db.interfaces && interfaces[k] == db.interfaces[k])
    && (forall p :: p in db.peerings && db.peerings[p].local != id ==> p in peerings && peerings[p] == db.peerings[p])
    && (forall p :: p in peerings && peerings[p].local != id ==> p in db.peerings && peerings[p] == db.peerings[p])
  }

  function Unlinked(interfaces: map<nat, Interface>, p: nat): map<nat, Interface> {
    map k | k in interfaces :: if interfaces[k].peering == Some(p) then interfaces[k].(peering := None) else interfaces[k]
  }

  function Linked(interfaces: map<nat, Interface>, links: map<nat, nat>): map<nat, Interface> {
    map k | k in interfaces :: if k in links then interfaces[k].(peering := Some(links[k])) else interfaces[k]
  }

  function Step(db: Db, op: Op): Db {
    match op
    case Report(id, key, escrow) => AfterReport(db, id, key, escrow)
    case Enroll(id) => if id in db.nodes then db else db.(nodes := db.nodes[id := Node(None, None, false, 0, map[])])
    case Edit(id, interfaces, peerings) => Materialize(db.(interfaces := interfaces, peerings := peerings), id)
    case Retire(id, retired) =>
      if id !in db.nodes then db
      else
        var marked := db.(nodes := db.nodes[id := db.nodes[id].(retired := retired)]);
        if db.nodes[id].generation > 0 then Materialize(marked, id) else marked
    case AddPeering(p, peering) => if p in db.peerings then db else db.(peerings := db.peerings[p := peering])
    case DropPeering(p) => db.(peerings := db.peerings - {p}, interfaces := Unlinked(db.interfaces, p))
    case Patch(p, remote) =>
      if p !in db.peerings then db else db.(peerings := db.peerings[p := db.peerings[p].(remote := remote)])
    case Backfill(id, added, links) =>
      db.(peerings := db.peerings + added, interfaces := Linked(db.interfaces, links))
    case Rollback(id, snapshot) =>
      if id !in db.nodes then db
      else db.(nodes := db.nodes[id := db.nodes[id].(generation := db.nodes[id].generation + 1, snapshot := snapshot)])
  }

  /** What the database enforces, and how far each write reaches. */
  ghost predicate Admissible(db: Db, op: Op) {
    && WellFormed(Step(db, op))
    && match op
       case Edit(id, interfaces, peerings) => id in db.nodes && OnlyOn(db, id, interfaces, peerings)
       case Backfill(id, added, links) =>
         && id in db.nodes && added.Keys !! db.peerings.Keys && (forall p :: p in added ==> added[p].local == id)
         && (forall k :: k in links ==> IsLoose(db, id, k) && links[k] in added)
       case _ => true
  }

  predicate IsLoose(db: Db, id: string, k: nat) {
    k in db.interfaces && db.interfaces[k].node == id && db.interfaces[k].peering.None?
  }

  /** The writes that publish the node they touch, or touch nothing a snapshot hands out. */
  predicate Republishes(op: Op) {
    !op.Patch? && !op.Backfill? && !op.Rollback?
  }

  // ----- the invariant -----

  /** This interface's snapshot carries the key its remote end has on record. */
  ghost predicate Carried(db: Db, k: nat)
    requires k in db.interfaces
  {
    var i := db.interfaces[k];
    i.node in db.nodes && !db.nodes[i.node].retired && db.nodes[i.node].generation > 0 && i.enabled && i.wireguard &&
      PeerKey(db, i).Some? ==>
        k in db.nodes[i.node].snapshot && db.nodes[i.node].snapshot[k] == PeerKey(db, i).value
  }

  ghost predicate AllCarried(db: Db) {
    forall k :: k in db.interfaces ==> Carried(db, k)
  }

  lemma MaterializedCarries(db: Db, id: string, k: nat)
    requires id in db.nodes && k in db.interfaces && (db.interfaces[k].node != id ==> Carried(db, k))
    ensures Carried(Materialize(db, id), k)
  {
    var out := Materialize(db, id);
    assert PeerKey(out, db.interfaces[k]) == PeerKey(db, db.interfaces[k]);
  }

  /** A tunnel of the node to itself, which its own snapshot does not carry with this key. */
  ghost predicate SelfTunnelLacks(db: Db, id: string, key: string, k: nat) {
    && HandsOut(db, id, k) && RemoteOf(db, db.interfaces[k]) == Some(id) && key != ""
    && id in db.nodes && !db.nodes[id].retired && db.nodes[id].generation > 0
    && (k !in db.nodes[id].snapshot || db.nodes[id].snapshot[k] != key)
  }

  lemma ReportAt(db: Db, id: string, key: string, escrow: Option<string>, k: nat)
    requires WellFormed(db) && AllCarried(db) && k in db.interfaces
    ensures Carried(AfterReport(db, id, key, escrow), k) <==>
      !(StatusOf(db, id, key).Stored? && SelfTunnelLacks(db, id, key, k))
  {
    assert Carried(db, k);
    if StatusOf(db, id, key).Stored? {
      hide WellFormed, AllCarried;
      StoredAt(db, id, key, escrow, k);
    }
  }

  lemma StoredAt(db: Db, id: string, key: string, escrow: Option<string>, k: nat)
    requires k in db.interfaces && Carried(db, k) && StatusOf(db, id, key).Stored?
    ensures Carried(AfterReport(db, id, key, escrow), k) <==> !SelfTunnelLacks(db, id, key, k)
  {
    var i, out := db.interfaces[k], AfterReport(db, id, key, escrow);
    var pinned := Pin(db, id, key, escrow);
    assert PeerKey(out, i) == PeerKey(pinned, i);
    if RemoteOf(db, i) == Some(id) && i.wireguard {
      assert i.node != id ==> i.node in Siblings(db, id);
    } else {
      assert PeerKey(pinned, i) == PeerKey(db, i) || !i.wireguard;
    }
  }

  /** What a stored report leaves out: the reporting node itself. */
  ghost predicate LeavesItself(db: Db, op: Op) {
    op.Report? && StatusOf(db, op.id, op.key).Stored? &&
      exists k :: k in db.interfaces && SelfTunnelLacks(db, op.id, op.key, k)
  }

  /** A report keeps every key carried exactly if the node has no tunnel to itself that lacks the key. */
  lemma ReportKeepsIff(db: Db, id: string, key: string, escrow: Option<string>)
    requires WellFormed(db) && AllCarried(db)
    ensures AllCarried(Step(db, Report(id, key, escrow))) <==> !LeavesItself(db, Report(id, key, escrow))
  {
    forall k | k in db.interfaces
      ensures Carried(AfterReport(db, id, key, escrow), k) <==>
        !(StatusOf(db, id, key).Stored? && SelfTunnelLacks(db, id, key, k))
    {
      ReportAt(db, id, key, escrow, k);
    }
    assert AfterReport(db, id, key, escrow).interfaces == db.interfaces;
    hide Carried, SelfTunnelLacks, StatusOf, AfterReport;
  }

  lemma EditKeeps(db: Db, id: string, interfaces: map<nat, Interface>, peerings: map<nat, Peering>, k: nat)
    requires WellFormed(db) && AllCarried(db) && id in db.nodes && OnlyOn(db, id, interfaces, peerings)
    requires k in interfaces
    ensures Carried(Step(db, Edit(id, interfaces, peerings)), k)
  {
    var edited := db.(interfaces := interfaces, peerings := peerings);
    if interfaces[k].node != id {
      assert Carried(db, k);
      assert RemoteOf(edited, interfaces[k]) == RemoteOf(db, db.interfaces[k]);
    }
    MaterializedCarries(edited, id, k);
  }

  lemma RetireKeeps(db: Db, id: string, retired: bool, k: nat)
    requires AllCarried(db) && k in db.interfaces
    ensures Carried(Step(db, Retire(id, retired)), k)
  {
    assert Carried(db, k);
    if id in db.nodes {
      var marked := db.(nodes := db.nodes[id := db.nodes[id].(retired := retired)]);
      assert PeerKey(marked, db.interfaces[k]) == PeerKey(db, db.interfaces[k]);
      if db.nodes[id].generation > 0 {
        MaterializedCarries(marked, id, k);
      }
    }
  }

  lemma QuietKeeps(db: Db, op: Op, k: nat)
    requires WellFormed(db) && AllCarried(db) && k in Step(db, op).interfaces
    requires op.Enroll? || op.AddPeering? || op.DropPeering?
    ensures Carried(Step(db, op), k)
  {
    assert Carried(db, k);
    var i := db.interfaces[k];
    if op.DropPeering? && i.peering != Some(op.p) {
      assert RemoteOf(Step(db, op), i) == RemoteOf(db, i);
    }
  }

  /** A write that publishes its node keeps every key carried, unless it is the first report of a
      node that peers with itself. */
  lemma StepKeepsIff(db: Db, op: Op)
    requires WellFormed(db) && AllCarried(db) && Admissible(db, op) && Republishes(op)
    ensures AllCarried(Step(db, op)) <==> !LeavesItself(db, op)
  {
    if op.Report? {
      ReportKeepsIff(db, op.id, op.key, op.escrow);
    } else {
      forall k | k in Step(db, op).interfaces ensures Carried(Step(db, op), k) {
        match op
        case Edit(id, interfaces, peerings) => EditKeeps(db, id, interfaces, peerings, k);
        case Retire(id, retired) => RetireKeeps(db, id, retired, k);
        case _ => QuietKeeps(db, op, k);
      }
    }
  }

  ghost predicate AllowedRun(db: Db, run: seq<Op>)
    decreases |run|
  {
    run != [] ==> Admissible(db, run[0]) && AllowedRun(Step(db, run[0]), run[1..])
  }

  function Run(db: Db, run: seq<Op>): Db
    decreases |run|
  {
    if run == [] then db else Run(Step(db, run[0]), run[1..])
  }

  const EMPTY := Db(map[], map[], map[])

  /** Every key is carried at every point of the run. */
  ghost predicate AlwaysCarried(db: Db, run: seq<Op>)
    decreases |run|
  {
    AllCarried(db) && (run != [] ==> AlwaysCarried(Step(db, run[0]), run[1..]))
  }

  ghost predicate NoneLeavesItself(db: Db, run: seq<Op>)
    decreases |run|
  {
    run != [] ==> !LeavesItself(db, run[0]) && NoneLeavesItself(Step(db, run[0]), run[1..])
  }

  lemma {:induction false} RunKeepsIff(db: Db, run: seq<Op>)
    requires WellFormed(db) && AllCarried(db) && AllowedRun(db, run) && forall op :: op in run ==> Republishes(op)
    ensures AlwaysCarried(db, run) <==> NoneLeavesItself(db, run)
    ensures AlwaysCarried(db, run) ==> AllCarried(Run(db, run))
    decreases |run|
  {
    hide WellFormed, AllCarried, Step, Republishes, LeavesItself;
    if run != [] {
      assert run[0] in run && forall op :: op in run[1..] ==> op in run;
      StepKeepsIff(db, run[0]);
      Formed(db, run[0]);
      if AllCarried(Step(db, run[0])) {
        RunKeepsIff(Step(db, run[0]), run[1..]);
      } else {
        assert !AlwaysCarried(Step(db, run[0]), run[1..]);
      }
    }
  }

  lemma Formed(db: Db, op: Op)
    requires Admissible(db, op)
    ensures WellFormed(Step(db, op))
  {
  }

  /** In a run without a rollback, a peering patch or a backfill, the current snapshot of every active
      node carries the recorded key of the remote node on every enabled peered tunnel, at every point
      of the run, if and only if no node that reports first has a published tunnel to itself. */
  lemma KeysReachEveryPeer(run: seq<Op>)
    requires AllowedRun(EMPTY, run) && forall op :: op in run ==> Republishes(op)
    ensures AlwaysCarried(EMPTY, run) <==> NoneLeavesItself(EMPTY, run)
    ensures AlwaysCarried(EMPTY, run) ==> AllCarried(Run(EMPTY, run))
  {
    RunKeepsIff(EMPTY, run);
  }

  ghost predicate NoSelfPeering(db: Db) {
    forall p :: p in db.peerings ==> db.peerings[p].remote != Some(db.peerings[p].local)
  }

  /** Without self-peerings nothing is left out. */
  lemma NoSelfNoneLeft(db: Db, op: Op)
    requires WellFormed(db) && NoSelfPeering(db)
    ensures !LeavesItself(db, op)
  {
  }

  lemma {:induction false} KeyNeverChanges(db: Db, run: seq<Op>, id: string)
    requires id in db.nodes && db.nodes[id].key.Some?
    ensures id in Run(db, run).nodes && Run(db, run).nodes[id].key == db.nodes[id].key
    decreases |run|
  {
    if run != [] {
      KeyNeverChanges(Step(db, run[0]), run[1..], id);
    }
  }

  /** A first report publishes exactly the siblings anew, in the same step; any other report
      publishes nothing. */
  lemma ReportPublishesSiblings(db: Db, id: string, key: string, escrow: Option<string>)
    requires WellFormed(db)
    ensures var out := AfterReport(db, id, key, escrow);
      && out.nodes.Keys == db.nodes.Keys
      && forall n :: n in db.nodes ==>
           out.nodes[n].generation == db.nodes[n].generation +
             if StatusOf(db, id, key).Stored? && n in Siblings(db, id) then 1 else 0
  {
  }

  // ----- what a publication holds, on the tables themselves -----

  /** `key` is on record, and not empty, for the node at the other end of the interface's peering. */
  ghost predicate OnRecord(db: Db, i: Interface, key: string) {
    && i.peering.Some? && i.peering.value in db.peerings
    && var remote := db.peerings[i.peering.value].remote;
       remote.Some? && remote.value in db.nodes && db.nodes[remote.value].key == Some(key) && key != ""
  }

  /** The snapshot of the node is what the tables say: exactly its enabled WireGuard interfaces, none
      if it is retired, each with the key on record for its other end or else with that of its spec. */
  ghost predicate Published(db: Db, id: string)
    requires id in db.nodes
  {
    var snapshot := db.nodes[id].snapshot;
    && (forall k :: k in snapshot <==>
          !db.nodes[id].retired && k in db.interfaces &&
          db.interfaces[k].node == id && db.interfaces[k].enabled && db.interfaces[k].wireguard)
    && (forall k, key :: k in snapshot && k in db.interfaces && OnRecord(db, db.interfaces[k], key) ==> snapshot[k] == key)
    && (forall k :: k in snapshot && k in db.interfaces && (forall key :: !OnRecord(db, db.interfaces[k], key)) ==>
          snapshot[k] == db.interfaces[k].specKey)
  }

  lemma KeyForMeans(db: Db, i: Interface)
    ensures forall key :: OnRecord(db, i, key) ==> KeyFor(db, i) == key
    ensures (forall key :: !OnRecord(db, i, key)) ==> KeyFor(db, i) == i.specKey
  {
    if PeerKey(db, i).Some? {
      assert OnRecord(db, i, PeerKey(db, i).value);
    }
  }

  lemma AssembledIsPublished(db: Db, id: string, source: Db)
    requires id in db.nodes && id in source.nodes && db.nodes[id].retired == source.nodes[id].retired
    requires db.interfaces == source.interfaces && db.peerings == source.peerings
    requires forall n :: n in db.nodes <==> n in source.nodes
    requires forall n :: n in db.nodes ==> db.nodes[n].key == source.nodes[n].key
    requires db.nodes[id].snapshot == Assemble(source, id)
    ensures Published(db, id)
  {
    hide KeyFor;
    forall k | k in db.interfaces
      ensures forall key :: OnRecord(db, db.interfaces[k], key) <==> OnRecord(source, db.interfaces[k], key)
      ensures forall key :: OnRecord(db, db.interfaces[k], key) ==> KeyFor(source, db.interfaces[k]) == key
      ensures (forall key :: !OnRecord(db, db.interfaces[k], key)) ==> KeyFor(source, db.interfaces[k]) == db.interfaces[k].specKey
    {
      KeyForMeans(source, db.interfaces[k]);
    }
    hide OnRecord;
  }

  /** Whatever write gives a node its next generation, other than a rollback, leaves it published. */
  lemma NextGenerationIsPublished(db: Db, op: Op, id: string)
    requires !op.Rollback? && id in db.nodes && id in Step(db, op).nodes
    requires Step(db, op).nodes[id].generation != db.nodes[id].generation
    ensures Published(Step(db, op), id)
  {
    hide Published, Assemble, Siblings;
    var out := Step(db, op);
    match op {
      case Report(n, key, escrow) => AssembledIsPublished(out, id, Pin(db, n, key, escrow));
      case Edit(n, interfaces, peerings) => AssembledIsPublished(out, id, db.(interfaces := interfaces, peerings := peerings));
      case Retire(n, retired) => AssembledIsPublished(out, id, db.(nodes := db.nodes[n := db.nodes[n].(retired := retired)]));
      case _ =>
    }
  }

  /** The nodes that a report concerns: those with a WireGuard interface on a peering towards `id`. */
  ghost predicate PeersWith(db: Db, n: string, id: string) {
    && n != id
    && exists k ::
         && k in db.interfaces && db.interfaces[k].node == n && db.interfaces[k].wireguard
         && db.interfaces[k].peering.Some? && db.interfaces[k].peering.value in db.peerings
         && db.peerings[db.interfaces[k].peering.value].remote == Some(id)
  }

  lemma SiblingsMean(db: Db, id: string)
    ensures forall n :: n in Siblings(db, id) <==> PeersWith(db, n, id)
  {
    forall n ensures n in Siblings(db, id) <==> PeersWith(db, n, id) {
      if n in Siblings(db, id) {
        var k :| k in db.interfaces && db.interfaces[k].wireguard && RemoteOf(db, db.interfaces[k]) == Some(id) &&
          db.interfaces[k].node != id && db.interfaces[k].node == n;
      }
    }
  }

  /** Exactly the nodes that peer with `id` get their next generation, and that is published. */
  ghost predicate PeersPublished(before: Db, after: Db, id: string) {
    && after.interfaces == before.interfaces && after.peerings == before.peerings && after.nodes.Keys == before.nodes.Keys
    && forall n :: n in before.nodes ==>
         if PeersWith(before, n, id) then
           && Published(after, n)
           && after.nodes[n] ==
                before.nodes[n].(generation := before.nodes[n].generation + 1, snapshot := after.nodes[n].snapshot)
         else after.nodes[n] == before.nodes[n]
  }

  lemma PublishedAtOnce(db: Db, id: string)
    ensures PeersPublished(db, MaterializeAll(db, Siblings(db, id)), id)
  {
    var out := MaterializeAll(db, Siblings(db, id));
    SiblingsMean(db, id);
    hide Published, Assemble, PeersWith, Siblings;
    forall n | n in db.nodes && n in Siblings(db, id) ensures Published(out, n) {
      AssembledIsPublished(out, n, db);
    }
  }

  // ----- the three writes that publish nothing -----

  /** A patched peering keeps every snapshot right exactly when the snapshots that use it already
      carry the key of the new remote node. */
  lemma PatchKeepsIff(db: Db, p: nat, remote: Option<string>)
    requires WellFormed(db) && AllCarried(db) && p in db.peerings
    ensures AllCarried(Step(db, Patch(p, remote))) <==>
      forall k :: k in db.interfaces && db.interfaces[k].peering == Some(p) ==> CarriesKeyOf(db, k, remote)
  {
    var out := Step(db, Patch(p, remote));
    forall k | k in db.interfaces
      ensures Carried(out, k) <==> db.interfaces[k].peering == Some(p) ==> CarriesKeyOf(db, k, remote)
    {
      assert Carried(db, k);
      RemoteAfterPatch(db, p, remote, db.interfaces[k]);
    }
  }

  lemma RemoteAfterPatch(db: Db, p: nat, remote: Option<string>, i: Interface)
    requires p in db.peerings
    ensures RemoteOf(Step(db, Patch(p, remote)), i) == if i.peering == Some(p) then remote else RemoteOf(db, i)
  {
  }

  /** What the interface would have to carry if its remote end were `remote`. */
  ghost predicate CarriesKeyOf(db: Db, k: nat, remote: Option<string>)
    requires k in db.interfaces
  {
    var i := db.interfaces[k];
    i.node in db.nodes && !db.nodes[i.node].retired && db.nodes[i.node].generation > 0 && i.enabled && i.wireguard &&
      remote.Some? && Recorded(db, remote.value).Some? ==>
        k in db.nodes[i.node].snapshot && db.nodes[i.node].snapshot[k] == Recorded(db, remote.value).value
  }

  /** The same for a backfill, which links interfaces to new peerings without publishing. */
  lemma BackfillKeepsIff(db: Db, id: string, added: map<nat, Peering>, links: map<nat, nat>)
    requires WellFormed(db) && AllCarried(db) && Admissible(db, Backfill(id, added, links))
    ensures AllCarried(Step(db, Backfill(id, added, links))) <==>
      forall k :: k in links ==> CarriesKeyOf(db, k, added[links[k]].remote)
  {
    var out := Step(db, Backfill(id, added, links));
    forall k | k in db.interfaces
      ensures Carried(out, k) <==> k in links ==> CarriesKeyOf(db, k, added[links[k]].remote)
    {
      assert Carried(db, k);
      RemoteAfterBackfill(db, id, added, links, k);
    }
  }

  lemma RemoteAfterBackfill(db: Db, id: string, added: map<nat, Peering>, links: map<nat, nat>, k: nat)
    requires WellFormed(db) && Admissible(db, Backfill(id, added, links)) && k in db.interfaces
    ensures var out := Step(db, Backfill(id, added, links));
      && k in out.interfaces
      && out.interfaces[k] == db.interfaces[k].(peering := out.interfaces[k].peering)
      && RemoteOf(out, out.interfaces[k]) == if k in links then added[links[k]].remote else RemoteOf(db, db.interfaces[k])
  {
  }

  lemma RollbackKeepsIff(db: Db, id: string, snapshot: map<nat, string>)
    requires WellFormed(db) && AllCarried(db) && id in db.nodes
    ensures AllCarried(Step(db, Rollback(id, snapshot))) <==>
      forall k :: k in db.interfaces && HandsOut(db, id, k) && !db.nodes[id].retired && PeerKey(db, db.interfaces[k]).Some? ==>
        k in snapshot && snapshot[k] == PeerKey(db, db.interfaces[k]).value
  {
    var out := Step(db, Rollback(id, snapshot));
    forall k | k in db.interfaces
      ensures Carried(out, k) <==>
        (HandsOut(db, id, k) && !db.nodes[id].retired && PeerKey(db, db.interfaces[k]).Some? ==>
          k in snapshot && snapshot[k] == PeerKey(db, db.interfaces[k]).value)
    {
      assert Carried(db, k);
      assert PeerKey(out, db.interfaces[k]) == PeerKey(db, db.interfaces[k]);
    }
  }

  /** Two published nodes, `a` with a tunnel that no peering covers yet, `b` with a recorded key. */
  const LOOSE := Db(
    map["a" := Node(None, None, false, 1, map[0 := "old"]), "b" := Node(Some("new"), None, false, 1, map[])],
    map[1 := Peering("a", None)],
    map[0 := Interface("a", true, true, None, "old")])

  /** A backfill that finds `b` behind the tunnel leaves `a`'s snapshot with the old key. */
  lemma BackfillGoesStale() returns (op: Op)
    ensures op.Backfill? && WellFormed(LOOSE) && AllCarried(LOOSE) && Admissible(LOOSE, op)
    ensures !AllCarried(Step(LOOSE, op))
  {
    op := LooseLink();
    assert op == Backfill("a", op.added, op.links) && 0 in op.links && op.added[op.links[0]].remote == Some("b");
    hide WellFormed, AllCarried, Admissible, Step, LooseLink;
    LooseIsFine();
    LooseLinkIsFine();
    LooseLacksKey();
    hide CarriesKeyOf;
    BackfillKeepsIff(LOOSE, "a", op.added, op.links);
  }

  lemma LooseLacksKey()
    ensures !CarriesKeyOf(LOOSE, 0, Some("b"))
  {
    assert "old"[0] != "new"[0];
  }

  function LooseLink(): Op {
    Backfill("a", map[2 := Peering("a", Some("b"))], map[0 := 2])
  }

  lemma LooseIsFine()
    ensures WellFormed(LOOSE) && AllCarried(LOOSE)
  {
    assert Carried(LOOSE, 0);
  }

  lemma LooseLinkIsFine()
    ensures Admissible(LOOSE, LooseLink())
  {
    hide Step, WellFormed;
    LinkedIs();
    LinkedIsFine(Step(LOOSE, LooseLink()), "a");
  }

  lemma LinkedIs()
    ensures Step(LOOSE, LooseLink()) == LOOSE.(peerings := map[1 := Peering("a", None), 2 := Peering("a", Some("b"))],
                                               interfaces := map[0 := Interface("a", true, true, Some(2), "old")])
  {
    var out := Step(LOOSE, LooseLink());
    assert out.peerings == map[1 := Peering("a", None), 2 := Peering("a", Some("b"))];
    assert out.interfaces == map[0 := Interface("a", true, true, Some(2), "old")];
  }

  lemma LinkedIsFine(db: Db, id: string)
    requires id in db.nodes && db.peerings == map[1 := Peering(id, None), 2 := Peering(id, Some("b"))]
    requires db.interfaces == map[0 := Interface(id, true, true, Some(2), "old")]
    ensures WellFormed(db)
  {
  }

  /** So does pointing an existing peering at another node. */
  lemma PatchGoesStale() returns (db: Db, op: Op)
    ensures op.Patch? && WellFormed(db) && AllCarried(db) && Admissible(db, op) && !AllCarried(Step(db, op))
  {
    db := LOOSE.(interfaces := map[0 := Interface("a", true, true, Some(1), "old")]);
    op := Patch(1, Some("b"));
    PatchedIsFine(db);
    var out := Step(db, op);
    assert out.interfaces == db.interfaces && out.nodes == db.nodes && RemoteOf(out, out.interfaces[0]) == Some("b");
    assert "old"[0] != "new"[0];
    hide WellFormed, Admissible, Step, RemoteOf;
    assert !Carried(out, 0);
  }

  lemma PatchedIsFine(db: Db)
    requires db == LOOSE.(interfaces := map[0 := Interface("a", true, true, Some(1), "old")])
    ensures WellFormed(db) && AllCarried(db) && Admissible(db, Patch(1, Some("b")))
  {
    assert Carried(db, 0);
    hide Carried;
  }

  /** And a node that peers with itself is left out of its own propagation. */
  lemma SelfPeeringGoesStale() returns (db: Db, op: Op)
    ensures op.Report? && WellFormed(db) && AllCarried(db) && Admissible(db, op) && !AllCarried(Step(db, op))
  {
    db := Db(map["a" := Node(None, None, false, 1, map[0 := "old"])], map[1 := Peering("a", Some("a"))],
             map[0 := Interface("a", true, true, Some(1), "old")]);
    op := Report("a", "new", None);
    assert Carried(db, 0);
    var out := Step(db, op);
    assert Siblings(db, "a") == {};
    assert out.nodes["a"].key == Some("new") && out.nodes["a"].snapshot == map[0 := "old"];
    assert RemoteOf(out, out.interfaces[0]) == Some("a");
    assert !Carried(out, 0);
  }

  // ----- the service -----

  class ControlPlane {
    var db: Db

    constructor ()
      ensures db == EMPTY
    {
      db := EMPTY;
    }

    /** `apply_wireguard_key_report`: the returned generations are those of the siblings. */
    method ApplyKeyReport(id: string, key: string, escrow: Option<string>)
      returns (status: Status, propagated: map<string, nat>)
      requires WellFormed(db)
      modifies this
      ensures status == StatusOf(old(db), id, key)
      ensures db == AfterReport(old(db), id, key, escrow)
      ensures match status
        case UnknownNode => id !in old(db).nodes
        case Stored => id in old(db).nodes && old(db).nodes[id].key == None
        case Matched => id in old(db).nodes && old(db).nodes[id].key == Some(key)
        case Rejected => id in old(db).nodes && old(db).nodes[id].key.Some? && old(db).nodes[id].key != Some(key)
      ensures status.UnknownNode? || status.Rejected? ==> db == old(db)
      ensures status.Matched? ==>
        var kept := if escrow.Some? then escrow else old(db).nodes[id].escrow;
        db == old(db).(nodes := old(db).nodes[id := old(db).nodes[id].(escrow := kept)])
      ensures status.Stored? ==>
        PeersPublished(old(db).(nodes := old(db).nodes[id := old(db).nodes[id].(key := Some(key), escrow := escrow)]), db, id)
      ensures propagated.Keys == if status.Stored? then Siblings(old(db), id) else {}
      ensures forall n :: n in propagated ==> n in db.nodes && propagated[n] == db.nodes[n].generation
    {
      hide WellFormed, PeersPublished, MaterializeAll, Siblings;
      propagated := map[];
      if id !in db.nodes {
        return UnknownNode, propagated;
      }
      var node := db.nodes[id];
      if node.key.None? {
        db := db.(nodes := db.nodes[id := node.(key := Some(key), escrow := escrow)]);
        PinnedSiblings(old(db), id, key, escrow);
        propagated := PropagateToPeers(id);
        return Stored, propagated;
      }
      if node.key.value == key {
        if escrow.Some? {
          db := db.(nodes := db.nodes[id := node.(escrow := escrow)]);
        }
        return Matched, propagated;
      }
      return Rejected, propagated;
    }

    /** One more sibling after those in `done`. */
    method PublishSibling(id: string, generations: map<string, nat>, ghost start: Db, ghost done: set<string>)
      returns (more: map<string, nat>)
      requires db == MaterializeAll(start, done) && id in start.nodes && id !in done && generations.Keys == done
      requires forall n :: n in done ==> n in db.nodes && generations[n] == db.nodes[n].generation
      modifies this
      ensures db == MaterializeAll(start, done + {id}) && more.Keys == done + {id}
      ensures forall n :: n in more ==> n in db.nodes && more[n] == db.nodes[n].generation
    {
      hide Materialize, MaterializeAll;
      OneMore(start, done, id);
      db := Materialize(db, id);
      more := generations[id := db.nodes[id].generation];
    }

    /** `_propagate_to_peers`. */
    method PropagateToPeers(id: string) returns (generations: map<string, nat>)
      requires WellFormed(db)
      modifies this
      ensures db == MaterializeAll(old(db), Siblings(old(db), id))
      ensures PeersPublished(old(db), db, id)
      ensures generations.Keys == Siblings(old(db), id)
      ensures forall n :: n in generations ==> n in db.nodes && generations[n] == db.nodes[n].generation
    {
      hide MaterializeAll, Siblings, WellFormed, PeersPublished;
      ghost var start := db;
      PublishedAtOnce(db, id);
      SiblingsExist(db, id);
      NoMore(db);
      var siblings := Sorted(Siblings(db, id));
      generations := map[];
      assert Among(siblings, 0) == {};
      for i := 0 to |siblings|
        invariant db == MaterializeAll(start, Among(siblings, i))
        invariant generations.Keys == Among(siblings, i)
        invariant forall n :: n in Among(siblings, i) ==> n in db.nodes && generations[n] == db.nodes[n].generation
      {
        SortedIsNew(siblings, i);
        generations := PublishSibling(siblings[i], generations, start, Among(siblings, i));
      }
      assert Among(siblings, |siblings|) == Siblings(start, id);
    }
  }

  lemma NoMore(db: Db)
    ensures MaterializeAll(db, {}) == db
  {
    assert MaterializeAll(db, {}).nodes == db.nodes;
  }

  function Among(s: seq<string>, i: nat): set<string>
    requires i <= |s|
  {
    set k | 0 <= k < i :: s[k]
  }

  lemma SortedIsNew(s: seq<string>, i: nat)
    requires Ascending(s) && i < |s|
    ensures s[i] !in Among(s, i) && Among(s, i + 1) == Among(s, i) + {s[i]} && s[i] in s
  {
    forall k | 0 <= k < i ensures s[k] != s[i] {
      Total(s[k], s[i]);
    }
  }

  lemma PinnedSiblings(db: Db, id: string, key: string, escrow: Option<string>)
    requires id in db.nodes && WellFormed(db)
    ensures Siblings(Pin(db, id, key, escrow), id) == Siblings(db, id) && WellFormed(Pin(db, id, key, escrow))
  {
  }

  lemma SiblingsExist(db: Db, id: string)
    requires WellFormed(db)
    ensures forall n :: n in Siblings(db, id) ==> n in db.nodes
  {
  }

  /** Materialising depends on no snapshot, so the siblings may be taken one after another. */
  lemma OneMore(db: Db, done: set<string>, id: string)
    requires id in db.nodes && id !in done
    ensures Materialize(MaterializeAll(db, done), id) == MaterializeAll(db, done + {id})
    ensures MaterializeAll(db, done + {id}).nodes.Keys == MaterializeAll(db, done).nodes.Keys == db.nodes.Keys
    ensures forall n :: n in done && n in db.nodes ==>
              MaterializeAll(db, done + {id}).nodes[n] == MaterializeAll(db, done).nodes[n]
  {
    var partly := MaterializeAll(db, done);
    forall k | k in db.interfaces ensures KeyFor(partly, db.interfaces[k]) == KeyFor(db, db.interfaces[k]) {
    }
    assert Assemble(partly, id) == Assemble(db, id);
    assert Materialize(partly, id).nodes == MaterializeAll(db, done + {id}).nodes;
  }
}
