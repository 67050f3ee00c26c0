/** The statistics the control server derives from a node's routing table: one best route for every
    prefix, and counters over those. A `Counter` is a multiset, so its sum is its size. */
module RoutingAggregate {
  import opened Wrappers

  /** An observed route, as the schema admits it. */
  datatype Route = Route(prefix: string, origin: Option<nat>, asPath: seq<nat>, nextHop: Option<string>,
                         protocol: Option<string>, primary: bool, local: bool, communities: seq<string>,
                         largeCommunities: seq<string>, rpki: Option<string>)

  predicate IsV6(prefix: string) {
    ':' in prefix
  }

  /** The number a string of digits spells; None for anything else. */
  function Number(s: string): Option<nat> {
    if s == "" || !IsDigit(s[|s| - 1]) then None
    else
      var digit := s[|s| - 1] as nat - '0' as nat;
      if |s| == 1 then Some(digit)
      else
        match Number(s[..|s| - 1])
        case None => None
        case Some(n) => Some(10 * n + digit)
  }

  /** The prefix length, 0 if there is none to read. */
  function LengthOf(prefix: string): nat {
    if prefix == "" then 0
    else if prefix[0] == '/' then (var n := Number(prefix[1..]); if n.Some? then n.value else 0)
    else LengthOf(prefix[1..])
  }

  /** The family and the length of `address/length`, and of an address alone. */
  lemma {:induction false} PrefixReads(address: string, length: nat)
    requires '/' !in address
    ensures IsV6(address + "/" + Digits(length)) <==> ':' in address
    ensures LengthOf(address + "/" + Digits(length)) == length && LengthOf(address) == 0
    decreases |address|
  {
    var prefix := address + "/" + Digits(length);
    NumberReads(length);
    if address == "" {
      assert prefix[1..] == Digits(length);
    } else {
      assert prefix[1..] == address[1..] + "/" + Digits(length);
      assert address == [address[0]] + address[1..];
      PrefixReads(address[1..], length);
    }
  }

  /** Decimal digits read back, and contain no colon. */
  lemma {:induction false} NumberReads(n: nat)
    ensures Number(Digits(n)) == Some(n) && ':' !in Digits(n)
  {
    var s := Digits(n);
    if n >= 10 {
      NumberReads(n / 10);
      assert s[..|s| - 1] == Digits(n / 10);
    }
  }

  function Prefixes(routes: seq<Route>): set<string> {
    set r | r in routes :: r.prefix
  }

  // ----- one best route for every prefix -----

  /** The last primary route of the prefix, or else the first route of it. */
  ghost predicate IsBest(routes: seq<Route>, prefix: string, best: Route) {
    exists i :: 0 <= i < |routes| && routes[i] == best && best.prefix == prefix &&
      if best.primary then forall j :: i < j < |routes| && routes[j].prefix == prefix ==> !routes[j].primary
      else
        && (forall j :: 0 <= j < i ==> routes[j].prefix != prefix)
        && (forall j :: 0 <= j < |routes| && routes[j].prefix == prefix ==> !routes[j].primary)
  }

  /** The dictionary after a list of routes: its keys in insertion order, and its values. */
  datatype Table = Table(order: seq<string>, best: map<string, Route>)

  function Seen(t: Table, r: Route): Table {
    if r.prefix !in t.best then Table(t.order + [r.prefix], t.best[r.prefix := r])
    else if r.primary then t.(best := t.best[r.prefix := r])
    else t
  }

  function TableOf(routes: seq<Route>): Table {
    if routes == [] then Table([], map[]) else Seen(TableOf(routes[..|routes| - 1]), routes[|routes| - 1])
  }

  ghost predicate Sound(t: Table) {
    && (forall p :: p in t.order <==> p in t.best)
    && (forall i, j :: 0 <= i < j < |t.order| ==> t.order[i] != t.order[j])
    && (forall p :: p in t.best ==> t.best[p].prefix == p)
  }

  lemma BestStays(routes: seq<Route>, r: Route, p: string, best: Route)
    requires IsBest(routes, p, best) && (r.prefix != p || !r.primary)
    ensures IsBest(routes + [r], p, best)
  {
    var more := routes + [r];
    var i :| 0 <= i < |routes| && routes[i] == best && best.prefix == p &&
      if best.primary then forall j :: i < j < |routes| && routes[j].prefix == p ==> !routes[j].primary
      else
        && (forall j :: 0 <= j < i ==> routes[j].prefix != p)
        && (forall j :: 0 <= j < |routes| && routes[j].prefix == p ==> !routes[j].primary);
    assert more[i] == best;
  }

  lemma BestIsLast(routes: seq<Route>, r: Route)
    requires r.primary || r.prefix !in Prefixes(routes)
    ensures IsBest(routes + [r], r.prefix, r)
  {
    var more := routes + [r];
    assert more[|routes|] == r;
    forall j | 0 <= j < |routes| ensures more[j] == routes[j] && routes[j] in routes {
    }
  }

  lemma SeenIsSound(t: Table, r: Route)
    requires Sound(t)
    ensures Sound(Seen(t, r)) && Seen(t, r).best.Keys == t.best.Keys + {r.prefix}
    ensures forall p :: p in t.best && (p != r.prefix || !r.primary) ==> Seen(t, r).best[p] == t.best[p]
    ensures r.primary || r.prefix !in t.best ==> Seen(t, r).best[r.prefix] == r
  {
  }

  lemma OnePrefixMore(routes: seq<Route>, r: Route)
    ensures Prefixes(routes + [r]) == Prefixes(routes) + {r.prefix}
  {
    assert r in routes + [r];
  }

  /** The dictionary holds exactly the prefixes of the list, each once, each with its best route. */
  lemma {:induction false} TableHoldsBest(routes: seq<Route>)
    ensures Sound(TableOf(routes)) && TableOf(routes).best.Keys == Prefixes(routes)
    ensures forall p :: p in Prefixes(routes) ==> IsBest(routes, p, TableOf(routes).best[p])
    decreases |routes|
  {
    if routes != [] {
      var init, r := routes[..|routes| - 1], routes[|routes| - 1];
      assert routes == init + [r];
      hide IsBest, Sound, Seen;
      TableHoldsBest(init);
      var t := TableOf(init);
      SeenIsSound(t, r);
      OnePrefixMore(init, r);
      assert TableOf(routes) == Seen(TableOf(init), r);
      hide Prefixes, TableOf;
      forall p | p in Prefixes(routes) ensures IsBest(routes, p, TableOf(routes).best[p]) {
        if p == r.prefix && (r.primary || p !in t.best) {
          BestIsLast(init, r);
        } else {
          BestStays(init, r, p, t.best[p]);
        }
      }
    }
  }

  /** Where a member of the order is first seen: before that, only earlier members occur. */
  lemma {:induction false} FirstSeen(routes: seq<Route>, i: nat) returns (l: nat)
    requires i < |TableOf(routes).order|
    ensures l < |routes| && routes[l].prefix == TableOf(routes).order[i]
    ensures forall m :: 0 <= m < l ==> routes[m].prefix in TableOf(routes).order[..i]
    decreases |routes|
  {
    hide Prefixes;
    var init, r := routes[..|routes| - 1], routes[|routes| - 1];
    var before := TableOf(init).order;
    assert TableOf(routes) == Seen(TableOf(init), r);
    if i < |before| {
      l := FirstSeen(init, i);
      assert TableOf(routes).order[..i] == before[..i];
    } else {
      l := |routes| - 1;
      assert TableOf(routes).order[..i] == before;
      forall m | 0 <= m < l ensures routes[m].prefix in before {
        TableHoldsBest(init);
        hide TableOf;
        assert init[m] in init && init[m].prefix in Prefixes(init) by { PrefixIn(init, m); }
      }
    }
  }

  lemma PrefixIn(routes: seq<Route>, m: nat)
    requires m < |routes|
    ensures routes[m] in routes && routes[m].prefix in Prefixes(routes)
  {
  }

  function Values(order: seq<string>, best: map<string, Route>): (r: seq<Route>)
    requires forall p :: p in order ==> p in best
    ensures |r| == |order| && forall i :: 0 <= i < |r| ==> r[i] == best[order[i]]
  {
    seq(|order|, i requires 0 <= i < |order| => (assert order[i] in order; best[order[i]]))
  }

  function BestRoutes(routes: seq<Route>): seq<Route> {
    TableHoldsBest(routes);
    Values(TableOf(routes).order, TableOf(routes).best)
  }

  /** As many best routes as distinct prefixes. */
  lemma BestAreDistinct(routes: seq<Route>)
    ensures |BestRoutes(routes)| == |Prefixes(routes)| && Prefixes(BestRoutes(routes)) == Prefixes(routes)
  {
    hide IsBest, TableOf, Seen;
    TableHoldsBest(routes);
    var t, best := TableOf(routes), BestRoutes(routes);
    DistinctCount(t.order);
    assert (set p | p in t.order) == Prefixes(routes);
    SamePrefixes(t, routes, best);
  }

  lemma SamePrefixes(t: Table, routes: seq<Route>, best: seq<Route>)
    requires Sound(t) && t.best.Keys == Prefixes(routes) && best == Values(t.order, t.best)
    ensures Prefixes(best) == Prefixes(routes)
  {
    forall p | p in Prefixes(routes) ensures p in Prefixes(best) {
      var i :| 0 <= i < |t.order| && t.order[i] == p;
      assert best[i] in best && best[i].prefix == p;
    }
    forall r | r in best ensures r.prefix in Prefixes(routes) {
      var i :| 0 <= i < |best| && best[i] == r;
      assert t.order[i] in t.order;
    }
  }

  lemma {:induction false} DistinctCount(s: seq<string>)
    requires forall i, j :: 0 <= i < j < |s| ==> s[i] != s[j]
    ensures |set p | p in s| == |s|
    decreases |s|
  {
    if s != [] {
      var init, last := s[..|s| - 1], s[|s| - 1];
      DistinctCount(init);
      assert s == init + [last];
      assert (set p | p in s) == (set p | p in init) + {last};
      assert last !in init;
    }
  }

  /** `_best_by_prefix`. */
  method BestByPrefix(routes: seq<Route>) returns (r: seq<Route>)
    ensures r == BestRoutes(routes)
  {
    var order: seq<string>, best: map<string, Route> := [], map[];
    for i := 0 to |routes|
      invariant Table(order, best) == TableOf(routes[..i])
    {
      assert routes[..i + 1][..i] == routes[..i];
      var route := routes[i];
      if route.prefix !in best || route.primary {
        if route.prefix !in best {
          order := order + [route.prefix];
        }
        best := best[route.prefix := route];
      }
    }
    assert routes[..|routes|] == routes;
    TableHoldsBest(routes);
    r := Values(order, best);
  }

  // ----- counters -----

  datatype Rpki = Rpki(valid: nat, invalid: nat, notFound: nat)

  datatype Aggregates = Aggregates(
    count: nat, count4: nat, count6: nat, localCount: nat, nonLocal: nat, rpki: Rpki,
    lengths4: multiset<nat>, lengths6: multiset<nat>, pathLengths: multiset<nat>,
    origins: multiset<nat>, peers: multiset<string>, rpkiObserved: bool, prefilter: Option<string>)

  const NOTHING := Aggregates(0, 0, 0, 0, 0, Rpki(0, 0, 0), multiset{}, multiset{}, multiset{}, multiset{}, multiset{}, true, None)

  function Bucket(rpki: Rpki, verdict: Option<string>): Rpki {
    if verdict == Some("valid") then rpki.(valid := rpki.valid + 1)
    else if verdict == Some("invalid") then rpki.(invalid := rpki.invalid + 1)
    else if verdict == Some("not-found") then rpki.(notFound := rpki.notFound + 1)
    else rpki
  }

  function RpkiSum(r: Rpki): nat {
    r.valid + r.invalid + r.notFound
  }

  /** The routes of a list with a property, counted by a key. */
  function Tally<K(==)>(routes: seq<Route>, keys: Route -> multiset<K>): multiset<K> {
    if routes == [] then multiset{} else Tally(routes[..|routes| - 1], keys) + keys(routes[|routes| - 1])
  }

  /** How many routes of a list have a property. */
  function Where(routes: seq<Route>, p: Route -> bool): nat {
    if routes == [] then 0 else Where(routes[..|routes| - 1], p) + if p(routes[|routes| - 1]) then 1 else 0
  }

  predicate Judged(r: Route, verdict: string) {
    !r.local && r.rpki == Some(verdict)
  }

  /** Local routes are never judged, and each verdict counts the others that carry it. */
  ghost predicate Judges(rpki: Rpki, best: seq<Route>) {
    && rpki.valid == Where(best, r => Judged(r, "valid"))
    && rpki.invalid == Where(best, r => Judged(r, "invalid"))
    && rpki.notFound == Where(best, r => Judged(r, "not-found"))
  }

  lemma WhereNext(best: seq<Route>, i: nat, p: Route -> bool)
    requires i < |best|
    ensures Where(best[..i + 1], p) == Where(best[..i], p) + if p(best[i]) then 1 else 0
  {
    assert best[..i + 1][..i] == best[..i];
  }

  lemma JudgesNext(rpki: Rpki, best: seq<Route>, i: nat)
    requires i < |best| && Judges(rpki, best[..i])
    ensures Judges(if best[i].local then rpki else Bucket(rpki, best[i].rpki), best[..i + 1])
  {
    WhereNext(best, i, r => Judged(r, "valid"));
    WhereNext(best, i, r => Judged(r, "invalid"));
    WhereNext(best, i, r => Judged(r, "not-found"));
    assert "valid"[0] == 'v' && "invalid"[0] == 'i' && "not-found"[0] == 'n';
  }

  function Length4(r: Route): multiset<nat> { if IsV6(r.prefix) then multiset{} else multiset{LengthOf(r.prefix)} }
  function Length6(r: Route): multiset<nat> { if IsV6(r.prefix) then multiset{LengthOf(r.prefix)} else multiset{} }
  function PathLength(r: Route): multiset<nat> { multiset{|r.asPath|} }
  function Origin(r: Route): multiset<nat> { if r.origin.Some? then multiset{r.origin.value} else multiset{} }
  function Peer(r: Route): multiset<string> {
    if r.protocol.Some? && r.protocol.value != "" then multiset{r.protocol.value} else multiset{}
  }

  /** What the counters are of: the histograms are tallies of the best routes, and the totals are
      their sums. */
  ghost predicate Describes(a: Aggregates, best: seq<Route>) {
    && a.count == |best| && a.count == a.count4 + a.count6
    && a.lengths4 == Tally(best, Length4) && |a.lengths4| == a.count4
    && a.lengths6 == Tally(best, Length6) && |a.lengths6| == a.count6
    && a.pathLengths == Tally(best, PathLength) && |a.pathLengths| == a.count
    && a.origins == Tally(best, Origin) && |a.origins| <= a.count
    && a.peers == Tally(best, Peer) && |a.peers| <= a.count
    && a.localCount == Where(best, (r: Route) => r.local) && a.localCount + a.nonLocal == a.count
    && Judges(a.rpki, best) && RpkiSum(a.rpki) <= a.nonLocal
  }

  lemma TallyNext<K>(best: seq<Route>, i: nat, keys: Route -> multiset<K>)
    requires i < |best|
    ensures Tally(best[..i + 1], keys) == Tally(best[..i], keys) + keys(best[i])
  {
    assert best[..i + 1][..i] == best[..i];
  }

  /** The loop body of `aggregate_routes`: the family, the RPKI verdict, and the other counters. */
  method Count(a: Aggregates, r: Route) returns (b: Aggregates)
    ensures b.count == a.count
    ensures b.count4 == a.count4 + |Length4(r)| && b.count6 == a.count6 + |Length6(r)|
    ensures b.lengths4 == a.lengths4 + Length4(r) && b.lengths6 == a.lengths6 + Length6(r)
    ensures b.pathLengths == a.pathLengths + PathLength(r)
    ensures b.origins == a.origins + Origin(r) && b.peers == a.peers + Peer(r)
    ensures b.localCount == a.localCount + (if r.local then 1 else 0)
    ensures b.nonLocal == a.nonLocal + (if r.local then 0 else 1)
    ensures b.rpki == if r.local then a.rpki else Bucket(a.rpki, r.rpki)
  {
    hide Length4, Length6, Origin, Peer, PathLength, Bucket;
    b := CountFamily(a, r);
    b := CountSource(b, r);
    if r.local {
      b := b.(localCount := b.localCount + 1);
    } else {
      b := b.(nonLocal := b.nonLocal + 1, rpki := Bucket(b.rpki, r.rpki));
    }
  }

  method CountFamily(a: Aggregates, r: Route) returns (b: Aggregates)
    ensures b == a.(count4 := a.count4 + |Length4(r)|, count6 := a.count6 + |Length6(r)|,
                    lengths4 := a.lengths4 + Length4(r), lengths6 := a.lengths6 + Length6(r))
  {
    hide LengthOf;
    var length := LengthOf(r.prefix);
    if IsV6(r.prefix) {
      b := a.(count6 := a.count6 + 1, lengths6 := a.lengths6 + multiset{length});
    } else {
      b := a.(count4 := a.count4 + 1, lengths4 := a.lengths4 + multiset{length});
    }
  }

  method CountSource(a: Aggregates, r: Route) returns (b: Aggregates)
    ensures b == a.(origins := a.origins + Origin(r), pathLengths := a.pathLengths + PathLength(r),
                    peers := a.peers + Peer(r))
  {
    var origins, peers := a.origins, a.peers;
    if r.origin.Some? {
      origins := origins + multiset{r.origin.value};
    }
    assert origins == a.origins + Origin(r);
    if r.protocol.Some? && r.protocol.value != "" {
      peers := peers + multiset{r.protocol.value};
    }
    assert peers == a.peers + Peer(r);
    hide Origin, Peer;
    b := a.(origins := origins, pathLengths := a.pathLengths + multiset{|r.asPath|}, peers := peers);
  }

  // ----- what the counters say of the best routes, one by one -----

  ghost function OfFamily(best: seq<Route>, v6: bool): set<int> {
    set i | 0 <= i < |best| && (':' in best[i].prefix) == v6
  }

  ghost function OfLength(best: seq<Route>, v6: bool, length: nat): set<int> {
    set i | 0 <= i < |best| && (':' in best[i].prefix) == v6 && LengthOf(best[i].prefix) == length
  }

  ghost function OfPath(best: seq<Route>, length: nat): set<int> {
    set i | 0 <= i < |best| && |best[i].asPath| == length
  }

  ghost function OfOrigin(best: seq<Route>, asn: nat): set<int> {
    set i | 0 <= i < |best| && best[i].origin == Some(asn)
  }

  ghost function OfPeer(best: seq<Route>, protocol: string): set<int> {
    set i | 0 <= i < |best| && protocol != "" && best[i].protocol == Some(protocol)
  }

  ghost function OfSource(best: seq<Route>, local: bool): set<int> {
    set i | 0 <= i < |best| && best[i].local == local
  }

  ghost function OfVerdict(best: seq<Route>, verdict: string): set<int> {
    set i | 0 <= i < |best| && !best[i].local && best[i].rpki == Some(verdict)
  }

  /** Every number is the count of the best routes that have the property it stands for. */
  ghost predicate Counts(a: Aggregates, best: seq<Route>) {
    && a.count == |best| && a.count4 == |OfFamily(best, false)| && a.count6 == |OfFamily(best, true)|
    && a.localCount == |OfSource(best, true)| && a.nonLocal == |OfSource(best, false)|
    && a.rpki.valid == |OfVerdict(best, "valid")|
    && a.rpki.invalid == |OfVerdict(best, "invalid")|
    && a.rpki.notFound == |OfVerdict(best, "not-found")|
    && CountsKeys(a, best)
  }

  ghost predicate CountsKeys(a: Aggregates, best: seq<Route>) {
    && (forall n :: a.lengths4[n] == |OfLength(best, false, n)|)
    && (forall n :: a.lengths6[n] == |OfLength(best, true, n)|)
    && (forall n :: a.pathLengths[n] == |OfPath(best, n)|)
    && (forall n :: a.origins[n] == |OfOrigin(best, n)|)
    && (forall p :: a.peers[p] == |OfPeer(best, p)|)
  }

  /** A tally counts places. */
  lemma {:induction false} TallyCounts<K>(best: seq<Route>, keys: Route -> multiset<K>, k: K, at: set<int>)
    requires forall i :: i in at <==> 0 <= i < |best| && keys(best[i])[k] == 1
    requires forall i :: 0 <= i < |best| ==> keys(best[i])[k] <= 1
    ensures Tally(best, keys)[k] == |at|
    decreases |best|
  {
    if best == [] {
      assert forall i :: i !in at;
    } else {
      var last := |best| - 1;
      TallyCounts(best[..last], keys, k, at - {last});
    }
  }

  lemma {:induction false} WhereCounts(best: seq<Route>, p: Route -> bool, at: set<int>)
    requires forall i :: i in at <==> 0 <= i < |best| && p(best[i])
    ensures Where(best, p) == |at|
    decreases |best|
  {
    if best == [] {
      assert forall i :: i !in at;
    } else {
      var last := |best| - 1;
      WhereCounts(best[..last], p, at - {last});
    }
  }

  lemma {:induction false} TallySize<K>(best: seq<Route>, keys: Route -> multiset<K>, at: set<int>)
    requires forall i :: i in at <==> 0 <= i < |best| && |keys(best[i])| == 1
    requires forall i :: 0 <= i < |best| ==> |keys(best[i])| <= 1
    ensures |Tally(best, keys)| == |at|
    decreases |best|
  {
    if best == [] {
      assert forall i :: i !in at;
    } else {
      var last := |best| - 1;
      TallySize(best[..last], keys, at - {last});
    }
  }

  lemma LengthCounted(best: seq<Route>, n: nat)
    ensures Tally(best, Length4)[n] == |OfLength(best, false, n)| && Tally(best, Length6)[n] == |OfLength(best, true, n)|
  {
    hide LengthOf, Tally;
    TallyCounts(best, Length4, n, OfLength(best, false, n));
    TallyCounts(best, Length6, n, OfLength(best, true, n));
  }

  lemma FamiliesCounted(best: seq<Route>)
    ensures |Tally(best, Length4)| == |OfFamily(best, false)| && |Tally(best, Length6)| == |OfFamily(best, true)|
  {
    hide LengthOf, Tally;
    TallySize(best, Length4, OfFamily(best, false));
    TallySize(best, Length6, OfFamily(best, true));
  }

  lemma SourceCounted(best: seq<Route>, n: nat, p: string)
    ensures Tally(best, PathLength)[n] == |OfPath(best, n)|
    ensures Tally(best, Origin)[n] == |OfOrigin(best, n)|
    ensures Tally(best, Peer)[p] == |OfPeer(best, p)|
  {
    hide Tally;
    TallyCounts(best, PathLength, n, OfPath(best, n));
    TallyCounts(best, Origin, n, OfOrigin(best, n));
    TallyCounts(best, Peer, p, OfPeer(best, p));
  }

  lemma VerdictsCounted(rpki: Rpki, best: seq<Route>)
    requires Judges(rpki, best)
    ensures rpki.valid == |OfVerdict(best, "valid")| && rpki.invalid == |OfVerdict(best, "invalid")|
    ensures rpki.notFound == |OfVerdict(best, "not-found")|
  {
    hide Where;
    WhereCounts(best, r => Judged(r, "valid"), OfVerdict(best, "valid"));
    WhereCounts(best, r => Judged(r, "invalid"), OfVerdict(best, "invalid"));
    WhereCounts(best, r => Judged(r, "not-found"), OfVerdict(best, "not-found"));
  }

  lemma LocalsCounted(best: seq<Route>)
    ensures Where(best, (r: Route) => r.local) == |OfSource(best, true)|
    ensures |OfSource(best, true)| + |OfSource(best, false)| == |best|
  {
    WhereCounts(best, (r: Route) => r.local, OfSource(best, true));
    assert OfSource(best, true) + OfSource(best, false) == Below(|best|);
  }

  function Below(n: nat): (r: set<int>)
    ensures |r| == n && forall i :: i in r <==> 0 <= i < n
  {
    if n == 0 then {} else Below(n - 1) + {n - 1}
  }

  lemma KeysCounted(a: Aggregates, best: seq<Route>)
    requires a.lengths4 == Tally(best, Length4) && a.lengths6 == Tally(best, Length6)
    requires a.pathLengths == Tally(best, PathLength) && a.origins == Tally(best, Origin) && a.peers == Tally(best, Peer)
    ensures CountsKeys(a, best)
  {
    hide Length4, Length6, PathLength, Origin, Peer, Tally, OfLength, OfPath, OfOrigin, OfPeer;
    forall n: nat ensures a.pathLengths[n] == |OfPath(best, n)| && a.origins[n] == |OfOrigin(best, n)| {
      SourceCounted(best, n, "");
    }
    forall n: nat ensures a.lengths4[n] == |OfLength(best, false, n)| && a.lengths6[n] == |OfLength(best, true, n)| {
      LengthCounted(best, n);
    }
    forall p: string ensures a.peers[p] == |OfPeer(best, p)| {
      SourceCounted(best, 0, p);
    }
  }

  lemma DescribedIsCounted(a: Aggregates, best: seq<Route>)
    requires Describes(a, best)
    ensures Counts(a, best)
  {
    hide Length4, Length6, PathLength, Origin, Peer, Judges, Where, Tally, OfFamily, OfSource, OfVerdict, CountsKeys;
    FamiliesCounted(best);
    VerdictsCounted(a.rpki, best);
    LocalsCounted(best);
    KeysCounted(a, best);
  }

  /** `aggregate_routes`: every total is the number of distinct prefixes, split or added up. */
  method AggregateRoutes(routes: seq<Route>) returns (a: Aggregates)
    ensures Describes(a, BestRoutes(routes)) && Counts(a, BestRoutes(routes))
    ensures a.count == |Prefixes(routes)|
    ensures !a.rpkiObserved <==> a.nonLocal > 0 && RpkiSum(a.rpki) == 0
    ensures a.prefilter == None
  {
    a := CountRoutes(routes);
    DescribedIsCounted(a, BestRoutes(routes));
    hide *;
  }

  method CountRoutes(routes: seq<Route>) returns (a: Aggregates)
    ensures Describes(a, BestRoutes(routes))
    ensures a.count == |Prefixes(routes)|
    ensures !a.rpkiObserved <==> a.nonLocal > 0 && RpkiSum(a.rpki) == 0
    ensures a.prefilter == None
  {
    hide BestRoutes, Describes, Partly, RpkiSum, Prefixes;
    BestAreDistinct(routes);
    var best := BestByPrefix(routes);
    a := NOTHING;
    NothingCounted(best);
    for i := 0 to |best|
      invariant Partly(a, best[..i])
    {
      a := CountNext(a, best, i);
    }
    assert best[..|best|] == best;
    var observed := !(a.nonLocal > 0 && RpkiSum(a.rpki) == 0);
    PartlyDescribes(a, best, observed);
    a := a.(count := a.count4 + a.count6, rpkiObserved := observed, prefilter := None);
  }

  lemma PartlyDescribes(a: Aggregates, best: seq<Route>, observed: bool)
    requires Partly(a, best)
    ensures Describes(a.(count := a.count4 + a.count6, rpkiObserved := observed, prefilter := None), best)
    ensures a.count4 + a.count6 == |best|
  {
    hide Length4, Length6, PathLength, Origin, Peer, Judges, Where, Tally;
  }

  /** One more route. */
  method CountNext(a: Aggregates, best: seq<Route>, i: nat) returns (b: Aggregates)
    requires i < |best| && Partly(a, best[..i])
    ensures Partly(b, best[..i + 1])
  {
    hide Length4, Length6, PathLength, Origin, Peer, Bucket, Judges, Where, Tally;
    TallyNext(best, i, Length4);
    TallyNext(best, i, Length6);
    TallyNext(best, i, PathLength);
    TallyNext(best, i, Origin);
    TallyNext(best, i, Peer);
    Sizes(best[i], a.rpki);
    WhereNext(best, i, (r: Route) => r.local);
    JudgesNext(a.rpki, best, i);
    b := Count(a, best[i]);
  }

  lemma NothingCounted(best: seq<Route>)
    ensures Partly(NOTHING, best[..0])
  {
    hide Length4, Length6, PathLength, Origin, Peer;
  }

  lemma Sizes(r: Route, rpki: Rpki)
    ensures |Length4(r)| + |Length6(r)| == 1 && |PathLength(r)| == 1 && |Origin(r)| <= 1 && |Peer(r)| <= 1
    ensures RpkiSum(Bucket(rpki, r.rpki)) <= RpkiSum(rpki) + 1
  {
  }

  ghost predicate Partly(a: Aggregates, done: seq<Route>) {
    Describes(a.(count := a.count4 + a.count6), done)
  }

  function PrefixSet(routes: seq<Route>): set<string> {
    Prefixes(BestRoutes(routes))
  }

  /** `diff_prefix_sets`: announced and withdrawn. */
  function DiffPrefixSets(old_: set<string>, new_: set<string>): (nat, nat) {
    (|new_ - old_|, |old_ - new_|)
  }

  lemma ChurnBalances(old_: set<string>, new_: set<string>)
    ensures DiffPrefixSets(old_, new_).0 - DiffPrefixSets(old_, new_).1 == |new_| - |old_|
    ensures DiffPrefixSets(old_, new_) == (0, 0) <==> old_ == new_
  {
    assert new_ == (new_ - old_) + (new_ * old_) && old_ == (old_ - new_) + (old_ * new_);
    assert new_ * old_ == old_ * new_;
    if new_ - old_ == {} && old_ - new_ == {} {
      assert old_ == new_;
    }
  }
}
