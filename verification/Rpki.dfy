/** Route origin validation. The collector replaces the linear scan over all ROAs by an index from
    prefix length and masked address to ROAs; the reference is section 2 of RFC 6811, with the
    pseudo-code of its section 2.1. Addresses are numbers below 2^32 or 2^128. */
module Rpki {
  import opened Wrappers

  datatype Version = V4 | V6

  function Bits(v: Version): nat {
    if v.V4? then 32 else 128
  }

  function Pow2(n: nat): (r: nat)
    ensures r > 0
  {
    if n == 0 then 1 else 2 * Pow2(n - 1)
  }

  /** `ip_network(..., strict=False)`: host bits are cleared on construction. */
  datatype Net = Net(version: Version, address: nat, length: nat)

  /** How many addresses share the first `length` bits. */
  function Block(v: Version, length: nat): nat
    requires length <= Bits(v)
  {
    Pow2(Bits(v) - length)
  }

  ghost predicate WellFormed(n: Net) {
    && n.length <= Bits(n.version)
    && n.address < Pow2(Bits(n.version))
    && n.address % Block(n.version, n.length) == 0
  }

  lemma RemainderBelow(a: nat, b: nat)
    requires b > 0
    ensures a % b <= a
  {
  }

  /** `address & _prefix_mask(version, length)`: the low bits are cleared. */
  function Masked(v: Version, address: nat, length: nat): nat
    requires length <= Bits(v)
  {
    var block := Block(v, length);
    RemainderBelow(address, block);
    address - address % block
  }

  datatype Roa = Roa(net: Net, maxLength: nat, asn: nat)

  datatype Verdict = Valid | Invalid | NotFound

  // ----- the reference -----

  /** A VRP covers a prefix when its length is no greater and all bits it specifies are identical. */
  ghost predicate Covers(roa: Roa, net: Net)
    requires WellFormed(roa.net) && WellFormed(net)
  {
    && roa.net.version == net.version
    && roa.net.length <= net.length
    && roa.net.address / Block(net.version, roa.net.length) == net.address / Block(net.version, roa.net.length)
  }

  ghost predicate AllWellFormed(roas: seq<Roa>) {
    forall r :: r in roas ==> WellFormed(r.net)
  }

  ghost predicate Covered(roas: seq<Roa>, net: Net)
    requires AllWellFormed(roas) && WellFormed(net)
  {
    exists r :: r in roas && Covers(r, net)
  }

  /** The scan of section 2.1 of RFC 6811: `seen` records that some entry covered the prefix; an
      AS 0 entry and an unknown origin never match. */
  ghost function Scan(roas: seq<Roa>, net: Net, origin: Option<nat>, seen: bool): Verdict
    requires AllWellFormed(roas) && WellFormed(net)
  {
    if roas == [] then (if seen then Invalid else NotFound)
    else
      var r := roas[0];
      assert forall x :: x in roas[1..] ==> x in roas;
      if !Covers(r, net) then Scan(roas[1..], net, origin, seen)
      else if net.length <= r.maxLength && origin.Some? && r.asn != 0 && origin.value == r.asn then Valid
      else Scan(roas[1..], net, origin, true)
  }

  ghost function Rfc6811(roas: seq<Roa>, net: Net, origin: Option<nat>): Verdict
    requires AllWellFormed(roas) && WellFormed(net)
  {
    Scan(roas, net, origin, false)
  }

  ghost predicate Matches(roa: Roa, net: Net, asn: nat)
    requires WellFormed(roa.net) && WellFormed(net)
  {
    Covers(roa, net) && net.length <= roa.maxLength && roa.asn == asn
  }

  lemma {:induction false} ScanMeans(roas: seq<Roa>, net: Net, origin: Option<nat>, seen: bool)
    requires AllWellFormed(roas) && WellFormed(net)
    ensures var verdict := Scan(roas, net, origin, seen);
      var matched := origin.Some? && origin.value != 0 && exists r :: r in roas && Matches(r, net, origin.value);
      verdict == if matched then Valid else if seen || Covered(roas, net) then Invalid else NotFound
  {
    if roas != [] {
      var r := roas[0];
      assert roas == [r] + roas[1..];
      assert forall x :: x in roas <==> x == r || x in roas[1..];
      ScanMeans(roas[1..], net, origin, seen || Covers(r, net));
      assert Covered(roas, net) <==> Covers(r, net) || Covered(roas[1..], net);
    }
  }

  // ----- the index -----

  type Bucket = map<nat, seq<Roa>>

  /** The ROAs of one version, length and network address, in list order. */
  function Select(roas: seq<Roa>, v: Version, length: nat, address: nat): (r: seq<Roa>)
    ensures forall x :: x in r <==> x in roas && x.net == Net(v, address, length)
  {
    if roas == [] then []
    else
      var last := roas[|roas| - 1];
      assert roas == roas[..|roas| - 1] + [last];
      Select(roas[..|roas| - 1], v, length, address) + if last.net == Net(v, address, length) then [last] else []
  }

  /** `sorted(lengths)` for lengths below `bound`. */
  function Ascending(lengths: set<nat>, bound: nat): (r: seq<nat>)
    ensures forall x :: x in r <==> x in lengths && x < bound
    ensures forall i, j :: 0 <= i < j < |r| ==> r[i] < r[j]
  {
    if bound == 0 then []
    else
      var below := Ascending(lengths, bound - 1);
      assert forall i :: 0 <= i < |below| ==> below[i] in below;
      below + if bound - 1 in lengths then [bound - 1] else []
  }

  type Buckets = map<(Version, nat), Bucket>

  function Lookup(buckets: Buckets, v: Version, length: nat, address: nat): seq<Roa> {
    if (v, length) in buckets && address in buckets[(v, length)] then buckets[(v, length)][address] else []
  }

  ghost predicate HasLength(roas: seq<Roa>, v: Version, length: nat) {
    exists r :: r in roas && r.net.version == v && r.net.length == length
  }

  ghost predicate BucketsHold(roas: seq<Roa>, buckets: Buckets) {
    && (forall v: Version, p: nat :: (v, p) in buckets <==> HasLength(roas, v, p))
    && (forall v: Version, p: nat, a: nat :: Lookup(buckets, v, p, a) == Select(roas, v, p, a))
  }

  /** `setdefault(key, {}).setdefault(address, []).append(entry)`. */
  function Insert(buckets: Buckets, r: Roa): Buckets {
    var key := (r.net.version, r.net.length);
    var bucket := if key in buckets then buckets[key] else map[];
    var entries := if r.net.address in bucket then bucket[r.net.address] else [];
    buckets[key := bucket[r.net.address := entries + [r]]]
  }

  lemma InsertHolds(roas: seq<Roa>, buckets: Buckets, r: Roa)
    requires BucketsHold(roas, buckets)
    ensures BucketsHold(roas + [r], Insert(buckets, r))
  {
    hide Insert, Select, Lookup, HasLength;
    var more, after := roas + [r], Insert(buckets, r);
    forall v: Version, p: nat ensures (v, p) in after <==> HasLength(more, v, p) {
      LengthsAfter(roas, buckets, r, v, p);
    }
    forall v: Version, p: nat, a: nat ensures Lookup(after, v, p, a) == Select(more, v, p, a) {
      LookupAfter(roas, buckets, r, v, p, a);
    }
    hide *;
    assert BucketsHold(more, after) by { BucketsHoldIf(more, after); }
  }

  lemma BucketsHoldIf(roas: seq<Roa>, buckets: Buckets)
    requires forall v: Version, p: nat :: (v, p) in buckets <==> HasLength(roas, v, p)
    requires forall v: Version, p: nat, a: nat :: Lookup(buckets, v, p, a) == Select(roas, v, p, a)
    ensures BucketsHold(roas, buckets)
  {
    hide Lookup, Select, HasLength;
  }

  lemma LengthsAfter(roas: seq<Roa>, buckets: Buckets, r: Roa, v: Version, p: nat)
    requires (v, p) in buckets <==> HasLength(roas, v, p)
    ensures (v, p) in Insert(buckets, r) <==> HasLength(roas + [r], v, p)
  {
    if r.net.version == v && r.net.length == p { assert r in roas + [r]; }
  }

  lemma LookupAfter(roas: seq<Roa>, buckets: Buckets, r: Roa, v: Version, p: nat, a: nat)
    requires Lookup(buckets, v, p, a) == Select(roas, v, p, a)
    ensures Lookup(Insert(buckets, r), v, p, a) == Select(roas + [r], v, p, a)
  {
    assert (roas + [r])[..|roas + [r]| - 1] == roas;
  }

  ghost predicate LengthsHold(roas: seq<Roa>, v: Version, lengths: seq<nat>) {
    && (forall i, j :: 0 <= i < j < |lengths| ==> lengths[i] < lengths[j])
    && (forall p :: p in lengths <==> HasLength(roas, v, p))
  }

  class RpkiIndex {
    var buckets: Buckets
    var lengths: map<Version, seq<nat>>

    /** The index answers for exactly these ROAs. */
    ghost predicate Indexes(roas: seq<Roa>)
      reads this
    {
      && AllWellFormed(roas) && BucketsHold(roas, buckets)
      && V4 in lengths && LengthsHold(roas, V4, lengths[V4])
      && V6 in lengths && LengthsHold(roas, V6, lengths[V6])
    }

    constructor (roas: seq<Roa>)
      requires AllWellFormed(roas)
      ensures Indexes(roas)
    {
      var built: Buckets := map[];
      var seen: map<Version, set<nat>> := map[V4 := {}, V6 := {}];
      for k := 0 to |roas|
        invariant BucketsHold(roas[..k], built)
        invariant V4 in seen && forall p :: p in seen[V4] <==> HasLength(roas[..k], V4, p)
        invariant V6 in seen && forall p :: p in seen[V6] <==> HasLength(roas[..k], V6, p)
      {
        var r := roas[k];
        assert roas[..k + 1] == roas[..k] + [r];
        InsertHolds(roas[..k], built, r);
        forall v: Version, p: nat ensures HasLength(roas[..k + 1], v, p) <==>
          HasLength(roas[..k], v, p) || (r.net.version == v && r.net.length == p)
        {
          assert r in roas[..k + 1];
        }
        built := Insert(built, r);
        seen := seen[r.net.version := seen[r.net.version] + {r.net.length}];
      }
      assert roas[..|roas|] == roas;
      buckets := built;
      lengths := map[V4 := Ascending(seen[V4], 33), V6 := Ascending(seen[V6], 129)];
    }

    /** The loop over the lengths in ascending order; a length above the prefix's ends it. */
    method Covering(n: Net, ghost roas: seq<Roa>) returns (covering: seq<Roa>)
      requires Indexes(roas) && WellFormed(n)
      ensures forall r :: r in covering <==> r in roas && Covers(r, n)
    {
      covering := [];
      var ps := lengths[n.version];
      var i := 0;
      while i < |ps|
        invariant 0 <= i <= |ps|
        invariant forall k :: 0 <= k < i ==> ps[k] <= n.length
        invariant forall r :: r in covering <==> r in roas && Covers(r, n) && r.net.length in ps[..i]
      {
        if ps[i] > n.length {
          break;
        }
        SelectedCover(roas, n, ps[i]);
        assert ps[..i + 1] == ps[..i] + [ps[i]];
        covering := covering + Lookup(buckets, n.version, ps[i], Masked(n.version, n.address, ps[i]));
        i := i + 1;
      }
      forall r | r in roas && Covers(r, n) ensures r.net.length in ps[..i] {
        assert HasLength(roas, n.version, r.net.length);
        LengthSeen(ps, i, r.net.length, n.length);
      }
    }

    /** `classify_net`; None out means the verdict is left open: no prefix, or no origin for a
        covered one. */
    method ClassifyNet(net: Option<Net>, origin: Option<nat>, ghost roas: seq<Roa>) returns (verdict: Option<Verdict>)
      requires Indexes(roas) && (net.Some? ==> WellFormed(net.value))
      ensures verdict == if net.None? then None else Judgement(roas, net.value, origin)
    {
      if net.None? {
        return None;
      }
      var covering := Covering(net.value, roas);
      if covering == [] {
        return Some(NotFound);
      }
      assert covering[0] in covering;
      if origin.None? {
        return None;
      }
      for k := 0 to |covering|
        invariant forall j :: 0 <= j < k ==> !Matches(covering[j], net.value, origin.value)
      {
        assert covering[k] in covering;
        if covering[k].asn == origin.value && net.value.length <= covering[k].maxLength {
          assert Matches(covering[k], net.value, origin.value);
          return Some(Valid);
        }
      }
      assert forall r :: r in roas && Matches(r, net.value, origin.value) ==> r in covering;
      return Some(Invalid);
    }
  }

  /** What a linear scan with the code's own conditions would say. */
  ghost function Judgement(roas: seq<Roa>, net: Net, origin: Option<nat>): Option<Verdict>
    requires AllWellFormed(roas) && WellFormed(net)
  {
    if !Covered(roas, net) then Some(NotFound)
    else if origin.None? then None
    else if exists r :: r in roas && Matches(r, net, origin.value) then Some(Valid)
    else Some(Invalid)
  }

  lemma MaskFinds(net: Net, other: Net)
    requires WellFormed(net) && WellFormed(other) && net.version == other.version && other.length <= net.length
    ensures Masked(net.version, net.address, other.length) == other.address <==>
      other.address / Block(net.version, other.length) == net.address / Block(net.version, other.length)
  {
    SameBlock(net.address, other.address, Block(net.version, other.length));
  }

  lemma SameBlock(x: nat, y: nat, b: nat)
    requires b > 0 && y % b == 0
    ensures x - x % b == y <==> y / b == x / b
  {
    assert x == b * (x / b) + x % b && y == b * (y / b);
    if x / b < y / b { Grows(b, x / b, y / b); }
    if y / b < x / b { Grows(b, y / b, x / b); }
  }

  lemma Grows(b: nat, m: nat, n: nat)
    requires b > 0 && m < n
    ensures b * m < b * n
  {
  }

  lemma LengthSeen(ps: seq<nat>, i: nat, length: nat, most: nat)
    requires length in ps && length <= most && i <= |ps|
    requires i < |ps| ==> forall k :: i <= k < |ps| ==> ps[k] > most
    ensures length in ps[..i]
  {
    var k :| 0 <= k < |ps| && ps[k] == length;
    assert ps[..i][k] == length;
  }

  lemma SelectedCover(roas: seq<Roa>, n: Net, length: nat)
    requires AllWellFormed(roas) && WellFormed(n) && length <= n.length
    ensures forall r :: r in Select(roas, n.version, length, Masked(n.version, n.address, length)) <==>
      r in roas && r.net.length == length && Covers(r, n)
  {
    forall r | r in roas
      ensures r.net == Net(n.version, Masked(n.version, n.address, length), length) <==>
        r.net.length == length && Covers(r, n)
    {
      if r.net.version == n.version && r.net.length == length {
        MaskFinds(n, r.net);
      }
    }
  }

  // ----- agreement with the reference -----

  /** With a known origin the index and section 2 of RFC 6811 part in one case only: origin 0 and a
      covering AS 0 entry long enough, which the code takes for a match and the RFC never does. */
  lemma AgreesWithRfcIff(roas: seq<Roa>, net: Net, asn: nat)
    requires AllWellFormed(roas) && WellFormed(net)
    ensures Judgement(roas, net, Some(asn)) == Some(Rfc6811(roas, net, Some(asn))) <==>
      !(asn == 0 && exists r :: r in roas && Covers(r, net) && r.asn == 0 && net.length <= r.maxLength)
  {
    ScanMeans(roas, net, Some(asn), false);
    if r :| r in roas && Covers(r, net) && r.asn == 0 && net.length <= r.maxLength {
      assert Matches(r, net, 0);
    }
  }

  /** Without an origin they agree exactly on uncovered prefixes. */
  lemma UnknownOriginAgreesIff(roas: seq<Roa>, net: Net)
    requires AllWellFormed(roas) && WellFormed(net)
    ensures Judgement(roas, net, None) == Some(Rfc6811(roas, net, None)) <==> !Covered(roas, net)
  {
    ScanMeans(roas, net, None, false);
  }

  /** The entry `0.0.0.0/8`, maximum length 8, AS 0 disavows its prefix; the code validates origin 0
      with it, and has no verdict where the origin is unknown. */
  lemma DisavowedIsValid() returns (roas: seq<Roa>, net: Net)
    ensures roas == [Roa(Net(V4, 0, 8), 8, 0)] && net == Net(V4, 0, 8) && AllWellFormed(roas) && WellFormed(net)
    ensures Judgement(roas, net, Some(0)) == Some(Valid) && Rfc6811(roas, net, Some(0)) == Invalid
    ensures Judgement(roas, net, None) == None && Rfc6811(roas, net, None) == Invalid
  {
    roas, net := [Roa(Net(V4, 0, 8), 8, 0)], Net(V4, 0, 8);
    var r := roas[0];
    NothingIsShort();
    assert r in roas && AllWellFormed(roas);
    hide WellFormed, Scan, Pow2, Bits, Block;
    assert Covered(roas, net) && Matches(r, net, 0);
    hide Covers;
    ScanMeans(roas, net, Some(0), false);
    ScanMeans(roas, net, None, false);
  }

  lemma NothingIsShort()
    ensures WellFormed(Net(V4, 0, 8)) && Covers(Roa(Net(V4, 0, 8), 8, 0), Net(V4, 0, 8))
  {
    hide Pow2;
  }

  /** A further ROA, wherever it stands, never takes validity away and never uncovers a prefix. */
  lemma AddingRoas(roas: seq<Roa>, more: seq<Roa>, net: Net, origin: Option<nat>)
    requires AllWellFormed(more) && WellFormed(net) && forall r :: r in roas ==> r in more
    ensures AllWellFormed(roas)
    ensures Judgement(roas, net, origin) == Some(Valid) ==> Judgement(more, net, origin) == Some(Valid)
    ensures Judgement(more, net, origin) == Some(NotFound) ==> Judgement(roas, net, origin) == Some(NotFound)
  {
    if r :| r in roas && Covers(r, net) { assert r in more && Covered(more, net); }
    if origin.Some? {
      if r :| r in roas && Matches(r, net, origin.value) { assert r in more; }
    }
  }
}
