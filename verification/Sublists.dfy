/** Sublists of sequences of names, and who stands before whom. */
module Sublists {
  import opened Wrappers
  import opened Graphs

  /** The members of `s` that are in `keep`, in their order. */
  function Keeping(s: seq<string>, keep: set<string>): (r: seq<string>)
    ensures forall x :: x in r <==> x in s && x in keep
  {
    if s == [] then []
    else
      var last := s[|s| - 1];
      assert s == s[..|s| - 1] + [last];
      Keeping(s[..|s| - 1], keep) + if last in keep then [last] else []
  }

  lemma {:induction false} KeepingDistinct(s: seq<string>, keep: set<string>)
    requires Distinct(s)
    ensures Distinct(Keeping(s, keep))
  {
    if s != [] {
      KeepingDistinct(s[..|s| - 1], keep);
    }
  }

  /** `x` stands before `y`. */
  ghost predicate Before(s: seq<string>, x: string, y: string) {
    exists i, j :: 0 <= i < j < |s| && s[i] == x && s[j] == y
  }

  lemma {:induction false} KeepingOrder(s: seq<string>, keep: set<string>, x: string, y: string)
    requires Distinct(s) && x in Keeping(s, keep) && y in Keeping(s, keep)
    ensures Before(Keeping(s, keep), x, y) <==> Before(s, x, y)
  {
    if s != [] {
      var init, last := s[..|s| - 1], s[|s| - 1];
      assert s == init + [last];
      if x != last && y != last {
        KeepingOrder(init, keep, x, y);
        BeforePrefix(init, [last], x, y);
        BeforePrefix(Keeping(init, keep), if last in keep then [last] else [], x, y);
      } else {
        LastIsLast(init, last, x, y);
        LastIsLast(Keeping(init, keep), last, x, y);
      }
    }
  }

  lemma BeforePrefix(s: seq<string>, tail: seq<string>, x: string, y: string)
    requires y !in tail
    ensures Before(s + tail, x, y) <==> Before(s, x, y)
  {
    var all := s + tail;
    assert forall k :: |s| <= k < |all| ==> all[k] in tail;
    if i, j :| 0 <= i < j < |all| && all[i] == x && all[j] == y {
      assert s[i] == x && s[j] == y;
    }
    if i, j :| 0 <= i < j < |s| && s[i] == x && s[j] == y {
      assert all[i] == x && all[j] == y;
    }
  }

  lemma LastIsLast(init: seq<string>, last: string, x: string, y: string)
    requires last !in init && (x == last || y == last) && (x in init || x == last) && (y in init || y == last)
    ensures Before(init + [last], x, y) <==> y == last && x != last
  {
    var all := init + [last];
    if y == last && x != last {
      var i :| 0 <= i < |init| && init[i] == x;
      assert all[i] == x && all[|init|] == y;
    }
    forall i, j | 0 <= i < j < |all| && all[i] == x && all[j] == y ensures y == last && x != last {
      assert all[i] == init[i];
    }
  }

  /** A service comes after everything it transitively depends on. */
  lemma {:induction false} WalkBefore(g: Graph, order: seq<string>, walk: seq<string>)
    requires Respects(g, order) && Distinct(order) && IsWalk(g, walk) && |walk| > 1 && walk[0] in order
    ensures Before(order, walk[|walk| - 1], walk[0])
  {
    var from :| 0 <= from < |order| && order[from] == walk[0];
    WalkGoesBack(g, order, walk, from);
    var to :| 0 <= to < from && order[to] == walk[|walk| - 1];
  }

  function Reverse(s: seq<string>): (r: seq<string>)
    ensures |r| == |s| && forall k :: 0 <= k < |s| ==> r[k] == s[|s| - 1 - k]
  {
    seq(|s|, k requires 0 <= k < |s| => s[|s| - 1 - k])
  }

  lemma ReverseFlips(s: seq<string>, x: string, y: string)
    ensures Before(Reverse(s), x, y) <==> Before(s, y, x)
    ensures x in Reverse(s) <==> x in s
    ensures Distinct(s) ==> Distinct(Reverse(s))
  {
    var r := Reverse(s);
    if i, j :| 0 <= i < j < |r| && r[i] == x && r[j] == y {
      assert s[|s| - 1 - j] == y && s[|s| - 1 - i] == x;
    }
    if i, j :| 0 <= i < j < |s| && s[i] == y && s[j] == x {
      assert r[|s| - 1 - j] == x && r[|s| - 1 - i] == y;
    }
    if i :| 0 <= i < |s| && s[i] == x {
      assert r[|s| - 1 - i] == x;
    }
  }

  lemma BeforeInSuffix(head: seq<string>, tail: seq<string>, x: string, y: string)
    requires y !in head && y in tail
    ensures Before(head + tail, x, y) <==> x in head || Before(tail, x, y)
  {
    var all := head + tail;
    assert forall k :: 0 <= k < |head| ==> all[k] in head;
    if i, j :| 0 <= i < j < |all| && all[i] == x && all[j] == y {
      if i >= |head| {
        assert tail[i - |head|] == x && tail[j - |head|] == y;
      }
    }
    if x in head {
      var i :| 0 <= i < |head| && head[i] == x;
      var j :| 0 <= j < |tail| && tail[j] == y;
      assert all[i] == x && all[j + |head|] == y;
    }
    if i, j :| 0 <= i < j < |tail| && tail[i] == x && tail[j] == y {
      assert all[i + |head|] == x && all[j + |head|] == y;
    }
  }

  lemma SplitAt(names: seq<string>, n: string, r: string)
    requires Distinct(names) && n in names && r in names
    ensures (exists k :: 0 <= k <= |names| && r in names[..k] && n !in names[..k]) <==> Before(names, r, n)
  {
    if i, j :| 0 <= i < j < |names| && names[i] == r && names[j] == n {
      assert names[..j][i] == r && n !in names[..j];
    }
    if k :| 0 <= k <= |names| && r in names[..k] && n !in names[..k] {
      var i :| 0 <= i < k && names[i] == r;
      var j :| 0 <= j < |names| && names[j] == n;
      assert forall x :: 0 <= x < k ==> names[..k][x] == names[x];
      assert i < j;
    }
  }

  lemma DistinctParts(a: seq<string>, b: seq<string>)
    requires Distinct(a) && Distinct(b) && forall x :: x in a ==> x !in b
    ensures Distinct(a + b)
  {
    forall i, j | 0 <= i < j < |a + b| ensures (a + b)[i] != (a + b)[j] {
      if i < |a| <= j {
        assert (a + b)[i] in a && (a + b)[j] in b;
      }
    }
  }
}
