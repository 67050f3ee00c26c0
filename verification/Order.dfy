/** Python's order on `str` and `sorted(...)` of a set of names. */
module Order {
  /** Code point by code point; a proper prefix comes first. */
  predicate Less(a: string, b: string) {
    b != "" && (a == "" || a[0] < b[0] || (a[0] == b[0] && Less(a[1..], b[1..])))
  }

  /** The strings part at some place, where the first one ends or has the smaller character. */
  ghost predicate PartAt(a: string, b: string, k: nat) {
    k <= |a| && k < |b| && a[..k] == b[..k] && (k < |a| ==> a[k] < b[k])
  }

  lemma {:induction false} LessMeans(a: string, b: string)
    ensures Less(a, b) <==> exists k: nat :: PartAt(a, b, k)
  {
    if b != "" {
      if a == "" || a[0] < b[0] {
        assert PartAt(a, b, 0);
      } else {
        LessMeans(a[1..], b[1..]);
        if k: nat :| a[0] == b[0] && PartAt(a[1..], b[1..], k) {
          assert a[..k + 1] == [a[0]] + a[1..][..k] && b[..k + 1] == [b[0]] + b[1..][..k];
          assert PartAt(a, b, k + 1);
        }
        if k: nat :| PartAt(a, b, k) {
          assert k > 0 && a[..k][0] == b[..k][0];
          assert a[1..][..k - 1] == a[..k][1..] && b[1..][..k - 1] == b[..k][1..];
          assert PartAt(a[1..], b[1..], k - 1);
        }
      }
    }
  }

  lemma {:induction false} Total(a: string, b: string)
    ensures Less(a, b) || a == b || Less(b, a)
    ensures !(Less(a, b) && Less(b, a)) && !Less(a, a)
  {
    if a != "" && b != "" {
      Total(a[1..], b[1..]);
      assert a == [a[0]] + a[1..] && b == [b[0]] + b[1..];
    }
    if a != "" {
      Total(a[1..], a[1..]);
    }
  }

  lemma {:induction false} Transitive(a: string, b: string, c: string)
    requires Less(a, b) && Less(b, c)
    ensures Less(a, c)
  {
    if a != "" && a[0] == b[0] == c[0] {
      Transitive(a[1..], b[1..], c[1..]);
    }
  }

  ghost predicate Ascending(s: seq<string>) {
    forall i, j :: 0 <= i < j < |s| ==> Less(s[i], s[j])
  }

  predicate IsLeast(m: string, names: set<string>) {
    m in names && forall x | x in names :: x != m ==> Less(m, x)
  }

  lemma {:induction false} LeastExists(names: set<string>)
    requires names != {}
    ensures exists m :: IsLeast(m, names)
    decreases |names|
  {
    var x :| x in names;
    var rest := names - {x};
    if rest == {} {
      assert names == {x};
      assert IsLeast(x, names);
    } else {
      LeastExists(rest);
      var m :| IsLeast(m, rest);
      Total(x, m);
      if Less(x, m) {
        forall y | y in names && y != x ensures Less(x, y) {
          if y != m { Transitive(x, m, y); }
        }
        assert IsLeast(x, names);
      } else {
        assert IsLeast(m, names);
      }
    }
  }

  lemma LeastUnique(names: set<string>)
    ensures forall m, n :: IsLeast(m, names) && IsLeast(n, names) ==> m == n
  {
    forall m, n | IsLeast(m, names) && IsLeast(n, names) ensures m == n {
      Total(m, n);
    }
  }

  lemma LeastFirst(m: string, names: set<string>, rest: seq<string>)
    requires IsLeast(m, names) && Ascending(rest) && forall x :: x in rest <==> x in names - {m}
    ensures Ascending([m] + rest) && forall x :: x in [m] + rest <==> x in names
  {
    forall j | 0 <= j < |rest| ensures Less(m, rest[j]) {
      assert rest[j] in rest;
    }
  }

  function Sorted(names: set<string>): (r: seq<string>)
    ensures Ascending(r) && |r| == |names|
    ensures forall x :: x in r <==> x in names
    decreases |names|
  {
    if names == {} then []
    else
      LeastExists(names);
      LeastUnique(names);
      var m :| m in names && IsLeast(m, names);
      var rest := Sorted(names - {m});
      LeastFirst(m, names, rest);
      [m] + rest
  }

  // ----- `sorted(..., key=...)`: stable, so an insertion sort -----

  ghost predicate InOrder<T>(s: seq<T>, before: (T, T) -> bool) {
    forall i :: 0 < i < |s| ==> !before(s[i], s[i - 1])
  }

  function InsertBy<T>(s: seq<T>, x: T, before: (T, T) -> bool): (r: seq<T>)
    ensures multiset(r) == multiset(s) + multiset{x} && |r| == |s| + 1
  {
    if s == [] || !before(x, s[|s| - 1]) then s + [x]
    else
      assert s == s[..|s| - 1] + [s[|s| - 1]];
      InsertBy(s[..|s| - 1], x, before) + [s[|s| - 1]]
  }

  /** `before(a, b)` says that the key of `a` is less than that of `b`. */
  function SortBy<T(!new)>(s: seq<T>, before: (T, T) -> bool): (r: seq<T>)
    ensures multiset(r) == multiset(s) && |r| == |s|
    ensures forall x :: x in r <==> x in s
  {
    if s == [] then []
    else
      var rest := SortBy(s[..|s| - 1], before);
      var r := InsertBy(rest, s[|s| - 1], before);
      assert s == s[..|s| - 1] + [s[|s| - 1]];
      SameMembers(r, s);
      r
  }

  lemma SameMembers<T(!new)>(a: seq<T>, b: seq<T>)
    requires multiset(a) == multiset(b)
    ensures forall x :: x in a <==> x in b
  {
    forall x ensures x in a <==> x in b {
      assert x in a <==> x in multiset(a);
      assert x in b <==> x in multiset(b);
    }
  }

  ghost predicate OneWay<T(!new)>(before: (T, T) -> bool) {
    forall a, b :: !(before(a, b) && before(b, a))
  }

  lemma {:induction false} InsertKeepsOrder<T(!new)>(s: seq<T>, x: T, before: (T, T) -> bool)
    requires OneWay(before) && InOrder(s, before)
    ensures InOrder(InsertBy(s, x, before), before)
    ensures var last := InsertBy(s, x, before)[|s|]; last == x || (s != [] && last == s[|s| - 1])
    decreases |s|
  {
    if s != [] && before(x, s[|s| - 1]) {
      InsertKeepsOrder(s[..|s| - 1], x, before);
      assert !before(s[|s| - 1], x);
    }
  }

  lemma {:induction false} SortedInOrder<T(!new)>(s: seq<T>, before: (T, T) -> bool)
    requires OneWay(before)
    ensures InOrder(SortBy(s, before), before)
    decreases |s|
  {
    if s != [] {
      SortedInOrder(s[..|s| - 1], before);
      InsertKeepsOrder(SortBy(s[..|s| - 1], before), s[|s| - 1], before);
    }
  }
}
