/** The optional values that Python writes as `None`, and what many modules share. */
module Wrappers {
  datatype Option<+T> = None | Some(value: T)

  ghost predicate Distinct<T>(s: seq<T>) {
    forall i, j :: 0 <= i < j < |s| ==> s[i] != s[j]
  }

  predicate IsDigit(c: char) {
    '0' <= c <= '9'
  }

  /** A number in decimal. */
  function Digits(n: nat): (r: string)
    ensures |r| >= 1 && (|r| == 1 <==> n < 10)
  {
    if n < 10 then [(n + '0' as nat) as char] else Digits(n / 10) + [(n % 10 + '0' as nat) as char]
  }

  lemma {:induction false} DigitsDiffer(m: nat, n: nat)
    requires Digits(m) == Digits(n)
    ensures m == n
    decreases m
  {
    var a, b := Digits(m), Digits(n);
    assert a[|a| - 1] == b[|b| - 1];
    if m >= 10 {
      assert a[..|a| - 1] == Digits(m / 10) && b[..|b| - 1] == Digits(n / 10);
      DigitsDiffer(m / 10, n / 10);
    }
  }
}
