/** Helpers shared by every module: an optional value (TypeScript's `T | null`),
    and the integer behaviour of `Math.max/Math.min`, `Math.round` and `Math.ceil`
    on exact rationals. */
module Common {

  datatype Option<T> = None | Some(value: T)

  /** `Math.max(lo, Math.min(hi, v))`, the clamp every component writes inline. */
  function Clamp(v: int, lo: int, hi: int): (r: int)
    requires lo <= hi
    ensures lo <= r <= hi
    ensures lo <= v <= hi ==> r == v
    ensures v < lo ==> r == lo
    ensures hi < v ==> r == hi
  {
    if v < lo then lo else if hi < v then hi else v
  }

  /** `Math.round(n / d)` for a positive denominator: JavaScript rounds halves
      towards +infinity, so the result is the integer r with r - 1/2 <= n/d < r + 1/2. */
  function RoundDiv(n: int, d: int): (r: int)
    requires 0 < d
    ensures 2 * d * r - d <= 2 * n < 2 * d * r + d
  {
    var q := (2 * n + d) / (2 * d);
    assert 2 * d * q <= 2 * n + d < 2 * d * q + 2 * d by {
      var m := (2 * n + d) % (2 * d);
      assert 2 * n + d == 2 * d * q + m;
    }
    q
  }

  /** The rounding above determines its result: no other integer is within half of n/d. */
  lemma RoundDivUnique(n: int, d: int, r: int)
    requires 0 < d
    requires 2 * d * r - d <= 2 * n < 2 * d * r + d
    ensures RoundDiv(n, d) == r
  {
    var q := RoundDiv(n, d);
    assert d * (q - r) < d && d * (r - q) < d;
    BelowOne(d, q - r);
    BelowOne(d, r - q);
  }

  lemma BelowOne(d: int, x: int)
    requires 0 < d && d * x < d
    ensures x < 1
  {
  }

  /** `Math.ceil(n / d)` for a positive denominator. */
  function CeilDiv(n: int, d: int): (r: int)
    requires 0 < d
    ensures d * (r - 1) < n <= d * r
  {
    var q := (-n) / d;
    assert d * q <= -n < d * q + d by {
      var m := (-n) % d;
      assert -n == d * q + m;
    }
    -q
  }

  /** A list without repeated entries. */
  predicate NoDup<T(==)>(s: seq<T>)
  {
    forall i, j :: 0 <= i < j < |s| ==> s[i] != s[j]
  }

  /** Appending an element that is not yet present keeps a list free of repeats. */
  lemma NoDupAppend<T>(s: seq<T>, x: T)
    requires NoDup(s) && x !in s
    ensures NoDup(s + [x])
  {
  }

  /** `a` keeps some of the elements of `b`, in `b`'s order (the result of a `filter`). */
  predicate IsSubsequence<T(==)>(a: seq<T>, b: seq<T>)
    decreases |b|
  {
    if a == [] then true
    else if b == [] then false
    else if a[0] == b[0] then IsSubsequence(a[1..], b[1..])
    else IsSubsequence(a, b[1..])
  }

  /** Every element of a subsequence occurs in the sequence it was taken from. */
  lemma {:induction false} SubsequenceElements<T>(a: seq<T>, b: seq<T>)
    requires IsSubsequence(a, b)
    ensures forall x :: x in a ==> x in b
    ensures |a| <= |b|
    decreases |b|
  {
    if a != [] && b != [] {
      if a[0] == b[0] {
        SubsequenceElements(a[1..], b[1..]);
        forall x | x in a ensures x in b {
          if x != a[0] {
            assert x in a[1..];
          }
        }
      } else {
        SubsequenceElements(a, b[1..]);
      }
    }
  }

  /** A subsequence of a list without repeats has no repeats either. */
  lemma {:induction false} SubsequenceNoDup<T>(a: seq<T>, b: seq<T>)
    requires IsSubsequence(a, b) && NoDup(b)
    ensures NoDup(a)
    decreases |b|
  {
    if a != [] && b != [] {
      assert NoDup(b[1..]) by {
        forall i, j | 0 <= i < j < |b[1..]| ensures b[1..][i] != b[1..][j] {
          assert b[1..][i] == b[i + 1] && b[1..][j] == b[j + 1];
        }
      }
      if a[0] == b[0] {
        SubsequenceNoDup(a[1..], b[1..]);
        SubsequenceElements(a[1..], b[1..]);
        assert b[0] !in b[1..] by {
          forall k | 0 <= k < |b[1..]| ensures b[1..][k] != b[0] {
            assert b[1..][k] == b[k + 1];
          }
        }
        forall i, j | 0 <= i < j < |a| ensures a[i] != a[j] {
          if i == 0 {
            assert a[j] == a[1..][j - 1];
            assert a[j] in a[1..];
          } else {
            assert a[i] == a[1..][i - 1] && a[j] == a[1..][j - 1];
          }
        }
      } else {
        SubsequenceNoDup(a, b[1..]);
      }
    }
  }
}
