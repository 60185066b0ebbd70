/** Weighted sums over tables kept as sequences of rows. */
module Sums {

  function Sum<T>(s: seq<T>, weight: T -> real): real
  {
    if s == [] then 0.0 else Sum(s[..|s| - 1], weight) + weight(s[|s| - 1])
  }

  lemma {:induction false} SumUpdate<T>(s: seq<T>, i: nat, x: T, weight: T -> real)
    requires i < |s|
    ensures Sum(s[i := x], weight) == Sum(s, weight) - weight(s[i]) + weight(x)
  {
    var n := |s| - 1;
    if i < n {
      assert s[i := x][..n] == s[..n][i := x];
      SumUpdate(s[..n], i, x, weight);
    } else {
      assert s[i := x][..n] == s[..n];
    }
  }

  lemma {:induction false} SumAppend<T>(s: seq<T>, x: T, weight: T -> real)
    ensures Sum(s + [x], weight) == Sum(s, weight) + weight(x)
  {
    assert (s + [x])[..|s|] == s;
  }

  lemma {:induction false} SumAtLeast<T>(s: seq<T>, i: nat, weight: T -> real)
    requires i < |s| && forall j :: 0 <= j < |s| ==> weight(s[j]) >= 0.0
    ensures Sum(s, weight) >= weight(s[i])
  {
    var n := |s| - 1;
    if i < n { SumAtLeast(s[..n], i, weight); } else { SumNonNegative(s[..n], weight); }
  }

  lemma {:induction false} SumNonNegative<T>(s: seq<T>, weight: T -> real)
    requires forall j :: 0 <= j < |s| ==> weight(s[j]) >= 0.0
    ensures Sum(s, weight) >= 0.0
  {
    if s != [] { SumNonNegative(s[..|s| - 1], weight); }
  }

  lemma {:induction false} SumZero<T>(s: seq<T>, weight: T -> real)
    requires forall j :: 0 <= j < |s| ==> weight(s[j]) == 0.0
    ensures Sum(s, weight) == 0.0
  {
    if s != [] { SumZero(s[..|s| - 1], weight); }
  }
}
