/** Comparison of dotted version strings. */
module Versions {

  /** What `parseInt` makes of one level; `NaN` when it does not start with a digit. */
  datatype Level = Num(n: nat) | NaN

  predicate IsDigit(c: char)
  {
    '0' <= c <= '9'
  }

  /** The digits at the front of a level. */
  function LeadingDigits(s: string): string
  {
    if s == "" || !IsDigit(s[0]) then "" else [s[0]] + LeadingDigits(s[1..])
  }

  function DigitOf(c: char): nat
    requires IsDigit(c)
  {
    c as int - '0' as int
  }

  function DecimalValue(s: string): nat
    requires forall i :: 0 <= i < |s| ==> IsDigit(s[i])
  {
    if s == "" then 0 else DecimalValue(s[..|s| - 1]) * 10 + DigitOf(s[|s| - 1])
  }

  lemma {:induction false} LeadingDigitsAreDigits(s: string)
    ensures forall i :: 0 <= i < |LeadingDigits(s)| ==> IsDigit(LeadingDigits(s)[i])
  {
    if s != "" && IsDigit(s[0]) { LeadingDigitsAreDigits(s[1..]); }
  }

  function ParseInt(s: string): Level
  {
    LeadingDigitsAreDigits(s);
    if LeadingDigits(s) == "" then NaN else Num(DecimalValue(LeadingDigits(s)))
  }

  /** `split('.')`. */
  function Split(s: string): (levels: seq<string>)
    ensures |levels| >= 1
  {
    if s == "" then [""]
    else
      var rest := Split(s[1..]);
      if s[0] == '.' then [""] + rest else [[s[0]] + rest[0]] + rest[1..]
  }

  function Levels(s: string): seq<Level>
  {
    var parts := Split(s);
    seq(|parts|, i requires 0 <= i < |parts| => ParseInt(parts[i]))
  }

  /** A missing level counts as zero. */
  function At(v: seq<Level>, i: nat): Level
  {
    if i < |v| then v[i] else Num(0)
  }

  /** Comparisons with `NaN` are false. */
  predicate Greater(a: Level, b: Level)
  {
    a.Num? && b.Num? && a.n > b.n
  }

  function Max(a: nat, b: nat): nat
  {
    if a >= b then a else b
  }

  /** The comparison from level i on. */
  function CompareFrom(a: seq<Level>, b: seq<Level>, i: nat): (r: int)
    ensures r == 0 || r == 1 || r == -1
    decreases Max(|a|, |b|) - i
  {
    if i >= Max(|a|, |b|) then 0
    else if Greater(At(a, i), At(b, i)) then 1
    else if Greater(At(b, i), At(a, i)) then -1
    else CompareFrom(a, b, i + 1)
  }

  function Compare(a: seq<Level>, b: seq<Level>): int
  {
    CompareFrom(a, b, 0)
  }

  method CompareVersion(v1: string, v2: string) returns (r: int)
    ensures r == Compare(Levels(v1), Levels(v2))
  {
    var levels1, levels2 := Split(v1), Split(v2);
    var length := Max(|levels1|, |levels2|);
    for i := 0 to length
      invariant Compare(Levels(v1), Levels(v2)) == CompareFrom(Levels(v1), Levels(v2), i)
    {
      var a := if i < |levels1| then ParseInt(levels1[i]) else Num(0);
      var b := if i < |levels2| then ParseInt(levels2[i]) else Num(0);
      assert a == At(Levels(v1), i) && b == At(Levels(v2), i);
      if Greater(a, b) { return 1; }
      if Greater(b, a) { return -1; }
    }
    r := 0;
  }

  predicate Numeric(v: seq<Level>)
  {
    forall i :: 0 <= i < |v| ==> v[i].Num?
  }

  /** Lexicographic order on zero-padded levels: equal before k, smaller at k. */
  predicate LessAt(a: seq<Level>, b: seq<Level>, k: nat)
  {
    && At(a, k).Num? && At(b, k).Num? && At(a, k).n < At(b, k).n
    && forall j :: 0 <= j < k ==> At(a, j) == At(b, j)
  }

  lemma {:induction false} CompareMeaning(a: seq<Level>, b: seq<Level>, i: nat) returns (k: nat)
    requires Numeric(a) && Numeric(b) && forall j :: 0 <= j < i ==> At(a, j) == At(b, j)
    ensures CompareFrom(a, b, i) == -1 ==> LessAt(a, b, k)
    ensures CompareFrom(a, b, i) == 1 ==> LessAt(b, a, k)
    ensures CompareFrom(a, b, i) == 0 ==> forall j: nat :: At(a, j) == At(b, j)
    decreases Max(|a|, |b|) - i
  {
    k := i;
    if i < Max(|a|, |b|) && At(a, i) == At(b, i) { k := CompareMeaning(a, b, i + 1); }
  }

  /** On numeric versions the comparison is lexicographic order on zero-padded levels. */
  lemma CompareIsLexicographic(a: seq<Level>, b: seq<Level>)
    requires Numeric(a) && Numeric(b)
    ensures Compare(a, b) == -1 <==> exists k: nat :: LessAt(a, b, k)
    ensures Compare(a, b) == 1 <==> exists k: nat :: LessAt(b, a, k)
    ensures Compare(a, b) == 0 <==> forall j: nat :: At(a, j) == At(b, j)
  {
    var k := CompareMeaning(a, b, 0);
    forall m: nat, n: nat | LessAt(a, b, m) ensures !LessAt(b, a, n) { NotBothLess(a, b, m, n); }
    assert forall m: nat :: LessAt(a, b, m) || LessAt(b, a, m) ==> At(a, m) != At(b, m);
  }

  lemma NotBothLess(a: seq<Level>, b: seq<Level>, m: nat, n: nat)
    requires LessAt(a, b, m)
    ensures !LessAt(b, a, n)
  {
    if n < m { assert At(a, n) == At(b, n); }
  }

  /** Swapping the arguments negates the result, for any strings at all. */
  lemma {:induction false} CompareSwaps(a: seq<Level>, b: seq<Level>, i: nat)
    ensures CompareFrom(b, a, i) == -CompareFrom(a, b, i)
    decreases Max(|a|, |b|) - i
  {
    if i < Max(|a|, |b|) { CompareSwaps(a, b, i + 1); }
  }

  /** Transitive across versions of any lengths, strictly when either step is strict. */
  lemma CompareTransitive(a: seq<Level>, b: seq<Level>, c: seq<Level>)
    requires Numeric(a) && Numeric(b) && Numeric(c)
    requires Compare(a, b) <= 0 && Compare(b, c) <= 0
    ensures Compare(a, c) <= 0 && (Compare(a, c) == 0 ==> Compare(a, b) == 0 && Compare(b, c) == 0)
  {
    var k := CompareMeaning(a, b, 0);
    var m := CompareMeaning(b, c, 0);
    if Compare(a, b) == 0 {
      if Compare(b, c) == -1 { assert LessAt(a, c, m); }
    } else if Compare(b, c) == 0 {
      assert LessAt(a, c, k);
    } else {
      assert LessAt(a, c, if k <= m then k else m);
    }
    CompareIsLexicographic(a, c);
  }

  /** The version without its trailing zero levels. */
  function Trimmed(v: seq<Level>): (r: seq<Level>)
    ensures r == [] || r[|r| - 1] != Num(0)
    ensures forall j: nat :: At(r, j) == At(v, j)
  {
    if v != [] && v[|v| - 1] == Num(0) then Trimmed(v[..|v| - 1]) else v
  }

  lemma NotLonger(x: seq<Level>, y: seq<Level>)
    requires x == [] || x[|x| - 1] != Num(0)
    requires forall j: nat :: At(x, j) == At(y, j)
    ensures |x| <= |y|
  {
    if x != [] { assert At(x, |x| - 1) != Num(0); }
  }

  /** Zero exactly when the versions agree without trailing zero levels. */
  lemma CompareZero(a: seq<Level>, b: seq<Level>)
    requires Numeric(a) && Numeric(b)
    ensures Compare(a, b) == 0 <==> Trimmed(a) == Trimmed(b)
  {
    CompareIsLexicographic(a, b);
    var x, y := Trimmed(a), Trimmed(b);
    if Compare(a, b) == 0 {
      NotLonger(x, y);
      NotLonger(y, x);
      assert forall j :: 0 <= j < |x| ==> x[j] == At(x, j);
    } else {
      assert x == y ==> forall j: nat :: At(a, j) == At(x, j) == At(y, j) == At(b, j);
    }
  }

  /** Every `NaN` replaced by n. */
  function Fill(v: seq<Level>, n: nat): (r: seq<Level>)
    ensures |r| == |v| && Numeric(r)
    ensures forall j :: 0 <= j < |v| ==> r[j] == if v[j] == NaN then Num(n) else v[j]
  {
    seq(|v|, j requires 0 <= j < |v| => if v[j] == NaN then Num(n) else v[j])
  }

  lemma {:induction false} FillCompares(v: seq<Level>, n: nat, i: nat)
    ensures CompareFrom(v, Fill(v, n), i) == 0
    decreases |v| - i
  {
    if i < |v| { FillCompares(v, n, i + 1); }
  }

  lemma {:induction false} FillsDiffer(v: seq<Level>, i: nat)
    requires exists j :: i <= j < |v| && v[j] == NaN
    ensures CompareFrom(Fill(v, 0), Fill(v, 1), i) == -1
    decreases |v| - i
  {
    if v[i] != NaN { FillsDiffer(v, i + 1); }
  }

  /** Numeric levels are exactly what makes equality transitive: a version with a level that is not a number
      compares equal to two numeric versions that differ. */
  lemma EqualityTransitiveIffNumeric(v: seq<Level>)
    ensures Numeric(v) <==>
              forall x, y :: Numeric(x) && Numeric(y) && Compare(x, v) == 0 && Compare(v, y) == 0 ==> Compare(x, y) == 0
  {
    if Numeric(v) {
      forall x, y | Numeric(x) && Numeric(y) && Compare(x, v) == 0 && Compare(v, y) == 0 ensures Compare(x, y) == 0 {
        CompareTransitive(x, v, y);
        CompareSwaps(x, v, 0);
        CompareSwaps(v, y, 0);
        CompareTransitive(y, v, x);
        CompareSwaps(x, y, 0);
      }
    } else {
      FillCompares(v, 0, 0);
      FillCompares(v, 1, 0);
      CompareSwaps(v, Fill(v, 0), 0);
      FillsDiffer(v, 0);
    }
  }

  // ---- every numeric version has a string ----

  function DigitChar(d: nat): (c: char)
    requires d < 10
    ensures IsDigit(c) && DigitOf(c) == d
  {
    ('0' as int + d) as char
  }

  function Digits(n: nat): (s: string)
    ensures |s| >= 1 && forall i :: 0 <= i < |s| ==> IsDigit(s[i])
  {
    (if n < 10 then "" else Digits(n / 10)) + [DigitChar(n % 10)]
  }

  function Dotted(ns: seq<nat>): string
    requires |ns| >= 1
  {
    if |ns| == 1 then Digits(ns[0]) else Digits(ns[0]) + "." + Dotted(ns[1..])
  }

  lemma {:induction false} DigitsParse(n: nat)
    ensures DecimalValue(Digits(n)) == n
  {
    var most := if n < 10 then "" else Digits(n / 10);
    assert Digits(n) == most + [DigitChar(n % 10)];
    assert Digits(n)[..|most|] == most;
    if n >= 10 { DigitsParse(n / 10); }
  }

  lemma {:induction false} AllDigitsLead(s: string)
    requires forall i :: 0 <= i < |s| ==> IsDigit(s[i])
    ensures LeadingDigits(s) == s && Split(s) == [s]
  {
    if s != "" { AllDigitsLead(s[1..]); }
  }

  lemma {:induction false} SplitAfterDigits(s: string, rest: string)
    requires forall i :: 0 <= i < |s| ==> IsDigit(s[i])
    ensures Split(s + "." + rest) == [s] + Split(rest)
  {
    var whole := s + "." + rest;
    if s == "" {
      assert whole[1..] == rest;
    } else {
      SplitAfterDigits(s[1..], rest);
      assert whole[1..] == s[1..] + "." + rest && whole[0] == s[0];
      assert ([s[1..]] + Split(rest))[1..] == Split(rest) && [s[0]] + s[1..] == s;
    }
  }

  /** A level is the number its leading digits write, whatever follows them, and no number without any. */
  lemma {:induction false} ParseIntTakesDigits(s: string, rest: string)
    requires forall i :: 0 <= i < |s| ==> IsDigit(s[i])
    requires rest == "" || !IsDigit(rest[0])
    ensures ParseInt(s + rest) == if s == "" then NaN else Num(DecimalValue(s))
  {
    DigitsLead(s, rest);
  }

  lemma {:induction false} DigitsLead(s: string, rest: string)
    requires forall i :: 0 <= i < |s| ==> IsDigit(s[i])
    requires rest == "" || !IsDigit(rest[0])
    ensures LeadingDigits(s + rest) == s
  {
    if s == "" {
      assert s + rest == rest;
    } else {
      DigitsLead(s[1..], rest);
      assert (s + rest)[1..] == s[1..] + rest;
    }
  }

  lemma LevelsOfCons(whole: string, first: string, rest: string)
    requires Split(whole) == [first] + Split(rest)
    ensures Levels(whole) == [ParseInt(first)] + Levels(rest)
  {
  }

  lemma LevelsOfNumeral(s: string)
    requires s != "" && forall i :: 0 <= i < |s| ==> IsDigit(s[i])
    ensures ParseInt(s) == Num(DecimalValue(s)) && Levels(s) == [Num(DecimalValue(s))]
  {
    AllDigitsLead(s);
  }

  lemma LevelsOfDigits(n: nat)
    ensures ParseInt(Digits(n)) == Num(n) && Levels(Digits(n)) == [Num(n)]
  {
    DigitsParse(n);
    LevelsOfNumeral(Digits(n));
  }

  /** Writing numbers with dots and reading them back gives the same levels. */
  lemma {:induction false} DottedRoundTrip(ns: seq<nat>)
    requires |ns| >= 1
    ensures |Levels(Dotted(ns))| == |ns| && forall i :: 0 <= i < |ns| ==> Levels(Dotted(ns))[i] == Num(ns[i])
  {
    LevelsOfDigits(ns[0]);
    if |ns| > 1 {
      var rest := Dotted(ns[1..]);
      DottedRoundTrip(ns[1..]);
      assert Levels(Digits(ns[0]) + "." + rest) == [Num(ns[0])] + Levels(rest) by {
        SplitAfterDigits(Digits(ns[0]), rest);
        LevelsOfCons(Digits(ns[0]) + "." + rest, Digits(ns[0]), rest);
      }
      assert Dotted(ns) == Digits(ns[0]) + "." + rest;
    }
  }
}
