/**
 * Shared vocabulary of the financial engine: the five-year horizon, the
 * compounded inflation factor, guarded division, sums and means over the
 * yearly vectors, Python's `str.strip` and `list.index`, and the small
 * wrapper datatypes used for missing values, errors and the DSCR sentinel.
 */
module Common {

  /** Every projection covers five years ("Ano 1" .. "Ano 5"). */
  const Horizon: nat := 5

  datatype Option<+T> = None | Some(value: T)

  /** An operation that either produces a value or stops with an error. */
  datatype Result<+T, +E> = Success(value: T) | Failure(error: E)

  /**
   * A session-state slot: the key may be absent, present and holding None
   * (what "clear all" stores), or present and holding a value.
   */
  datatype Slot<+T> = Absent | Null | Holds(value: T)

  /** A ratio that may be the sentinel float("inf"). */
  datatype Ratio = Finite(value: real) | Infinite

  /** Every rate up to year i is zero. */
  predicate NoInflation(rates: seq<real>, i: nat)
  {
    i < |rates| && forall j :: 0 <= j <= i ==> rates[j] == 0.0
  }

  /** Cumulative inflation factor through year i: the product over j <= i of (1 + rates[j]/100). */
  function Factor(rates: seq<real>, i: nat): (f: real)
    requires i < |rates|
    ensures NoInflation(rates, i) ==> f == 1.0
  {
    if i == 0 then 1.0 + rates[0] / 100.0
    else Factor(rates, i - 1) * (1.0 + rates[i] / 100.0)
  }

  /** The factor of every year of the horizon. */
  function Factors(rates: seq<real>): (fs: seq<real>)
    requires |rates| >= Horizon
    ensures |fs| == Horizon && forall i :: 0 <= i < Horizon ==> fs[i] == Factor(rates, i)
  {
    [Factor(rates, 0), Factor(rates, 1), Factor(rates, 2), Factor(rates, 3), Factor(rates, 4)]
  }

  /** The factor only depends on the rates of years 0..i. */
  lemma {:induction false} FactorPrefix(a: seq<real>, b: seq<real>, i: nat)
    requires i < |a| && i < |b|
    requires forall j :: 0 <= j <= i ==> a[j] == b[j]
    ensures Factor(a, i) == Factor(b, i)
  {
    if i > 0 {
      FactorPrefix(a, b, i - 1);
    }
  }

  /** With no deflation, prices never fall: the factor is at least 1. */
  lemma {:induction false} FactorAtLeastOne(rates: seq<real>, i: nat)
    requires i < |rates|
    requires forall j :: 0 <= j <= i ==> rates[j] >= 0.0
    ensures Factor(rates, i) >= 1.0
  {
    if i > 0 {
      FactorAtLeastOne(rates, i - 1);
      var f, g := Factor(rates, i - 1), 1.0 + rates[i] / 100.0;
      assert f * g >= f * 1.0 by {
        assert f >= 0.0 && g >= 1.0;
      }
    }
  }

  /** Rates above -100% keep the factor positive. */
  lemma {:induction false} FactorPositive(rates: seq<real>, i: nat)
    requires i < |rates|
    requires forall j :: 0 <= j <= i ==> rates[j] > -100.0
    ensures Factor(rates, i) > 0.0
  {
    if i > 0 {
      FactorPositive(rates, i - 1);
      var f, g := Factor(rates, i - 1), 1.0 + rates[i] / 100.0;
      assert g > 0.0;
      ProductPositive(f, g);
    }
  }

  lemma ProductPositive(x: real, y: real)
    requires x > 0.0 && y > 0.0
    ensures x * y > 0.0
  {
  }

  /** The worked example: with 4% a year, the second year's factor is 1.0816. */
  lemma FactorFlatFourPercent()
    ensures Factor([4.0, 4.0, 4.0, 4.0, 4.0], 0) == 1.04
    ensures Factor([4.0, 4.0, 4.0, 4.0, 4.0], 1) == 1.0816
  {
  }

  /** Sum of a sequence of reals (Python's `sum`). */
  function Sum(xs: seq<real>): real
  {
    if xs == [] then 0.0 else xs[0] + Sum(xs[1..])
  }

  lemma {:induction false} SumAppend(xs: seq<real>, x: real)
    ensures Sum(xs + [x]) == Sum(xs) + x
  {
    if xs != [] {
      assert (xs + [x])[1..] == xs[1..] + [x];
      SumAppend(xs[1..], x);
    }
  }

  /** An amount of the base year carried into a later year by that year's cumulative factor. */
  function Inflated(amount: real, factor: real): real
  {
    amount * factor
  }

  /** A product keeps its value when both factors are replaced by equal ones. */
  lemma ScaleEqual(x: real, a: real, b: real, f: real, g: real)
    requires x == a * f && a == b && f == g
    ensures x == Inflated(b, g)
  {
  }

  /** Scaling every element scales the sum. */
  lemma {:induction false} SumScale(xs: seq<real>, ys: seq<real>, c: real)
    requires |xs| == |ys|
    requires forall j :: 0 <= j < |xs| ==> ys[j] == xs[j] * c
    ensures Sum(ys) == Sum(xs) * c
  {
    if xs != [] {
      SumScale(xs[1..], ys[1..], c);
    }
  }

  /** A sequence with no element below c sums to at least c per element. */
  lemma {:induction false} SumAtLeast(xs: seq<real>, c: real)
    requires forall i :: 0 <= i < |xs| ==> xs[i] >= c
    ensures Sum(xs) >= c * (|xs| as real)
  {
    if xs != [] {
      SumAtLeast(xs[1..], c);
      assert c * (|xs| as real) == c + c * (|xs[1..]| as real);
    }
  }

  /** A sequence with no element above c sums to at most c per element. */
  lemma {:induction false} SumAtMost(xs: seq<real>, c: real)
    requires forall i :: 0 <= i < |xs| ==> xs[i] <= c
    ensures Sum(xs) <= c * (|xs| as real)
  {
    if xs != [] {
      SumAtMost(xs[1..], c);
      assert c * (|xs| as real) == c + c * (|xs[1..]| as real);
    }
  }

  /** Arithmetic mean (numpy's `mean` of a non-empty list). */
  function Mean(xs: seq<real>): (m: real)
    requires |xs| > 0
    ensures m * (|xs| as real) == Sum(xs)
  {
    Sum(xs) / (|xs| as real)
  }

  /** A non-empty sequence with no element below c has a mean of at least c. */
  lemma MeanAtLeast(xs: seq<real>, c: real)
    requires |xs| > 0 && forall i :: 0 <= i < |xs| ==> xs[i] >= c
    ensures Mean(xs) >= c
  {
    SumAtLeast(xs, c);
    assert (Mean(xs) - c) * (|xs| as real) >= 0.0;
  }

  /** A non-empty sequence with no element above c has a mean of at most c. */
  lemma MeanAtMost(xs: seq<real>, c: real)
    requires |xs| > 0 && forall i :: 0 <= i < |xs| ==> xs[i] <= c
    ensures Mean(xs) <= c
  {
    SumAtMost(xs, c);
    assert (c - Mean(xs)) * (|xs| as real) >= 0.0;
  }

  /** A mean below c has an element below c. */
  lemma MeanBelowWitness(xs: seq<real>, c: real)
    requires |xs| > 0 && Mean(xs) < c
    ensures exists i :: 0 <= i < |xs| && xs[i] < c
  {
    if forall i :: 0 <= i < |xs| ==> xs[i] >= c {
      MeanAtLeast(xs, c);
      assert false;
    }
  }

  /** A mean above c has an element above c. */
  lemma MeanAboveWitness(xs: seq<real>, c: real)
    requires |xs| > 0 && Mean(xs) > c
    ensures exists i :: 0 <= i < |xs| && xs[i] > c
  {
    if forall i :: 0 <= i < |xs| ==> xs[i] <= c {
      MeanAtMost(xs, c);
      assert false;
    }
  }

  /** Division guarded against a zero denominator, as every indicator does it: `(n / d) if d != 0 else 0`. */
  function SafeDiv(n: real, d: real): (r: real)
    ensures d == 0.0 ==> r == 0.0
    ensures d != 0.0 ==> r * d == n
  {
    if d == 0.0 then 0.0 else n / d
  }

  /** The characters Python's `str.strip()` removes (those for which `isspace()` holds). */
  predicate IsSpace(c: char)
  {
    c == ' ' || ('\t' <= c <= '\r') || ('\U{1C}' <= c <= '\U{1F}') || c == '\U{85}' || c == '\U{A0}'
    || c == '\U{1680}' || ('\U{2000}' <= c <= '\U{200A}') || c == '\U{2028}' || c == '\U{2029}'
    || c == '\U{202F}' || c == '\U{205F}' || c == '\U{3000}'
  }

  /** The string without its leading blanks. */
  function TrimLeft(s: string): (r: string)
    ensures |r| <= |s|
  {
    if s != [] && IsSpace(s[0]) then TrimLeft(s[1..]) else s
  }

  /** The string without its trailing blanks. */
  function TrimRight(s: string): (r: string)
    ensures |r| <= |s|
  {
    if s != [] && IsSpace(s[|s| - 1]) then TrimRight(s[..|s| - 1]) else s
  }

  /** Python's `str.strip()`. */
  function Trim(s: string): (r: string)
    ensures |r| <= |s|
  {
    TrimRight(TrimLeft(s))
  }

  /** TrimLeft drops a run of blanks and keeps the rest, which starts with a non-blank. */
  lemma {:induction false} TrimLeftSuffix(s: string)
    ensures TrimLeft(s) == s[|s| - |TrimLeft(s)|..]
    ensures TrimLeft(s) == [] || !IsSpace(TrimLeft(s)[0])
    ensures forall k :: 0 <= k < |s| - |TrimLeft(s)| ==> IsSpace(s[k])
  {
    if s != [] && IsSpace(s[0]) {
      var t := s[1..];
      TrimLeftSuffix(t);
      assert t[|t| - |TrimLeft(t)|..] == s[|s| - |TrimLeft(s)|..];
      forall k | 0 < k < |s| - |TrimLeft(s)| ensures IsSpace(s[k]) {
        assert s[k] == t[k - 1];
      }
    }
  }

  /** TrimRight drops a run of blanks and keeps the rest, which ends with a non-blank. */
  lemma {:induction false} TrimRightPrefix(s: string)
    ensures TrimRight(s) == s[..|TrimRight(s)|]
    ensures TrimRight(s) == [] || !IsSpace(TrimRight(s)[|TrimRight(s)| - 1])
    ensures forall k :: |TrimRight(s)| <= k < |s| ==> IsSpace(s[k])
  {
    if s != [] && IsSpace(s[|s| - 1]) {
      var t := s[..|s| - 1];
      TrimRightPrefix(t);
      assert t[..|TrimRight(t)|] == s[..|TrimRight(s)|];
      forall k | |TrimRight(s)| <= k < |s| - 1 ensures IsSpace(s[k]) {
        assert s[k] == t[k];
      }
    }
  }

  /** No blank is left at either end of the stripped string. */
  lemma TrimEnds(s: string)
    ensures Trim(s) == [] || (!IsSpace(Trim(s)[0]) && !IsSpace(Trim(s)[|Trim(s)| - 1]))
  {
    var l := TrimLeft(s);
    TrimLeftSuffix(s);
    TrimRightPrefix(l);
    if Trim(s) != [] {
      assert Trim(s)[0] == l[0];
    }
  }

  /** The stripped string is the part of `s` between a run of leading and a run of trailing blanks. */
  lemma TrimIsSlice(s: string)
    ensures exists a, b :: 0 <= a <= b <= |s| && Trim(s) == s[a..b]
              && (forall k :: 0 <= k < a ==> IsSpace(s[k])) && (forall k :: b <= k < |s| ==> IsSpace(s[k]))
  {
    var l := TrimLeft(s);
    TrimLeftSuffix(s);
    TrimRightPrefix(l);
    var a := |s| - |l|;
    var b := a + |TrimRight(l)|;
    assert Trim(s) == s[a..b];
    forall k | b <= k < |s| ensures IsSpace(s[k]) {
      assert s[k] == l[k - a];
    }
  }

  /** A string made only of blanks strips to the empty string. */
  lemma TrimAllBlank(s: string)
    requires forall k :: 0 <= k < |s| ==> IsSpace(s[k])
    ensures Trim(s) == []
  {
    TrimLeftSuffix(s);
  }

  /** A string with no blank at either end is its own strip. */
  lemma TrimOfSpaceFree(s: string)
    requires s == [] || (!IsSpace(s[0]) && !IsSpace(s[|s| - 1]))
    ensures Trim(s) == s
  {
  }

  /** Stripping twice is stripping once. */
  lemma TrimIdempotent(s: string)
    ensures Trim(Trim(s)) == Trim(s)
  {
    TrimEnds(s);
    TrimOfSpaceFree(Trim(s));
  }

  /** Python's `list.index`: the first position of `x`, or None where Python raises ValueError. */
  function IndexOf(xs: seq<string>, x: string): (r: Option<nat>)
    ensures r.Some? ==> r.value < |xs| && xs[r.value] == x && forall j :: 0 <= j < r.value ==> xs[j] != x
    ensures r.None? <==> x !in xs
  {
    if xs == [] then None
    else if xs[0] == x then Some(0)
    else match IndexOf(xs[1..], x)
      case None => None
      case Some(k) => Some(k + 1)
  }
}
