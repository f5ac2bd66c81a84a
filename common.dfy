/** Shared vocabulary of the model: optional values, the exceptions the
    source raises, rounding of money, sums, and the few string operations
    (Python's str.replace, JavaScript's String.replace with a string
    pattern, decimal rendering of integers) the documents are built from. */
module Common {

  datatype Option<+T> = None | Some(value: T)

  /** The ways an operation of the source ends without a value. */
  datatype Error =
    | UserError(reason: string)   // odoo.exceptions.UserError
    | KeyError                    // Python dict lookup of a missing key
    | AttributeError              // attribute read on Python's False
    | IndexError                  // Python list index out of range
    | UnboundLocalError           // a Python local read before assignment
    | ValueError                  // int() of a non-digit character
    | TypeError                   // JavaScript property read on false/undefined, Python arithmetic on None
    | ZeroDivisionError           // Python division by zero
    | FuelExhausted               // the model's bound on a recursion

  datatype Result<+T> = Ok(value: T) | Err(error: Error)

  /** Sum of a sequence of integers. */
  function Sum(s: seq<int>): int
  {
    if s == [] then 0 else Sum(s[..|s| - 1]) + s[|s| - 1]
  }

  lemma {:induction false} SumAppend(a: seq<int>, b: seq<int>)
    ensures Sum(a + b) == Sum(a) + Sum(b)
    decreases |b|
  {
    if b == [] {
      assert a + b == a;
    } else {
      assert (a + b)[..|a + b| - 1] == a + b[..|b| - 1];
      SumAppend(a, b[..|b| - 1]);
    }
  }

  function RSum(s: seq<real>): real
  {
    if s == [] then 0.0 else RSum(s[..|s| - 1]) + s[|s| - 1]
  }

  /** Rounding of a real to the nearest integer, halves away from zero
      (Python's decimal ROUND_HALF_UP and Odoo's float_round). */
  function RoundHalfUp(x: real): (r: int)
    ensures x - 0.5 <= r as real <= x + 0.5
    ensures x >= 0.0 ==> r >= 0
    ensures x <= 0.0 ==> r <= 0
  {
    if x >= 0.0 then (x + 0.5).Floor else -((-x + 0.5).Floor)
  }

  /** JavaScript's Math.round: halves go towards positive infinity. */
  function JsMathRound(x: real): (r: int)
    ensures x - 0.5 < r as real <= x + 0.5
  {
    (x + 0.5).Floor
  }

  function Pow10(n: nat): (r: real)
    ensures r >= 1.0
  {
    if n == 0 then 1.0 else 10.0 * Pow10(n - 1)
  }

  /** Python's round(x, n): to n decimals, an exact half going to the even
      neighbour. */
  function PyRound(x: real, n: nat): (r: real)
    ensures x - 0.5 / Pow10(n) <= r <= x + 0.5 / Pow10(n)
  {
    var y := x * Pow10(n);
    var f := y.Floor;
    var d := y - f as real;
    var k := if d < 0.5 then f else if d > 0.5 then f + 1 else if f % 2 == 0 then f else f + 1;
    assert y - 0.5 <= k as real <= y + 0.5;
    DivideBounds(k as real, y, Pow10(n));
    k as real / Pow10(n)
  }

  lemma DivideBounds(k: real, y: real, p: real)
    requires p >= 1.0 && y - 0.5 <= k <= y + 0.5
    ensures (y / p) - 0.5 / p <= k / p <= (y / p) + 0.5 / p
  {
    assert (y - 0.5) / p <= k / p <= (y + 0.5) / p;
  }

  /** Rounding to a multiple of a precision (Odoo's round_precision and
      currency.round); a precision that is not positive means 1. */
  function RoundPr(x: real, precision: real): (r: real)
    ensures x == 0.0 ==> r == 0.0
  {
    var p := if precision > 0.0 then precision else 1.0;
    (RoundHalfUp(x / p) as real) * p
  }


  lemma RoundHalfUpOfInt(k: int)
    ensures RoundHalfUp(k as real) == k
  {
    if k >= 0 {
      assert (k as real + 0.5).Floor == k;
    } else {
      assert ((-k) as real + 0.5).Floor == -k;
    }
  }

  lemma RoundHalfUpOfMultiple(k: int, p: real)
    requires p > 0.0
    ensures RoundHalfUp((k as real * p) / p) == k
  {
    assert (k as real * p) / p == k as real;
    RoundHalfUpOfInt(k);
  }

  /** Lemma: rounding an already rounded amount to the same precision
      changes nothing. */
  lemma RoundPrIdempotent(x: real, precision: real)
    ensures RoundPr(RoundPr(x, precision), precision) == RoundPr(x, precision)
  {
    var p := if precision > 0.0 then precision else 1.0;
    var k := RoundHalfUp(x / p);
    var y := k as real * p;
    assert RoundPr(x, precision) == y;
    RoundHalfUpOfMultiple(k, p);
    assert RoundHalfUp(y / p) == k;
  }

  /** Sorted by a key, in increasing order. */
  predicate SortedBy<T>(s: seq<T>, key: T -> int)
  {
    forall i, j :: 0 <= i < j < |s| ==> key(s[i]) <= key(s[j])
  }

  /** Stable insertion: x goes after every element whose key is not larger. */
  function InsertBy<T>(x: T, s: seq<T>, key: T -> int): (r: seq<T>)
    ensures multiset(r) == multiset(s) + multiset{x}
    ensures |r| == |s| + 1
  {
    if s == [] then [x]
    else if key(x) < key(s[0]) then [x] + s
    else
      assert s == [s[0]] + s[1..];
      [s[0]] + InsertBy(x, s[1..], key)
  }

  lemma {:induction false} InsertBySorted<T>(x: T, s: seq<T>, key: T -> int)
    requires SortedBy(s, key)
    ensures SortedBy(InsertBy(x, s, key), key)
  {
    if s != [] && key(x) >= key(s[0]) {
      InsertBySorted(x, s[1..], key);
      InsertByBound(x, s[1..], key, key(s[0]));
    }
  }

  /** A bound every key of x and s meets holds for every key of the
      insertion. */
  lemma {:induction false} InsertByBound<T>(x: T, s: seq<T>, key: T -> int, b: int)
    requires key(x) >= b && forall i :: 0 <= i < |s| ==> key(s[i]) >= b
    ensures forall i :: 0 <= i < |InsertBy(x, s, key)| ==> key(InsertBy(x, s, key)[i]) >= b
  {
    if s != [] && key(x) >= key(s[0]) {
      InsertByBound(x, s[1..], key, b);
    }
  }

  /** Python's sorted(s, key=key), which is stable. */
  function SortBy<T>(s: seq<T>, key: T -> int): (r: seq<T>)
    ensures multiset(r) == multiset(s) && |r| == |s|
  {
    if s == [] then []
    else
      assert s == s[..|s| - 1] + [s[|s| - 1]];
      InsertBy(s[|s| - 1], SortBy(s[..|s| - 1], key), key)
  }

  lemma {:induction false} SortBySorted<T>(s: seq<T>, key: T -> int)
    ensures SortedBy(SortBy(s, key), key)
  {
    if s != [] {
      SortBySorted(s[..|s| - 1], key);
      InsertBySorted(s[|s| - 1], SortBy(s[..|s| - 1], key), key);
    }
  }

  /** Lemma: sorting keeps exactly the same elements. */
  lemma SortBySameElements<T>(s: seq<T>, key: T -> int)
    ensures forall x :: x in SortBy(s, key) <==> x in s
  {
    forall x
      ensures x in SortBy(s, key) <==> x in s
    {
      assert x in SortBy(s, key) <==> x in multiset(SortBy(s, key));
      assert x in s <==> x in multiset(s);
    }
  }

  /** Python's str.replace(old, new): every non-overlapping occurrence,
      scanning from the left. */
  function ReplaceAll(s: string, pat: string, rep: string): (r: string)
    requires pat != []
    decreases |s|
  {
    if |s| < |pat| then s
    else if s[..|pat|] == pat then rep + ReplaceAll(s[|pat|..], pat, rep)
    else [s[0]] + ReplaceAll(s[1..], pat, rep)
  }

  /** Lemma: removing a pattern that does not contain c keeps every c. */
  lemma {:induction false} ReplaceAllKeepsCount(s: string, pat: string, c: char)
    requires pat != [] && c !in pat
    ensures multiset(ReplaceAll(s, pat, ""))[c] == multiset(s)[c]
    decreases |s|
  {
    if |s| >= |pat| {
      if s[..|pat|] == pat {
        assert s == pat + s[|pat|..];
        ReplaceAllKeepsCount(s[|pat|..], pat, c);
      } else {
        assert s == [s[0]] + s[1..];
        ReplaceAllKeepsCount(s[1..], pat, c);
      }
    }
  }

  /** Lemma: replacing a pattern by text no longer than it never lengthens
      the text. */
  lemma {:induction false} ReplaceAllShorter(s: string, pat: string, rep: string)
    requires pat != [] && |rep| <= |pat|
    ensures |ReplaceAll(s, pat, rep)| <= |s|
    decreases |s|
  {
    if |s| >= |pat| {
      if s[..|pat|] == pat {
        ReplaceAllShorter(s[|pat|..], pat, rep);
      } else {
        ReplaceAllShorter(s[1..], pat, rep);
      }
    }
  }

  /** Lemma: ReplaceAll leaves a text without the pattern's first character
      as it is. */
  lemma {:induction false} ReplaceAllAbsent(s: string, pat: string, rep: string)
    requires pat != [] && pat[0] !in s
    ensures ReplaceAll(s, pat, rep) == s
    decreases |s|
  {
    if |s| >= |pat| {
      assert s[..|pat|][0] == s[0];
      assert s[1..] == s[1..];
      assert pat[0] !in s[1..];
      ReplaceAllAbsent(s[1..], pat, rep);
    }
  }

  /** Index of the first occurrence of a character, if any. */
  function FirstIndexOf(s: string, c: char): (r: Option<nat>)
    ensures r.None? <==> c !in s
    ensures r.Some? ==> r.value < |s| && s[r.value] == c && c !in s[..r.value]
  {
    if s == [] then None
    else if s[0] == c then Some(0)
    else
      var t := FirstIndexOf(s[1..], c);
      assert c in s <==> c in s[1..];
      if t.None? then None
      else
        assert s[..t.value + 1] == [s[0]] + s[1..][..t.value];
        Some(t.value + 1)
  }

  /** JavaScript's String.prototype.replace with a one-character string
      pattern: only the first occurrence is replaced. */
  function ReplaceFirstChar(s: string, c: char, rep: string): (r: string)
  {
    match FirstIndexOf(s, c)
    case None => s
    case Some(i) => s[..i] + rep + s[i + 1..]
  }

  /** Lemma: the replacement acts on the first occurrence only: text before
      it is kept, text after it (further occurrences included) is kept. */
  lemma ReplaceFirstCharSplit(a: string, b: string, c: char, rep: string)
    requires c !in a
    ensures ReplaceFirstChar(a + [c] + b, c, rep) == a + rep + b
  {
    var s := a + [c] + b;
    FirstIndexAfter(a, b, c);
    assert s[..|a|] == a && s[|a| + 1..] == b;
  }

  /** The first occurrence of c in a + [c] + b, when a has none, is right after a. */
  lemma FirstIndexAfter(a: string, b: string, c: char)
    requires c !in a
    ensures FirstIndexOf(a + [c] + b, c) == Some(|a|)
  {
    var s := a + [c] + b;
    assert s[|a|] == c;
    var r := FirstIndexOf(s, c);
    assert forall j :: 0 <= j < |a| ==> s[j] == a[j];
  }

  /** Python's s[:n] / the first n characters (all of them when shorter). */
  function Take<T>(s: seq<T>, n: int): (r: seq<T>)
    ensures |r| == if n <= 0 then 0 else if n < |s| then n else |s|
    ensures r <= s
  {
    if n <= 0 then [] else if n < |s| then s[..n] else s
  }

  /** Python's s[n:] for n >= 0. */
  function Drop<T>(s: seq<T>, n: nat): (r: seq<T>)
    ensures Take(s, n) + r == s
  {
    if n < |s| then s[n..] else []
  }

  function DigitChar(d: nat): char
    requires d < 10
  {
    "0123456789"[d]
  }

  predicate IsDigit(c: char)
  {
    '0' <= c <= '9'
  }

  function DigitValue(c: char): nat
    requires IsDigit(c)
  {
    (c as int - '0' as int) as nat
  }

  /** Decimal rendering of a natural number without leading zeros. */
  function NatToString(n: nat): (r: string)
    ensures |r| >= 1
    ensures forall i :: 0 <= i < |r| ==> IsDigit(r[i])
    decreases n
  {
    if n < 10 then [DigitChar(n)] else NatToString(n / 10) + [DigitChar(n % 10)]
  }

  /** Decimal reading of a string of digits. */
  function DigitsValue(s: string): nat
    requires forall i :: 0 <= i < |s| ==> IsDigit(s[i])
  {
    if s == [] then 0 else 10 * DigitsValue(s[..|s| - 1]) + DigitValue(s[|s| - 1])
  }

  lemma {:induction false} NatToStringRoundTrip(n: nat)
    ensures DigitsValue(NatToString(n)) == n
    decreases n
  {
    if n >= 10 {
      var s := NatToString(n);
      assert s[..|s| - 1] == NatToString(n / 10);
      NatToStringRoundTrip(n / 10);
    }
  }

  /** JavaScript's String(n) / Python's str(n) for an integer. */
  function IntToString(n: int): (r: string)
    ensures |r| >= 1
  {
    if n < 0 then "-" + NatToString(-n) else NatToString(n)
  }
}
