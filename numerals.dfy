/**
 * The value of numeral text and the text of a value, on exact decimals.
 *
 * Both parsers turn a numeral token into a number (`Number(...)` in
 * src/parser/parser.ts, `parseFloat(...)` in backend/src/parser/parser.ts);
 * on the numerals the tokenizers produce (a digit, then digits and at most one
 * dot) the two agree. The backend parser also prints a number back into an
 * assignment target (`a[2]`), which is what `NumberText` covers.
 */
module Numerals {
  import opened Wrappers
  import opened Chars
  import opened Tokens

  function DigitValue(c: char): (d: nat)
    requires IsDigit(c)
    ensures d < 10
  {
    c as int - '0' as int
  }

  function DigitChar(d: nat): (c: char)
    requires d < 10
    ensures IsDigit(c) && DigitValue(c) == d
  {
    ('0' as int + d) as char
  }

  predicate AllDigits(s: string)
  {
    forall k :: 0 <= k < |s| ==> IsDigit(s[k])
  }

  /** The value of a run of decimal digits (0 for the empty run, as `"1."` reads as 1). */
  function DigitsValue(s: string): nat
    requires AllDigits(s)
  {
    if s == [] then 0 else DigitsValue(s[..|s| - 1]) * 10 + DigitValue(s[|s| - 1])
  }

  function Pow10(n: nat): (p: nat)
    ensures p >= 1
  {
    if n == 0 then 1 else 10 * Pow10(n - 1)
  }

  /** Where the dot of a numeral is, if it has one. */
  function DotIndex(s: string): (d: Option<nat>)
    ensures d.Some? ==> d.value < |s| && s[d.value] == '.'
    ensures d.None? ==> '.' !in s
    ensures d.Some? ==> '.' !in s[..d.value]
  {
    if s == [] then None
    else if s[0] == '.' then Some(0)
    else match DotIndex(s[1..])
      case None => assert s == [s[0]] + s[1..]; None
      case Some(k) => assert s[..k + 1] == [s[0]] + s[1..][..k]; Some(k + 1)
  }

  /** The exact decimal value of a numeral: its digits before the dot, plus its digits after it scaled down. */
  function NumeralValue(s: string): (v: real)
    requires IsNumeral(s)
    ensures v >= 0.0
  {
    match DotIndex(s)
    case None =>
      assert AllDigits(s) by { NoDotAllDigits(s); }
      DigitsValue(s) as real
    case Some(d) =>
      SplitAtDot(s, d);
      DigitsValue(s[..d]) as real + DigitsValue(s[d + 1..]) as real / Pow10(|s| - d - 1) as real
  }

  lemma NoDotAllDigits(s: string)
    requires forall k :: 0 <= k < |s| ==> IsNumeralChar(s[k])
    requires '.' !in s
    ensures AllDigits(s)
  {
    forall k | 0 <= k < |s| ensures IsDigit(s[k]) {
      assert s[k] in s;
    }
  }

  /** A numeral has one dot at most, so both sides of it are digit runs. */
  lemma SplitAtDot(s: string, d: nat)
    requires IsNumeral(s) && d < |s| && s[d] == '.' && '.' !in s[..d]
    ensures AllDigits(s[..d]) && AllDigits(s[d + 1..])
  {
    NoDotAllDigits(s[..d]);
    assert s == s[..d] + [s[d]] + s[d + 1..];
    assert multiset(s)['.'] == multiset(s[..d])['.'] + 1 + multiset(s[d + 1..])['.'];
    assert multiset(s[d + 1..])['.'] == 0;
    assert '.' !in multiset(s[d + 1..]);
    NoDotAllDigits(s[d + 1..]);
  }

  /** The decimal digits of `n`, without leading zeros; `"0"` for zero. */
  function NatText(n: nat): (s: string)
    ensures |s| > 0 && AllDigits(s)
    ensures |s| > 1 ==> s[0] != '0'
    decreases n
  {
    if n < 10 then [DigitChar(n)] else NatText(n / 10) + [DigitChar(n % 10)]
  }

  /** Reading back the digits of `n` gives `n`. */
  lemma {:induction false} NatTextValue(n: nat)
    ensures DigitsValue(NatText(n)) == n
    decreases n
  {
    if n >= 10 {
      NatTextValue(n / 10);
      var s := NatText(n);
      assert s[..|s| - 1] == NatText(n / 10);
    }
  }

  /** The text of a natural number is a numeral, and it denotes that number. */
  lemma NatNumeral(n: nat)
    ensures IsNumeral(NatText(n))
    ensures NumeralValue(NatText(n)) == n as real
  {
    var s := NatText(n);
    assert forall k :: 0 <= k < |s| ==> s[k] != '.';
    assert '.' !in s;
    assert DotCount(s) == 0;
    assert forall k :: 0 <= k < |s| ==> IsNumeralChar(s[k]);
    NatTextValue(n);
  }

  /**
   * Up to `fuel` fractional digits of `f`, stopping as soon as nothing is
   * left: the part of JavaScript's number-to-text conversion that prints a
   * fraction with no trailing zeros.
   */
  function FractionDigits(f: real, fuel: nat): (s: string)
    requires 0.0 <= f < 1.0
    ensures AllDigits(s) && |s| <= fuel
    ensures f == 0.0 ==> s == []
    decreases fuel
  {
    if fuel == 0 || f == 0.0 then []
    else
      var d := (f * 10.0).Floor;
      assert 0 <= d < 10;
      [DigitChar(d)] + FractionDigits(f * 10.0 - d as real, fuel - 1)
  }

  /** Reading a digit run from the front: its first digit counts `10^|t|` times. */
  lemma {:induction false} DigitsValueCons(c: char, t: string)
    requires IsDigit(c) && AllDigits(t)
    ensures AllDigits([c] + t)
    ensures DigitsValue([c] + t) == DigitValue(c) * Pow10(|t|) + DigitsValue(t)
    decreases |t|
  {
    var s := [c] + t;
    if t != [] {
      var u := t[..|t| - 1];
      assert s[..|s| - 1] == [c] + u;
      DigitsValueCons(c, u);
      var a, p, du, last := DigitValue(c), Pow10(|u|), DigitsValue(u), DigitValue(t[|t| - 1]);
      assert DigitsValue(s) == (a * p + du) * 10 + last;
      ShiftLeading(a, p, du, last);
      assert DigitsValue(t) == du * 10 + last && Pow10(|t|) == p * 10;
    }
  }

  /** Appending a digit `last` to `a * p + du` keeps the leading `a` in front, now at `p * 10`. */
  lemma ShiftLeading(a: nat, p: nat, du: nat, last: nat)
    ensures (a * p + du) * 10 + last == a * (p * 10) + (du * 10 + last)
  {
  }

  /** `v` has at most `k` decimal places: `v * 10^k` is a whole number. */
  predicate WithinPlaces(v: real, k: nat)
    decreases k
  {
    if k == 0 then v.Floor as real == v else WithinPlaces(v * 10.0, k - 1)
  }

  /** Moving a number by a whole amount keeps its decimal places. */
  lemma {:induction false} WithinPlacesShift(v: real, n: int, k: nat)
    requires WithinPlaces(v, k)
    ensures WithinPlaces(v - n as real, k)
    decreases k
  {
    if k == 0 {
      var w := v.Floor;
      assert v - n as real == (w - n) as real;
      assert (v - n as real).Floor == w - n;
    } else {
      WithinPlacesShift(v * 10.0, 10 * n, k - 1);
      assert (v - n as real) * 10.0 == v * 10.0 - (10 * n) as real;
    }
  }

  /** The value of fractional digits read front to back, `0.d1d2...`. */
  function FractionValue(ds: string): (f: real)
    requires AllDigits(ds)
    ensures 0.0 <= f < 1.0
  {
    if ds == [] then 0.0 else (DigitValue(ds[0]) as real + FractionValue(ds[1..])) / 10.0
  }

  /** `(d + a / b) / 10 == (d * b + a) / (10 * b)`. */
  lemma PrependDigit(d: nat, a: nat, b: nat)
    requires b >= 1
    ensures (d as real + a as real / b as real) / 10.0 == (d * b + a) as real / (10 * b) as real
  {
    var x := a as real / b as real;
    assert x * b as real == a as real;
    assert (d as real + x) * b as real == (d * b + a) as real;
  }

  /** Fractional digits read front to back denote their digit run over a power of ten. */
  lemma {:induction false} FractionValueQuotient(ds: string)
    requires AllDigits(ds)
    ensures FractionValue(ds) == DigitsValue(ds) as real / Pow10(|ds|) as real
    decreases |ds|
  {
    if ds != [] {
      var t := ds[1..];
      assert ds == [ds[0]] + t;
      FractionValueQuotient(t);
      DigitsValueCons(ds[0], t);
      PrependDigit(DigitValue(ds[0]), DigitsValue(t), Pow10(|t|));
    }
  }

  /**
   * A fraction of at most `fuel` decimal places, printed with room for
   * `fuel` digits, gives digits that denote exactly that fraction.
   */
  lemma {:induction false} FractionDigitsDenote(f: real, fuel: nat)
    requires 0.0 <= f < 1.0 && WithinPlaces(f, fuel)
    ensures FractionValue(FractionDigits(f, fuel)) == f
    decreases fuel
  {
    if fuel == 0 {
      assert f.Floor == 0;
    } else if f != 0.0 {
      var d := (f * 10.0).Floor;
      var rest := f * 10.0 - d as real;
      WithinPlacesShift(f * 10.0, d, fuel - 1);
      FractionDigitsDenote(rest, fuel - 1);
      var t := FractionDigits(rest, fuel - 1);
      var ds := FractionDigits(f, fuel);
      assert ds == [DigitChar(d)] + t;
      assert ds[1..] == t;
    }
  }

  /** How many fractional digits `NumberText` prints at most. */
  const MAX_FRACTION_DIGITS: nat := 20

  /**
   * `${value}` for a non-negative number: the integer digits, then a dot and
   * the fraction when there is one.
   */
  function NumberText(v: real): (s: string)
    requires v >= 0.0
    ensures |s| > 0 && IsDigit(s[0])
  {
    var whole := v.Floor;
    var frac := v - whole as real;
    NatText(whole) + (if frac == 0.0 then "" else "." + FractionDigits(frac, MAX_FRACTION_DIGITS))
  }

  /** A whole number prints as its digits, with no dot. */
  lemma NumberTextOfNat(n: nat)
    ensures NumberText(n as real) == NatText(n)
  {
    assert (n as real).Floor == n;
  }

  /** Printing a whole number and reading it back gives the same number. */
  lemma NumberTextRoundTrip(n: nat)
    ensures IsNumeral(NumberText(n as real))
    ensures NumeralValue(NumberText(n as real)) == n as real
  {
    NumberTextOfNat(n);
    NatNumeral(n);
  }

  /**
   * A number with at most `MAX_FRACTION_DIGITS` decimal places prints as a
   * numeral that reads back as that number.
   */
  lemma FractionTextRoundTrip(v: real)
    requires v >= 0.0 && WithinPlaces(v, MAX_FRACTION_DIGITS)
    ensures IsNumeral(NumberText(v)) && NumeralValue(NumberText(v)) == v
  {
    var whole: nat := v.Floor;
    var f := v - whole as real;
    WithinPlacesShift(v, whole, MAX_FRACTION_DIGITS);
    FractionDigitsDenote(f, MAX_FRACTION_DIGITS);
    if f == 0.0 {
      NumberTextRoundTrip(whole);
    } else {
      var w := NatText(whole);
      var ds := FractionDigits(f, MAX_FRACTION_DIGITS);
      NumberTextSplit(whole, f);
      FractionTextParts(w, ds, NumberText(v));
      NatTextValue(whole);
    }
  }

  /** A number with a non-zero fraction prints its whole part, a dot, and the fraction's digits. */
  lemma NumberTextSplit(whole: nat, f: real)
    requires 0.0 < f < 1.0
    ensures NumberText(whole as real + f) == NatText(whole) + ("." + FractionDigits(f, MAX_FRACTION_DIGITS))
  {
    FloorOfSum(whole, f);
  }

  /** Adding a fraction in `[0, 1)` to a whole number leaves its floor alone. */
  lemma FloorOfSum(whole: nat, f: real)
    requires 0.0 <= f < 1.0
    ensures (whole as real + f).Floor == whole
    ensures (whole as real + f) - whole as real == f
  {
  }

  /** The first dot of `s` is at `i` when `s[i]` is a dot and none comes before it. */
  lemma {:induction false} DotIndexAt(s: string, i: nat)
    requires i < |s| && s[i] == '.'
    requires forall j :: 0 <= j < i ==> s[j] != '.'
    ensures DotIndex(s) == Some(i)
    decreases i
  {
    if i > 0 {
      DotIndexAt(s[1..], i - 1);
    }
  }

  /** A digit run, a dot and a digit run form a numeral split at that dot. */
  lemma FractionTextParts(w: string, ds: string, s: string)
    requires |w| > 0 && AllDigits(w) && AllDigits(ds) && s == w + ("." + ds)
    ensures IsNumeral(s) && DotIndex(s) == Some(|w|)
    ensures s[..|w|] == w && s[|w| + 1..] == ds
    ensures NumeralValue(s) == DigitsValue(w) as real + FractionValue(ds)
  {
    FractionValueQuotient(ds);
    assert s[..|w|] == w && s[|w| + 1..] == ds;
    assert '.' !in ds by {
      forall k | 0 <= k < |ds| ensures ds[k] != '.' { assert IsDigit(ds[k]); }
    }
    forall j | 0 <= j < |w| ensures s[j] != '.' {
      assert s[j] == w[j] && IsDigit(w[j]);
    }
    assert '.' !in w by {
      forall k | 0 <= k < |w| ensures w[k] != '.' { assert s[k] == w[k]; }
    }
    assert multiset(s) == multiset(w) + multiset{'.'} + multiset(ds);
    assert DotCount(s) == 1;
    DotIndexAt(s, |w|);
  }
}
