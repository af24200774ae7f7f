/** Prices. Every price pattern captures digits, an optional point and at most
    two more digits, so the `decimal` amounts the source handles are whole
    numbers of cents and `Math.Round(p, 2)` leaves them unchanged. */
module Money {
  import opened Wrappers

  /** An amount in cents; `decimal` 19.99 is 1999. */
  type Cents = nat

  predicate IsDigit(c: char)
  {
    '0' <= c <= '9'
  }

  predicate AllDigits(s: string)
  {
    forall i :: 0 <= i < |s| ==> IsDigit(s[i])
  }

  function DigitValue(c: char): nat
    requires IsDigit(c)
  {
    c as int - '0' as int
  }

  /** The number a run of decimal digits spells. */
  function DigitsValue(s: string): nat
    requires AllDigits(s)
  {
    if s == [] then 0 else DigitsValue(s[..|s| - 1]) * 10 + DigitValue(s[|s| - 1])
  }

  /** Position of the first `c` in `s`, or `|s|` when there is none. */
  function IndexOf(s: string, c: char): (i: nat)
    ensures i <= |s|
    ensures i < |s| ==> s[i] == c
  {
    if s == [] then 0 else if s[0] == c then 0 else 1 + IndexOf(s[1..], c)
  }

  /** `IndexOf` finds the first `c`: a `c` at `k` that follows only other
      characters is at the index found. */
  lemma {:induction false} IndexOfFirst(s: string, c: char, k: nat)
    requires k < |s| && s[k] == c
    requires forall j :: 0 <= j < k ==> s[j] != c
    ensures IndexOf(s, c) == k
  {
    if k > 0 {
      IndexOfFirst(s[1..], c, k - 1);
    }
  }

  /** The cents that up to two fraction digits stand for ("5" is 50). */
  function FractionCents(f: string): nat
    requires AllDigits(f) && |f| <= 2
  {
    if |f| == 0 then 0
    else if |f| == 1 then 10 * DigitValue(f[0])
    else 10 * DigitValue(f[0]) + DigitValue(f[1])
  }

  /** `decimal.MaxValue` (79228162514264337593543950335), in cents. */
  const MaxDecimalCents: Cents := 7922816251426433759354395033500

  /** `decimal.TryParse(s, NumberStyles.Any, CultureInfo.InvariantCulture)` on
      the strings the price patterns capture: one or more ASCII digits,
      optionally followed by a point and at most two digits ("19", "19.",
      "19.9", "19.99"). An amount above `decimal.MaxValue` does not parse;
      anything else yields None as well. */
  function ParseCents(s: string): (r: Option<Cents>)
    ensures r.Some? ==> r.value <= MaxDecimalCents
  {
    var i := IndexOf(s, '.');
    var whole := s[..i];
    var fraction := if i < |s| then s[i + 1..] else [];
    if |whole| > 0 && AllDigits(whole) && AllDigits(fraction) && |fraction| <= 2 then
      var c := DigitsValue(whole) * 100 + FractionCents(fraction);
      if c <= MaxDecimalCents then Some(c) else None
    else None
  }

  function DigitChar(d: nat): (c: char)
    requires d < 10
    ensures IsDigit(c) && DigitValue(c) == d
  {
    ('0' as int + d) as char
  }

  /** `n.ToString()`: the decimal digits of `n`, without leading zeros. */
  function Digits(n: nat): (s: string)
    ensures |s| > 0 && AllDigits(s)
  {
    if n < 10 then [DigitChar(n)] else Digits(n / 10) + [DigitChar(n % 10)]
  }

  /** The invariant-culture text of an amount with two decimals ("19.99"). */
  function FormatCents(c: Cents): string
  {
    Digits(c / 100) + "." + [DigitChar(c % 100 / 10), DigitChar(c % 10)]
  }

  lemma {:induction false} DigitsValueOfDigits(n: nat)
    ensures DigitsValue(Digits(n)) == n
  {
    if n >= 10 {
      var s := Digits(n);
      assert s[..|s| - 1] == Digits(n / 10);
      DigitsValueOfDigits(n / 10);
    }
  }

  /** A whole number of units parses to that many hundred cents, unless it is
      beyond `decimal`'s range. */
  lemma ParseWholeNumber(n: nat)
    ensures ParseCents(Digits(n)) == if 100 * n <= MaxDecimalCents then Some(100 * n) else None
  {
    var s := Digits(n);
    assert IndexOf(s, '.') == |s|;
    assert s[..|s|] == s;
    DigitsValueOfDigits(n);
  }

  /** A price beyond `decimal`'s range, such as 10^29, does not parse. */
  lemma AboveDecimalRangeRejected()
    ensures ParseCents(Digits(100000000000000000000000000000)) == None
  {
    ParseWholeNumber(100000000000000000000000000000);
  }

  /** The first point after a run of digits is the one that ends the run. */
  lemma IndexOfAfterDigits(w: string, rest: string)
    requires AllDigits(w)
    ensures IndexOf(w + "." + rest, '.') == |w|
  {
    var s := w + "." + rest;
    assert s[|w|] == '.';
    assert forall j :: 0 <= j < |w| ==> s[j] == w[j] && IsDigit(w[j]);
    IndexOfFirst(s, '.', |w|);
  }

  /** Parsing is the inverse of formatting with two decimals, for every amount
      a `decimal` can hold. */
  lemma ParseFormatRoundTrip(c: Cents)
    ensures ParseCents(FormatCents(c)) == if c <= MaxDecimalCents then Some(c) else None
  {
    var w := Digits(c / 100);
    var f := [DigitChar(c % 100 / 10), DigitChar(c % 10)];
    var s := FormatCents(c);
    assert s == w + "." + f;
    IndexOfAfterDigits(w, f);
    assert s[..|w|] == w;
    assert s[|w| + 1..] == f;
    assert FractionCents(f) == c % 100;
    DigitsValueOfDigits(c / 100);
  }
}
