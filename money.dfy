/**
 * Prices.  An amount is a natural number of hundredths (cents): the
 * parsers only ever produce values with at most two decimals, and the
 * formatters print exactly two.  This module holds the German rendering
 * shared by both price formatters and the decimal-separator rule shared by
 * the egun.de price parsers.
 */
module Money {
  import opened Wrappers
  import opened Chars

  // ---------------------------------------------------------------------
  // Formatting
  // ---------------------------------------------------------------------

  /** A decimal integer grouped by three from the right with '.', as `f"{n:,}"` with the comma turned into a dot. */
  function GroupThousands(d: string): string
  {
    if |d| <= 3 then d else GroupThousands(d[..|d| - 3]) + "." + d[|d| - 3..]
  }

  /** The two cent digits of `f"{v:.2f}"`. */
  function TwoDigits(c: nat): string
    requires c < 100
  {
    [DigitChar(c / 10), DigitChar(c % 10)]
  }

  /** A German amount: grouped whole units, a decimal comma and two digits, for `v` hundredths. */
  function AmountDe(v: nat): string
  {
    GroupThousands(NatToString(v / 100)) + "," + TwoDigits(v % 100)
  }

  predicate IsSep(c: char) { c == '.' || c == ',' }

  /** A character of the number pattern `[\d.,]`. */
  predicate IsNumberChar(c: char) { IsDigit(c) || IsSep(c) }

  predicate AllNumberChars(s: string) { forall k :: 0 <= k < |s| ==> IsNumberChar(s[k]) }

  /** Grouping keeps the first digit in front and adds nothing but dots. */
  lemma {:induction false} GroupShape(d: string)
    requires IsDigitString(d)
    ensures |GroupThousands(d)| > 0 && GroupThousands(d)[0] == d[0]
    ensures GroupThousands(d)[|GroupThousands(d)| - 1] == d[|d| - 1]
    ensures AllNumberChars(GroupThousands(d))
  {
    if |d| > 3 {
      var h, t := d[..|d| - 3], d[|d| - 3..];
      GroupShape(h);
      var g := GroupThousands(h);
      assert GroupThousands(d) == g + "." + t;
      assert h[0] == d[0];
      forall k | 0 <= k < |g + "." + t| ensures IsNumberChar((g + "." + t)[k]) {
        if k > |g| {
          assert (g + "." + t)[k] == t[k - |g| - 1];
        }
      }
    }
  }

  /** Deleting the dots of `g + "." + t` keeps a dot-free `t` whole. */
  lemma RemoveDotJoin(g: string, t: string)
    requires '.' !in t
    ensures RemoveChar(g + "." + t, '.') == RemoveChar(g, '.') + t
  {
    RemoveCharJoin(g, '.', t);
  }

  /** Deleting the dots undoes the grouping. */
  lemma {:induction false} GroupRemoveDots(d: string)
    requires AllDigits(d)
    ensures RemoveChar(GroupThousands(d), '.') == d
  {
    if |d| > 3 {
      var h, t := d[..|d| - 3], d[|d| - 3..];
      assert AllDigits(h);
      assert t == [d[|d| - 3], d[|d| - 2], d[|d| - 1]];
      GroupRemoveDots(h);
      RemoveDotJoin(GroupThousands(h), t);
      assert d == h + t;
    }
  }

  /** An amount is the grouped integer part, a comma, and the two cent digits. */
  lemma AmountShape(v: nat)
    ensures var g := GroupThousands(NatToString(v / 100));
            && AmountDe(v) == g + "," + TwoDigits(v % 100)
            && |g| > 0 && IsDigit(g[0]) && IsDigit(g[|g| - 1]) && AllNumberChars(g)
            && RemoveChar(g, '.') == NatToString(v / 100)
    ensures AllNumberChars(AmountDe(v)) && IsDigit(AmountDe(v)[0])
  {
    var n := NatToString(v / 100);
    GroupShape(n);
    GroupRemoveDots(n);
    var g := GroupThousands(n);
    var a := g + "," + TwoDigits(v % 100);
    forall k | 0 <= k < |a| ensures IsNumberChar(a[k]) {
      if k < |g| {
        assert a[k] == g[k];
      }
    }
    assert a[0] == g[0];
  }

  // ---------------------------------------------------------------------
  // The decimal-separator rule
  // ---------------------------------------------------------------------

  /**
   * Where `[.,](\d{1,2})$` matches: the separator's index.  The leftmost
   * candidate is three from the end, then two from the end.
   */
  function DecimalSepAt(s: string): (r: Option<nat>)
    ensures r.Some? ==> (r.value == |s| - 3 || r.value == |s| - 2) && r.value < |s|
  {
    if |s| >= 3 && IsSep(s[|s| - 3]) && IsDigit(s[|s| - 2]) && IsDigit(s[|s| - 1]) then Some(|s| - 3)
    else if |s| >= 2 && IsSep(s[|s| - 2]) && IsDigit(s[|s| - 1]) then Some(|s| - 2)
    else None
  }

  /** The last two characters are all digits exactly when each of them is. */
  lemma TailTwoDigits(s: string)
    requires |s| >= 2
    ensures AllDigits(s[|s| - 2..]) <==> IsDigit(s[|s| - 2]) && IsDigit(s[|s| - 1])
  {
    assert s[|s| - 2..][0] == s[|s| - 2] && s[|s| - 2..][1] == s[|s| - 1];
  }

  /** The last character alone is all digits exactly when it is a digit. */
  lemma TailOneDigit(s: string)
    requires |s| >= 1
    ensures AllDigits(s[|s| - 1..]) <==> IsDigit(s[|s| - 1])
  {
    assert s[|s| - 1..][0] == s[|s| - 1];
  }

  /** The pattern matches exactly when a separator is followed by one or two digits up to the end. */
  lemma DecimalSepAtSpec(s: string)
    ensures DecimalSepAt(s).Some? <==>
              exists i :: 0 <= i < |s| && |s| - 3 <= i <= |s| - 2 && IsSep(s[i]) && AllDigits(s[i + 1..])
    ensures DecimalSepAt(s).Some? ==>
              var i := DecimalSepAt(s).value; IsSep(s[i]) && AllDigits(s[i + 1..])
  {
    if |s| >= 3 {
      TailTwoDigits(s);
      assert s[|s| - 3 + 1..] == s[|s| - 2..];
    }
    if |s| >= 2 {
      TailOneDigit(s);
      assert s[|s| - 2 + 1..] == s[|s| - 1..];
    }
  }

  /** `Decimal(f"{integer}.{decimals}")` in hundredths; an empty integer part reads as 0. */
  function Hundredths(integer: string, decimals: string): nat
    requires AllDigits(integer) && AllDigits(decimals) && 1 <= |decimals| <= 2
  {
    DigitsToNat(integer) * 100
    + (if |decimals| == 1 then DigitValue(decimals[0]) * 10
       else DigitValue(decimals[0]) * 10 + DigitValue(decimals[1]))
  }

  /**
   * The parsers' normalisation of a number string: with a decimal
   * separator the other separator is dropped from the integer part,
   * without one both are dropped; `None` where `Decimal` would raise.
   */
  function ParseNumber(s: string): (r: Option<nat>)
  {
    match DecimalSepAt(s)
    case Some(i) =>
      var other := if s[i] == '.' then ',' else '.';
      var integer := RemoveChar(s[..i], other);
      if AllDigits(integer) && AllDigits(s[i + 1..]) then Some(Hundredths(integer, s[i + 1..])) else None
    case None =>
      var digits := RemoveChar(RemoveChar(s, '.'), ',');
      if |digits| > 0 && AllDigits(digits) then Some(DigitsToNat(digits) * 100) else None
  }

  /** A German amount parses back to its value. */
  lemma ParseAmount(v: nat)
    ensures ParseNumber(AmountDe(v)) == Some(v)
  {
    AmountShape(v);
    var n := NatToString(v / 100);
    var g := GroupThousands(n);
    var t := TwoDigits(v % 100);
    var s := g + "," + t;
    assert DecimalSepAt(s) == Some(|g|);
    assert s[..|g|] == g && s[|g| + 1..] == t;
    NatToStringRoundTrip(v / 100);
    assert Hundredths(n, t) == v / 100 * 100 + v % 100;
  }

  /** A plain integer without separators parses to whole units. */
  lemma ParseWhole(n: nat)
    ensures ParseNumber(NatToString(n)) == Some(n * 100)
  {
    var s := NatToString(n);
    assert '.' !in s && ',' !in s by {
      forall k | 0 <= k < |s| ensures s[k] != '.' && s[k] != ',' {
        assert IsDigit(s[k]);
      }
    }
    assert RemoveChar(s, '.') == s;
    assert RemoveChar(s, ',') == s;
    assert !IsSep(s[|s| - 1]);
    assert |s| >= 2 ==> !IsSep(s[|s| - 2]);
    assert |s| >= 3 ==> !IsSep(s[|s| - 3]);
    assert DecimalSepAt(s).None?;
    NatToStringRoundTrip(n);
  }
}
