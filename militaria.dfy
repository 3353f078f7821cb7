/**
 * The militaria321.com provider: the page offsets, the title match by
 * whole word with the clock exclusion for "uhr", the euro price read from
 * a listing's text, the total count read from the result page, the page
 * loop with its stopping rules, and the selection of listings for detail
 * enrichment.  The site's result list is given as its pages of 25 in
 * order, each either parsed (its listings and its text) or a failed
 * request; a request past the last page gets an empty page.
 */
module Militaria {
  import opened Wrappers
  import opened Chars
  import opened Money
  import opened Models
  import opened Matching

  const PAGE_SIZE: nat := 25

  /** `startat` of page `k`: the page begins after `k - 1` full pages. */
  function StartAt(k: nat): (r: int)
    ensures k >= 1 ==> r >= 1 && (r - 1) % PAGE_SIZE == 0 && (r - 1) / PAGE_SIZE == k - 1
  {
    (k - 1) * PAGE_SIZE + 1
  }

  /** Consecutive pages lie exactly one page size apart. */
  lemma StartAtStep(k: nat)
    requires k >= 1
    ensures StartAt(k + 1) - StartAt(k) == PAGE_SIZE && StartAt(1) == 1
  {
  }

  // ---------------------------------------------------------------------
  // Title matching
  // ---------------------------------------------------------------------

  /**
   * `_matches_keyword`: the lower-cased keyword occurs as a whole word of
   * the lower-cased title, except that "uhr" after a clock time with at
   * least one space does not count.
   */
  predicate TitleMatches(title: string, keyword: string)
  {
    var t := Lower(title);
    var k := Lower(keyword);
    HasWholeWord(t, k) && !(k == "uhr" && HasClockUhr(t, 1))
  }

  /** The title filter of one page: the matching listings in page order. */
  function Matched(items: seq<Listing>, keyword: string): (r: seq<Listing>)
    ensures |r| <= |items|
  {
    if |items| == 0 then []
    else
      var rest := Matched(items[1..], keyword);
      if TitleMatches(items[0].title, keyword) then [items[0]] + rest else rest
  }

  /** The filter keeps exactly the listings whose titles match. */
  lemma {:induction false} MatchedMembers(items: seq<Listing>, keyword: string)
    ensures forall l :: l in Matched(items, keyword) <==> l in items && TitleMatches(l.title, keyword)
  {
    if |items| > 0 {
      MatchedMembers(items[1..], keyword);
      assert forall l :: l in items <==> l == items[0] || l in items[1..];
    }
  }

  /** Filtering two pages in a row filters each page on its own, in order. */
  lemma {:induction false} MatchedAppend(a: seq<Listing>, b: seq<Listing>, keyword: string)
    ensures Matched(a + b, keyword) == Matched(a, keyword) + Matched(b, keyword)
  {
    if |a| == 0 {
      assert a + b == b;
    } else {
      assert (a + b)[0] == a[0] && (a + b)[1..] == a[1..] + b;
      MatchedAppend(a[1..], b, keyword);
    }
  }

  /** Lower-casing "Uhr". */
  lemma LowerUhr()
    ensures Lower("Uhr") == "uhr" && Lower("uhr") == "uhr"
  {
    LowerNoUpper("uhr");
    LowerNoUpper("hr");
    assert "Uhr"[1..] == "hr";
  }

  /** Lower-casing `a + " Uhr"` keeps every position of `a` apart from the case of its letters. */
  lemma LowerWithUhr(a: string, tail: string)
    requires forall k :: 0 <= k < |tail| ==> !IsUpper(tail[k])
    ensures Lower(a + tail + "Uhr") == Lower(a) + tail + "uhr"
    ensures forall k :: 0 <= k < |a| ==> Lower(a)[k] == LowerChar(a[k])
  {
    LowerUhr();
    LowerNoUpper(tail);
    LowerAppend(a + tail, "Uhr");
    LowerAppend(a, tail);
    forall k | 0 <= k < |a| ensures Lower(a)[k] == LowerChar(a[k]) {
      LowerAt(a, k);
    }
  }

  /** Lower-casing brings in no colon. */
  lemma LowerKeepsColons(a: string)
    requires ':' !in a
    ensures ':' !in Lower(a)
  {
    forall p | 0 <= p < |a| ensures Lower(a)[p] != ':' {
      LowerAt(a, p);
      assert a[p] in a;
    }
  }

  /** "uhr" after a space at the end of a text is a whole word there. */
  lemma SpacedUhrWord(b: string)
    ensures HasWholeWord(b + " " + "uhr", "uhr")
  {
    var t := b + " " + "uhr";
    var n := |b| + 1;
    assert t[n..n + 3] == "uhr" && t[n - 1] == ' ' && t[n] == 'u' && t[n + 2] == 'r' && n + 3 == |t|;
    assert WholeWordAt(t, "uhr", n);
  }

  /** "uhr" after other text and a space is a whole word, and without a colon there is no clock time to exclude it. */
  lemma ClocklessUhrMatches(a: string)
    requires ':' !in a
    ensures TitleMatches(a + " " + "Uhr", "uhr")
  {
    LowerWithUhr(a, " ");
    LowerUhr();
    var t := Lower(a) + " " + "uhr";
    SpacedUhrWord(Lower(a));
    LowerKeepsColons(a);
    assert ':' !in t;
    NoColonNoClock(t, 1);
  }

  /** The pieces of `b + (h + ":" + m + " ") + "uhr"` by position. */
  lemma SeamSlices(b: string, h: string, m: string)
    requires 1 <= |h| && |m| == 2
    ensures var t := b + (h + ":" + m + " ") + "uhr";
            var i := |b|;
            var colon := i + |h|;
            && colon + 7 == |t| && t[i..colon] == h && t[colon] == ':' && t[colon + 1..colon + 3] == m
            && t[colon + 3..colon + 4] == " " && t[colon + 4..colon + 7] == "uhr"
            && t[i] == h[0] && t[|t| - 1] == 'r' && (i > 0 ==> t[i - 1] == b[i - 1])
  {
    var t := b + (h + ":" + m + " ") + "uhr";
    assert t[|b|..] == h + ":" + m + " " + "uhr";
  }

  /** Lower-case text, a clock time, a space and "uhr" hold the clock pattern right after the text. */
  lemma ClockAtSeam(b: string, h: string, m: string)
    requires 1 <= |h| <= 2 && AllDigits(h) && |m| == 2 && AllDigits(m)
    requires b == [] || !IsWordChar(b[|b| - 1])
    ensures ClockUhrAt(b + (h + ":" + m + " ") + "uhr", |b|, |h|, 1, 1)
  {
    SeamSlices(b, h, m);
  }

  /** "uhr" right after a clock time "H:MM" or "HH:MM" and a space never matches "uhr". */
  lemma ClockTimeUhrRejected(a: string, h: string, m: string)
    requires 1 <= |h| <= 2 && AllDigits(h) && |m| == 2 && AllDigits(m)
    requires a == [] || !IsWordChar(a[|a| - 1])
    ensures !TitleMatches(a + (h + ":" + m + " ") + "Uhr", "uhr")
  {
    var tail := h + ":" + m + " ";
    assert forall k :: 0 <= k < |tail| ==> !IsUpper(tail[k]) by {
      forall k | 0 <= k < |tail| ensures !IsUpper(tail[k]) {
        if k < |h| { assert tail[k] == h[k]; }
        else if |h| < k < |h| + 3 { assert tail[k] == m[k - |h| - 1]; }
      }
    }
    LowerWithUhr(a, tail);
    LowerUhr();
    var b := Lower(a);
    assert b == [] || !IsWordChar(b[|b| - 1]) by {
      if |a| > 0 { assert b[|b| - 1] == LowerChar(a[|a| - 1]); }
    }
    ClockAtSeam(b, h, m);
  }

  /** The provider's first check: "Endet um 07:39 Uhr" is a clock time, not a clock. */
  lemma ClockExample(title: string)
    requires title == "Endet um 07:39 Uhr"
    ensures !TitleMatches(title, "uhr")
  {
    ClockTimeUhrRejected("Endet um ", "07", "39");
    assert "Endet um " + ("07" + ":" + "39" + " ") + "Uhr" == title;
  }

  /** The provider's second check: "Turm mit Uhr" names a clock. */
  lemma TowerExample(title: string)
    requires title == "Turm mit Uhr"
    ensures TitleMatches(title, "uhr")
  {
    ClocklessUhrMatches("Turm mit");
    assert "Turm mit" + " " + "Uhr" == title;
  }

  // ---------------------------------------------------------------------
  // The euro price
  // ---------------------------------------------------------------------

  /** A `\.[0-9]{3}` group starts at `j`. */
  predicate IsGroupAt(s: string, j: nat)
  {
    j + 4 <= |s| && s[j] == '.' && IsDigit(s[j + 1]) && IsDigit(s[j + 2]) && IsDigit(s[j + 3])
  }

  /** End of the `(?:\.[0-9]{3})*` groups from `j`. */
  function GroupsEnd(s: string, j: nat): (e: nat)
    requires j <= |s|
    decreases |s| - j
    ensures j <= e <= |s| && !IsGroupAt(s, e)
    ensures forall k :: j <= k < e ==> IsDigit(s[k]) || s[k] == '.'
  {
    if IsGroupAt(s, j) then GroupsEnd(s, j + 4) else j
  }

  /** End of the whitespace run from `j`. */
  function SpaceEnd(s: string, j: nat): (e: nat)
    requires j <= |s|
    decreases |s| - j
    ensures j <= e <= |s| && (e < |s| ==> !IsSpace(s[e]))
  {
    if j < |s| && IsSpace(s[j]) then SpaceEnd(s, j + 1) else j
  }

  /** `\s*€` matches at `j`. */
  predicate EuroAt(s: string, j: nat)
    requires j <= |s|
  {
    var e := SpaceEnd(s, j);
    e < |s| && s[e] == '\U{20AC}'
  }

  /** `,[0-9]{2}` matches at `j`. */
  predicate CentsAt(s: string, j: nat)
  {
    j + 3 <= |s| && s[j] == ',' && IsDigit(s[j + 1]) && IsDigit(s[j + 2])
  }

  /** A matched price: the whole units with their group dots, and the cent digits or nothing. */
  datatype PriceMatch = PriceMatch(whole: string, cents: string)

  predicate WellFormed(m: PriceMatch)
  {
    (forall k :: 0 <= k < |m.whole| ==> IsDigit(m.whole[k]) || m.whole[k] == '.')
    && (m.cents == "" || (|m.cents| == 2 && AllDigits(m.cents)))
  }

  /**
   * The price pattern tried at `i`.  The leading digits are the whole run
   * there (a shorter run leaves a digit that nothing after it accepts),
   * at most `maxLead` of them when that is given; the groups are taken
   * greedily; the cents are tried last, as the lazy `??` says, though a
   * cents comma and `\s*€` can never both match at one place.
   */
  function PriceAt(s: string, i: nat, maxLead: Option<nat>): (r: Option<PriceMatch>)
    requires i <= |s|
    ensures r.Some? ==> WellFormed(r.value) && |r.value.whole| > 0 && IsDigit(r.value.whole[0])
  {
    var d := DigitRunEnd(s, i);
    if d == i || (maxLead.Some? && d - i > maxLead.value) then None
    else
      var g := GroupsEnd(s, d);
      assert forall k :: 0 <= k < g - i ==> s[i..g][k] == s[i + k];
      if EuroAt(s, g) then Some(PriceMatch(s[i..g], ""))
      else if CentsAt(s, g) && EuroAt(s, g + 3) then
        assert s[g + 1..g + 3] == [s[g + 1], s[g + 2]];
        Some(PriceMatch(s[i..g], s[g + 1..g + 3]))
      else None
  }

  /** The leftmost match from `i`, where `guarded` adds the lookbehind `(?<![0-9.,])`. */
  function FirstPriceFrom(s: string, i: nat, maxLead: Option<nat>, guarded: bool): (r: Option<PriceMatch>)
    requires i <= |s|
    decreases |s| - i
    ensures r.Some? ==> WellFormed(r.value)
  {
    if (!guarded || i == 0 || !IsNumberChar(s[i - 1])) && PriceAt(s, i, maxLead).Some? then PriceAt(s, i, maxLead)
    else if i == |s| then None
    else FirstPriceFrom(s, i + 1, maxLead, guarded)
  }

  lemma DigitsWithoutDots(w: string)
    requires forall k :: 0 <= k < |w| ==> IsDigit(w[k]) || w[k] == '.'
    ensures AllDigits(RemoveChar(w, '.'))
  {
    RemoveCharSpec(w, '.');
    var r := RemoveChar(w, '.');
    forall k | 0 <= k < |r| ensures IsDigit(r[k]) {
      assert r[k] in r;
    }
  }

  /** `Decimal(price_str.replace('.', '').replace(',', '.'))` in hundredths. */
  function MatchValue(m: PriceMatch): nat
    requires WellFormed(m)
  {
    DigitsWithoutDots(m.whole);
    var units := RemoveChar(m.whole, '.');
    if m.cents == "" then DigitsToNat(units) * 100 else Hundredths(units, m.cents)
  }

  /** `_parse_price_from_container` as written: the first `[0-9]{1,3}` match, EUR; `(None, None)` without one. */
  function ContainerPriceAsWritten(text: string): (r: (Option<nat>, Option<string>))
    ensures r.0.Some? <==> r.1 == Some("EUR")
  {
    match FirstPriceFrom(text, 0, Some(3), false)
    case None => (None, None)
    case Some(m) => (Some(MatchValue(m)), Some("EUR"))
  }

  /**
   * The price as the comment beside the pattern intends it: the whole
   * number in front of the euro sign, with or without thousands dots.
   */
  function ContainerPrice(text: string): (r: (Option<nat>, Option<string>))
    ensures r.0.Some? <==> r.1 == Some("EUR")
  {
    match FirstPriceFrom(text, 0, None, true)
    case None => (None, None)
    case Some(m) => (Some(MatchValue(m)), Some("EUR"))
  }

  /** After two cent digits, a space and the euro sign, `\s*€` holds after the cents and not before them. */
  lemma EuroAfterCents(s: string, g: nat)
    requires CentsAt(s, g) && g + 4 < |s| && s[g + 3] == ' ' && s[g + 4] == '\U{20AC}'
    ensures !EuroAt(s, g) && EuroAt(s, g + 3)
  {
    assert SpaceEnd(s, g) == g;
    assert SpaceEnd(s, g + 4) == g + 4;
  }

  /** The pattern at `i` takes the leading digits, the groups and the cents in front of " €". */
  lemma PriceAtCents(s: string, i: nat, maxLead: Option<nat>)
    requires i <= |s|
    requires DigitRunEnd(s, i) > i && (maxLead.None? || DigitRunEnd(s, i) - i <= maxLead.value)
    requires var g := GroupsEnd(s, DigitRunEnd(s, i));
             CentsAt(s, g) && g + 4 < |s| && s[g + 3] == ' ' && s[g + 4] == '\U{20AC}'
    ensures var g := GroupsEnd(s, DigitRunEnd(s, i));
            PriceAt(s, i, maxLead) == Some(PriceMatch(s[i..g], s[g + 1..g + 3]))
  {
    EuroAfterCents(s, GroupsEnd(s, DigitRunEnd(s, i)));
  }

  /** A run of digits from `i` to `e`, then cents and " €": the pattern at `i` takes all of it. */
  lemma DigitsCentsEuroAt(s: string, i: nat, e: nat)
    requires i < e && e + 4 < |s| && (forall k :: i <= k < e ==> IsDigit(s[k]))
    requires s[e] == ',' && IsDigit(s[e + 1]) && IsDigit(s[e + 2]) && s[e + 3] == ' ' && s[e + 4] == '\U{20AC}'
    ensures PriceAt(s, i, None) == Some(PriceMatch(s[i..e], s[e + 1..e + 3]))
    ensures e - i <= 3 ==> PriceAt(s, i, Some(3)) == Some(PriceMatch(s[i..e], s[e + 1..e + 3]))
  {
    DigitRunEndAt(s, i, e);
    assert GroupsEnd(s, e) == e;
    PriceAtCents(s, i, None);
    if e - i <= 3 {
      PriceAtCents(s, i, Some(3));
    }
  }

  /** Digits, a comma, two cent digits and " €" after any text: the pattern right after that text. */
  lemma DigitsCentsEuro(pre: string, w: string, c: string)
    requires IsDigitString(w) && |c| == 2 && AllDigits(c)
    ensures var s := pre + w + "," + c + " \U{20AC}";
            && PriceAt(s, |pre|, None) == Some(PriceMatch(w, c))
            && (|w| <= 3 ==> PriceAt(s, |pre|, Some(3)) == Some(PriceMatch(w, c)))
  {
    var s := pre + w + "," + c + " \U{20AC}";
    var e := |pre| + |w|;
    assert forall k :: |pre| <= k < e ==> s[k] == w[k - |pre|];
    assert s[e] == ',' && s[e + 1] == c[0] && s[e + 2] == c[1] && s[e + 3] == ' ' && s[e + 4] == '\U{20AC}';
    DigitsCentsEuroAt(s, |pre|, e);
    assert s[|pre|..e] == w && s[e + 1..e + 3] == c;
  }

  lemma DigitsValues()
    ensures DigitsToNat("234") == 234 && DigitsToNat("1234") == 1234
  {
    assert "1234"[..3] == "123" && "123"[..2] == "12" && "12"[..1] == "1" && "1"[..0] == "";
    assert "234"[..2] == "23" && "23"[..1] == "2" && "2"[..0] == "";
  }

  /** As written, a run of four or more ungrouped digits is read from its last three digits only. */
  lemma UngroupedPriceMisread(s: string)
    requires s == "1234,56 \U{20AC}"
    ensures ContainerPriceAsWritten(s) == (Some(23456), Some("EUR"))
  {
    DigitsCentsEuro("1", "234", "56");
    assert "1" + "234" + "," + "56" + " \U{20AC}" == s;
    DigitRunEndAt(s, 0, 4);
    assert PriceAt(s, 0, Some(3)).None?;
    assert FirstPriceFrom(s, 0, Some(3), false) == FirstPriceFrom(s, 1, Some(3), false);
    assert RemoveChar("234", '.') == "234";
    DigitsValues();
  }

  /** The intended parser reads the same text whole. */
  lemma UngroupedPriceRead(s: string)
    requires s == "1234,56 \U{20AC}"
    ensures ContainerPrice(s) == (Some(123456), Some("EUR"))
  {
    DigitsCentsEuro("", "1234", "56");
    assert "" + "1234" + "," + "56" + " \U{20AC}" == s;
    assert RemoveChar("1234", '.') == "1234";
    DigitsValues();
  }

  /** The number of leading digits of a grouped integer of `n` digits. */
  function LeadLen(n: nat): (r: nat)
    ensures n >= 1 ==> 1 <= r <= 3
  {
    if n <= 3 then n else LeadLen(n - 3)
  }

  /** A grouped integer starts with its first group of digits, and nothing else is a digit run from there. */
  lemma {:induction false} GroupedLead(d: string, rest: string)
    requires IsDigitString(d) && (rest == [] || !IsDigit(rest[0]))
    decreases |d|
    ensures LeadLen(|d|) <= |GroupThousands(d) + rest|
    ensures DigitRunEnd(GroupThousands(d) + rest, 0) == LeadLen(|d|)
  {
    var s := GroupThousands(d) + rest;
    if |d| <= 3 {
      assert s == d + rest;
      DigitRunEndAt(s, 0, |d|);
    } else {
      var h, t := d[..|d| - 3], d[|d| - 3..];
      assert s == GroupThousands(h) + ("." + t + rest);
      GroupedLead(h, "." + t + rest);
    }
  }

  /** From the end of its first group, the groups of a grouped integer run to its end. */
  lemma {:induction false} GroupedGroups(d: string, rest: string)
    requires IsDigitString(d)
    decreases |d|
    ensures LeadLen(|d|) <= |GroupThousands(d)|
    ensures GroupsEnd(GroupThousands(d) + rest, LeadLen(|d|)) == GroupsEnd(GroupThousands(d) + rest, |GroupThousands(d)|)
  {
    if |d| > 3 {
      var h, t := d[..|d| - 3], d[|d| - 3..];
      var g := GroupThousands(h);
      var s := GroupThousands(d) + rest;
      assert s == g + ("." + t + rest);
      GroupedGroups(h, "." + t + rest);
      assert IsGroupAt(s, |g|) by {
        assert s[|g|] == '.' && s[|g| + 1] == t[0] && s[|g| + 2] == t[1] && s[|g| + 3] == t[2];
      }
      assert GroupsEnd(s, |g|) == GroupsEnd(s, |g| + 4);
    }
  }

  /** The pieces of `g + ("," + c + " €")` by position. */
  lemma CentsEuroSlices(g: string, c: string)
    requires |c| == 2
    ensures var s := g + ("," + c + " \U{20AC}");
            && |s| == |g| + 5 && s[0..|g|] == g && s[|g|] == ','
            && s[|g| + 1..|g| + 3] == c && s[|g| + 1] == c[0] && s[|g| + 2] == c[1]
            && s[|g| + 3] == ' ' && s[|g| + 4] == '\U{20AC}'
  {
    var s := g + ("," + c + " \U{20AC}");
    assert s[|g|..] == "," + c + " \U{20AC}";
  }

  /** Leading digits, groups ending at `|g|`, the cents and " €": the leftmost match is `g` with its cents. */
  lemma GroupedMatchAt(s: string, g: string, c: string, maxLead: Option<nat>, guarded: bool)
    requires DigitRunEnd(s, 0) > 0 && (maxLead.None? || DigitRunEnd(s, 0) <= maxLead.value)
    requires |g| <= |s| && GroupsEnd(s, DigitRunEnd(s, 0)) == |g|
    requires |g| + 4 < |s| && s[0..|g|] == g && s[|g| + 1..|g| + 3] == c
    requires CentsAt(s, |g|) && s[|g| + 3] == ' ' && s[|g| + 4] == '\U{20AC}'
    ensures FirstPriceFrom(s, 0, maxLead, guarded) == Some(PriceMatch(g, c))
  {
    PriceAtCents(s, 0, maxLead);
  }

  /** A grouped integer, a comma, two cent digits and " €" match from the front, under either parser. */
  lemma GroupedMatch(n: string, c: string, maxLead: Option<nat>, guarded: bool)
    requires IsDigitString(n) && |c| == 2 && AllDigits(c)
    requires maxLead.None? || maxLead.value >= 3
    ensures FirstPriceFrom(GroupThousands(n) + ("," + c + " \U{20AC}"), 0, maxLead, guarded)
            == Some(PriceMatch(GroupThousands(n), c))
  {
    var g := GroupThousands(n);
    var s := g + ("," + c + " \U{20AC}");
    GroupedLead(n, "," + c + " \U{20AC}");
    GroupedGroups(n, "," + c + " \U{20AC}");
    CentsEuroSlices(g, c);
    assert GroupsEnd(s, |g|) == |g|;
    GroupedMatchAt(s, g, c, maxLead, guarded);
  }

  /** The value of a grouped match is that of its digits without the dots. */
  lemma GroupedMatchValue(n: string, c: string)
    requires IsDigitString(n) && |c| == 2 && AllDigits(c) && WellFormed(PriceMatch(GroupThousands(n), c))
    ensures MatchValue(PriceMatch(GroupThousands(n), c)) == Hundredths(n, c)
  {
    GroupRemoveDots(n);
  }

  /** The cents of an amount and its whole units make up its value again. */
  lemma AmountHundredths(v: nat)
    ensures Hundredths(NatToString(v / 100), TwoDigits(v % 100)) == v
  {
    NatToStringRoundTrip(v / 100);
  }

  /** A German amount followed by " €" is the grouped integer, the comma, the cents and " €". */
  lemma AmountEuroText(v: nat)
    ensures AmountDe(v) + " \U{20AC}" == GroupThousands(NatToString(v / 100)) + ("," + TwoDigits(v % 100) + " \U{20AC}")
  {
  }

  /** German prices with thousands dots are read back exactly, by the code as written and as intended. */
  lemma GroupedPriceRoundTrip(v: nat)
    ensures ContainerPriceAsWritten(AmountDe(v) + " \U{20AC}") == (Some(v), Some("EUR"))
    ensures ContainerPrice(AmountDe(v) + " \U{20AC}") == (Some(v), Some("EUR"))
  {
    var n := NatToString(v / 100);
    var c := TwoDigits(v % 100);
    AmountEuroText(v);
    GroupedMatch(n, c, Some(3), false);
    GroupedMatch(n, c, None, true);
    GroupedMatchValue(n, c);
    AmountHundredths(v);
  }

  /** Digits hold no dot to delete. */
  lemma DigitsKeepNoDots(n: string)
    requires AllDigits(n)
    ensures RemoveChar(n, '.') == n
  {
    assert '.' !in n by {
      forall k | 0 <= k < |n| ensures n[k] != '.' { assert IsDigit(n[k]); }
    }
  }

  /** Plain digits, a comma, two cent digits and " €" match from the front under the intended parser. */
  lemma PlainMatch(n: string, c: string)
    requires IsDigitString(n) && |c| == 2 && AllDigits(c)
    ensures FirstPriceFrom(n + ("," + c + " \U{20AC}"), 0, None, true) == Some(PriceMatch(n, c))
  {
    var s := n + ("," + c + " \U{20AC}");
    var e := |n|;
    assert s[e] == ',' && s[e + 1] == c[0] && s[e + 2] == c[1] && s[e + 3] == ' ' && s[e + 4] == '\U{20AC}';
    DigitsCentsEuroAt(s, 0, e);
    assert s[0..e] == n && s[e + 1..e + 3] == c;
  }

  /** Prices without thousands dots are read back exactly by the intended parser. */
  lemma PlainPriceRoundTrip(v: nat)
    ensures ContainerPrice(NatToString(v / 100) + ("," + TwoDigits(v % 100) + " \U{20AC}")) == (Some(v), Some("EUR"))
  {
    var n := NatToString(v / 100);
    var c := TwoDigits(v % 100);
    PlainMatch(n, c);
    DigitsKeepNoDots(n);
    AmountHundredths(v);
  }

  // ---------------------------------------------------------------------
  // The total count
  // ---------------------------------------------------------------------

  /** The text at `e` spells `w` in any case. */
  predicate WordAtCaseless(s: string, e: nat, w: string)
  {
    e + |w| <= |s| && Lower(s[e..e + |w|]) == w
  }

  /** `([0-9]+)\s+(?:Treffer|Ergebnis)` matches at `i`, case-insensitively; its number. */
  function CountAt(s: string, i: nat): (r: Option<nat>)
    requires i <= |s|
  {
    var d := DigitRunEnd(s, i);
    var e := SpaceEnd(s, d);
    if d > i && e > d && (WordAtCaseless(s, e, "treffer") || WordAtCaseless(s, e, "ergebnis"))
    then Some(DigitsToNat(s[i..d]))
    else None
  }

  /** The leftmost count from `i`. */
  function CountFrom(s: string, i: nat): (r: Option<nat>)
    requires i <= |s|
    decreases |s| - i
    ensures r.Some? ==> exists j :: i <= j <= |s| && CountAt(s, j) == r
    ensures r.None? ==> forall j :: i <= j <= |s| ==> CountAt(s, j).None?
  {
    if CountAt(s, i).Some? then CountAt(s, i)
    else if i == |s| then None
    else CountFrom(s, i + 1)
  }

  /** `_extract_total_count`: the count shown on the page, else the number of items on it. */
  function TotalCount(text: string, itemsOnPage: nat): (r: nat)
    ensures CountFrom(text, 0).None? ==> r == itemsOnPage
    ensures CountFrom(text, 0).Some? ==> exists j :: 0 <= j <= |text| && CountAt(text, j) == Some(r)
  {
    match CountFrom(text, 0)
    case Some(n) => n
    case None => itemsOnPage
  }

  lemma LowerTreffer()
    ensures Lower("Treffer") == "treffer"
  {
    LowerNoUpper("reffer");
    assert "Treffer"[1..] == "reffer";
  }

  /** "57 Treffer" shows a count of 57. */
  lemma CountExample(s: string)
    requires s == "57 Treffer"
    ensures TotalCount(s, 3) == 57
  {
    DigitRunEndAt(s, 0, 2);
    assert SpaceEnd(s, 2) == 3 by { assert SpaceEnd(s, 3) == 3; }
    assert s[3..10] == "Treffer" && s[0..2] == "57";
    LowerTreffer();
    assert DigitsToNat("57") == 57 by { assert "57"[..1] == "5" && "5"[..0] == ""; }
  }

  // ---------------------------------------------------------------------
  // The page loop
  // ---------------------------------------------------------------------

  /** A parsed result page: its listings and its text. */
  datatype ResultPage = ResultPage(items: seq<Listing>, text: string)

  /** Page `k` of the given result list; past its end the site answers with an empty page. */
  function Request(pages: seq<Option<ResultPage>>, k: nat): Option<ResultPage>
  {
    if 1 <= k <= |pages| then pages[k - 1] else Some(ResultPage([], ""))
  }

  /** Every matched listing on a page is older than the poll's `since`. */
  predicate AllOld(matched: seq<Listing>, since: int)
  {
    forall k :: 0 <= k < |matched| ==> matched[k].postedTs.Some? && matched[k].postedTs.value < since
  }

  datatype Crawl = Crawl(items: seq<Listing>, pagesScanned: nat, total: Option<nat>)

  const START: Crawl := Crawl([], 0, None)

  /** `total_count and len(all_items) >= total_count`. */
  predicate TotalReached(total: Option<nat>, found: nat)
  {
    total.Some? && total.value != 0 && found >= total.value
  }

  /**
   * The loop of `search` from page `k` on: a failed request ends it; a
   * parsed page is counted, and ends it when empty; its matching listings
   * are kept; a poll stops when all of them are older than `since`; the
   * first page fixes the total; then anything but a full crawl stops, and
   * a full crawl stops at the total or on a short page.
   */
  function Scan(pages: seq<Option<ResultPage>>, keyword: string, since: Option<int>, crawlAll: bool,
                k: nat, c: Crawl): Crawl
    decreases |pages| + 1 - k
  {
    match Request(pages, k)
    case None => c
    case Some(p) =>
      var scanned := c.pagesScanned + 1;
      if |p.items| == 0 then c.(pagesScanned := scanned)
      else
        var matched := Matched(p.items, keyword);
        var items := c.items + matched;
        if !crawlAll && since.Some? && AllOld(matched, since.value) then Crawl(items, scanned, c.total)
        else
          var total := if k == 1 then Some(TotalCount(p.text, |p.items|)) else c.total;
          var c' := Crawl(items, scanned, total);
          if !crawlAll || TotalReached(total, |items|) || |p.items| < PAGE_SIZE then c'
          else Scan(pages, keyword, since, crawlAll, k + 1, c')
  }

  /** `l` is among the listings of page `k` or a later one (`pages` counts from 0, pages from 1). */
  predicate OnLaterPage(pages: seq<Option<ResultPage>>, k: nat, l: Listing)
  {
    exists q :: 0 <= q < |pages| && k <= q + 1 && pages[q].Some? && l in pages[q].value.items
  }

  /** The step the loop takes on a page with listings, before deciding whether to go on. */
  function Step(p: ResultPage, keyword: string, k: nat, c: Crawl): Crawl
  {
    var items := c.items + Matched(p.items, keyword);
    Crawl(items, c.pagesScanned + 1, if k == 1 then Some(TotalCount(p.text, |p.items|)) else c.total)
  }

  /** The loop goes on to page `k + 1` after this page. */
  predicate GoesOn(pages: seq<Option<ResultPage>>, keyword: string, since: Option<int>, crawlAll: bool, k: nat, c: Crawl)
  {
    var f := Request(pages, k);
    f.Some? && |f.value.items| > 0
    && !(!crawlAll && since.Some? && AllOld(Matched(f.value.items, keyword), since.value))
    && crawlAll
    && !TotalReached(Step(f.value, keyword, k, c).total, |Step(f.value, keyword, k, c).items|)
    && |f.value.items| >= PAGE_SIZE
  }

  /** One unfolding of the loop: either it stops after page `k`, or it goes on from the step's state. */
  lemma ScanUnfold(pages: seq<Option<ResultPage>>, keyword: string, since: Option<int>, crawlAll: bool, k: nat, c: Crawl)
    ensures var r := Scan(pages, keyword, since, crawlAll, k, c);
            var f := Request(pages, k);
            && (f.None? ==> r == c)
            && (f.Some? && |f.value.items| == 0 ==> r == c.(pagesScanned := c.pagesScanned + 1))
            && (f.Some? && |f.value.items| > 0 && !GoesOn(pages, keyword, since, crawlAll, k, c) ==>
                  r.items == Step(f.value, keyword, k, c).items && r.pagesScanned == c.pagesScanned + 1)
            && (GoesOn(pages, keyword, since, crawlAll, k, c) ==>
                  k <= |pages| && r == Scan(pages, keyword, since, crawlAll, k + 1, Step(f.value, keyword, k, c)))
  {
  }

  /** `b` extends `a` with listings that match the keyword and come from page `k` or a later one. */
  predicate AppendsMatches(a: seq<Listing>, b: seq<Listing>, pages: seq<Option<ResultPage>>, keyword: string, k: nat)
  {
    && |a| <= |b| && b[..|a|] == a
    && forall j :: |a| <= j < |b| ==> TitleMatches(b[j].title, keyword) && OnLaterPage(pages, k, b[j])
  }

  /** Appending nothing appends only matches. */
  lemma AppendsNothing(a: seq<Listing>, pages: seq<Option<ResultPage>>, keyword: string, k: nat)
    ensures AppendsMatches(a, a, pages, keyword, k)
  {
  }

  /** Two rounds of appending, the second from page `k + 1` on, append only matches from page `k` on. */
  lemma AppendsTrans(a: seq<Listing>, b: seq<Listing>, r: seq<Listing>, pages: seq<Option<ResultPage>>, keyword: string, k: nat)
    requires AppendsMatches(a, b, pages, keyword, k) && AppendsMatches(b, r, pages, keyword, k + 1)
    ensures AppendsMatches(a, r, pages, keyword, k)
  {
    assert r[..|a|] == r[..|b|][..|a|];
    forall j | |a| <= j < |r| ensures TitleMatches(r[j].title, keyword) && OnLaterPage(pages, k, r[j]) {
      if j < |b| {
        assert r[j] == r[..|b|][j];
      } else {
        assert OnLaterPage(pages, k + 1, r[j]);
        var q :| 0 <= q < |pages| && k + 1 <= q + 1 && pages[q].Some? && r[j] in pages[q].value.items;
      }
    }
  }

  /** One page's step appends only that page's matching listings. */
  lemma StepKeepsMatches(pages: seq<Option<ResultPage>>, keyword: string, k: nat, c: Crawl)
    requires 1 <= k <= |pages| && pages[k - 1].Some?
    ensures AppendsMatches(c.items, Step(pages[k - 1].value, keyword, k, c).items, pages, keyword, k)
  {
    var p := pages[k - 1].value;
    var matched := Matched(p.items, keyword);
    MatchedMembers(p.items, keyword);
    var c' := Step(p, keyword, k, c);
    assert c'.items == c.items + matched;
    forall j | |c.items| <= j < |c'.items|
      ensures TitleMatches(c'.items[j].title, keyword) && OnLaterPage(pages, k, c'.items[j])
    {
      assert c'.items[j] == matched[j - |c.items|];
      assert c'.items[j] in matched;
    }
  }

  /** The loop only appends listings that match the keyword and come from the pages it requests. */
  lemma {:induction false} ScanKeepsMatches(pages: seq<Option<ResultPage>>, keyword: string, since: Option<int>,
                                            crawlAll: bool, k: nat, c: Crawl)
    requires k >= 1
    decreases |pages| + 1 - k
    ensures AppendsMatches(c.items, Scan(pages, keyword, since, crawlAll, k, c).items, pages, keyword, k)
  {
    ScanUnfold(pages, keyword, since, crawlAll, k, c);
    var f := Request(pages, k);
    if f.Some? && |f.value.items| > 0 {
      assert k <= |pages| && pages[k - 1] == f;
      StepKeepsMatches(pages, keyword, k, c);
      var c' := Step(f.value, keyword, k, c);
      if GoesOn(pages, keyword, since, crawlAll, k, c) {
        ScanKeepsMatches(pages, keyword, since, crawlAll, k + 1, c');
        AppendsTrans(c.items, c'.items, Scan(pages, keyword, since, crawlAll, k + 1, c').items, pages, keyword, k);
      }
    } else {
      AppendsNothing(c.items, pages, keyword, k);
    }
  }

  /**
   * Every request that yields a page counts it, the terminating empty
   * one included: at most one page past the end of the list is counted,
   * and a poll counts a single page.
   */
  lemma {:induction false} ScanCountsPages(pages: seq<Option<ResultPage>>, keyword: string, since: Option<int>,
                                           crawlAll: bool, k: nat, c: Crawl)
    requires 1 <= k <= |pages| + 1
    decreases |pages| + 1 - k
    ensures var r := Scan(pages, keyword, since, crawlAll, k, c);
            && c.pagesScanned <= r.pagesScanned <= c.pagesScanned + (|pages| + 2 - k)
            && (!crawlAll ==> r.pagesScanned <= c.pagesScanned + 1)
            && (Request(pages, k).Some? ==> r.pagesScanned >= c.pagesScanned + 1)
  {
    ScanUnfold(pages, keyword, since, crawlAll, k, c);
    var f := Request(pages, k);
    if GoesOn(pages, keyword, since, crawlAll, k, c) {
      ScanCountsPages(pages, keyword, since, crawlAll, k + 1, Step(f.value, keyword, k, c));
    }
  }

  /** With no result pages the single empty page is still counted. */
  lemma EmptyResultCounted(keyword: string, since: Option<int>, crawlAll: bool)
    ensures var r := Scan([], keyword, since, crawlAll, 1, START); r.items == [] && r.pagesScanned == 1
  {
  }

  /** A failed first request scans nothing. */
  lemma FailedRequestScansNothing(pages: seq<Option<ResultPage>>, keyword: string, since: Option<int>, crawlAll: bool)
    requires |pages| > 0 && pages[0].None?
    ensures Scan(pages, keyword, since, crawlAll, 1, START) == START
  {
  }

  /** What `search` returns: `total_count or len(all_items)`, and never more pages. */
  datatype SearchOutcome = SearchOutcome(items: seq<Listing>, totalCount: nat, hasMore: bool, pagesScanned: nat)

  function OutcomeOf(c: Crawl): (r: SearchOutcome)
    ensures !r.hasMore && r.items == c.items && r.pagesScanned == c.pagesScanned
    ensures r.totalCount == |c.items| <==> c.total.None? || c.total.value == 0 || c.total.value == |c.items|
  {
    SearchOutcome(c.items, if c.total.Some? && c.total.value != 0 then c.total.value else |c.items|, false, c.pagesScanned)
  }

  /** The title filter of one page. */
  method FilterPage(items: seq<Listing>, keyword: string) returns (matched: seq<Listing>)
    ensures matched == Matched(items, keyword)
  {
    matched := [];
    var i := |items|;
    while i > 0
      invariant 0 <= i <= |items|
      invariant matched == Matched(items[i..], keyword)
    {
      i := i - 1;
      assert items[i..][1..] == items[i + 1..];
      if TitleMatches(items[i].title, keyword) {
        matched := [items[i]] + matched;
      }
    }
    assert items[0..] == items;
  }

  /** `search`: the loop over the pages at offsets 1, 26, 51, and so on. */
  method Search(pages: seq<Option<ResultPage>>, keyword: string, since: Option<int>, crawlAll: bool)
    returns (r: SearchOutcome)
    ensures r == OutcomeOf(Scan(pages, keyword, since, crawlAll, 1, START))
  {
    var c := START;
    ghost var final := Scan(pages, keyword, since, crawlAll, 1, c);
    var k := 1;
    while true
      invariant k >= 1 && Scan(pages, keyword, since, crawlAll, k, c) == final
      decreases |pages| + 1 - k
    {
      var f := Request(pages, k);
      if f.None? {
        return OutcomeOf(c);
      }
      var p := f.value;
      c := c.(pagesScanned := c.pagesScanned + 1);
      if |p.items| == 0 {
        return OutcomeOf(c);
      }
      var matched := FilterPage(p.items, keyword);
      c := c.(items := c.items + matched);
      if !crawlAll && since.Some? && AllOld(matched, since.value) {
        return OutcomeOf(c);
      }
      if k == 1 {
        c := c.(total := Some(TotalCount(p.text, |p.items|)));
      }
      if !crawlAll || TotalReached(c.total, |c.items|) || |p.items| < PAGE_SIZE {
        return OutcomeOf(c);
      }
      k := k + 1;
    }
  }

  // ---------------------------------------------------------------------
  // Detail enrichment
  // ---------------------------------------------------------------------

  /**
   * `fetch_posted_ts_batch`: every listing without a start time takes
   * what its detail page yields (possibly nothing); a failed fetch is a
   * `None` from `detail` too.
   */
  function Enrich(items: seq<Listing>, detail: Listing -> Option<int>): (r: seq<Listing>)
    ensures |r| == |items|
  {
    if |items| == 0 then []
    else
      var l := items[0];
      [if l.postedTs.None? then l.(postedTs := detail(l)) else l] + Enrich(items[1..], detail)
  }

  /** Only listings without a start time are touched, and only their start time. */
  lemma {:induction false} EnrichOnlyMissing(items: seq<Listing>, detail: Listing -> Option<int>, k: nat)
    requires k < |items|
    ensures var r := Enrich(items, detail)[k];
            && r == items[k].(postedTs := r.postedTs)
            && (items[k].postedTs.Some? ==> r == items[k])
            && (items[k].postedTs.None? ==> r.postedTs == detail(items[k]))
  {
    if k > 0 {
      EnrichOnlyMissing(items[1..], detail, k - 1);
    }
  }
}
