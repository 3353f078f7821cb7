/**
 * The egun.de provider: the price parser with its currency guess and
 * decimal-separator rule, title matching by whole tokens with the clock
 * exclusion for "uhr", next-page detection over a page's links, the page
 * loop with its budget and cross-page de-duplication, the selection of
 * listings for detail enrichment, and the start time computed from an
 * auction's running time.  A fetched page is given as its parsed listings,
 * total count and next-page flag, or as a failed request.
 */
module Egun {
  import opened Wrappers
  import opened Chars
  import opened Money
  import opened Models
  import opened Dedupe
  import opened Matching

  // ---------------------------------------------------------------------
  // Prices
  // ---------------------------------------------------------------------

  /** `$`/`usd` gives USD, else `£`/`gbp` gives GBP, else EUR; the words in any case. */
  function CurrencyOf(text: string): string
  {
    if Contains(text, "$") || Contains(Lower(text), "usd") then "USD"
    else if Contains(text, "\U{A3}") || Contains(Lower(text), "gbp") then "GBP"
    else "EUR"
  }

  /** `re.sub(r"[^\d.,]", "", s)`: the digits and separators of `s`, in order. */
  function NumberChars(s: string): (r: string)
    ensures AllNumberChars(r) && |r| <= |s|
  {
    if |s| == 0 then []
    else if IsNumberChar(s[0]) then [s[0]] + NumberChars(s[1..])
    else NumberChars(s[1..])
  }

  lemma {:induction false} NumberCharsAppend(a: string, b: string)
    ensures NumberChars(a + b) == NumberChars(a) + NumberChars(b)
  {
    if |a| > 0 {
      assert (a + b)[0] == a[0] && (a + b)[1..] == a[1..] + b;
      NumberCharsAppend(a[1..], b);
    } else {
      assert a + b == b;
    }
  }

  lemma {:induction false} NumberCharsNone(s: string)
    requires forall k :: 0 <= k < |s| ==> !IsNumberChar(s[k])
    ensures NumberChars(s) == ""
  {
    if |s| > 0 {
      NumberCharsNone(s[1..]);
    }
  }

  lemma {:induction false} NumberCharsOfNumber(s: string)
    requires AllNumberChars(s)
    ensures NumberChars(s) == s
  {
    if |s| > 0 {
      NumberCharsOfNumber(s[1..]);
    }
  }

  /**
   * `_parse_price`: the currency from the stripped text, and the value of
   * its digits and separators under the decimal-separator rule; no value
   * when nothing numeric remains or the number is malformed.
   */
  function ParsePrice(raw: string): (r: (Option<nat>, string))
    ensures r.1 == "EUR" || r.1 == "USD" || r.1 == "GBP"
    ensures NumberChars(Strip(raw)) == "" ==> r.0.None?
  {
    var text := Strip(raw);
    var currency := CurrencyOf(text);
    var cleaned := NumberChars(text);
    if cleaned == "" then (None, currency) else (ParseNumber(cleaned), currency)
  }

  /** Text that begins and ends with non-space characters strips to itself. */
  lemma StripSolid(t: string)
    requires |t| > 0 && !IsSpace(t[0]) && !IsSpace(t[|t| - 1])
    ensures Strip(t) == t
  {
  }

  /** No currency marker in a German euro amount. */
  lemma EuroAmountCurrency(a: string)
    requires AllNumberChars(a)
    ensures CurrencyOf(a + " \U{20AC}") == "EUR"
  {
    var t := a + " \U{20AC}";
    assert forall k :: 0 <= k < |t| ==> IsNumberChar(t[k]) || t[k] == ' ' || t[k] == '\U{20AC}' by {
      forall k | 0 <= k < |t| ensures IsNumberChar(t[k]) || t[k] == ' ' || t[k] == '\U{20AC}' {
        if k < |a| { assert t[k] == a[k]; }
      }
    }
    LowerNoUpper(t);
    NotContained(t, "$");
    NotContained(t, "usd");
    NotContained(t, "\U{A3}");
    NotContained(t, "gbp");
  }

  /** A German euro price as the formatters print it parses back to its value, in EUR. */
  lemma ParsePriceRoundTrip(v: nat)
    ensures ParsePrice(AmountDe(v) + " \U{20AC}") == (Some(v), "EUR")
  {
    var a := AmountDe(v);
    AmountShape(v);
    var t := a + " \U{20AC}";
    StripSolid(t);
    EuroAmountCurrency(a);
    NumberCharsAppend(a, " \U{20AC}");
    NumberCharsOfNumber(a);
    NumberCharsNone(" \U{20AC}");
    assert NumberChars(t) == a;
    ParseAmount(v);
  }

  /** The parse of a text that strips to itself, from its currency and its number characters. */
  lemma ParsePriceOf(t: string, a: string)
    requires Strip(t) == t && NumberChars(t) == a && a != ""
    ensures ParsePrice(t) == (ParseNumber(a), CurrencyOf(t))
  {
  }

  /** The digits and separators of a dollar amount are those of the amount. */
  lemma DollarNumberChars(a: string)
    requires AllNumberChars(a)
    ensures NumberChars("$" + a) == a
  {
    NumberCharsAppend("$", a);
    NumberCharsOfNumber(a);
    NumberCharsNone("$");
  }

  /** A dollar amount strips to itself and reads as USD. */
  lemma DollarText(a: string)
    requires |a| > 0 && IsDigit(a[|a| - 1])
    ensures Strip("$" + a) == "$" + a && CurrencyOf("$" + a) == "USD"
  {
    var t := "$" + a;
    assert t[|t| - 1] == a[|a| - 1];
    StripSolid(t);
    assert OccursAt(t, "$", 0);
  }

  /** A dollar sign in front makes the currency USD and leaves the value alone. */
  lemma ParsePriceDollar(v: nat)
    ensures ParsePrice("$" + AmountDe(v)) == (Some(v), "USD")
  {
    var a := AmountDe(v);
    AmountShape(v);
    DollarText(a);
    DollarNumberChars(a);
    ParsePriceOf("$" + a, a);
    ParseAmount(v);
  }

  // ---------------------------------------------------------------------
  // Title matching
  // ---------------------------------------------------------------------

  /** A token is accepted when it stands alone in the title and is not an "uhr" of a clock time. */
  predicate TokenAccepted(title: string, token: string)
  {
    HasBounded(title, token) && !(token == "uhr" && HasClockUhr(title, 0))
  }

  /** `matches_keyword`: there are tokens, and every one of them is accepted in the lower-cased title. */
  predicate KeywordMatches(title: string, keyword: string)
    ensures KeywordMatches(title, keyword) ==> |Tokens(Lower(keyword))| > 0
    ensures KeywordMatches(title, keyword) && "uhr" in Tokens(Lower(keyword)) ==> !HasClockUhr(Lower(title), 0)
  {
    var tokens := Tokens(Lower(keyword));
    |tokens| > 0 && forall k :: 0 <= k < |tokens| ==> TokenAccepted(Lower(title), tokens[k])
  }

  /** The token loop of `matches_keyword`. */
  method MatchesKeyword(title: string, keyword: string) returns (ok: bool)
    ensures ok == KeywordMatches(title, keyword)
  {
    var normTitle := Lower(title);
    var tokens := Tokens(Lower(keyword));
    if |tokens| == 0 {
      return false;
    }
    var i := 0;
    while i < |tokens|
      invariant 0 <= i <= |tokens|
      invariant forall k :: 0 <= k < i ==> TokenAccepted(normTitle, tokens[k])
    {
      var token := tokens[i];
      if !HasBounded(normTitle, token) {
        return false;
      }
      if token == "uhr" && HasClockUhr(normTitle, 0) {
        return false;
      }
      i := i + 1;
    }
    return true;
  }

  /** A blank keyword matches no title. */
  lemma BlankKeywordNeverMatches(title: string, keyword: string)
    requires AllSpace(keyword)
    ensures !KeywordMatches(title, keyword)
  {
    LowerAllSpace(keyword);
    TokensEmpty(Lower(keyword));
  }

  /** The keyword "uhr" never matches a title that holds a clock time followed by "uhr". */
  lemma ClockTimeBlocksUhr(title: string)
    requires HasClockUhr(Lower(title), 0)
    ensures !KeywordMatches(title, "uhr")
  {
    LowerNoUpper("uhr");
    TokensOfWord("uhr");
    var tokens := Tokens(Lower("uhr"));
    assert tokens == ["uhr"];
    assert !TokenAccepted(Lower(title), tokens[0]);
  }

  /** The keyword "dolch" matches "historischer dolch" but not "dolche". */
  lemma DolchExamples()
    ensures TokenAccepted("historischer dolch", "dolch")
    ensures !TokenAccepted("dolche", "dolch")
  {
    var s := "historischer dolch";
    assert s[13..18] == "dolch";
    assert BoundedAt(s, "dolch", 13);
    var t := "dolche";
    forall i | 0 <= i <= |t| ensures !BoundedAt(t, "dolch", i) {
      if i == 1 {
        assert t[1..6] != "dolch" by { assert t[1..6][0] == 'o'; }
      }
    }
  }

  // ---------------------------------------------------------------------
  // Next-page detection
  // ---------------------------------------------------------------------

  /** Some link points at the next page, by `page=` or by the 50-item `start=` offset. */
  predicate NextLinked(hrefs: seq<string>, page: nat)
  {
    exists k | 0 <= k < |hrefs| ::
      Contains(hrefs[k], "page=" + NatToString(page + 1)) || Contains(hrefs[k], "start=" + NatToString(page * 50))
  }

  /** `_has_next_page` over the hrefs of a page's links. */
  method HasNextPage(hrefs: seq<string>, page: nat) returns (more: bool)
    ensures more == NextLinked(hrefs, page)
  {
    var pageMark := "page=" + NatToString(page + 1);
    var startMark := "start=" + NatToString(page * 50);
    var i := 0;
    while i < |hrefs|
      invariant 0 <= i <= |hrefs|
      invariant forall k :: 0 <= k < i ==> !Contains(hrefs[k], pageMark) && !Contains(hrefs[k], startMark)
    {
      if Find(hrefs[i], pageMark).Some? || Find(hrefs[i], startMark).Some? {
        return true;
      }
      i := i + 1;
    }
    return false;
  }

  /** A link carrying the next page number is always recognised, wherever it sits. */
  lemma PagerLinkFound(before: seq<string>, prefix: string, after: seq<string>, page: nat)
    ensures NextLinked(before + [prefix + "page=" + NatToString(page + 1)] + after, page)
  {
    var hrefs := before + [prefix + "page=" + NatToString(page + 1)] + after;
    var h := hrefs[|before|];
    assert OccursAt(h, "page=" + NatToString(page + 1), |prefix|);
  }

  // ---------------------------------------------------------------------
  // The page loop
  // ---------------------------------------------------------------------

  /** The page budget: the override, else 2000 for a full crawl, 3 for a sample and 1 otherwise; at most 2000. */
  function MaxPages(maxPagesOverride: Option<int>, crawlAll: bool, sampleMode: bool): (r: int)
    ensures r <= 2000
    ensures maxPagesOverride.None? || maxPagesOverride.value == 0 ==>
              r == (if crawlAll then 2000 else if sampleMode then 3 else 1)
    ensures maxPagesOverride.Some? && maxPagesOverride.value != 0 && maxPagesOverride.value <= 2000 ==>
              r == maxPagesOverride.value
  {
    var raw := if maxPagesOverride.Some? && maxPagesOverride.value != 0 then maxPagesOverride.value
               else if crawlAll then 2000 else if sampleMode then 3 else 1;
    if raw <= 2000 then raw else 2000
  }

  /** A parsed result page: its listings, the total count it shows, and whether it links a next page. */
  datatype ResultPage = ResultPage(items: seq<Listing>, total: Option<int>, hasMore: bool)

  /** The loop's variables; `raised` when a page request failed and the search raised. */
  datatype Crawl = Crawl(items: seq<Listing>, seenIds: set<string>, pagesScanned: nat,
                         total: Option<int>, hasMore: bool, raised: bool)

  const START: Crawl := Crawl([], {}, 0, None, false, false)

  /** What one page does: new ids are kept, a page with listings is counted, the first total is kept. */
  function TakePage(c: Crawl, p: ResultPage): Crawl
  {
    c.(items := c.items + Dedup(p.items, c.seenIds, PlatformIdOf, NoRewrite),
       seenIds := c.seenIds + KeySet(p.items, PlatformIdOf),
       pagesScanned := c.pagesScanned + (if |p.items| > 0 then 1 else 0),
       total := if c.total.None? && p.total.Some? then p.total else c.total,
       hasMore := p.hasMore)
  }

  /** The loop ends after this page: single-page mode, no next page, or no listings. */
  predicate EndsLoop(f: Option<ResultPage>, multi: bool)
  {
    f.None? || !multi || !f.value.hasMore || |f.value.items| == 0
  }

  /** The page loop of `search` from `page` on. */
  function Scan(fetch: int -> Option<ResultPage>, page: int, maxPages: int, multi: bool, c: Crawl): Crawl
    decreases maxPages - page
  {
    if page > maxPages then c
    else match fetch(page)
      case None => c.(raised := true)
      case Some(p) =>
        var c' := TakePage(c, p);
        if EndsLoop(fetch(page), multi) then c' else Scan(fetch, page + 1, maxPages, multi, c')
  }

  /** The last page the loop requests. */
  function LastPage(fetch: int -> Option<ResultPage>, page: int, maxPages: int, multi: bool): int
    decreases maxPages - page
  {
    if page >= maxPages || EndsLoop(fetch(page), multi) then page
    else LastPage(fetch, page + 1, maxPages, multi)
  }

  /**
   * The loop requests pages `page` to `q` and no others: every page
   * before `q` had listings and a next page, `q` is the budget's last page
   * or ends the loop, and exactly the requested pages with listings are
   * counted.
   */
  lemma {:induction false} ScanVisits(fetch: int -> Option<ResultPage>, page: int, maxPages: int, multi: bool, c: Crawl)
    requires page <= maxPages && !c.raised
    decreases maxPages - page
    ensures var q := LastPage(fetch, page, maxPages, multi);
            var r := Scan(fetch, page, maxPages, multi, c);
            && page <= q <= maxPages
            && (q < maxPages ==> EndsLoop(fetch(q), multi))
            && (forall p :: page <= p < q ==> fetch(p).Some? && |fetch(p).value.items| > 0 && fetch(p).value.hasMore)
            && (r.raised <==> fetch(q).None?)
            && r.pagesScanned == c.pagesScanned + (q - page)
                                 + (if fetch(q).Some? && |fetch(q).value.items| > 0 then 1 else 0)
  {
    if page < maxPages && !EndsLoop(fetch(page), multi) {
      ScanVisits(fetch, page + 1, maxPages, multi, TakePage(c, fetch(page).value));
    }
  }

  /** Items stay unique by platform id, every listed id recorded. */
  lemma {:induction false} ScanUnique(fetch: int -> Option<ResultPage>, page: int, maxPages: int, multi: bool, c: Crawl)
    requires DistinctKeys(c.items, PlatformIdOf) && KeySet(c.items, PlatformIdOf) <= c.seenIds
    decreases maxPages - page
    ensures var r := Scan(fetch, page, maxPages, multi, c);
            DistinctKeys(r.items, PlatformIdOf) && KeySet(r.items, PlatformIdOf) <= r.seenIds
  {
    if page <= maxPages && fetch(page).Some? {
      DedupExtends(c.items, fetch(page).value.items, c.seenIds, PlatformIdOf);
      if !EndsLoop(fetch(page), multi) {
        ScanUnique(fetch, page + 1, maxPages, multi, TakePage(c, fetch(page).value));
      }
    }
  }

  /** What `search` returns. */
  datatype SearchOutcome = SearchOutcome(items: seq<Listing>, totalCount: Option<int>, hasMore: bool,
                                         pagesScanned: nat, lastPageIndex: Option<int>)

  /** The result of a loop that did not raise; `last_page_index` is the page count when positive. */
  function OutcomeOf(c: Crawl): Option<SearchOutcome>
  {
    if c.raised then None
    else Some(SearchOutcome(c.items, c.total, c.hasMore, c.pagesScanned,
                            if c.pagesScanned > 0 then Some(c.pagesScanned) else None))
  }

  /** One requested page: the filter loop over its listings and the counters. */
  method TakePageStep(c: Crawl, p: ResultPage) returns (next: Crawl)
    ensures next == TakePage(c, p)
  {
    var unique, ids := DedupInto(p.items, c.items, c.seenIds, PlatformIdOf, NoRewrite);
    var pages := c.pagesScanned;
    if |p.items| > 0 {
      pages := pages + 1;
    }
    var total := c.total;
    if p.total.Some? && total.None? {
      total := p.total;
    }
    next := Crawl(unique, ids, pages, total, p.hasMore, c.raised);
  }

  /** `search`: the page loop under the budget; `None` when a page request raised. */
  method Search(crawlAll: bool, sampleMode: bool, maxPagesOverride: Option<int>,
                fetch: int -> Option<ResultPage>)
    returns (r: Option<SearchOutcome>)
    ensures r == OutcomeOf(Scan(fetch, 1, MaxPages(maxPagesOverride, crawlAll, sampleMode),
                                crawlAll || sampleMode, START))
  {
    var maxPages := MaxPages(maxPagesOverride, crawlAll, sampleMode);
    var multi := crawlAll || sampleMode;
    var c := START;
    ghost var final := Scan(fetch, 1, maxPages, multi, c);
    var page := 1;
    while page <= maxPages
      invariant Scan(fetch, page, maxPages, multi, c) == final
      decreases maxPages - page
    {
      var f := fetch(page);
      if f.None? {
        c := c.(raised := true);
        break;
      }
      c := TakePageStep(c, f.value);
      if !multi || !f.value.hasMore || |f.value.items| == 0 {
        break;
      }
      page := page + 1;
    }
    return OutcomeOf(c);
  }

  /** Every run's items are unique by platform id, and a poll requests one page at most. */
  lemma SearchShape(fetch: int -> Option<ResultPage>, maxPages: int, multi: bool)
    ensures var r := Scan(fetch, 1, maxPages, multi, START);
            && DistinctKeys(r.items, PlatformIdOf)
            && (!multi ==> r.pagesScanned <= 1)
  {
    ScanUnique(fetch, 1, maxPages, multi, START);
    if 1 <= maxPages {
      ScanVisits(fetch, 1, maxPages, multi, START);
    }
  }

  // ---------------------------------------------------------------------
  // Detail enrichment
  // ---------------------------------------------------------------------

  /** The listings `fetch_posted_ts_batch` fetches detail pages for: egun.de ones without a start time. */
  predicate IsTarget(l: Listing)
  {
    l.platform == EGUN && l.postedTs.None?
  }

  /** The semaphore size: at least one worker. */
  function Workers(concurrency: int): (n: int)
    ensures n >= 1 && n >= concurrency
  {
    if concurrency >= 1 then concurrency else 1
  }

  /** Each target takes the start time its detail page yields, if any; a failed fetch yields none. */
  function Enrich(listings: seq<Listing>, detail: Listing -> Option<int>): (r: seq<Listing>)
    ensures |r| == |listings|
  {
    if |listings| == 0 then []
    else
      var l := listings[0];
      [if IsTarget(l) && detail(l).Some? then l.(postedTs := detail(l)) else l] + Enrich(listings[1..], detail)
  }

  /**
   * Enrichment changes nothing but the start time of targets: other
   * listings, and every other field, stay as they were, and a start time
   * already present is never overwritten.
   */
  lemma {:induction false} EnrichOnlyTargets(listings: seq<Listing>, detail: Listing -> Option<int>, k: nat)
    requires k < |listings|
    ensures var r := Enrich(listings, detail)[k];
            && r == listings[k].(postedTs := r.postedTs)
            && (!IsTarget(listings[k]) ==> r == listings[k])
            && (IsTarget(listings[k]) ==> r.postedTs == detail(listings[k]))
  {
    if k > 0 {
      EnrichOnlyTargets(listings[1..], detail, k - 1);
    }
  }

  // ---------------------------------------------------------------------
  // Start time from the running time
  // ---------------------------------------------------------------------

  const SECONDS_PER_DAY: int := 86400

  /**
   * `_compute_posted_ts_from_duration`: the expected end less the whole
   * days of the running time (its first number); nothing when either text
   * is missing or empty, the running time has no number, or the end does
   * not parse.
   */
  function PostedFromDuration(laufzeit: Option<string>, endText: Option<string>,
                              parseEnd: string -> Option<int>): Option<int>
  {
    if laufzeit.None? || laufzeit.value == "" || endText.None? || endText.value == "" then None
    else match FirstDigitRun(laufzeit.value)
      case None => None
      case Some(days) =>
        FirstDigitRunShape(laufzeit.value);
        match parseEnd(endText.value)
        case None => None
        case Some(end) => Some(end - SECONDS_PER_DAY * DigitsToNat(days))
  }

  /** The start lies whole days before the parsed end, as many as the running time's first number says. */
  lemma PostedBeforeEnd(laufzeit: string, endText: string, parseEnd: string -> Option<int>)
    requires PostedFromDuration(Some(laufzeit), Some(endText), parseEnd).Some?
    ensures var t := PostedFromDuration(Some(laufzeit), Some(endText), parseEnd).value;
            && parseEnd(endText).Some?
            && FirstDigitRun(laufzeit).Some?
            && t <= parseEnd(endText).value
            && (parseEnd(endText).value - t) % SECONDS_PER_DAY == 0
            && (parseEnd(endText).value - t) / SECONDS_PER_DAY == DigitsToNat(FirstDigitRun(laufzeit).value)
  {
    FirstDigitRunShape(laufzeit);
  }

  /** "30 Tage" before an end puts the start thirty days earlier. */
  lemma ThirtyDays(end: int, endText: string, parseEnd: string -> Option<int>)
    requires endText != "" && parseEnd(endText) == Some(end)
    ensures PostedFromDuration(Some("30 Tage"), Some(endText), parseEnd) == Some(end - 30 * SECONDS_PER_DAY)
  {
    var s := "30 Tage";
    assert FirstDigitFrom(s, 0) == Some(0);
    assert DigitRunEnd(s, 0) == 2 by {
      assert DigitRunEnd(s, 2) == 2;
    }
    assert s[0..2] == "30";
    assert DigitsToNat("30") == 30 by {
      assert "30"[..1] == "3";
      assert DigitsToNat("3") == 3 by { assert "3"[..0] == ""; }
    }
  }
}
