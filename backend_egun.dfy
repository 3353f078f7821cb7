/**
 * The backend's egun.de provider: its price parser and German price
 * formatter, its token matcher, the next-page rule of a result page
 * taken from the `start=` offsets of its links, and the search loop with
 * the de-duplication applied after it.  A page request is given as its
 * outcome; a request past the pages the site has is a failed one.
 */
module BackendEgun {
  import opened Wrappers
  import opened Chars
  import opened Money
  import opened Models
  import opened Dedupe
  import opened Matching
  import ListingKey

  // ---------------------------------------------------------------------
  // Prices
  // ---------------------------------------------------------------------

  /** The currency of the first pattern that matches, in the order €, EUR, $, USD, £, GBP; EUR by default. */
  function CurrencyOf(text: string): (r: string)
    ensures r == "EUR" || r == "USD" || r == "GBP"
    ensures r == "USD" ==> !Contains(text, "\U{20AC}") && !HasWholeWord(Lower(text), "eur")
    ensures r == "GBP" ==> !Contains(text, "$") && !HasWholeWord(Lower(text), "usd")
  {
    var lower := Lower(text);
    if Contains(text, "\U{20AC}") || HasWholeWord(lower, "eur") then "EUR"
    else if Contains(text, "$") || HasWholeWord(lower, "usd") then "USD"
    else if Contains(text, "\U{A3}") || HasWholeWord(lower, "gbp") then "GBP"
    else "EUR"
  }

  predicate IsCurrencySymbol(c: char) { c == '\U{20AC}' || c == '$' || c == '\U{A3}' }

  /** The three characters, lower-cased, spell "eur", "usd" or "gbp". */
  predicate IsCurrencyCode(a: char, b: char, c: char)
  {
    var x, y, z := LowerChar(a), LowerChar(b), LowerChar(c);
    (x == 'e' && y == 'u' && z == 'r') || (x == 'u' && y == 's' && z == 'd') || (x == 'g' && y == 'b' && z == 'p')
  }

  /** `re.sub(r"[€$£]|EUR|USD|GBP", "", s, flags=re.IGNORECASE)`, scanning from the left. */
  function RemoveCurrency(s: string): (r: string)
    ensures |r| <= |s|
  {
    if |s| == 0 then []
    else if IsCurrencySymbol(s[0]) then RemoveCurrency(s[1..])
    else if |s| >= 3 && IsCurrencyCode(s[0], s[1], s[2]) then RemoveCurrency(s[3..])
    else [s[0]] + RemoveCurrency(s[1..])
  }

  /** No currency code starts with a digit or separator. */
  lemma NumberStartsNoCode(a: char, b: char, c: char)
    requires IsNumberChar(a)
    ensures !IsCurrencyCode(a, b, c)
  {
    assert LowerChar(a) == a;
  }

  /** A digit or separator in front is kept. */
  lemma RemoveCurrencyNumberHead(s: string)
    requires |s| > 0 && IsNumberChar(s[0])
    ensures RemoveCurrency(s) == [s[0]] + RemoveCurrency(s[1..])
  {
    if |s| >= 3 {
      NumberStartsNoCode(s[0], s[1], s[2]);
    }
  }

  /** Digits and separators in front are kept as they are. */
  lemma {:induction false} RemoveCurrencyKeepsNumber(a: string, t: string)
    requires AllNumberChars(a)
    ensures RemoveCurrency(a + t) == a + RemoveCurrency(t)
  {
    if |a| == 0 {
      assert a + t == t;
    } else {
      var s := a + t;
      assert s[0] == a[0] && s[1..] == a[1..] + t;
      RemoveCurrencyNumberHead(s);
      assert AllNumberChars(a[1..]) by {
        forall k | 0 <= k < |a[1..]| ensures IsNumberChar(a[1..][k]) {
          assert a[1..][k] == a[k + 1];
        }
      }
      RemoveCurrencyKeepsNumber(a[1..], t);
      assert a == [a[0]] + a[1..];
    }
  }

  /** End of the run of digits and separators starting at `i`. */
  function NumberRunEnd(s: string, i: nat): (j: nat)
    requires i <= |s|
    decreases |s| - i
    ensures i <= j <= |s|
    ensures forall k :: i <= k < j ==> IsNumberChar(s[k])
    ensures j < |s| ==> !IsNumberChar(s[j])
  {
    if i < |s| && IsNumberChar(s[i]) then NumberRunEnd(s, i + 1) else i
  }

  /** A run of digits and separators from `i` that stops at `j` ends there. */
  lemma NumberRunEndAt(s: string, i: nat, j: nat)
    requires i <= j <= |s| && (forall k :: i <= k < j ==> IsNumberChar(s[k])) && (j < |s| ==> !IsNumberChar(s[j]))
    ensures NumberRunEnd(s, i) == j
  {
  }

  /** Index of the first digit or separator at or after `from`. */
  function FirstNumberCharFrom(s: string, from: nat): (r: Option<nat>)
    decreases |s| - from
    ensures r.Some? ==> from <= r.value < |s| && IsNumberChar(s[r.value])
    ensures r.Some? ==> forall j :: from <= j < r.value ==> !IsNumberChar(s[j])
    ensures r.None? ==> forall j :: from <= j < |s| ==> !IsNumberChar(s[j])
  {
    if from >= |s| then None
    else if IsNumberChar(s[from]) then Some(from)
    else FirstNumberCharFrom(s, from + 1)
  }

  /** `re.search(r"[\d.,]+", s).group()`: the leftmost run of digits and separators. */
  function FirstNumberRun(s: string): (r: Option<string>)
    ensures r.Some? ==> |r.value| > 0 && AllNumberChars(r.value)
    ensures r.None? <==> forall j :: 0 <= j < |s| ==> !IsNumberChar(s[j])
  {
    match FirstNumberCharFrom(s, 0)
    case None => None
    case Some(i) =>
      var r := s[i..NumberRunEnd(s, i)];
      assert forall k :: 0 <= k < |r| ==> r[k] == s[i + k];
      Some(r)
  }

  /** A number followed by a non-number character is its own first run. */
  lemma FirstNumberRunOf(a: string, t: string)
    requires |a| > 0 && AllNumberChars(a) && (t == [] || !IsNumberChar(t[0]))
    ensures FirstNumberRun(a + t) == Some(a)
  {
    var s := a + t;
    assert FirstNumberCharFrom(s, 0) == Some(0);
    assert forall k :: 0 <= k < |a| ==> s[k] == a[k];
    if t != [] {
      assert s[|a|] == t[0];
    }
    NumberRunEndAt(s, 0, |a|);
    assert s[0..|a|] == a;
  }

  /**
   * `parse_price`: a blank input is `(None, "EUR")`; otherwise the
   * currency of the stripped text, and the value of the first number left
   * once the currency marks are removed, by the decimal-separator rule.
   */
  function ParsePrice(raw: string): (r: (Option<nat>, string))
    ensures Strip(raw) == "" ==> r == (None, "EUR")
    ensures r.1 == "EUR" || r.1 == "USD" || r.1 == "GBP"
    ensures Strip(raw) != "" ==> r.1 == CurrencyOf(Strip(raw))
  {
    var text := Strip(raw);
    if text == "" then (None, "EUR")
    else
      var currency := CurrencyOf(text);
      match FirstNumberRun(Strip(RemoveCurrency(text)))
      case None => (None, currency)
      case Some(n) => (ParseNumber(n), currency)
  }

  /** A blank or empty input has no value and the default currency. */
  lemma BlankPrice(raw: string)
    requires forall k :: 0 <= k < |raw| ==> IsSpace(raw[k])
    ensures ParsePrice(raw) == (None, "EUR")
  {
    StripBlank(raw);
  }

  /** The symbol `format_price_de` prints after the amount. */
  function CurrencySymbol(currency: string): (r: string)
    ensures currency == "EUR" ==> r == "\U{20AC}"
    ensures currency != "EUR" ==> r == currency
  {
    if currency == "EUR" then "\U{20AC}" else currency
  }

  /** `format_price_de` on an optional amount: `None` gives the empty text, an amount its formatted price. */
  function FormatOptionalPriceDe(v: Option<nat>, currency: string): (r: string)
    ensures v.None? <==> r == ""
    ensures v.Some? ==> r == FormatPriceDe(v.value, currency)
  {
    if v.None? then "" else FormatPriceDe(v.value, currency)
  }

  /**
   * `format_price_de` for a non-negative amount of hundredths: the whole
   * units grouped by three with dots, a decimal comma, exactly two
   * digits, a space and the symbol.
   */
  function FormatPriceDe(v: nat, currency: string): (r: string)
    ensures var g := GroupThousands(NatToString(v / 100));
            && r == g + "," + TwoDigits(v % 100) + " " + CurrencySymbol(currency)
            && RemoveChar(g, '.') == NatToString(v / 100)
            && (|NatToString(v / 100)| <= 3 ==> g == NatToString(v / 100))
  {
    AmountShape(v);
    AmountDe(v) + " " + CurrencySymbol(currency)
  }

  /** Ending in the euro sign makes the currency EUR. */
  lemma EuroSignCurrency(a: string)
    ensures CurrencyOf(a + " " + "\U{20AC}") == "EUR"
  {
    var t := a + " " + "\U{20AC}";
    assert OccursAt(t, "\U{20AC}", |a| + 1);
  }

  /** Removing the currency marks from an amount and its euro sign leaves the amount and the space. */
  lemma RemoveEuroSign(a: string)
    requires AllNumberChars(a)
    ensures RemoveCurrency(a + " " + "\U{20AC}") == a + " "
  {
    assert a + " " + "\U{20AC}" == a + (" " + "\U{20AC}");
    RemoveCurrencyKeepsNumber(a, " " + "\U{20AC}");
    assert RemoveCurrency("\U{20AC}") == [];
    assert (" " + "\U{20AC}")[1..] == "\U{20AC}";
    assert RemoveCurrency(" " + "\U{20AC}") == " ";
  }

  /** Text that begins and ends with non-space characters strips to itself. */
  lemma StripSolid(t: string)
    requires |t| > 0 && !IsSpace(t[0]) && !IsSpace(t[|t| - 1])
    ensures Strip(t) == t
  {
  }

  /** A single trailing space is stripped away. */
  lemma StripTrailingSpace(a: string)
    requires |a| > 0 && !IsSpace(a[0]) && !IsSpace(a[|a| - 1])
    ensures Strip(a + " ") == a
  {
    var s := a + " ";
    assert s[0] == a[0];
    assert LStrip(s) == s;
    assert s[..|s| - 1] == a;
    assert RStrip(a) == a;
  }

  /** Formatting an amount in euros and parsing it back gives the amount in EUR. */
  lemma FormatParseRoundTrip(v: nat)
    ensures ParsePrice(FormatPriceDe(v, "EUR")) == (Some(v), "EUR")
  {
    var a := AmountDe(v);
    AmountShape(v);
    var t := a + " " + "\U{20AC}";
    assert FormatPriceDe(v, "EUR") == t;
    assert a[|a| - 1] == TwoDigits(v % 100)[1];
    StripSolid(t);
    EuroSignCurrency(a);
    RemoveEuroSign(a);
    StripTrailingSpace(a);
    assert a + [] == a;
    FirstNumberRunOf(a, []);
    ParseAmount(v);
  }

  // ---------------------------------------------------------------------
  // Title matching
  // ---------------------------------------------------------------------

  /** `matches_keyword`: there are tokens, and each stands alone somewhere in the normalised title. */
  predicate KeywordMatches(title: string, keyword: string)
  {
    var tokens := Tokens(Strip(Lower(keyword)));
    |tokens| > 0 && forall k :: 0 <= k < |tokens| ==> HasBounded(Strip(Lower(title)), tokens[k])
  }

  method MatchesKeyword(title: string, keyword: string) returns (ok: bool)
    ensures ok == KeywordMatches(title, keyword)
  {
    var normTitle := Strip(Lower(title));
    var tokens := Tokens(Strip(Lower(keyword)));
    if |tokens| == 0 {
      return false;
    }
    var i := 0;
    while i < |tokens|
      invariant 0 <= i <= |tokens|
      invariant forall k :: 0 <= k < i ==> HasBounded(normTitle, tokens[k])
    {
      if !HasBounded(normTitle, tokens[i]) {
        return false;
      }
      i := i + 1;
    }
    return true;
  }

  /** A keyword of white space only never matches. */
  lemma BlankKeywordNeverMatches(title: string, keyword: string)
    requires AllSpace(keyword)
    ensures !KeywordMatches(title, keyword)
  {
    LowerAllSpace(keyword);
    StripBlank(Lower(keyword));
    assert Tokens([]) == [];
  }

  /** A lower-case word matches itself as a title: the backend has no "uhr" exception. */
  lemma WordMatchesItself(w: string)
    requires w != [] && forall k :: 0 <= k < |w| ==> IsLowerLetter(w[k])
    ensures KeywordMatches(w, w)
  {
    LowerNoUpper(w);
    assert Strip(w) == w by {
      assert LStrip(w) == w;
    }
    TokensOfWord(w);
    assert BoundedAt(w, w, 0);
  }

  // ---------------------------------------------------------------------
  // The next-page rule
  // ---------------------------------------------------------------------

  /** `re.search(r"start=(\d+)", href)`: the offset of a link, if it has one. */
  function StartOffset(href: string): (r: Option<nat>)
  {
    var p := ListingKey.Marker("start=");
    match ListingKey.SearchFrom(p, href, 0)
    case None => None
    case Some(i) => Some(DigitsToNat(ListingKey.Captured(p, href, i)))
  }

  /** The offsets of all links that carry one, in order. */
  function Offsets(hrefs: seq<string>): (r: seq<nat>)
    ensures |r| <= |hrefs|
  {
    if |hrefs| == 0 then []
    else
      var rest := Offsets(hrefs[1..]);
      match StartOffset(hrefs[0])
      case None => rest
      case Some(o) => [o] + rest
  }

  /** The offsets are exactly those of the links that carry one. */
  lemma {:induction false} OffsetsMembers(hrefs: seq<string>, x: nat)
    ensures x in Offsets(hrefs) <==> exists k :: 0 <= k < |hrefs| && StartOffset(hrefs[k]) == Some(x)
  {
    if |hrefs| > 0 {
      OffsetsMembers(hrefs[1..], x);
      assert forall k :: 1 <= k < |hrefs| ==> hrefs[k] == hrefs[1..][k - 1];
      if x in Offsets(hrefs) && StartOffset(hrefs[0]) != Some(x) {
        var k :| 0 <= k < |hrefs[1..]| && StartOffset(hrefs[1..][k]) == Some(x);
        assert StartOffset(hrefs[k + 1]) == Some(x);
      }
    }
  }

  /** The smallest offset strictly above `current`, if any. */
  function NextOffset(offsets: seq<nat>, current: int): (r: Option<nat>)
    ensures r.Some? ==> r.value in offsets && r.value > current
                        && forall x :: x in offsets && x > current ==> r.value <= x
    ensures r.None? ==> forall x :: x in offsets ==> x <= current
  {
    if |offsets| == 0 then None
    else
      var rest := NextOffset(offsets[1..], current);
      assert forall x :: x in offsets ==> x == offsets[0] || x in offsets[1..];
      var o := offsets[0];
      if o <= current then rest
      else if rest.Some? && rest.value < o then rest
      else Some(o)
  }

  /** The offset a page starts at: 50 per page from page 2 on, 0 for the first. */
  function CurrentStart(page: int): (r: nat)
    ensures page > 1 ==> r == (page - 1) * 50
    ensures page <= 1 ==> r == 0
  {
    if page > 1 then (page - 1) * 50 else 0
  }

  /** The page has a next one exactly when the nearest offset above its own is one page further. */
  predicate HasMoreAfter(hrefs: seq<string>, page: int)
  {
    NextOffset(Offsets(hrefs), CurrentStart(page)) == Some(CurrentStart(page) + 50)
  }

  /** A link one page ahead and no link between the pages: there is more. */
  lemma AdjacentLinkMeansMore(hrefs: seq<string>, page: int, k: nat)
    requires k < |hrefs| && StartOffset(hrefs[k]) == Some(CurrentStart(page) + 50)
    requires forall j :: 0 <= j < |hrefs| && StartOffset(hrefs[j]).Some? ==>
               StartOffset(hrefs[j]).value <= CurrentStart(page) || StartOffset(hrefs[j]).value >= CurrentStart(page) + 50
    ensures HasMoreAfter(hrefs, page)
  {
    var cur := CurrentStart(page);
    var offs := Offsets(hrefs);
    OffsetsMembers(hrefs, cur + 50);
    var n := NextOffset(offs, cur);
    OffsetsMembers(hrefs, n.value);
  }

  /** When no link's offset lies exactly one page ahead there are no more pages. */
  lemma NoAdjacentLinkNoMore(hrefs: seq<string>, page: int)
    requires forall j :: 0 <= j < |hrefs| ==> StartOffset(hrefs[j]) != Some(CurrentStart(page) + 50)
    ensures !HasMoreAfter(hrefs, page)
  {
    OffsetsMembers(hrefs, CurrentStart(page) + 50);
  }

  /** The loop collecting `next_starts`. */
  method CollectStarts(hrefs: seq<string>) returns (starts: seq<nat>)
    ensures starts == Offsets(hrefs)
  {
    starts := [];
    var i := |hrefs|;
    while i > 0
      invariant 0 <= i <= |hrefs|
      invariant starts == Offsets(hrefs[i..])
    {
      i := i - 1;
      assert hrefs[i..][1..] == hrefs[i + 1..];
      var o := StartOffset(hrefs[i]);
      if o.Some? {
        starts := [o.value] + starts;
      }
    }
    assert hrefs[0..] == hrefs;
  }

  // ---------------------------------------------------------------------
  // Fetching a page
  // ---------------------------------------------------------------------

  /**
   * What a request yields: a failure (any exception), or the parsed page
   * with its matching listings, its total, its links, and whether its
   * text shows an empty-result phrase without echoing the query.
   */
  datatype RawPage = Failed | Parsed(listings: seq<Listing>, total: Option<nat>, hrefs: seq<string>, emptyNotice: bool)

  /** `_fetch_page`'s triple. */
  datatype PageResult = PageResult(listings: seq<Listing>, total: Option<nat>, hasMore: bool)

  function FetchResult(raw: RawPage, page: int): (r: PageResult)
    ensures raw.Failed? ==> r == PageResult([], None, false)
    ensures raw.Parsed? && raw.emptyNotice && page == 1 ==> r == PageResult([], Some(0), false)
    ensures raw.Parsed? && !(raw.emptyNotice && page == 1) ==>
              r.listings == raw.listings && r.total == raw.total && r.hasMore == HasMoreAfter(raw.hrefs, page)
  {
    match raw
    case Failed => PageResult([], None, false)
    case Parsed(listings, total, hrefs, notice) =>
      if notice && page == 1 then PageResult([], Some(0), false)
      else PageResult(listings, total, HasMoreAfter(hrefs, page))
  }

  method FetchPage(raw: RawPage, page: int) returns (r: PageResult)
    ensures r == FetchResult(raw, page)
  {
    if raw.Failed? {
      return PageResult([], None, false);
    }
    if raw.emptyNotice && page == 1 {
      return PageResult([], Some(0), false);
    }
    var starts := CollectStarts(raw.hrefs);
    var current := CurrentStart(page);
    var next := NextOffset(starts, current);
    return PageResult(raw.listings, raw.total, next == Some(current + 50));
  }

  // ---------------------------------------------------------------------
  // The search loop
  // ---------------------------------------------------------------------

  /** 3 pages for a sample, 1 for a poll, 10000 for a full crawl. */
  function MaxPages(sampleMode: bool, crawlAll: bool): (r: nat)
    ensures crawlAll ==> r == 10000
    ensures !crawlAll ==> r == (if sampleMode then 3 else 1)
  {
    if sampleMode && !crawlAll then 3 else if !crawlAll then 1 else 10000
  }

  /** Every listing on the page has a start time, and all of them lie before `since`. */
  predicate AllOlder(items: seq<Listing>, since: int)
  {
    forall k :: 0 <= k < |items| ==> items[k].postedTs.Some? && items[k].postedTs.value < since
  }

  /** The loop's state: all listings in page order, the first non-zero total, the has-more flag, the pages counted. */
  datatype Crawl = Crawl(all: seq<Listing>, totalEstimated: nat, hasMore: bool, pagesScanned: nat)

  const START: Crawl := Crawl([], 0, false, 0)

  function TakePage(c: Crawl, p: PageResult): Crawl
  {
    Crawl(c.all + p.listings,
          if p.total.Some? && p.total.value != 0 && c.totalEstimated == 0 then p.total.value else c.totalEstimated,
          c.hasMore || p.hasMore,
          c.pagesScanned + 1)
  }

  /** The loop from `page` on: it stops past the budget, at an empty page, at a page of old listings, or at the last page of a full crawl. */
  function Scan(fetch: int -> RawPage, since: Option<int>, crawlAll: bool, maxPages: nat, page: int, c: Crawl): Crawl
    decreases maxPages + 1 - page
  {
    if page > maxPages then c
    else
      var p := FetchResult(fetch(page), page);
      if |p.listings| == 0 then c
      else
        var c' := TakePage(c, p);
        if since.Some? && AllOlder(p.listings, since.value) then c'
        else if crawlAll && !p.hasMore then c'
        else Scan(fetch, since, crawlAll, maxPages, page + 1, c')
  }

  /**
   * The listings are the earlier ones followed by the pages' own, at most
   * one page is counted per page number within the budget, and the flag
   * is only set when a page said so.
   */
  lemma {:induction false} ScanShape(fetch: int -> RawPage, since: Option<int>, crawlAll: bool, maxPages: nat,
                                     page: int, c: Crawl)
    requires page >= 1
    decreases maxPages + 1 - page
    ensures var r := Scan(fetch, since, crawlAll, maxPages, page, c);
            && |c.all| <= |r.all| && r.all[..|c.all|] == c.all
            && c.pagesScanned <= r.pagesScanned
            && r.pagesScanned <= c.pagesScanned + (if page <= maxPages then maxPages + 1 - page else 0)
            && (r.hasMore ==> c.hasMore || exists q :: page <= q <= maxPages && FetchResult(fetch(q), q).hasMore)
  {
    if page <= maxPages {
      var p := FetchResult(fetch(page), page);
      if |p.listings| > 0 {
        var c' := TakePage(c, p);
        if !(since.Some? && AllOlder(p.listings, since.value)) && !(crawlAll && !p.hasMore) {
          ScanShape(fetch, since, crawlAll, maxPages, page + 1, c');
          var r := Scan(fetch, since, crawlAll, maxPages, page + 1, c');
          assert r.all[..|c.all|] == r.all[..|c'.all|][..|c.all|];
          if r.hasMore && !c.hasMore {
            if !p.hasMore {
              var q :| page + 1 <= q <= maxPages && FetchResult(fetch(q), q).hasMore;
              assert page <= q <= maxPages;
            }
          }
        }
      }
    }
  }

  /** What `search` returns. */
  datatype SearchOutcome = SearchOutcome(items: seq<Listing>, totalCount: Option<nat>, hasMore: bool, pagesScanned: nat)

  /** The loop's state made into the result: de-duplicated by id, a zero total dropped, 50 unique items meaning more. */
  function OutcomeOf(c: Crawl): SearchOutcome
  {
    var unique := Dedup(c.all, {}, PlatformIdOf, NoRewrite);
    SearchOutcome(unique, if c.totalEstimated > 0 then Some(c.totalEstimated) else None,
                  c.hasMore || |unique| >= 50, c.pagesScanned)
  }

  /** The items are unique by id, the first occurrence of each in scan order, with every scanned id present. */
  lemma OutcomeUnique(c: Crawl, m: nat)
    requires m < |OutcomeOf(c).items|
    ensures DistinctKeys(OutcomeOf(c).items, PlatformIdOf)
    ensures KeySet(OutcomeOf(c).items, PlatformIdOf) == KeySet(c.all, PlatformIdOf)
    ensures exists j :: IsFirstFresh(c.all, {}, PlatformIdOf, j) && OutcomeOf(c).items[m] == c.all[j]
  {
    assert KeepsKeys(c.all, PlatformIdOf, NoRewrite);
    DedupKeys(c.all, {}, PlatformIdOf, NoRewrite);
    DedupKeepsFirst(c.all, {}, PlatformIdOf, NoRewrite, m);
  }

  /** A poll (neither sample nor full crawl) counts at most one page, a sample at most three. */
  lemma PageBudget(fetch: int -> RawPage, since: Option<int>, sampleMode: bool, crawlAll: bool)
    ensures var r := Scan(fetch, since, crawlAll, MaxPages(sampleMode, crawlAll), 1, START);
            && (!crawlAll && !sampleMode ==> r.pagesScanned <= 1)
            && (!crawlAll && sampleMode ==> r.pagesScanned <= 3)
            && r.pagesScanned <= 10000
  {
    ScanShape(fetch, since, crawlAll, MaxPages(sampleMode, crawlAll), 1, START);
  }

  /** The loop body. */
  method ScanStep(p: PageResult, c: Crawl) returns (next: Crawl)
    ensures next == TakePage(c, p)
  {
    var total := c.totalEstimated;
    if p.total.Some? && p.total.value != 0 && total == 0 {
      total := p.total.value;
    }
    next := Crawl(c.all + p.listings, total, c.hasMore || p.hasMore, c.pagesScanned + 1);
  }

  /** Whether every listing of the page is older than `since`, checked listing by listing. */
  method AllOlderCheck(items: seq<Listing>, since: int) returns (older: bool)
    ensures older == AllOlder(items, since)
  {
    var withTs := 0;
    var allOlder := true;
    var i := 0;
    while i < |items|
      invariant 0 <= i <= |items| && withTs <= i
      invariant allOlder ==> withTs == i && AllOlder(items[..i], since)
      invariant !allOlder ==> !AllOlder(items, since)
    {
      if items[i].postedTs.Some? {
        withTs := withTs + 1;
        if items[i].postedTs.value >= since {
          allOlder := false;
          break;
        }
      } else {
        allOlder := false;
      }
      assert allOlder ==> items[..i + 1] == items[..i] + [items[i]];
      i := i + 1;
    }
    assert allOlder ==> items[..i] == items;
    return withTs == |items| && allOlder;
  }

  /** `search`: the page loop, then the de-duplication loop. */
  method Search(fetch: int -> RawPage, since: Option<int>, sampleMode: bool, crawlAll: bool)
    returns (r: SearchOutcome)
    ensures r == OutcomeOf(Scan(fetch, since, crawlAll, MaxPages(sampleMode, crawlAll), 1, START))
  {
    var maxPages := MaxPages(sampleMode, crawlAll);
    var c := START;
    var page := 1;
    ghost var final := Scan(fetch, since, crawlAll, maxPages, page, c);
    while page <= maxPages
      invariant Scan(fetch, since, crawlAll, maxPages, page, c) == final
      decreases maxPages as int + 1 - page
    {
      var p := FetchPage(fetch(page), page);
      if |p.listings| == 0 {
        break;
      }
      c := ScanStep(p, c);
      if since.Some? {
        var older := AllOlderCheck(p.listings, since.value);
        if older {
          break;
        }
      }
      if crawlAll && !p.hasMore {
        break;
      }
      page := page + 1;
    }
    var unique, seenIds := DedupInto(c.all, [], {}, PlatformIdOf, NoRewrite);
    r := SearchOutcome(unique, if c.totalEstimated > 0 then Some(c.totalEstimated) else None,
                       c.hasMore || |unique| >= 50, c.pagesScanned);
  }
}
