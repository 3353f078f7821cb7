/**
 * The markt.de provider: the listing id in a result link, the search URL
 * with its page parameter, the page loop with its budget, retries,
 * error stops, repeated-page detection and cross-page de-duplication, and
 * the units of a relative "vor N <unit>" start time.  A request's
 * attempts are given as their outcomes; the site's result pages end at
 * `lastPage`, past which it answers with an empty page.
 */
module MarktDe {
  import opened Wrappers
  import opened Chars
  import opened Models
  import opened Dedupe

  const BASE_URL: string := "https://www.markt.de"

  // ---------------------------------------------------------------------
  // Listing ids
  // ---------------------------------------------------------------------

  predicate IsHex(c: char)
  {
    IsDigit(c) || ('a' <= c <= 'f') || ('A' <= c <= 'F')
  }

  /** `/a/([0-9a-fA-F]{8})/` matches at `i`. */
  predicate IdAt(url: string, i: int)
  {
    0 <= i && i + 12 <= |url| && url[i..i + 3] == "/a/"
    && (forall k :: i + 3 <= k < i + 11 ==> IsHex(url[k])) && url[i + 11] == '/'
  }

  /** The leftmost match from `i`. */
  function IdFrom(url: string, i: nat): (r: Option<nat>)
    decreases |url| - i
    ensures r.Some? ==> i <= r.value && IdAt(url, r.value)
    ensures r.Some? ==> forall j :: i <= j < r.value ==> !IdAt(url, j)
    ensures r.None? ==> forall j :: i <= j ==> !IdAt(url, j)
  {
    if i + 12 > |url| then None
    else if IdAt(url, i) then Some(i)
    else IdFrom(url, i + 1)
  }

  /** `_extract_listing_id`: the eight hex digits of the first match, lower-cased. */
  function ListingId(url: string): (r: Option<string>)
    ensures r.Some? ==> |r.value| == 8 && forall k :: 0 <= k < 8 ==> IsHex(r.value[k]) && !IsUpper(r.value[k])
    ensures r.None? <==> forall j :: 0 <= j ==> !IdAt(url, j)
  {
    match IdFrom(url, 0)
    case None => None
    case Some(i) =>
      var hex := url[i + 3..i + 11];
      assert forall k :: 0 <= k < 8 ==> hex[k] == url[i + 3 + k];
      forall k | 0 <= k < 8 ensures IsHex(Lower(hex)[k]) && !IsUpper(Lower(hex)[k]) {
        LowerAt(hex, k);
      }
      Some(Lower(hex))
  }

  /** A link whose path starts with an id is read as that id, in lower case, whatever follows. */
  lemma ListingIdOfPath(hex: string, rest: string)
    requires |hex| == 8 && forall k :: 0 <= k < 8 ==> IsHex(hex[k])
    ensures ListingId("/a/" + hex + "/" + rest) == Some(Lower(hex))
  {
    var url := "/a/" + hex + "/" + rest;
    assert url[0..3] == "/a/" && url[11] == '/';
    assert url[3..11] == hex;
    forall k | 3 <= k < 11 ensures IsHex(url[k]) {
      assert url[k] == hex[k - 3];
    }
    assert IdAt(url, 0);
    assert IdFrom(url, 0) == Some(0);
  }

  /** A link without "/a/" has no id. */
  lemma NoIdWithoutMarker(url: string)
    requires !Contains(url, "/a/")
    ensures ListingId(url).None?
  {
    forall j | 0 <= j ensures !IdAt(url, j) {
      if IdAt(url, j) {
        assert OccursAt(url, "/a/", j);
      }
    }
  }

  // ---------------------------------------------------------------------
  // Search URLs
  // ---------------------------------------------------------------------

  /**
   * `build_search_url`, given the keyword already stripped and
   * percent-encoded: the search path, and `?page=N` only past page 1.
   */
  function SearchUrl(quoted: string, page: int): (url: string)
    ensures page <= 1 ==> url == BASE_URL + "/suche/" + quoted + "/"
    ensures page > 1 ==> url == SearchUrl(quoted, 1) + "?page=" + NatToString(page)
  {
    var path := "/suche/" + quoted + "/";
    if page > 1 then BASE_URL + path + "?page=" + NatToString(page) else BASE_URL + path
  }

  /** Different pages past the first have different URLs, and none of them is the first page's. */
  lemma SearchUrlsDiffer(quoted: string, p: int, q: int)
    requires p > 1 && p != q
    ensures SearchUrl(quoted, p) != SearchUrl(quoted, q)
  {
    var u, v := SearchUrl(quoted, p), SearchUrl(quoted, q);
    var n := |SearchUrl(quoted, 1)| + 6;
    assert u[n..] == NatToString(p);
    if q > 1 {
      assert v[n..] == NatToString(q);
      NatToStringRoundTrip(p);
      NatToStringRoundTrip(q);
    } else {
      assert |u| > |v|;
    }
  }

  // ---------------------------------------------------------------------
  // Requests and retries
  // ---------------------------------------------------------------------

  /** A parsed result page: its organic listings, whether it shows a next page, and the consent wall. */
  datatype ResultPage = ResultPage(listings: seq<Listing>, hasMore: bool, consentBlocked: bool)

  datatype Response = Response(status: int, page: ResultPage)

  /** One attempt: an HTTP error with its message, or a response. */
  datatype Attempt = Raised(message: string) | Responded(response: Response)

  const EMPTY_PAGE: Response := Response(200, ResultPage([], false, false))

  /** Attempt `k` at page `page`; past the last page the site answers with an empty page. */
  function Request(fetch: (int, nat) -> Attempt, lastPage: int, page: int, k: nat): Attempt
  {
    if page > lastPage then Responded(EMPTY_PAGE) else fetch(page, k)
  }

  /** The retry loop's result: the response, if any, and the last error message. */
  datatype Fetched = Fetched(response: Option<Response>, error: Option<string>)

  /** Attempts `k` to `maxRetries`: the first response ends them, each error is remembered. */
  function Attempts(fetch: (int, nat) -> Attempt, lastPage: int, page: int, k: nat, maxRetries: int,
                    lastError: Option<string>): Fetched
    decreases maxRetries - k
  {
    if k > maxRetries then Fetched(None, lastError)
    else match Request(fetch, lastPage, page, k)
      case Responded(resp) => Fetched(Some(resp), lastError)
      case Raised(msg) =>
        if k >= maxRetries then Fetched(None, Some(msg))
        else Attempts(fetch, lastPage, page, k + 1, maxRetries, Some(msg))
  }

  /**
   * The response is that of the first attempt that got one, every
   * attempt before it having raised, and no attempt past `maxRetries` is
   * made; without a response every attempt raised and the last message is
   * kept.
   */
  lemma {:induction false} AttemptsSpec(fetch: (int, nat) -> Attempt, lastPage: int, page: int, k: nat,
                                        maxRetries: int, lastError: Option<string>)
    requires k >= 1
    decreases maxRetries - k
    ensures var f := Attempts(fetch, lastPage, page, k, maxRetries, lastError);
            && (f.response.Some? ==>
                  exists j :: k <= j <= maxRetries && Request(fetch, lastPage, page, j) == Responded(f.response.value)
                              && forall i :: k <= i < j ==> Request(fetch, lastPage, page, i).Raised?)
            && (f.response.None? ==>
                  (forall i :: k <= i <= maxRetries ==> Request(fetch, lastPage, page, i).Raised?)
                  && (k <= maxRetries ==> f.error == Some(Request(fetch, lastPage, page, maxRetries).message)))
  {
    if k <= maxRetries && Request(fetch, lastPage, page, k).Raised? && k < maxRetries {
      AttemptsSpec(fetch, lastPage, page, k + 1, maxRetries, Some(Request(fetch, lastPage, page, k).message));
    }
  }

  /** The retry loop of one page. */
  method FetchPage(fetch: (int, nat) -> Attempt, lastPage: int, page: int, maxRetries: int)
    returns (f: Fetched)
    ensures f == Attempts(fetch, lastPage, page, 1, maxRetries, None)
  {
    var errorMessage: Option<string> := None;
    var attempt := 1;
    while attempt <= maxRetries
      invariant 1 <= attempt
      invariant Attempts(fetch, lastPage, page, attempt, maxRetries, errorMessage)
                == Attempts(fetch, lastPage, page, 1, maxRetries, None)
      decreases maxRetries - attempt
    {
      var a := Request(fetch, lastPage, page, attempt);
      if a.Responded? {
        return Fetched(Some(a.response), errorMessage);
      }
      errorMessage := Some(a.message);
      if attempt >= maxRetries {
        break;
      }
      attempt := attempt + 1;
    }
    return Fetched(None, errorMessage);
  }

  // ---------------------------------------------------------------------
  // The page loop
  // ---------------------------------------------------------------------

  /** `max_pages_override or (poll_pages if poll_pages else None)`. */
  function MaxPages(maxPagesOverride: Option<int>, pollPages: Option<int>): (r: Option<int>)
    ensures maxPagesOverride.Some? && maxPagesOverride.value != 0 ==> r == maxPagesOverride
    ensures (maxPagesOverride.None? || maxPagesOverride.value == 0) ==>
              r == (if pollPages.Some? && pollPages.value != 0 then pollPages else None)
  {
    if maxPagesOverride.Some? && maxPagesOverride.value != 0 then maxPagesOverride
    else if pollPages.Some? && pollPages.value != 0 then pollPages
    else None
  }

  /** The loop goes past its first page only for a full crawl, an override (even 0) or `poll_pages > 1`. */
  predicate MultiPage(crawlAll: bool, maxPagesOverride: Option<int>, pollPages: Option<int>)
  {
    crawlAll || maxPagesOverride.Some? || (pollPages.Some? && pollPages.value > 1)
  }

  /** `page_start if page_start and page_start > 0 else 1`. */
  function FirstPage(pageStart: Option<int>): (p: int)
    ensures p >= 1
    ensures pageStart.Some? && pageStart.value > 0 ==> p == pageStart.value
  {
    if pageStart.Some? && pageStart.value > 0 then pageStart.value else 1
  }

  /** How the search failed: the `status` and `error` it records. */
  datatype Failure = Failure(status: string, error: string)

  datatype Crawl = Crawl(items: seq<Listing>, seenIds: set<string>, pagesScanned: nat, hasMore: bool,
                         lastPageIndex: int, previousIds: Option<seq<string>>, failure: Option<Failure>)

  const START: Crawl := Crawl([], {}, 0, false, 0, None, None)

  /** The ids of a page's listings, in order. */
  function IdsOf(listings: seq<Listing>): (r: seq<string>)
    ensures |r| == |listings| && forall k :: 0 <= k < |r| ==> r[k] == listings[k].platformId
  {
    if |listings| == 0 then [] else [listings[0].platformId] + IdsOf(listings[1..])
  }

  const UNKNOWN_HTTP_ERROR: string := "Unbekannter HTTP-Fehler"
  const CONSENT_ERROR: string := "Consent-Seite blockiert die Suche"
  const HTTP_ERROR: string := "http_error"
  const CONSENT_BLOCKED: string := "consent_blocked"

  /** A page with new content: its unseen listings are kept, it is counted and remembered. */
  function TakePage(c: Crawl, page: int, p: ResultPage): Crawl
  {
    c.(items := c.items + Dedup(p.listings, c.seenIds, PlatformIdOf, NoRewrite),
       seenIds := c.seenIds + KeySet(p.listings, PlatformIdOf),
       pagesScanned := c.pagesScanned + 1,
       lastPageIndex := page,
       hasMore := p.hasMore,
       previousIds := Some(IdsOf(p.listings)))
  }

  /** After one page the loop either stops with a state or goes on to the next page with one. */
  datatype Step = Stop(state: Crawl) | Next(state: Crawl)

  /** The crawl `r` is `c` with a failure of the given status and a non-empty message recorded, and nothing else changed. */
  predicate FailedWith(c: Crawl, r: Crawl, status: string)
  {
    r == c.(failure := r.failure) && r.failure.Some? && r.failure.value.status == status && r.failure.value.error != ""
  }

  /** The page came back below 400 and past the consent wall, but holds nothing new: no listings, or the previous page's ids again. */
  predicate ExhaustedAt(resp: Response, c: Crawl)
  {
    resp.status < 400 && !resp.page.consentBlocked
    && (|resp.page.listings| == 0 || c.previousIds == Some(IdsOf(resp.page.listings)))
  }

  /**
   * What one fetched page does to the crawl: either the page's listings
   * are taken, or only the status fields change (an error, the consent
   * wall, an empty or repeated page); only a multi-page crawl goes on.
   */
  function PageStep(f: Fetched, page: int, multi: bool, c: Crawl): (s: Step)
    ensures || (f.response.Some? && |f.response.value.page.listings| > 0
                && s.state == TakePage(c, page, f.response.value.page))
            || (s.Stop? && s.state.items == c.items && s.state.seenIds == c.seenIds
                && s.state.pagesScanned == c.pagesScanned && s.state.lastPageIndex == c.lastPageIndex)
    ensures s.Next? ==> multi && f.response.Some? && s.state == TakePage(c, page, f.response.value.page)
    ensures f.response.None? ==>
              && s.Stop? && FailedWith(c, s.state, HTTP_ERROR)
              && (f.error.Some? && f.error.value != "" ==> s.state.failure.value.error == f.error.value)
    ensures f.response.Some? && f.response.value.status >= 400 ==>
              && s.Stop? && FailedWith(c, s.state, HTTP_ERROR)
              && s.state.failure.value.error == "HTTP " + NatToString(f.response.value.status)
    ensures f.response.Some? && f.response.value.status < 400 && f.response.value.page.consentBlocked ==>
              s == Stop(c.(failure := Some(Failure(CONSENT_BLOCKED, CONSENT_ERROR))))
    ensures f.response.Some? && ExhaustedAt(f.response.value, c) ==> s == Stop(c.(hasMore := false))
    ensures f.response.Some? && f.response.value.status < 400 && !f.response.value.page.consentBlocked
            && !ExhaustedAt(f.response.value, c) ==>
              s.state == TakePage(c, page, f.response.value.page) && (s.Next? <==> multi)
  {
    match f.response
    case None =>
      Stop(c.(failure := Some(Failure(HTTP_ERROR, if f.error.Some? && f.error.value != "" then f.error.value else UNKNOWN_HTTP_ERROR))))
    case Some(resp) =>
      if resp.status >= 400 then Stop(c.(failure := Some(Failure(HTTP_ERROR, "HTTP " + NatToString(resp.status)))))
      else if resp.page.consentBlocked then Stop(c.(failure := Some(Failure(CONSENT_BLOCKED, CONSENT_ERROR))))
      else if |resp.page.listings| == 0 || c.previousIds == Some(IdsOf(resp.page.listings)) then Stop(c.(hasMore := false))
      else if multi then Next(TakePage(c, page, resp.page))
      else Stop(TakePage(c, page, resp.page))
  }

  /** Past the last page the site answers with no listings, so every page taken lies within the site. */
  lemma TakenWithinSite(fetch: (int, nat) -> Attempt, lastPage: int, maxRetries: int, page: int)
    ensures var f := Attempts(fetch, lastPage, page, 1, maxRetries, None);
            f.response.Some? && |f.response.value.page.listings| > 0 ==> page <= lastPage
  {
  }

  /** The loop of `search` from `page` on. */
  function Scan(fetch: (int, nat) -> Attempt, lastPage: int, maxRetries: int, maxPages: Option<int>,
                multi: bool, page: int, c: Crawl): Crawl
    decreases lastPage + 1 - page
  {
    if maxPages.Some? && c.pagesScanned >= maxPages.value then c.(hasMore := true)
    else
      match PageStep(Attempts(fetch, lastPage, page, 1, maxRetries, None), page, multi, c)
      case Stop(c') => c'
      case Next(c') =>
        TakenWithinSite(fetch, lastPage, maxRetries, page);
        Scan(fetch, lastPage, maxRetries, maxPages, multi, page + 1, c')
  }

  /** One unfolding of the loop below its budget: the page's step, then the rest of the pages if it goes on. */
  lemma ScanUnfold(fetch: (int, nat) -> Attempt, lastPage: int, maxRetries: int, maxPages: Option<int>,
                   multi: bool, page: int, c: Crawl)
    ensures maxPages.Some? && c.pagesScanned >= maxPages.value ==>
              Scan(fetch, lastPage, maxRetries, maxPages, multi, page, c) == c.(hasMore := true)
    ensures !(maxPages.Some? && c.pagesScanned >= maxPages.value) ==>
            var s := PageStep(Attempts(fetch, lastPage, page, 1, maxRetries, None), page, multi, c);
            && (s.Stop? ==> Scan(fetch, lastPage, maxRetries, maxPages, multi, page, c) == s.state)
            && (s.Next? ==> page <= lastPage
                            && Scan(fetch, lastPage, maxRetries, maxPages, multi, page, c)
                               == Scan(fetch, lastPage, maxRetries, maxPages, multi, page + 1, s.state))
  {
    TakenWithinSite(fetch, lastPage, maxRetries, page);
  }

  /**
   * Below the page budget, the loop ends at a page with no response or a
   * status of 400 or more with an `http_error` and the crawl so far, at the
   * consent wall with `consent_blocked`, and at an empty or repeated page
   * with `has_more` false and the crawl so far.
   */
  lemma ScanStopRules(fetch: (int, nat) -> Attempt, lastPage: int, maxRetries: int, maxPages: Option<int>,
                      multi: bool, page: int, c: Crawl)
    requires !(maxPages.Some? && c.pagesScanned >= maxPages.value)
    ensures var f := Attempts(fetch, lastPage, page, 1, maxRetries, None);
            var r := Scan(fetch, lastPage, maxRetries, maxPages, multi, page, c);
            && (f.response.None? || f.response.value.status >= 400 ==> FailedWith(c, r, HTTP_ERROR))
            && (f.response.Some? && f.response.value.status < 400 && f.response.value.page.consentBlocked ==>
                  r == c.(failure := Some(Failure(CONSENT_BLOCKED, CONSENT_ERROR))))
            && (f.response.Some? && ExhaustedAt(f.response.value, c) ==> r == c.(hasMore := false))
  {
    ScanUnfold(fetch, lastPage, maxRetries, maxPages, multi, page, c);
  }

  /** Items stay unique by platform id, every listed id recorded. */
  lemma {:induction false} ScanUnique(fetch: (int, nat) -> Attempt, lastPage: int, maxRetries: int,
                                      maxPages: Option<int>, multi: bool, page: int, c: Crawl)
    requires DistinctKeys(c.items, PlatformIdOf) && KeySet(c.items, PlatformIdOf) <= c.seenIds
    decreases lastPage + 1 - page
    ensures var r := Scan(fetch, lastPage, maxRetries, maxPages, multi, page, c);
            DistinctKeys(r.items, PlatformIdOf) && KeySet(r.items, PlatformIdOf) <= r.seenIds
  {
    if !(maxPages.Some? && c.pagesScanned >= maxPages.value) {
      var f := Attempts(fetch, lastPage, page, 1, maxRetries, None);
      var s := PageStep(f, page, multi, c);
      if f.response.Some? {
        DedupExtends(c.items, f.response.value.page.listings, c.seenIds, PlatformIdOf);
      }
      if s.Next? {
        TakenWithinSite(fetch, lastPage, maxRetries, page);
        ScanUnique(fetch, lastPage, maxRetries, maxPages, multi, page + 1, s.state);
      }
    }
  }

  /**
   * The pages counted are consecutive from the first one requested, the
   * last of them is `last_page_index`; the budget is never exceeded, and
   * without the multi-page conditions at most one page is counted.
   */
  lemma {:induction false} ScanPages(fetch: (int, nat) -> Attempt, lastPage: int, maxRetries: int,
                                     maxPages: Option<int>, multi: bool, page: int, c: Crawl)
    decreases lastPage + 1 - page
    ensures var r := Scan(fetch, lastPage, maxRetries, maxPages, multi, page, c);
            && c.pagesScanned <= r.pagesScanned
            && (r.pagesScanned > c.pagesScanned ==> r.lastPageIndex == page + (r.pagesScanned - c.pagesScanned) - 1
                                                    && r.lastPageIndex <= lastPage)
            && (r.pagesScanned == c.pagesScanned ==> r.lastPageIndex == c.lastPageIndex)
            && (maxPages.Some? && c.pagesScanned <= maxPages.value ==> r.pagesScanned <= maxPages.value)
            && (!multi ==> r.pagesScanned <= c.pagesScanned + 1)
  {
    if !(maxPages.Some? && c.pagesScanned >= maxPages.value) {
      var f := Attempts(fetch, lastPage, page, 1, maxRetries, None);
      var s := PageStep(f, page, multi, c);
      TakenWithinSite(fetch, lastPage, maxRetries, page);
      if s.Next? {
        ScanPages(fetch, lastPage, maxRetries, maxPages, multi, page + 1, s.state);
      }
    }
  }

  /**
   * Reaching the budget ends the loop with `has_more` set, whatever the
   * pages say: a crawl whose pages keep coming stops exactly there.
   */
  lemma BudgetSetsHasMore(fetch: (int, nat) -> Attempt, lastPage: int, maxRetries: int, m: int,
                          multi: bool, page: int, c: Crawl)
    requires c.pagesScanned >= m
    ensures Scan(fetch, lastPage, maxRetries, Some(m), multi, page, c).hasMore
  {
  }

  /** What `search` returns, with the metadata it records. */
  datatype SearchOutcome = SearchOutcome(items: seq<Listing>, hasMore: bool, pagesScanned: nat,
                                         lastPageIndex: int, failure: Option<Failure>)

  function OutcomeOf(c: Crawl): SearchOutcome
  {
    SearchOutcome(c.items, c.hasMore, c.pagesScanned, c.lastPageIndex, c.failure)
  }

  /** One page with new content. */
  method TakePageStep(c: Crawl, page: int, p: ResultPage) returns (next: Crawl)
    ensures next == TakePage(c, page, p)
  {
    var unique, ids := DedupInto(p.listings, c.items, c.seenIds, PlatformIdOf, NoRewrite);
    next := Crawl(unique, ids, c.pagesScanned + 1, p.hasMore, page, Some(IdsOf(p.listings)), c.failure);
  }

  /** The loop body after the request: the error and stop checks, then the page taken. */
  method HandlePage(f: Fetched, page: int, multi: bool, c: Crawl) returns (stop: bool, next: Crawl)
    ensures stop == PageStep(f, page, multi, c).Stop? && next == PageStep(f, page, multi, c).state
  {
    if f.response.None? {
      var message := if f.error.Some? && f.error.value != "" then f.error.value else UNKNOWN_HTTP_ERROR;
      return true, c.(failure := Some(Failure(HTTP_ERROR, message)));
    }
    var resp := f.response.value;
    if resp.status >= 400 {
      return true, c.(failure := Some(Failure(HTTP_ERROR, "HTTP " + NatToString(resp.status))));
    }
    if resp.page.consentBlocked {
      return true, c.(failure := Some(Failure(CONSENT_BLOCKED, CONSENT_ERROR)));
    }
    if |resp.page.listings| == 0 || c.previousIds == Some(IdsOf(resp.page.listings)) {
      return true, c.(hasMore := false);
    }
    next := TakePageStep(c, page, resp.page);
    stop := !multi;
  }

  /** `search`: the page loop with its budget, retries and stops. */
  method Search(fetch: (int, nat) -> Attempt, lastPage: int, maxRetries: int, crawlAll: bool,
                maxPagesOverride: Option<int>, pollPages: Option<int>, pageStart: Option<int>)
    returns (r: SearchOutcome)
    ensures r == OutcomeOf(Scan(fetch, lastPage, maxRetries, MaxPages(maxPagesOverride, pollPages),
                                MultiPage(crawlAll, maxPagesOverride, pollPages), FirstPage(pageStart), START))
  {
    var maxPages := MaxPages(maxPagesOverride, pollPages);
    var multi := MultiPage(crawlAll, maxPagesOverride, pollPages);
    var c := START;
    var page := FirstPage(pageStart);
    ghost var final := Scan(fetch, lastPage, maxRetries, maxPages, multi, page, c);
    var stop := false;
    while !stop
      invariant if stop then c == final else Scan(fetch, lastPage, maxRetries, maxPages, multi, page, c) == final
      decreases !stop, lastPage + 1 - page
    {
      ScanUnfold(fetch, lastPage, maxRetries, maxPages, multi, page, c);
      if maxPages.Some? && c.pagesScanned >= maxPages.value {
        c := c.(hasMore := true);
        stop := true;
      } else {
        var f := FetchPage(fetch, lastPage, page, maxRetries);
        stop, c := HandlePage(f, page, multi, c);
        if !stop {
          page := page + 1;
        }
      }
    }
    return OutcomeOf(c);
  }

  // ---------------------------------------------------------------------
  // Relative start times
  // ---------------------------------------------------------------------

  predicate StartsWith(s: string, prefix: string)
  {
    |prefix| <= |s| && s[..|prefix|] == prefix
  }

  /** Seconds per unit of "vor N <unit>", by the unit's prefix; any other unit gives nothing. */
  function UnitSeconds(unit: string): (r: Option<nat>)
    ensures r.Some? ==> r.value in {1, 60, 3600, 86400, 604800}
    ensures r.None? <==> !(StartsWith(unit, "min") || StartsWith(unit, "sek") || StartsWith(unit, "stunde")
                          || StartsWith(unit, "tag") || StartsWith(unit, "woche"))
  {
    if StartsWith(unit, "minute") || StartsWith(unit, "min") then Some(60)
    else if StartsWith(unit, "sek") then Some(1)
    else if StartsWith(unit, "stunde") then Some(3600)
    else if StartsWith(unit, "tag") then Some(86400)
    else if StartsWith(unit, "woche") then Some(604800)
    else None
  }

  /** The start time `amount` units before the fetch time, when the unit is known. */
  function RelativeStart(amount: nat, unit: string, fetchedAt: int): (r: Option<int>)
    ensures r.Some? ==> r.value <= fetchedAt && UnitSeconds(unit).Some?
                        && fetchedAt - r.value == amount * UnitSeconds(unit).value
    ensures r.None? <==> UnitSeconds(unit).None?
  {
    match UnitSeconds(unit)
    case None => None
    case Some(sec) => Some(fetchedAt - amount * sec)
  }

  /** A prefix that differs from the text at some position is not a prefix of it. */
  lemma NotPrefix(s: string, prefix: string, k: nat)
    requires k < |prefix| && k < |s| && s[k] != prefix[k]
    ensures !StartsWith(s, prefix)
  {
    if |prefix| <= |s| {
      assert s[..|prefix|][k] == s[k];
    }
  }

  /** The German unit words as they appear lower-cased: minutes, seconds, hours, days and weeks. */
  lemma UnitWords()
    ensures UnitSeconds("minuten") == Some(60)
    ensures UnitSeconds("sekunden") == Some(1)
    ensures UnitSeconds("stunden") == Some(3600)
    ensures UnitSeconds("tagen") == Some(86400)
    ensures UnitSeconds("wochen") == Some(604800)
    ensures UnitSeconds("monaten").None?
  {
    assert "minuten"[..6] == "minute";
    NotPrefix("sekunden", "minute", 0); NotPrefix("sekunden", "min", 0);
    assert "sekunden"[..3] == "sek";
    NotPrefix("stunden", "minute", 0); NotPrefix("stunden", "min", 0); NotPrefix("stunden", "sek", 1);
    assert "stunden"[..6] == "stunde";
    NotPrefix("tagen", "minute", 0); NotPrefix("tagen", "min", 0); NotPrefix("tagen", "sek", 0);
    NotPrefix("tagen", "stunde", 0);
    assert "tagen"[..3] == "tag";
    NotPrefix("wochen", "minute", 0); NotPrefix("wochen", "min", 0); NotPrefix("wochen", "sek", 0);
    NotPrefix("wochen", "stunde", 0); NotPrefix("wochen", "tag", 0);
    assert "wochen"[..5] == "woche";
    NotPrefix("monaten", "minute", 1); NotPrefix("monaten", "min", 1); NotPrefix("monaten", "sek", 0);
    NotPrefix("monaten", "stunde", 0); NotPrefix("monaten", "tag", 0); NotPrefix("monaten", "woche", 0);
  }
}
