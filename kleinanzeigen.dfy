/**
 * The kleinanzeigen.de provider: the request throttle (block and CAPTCHA
 * cooldowns, recovery, the pending event queue, the health note), the
 * search URL and the candidate paths tried for a page, the platform id
 * taken from a listing URL, and the search page loop.
 *
 * Clock readings are whole UTC seconds passed in as `now`; the configured
 * back-off lengths are whole minutes or hours.  What the network layer did
 * for a page (the parsed organic listings, or why no page came back and
 * what `_last_error` it left) is an input of the loop.
 */
module Kleinanzeigen {
  import opened Wrappers
  import opened Chars
  import opened Models
  import opened Dedupe
  import opened Database
  import Text

  const BASE_URL: string := "https://www.kleinanzeigen.de"

  /** The CAPTCHA cooldown never exceeds eight hours. */
  const CAPTCHA_CAP_MINUTES: nat := 480

  // ---------------------------------------------------------------------
  // Back-off arithmetic
  // ---------------------------------------------------------------------

  function Min(a: int, b: int): int { if a <= b then a else b }
  function Max(a: int, b: int): int { if a >= b then a else b }

  function Pow2(n: nat): (r: nat)
    ensures r >= 1
  {
    if n == 0 then 1 else 2 * Pow2(n - 1)
  }

  /** The HTTP 429 cooldown in minutes: `max(backoff, 1) * 2 ** min(exp, 3)`. */
  function Block429Minutes(backoffMinutes: nat, exp: nat): nat
  {
    Max(backoffMinutes, 1) * Pow2(Min(exp, 3))
  }

  /** The 429 cooldown is between one and eight times the configured length, doubling per step up to three. */
  lemma Block429Range(backoffMinutes: nat, exp: nat)
    ensures var m := Block429Minutes(backoffMinutes, exp);
            && 1 <= Max(backoffMinutes, 1) <= m <= 8 * Max(backoffMinutes, 1)
            && (exp == 0 ==> m == Max(backoffMinutes, 1))
            && (exp >= 3 ==> m == 8 * Max(backoffMinutes, 1))
            && m <= Block429Minutes(backoffMinutes, exp + 1)
  {
    assert Pow2(3) == 8;
    if exp < 3 {
      assert Pow2(Min(exp + 1, 3)) == 2 * Pow2(Min(exp, 3));
      assert Pow2(Min(exp, 3)) <= Pow2(3) by {
        if exp == 1 { assert Pow2(1) == 2; }
        if exp == 2 { assert Pow2(2) == 4; }
      }
    }
  }

  /** The CAPTCHA cooldown in minutes: the doubled base, at least the base, at most eight hours. */
  function CaptchaMinutes(baseMinutes: nat, exp: nat): nat
  {
    Min(Max(baseMinutes, baseMinutes * Pow2(Min(exp, 3))), CAPTCHA_CAP_MINUTES)
  }

  /** The CAPTCHA cooldown lies in [base, 480] (or is 480 for a larger base) and never shrinks as `exp` grows. */
  lemma CaptchaMinutesRange(baseMinutes: nat, exp: nat)
    ensures var m := CaptchaMinutes(baseMinutes, exp);
            && m <= CAPTCHA_CAP_MINUTES
            && m == Min(baseMinutes * Pow2(Min(exp, 3)), CAPTCHA_CAP_MINUTES)
            && Min(baseMinutes, CAPTCHA_CAP_MINUTES) <= m
            && (exp == 0 ==> m == Min(baseMinutes, CAPTCHA_CAP_MINUTES))
            && (exp >= 3 ==> m == Min(8 * baseMinutes, CAPTCHA_CAP_MINUTES))
            && m <= CaptchaMinutes(baseMinutes, exp + 1)
  {
    assert Pow2(3) == 8;
    var p := Pow2(Min(exp, 3));
    assert baseMinutes <= baseMinutes * p;
    if exp < 3 {
      assert Pow2(Min(exp + 1, 3)) == 2 * p;
    }
  }

  /** `_can_attempt_request`: no cooldown, or the cooldown has run out. */
  function CanAttempt(cooldownUntil: Option<int>, now: int): bool
  {
    cooldownUntil.None? || now >= cooldownUntil.value
  }

  /** The minutes shown for a running cooldown: the whole minutes left, but at least one. */
  function RemainingMinutes(until: int, now: int): (m: int)
    requires now < until
    ensures m >= 1
    ensures until - now >= 60 ==> m * 60 <= until - now < m * 60 + 60
    ensures until - now < 60 ==> m == 1
  {
    Max(1, (until - now) / 60)
  }

  // ---------------------------------------------------------------------
  // Events and provider state
  // ---------------------------------------------------------------------

  datatype CaptchaState = Clear | Entered

  /** Where a CAPTCHA was met: query, page, the URL (`final_url or url`), status and time. */
  datatype Probe = Probe(query: Option<string>, page: Option<int>, url: Option<string>,
                         status: Option<int>, detectedAt: int)

  /** The pending events the provider hands to the search service. */
  datatype Event =
    | CaptchaEntered(firstSeen: int, cooldownMinutes: nat, cooldownUntil: int)
    | Recaptcha(probe: Probe)
    | CaptchaLog(probe: Probe)
    | CaptchaRecovered(seenAt: Option<int>, recoveredAt: int)

  /** Python's `a or b` on optional URLs: an empty or missing first one falls through. */
  function OrUrl(a: Option<string>, b: Option<string>): (r: Option<string>)
    ensures r == a || r == b
    ensures a.Some? && a.value != "" ==> r == a
  {
    if a.Some? && a.value != "" then a else b
  }

  /** `text or default` for the optional `_last_error`. */
  function OrText(text: Option<string>, default: string): (r: string)
    requires default != ""
    ensures r != ""
    ensures text.Some? && text.value != "" ==> r == text.value
    ensures (text.None? || text.value == "") ==> r == default
  {
    if text.Some? && text.value != "" then text.value else default
  }

  /** Python's `str` on an integer. */
  function IntText(n: int): string
  {
    if n >= 0 then NatToString(n) else "-" + NatToString(-n)
  }

  /** Python's `f"{status}"` on an optional status code. */
  function StatusText(status: Option<int>): string
  {
    match status
    case Some(n) => IntText(n)
    case None => "None"
  }

  /** The configured mode: `http` or `playwright`, anything else falls back to `playwright`. */
  function ModeOf(raw: string): (m: string)
    ensures m == "http" || m == "playwright"
    ensures raw == "http" || raw == "playwright" ==> m == raw
  {
    if raw == "http" || raw == "playwright" then raw else "playwright"
  }

  // ---------------------------------------------------------------------
  // Search URLs
  // ---------------------------------------------------------------------

  /** `build_search_url` for an already slugified keyword. */
  function BuildSearchUrl(slug: string, page: int): string
  {
    BASE_URL + (if page <= 1 then "/s-" + slug + "/" else "/s-seite:" + NatToString(page) + "/" + slug + "/")
  }

  /** `slug or "suche"`. */
  function SlugOr(slug: string): (r: string)
    ensures r != ""
    ensures slug != "" ==> r == slug
  {
    if slug == "" then "suche" else slug
  }

  /** The four paths tried for a page, in order. */
  function RawPaths(slug: string, page: int): seq<string>
  {
    if page <= 1 then
      ["/s-" + slug + "/", "/s-" + slug + "/k0", "/s-suchanfrage/" + slug + "/k0", "/s/" + slug + "/k0"]
    else
      var p := NatToString(page);
      ["/s-seite:" + p + "/" + slug + "/", "/s-seite:" + p + "/" + slug + "/k0",
       "/s-seite:" + p + "/suchanfrage-" + slug + "/k0", "/s/" + slug + "/k0/seite:" + p]
  }

  /** The list with later repeats dropped, as the `if path not in candidates` loop builds it. */
  function Distinct(raw: seq<string>): (r: seq<string>)
    ensures NoDuplicates(r)
    ensures forall x :: x in r <==> x in raw
  {
    if |raw| == 0 then []
    else
      var d := Distinct(raw[..|raw| - 1]);
      var x := raw[|raw| - 1];
      assert forall y :: y in raw <==> y in raw[..|raw| - 1] || y == x by {
        assert raw == raw[..|raw| - 1] + [x];
      }
      if x in d then d else d + [x]
  }

  /** A list without repeats is its own de-duplication. */
  lemma {:induction false} DistinctOfDistinct(raw: seq<string>)
    requires NoDuplicates(raw)
    ensures Distinct(raw) == raw
  {
    if |raw| > 0 {
      var q := raw[..|raw| - 1];
      assert NoDuplicates(q) by {
        forall i, j | 0 <= i < j < |q| ensures q[i] != q[j] {
          assert q[i] == raw[i] && q[j] == raw[j];
        }
      }
      DistinctOfDistinct(q);
      assert raw[|raw| - 1] !in q by {
        forall k | 0 <= k < |q| ensures q[k] != raw[|raw| - 1] {
          assert q[k] == raw[k];
        }
      }
      assert raw == q + [raw[|raw| - 1]];
    }
  }

  /** The four raw paths are always different, so none is dropped. */
  lemma RawPathsDistinct(slug: string, page: int)
    ensures NoDuplicates(RawPaths(slug, page))
  {
    var r := RawPaths(slug, page);
    if page <= 1 {
      assert r[1][2] == '-' && r[3][2] == '/';
    } else {
      assert r[1][2] == '-' && r[3][2] == '/';
    }
  }

  /** `_candidate_paths`: the four paths for the page, de-duplicated in order. */
  method CandidatePaths(slug: string, page: int) returns (candidates: seq<string>)
    ensures candidates == RawPaths(SlugOr(slug), page)
    ensures |candidates| == 4 && NoDuplicates(candidates)
  {
    var raw := RawPaths(SlugOr(slug), page);
    candidates := [];
    var i := 0;
    while i < |raw|
      invariant 0 <= i <= |raw|
      invariant candidates == Distinct(raw[..i])
    {
      assert raw[..i + 1][..i] == raw[..i];
      if raw[i] !in candidates {
        candidates := candidates + [raw[i]];
      }
      i := i + 1;
    }
    assert raw[..i] == raw;
    RawPathsDistinct(SlugOr(slug), page);
    DistinctOfDistinct(raw);
  }

  /** The first candidate is the path of `build_search_url`. */
  lemma FirstCandidateIsSearchUrl(slug: string, page: int)
    requires slug != ""
    ensures BASE_URL + RawPaths(SlugOr(slug), page)[0] == BuildSearchUrl(slug, page)
  {
  }

  // ---------------------------------------------------------------------
  // Platform ids
  // ---------------------------------------------------------------------

  /** The five characters from `k` are all digits: `\d{5,}` can start there. */
  predicate FiveDigitsAt(s: string, k: int)
  {
    0 <= k && k + 5 <= |s| && AllDigits(s[k..k + 5])
  }

  /** `re.search(r"(\d{5,})", s[i:])`: the first maximal run of at least five digits from `i`. */
  function LongDigitRunFrom(s: string, i: nat): (r: Option<string>)
    requires i <= |s|
    decreases |s| - i
    ensures r.Some? ==> |r.value| >= 5 && AllDigits(r.value) && exists k :: i <= k && OccursAt(s, r.value, k)
    ensures r.None? <==> forall k :: i <= k ==> !FiveDigitsAt(s, k)
  {
    if i == |s| then None
    else if !IsDigit(s[i]) then
      assert !FiveDigitsAt(s, i) by {
        if i + 5 <= |s| { assert s[i..i + 5][0] == s[i]; }
      }
      LongDigitRunFrom(s, i + 1)
    else
      var j := DigitRunEnd(s, i);
      if j - i >= 5 then
        assert OccursAt(s, s[i..j], i);
        assert FiveDigitsAt(s, i) by {
          var w := s[i..i + 5];
          forall t | 0 <= t < |w| ensures IsDigit(w[t]) {
            assert w[t] == s[i + t];
          }
        }
        Some(s[i..j])
      else
        assert forall k :: i <= k < j ==> !FiveDigitsAt(s, k) by {
          forall k | i <= k < j ensures !FiveDigitsAt(s, k) {
            if k + 5 <= |s| {
              assert s[k..k + 5][j - k] == s[j];
            }
          }
        }
        LongDigitRunFrom(s, j)
  }

  /**
   * `r` is what `re.search` returns from `i`: it starts at `k`, the first
   * position at or after `i` where five digits begin, and runs to the end
   * of the digits there.
   */
  predicate FirstRunAt(s: string, i: nat, r: string, k: nat)
  {
    && i <= k && OccursAt(s, r, k) && FiveDigitsAt(s, k)
    && (forall j :: i <= j < k ==> !FiveDigitsAt(s, j))
    && (k + |r| == |s| || !IsDigit(s[k + |r|]))
  }

  /** The run found from `i` is the leftmost and longest one. */
  lemma {:induction false} LongDigitRunFromFirst(s: string, i: nat) returns (k: nat)
    requires i <= |s| && LongDigitRunFrom(s, i).Some?
    decreases |s| - i
    ensures FirstRunAt(s, i, LongDigitRunFrom(s, i).value, k)
  {
    if !IsDigit(s[i]) {
      assert !FiveDigitsAt(s, i) by {
        if i + 5 <= |s| { assert s[i..i + 5][0] == s[i]; }
      }
      k := LongDigitRunFromFirst(s, i + 1);
    } else {
      var j := DigitRunEnd(s, i);
      if j - i >= 5 {
        k := i;
        assert s[i..j] == LongDigitRunFrom(s, i).value;
        assert i + |s[i..j]| == j;
      } else {
        assert forall m :: i <= m < j ==> !FiveDigitsAt(s, m) by {
          forall m | i <= m < j ensures !FiveDigitsAt(s, m) {
            if m + 5 <= |s| {
              assert s[m..m + 5][j - m] == s[j];
            }
          }
        }
        k := LongDigitRunFromFirst(s, j);
      }
    }
  }

  /** The non-empty segments of a URL path. */
  function PathParts(path: string): (r: seq<string>)
    ensures forall k :: 0 <= k < |r| ==> r[k] != ""
  {
    NonEmpty(Text.SplitOn(path, '/'))
  }

  function NonEmpty(parts: seq<string>): (r: seq<string>)
    ensures forall k :: 0 <= k < |r| ==> r[k] != ""
    ensures forall x :: x in r <==> x in parts && x != ""
  {
    if |parts| == 0 then []
    else
      var q := NonEmpty(parts[..|parts| - 1]);
      var x := parts[|parts| - 1];
      assert forall y :: y in parts <==> y in parts[..|parts| - 1] || y == x by {
        assert parts == parts[..|parts| - 1] + [x];
      }
      if x == "" then q else q + [x]
  }

  /** The id found scanning the parts from the last one back; there is none exactly when no part has a run. */
  function IdFromParts(parts: seq<string>): (r: Option<string>)
    ensures r.Some? ==> |r.value| >= 5 && AllDigits(r.value)
    ensures r.None? <==> forall p :: 0 <= p < |parts| ==> LongDigitRunFrom(parts[p], 0).None?
  {
    if |parts| == 0 then None
    else
      var q := parts[..|parts| - 1];
      assert forall p :: 0 <= p < |q| ==> q[p] == parts[p];
      match LongDigitRunFrom(parts[|parts| - 1], 0)
      case Some(id) => Some(id)
      case None => IdFromParts(q)
  }

  /** Part `p` has the run `id`, and no later part has one. */
  predicate LastWithRun(parts: seq<string>, p: int, id: Option<string>)
  {
    && 0 <= p < |parts| && LongDigitRunFrom(parts[p], 0) == id
    && forall q :: p < q < |parts| ==> LongDigitRunFrom(parts[q], 0).None?
  }

  /** A part that is the last with a run stays so when a part without one is added behind. */
  lemma LastWithRunExtend(parts: seq<string>, p: int, id: Option<string>)
    requires |parts| > 0 && LongDigitRunFrom(parts[|parts| - 1], 0).None?
    requires LastWithRun(parts[..|parts| - 1], p, id)
    ensures LastWithRun(parts, p, id)
  {
    var q := parts[..|parts| - 1];
    assert q[p] == parts[p];
    forall t | p < t < |parts| ensures LongDigitRunFrom(parts[t], 0).None? {
      if t < |parts| - 1 { assert q[t] == parts[t]; }
    }
  }

  /** The id is the run of the last path part that has one. */
  lemma {:induction false} IdIsLastMatch(parts: seq<string>)
    requires IdFromParts(parts).Some?
    ensures exists p :: LastWithRun(parts, p, IdFromParts(parts))
  {
    var last := |parts| - 1;
    if LongDigitRunFrom(parts[last], 0).None? {
      var q := parts[..last];
      IdIsLastMatch(q);
      var p :| LastWithRun(q, p, IdFromParts(q));
      LastWithRunExtend(parts, p, IdFromParts(q));
    } else {
      assert LastWithRun(parts, last, IdFromParts(parts));
    }
  }

  /** The digits before the suffix of the last part are the id. */
  lemma PlatformIdExample()
    ensures IdFromParts(["s-anzeige", "foo", "1234567890-0"]) == Some("1234567890")
  {
    var parts := ["s-anzeige", "foo", "1234567890-0"];
    var s := parts[2];
    assert !IsDigit(s[10]);
    assert DigitRunEnd(s, 0) == 10 by {
      assert DigitRunEnd(s, 10) == 10;
    }
    assert s[0..10] == "1234567890";
    assert LongDigitRunFrom(s, 0) == Some("1234567890");
  }

  /** `_extract_platform_id` on the path of a listing URL. */
  method ExtractPlatformId(path: string) returns (id: Option<string>)
    ensures id == IdFromParts(PathParts(path))
  {
    var parts := PathParts(path);
    var i := |parts|;
    assert parts[..i] == parts;
    while i > 0
      invariant 0 <= i <= |parts|
      invariant IdFromParts(parts) == IdFromParts(parts[..i])
    {
      assert parts[..i][..i - 1] == parts[..i - 1];
      var found := LongDigitRunFrom(parts[i - 1], 0);
      if found.Some? {
        return found;
      }
      i := i - 1;
    }
    return None;
  }

  // ---------------------------------------------------------------------
  // The search page loop
  // ---------------------------------------------------------------------

  /** Why the network layer brought no page back. */
  datatype Reason = NotFound | CaptchaWall | ConsentWall | Block | Network | OtherFailure

  /** One page fetch: the organic listings parsed from it, or the failure and the `_last_error` left behind. */
  datatype PageFetch =
    | Page(organic: seq<Listing>)
    | Failed(reason: Reason, status: Option<int>, finalUrl: string, lastError: Option<string>)

  /** The error message the loop records for a failed page; never empty. */
  function FailureMessage(f: PageFetch): (msg: string)
    requires f.Failed?
    ensures msg != ""
    ensures (f.reason in {Block, Network, OtherFailure} && f.lastError.Some? && f.lastError.value != "")
              ==> msg == f.lastError.value
  {
    match f.reason
    case NotFound => "Suchpfad nicht g\U{FC}ltig (HTTP " + StatusText(f.status) + ") \U{2013} " + f.finalUrl
    case CaptchaWall => "Bot-Schutz aktiv \U{2013} Kleinanzeigen hat die Anfrage blockiert."
    case ConsentWall => "Consent-Seite blockiert die Suche."
    case Block => OrText(f.lastError, "Anfrage blockiert (HTTP " + StatusText(f.status) + ").")
    case Network => OrText(f.lastError, "Netzwerkfehler bei Kleinanzeigen.")
    case OtherFailure => OrText(f.lastError, "Unbekannter Suchfehler bei Kleinanzeigen.")
  }

  /** The page budget: the override, or 120 for a full crawl and 1 otherwise, clamped to [1, 200]. */
  function MaxPages(maxPagesOverride: Option<int>, crawlAll: bool): (r: int)
    ensures 1 <= r <= 200
    ensures maxPagesOverride.Some? && 1 <= maxPagesOverride.value <= 200 ==> r == maxPagesOverride.value
    ensures (maxPagesOverride.None? || maxPagesOverride.value == 0) ==> r == (if crawlAll then 120 else 1)
  {
    var raw := if maxPagesOverride.Some? && maxPagesOverride.value != 0 then maxPagesOverride.value
               else if crawlAll then 120 else 1;
    Max(1, Min(raw, 200))
  }

  /** The loop's variables: items, the ids seen this run, counters, and the last error. */
  datatype Crawl = Crawl(items: seq<Listing>, seenIds: set<string>, pagesScanned: nat, hasMore: bool,
                         lastPageIndex: Option<int>, error: Option<string>, lastError: Option<string>)

  function StartCrawl(lastError: Option<string>): Crawl
  {
    Crawl([], {}, 0, false, None, None, lastError)
  }

  /** What one fetched page does to the loop's variables. */
  function TakePage(c: Crawl, organic: seq<Listing>, page: int, maxPages: int): Crawl
  {
    var kept := Dedup(organic, c.seenIds, PlatformIdOf, NoRewrite);
    // the network layer clears `_last_error` on every page it returns
    var c1 := c.(seenIds := c.seenIds + KeySet(organic, PlatformIdOf), lastError := None);
    var c2 := if |kept| > 0
              then c1.(pagesScanned := c.pagesScanned + 1, items := c.items + kept, lastPageIndex := Some(page))
              else c1;
    c2.(hasMore := |organic| > 0 && page < maxPages)
  }

  /**
   * The page loop from `page` on: a failure records its message and ends
   * the loop; otherwise the page's new listings are kept, and the loop goes
   * on only in multi-page mode and only after a page with organic items.
   */
  function Scan(fetch: int -> PageFetch, page: int, maxPages: int, multi: bool, c: Crawl): Crawl
    decreases maxPages - page
  {
    if page > maxPages then c
    else match fetch(page)
      case Failed(_, _, _, _) =>
        var msg := FailureMessage(fetch(page));
        c.(error := Some(msg), lastError := Some(msg))
      case Page(organic) =>
        var c' := TakePage(c, organic, page, maxPages);
        if !multi || |organic| == 0 then c' else Scan(fetch, page + 1, maxPages, multi, c')
  }

  /** A page keeps the listed items unique by platform id and its ids all recorded. */
  lemma TakePageUnique(c: Crawl, organic: seq<Listing>, page: int, maxPages: int)
    requires DistinctKeys(c.items, PlatformIdOf) && KeySet(c.items, PlatformIdOf) <= c.seenIds
    ensures var c' := TakePage(c, organic, page, maxPages);
            && DistinctKeys(c'.items, PlatformIdOf) && KeySet(c'.items, PlatformIdOf) <= c'.seenIds
  {
    DedupExtends(c.items, organic, c.seenIds, PlatformIdOf);
  }

  /** Items stay unique by platform id over the whole loop. */
  lemma {:induction false} ScanUnique(fetch: int -> PageFetch, page: int, maxPages: int, multi: bool, c: Crawl)
    requires DistinctKeys(c.items, PlatformIdOf) && KeySet(c.items, PlatformIdOf) <= c.seenIds
    decreases maxPages - page
    ensures var r := Scan(fetch, page, maxPages, multi, c);
            DistinctKeys(r.items, PlatformIdOf) && KeySet(r.items, PlatformIdOf) <= r.seenIds
  {
    if page <= maxPages && fetch(page).Page? {
      TakePageUnique(c, fetch(page).organic, page, maxPages);
      if multi && |fetch(page).organic| > 0 {
        ScanUnique(fetch, page + 1, maxPages, multi, TakePage(c, fetch(page).organic, page, maxPages));
      }
    }
  }

  /**
   * Pages are counted only when they add an item: the count grows by at
   * most one per visited page, never beyond the items added, and the
   * earlier items stay in front.
   */
  lemma {:induction false} ScanCounts(fetch: int -> PageFetch, page: int, maxPages: int, multi: bool, c: Crawl)
    decreases maxPages - page
    ensures var r := Scan(fetch, page, maxPages, multi, c);
            && c.items <= r.items
            && c.pagesScanned <= r.pagesScanned
            && r.pagesScanned - c.pagesScanned <= |r.items| - |c.items|
            && r.pagesScanned - c.pagesScanned <= Max(0, maxPages - page + 1)
            && (!multi ==> r.pagesScanned <= c.pagesScanned + 1)
  {
    if page <= maxPages && fetch(page).Page? {
      var c' := TakePage(c, fetch(page).organic, page, maxPages);
      if multi && |fetch(page).organic| > 0 {
        ScanCounts(fetch, page + 1, maxPages, multi, c');
      }
    }
  }

  /** The page that ends the loop: a failure, a page without organic items, or the first page in single-page mode. */
  predicate EndsLoop(f: PageFetch, multi: bool)
  {
    !multi || f.Failed? || |f.organic| == 0
  }

  /** Nothing after the page that ends the loop is ever looked at. */
  lemma {:induction false} ScanStopsAtEnd(fetch: int -> PageFetch, fetch': int -> PageFetch, page: int,
                                           stop: int, maxPages: int, multi: bool, c: Crawl)
    requires page <= stop && EndsLoop(fetch(stop), multi)
    requires forall q :: page <= q <= stop ==> fetch(q) == fetch'(q)
    decreases stop - page
    ensures Scan(fetch, page, maxPages, multi, c) == Scan(fetch', page, maxPages, multi, c)
  {
    assert fetch(page) == fetch'(page);
    if page <= maxPages && fetch(page).Page? && multi && |fetch(page).organic| > 0 {
      assert page < stop;
      ScanStopsAtEnd(fetch, fetch', page + 1, stop, maxPages, multi, TakePage(c, fetch(page).organic, page, maxPages));
    }
  }

  /** A failed page ends the loop with its message as the error and as `_last_error`. */
  lemma {:induction false} ScanErrorIsLast(fetch: int -> PageFetch, page: int, maxPages: int, multi: bool, c: Crawl)
    requires c.error.None?
    decreases maxPages - page
    ensures var r := Scan(fetch, page, maxPages, multi, c);
            && (r.error.Some? ==>
                  && r.lastError == r.error && r.error.value != ""
                  && exists q :: page <= q <= maxPages && fetch(q).Failed? && r.error == Some(FailureMessage(fetch(q))))
  {
    if page <= maxPages && fetch(page).Page? {
      var c' := TakePage(c, fetch(page).organic, page, maxPages);
      if multi && |fetch(page).organic| > 0 {
        ScanErrorIsLast(fetch, page + 1, maxPages, multi, c');
      }
    }
  }

  /** One fetched page: the filter loop over its listings, then the counters. */
  method TakePageStep(c: Crawl, organic: seq<Listing>, page: int, maxPages: int) returns (next: Crawl)
    ensures next == TakePage(c, organic, page, maxPages)
  {
    var filtered, ids := DedupInto(organic, [], c.seenIds, PlatformIdOf, NoRewrite);
    next := c.(seenIds := ids, lastError := None);
    if |filtered| > 0 {
      next := next.(pagesScanned := c.pagesScanned + 1, items := c.items + filtered, lastPageIndex := Some(page));
    }
    next := next.(hasMore := |organic| > 0 && page < maxPages);
  }

  /** The loop of `search`, over the fetched pages. */
  method ScanPages(fetch: int -> PageFetch, maxPages: int, multi: bool, lastError: Option<string>)
    returns (c: Crawl)
    ensures c == Scan(fetch, 1, maxPages, multi, StartCrawl(lastError))
  {
    c := StartCrawl(lastError);
    ghost var final := Scan(fetch, 1, maxPages, multi, c);
    var page := 1;
    while page <= maxPages
      invariant Scan(fetch, page, maxPages, multi, c) == final
      decreases maxPages - page
    {
      var f := fetch(page);
      if f.Failed? {
        var msg := FailureMessage(f);
        c := c.(error := Some(msg), lastError := Some(msg));
        return;
      }
      c := TakePageStep(c, f.organic, page, maxPages);
      if !multi || |f.organic| == 0 {
        return;
      }
      page := page + 1;
    }
  }

  /** The outcome of `search` the rest of the bot reads. */
  datatype SearchOutcome = SearchOutcome(items: seq<Listing>, hasMore: bool, pagesScanned: nat,
                                         lastPageIndex: Option<int>, error: Option<string>)

  const NO_RESULT: SearchOutcome := SearchOutcome([], false, 0, None, None)

  function OutcomeOf(c: Crawl): SearchOutcome
  {
    SearchOutcome(c.items, c.hasMore, c.pagesScanned, c.lastPageIndex, c.error)
  }

  /** A run's items are unique by platform id, and its page count is bounded by the budget and the items. */
  lemma SearchOutcomeShape(fetch: int -> PageFetch, maxPages: int, multi: bool, lastError: Option<string>)
    ensures var r := OutcomeOf(Scan(fetch, 1, maxPages, multi, StartCrawl(lastError)));
            && DistinctKeys(r.items, PlatformIdOf)
            && r.pagesScanned <= |r.items|
            && r.pagesScanned <= Max(0, maxPages)
            && (!multi ==> r.pagesScanned <= 1)
  {
    ScanUnique(fetch, 1, maxPages, multi, StartCrawl(lastError));
    ScanCounts(fetch, 1, maxPages, multi, StartCrawl(lastError));
  }

  // ---------------------------------------------------------------------
  // The provider
  // ---------------------------------------------------------------------

  class Provider {
    const enabled: bool
    const mode: string
    const blockIfConsentFail: bool
    /** `KA_BACKOFF_429_MIN`, `KA_BACKOFF_403_HOURS`, `KA_COOLDOWN_ON_CAPTCHA_MIN`. */
    const backoff429Minutes: nat
    const backoff403Hours: nat
    const captchaCooldownMinutes: nat

    var captchaState: CaptchaState
    var captchaSeenAt: Option<int>
    var cooldownUntil: Option<int>
    var backoffExp: nat
    var pendingEvents: seq<Event>
    var lastError: Option<string>
    var consentStatus: string
    var resolverUsed: string

    /** A fresh provider: no CAPTCHA, no cooldown, no events; the defaults are 20 minutes, 6 hours and 45 minutes. */
    constructor(enabled: bool, rawMode: string, blockIfConsentFail: bool,
                backoff429Minutes: nat, backoff403Hours: nat, captchaCooldownMinutes: nat)
      ensures this.enabled == enabled && mode == ModeOf(rawMode) && this.blockIfConsentFail == blockIfConsentFail
      ensures this.backoff429Minutes == backoff429Minutes && this.backoff403Hours == backoff403Hours
      ensures this.captchaCooldownMinutes == captchaCooldownMinutes
      ensures captchaState == Clear && captchaSeenAt.None? && cooldownUntil.None? && backoffExp == 0
      ensures pendingEvents == [] && lastError.None?
      ensures consentStatus == "not_detected" && resolverUsed == mode
    {
      this.enabled := enabled;
      mode := ModeOf(rawMode);
      this.blockIfConsentFail := blockIfConsentFail;
      this.backoff429Minutes := backoff429Minutes;
      this.backoff403Hours := backoff403Hours;
      this.captchaCooldownMinutes := captchaCooldownMinutes;
      captchaState := Clear;
      captchaSeenAt := None;
      cooldownUntil := None;
      backoffExp := 0;
      pendingEvents := [];
      lastError := None;
      consentStatus := "not_detected";
      resolverUsed := ModeOf(rawMode);
    }

    /** `_handle_block`: 429 and 403 start a cooldown, any other status only records itself. */
    method HandleBlock(status: nat, now: int)
      modifies this
      ensures status == 429 ==>
                cooldownUntil == Some(now + 60 * Block429Minutes(backoff429Minutes, backoffExp))
                && lastError == Some("HTTP 429 \U{2013} cooldown " + NatToString(Block429Minutes(backoff429Minutes, backoffExp)) + " min")
      ensures status == 403 ==>
                cooldownUntil == Some(now + 3600 * Max(backoff403Hours, 1))
                && lastError == Some("HTTP 403 \U{2013} access denied")
      ensures status != 429 && status != 403 ==>
                cooldownUntil == old(cooldownUntil) && lastError == Some("HTTP " + NatToString(status))
      ensures (status == 429 || status == 403) ==> !CanAttempt(cooldownUntil, now)
      ensures captchaState == old(captchaState) && captchaSeenAt == old(captchaSeenAt)
      ensures backoffExp == old(backoffExp) && pendingEvents == old(pendingEvents)
      ensures consentStatus == old(consentStatus) && resolverUsed == old(resolverUsed)
    {
      if status == 429 {
        var minutes := Block429Minutes(backoff429Minutes, backoffExp);
        Block429Range(backoff429Minutes, backoffExp);
        cooldownUntil := Some(now + 60 * minutes);
        lastError := Some("HTTP 429 \U{2013} cooldown " + NatToString(minutes) + " min");
      } else if status == 403 {
        cooldownUntil := Some(now + 3600 * Max(backoff403Hours, 1));
        lastError := Some("HTTP 403 \U{2013} access denied");
      } else {
        lastError := Some("HTTP " + NatToString(status));
      }
    }

    /**
     * `_handle_captcha_detected`: a first detection resets the exponent and
     * records when it was seen, a repeat doubles the cooldown; the state is
     * entered; a first detection queues three events, a repeat two.
     */
    method HandleCaptchaDetected(query: Option<string>, page: Option<int>, url: Option<string>,
                                 finalUrl: Option<string>, status: Option<int>, now: int)
      modifies this
      ensures old(captchaState) != Entered ==> backoffExp == 0 && captchaSeenAt == Some(now)
      ensures old(captchaState) == Entered ==> backoffExp == old(backoffExp) + 1 && captchaSeenAt == old(captchaSeenAt)
      ensures cooldownUntil == Some(now + 60 * CaptchaMinutes(captchaCooldownMinutes, backoffExp))
      ensures captchaState == Entered && lastError == Some("captcha_detected")
      ensures var probe := Probe(query, page, OrUrl(finalUrl, url), status, now);
              var m := CaptchaMinutes(captchaCooldownMinutes, backoffExp);
              pendingEvents == old(pendingEvents)
                               + (if old(captchaState) != Entered then [CaptchaEntered(now, m, now + 60 * m)] else [])
                               + [Recaptcha(probe), CaptchaLog(probe)]
      ensures |pendingEvents| == |old(pendingEvents)| + (if old(captchaState) != Entered then 3 else 2)
      ensures captchaCooldownMinutes > 0 ==> !CanAttempt(cooldownUntil, now)
      ensures consentStatus == old(consentStatus) && resolverUsed == old(resolverUsed)
    {
      var stateChanged := captchaState != Entered;
      if stateChanged {
        backoffExp := 0;
        captchaSeenAt := Some(now);
      } else {
        backoffExp := backoffExp + 1;
      }
      var minutes := CaptchaMinutes(captchaCooldownMinutes, backoffExp);
      CaptchaMinutesRange(captchaCooldownMinutes, backoffExp);
      cooldownUntil := Some(now + 60 * minutes);
      captchaState := Entered;
      lastError := Some("captcha_detected");
      if stateChanged {
        pendingEvents := pendingEvents + [CaptchaEntered(now, minutes, now + 60 * minutes)];
      }
      var probe := Probe(query, page, OrUrl(finalUrl, url), status, now);
      pendingEvents := pendingEvents + [Recaptcha(probe)];
      pendingEvents := pendingEvents + [CaptchaLog(probe)];
    }

    /** `_handle_captcha_recovered`: out of the entered state, everything is cleared and one event queued. */
    method HandleCaptchaRecovered(now: int)
      modifies this
      ensures old(captchaState) != Entered ==>
                captchaState == old(captchaState) && captchaSeenAt == old(captchaSeenAt)
                && cooldownUntil == old(cooldownUntil) && backoffExp == old(backoffExp)
                && pendingEvents == old(pendingEvents) && lastError == old(lastError)
      ensures old(captchaState) == Entered ==>
                captchaState == Clear && backoffExp == 0 && captchaSeenAt.None? && cooldownUntil.None?
                && lastError.None? && pendingEvents == old(pendingEvents) + [CaptchaRecovered(old(captchaSeenAt), now)]
                && CanAttempt(cooldownUntil, now)
      ensures consentStatus == old(consentStatus) && resolverUsed == old(resolverUsed)
    {
      if captchaState != Entered {
        return;
      }
      pendingEvents := pendingEvents + [CaptchaRecovered(captchaSeenAt, now)];
      captchaState := Clear;
      backoffExp := 0;
      captchaSeenAt := None;
      cooldownUntil := None;
      lastError := None;
    }

    /** `_drain_events`: the queued events in order, leaving the queue empty. */
    method DrainEvents() returns (events: seq<Event>)
      modifies this
      ensures events == old(pendingEvents) && pendingEvents == []
      ensures captchaState == old(captchaState) && captchaSeenAt == old(captchaSeenAt)
      ensures cooldownUntil == old(cooldownUntil) && backoffExp == old(backoffExp)
      ensures lastError == old(lastError)
      ensures consentStatus == old(consentStatus) && resolverUsed == old(resolverUsed)
    {
      events := pendingEvents;
      pendingEvents := [];
    }

    /** A cooldown that has not run out yet. */
    predicate Cooling(now: int)
      reads this
    {
      !CanAttempt(cooldownUntil, now)
    }

    /** `_health_note`: the status line shown to the admin. */
    function HealthNote(now: int): (note: string)
      reads this
      ensures !enabled ==> note == "Deaktiviert"
    {
      if !enabled then "Deaktiviert"
      else if captchaState == Entered then
        if Cooling(now)
        then "Captcha erkannt \U{2014} Pause aktiv (" + IntText(RemainingMinutes(cooldownUntil.value, now)) + " min)"
        else "Captcha erkannt \U{2014} Pause beendet"
      else if Cooling(now) then "Cooldown aktiv (" + IntText(RemainingMinutes(cooldownUntil.value, now)) + " min)"
      else if consentStatus == "blocked" then "Consent blockiert"
      else if consentStatus == "resolved" then
        if resolverUsed == "playwright" then "Consent OK (Playwright)" else "Consent OK"
      else if consentStatus == "not_detected" then "Consent nicht erforderlich"
      else "Status unbekannt"
    }

    /**
     * `search`: nothing when disabled, cooling down, or when the warm-up
     * failed and consent failures block; otherwise the page loop under the
     * clamped budget.  The queued events are handed back and the queue is
     * left empty.
     */
    method Search(crawlAll: bool, sampleMode: bool, maxPagesOverride: Option<int>, prepared: bool,
                  fetch: int -> PageFetch, now: int)
      returns (r: SearchOutcome, events: seq<Event>)
      modifies this
      ensures events == old(pendingEvents) && pendingEvents == []
      ensures consentStatus == "not_detected" && resolverUsed == mode
      ensures !enabled || !CanAttempt(old(cooldownUntil), now) || (!prepared && blockIfConsentFail) ==>
                r == NO_RESULT && lastError == old(lastError)
      ensures enabled && CanAttempt(old(cooldownUntil), now) && (prepared || !blockIfConsentFail) ==>
                var c := Scan(fetch, 1, MaxPages(maxPagesOverride, crawlAll), crawlAll || sampleMode,
                              StartCrawl(old(lastError)));
                r == OutcomeOf(c) && lastError == c.lastError
      ensures captchaState == old(captchaState) && captchaSeenAt == old(captchaSeenAt)
      ensures cooldownUntil == old(cooldownUntil) && backoffExp == old(backoffExp)
    {
      consentStatus := "not_detected";
      resolverUsed := mode;
      if !enabled || !CanAttempt(cooldownUntil, now) || (!prepared && blockIfConsentFail) {
        events := DrainEvents();
        return NO_RESULT, events;
      }
      var maxPages := MaxPages(maxPagesOverride, crawlAll);
      var c := ScanPages(fetch, maxPages, crawlAll || sampleMode, lastError);
      lastError := c.lastError;
      events := DrainEvents();
      r := OutcomeOf(c);
    }
  }

  /** The health note reports a pause, with the minutes left, exactly while a request may not be attempted. */
  lemma HealthNotePause(p: Provider, now: int)
    requires p.enabled
    ensures p.Cooling(now) && p.captchaState == Entered ==>
              p.HealthNote(now) == "Captcha erkannt \U{2014} Pause aktiv ("
                                   + IntText(RemainingMinutes(p.cooldownUntil.value, now)) + " min)"
    ensures p.Cooling(now) && p.captchaState == Clear ==>
              p.HealthNote(now) == "Cooldown aktiv (" + IntText(RemainingMinutes(p.cooldownUntil.value, now)) + " min)"
    ensures !p.Cooling(now) && p.captchaState == Entered ==> p.HealthNote(now) == "Captcha erkannt \U{2014} Pause beendet"
  {
  }
}
