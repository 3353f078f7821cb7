/**
 * The decision rules of the search service: the canonical listing key, the
 * newness gate and its explanation, the page list of a poll cycle, the
 * keyword health classifier, the baseline final-status rule, the migration
 * trigger, the provider list repair and the egun.de `posted_ts` fallback.
 */
module SearchService {
  import opened Wrappers
  import opened Chars
  import opened Models

  /** `timedelta(minutes=60)` hard-coded in the newness gate. */
  const GRACE_SECONDS: int := 3600
  /** The `GRACE_MINUTES` setting, which the gate does not consult. */
  const GRACE_MINUTES: int := 60
  const MAX_PAGES_PER_CYCLE: int := 200
  const PRIMARY_PAGES: int := 1
  const POLL_WINDOW: int := 5
  const STALE_WARN_SEC: int := 180
  const ERR_THRESHOLD: nat := 3
  /** `timedelta(days=1)` used as the egun.de `posted_ts` fallback age. */
  const FALLBACK_AGE_SECONDS: int := 86400

  // ---------------------------------------------------------------------
  // Canonical listing key
  // ---------------------------------------------------------------------

  /** `item.platform.lower().strip()` */
  function PlatformPart(platform: string): string
  {
    Strip(Lower(platform))
  }

  /** The first `\d+` run of the platform id, or the whole id when it has no digit. */
  function CleanId(platformId: string): string
  {
    FirstDigitRun(platformId).GetOr(platformId)
  }

  /** `_build_canonical_listing_key`: `<platform>:<numeric id>`. */
  function CanonicalKey(item: Listing): string
  {
    PlatformPart(item.platform) + ":" + CleanId(item.platformId)
  }

  /** `key.split(':', 1)[1]`, the text after the first colon (the whole key if none). */
  function IdPart(key: string): string
  {
    match SplitOnce(key, ':')
    case Some((_, rest)) => rest
    case None => key
  }

  /**
   * Read back, a canonical key splits at its first colon into the normalised
   * platform and an id part that is a digit string, or the untouched id when
   * the id holds no digit.
   */
  lemma CanonicalKeyParts(item: Listing)
    requires ':' !in PlatformPart(item.platform)
    ensures SplitOnce(CanonicalKey(item), ':')
         == Some((PlatformPart(item.platform), CleanId(item.platformId)))
    ensures IsDigitString(IdPart(CanonicalKey(item)))
         || (IdPart(CanonicalKey(item)) == item.platformId
             && forall k :: 0 <= k < |item.platformId| ==> !IsDigit(item.platformId[k]))
  {
    SplitOnceJoin(PlatformPart(item.platform), ':', CleanId(item.platformId));
    FirstDigitRunShape(item.platformId);
  }

  /**
   * The in-run overwrite `item.platform_id = key.split(':', 1)[1]` is stable:
   * the rebuilt key equals the original key.
   */
  lemma CanonicalKeyStable(item: Listing)
    requires ':' !in PlatformPart(item.platform)
    ensures CanonicalKey(item.(platformId := IdPart(CanonicalKey(item)))) == CanonicalKey(item)
  {
    CanonicalKeyParts(item);
    var id := CleanId(item.platformId);
    assert IdPart(CanonicalKey(item)) == id;
    if FirstDigitRun(item.platformId).Some? {
      FirstDigitRunShape(item.platformId);
      FirstDigitRunOfDigits(id);
    }
  }

  /** The key depends on the platform and the id alone. */
  lemma SameIdentitySameKey(a: Listing, b: Listing)
    requires a.platform == b.platform && a.platformId == b.platformId
    ensures CanonicalKey(a) == CanonicalKey(b)
  {
  }

  /** Two listings whose ids share the leading digit run and whose platforms agree up to case and padding share a key. */
  lemma CanonicalKeyIgnoresDecoration(a: Listing, b: Listing)
    requires PlatformPart(a.platform) == PlatformPart(b.platform)
    requires FirstDigitRun(a.platformId).Some? && FirstDigitRun(a.platformId) == FirstDigitRun(b.platformId)
    ensures CanonicalKey(a) == CanonicalKey(b)
  {
  }

  // ---------------------------------------------------------------------
  // Newness gate
  // ---------------------------------------------------------------------

  /** The key `_is_new_listing` looks up: `f"{platform}:{platform_id}"`, not the canonical one. */
  function RawKey(item: Listing): string
  {
    item.platform + ":" + item.platformId
  }

  /** `_normalize_since_ts`: a missing `since_ts` becomes `now`. */
  function SinceTs(kw: Keyword, now: int): (s: int)
    ensures kw.sinceTs.Some? ==> s == kw.sinceTs.value
    ensures kw.sinceTs.None? ==> s == now
  {
    kw.sinceTs.GetOr(now)
  }

  /** `_is_new_listing`: seen keys are never new; with a `posted_ts` the listing must not predate the subscription; without one, the subscription must be at most 60 minutes old. */
  predicate IsNewListing(item: Listing, kw: Keyword, now: int)
    ensures IsNewListing(item, kw, now) ==> RawKey(item) !in kw.seenListingKeys
  {
    if RawKey(item) in kw.seenListingKeys then false
    else match item.postedTs
      case Some(posted) => posted >= SinceTs(kw, now)
      case None => now - SinceTs(kw, now) <= GRACE_SECONDS
  }

  datatype FilterReason = AlreadySeen | PostedBeforeSince | NoPostedTsBeyondGrace | Unknown

  /** `_get_filter_reason`, the label logged for an absorbed listing. */
  function GetFilterReason(item: Listing, kw: Keyword, now: int): (r: FilterReason)
    ensures r == Unknown <==> IsNewListing(item, kw, now)
  {
    if RawKey(item) in kw.seenListingKeys then AlreadySeen
    else if item.postedTs.Some? && item.postedTs.value < SinceTs(kw, now) then PostedBeforeSince
    else if item.postedTs.None? && now - SinceTs(kw, now) > GRACE_SECONDS then NoPostedTsBeyondGrace
    else Unknown
  }

  function ReasonLabel(r: FilterReason): string
  {
    match r
    case AlreadySeen => "already_seen"
    case PostedBeforeSince => "posted_ts<since_ts"
    case NoPostedTsBeyondGrace => "no_posted_ts_beyond_grace"
    case Unknown => "unknown"
  }

  /** A listing whose raw key is already seen is never new. */
  lemma SeenIsNeverNew(item: Listing, kw: Keyword, now: int)
    requires RawKey(item) in kw.seenListingKeys
    ensures !IsNewListing(item, kw, now)
  {
  }

  /** With a `posted_ts`, an unseen listing is new exactly when it is not older than `since_ts` (equality counts as new). */
  lemma PostedTsRule(item: Listing, kw: Keyword, now: int)
    requires RawKey(item) !in kw.seenListingKeys && item.postedTs.Some?
    ensures IsNewListing(item, kw, now) <==> item.postedTs.value >= SinceTs(kw, now)
  {
  }

  /** Without a `posted_ts`, an unseen listing is new exactly within the inclusive 60-minute grace window; `GRACE_MINUTES` plays no part. */
  lemma GraceWindowRule(item: Listing, kw: Keyword, now: int)
    requires RawKey(item) !in kw.seenListingKeys && item.postedTs.None?
    ensures IsNewListing(item, kw, now) <==> now - SinceTs(kw, now) <= GRACE_MINUTES * 60
  {
  }

  /** The filter reason explains every absorbed listing and only those: it is `unknown` exactly for listings the gate lets through. */
  lemma FilterReasonExplainsGate(item: Listing, kw: Keyword, now: int)
    ensures IsNewListing(item, kw, now) <==> GetFilterReason(item, kw, now) == Unknown
    ensures GetFilterReason(item, kw, now) == AlreadySeen <==> RawKey(item) in kw.seenListingKeys
  {
  }

  /** Moving the subscription start earlier never turns a new listing into an old one. */
  lemma EarlierSinceKeepsNew(item: Listing, kw: Keyword, now: int, earlier: int)
    requires kw.sinceTs.Some? && earlier <= kw.sinceTs.value
    requires IsNewListing(item, kw, now)
    ensures IsNewListing(item, kw.(sinceTs := Some(earlier)), now) || item.postedTs.None?
  {
  }

  // ---------------------------------------------------------------------
  // Page list of a poll cycle
  // ---------------------------------------------------------------------

  /** `list(range(1, n + 1))` */
  function RangeTo(n: int): (r: seq<int>)
    ensures |r| == if n > 0 then n else 0
    ensures forall k :: 0 <= k < |r| ==> r[k] == k + 1
  {
    if n <= 0 then [] else RangeTo(n - 1) + [n]
  }

  /** `_determine_pages_to_scan`. */
  function DeterminePagesToScan(pollMode: string, cursorPage: int, windowSize: int,
                                totalPagesEstimate: Option<int>, primaryPages: int,
                                maxPagesPerCycle: int): (r: seq<int>)
    ensures forall k :: 0 <= k < |r| ==> r[k] == k + 1
    ensures maxPagesPerCycle >= 0 ==> |r| <= maxPagesPerCycle
  {
    if totalPagesEstimate.Some? && totalPagesEstimate.value > 0 then
      RangeTo(if totalPagesEstimate.value < maxPagesPerCycle then totalPagesEstimate.value else maxPagesPerCycle)
    else
      RangeTo(maxPagesPerCycle)
  }

  /** The page list is exactly `1..n`, with n the positive estimate capped by the cycle maximum, else the cycle maximum. */
  lemma PagesToScanShape(pollMode: string, cursorPage: int, windowSize: int,
                         est: Option<int>, primaryPages: int, maxPages: int)
    requires maxPages >= 0
    ensures var pages := DeterminePagesToScan(pollMode, cursorPage, windowSize, est, primaryPages, maxPages);
            var n := if est.Some? && est.value > 0 && est.value < maxPages then est.value else maxPages;
            |pages| == n && forall k :: 0 <= k < n ==> pages[k] == k + 1
  {
  }

  /** Mode, cursor, window and primary pages never influence the page list. */
  lemma PagesToScanIgnoresMode(m1: string, c1: int, w1: int, p1: int,
                               m2: string, c2: int, w2: int, p2: int,
                               est: Option<int>, maxPages: int)
    ensures DeterminePagesToScan(m1, c1, w1, est, p1, maxPages)
         == DeterminePagesToScan(m2, c2, w2, est, p2, maxPages)
  {
  }

  /** The value written to `total_pages_estimate` after a poll that scanned militaria321.com pages without an estimate. */
  function NextPagesEstimate(kw: Keyword, militariaPagesScanned: int): (r: Option<int>)
    ensures kw.totalPagesEstimate.Some? || militariaPagesScanned <= 0 ==> r == kw.totalPagesEstimate
    ensures r.Some? && kw.totalPagesEstimate.None? ==> r.value >= 1
  {
    if kw.totalPagesEstimate.None? && militariaPagesScanned > 0 then
      if kw.baselineMilitariaPages > 0 then Some(kw.baselineMilitariaPages)
      else Some(if kw.pollCursorPage + 50 > 100 then kw.pollCursorPage + 50 else 100)
    else kw.totalPagesEstimate
  }

  // ---------------------------------------------------------------------
  // Migration trigger
  // ---------------------------------------------------------------------

  /** `k.startswith('militaria321.com:') and k.split(':', 1)[1].isdigit()` */
  predicate IsIdBasedKey(k: string)
  {
    |k| >= |MILITARIA| + 1 && k[..|MILITARIA| + 1] == MILITARIA + ":"
    && IsDigitString(IdPart(k))
  }

  /** A keyword is re-seeded when its seen keys are empty, or fewer than 10 with a non-ID-based key among the first five. */
  predicate NeedsMigration(seen: seq<string>)
  {
    |seen| == 0
    || (|seen| < 10 && exists k :: 0 <= k < |seen| && k < 5 && !IsIdBasedKey(seen[k]))
  }

  /** Ten or more seen keys never trigger migration, whatever their shape. */
  lemma LargeSeenSetNeverMigrates(seen: seq<string>)
    requires |seen| >= 10
    ensures !NeedsMigration(seen)
  {
  }

  // ---------------------------------------------------------------------
  // Health classifier
  // ---------------------------------------------------------------------

  datatype HealthStatus = Baseline | Failing | Warning | Running

  function StatusLabel(h: HealthStatus): string
  {
    match h
    case Baseline => "⏳ Baseline"
    case Failing => "❌ Fehler"
    case Warning => "⚠️ Warnung"
    case Running => "✅ Läuft"
  }

  /** Python `s[:n]`. */
  function Prefix(s: string, n: nat): (r: string)
    ensures |r| == if |s| < n then |s| else n
    ensures r == s[..|r|]
  {
    if |s| <= n then s else s[..n]
  }

  /** `f": {msg[:100]}"` when the last error message is non-empty. */
  function ErrorSuffix(msg: Option<string>): string
  {
    if msg.Some? && |msg.value| > 0 then ": " + Prefix(msg.value, 100) else ""
  }

  /** The age text of a stale success: minutes below one hour, hours otherwise. */
  function AgeText(ageSeconds: nat): string
  {
    if ageSeconds < 3600 then NatToString(ageSeconds / 60) + " Min"
    else NatToString(ageSeconds / 3600) + " Std"
  }

  /** `compute_keyword_health` with `has_job` standing for the scheduler lookup. */
  function ComputeKeywordHealth(kw: Keyword, now: int, hasJob: bool): (r: (HealthStatus, string))
    ensures r.0 == Baseline <==> kw.baselineStatus != "complete"
    ensures r.0 == Running ==> hasJob && kw.consecutiveErrors < ERR_THRESHOLD
  {
    if kw.baselineStatus != "complete" then
      (Baseline, "Status: " + kw.baselineStatus
                 + (if |kw.baselineErrors| > 0 then " - " + kw.baselineErrors[0].1 else ""))
    else if !hasJob then
      (Failing, "Kein Scheduler-Job aktiv")
    else if kw.consecutiveErrors >= ERR_THRESHOLD then
      (Failing, "Letzte 3 Läufe fehlgeschlagen" + ErrorSuffix(kw.lastErrorMessage))
    else if kw.lastSuccessTs.None? && kw.lastErrorTs.Some? then
      (Failing, "Noch kein erfolgreicher Lauf" + ErrorSuffix(kw.lastErrorMessage))
    else if kw.lastSuccessTs.Some? && now - kw.lastSuccessTs.value > STALE_WARN_SEC then
      (Warning, "Zu lange kein Erfolg: letzte Prüfung vor " + AgeText(now - kw.lastSuccessTs.value))
    else
      (Running, "Letzte Prüfung erfolgreich")
  }

  /** A keyword is healthy exactly when every rule passes: complete baseline, a job, fewer than three consecutive errors, not an error-only history, and no success older than 180 s. */
  lemma HealthyExactly(kw: Keyword, now: int, hasJob: bool)
    ensures ComputeKeywordHealth(kw, now, hasJob).0 == Running
        <==> (kw.baselineStatus == "complete" && hasJob && kw.consecutiveErrors < 3
              && (kw.lastSuccessTs.None? ==> kw.lastErrorTs.None?)
              && (kw.lastSuccessTs.Some? ==> now - kw.lastSuccessTs.value <= 180))
  {
  }

  /** Earlier rules win: an incomplete baseline is reported as such even for a keyword without a job or with many errors. */
  lemma BaselineRuleFirst(kw: Keyword, now: int, hasJob: bool)
    requires kw.baselineStatus != "complete"
    ensures ComputeKeywordHealth(kw, now, hasJob).0 == Baseline
  {
  }

  /** The status is an error exactly when rules 2 to 4 fire on a complete baseline. */
  lemma FailingExactly(kw: Keyword, now: int, hasJob: bool)
    ensures ComputeKeywordHealth(kw, now, hasJob).0 == Failing
        <==> (kw.baselineStatus == "complete"
              && (!hasJob || kw.consecutiveErrors >= 3
                  || (kw.lastSuccessTs.None? && kw.lastErrorTs.Some?)))
  {
  }

  // ---------------------------------------------------------------------
  // Baseline final status
  // ---------------------------------------------------------------------

  /** The `final_status` rule of `full_baseline_seed`. */
  function FinalBaselineStatus(successful: nat, total: nat): string
  {
    if successful == total then "complete"
    else if successful > 0 then "partial"
    else "error"
  }
}
