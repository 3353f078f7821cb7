/**
 * The older backend's search service: one keyword's search across its
 * platforms, the title filter, the newness gate that decides which
 * listings are stored and notified and which keys go into the seen set,
 * and the pass over all active keywords in batches of five.
 */
module BackendSearch {
  import opened Wrappers
  import opened BackendModels
  import opened KeywordService

  // ---------------------------------------------------------------------
  // Raw listings
  // ---------------------------------------------------------------------

  /** What a provider's `search` gave: its items, or the message of the exception it raised. */
  datatype ProviderResult = Found(items: seq<Listing>) | Failed(message: string)

  datatype Raw = Raw(items: seq<Listing>, errors: seq<string>)

  const SEARCH_ERROR: string := "Error searching "
  const NO_PROVIDER: string := "Provider not found for platform: "

  /** The listings of every registered platform whose search succeeded, and one error per other platform, in order. */
  function Collect(platforms: seq<string>, registered: set<string>, search: string -> ProviderResult): Raw
  {
    if |platforms| == 0 then Raw([], [])
    else
      var r := Collect(platforms[..|platforms| - 1], registered, search);
      var p := platforms[|platforms| - 1];
      if p in registered then
        match search(p)
        case Found(items) => Raw(r.items + items, r.errors)
        case Failed(m) => Raw(r.items, r.errors + [SEARCH_ERROR + p + ": " + m])
      else Raw(r.items, r.errors + [NO_PROVIDER + p])
  }

  predicate Succeeds(p: string, registered: set<string>, search: string -> ProviderResult)
  {
    p in registered && search(p).Found?
  }

  /** A raw listing comes from a registered platform whose search succeeded; there is no error exactly when every platform succeeded. */
  lemma {:induction false} CollectSpec(platforms: seq<string>, registered: set<string>, search: string -> ProviderResult, x: Listing)
    ensures var r := Collect(platforms, registered, search);
            && (x in r.items <==> exists k :: 0 <= k < |platforms| && Succeeds(platforms[k], registered, search) && x in search(platforms[k]).items)
            && (r.errors == [] <==> forall k :: 0 <= k < |platforms| ==> Succeeds(platforms[k], registered, search))
  {
    if |platforms| > 0 {
      var n := |platforms| - 1;
      var init := platforms[..n];
      CollectSpec(init, registered, search, x);
      assert forall k :: 0 <= k < n ==> init[k] == platforms[k];
      var r := Collect(init, registered, search);
      if exists k :: 0 <= k < |platforms| && Succeeds(platforms[k], registered, search) && x in search(platforms[k]).items {
        var k :| 0 <= k < |platforms| && Succeeds(platforms[k], registered, search) && x in search(platforms[k]).items;
        if k < n {
          assert init[k] == platforms[k];
        }
      }
    }
  }

  /** The platform loop of `search_keyword`. */
  method CollectRaw(platforms: seq<string>, registered: set<string>, search: string -> ProviderResult) returns (r: Raw)
    ensures r == Collect(platforms, registered, search)
  {
    r := Raw([], []);
    var i := 0;
    while i < |platforms|
      invariant 0 <= i <= |platforms|
      invariant r == Collect(platforms[..i], registered, search)
    {
      var p := platforms[i];
      assert platforms[..i + 1][..i] == platforms[..i];
      if p in registered {
        match search(p)
        case Found(items) => r := Raw(r.items + items, r.errors);
        case Failed(m) => r := Raw(r.items, r.errors + [SEARCH_ERROR + p + ": " + m]);
      } else {
        r := Raw(r.items, r.errors + [NO_PROVIDER + p]);
      }
      i := i + 1;
    }
    assert platforms[..i] == platforms;
  }

  // ---------------------------------------------------------------------
  // Title filter
  // ---------------------------------------------------------------------

  /** The listings whose title `matches` the keyword, in order. */
  function Matched(raw: seq<Listing>, keyword: string, matches: (string, string) -> bool): seq<Listing>
  {
    if |raw| == 0 then []
    else
      var r := Matched(raw[..|raw| - 1], keyword, matches);
      if matches(raw[|raw| - 1].title, keyword) then r + [raw[|raw| - 1]] else r
  }

  /** A listing is kept exactly when it is raw and its title matches. */
  lemma {:induction false} MatchedSpec(raw: seq<Listing>, keyword: string, matches: (string, string) -> bool, x: Listing)
    ensures x in Matched(raw, keyword, matches) <==> x in raw && matches(x.title, keyword)
  {
    if |raw| > 0 {
      var n := |raw| - 1;
      MatchedSpec(raw[..n], keyword, matches, x);
      assert raw == raw[..n] + [raw[n]];
    }
  }

  method MatchListings(raw: seq<Listing>, keyword: string, matches: (string, string) -> bool) returns (r: seq<Listing>)
    ensures r == Matched(raw, keyword, matches)
  {
    r := [];
    var i := 0;
    while i < |raw|
      invariant 0 <= i <= |raw|
      invariant r == Matched(raw[..i], keyword, matches)
    {
      assert raw[..i + 1][..i] == raw[..i];
      if matches(raw[i].title, keyword) {
        r := r + [raw[i]];
      }
      i := i + 1;
    }
    assert raw[..i] == raw;
  }

  // ---------------------------------------------------------------------
  // The newness gate
  // ---------------------------------------------------------------------

  /** A listing is notified when it has no first-seen time or was first seen after the subscription started. */
  predicate Notifiable(kw: Keyword, l: Listing)
  {
    var isNewPosting := !(l.firstSeenTs.Some? && l.firstSeenTs.value <= kw.sinceTs);
    isNewPosting || l.firstSeenTs.None?
  }

  /** Equality with `since_ts` is not new; a missing time is. */
  lemma NotifiableIff(kw: Keyword, l: Listing)
    ensures Notifiable(kw, l) <==> l.firstSeenTs.None? || l.firstSeenTs.value > kw.sinceTs
  {
  }

  /** The stored copy, with missing timestamps filled in with the current time. */
  function Stored(l: Listing, now: int): (r: Listing)
    ensures r.platform == l.platform && r.platformId == l.platformId && r.title == l.title && r.url == l.url
    ensures r.firstSeenTs.Some? && r.lastSeenTs.Some?
    ensures l.firstSeenTs.Some? ==> r.firstSeenTs == l.firstSeenTs
  {
    l.(firstSeenTs := Some(l.firstSeenTs.GetOr(now)), lastSeenTs := Some(l.lastSeenTs.GetOr(now)))
  }

  function Key(l: Listing): string
  {
    MakeListingKey(l.platform, l.platformId)
  }

  /** The listings stored and notified, in order.  Seen-ness is judged on the keyword as it was read. */
  function Notified(kw: Keyword, matched: seq<Listing>, now: int): seq<Listing>
  {
    if |matched| == 0 then []
    else
      var r := Notified(kw, matched[..|matched| - 1], now);
      var l := matched[|matched| - 1];
      if !IsListingSeen(kw, l.platform, l.platformId) && Notifiable(kw, l) then r + [Stored(l, now)] else r
  }

  /** The keys handed to `add_to_seen_set`, in order: one per matched listing not already seen. */
  function Writes(kw: Keyword, matched: seq<Listing>): seq<string>
  {
    if |matched| == 0 then []
    else
      var r := Writes(kw, matched[..|matched| - 1]);
      var l := matched[|matched| - 1];
      if !IsListingSeen(kw, l.platform, l.platformId) then r + [Key(l)] else r
  }

  /** A key is written exactly when some matched listing has it and it was not in the seen list. */
  lemma {:induction false} WritesSpec(kw: Keyword, matched: seq<Listing>, key: string)
    ensures key in Writes(kw, matched)
            <==> key !in kw.seenListingKeys && exists k :: 0 <= k < |matched| && Key(matched[k]) == key
  {
    if |matched| > 0 {
      var n := |matched| - 1;
      WritesSpec(kw, matched[..n], key);
      assert forall k :: 0 <= k < n ==> matched[..n][k] == matched[k];
      if key !in kw.seenListingKeys && exists k :: 0 <= k < |matched| && Key(matched[k]) == key {
        var k :| 0 <= k < |matched| && Key(matched[k]) == key;
        if k < n {
          assert matched[..n][k] == matched[k];
        }
      }
    }
  }

  /** A listing is notified exactly when it is matched, unseen and notifiable. */
  lemma {:induction false} NotifiedSpec(kw: Keyword, matched: seq<Listing>, now: int, x: Listing)
    ensures x in Notified(kw, matched, now)
            <==> exists k :: 0 <= k < |matched| && !IsListingSeen(kw, matched[k].platform, matched[k].platformId)
                             && Notifiable(kw, matched[k]) && x == Stored(matched[k], now)
  {
    if |matched| > 0 {
      var n := |matched| - 1;
      NotifiedSpec(kw, matched[..n], now, x);
      assert forall k :: 0 <= k < n ==> matched[..n][k] == matched[k];
      if exists k :: 0 <= k < |matched| && !IsListingSeen(kw, matched[k].platform, matched[k].platformId)
                     && Notifiable(kw, matched[k]) && x == Stored(matched[k], now) {
        var k :| 0 <= k < |matched| && !IsListingSeen(kw, matched[k].platform, matched[k].platformId)
                 && Notifiable(kw, matched[k]) && x == Stored(matched[k], now);
        if k < n {
          assert matched[..n][k] == matched[k];
        }
      }
    }
  }

  /** The same unseen listing matched twice in one run is notified twice: the seen list is not re-read. */
  lemma RepeatNotifiedTwice(kw: Keyword, l: Listing, now: int)
    requires !IsListingSeen(kw, l.platform, l.platformId) && Notifiable(kw, l)
    ensures Notified(kw, [l, l], now) == [Stored(l, now), Stored(l, now)]
    ensures Writes(kw, [l, l]) == [Key(l), Key(l)]
  {
    assert [l, l][..1] == [l] && [l][..0] == [];
    assert Notified(kw, [l], now) == [Stored(l, now)];
    assert Writes(kw, [l]) == [Key(l)];
  }

  /** The keyword documents after each key is passed to `add_to_seen_set` in turn. */
  function SeenAfterWrites(docs: seq<Keyword>, id: string, keys: seq<string>, now: int): seq<Keyword>
  {
    if |keys| == 0 then docs
    else
      var d := SeenAfterWrites(docs, id, keys[..|keys| - 1], now);
      if FindKeyword(d, id).None? then d else AfterAdd(d, id, keys[|keys| - 1], now)
  }

  /** The keyword stays present, keeps every old key and gains every written one. */
  lemma {:induction false} SeenAfterWritesSpec(docs: seq<Keyword>, id: string, keys: seq<string>, now: int, x: string)
    requires FindKeyword(docs, id).Some?
    ensures var r := FindKeyword(SeenAfterWrites(docs, id, keys, now), id);
            && r.Some?
            && (x in keys ==> x in r.value.seenListingKeys)
            && (x in FindKeyword(docs, id).value.seenListingKeys ==> x in r.value.seenListingKeys)
            && (NoDuplicates(FindKeyword(docs, id).value.seenListingKeys) ==> NoDuplicates(r.value.seenListingKeys))
  {
    if |keys| > 0 {
      var n := |keys| - 1;
      SeenAfterWritesSpec(docs, id, keys[..n], now, x);
      var d := SeenAfterWrites(docs, id, keys[..n], now);
      AfterAddSpec(d, id, keys[n], now, x);
      assert keys == keys[..n] + [keys[n]];
    }
  }

  /** Every matched listing that was not seen is in the seen set once the run's writes are done. */
  lemma UnseenMatchedBecomeSeen(docs: seq<Keyword>, kw: Keyword, matched: seq<Listing>, now: int, k: nat)
    requires FindKeyword(docs, kw.id).Some? && k < |matched|
    requires !IsListingSeen(kw, matched[k].platform, matched[k].platformId)
    ensures var r := FindKeyword(SeenAfterWrites(docs, kw.id, Writes(kw, matched), now), kw.id);
            r.Some? && IsListingSeen(r.value, matched[k].platform, matched[k].platformId)
  {
    WritesSpec(kw, matched, Key(matched[k]));
    SeenAfterWritesSpec(docs, kw.id, Writes(kw, matched), now, Key(matched[k]));
  }

  /** A matched listing that was already seen is neither written nor notified. */
  lemma SeenMatchedUntouched(kw: Keyword, matched: seq<Listing>, now: int, k: nat)
    requires k < |matched| && IsListingSeen(kw, matched[k].platform, matched[k].platformId)
    ensures Key(matched[k]) !in Writes(kw, matched)
    ensures Stored(matched[k], now) in Notified(kw, matched, now) ==>
              exists j :: 0 <= j < |matched| && j != k && Stored(matched[j], now) == Stored(matched[k], now)
  {
    WritesSpec(kw, matched, Key(matched[k]));
    NotifiedSpec(kw, matched, now, Stored(matched[k], now));
  }

  /**
   * The gating loop: each unseen matched listing goes to the seen set,
   * and the notifiable ones are also stored for notification.
   */
  method GateListings(svc: Service, kw: Keyword, matched: seq<Listing>, now: int) returns (notify: seq<Listing>)
    modifies svc
    ensures notify == Notified(kw, matched, now)
    ensures svc.keywords == SeenAfterWrites(old(svc.keywords), kw.id, Writes(kw, matched), now)
  {
    notify := [];
    var i := 0;
    while i < |matched|
      invariant 0 <= i <= |matched|
      invariant notify == Notified(kw, matched[..i], now)
      invariant svc.keywords == SeenAfterWrites(old(svc.keywords), kw.id, Writes(kw, matched[..i]), now)
    {
      var l := matched[i];
      assert matched[..i + 1][..i] == matched[..i];
      if !IsListingSeen(kw, l.platform, l.platformId) {
        assert Writes(kw, matched[..i + 1]) == Writes(kw, matched[..i]) + [Key(l)];
        if Notifiable(kw, l) {
          notify := notify + [Stored(l, now)];
        }
        var _ := svc.AddToSeenSet(kw.id, l.platform, l.platformId, now);
      }
      i := i + 1;
    }
    assert matched[..i] == matched;
  }

  // ---------------------------------------------------------------------
  // One keyword
  // ---------------------------------------------------------------------

  /** The result dictionary of `search_keyword`. */
  datatype Report = Report(
    keywordId: string,
    keywordText: string,
    newNotifications: nat,
    matchedListings: nat,
    totalRawListings: nat,
    errors: seq<string>)

  const INDEX_ERROR: string := "list index out of range"

  /** Why the first platform has no provider to match with: the `IndexError` or `KeyError` text, if it has none. */
  function MatcherError(platforms: seq<string>, registered: set<string>): (r: Option<string>)
    ensures r.None? <==> |platforms| > 0 && platforms[0] in registered
  {
    if |platforms| == 0 then Some(INDEX_ERROR)
    else if platforms[0] !in registered then Some("'" + platforms[0] + "'")
    else None
  }

  /** The report of `search_keyword`: counts of raw, matched and notified listings and the errors, in order. */
  function ReportOf(kw: Keyword, registered: set<string>, search: string -> ProviderResult,
                    matches: (string, string) -> bool, now: int): (r: Report)
    ensures r.keywordId == kw.id && r.keywordText == kw.keyword
    ensures r.totalRawListings == |Collect(kw.platforms, registered, search).items|
    ensures MatcherError(kw.platforms, registered).Some? ==> r.matchedListings == 0 && r.newNotifications == 0 && |r.errors| > 0
  {
    var raw := Collect(kw.platforms, registered, search);
    match MatcherError(kw.platforms, registered)
    case Some(e) =>
      Report(kw.id, kw.keyword, 0, 0, |raw.items|,
             raw.errors + ["Error searching keyword '" + kw.keyword + "': " + e])
    case None =>
      var matched := Matched(raw.items, kw.keyword, matches);
      Report(kw.id, kw.keyword, |Notified(kw, matched, now)|, |matched|, |raw.items|, raw.errors)
  }

  /** The documents after `search_keyword`: the seen-set writes, then the last-checked time; nothing when the matcher lookup fails. */
  function EffectOf(docs: seq<Keyword>, kw: Keyword, registered: set<string>, search: string -> ProviderResult,
                    matches: (string, string) -> bool, now: int): seq<Keyword>
  {
    if MatcherError(kw.platforms, registered).Some? then docs
    else
      var matched := Matched(Collect(kw.platforms, registered, search).items, kw.keyword, matches);
      UpdateFirst(SeenAfterWrites(docs, kw.id, Writes(kw, matched), now), kw.id, NO_FIELDS.(lastChecked := Some(now)), now)
  }

  /**
   * `search_keyword`.  Providers are given as the registered names and
   * what each search gives, the title matcher as a function; the stored
   * listings are returned, and `sends` says whether notifications go out.
   */
  method SearchKeyword(svc: Service, kw: Keyword, registered: set<string>, search: string -> ProviderResult,
                       matches: (string, string) -> bool, now: int)
    returns (report: Report, notify: seq<Listing>, sends: bool)
    modifies svc
    ensures report == ReportOf(kw, registered, search, matches, now)
    ensures svc.keywords == EffectOf(old(svc.keywords), kw, registered, search, matches, now)
    ensures MatcherError(kw.platforms, registered).None? ==>
              notify == Notified(kw, Matched(Collect(kw.platforms, registered, search).items, kw.keyword, matches), now)
    ensures MatcherError(kw.platforms, registered).Some? ==> notify == []
    ensures sends <==> |notify| > 0 && !kw.isMuted
  {
    var raw := CollectRaw(kw.platforms, registered, search);
    var e := MatcherError(kw.platforms, registered);
    if e.Some? {
      report := Report(kw.id, kw.keyword, 0, 0, |raw.items|,
                       raw.errors + ["Error searching keyword '" + kw.keyword + "': " + e.value]);
      return report, [], false;
    }
    var matched := MatchListings(raw.items, kw.keyword, matches);
    notify := GateListings(svc, kw, matched, now);
    sends := |notify| > 0 && !kw.isMuted;
    var _ := svc.UpdateLastChecked(kw.id, None, now);
    report := Report(kw.id, kw.keyword, |notify|, |matched|, |raw.items|, raw.errors);
  }

  // ---------------------------------------------------------------------
  // All active keywords
  // ---------------------------------------------------------------------

  /** `[xs[i:i + size] for i in range(0, len(xs), size)]`. */
  function Batches<T>(xs: seq<T>, size: nat): seq<seq<T>>
    requires size > 0
    decreases |xs|
  {
    if |xs| == 0 then []
    else if |xs| <= size then [xs]
    else [xs[..size]] + Batches(xs[size..], size)
  }

  function Flatten<T>(bs: seq<seq<T>>): seq<T>
  {
    if |bs| == 0 then [] else bs[0] + Flatten(bs[1..])
  }

  /** The batches put together give the list back, and each holds `size` items except a shorter, non-empty last one. */
  lemma {:induction false} BatchesSpec<T>(xs: seq<T>, size: nat)
    requires size > 0
    decreases |xs|
    ensures var bs := Batches(xs, size);
            && Flatten(bs) == xs
            && (forall k :: 0 <= k < |bs| ==> 0 < |bs[k]| <= size)
            && (forall k :: 0 <= k < |bs| - 1 ==> |bs[k]| == size)
  {
    if |xs| > size {
      BatchesSpec(xs[size..], size);
      var bs := Batches(xs, size);
      assert bs[1..] == Batches(xs[size..], size);
      assert xs == xs[..size] + xs[size..];
    } else if |xs| > 0 {
      assert Flatten([xs]) == xs + Flatten<T>([]);
    }
  }

  /** The totals of `search_all_active_keywords`. */
  datatype Tally = Tally(keywordsProcessed: nat, totalNewListings: nat, errors: seq<string>)

  /** `result.get(field, 0)` on a report's numeric fields; other names are missing. */
  function ReportValue(r: Report, field: string): Option<nat>
  {
    if field == "new_notifications" then Some(r.newNotifications)
    else if field == "matched_listings" then Some(r.matchedListings)
    else if field == "total_raw_listings" then Some(r.totalRawListings)
    else None
  }

  /** The totals as written: the new count is read under `"new_listings"`, a name a report never has. */
  function TotalsAsWritten(reports: seq<Report>): (r: Tally)
    ensures r.keywordsProcessed == |reports|
  {
    if |reports| == 0 then Tally(0, 0, [])
    else
      var t := TotalsAsWritten(reports[..|reports| - 1]);
      var r := reports[|reports| - 1];
      Tally(t.keywordsProcessed + 1, t.totalNewListings + ReportValue(r, "new_listings").GetOr(0), t.errors + r.errors)
  }

  /** Whatever the reports, the as-written total of new listings is 0. */
  lemma {:induction false} TotalsAsWrittenZero(reports: seq<Report>)
    ensures TotalsAsWritten(reports).totalNewListings == 0
  {
    if |reports| > 0 {
      TotalsAsWrittenZero(reports[..|reports| - 1]);
      var r := reports[|reports| - 1];
      assert "new_listings" != "new_notifications" && "new_listings" != "matched_listings"
             && "new_listings" != "total_raw_listings" by {
        assert |"new_listings"| == 12;
      }
    }
  }

  /** One keyword with one new listing already shows the gap: its report says 1, the totals say 0. */
  lemma TotalsMissNewListing(r: Report)
    requires r.newNotifications == 1
    ensures TotalsAsWritten([r]).totalNewListings == 0 != ReportValue(r, "new_notifications").value
  {
    TotalsAsWrittenZero([r]);
  }

  function SumNew(reports: seq<Report>): nat
  {
    if |reports| == 0 then 0 else SumNew(reports[..|reports| - 1]) + reports[|reports| - 1].newNotifications
  }

  /** The totals with the new count read under the name the reports use. */
  function Totals(reports: seq<Report>): (r: Tally)
    ensures r.keywordsProcessed == |reports|
    ensures r.totalNewListings == SumNew(reports)
  {
    if |reports| == 0 then Tally(0, 0, [])
    else
      var t := Totals(reports[..|reports| - 1]);
      var r := reports[|reports| - 1];
      Tally(t.keywordsProcessed + 1, t.totalNewListings + ReportValue(r, "new_notifications").GetOr(0), t.errors + r.errors)
  }

  /** The error lists of the reports, one per keyword, in keyword order. */
  function ErrorLists(reports: seq<Report>): (r: seq<seq<string>>)
    ensures |r| == |reports| && forall i :: 0 <= i < |reports| ==> r[i] == reports[i].errors
  {
    seq(|reports|, i requires 0 <= i < |reports| => reports[i].errors)
  }

  /** Putting one more list at the end of the lists puts its items at the end of the whole. */
  lemma {:induction false} FlattenSnoc<T>(bs: seq<seq<T>>, b: seq<T>)
    decreases |bs|
    ensures Flatten(bs + [b]) == Flatten(bs) + b
  {
    if |bs| == 0 {
      assert Flatten([b]) == b + Flatten<T>([]);
    } else {
      assert (bs + [b])[1..] == bs[1..] + [b];
      FlattenSnoc(bs[1..], b);
    }
  }

  /**
   * Every keyword is counted, the new listings of all reports are summed,
   * and the errors are the reports' error lists put one after the other,
   * in keyword order.
   */
  lemma {:induction false} TotalsSpec(reports: seq<Report>)
    ensures Totals(reports).keywordsProcessed == |reports|
    ensures Totals(reports).totalNewListings == SumNew(reports)
    ensures Totals(reports).errors == Flatten(ErrorLists(reports))
  {
    if |reports| > 0 {
      var n := |reports| - 1;
      TotalsSpec(reports[..n]);
      assert ErrorLists(reports) == ErrorLists(reports[..n]) + [reports[n].errors];
      FlattenSnoc(ErrorLists(reports[..n]), reports[n].errors);
    } else {
      assert ErrorLists(reports) == [];
    }
  }

  /** `search_keyword`'s report and effect on the documents, as function values. */
  function ReportFn(registered: set<string>, search: string -> ProviderResult, matches: (string, string) -> bool, now: int)
    : Keyword -> Report
  {
    kw => ReportOf(kw, registered, search, matches, now)
  }

  function EffectFn(registered: set<string>, search: string -> ProviderResult, matches: (string, string) -> bool, now: int)
    : (seq<Keyword>, Keyword) -> seq<Keyword>
  {
    (docs, kw) => EffectOf(docs, kw, registered, search, matches, now)
  }

  /** The reports of the keywords, in order. */
  function ReportsOf(kws: seq<Keyword>, report: Keyword -> Report): (r: seq<Report>)
    ensures |r| == |kws|
  {
    if |kws| == 0 then [] else ReportsOf(kws[..|kws| - 1], report) + [report(kws[|kws| - 1])]
  }

  /** The documents after the keywords' searches, one after another. */
  function EffectsOf(docs: seq<Keyword>, kws: seq<Keyword>, effect: (seq<Keyword>, Keyword) -> seq<Keyword>): seq<Keyword>
  {
    if |kws| == 0 then docs else effect(EffectsOf(docs, kws[..|kws| - 1], effect), kws[|kws| - 1])
  }

  /** The report of each keyword is that of its own search. */
  lemma {:induction false} ReportsOfAt(kws: seq<Keyword>, report: Keyword -> Report, k: nat)
    requires k < |kws|
    ensures ReportsOf(kws, report)[k] == report(kws[k])
  {
    if k < |kws| - 1 {
      ReportsOfAt(kws[..|kws| - 1], report, k);
    }
  }

  lemma ReportsStep(kws: seq<Keyword>, j: nat, report: Keyword -> Report)
    requires j < |kws|
    ensures ReportsOf(kws[..j + 1], report) == ReportsOf(kws[..j], report) + [report(kws[j])]
  {
    assert kws[..j + 1][..j] == kws[..j];
  }

  lemma EffectsStep(docs: seq<Keyword>, kws: seq<Keyword>, j: nat, effect: (seq<Keyword>, Keyword) -> seq<Keyword>)
    requires j < |kws|
    ensures EffectsOf(docs, kws[..j + 1], effect) == effect(EffectsOf(docs, kws[..j], effect), kws[j])
  {
    assert kws[..j + 1][..j] == kws[..j];
  }

  lemma TotalsStep(reports: seq<Report>, r: Report)
    ensures Totals(reports + [r]) == Tally(Totals(reports).keywordsProcessed + 1, Totals(reports).totalNewListings + r.newNotifications,
                                           Totals(reports).errors + r.errors)
  {
    assert (reports + [r])[..|reports|] == reports;
  }

  /** The tally and the documents after the first `j` keywords' searches. */
  predicate Progress(totals: Tally, docs: seq<Keyword>, kws: seq<Keyword>, j: nat, docs0: seq<Keyword>,
                     registered: set<string>, search: string -> ProviderResult, matches: (string, string) -> bool, now: int)
    requires j <= |kws|
  {
    && totals == Totals(ReportsOf(kws[..j], ReportFn(registered, search, matches, now)))
    && docs == EffectsOf(docs0, kws[..j], EffectFn(registered, search, matches, now))
  }

  /** One more keyword searched: its report and its effect follow those of the ones before. */
  method SearchNext(svc: Service, kws: seq<Keyword>, j: nat, totals0: Tally, ghost docs0: seq<Keyword>,
                    registered: set<string>, search: string -> ProviderResult, matches: (string, string) -> bool, now: int)
    returns (totals: Tally)
    requires j < |kws|
    requires Progress(totals0, svc.keywords, kws, j, docs0, registered, search, matches, now)
    modifies svc
    ensures Progress(totals, svc.keywords, kws, j + 1, docs0, registered, search, matches, now)
  {
    var report, _, _ := SearchKeyword(svc, kws[j], registered, search, matches, now);
    ReportsStep(kws, j, ReportFn(registered, search, matches, now));
    EffectsStep(docs0, kws, j, EffectFn(registered, search, matches, now));
    TotalsStep(ReportsOf(kws[..j], ReportFn(registered, search, matches, now)), report);
    totals := Tally(totals0.keywordsProcessed + 1, totals0.totalNewListings + report.newNotifications, totals0.errors + report.errors);
  }

  /** One batch: the keywords from `lo` up to `hi`, searched in order. */
  method SearchBatch(svc: Service, kws: seq<Keyword>, lo: nat, hi: nat, totals0: Tally, ghost docs0: seq<Keyword>,
                     registered: set<string>, search: string -> ProviderResult, matches: (string, string) -> bool, now: int)
    returns (totals: Tally)
    requires lo <= hi <= |kws|
    requires Progress(totals0, svc.keywords, kws, lo, docs0, registered, search, matches, now)
    modifies svc
    ensures Progress(totals, svc.keywords, kws, hi, docs0, registered, search, matches, now)
  {
    totals := totals0;
    var j := lo;
    while j < hi
      invariant lo <= j <= hi
      invariant Progress(totals, svc.keywords, kws, j, docs0, registered, search, matches, now)
    {
      totals := SearchNext(svc, kws, j, totals, docs0, registered, search, matches, now);
      j := j + 1;
    }
  }

  /** The batch starting at `i` is the next slice of at most five. */
  lemma BatchAt<T>(xs: seq<T>, i: nat, hi: nat)
    requires i < |xs| && hi == if i + 5 < |xs| then i + 5 else |xs|
    ensures Batches(xs[i..], 5) == [xs[i..hi]] + Batches(xs[hi..], 5)
  {
    if i + 5 < |xs| {
      assert xs[i..][..5] == xs[i..hi];
      assert xs[i..][5..] == xs[hi..];
    } else {
      assert xs[i..] == xs[i..hi];
      assert xs[hi..] == [];
    }
  }

  /**
   * `search_all_active_keywords`: the keywords, as read once, searched in
   * consecutive batches of five.  The searches of a batch run one after
   * another here.
   */
  method SearchAllActive(svc: Service, kws: seq<Keyword>, registered: set<string>, search: string -> ProviderResult,
                         matches: (string, string) -> bool, now: int)
    returns (totals: Tally, ghost batches: seq<seq<Keyword>>)
    modifies svc
    ensures totals == Totals(ReportsOf(kws, ReportFn(registered, search, matches, now)))
    ensures svc.keywords == EffectsOf(old(svc.keywords), kws, EffectFn(registered, search, matches, now))
    ensures batches == Batches(kws, 5)
  {
    totals := Tally(0, 0, []);
    batches := [];
    var i := 0;
    while i < |kws|
      invariant 0 <= i <= |kws|
      invariant Progress(totals, svc.keywords, kws, i, old(svc.keywords), registered, search, matches, now)
      invariant batches + Batches(kws[i..], 5) == Batches(kws, 5)
      decreases |kws| - i
    {
      var hi := if i + 5 < |kws| then i + 5 else |kws|;
      var batch := kws[i..hi];
      BatchAt(kws, i, hi);
      totals := SearchBatch(svc, kws, i, hi, totals, old(svc.keywords), registered, search, matches, now);
      batches := batches + [batch];
      i := hi;
    }
    assert kws[..i] == kws;
  }
}
