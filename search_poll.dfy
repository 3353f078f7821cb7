/**
 * One poll of a keyword (`search_keyword`): in-run de-duplication by
 * canonical key across the militaria321.com crawl and the other providers,
 * detail enrichment of unseen listings, the newness gate, the `$addToSet`
 * growth of the stored seen set and the success or error telemetry.
 * Provider crawls and detail pages are inputs.
 */
module SearchPoll {
  import opened Wrappers
  import opened Chars
  import opened Models
  import opened SearchService
  import opened Database
  import opened Dedupe

  // ---------------------------------------------------------------------
  // The canonical key in the two de-duplication loops
  // ---------------------------------------------------------------------

  /** The first-pass rewrite `item.platform_id = listing_key.split(':', 1)[1]`. */
  function IdRewrite(item: Listing): Listing
  {
    item.(platformId := IdPart(CanonicalKey(item)))
  }

  /** Platforms like the providers' own names, which hold no colon. */
  predicate ColonFree(items: seq<Listing>)
  {
    forall i :: 0 <= i < |items| ==> ':' !in PlatformPart(items[i].platform)
  }

  lemma IdRewriteKeepsKeys(items: seq<Listing>)
    requires ColonFree(items)
    ensures KeepsKeys(items, CanonicalKey, IdRewrite)
  {
    forall i | 0 <= i < |items| ensures CanonicalKey(IdRewrite(items[i])) == CanonicalKey(items[i]) {
      CanonicalKeyStable(items[i]);
    }
  }

  /** What a provider adds in the second loop: nothing for militaria321.com, for platforms the keyword does not follow, or for a crawl that raised. */
  function Contribution(p: string, platforms: seq<string>, crawl: string -> Option<seq<Listing>>): seq<Listing>
  {
    if p == MILITARIA || p !in platforms then []
    else match crawl(p)
      case None => []
      case Some(items) => items
  }

  /** The other providers' items, concatenated in registry order. */
  function OtherItems(registry: seq<string>, platforms: seq<string>, crawl: string -> Option<seq<Listing>>): seq<Listing>
  {
    if |registry| == 0 then []
    else OtherItems(registry[..|registry| - 1], platforms, crawl)
         + Contribution(registry[|registry| - 1], platforms, crawl)
  }

  /** `all_items` after both de-duplication loops. */
  function AllItems(militaria: seq<Listing>, others: seq<Listing>): seq<Listing>
  {
    Dedup(militaria, {}, CanonicalKey, IdRewrite)
    + Dedup(others, KeySet(militaria, CanonicalKey), CanonicalKey, NoRewrite)
  }

  /** Across both loops each canonical key appears at most once, and every key the crawls produced is kept. */
  lemma AllItemsDistinct(militaria: seq<Listing>, others: seq<Listing>)
    requires ColonFree(militaria)
    ensures DistinctKeys(AllItems(militaria, others), CanonicalKey)
    ensures KeySet(AllItems(militaria, others), CanonicalKey)
         == KeySet(militaria, CanonicalKey) + KeySet(others, CanonicalKey)
  {
    var a := Dedup(militaria, {}, CanonicalKey, IdRewrite);
    var b := Dedup(others, KeySet(militaria, CanonicalKey), CanonicalKey, NoRewrite);
    IdRewriteKeepsKeys(militaria);
    DedupKeys(militaria, {}, CanonicalKey, IdRewrite);
    DedupKeys(others, KeySet(militaria, CanonicalKey), CanonicalKey, NoRewrite);
    DistinctKeysAppend(a, b, CanonicalKey);
    KeySetAppend(a, b, CanonicalKey);
  }

  /** Every collected item is the first listing of its key in scan order, militaria321.com first. */
  lemma AllItemsFirstOccurrence(militaria: seq<Listing>, others: seq<Listing>, m: nat)
    requires m < |AllItems(militaria, others)|
    ensures exists j :: IsFirstFresh(militaria + others, {}, CanonicalKey, j)
                        && (AllItems(militaria, others)[m] == IdRewrite((militaria + others)[j])
                            || AllItems(militaria, others)[m] == (militaria + others)[j])
  {
    var a := Dedup(militaria, {}, CanonicalKey, IdRewrite);
    if m < |a| {
      FirstOccurrenceLeft(militaria, others, m);
    } else {
      FirstOccurrenceRight(militaria, others, m - |a|);
    }
  }

  lemma FirstOccurrenceLeft(militaria: seq<Listing>, others: seq<Listing>, m: nat)
    requires m < |Dedup(militaria, {}, CanonicalKey, IdRewrite)|
    ensures exists j :: IsFirstFresh(militaria + others, {}, CanonicalKey, j)
                        && Dedup(militaria, {}, CanonicalKey, IdRewrite)[m] == IdRewrite((militaria + others)[j])
  {
    FirstInPrefix(militaria, others, CanonicalKey, IdRewrite, m);
  }

  lemma FirstOccurrenceRight(militaria: seq<Listing>, others: seq<Listing>, m: nat)
    requires m < |Dedup(others, KeySet(militaria, CanonicalKey), CanonicalKey, NoRewrite)|
    ensures exists j :: IsFirstFresh(militaria + others, {}, CanonicalKey, j)
                        && Dedup(others, KeySet(militaria, CanonicalKey), CanonicalKey, NoRewrite)[m]
                           == (militaria + others)[j]
  {
    FirstInSuffix(militaria, others, CanonicalKey, NoRewrite, m);
  }

  /** A first occurrence in `a` is a first occurrence in `a + b`. */
  lemma FirstInPrefix(a: seq<Listing>, b: seq<Listing>, key: Listing -> string,
                      rewrite: Listing -> Listing, m: nat)
    requires m < |Dedup(a, {}, key, rewrite)|
    ensures exists j :: IsFirstFresh(a + b, {}, key, j) && Dedup(a, {}, key, rewrite)[m] == rewrite((a + b)[j])
  {
    var all := a + b;
    DedupKeepsFirst(a, {}, key, rewrite, m);
    var j :| IsFirstFresh(a, {}, key, j) && Dedup(a, {}, key, rewrite)[m] == rewrite(a[j]);
    assert all[j] == a[j];
    forall i | 0 <= i < j ensures key(all[i]) != key(all[j]) {
      assert all[i] == a[i];
    }
    assert IsFirstFresh(all, {}, key, j);
  }

  /** A first occurrence in `b` of a key outside those of `a` is a first occurrence in `a + b`. */
  lemma FirstInSuffix(a: seq<Listing>, b: seq<Listing>, key: Listing -> string,
                      rewrite: Listing -> Listing, m: nat)
    requires m < |Dedup(b, KeySet(a, key), key, rewrite)|
    ensures exists j :: IsFirstFresh(a + b, {}, key, j)
                        && Dedup(b, KeySet(a, key), key, rewrite)[m] == rewrite((a + b)[j])
  {
    var run := KeySet(a, key);
    var all := a + b;
    DedupKeepsFirst(b, run, key, rewrite, m);
    var j :| IsFirstFresh(b, run, key, j) && Dedup(b, run, key, rewrite)[m] == rewrite(b[j]);
    var j' := |a| + j;
    assert all[j'] == b[j];
    forall i | 0 <= i < j' ensures key(all[i]) != key(all[j']) {
      if i < |a| {
        assert all[i] == a[i];
        KeySetMembers(a, key, key(a[i]));
      } else {
        assert all[i] == b[i - |a|];
      }
    }
    assert IsFirstFresh(all, {}, key, j');
  }

  /** Lists whose keys agree position by position have the same key set and the same distinctness. */
  lemma {:induction false} KeySetPointwise(a: seq<Listing>, b: seq<Listing>, key: Listing -> string)
    requires |a| == |b|
    requires forall k :: 0 <= k < |a| ==> key(a[k]) == key(b[k])
    ensures KeySet(a, key) == KeySet(b, key)
    ensures DistinctKeys(a, key) <==> DistinctKeys(b, key)
  {
    if |a| > 0 {
      var n := |a| - 1;
      assert forall k :: 0 <= k < n ==> a[..n][k] == a[k] && b[..n][k] == b[k];
      KeySetPointwise(a[..n], b[..n], key);
    }
  }

  // ---------------------------------------------------------------------
  // Enrichment of unseen listings
  // ---------------------------------------------------------------------

  /** `_apply_posted_ts_fallback` on one listing: an egun.de listing without `posted_ts` is dated one day back. */
  function Fallback(item: Listing, now: int): (r: Listing)
    ensures r.platform == EGUN ==> r.postedTs.Some?
    ensures r.platform != EGUN || item.postedTs.Some? ==> r == item
    ensures r.(postedTs := item.postedTs) == item
  {
    if item.platform == EGUN && item.postedTs.None? then item.(postedTs := Some(now - FALLBACK_AGE_SECONDS))
    else item
  }

  /**
   * Enrichment of one item of `all_items`: an unseen listing on a platform
   * with a detail fetcher takes its detail-page `posted_ts` when it had none,
   * then the egun.de fallback applies.  Seen listings are untouched.
   */
  function Enrich(item: Listing, seen: seq<string>, fetchers: set<string>,
                  detail: string -> Option<int>, now: int): (r: Listing)
    ensures r.(postedTs := item.postedTs) == item
  {
    if CanonicalKey(item) in seen then item
    else
      var fetched := if item.platform in fetchers && item.postedTs.None?
                     then item.(postedTs := detail(CanonicalKey(item))) else item;
      Fallback(fetched, now)
  }

  /** Enrichment changes the timestamp alone, and only of an unseen listing that had none. */
  lemma EnrichOnlyDates(item: Listing, seen: seq<string>, fetchers: set<string>,
                        detail: string -> Option<int>, now: int)
    ensures CanonicalKey(Enrich(item, seen, fetchers, detail, now)) == CanonicalKey(item)
    ensures CanonicalKey(item) in seen || item.postedTs.Some? ==> Enrich(item, seen, fetchers, detail, now) == item
    ensures CanonicalKey(item) !in seen && item.platform == EGUN ==>
              Enrich(item, seen, fetchers, detail, now).postedTs.Some?
  {
    var r := Enrich(item, seen, fetchers, detail, now);
    SameIdentitySameKey(r, item);
  }

  function EnrichAll(items: seq<Listing>, seen: seq<string>, fetchers: set<string>,
                     detail: string -> Option<int>, now: int): (r: seq<Listing>)
    ensures |r| == |items|
    ensures forall k :: 0 <= k < |items| ==> r[k] == Enrich(items[k], seen, fetchers, detail, now)
  {
    if |items| == 0 then []
    else EnrichAll(items[..|items| - 1], seen, fetchers, detail, now)
         + [Enrich(items[|items| - 1], seen, fetchers, detail, now)]
  }

  /** Enrichment changes only timestamps, so keys and their distinctness survive it. */
  lemma EnrichAllKeys(items: seq<Listing>, seen: seq<string>, fetchers: set<string>,
                      detail: string -> Option<int>, now: int)
    ensures KeySet(EnrichAll(items, seen, fetchers, detail, now), CanonicalKey) == KeySet(items, CanonicalKey)
    ensures DistinctKeys(items, CanonicalKey) ==> DistinctKeys(EnrichAll(items, seen, fetchers, detail, now), CanonicalKey)
  {
    var r := EnrichAll(items, seen, fetchers, detail, now);
    forall k | 0 <= k < |r| ensures CanonicalKey(r[k]) == CanonicalKey(items[k]) {
      assert r[k] == Enrich(items[k], seen, fetchers, detail, now);
      EnrichOnlyDates(items[k], seen, fetchers, detail, now);
    }
    KeySetPointwise(r, items, CanonicalKey);
  }

  // ---------------------------------------------------------------------
  // Gating
  // ---------------------------------------------------------------------

  /** `new_seen_keys`: the canonical keys of the collected items that were not seen before. */
  function NewSeenKeys(items: seq<Listing>, seen: seq<string>): seq<string>
  {
    if |items| == 0 then []
    else NewSeenKeys(items[..|items| - 1], seen)
         + (var k := CanonicalKey(items[|items| - 1]); if k in seen then [] else [k])
  }

  /** The items that pass the gate, in collection order. */
  function PushedItems(items: seq<Listing>, kw: Keyword, now: int): seq<Listing>
  {
    if |items| == 0 then []
    else PushedItems(items[..|items| - 1], kw, now)
         + (var it := items[|items| - 1];
            if CanonicalKey(it) !in kw.seenListingKeys && IsNewListing(it, kw, now) then [it] else [])
  }

  /** `new_seen_keys` holds exactly the collected keys not seen before, each once when the items' keys are distinct. */
  lemma {:induction false} NewSeenKeysExactly(items: seq<Listing>, seen: seq<string>)
    ensures forall k :: k in NewSeenKeys(items, seen) <==> k in KeySet(items, CanonicalKey) && k !in seen
    ensures DistinctKeys(items, CanonicalKey) ==> NoDuplicates(NewSeenKeys(items, seen))
  {
    if |items| > 0 {
      var p := items[..|items| - 1];
      NewSeenKeysExactly(p, seen);
      var last := CanonicalKey(items[|items| - 1]);
      if DistinctKeys(items, CanonicalKey) {
        assert DistinctKeys(p, CanonicalKey) by {
          forall i, j | 0 <= i < j < |p| ensures CanonicalKey(p[i]) != CanonicalKey(p[j]) {
            assert p[i] == items[i] && p[j] == items[j];
          }
        }
        assert last !in KeySet(p, CanonicalKey) by {
          KeySetMembers(p, CanonicalKey, last);
          forall i | 0 <= i < |p| ensures CanonicalKey(p[i]) != last {
            assert p[i] == items[i];
          }
        }
      }
    }
  }

  /** The pushed items are exactly the unseen ones the newness gate accepts. */
  lemma {:induction false} PushedItemsExactly(items: seq<Listing>, kw: Keyword, now: int, it: Listing)
    ensures it in PushedItems(items, kw, now)
        <==> it in items && CanonicalKey(it) !in kw.seenListingKeys && IsNewListing(it, kw, now)
    ensures |PushedItems(items, kw, now)| <= |NewSeenKeys(items, kw.seenListingKeys)|
  {
    if |items| > 0 {
      var p := items[..|items| - 1];
      PushedItemsExactly(p, kw, now, it);
      assert items == p + [items[|items| - 1]];
    }
  }

  /** The gating loop: every unseen key joins `new_seen_keys`; the gate decides push or absorb. */
  method Gate(items: seq<Listing>, kw: Keyword, now: int)
    returns (newSeenKeys: seq<string>, pushedItems: seq<Listing>, pushed: nat, absorbed: nat)
    ensures newSeenKeys == NewSeenKeys(items, kw.seenListingKeys)
    ensures pushedItems == PushedItems(items, kw, now)
    ensures pushed == |pushedItems| && pushed + absorbed == |newSeenKeys|
  {
    newSeenKeys := [];
    pushedItems := [];
    pushed := 0;
    absorbed := 0;
    var i := 0;
    while i < |items|
      invariant 0 <= i <= |items|
      invariant newSeenKeys == NewSeenKeys(items[..i], kw.seenListingKeys)
      invariant pushedItems == PushedItems(items[..i], kw, now)
      invariant pushed == |pushedItems| && pushed + absorbed == |newSeenKeys|
    {
      assert items[..i + 1][..i] == items[..i];
      var item := items[i];
      var key := CanonicalKey(item);
      if key !in kw.seenListingKeys {
        newSeenKeys := newSeenKeys + [key];
        if IsNewListing(item, kw, now) {
          pushedItems := pushedItems + [item];
          pushed := pushed + 1;
        } else {
          absorbed := absorbed + 1;
        }
      }
      i := i + 1;
    }
    assert items[..i] == items;
  }

  // ---------------------------------------------------------------------
  // The loops of search_keyword
  // ---------------------------------------------------------------------

  /** The other providers' items up to index `j + 1`, and what that does to de-duplication and key sets. */
  lemma OtherItemsStep(registry: seq<string>, j: nat, platforms: seq<string>,
                       crawl: string -> Option<seq<Listing>>, run: set<string>, key: Listing -> string)
    requires j < |registry|
    ensures var done := OtherItems(registry[..j], platforms, crawl);
            var more := Contribution(registry[j], platforms, crawl);
            && OtherItems(registry[..j + 1], platforms, crawl) == done + more
            && Dedup(done + more, run, key, NoRewrite)
               == Dedup(done, run, key, NoRewrite) + Dedup(more, run + KeySet(done, key), key, NoRewrite)
            && KeySet(done + more, key) == KeySet(done, key) + KeySet(more, key)
  {
    var done := OtherItems(registry[..j], platforms, crawl);
    var more := Contribution(registry[j], platforms, crawl);
    assert registry[..j + 1][..j] == registry[..j];
    DedupAppend(done, more, run, key, NoRewrite);
    KeySetAppend(done, more, key);
  }

  /** One provider of the second loop: its crawl is searched only when it applies, and its items de-duplicated. */
  method CollectOne(p: string, platforms: seq<string>, crawl: string -> Option<seq<Listing>>,
                    run: set<string>, key: Listing -> string)
    returns (added: seq<Listing>, run': set<string>)
    ensures added == Dedup(Contribution(p, platforms, crawl), run, key, NoRewrite)
    ensures run' == run + KeySet(Contribution(p, platforms, crawl), key)
  {
    if p != MILITARIA && p in platforms && crawl(p).Some? {
      added, run' := DedupInto(crawl(p).value, [], run, key, NoRewrite);
      assert [] + Dedup(crawl(p).value, run, key, NoRewrite) == Dedup(crawl(p).value, run, key, NoRewrite);
    } else {
      added, run' := [], run;
    }
  }

  /** The loop over the other registered providers; `added` is what it appends to `all_items`. */
  method CollectOthers(registry: seq<string>, platforms: seq<string>,
                       crawl: string -> Option<seq<Listing>>, run: set<string>, key: Listing -> string)
    returns (added: seq<Listing>, run': set<string>)
    ensures added == Dedup(OtherItems(registry, platforms, crawl), run, key, NoRewrite)
    ensures run' == run + KeySet(OtherItems(registry, platforms, crawl), key)
  {
    added := [];
    run' := run;
    var j := 0;
    while j < |registry|
      invariant 0 <= j <= |registry|
      invariant added == Dedup(OtherItems(registry[..j], platforms, crawl), run, key, NoRewrite)
      invariant run' == run + KeySet(OtherItems(registry[..j], platforms, crawl), key)
    {
      OtherItemsStep(registry, j, platforms, crawl, run, key);
      var part;
      part, run' := CollectOne(registry[j], platforms, crawl, run', key);
      added := added + part;
      j := j + 1;
    }
    assert registry[..j] == registry;
  }

  method EnrichItems(items: seq<Listing>, seen: seq<string>, fetchers: set<string>,
                     detail: string -> Option<int>, now: int)
    returns (r: seq<Listing>)
    ensures r == EnrichAll(items, seen, fetchers, detail, now)
  {
    r := [];
    var i := 0;
    while i < |items|
      invariant 0 <= i <= |items|
      invariant r == EnrichAll(items[..i], seen, fetchers, detail, now)
    {
      assert items[..i + 1][..i] == items[..i];
      r := r + [Enrich(items[i], seen, fetchers, detail, now)];
      i := i + 1;
    }
    assert items[..i] == items;
  }

  /** The provider list repair of `_ensure_keyword_platforms`: known providers kept in stored order, missing ones appended in registry order. */
  function EnsuredPlatforms(current: seq<string>, expected: seq<string>): seq<string>
  {
    AddToSet(KeepKnown(current, expected), expected)
  }

  function KeepKnown(current: seq<string>, expected: seq<string>): (r: seq<string>)
    ensures |r| <= |current|
  {
    if |current| == 0 then []
    else KeepKnown(current[..|current| - 1], expected)
         + (if current[|current| - 1] in expected then [current[|current| - 1]] else [])
  }

  /** The filter keeps exactly the stored providers that are registered. */
  lemma {:induction false} KeepKnownMembers(current: seq<string>, expected: seq<string>, p: string)
    ensures p in KeepKnown(current, expected) <==> p in current && p in expected
  {
    if |current| > 0 {
      var c' := current[..|current| - 1];
      KeepKnownMembers(c', expected, p);
      assert current == c' + [current[|current| - 1]];
    }
  }

  /** The repaired list names exactly the registered providers, and repairing again changes nothing. */
  lemma EnsuredPlatformsProps(current: seq<string>, expected: seq<string>)
    ensures forall p :: p in EnsuredPlatforms(current, expected) <==> p in expected
    ensures EnsuredPlatforms(EnsuredPlatforms(current, expected), expected) == EnsuredPlatforms(current, expected)
  {
    var r := EnsuredPlatforms(current, expected);
    forall p ensures p in KeepKnown(current, expected) <==> p in current && p in expected {
      KeepKnownMembers(current, expected, p);
    }
    AddToSetIsUnion(KeepKnown(current, expected), expected);
    KeepKnownAll(r, expected);
    AddToSetPresent(r, expected);
  }

  lemma {:induction false} KeepKnownAll(current: seq<string>, expected: seq<string>)
    requires forall p :: p in current ==> p in expected
    ensures KeepKnown(current, expected) == current
  {
    if |current| > 0 {
      var c' := current[..|current| - 1];
      assert forall k :: 0 <= k < |c'| ==> c'[k] == current[k];
      KeepKnownAll(c', expected);
      assert current == c' + [current[|current| - 1]];
    }
  }

  lemma {:induction false} AddToSetPresent(list: seq<string>, keys: seq<string>)
    requires forall k :: k in keys ==> k in list
    decreases |keys|
    ensures AddToSet(list, keys) == list
  {
    if |keys| > 0 {
      AddToSetPresent(list, keys[1..]);
    }
  }

  /** `_ensure_keyword_platforms`: the filter and the append loop, then a store write only when the list changed. */
  method EnsureKeywordPlatforms(db: Store, kw: Keyword, expected: seq<string>)
    returns (filtered: seq<string>, kw': Keyword)
    modifies db
    ensures filtered == EnsuredPlatforms(kw.platforms, expected)
    ensures kw' == kw.(platforms := filtered)
    ensures filtered != kw.platforms ==> db.keywords == UpdateFirst(old(db.keywords), kw.id, (d: Keyword) => d.(platforms := filtered))
    ensures filtered == kw.platforms ==> db.keywords == old(db.keywords)
    ensures db.users == old(db.users) && db.listings == old(db.listings) && db.notifications == old(db.notifications)
  {
    var current := kw.platforms;
    filtered := [];
    var i := 0;
    while i < |current|
      invariant 0 <= i <= |current|
      invariant filtered == KeepKnown(current[..i], expected)
    {
      assert current[..i + 1][..i] == current[..i];
      if current[i] in expected {
        filtered := filtered + [current[i]];
      }
      i := i + 1;
    }
    assert current[..i] == current;
    var j := 0;
    while j < |expected|
      invariant 0 <= j <= |expected|
      invariant AddToSet(filtered, expected[j..]) == EnsuredPlatforms(current, expected)
    {
      assert expected[j..][1..] == expected[j + 1..];
      if expected[j] !in filtered {
        filtered := filtered + [expected[j]];
      }
      j := j + 1;
    }
    kw' := kw.(platforms := filtered);
    if filtered != current {
      db.SetKeywordFields(kw.id, (d: Keyword) => d.(platforms := filtered));
    }
  }

  /** `_apply_posted_ts_fallback` on the item list in place; an empty list is left alone. */
  method ApplyPostedTsFallback(items: array<Listing>, now: int)
    modifies items
    ensures forall k :: 0 <= k < items.Length ==> items[k] == Fallback(old(items[k]), now)
  {
    if items.Length == 0 {
      return;
    }
    var i := 0;
    while i < items.Length
      invariant 0 <= i <= items.Length
      invariant forall k :: 0 <= k < i ==> items[k] == Fallback(old(items[k]), now)
      invariant forall k :: i <= k < items.Length ==> items[k] == old(items[k])
    {
      items[i] := Fallback(items[i], now);
      i := i + 1;
    }
  }

  // ---------------------------------------------------------------------
  // search_keyword
  // ---------------------------------------------------------------------

  /** What the militaria321.com crawl returned: its items and `pages_scanned`. */
  datatype Crawl = Crawl(items: seq<Listing>, pagesScanned: Option<int>)

  /** `_update_keyword_telemetry`: copy the telemetry fields of the in-memory keyword. */
  function Telemetry(kw: Keyword, now: int): Keyword -> Keyword
  {
    (d: Keyword) => d.(lastChecked := kw.lastChecked, lastSuccessTs := kw.lastSuccessTs,
                       lastErrorTs := kw.lastErrorTs, lastErrorMessage := kw.lastErrorMessage,
                       consecutiveErrors := kw.consecutiveErrors, baselineStatus := kw.baselineStatus,
                       baselineErrors := kw.baselineErrors, updatedAt := Some(now))
  }

  /** The gate reads only the seen list and `since_ts` of the keyword. */
  lemma {:induction false} PushedItemsSameGate(items: seq<Listing>, a: Keyword, b: Keyword, now: int)
    requires a.seenListingKeys == b.seenListingKeys && a.sinceTs == b.sinceTs
    ensures PushedItems(items, a, now) == PushedItems(items, b, now)
  {
    if |items| > 0 {
      PushedItemsSameGate(items[..|items| - 1], a, b, now);
    }
  }

  /** Both de-duplication loops of `search_keyword`. */
  method Collect(militaria: seq<Listing>, registry: seq<string>, platforms: seq<string>,
                 crawl: string -> Option<seq<Listing>>)
    returns (all: seq<Listing>)
    ensures all == AllItems(militaria, OtherItems(registry, platforms, crawl))
  {
    var run, added;
    all, run := DedupInto(militaria, [], {}, CanonicalKey, IdRewrite);
    assert all == Dedup(militaria, {}, CanonicalKey, IdRewrite);
    assert run == KeySet(militaria, CanonicalKey);
    added, run := CollectOthers(registry, platforms, crawl, run, CanonicalKey);
    all := all + added;
  }

  /** The error path: telemetry records the failure, nothing else is written. */
  method RecordFailure(db: Store, k: Keyword, errorMessage: string, now: int) returns (kw': Keyword)
    modifies db
    ensures kw' == k.(lastChecked := Some(now), lastErrorTs := Some(now),
                      consecutiveErrors := k.consecutiveErrors + 1,
                      lastErrorMessage := Some(Prefix(errorMessage, 500)))
    ensures db.keywords == UpdateFirst(old(db.keywords), k.id, Telemetry(kw', now))
    ensures db.users == old(db.users) && db.listings == old(db.listings)
    ensures db.notifications == old(db.notifications)
  {
    kw' := k.(lastChecked := Some(now), lastErrorTs := Some(now),
              consecutiveErrors := k.consecutiveErrors + 1,
              lastErrorMessage := Some(Prefix(errorMessage, 500)));
    db.SetKeywordFields(k.id, Telemetry(kw', now));
  }

  /**
   * The stored document `d` after a successful poll of the in-memory keyword
   * `k`: the new keys added to its seen set, the page estimate written when
   * it differs from `k`'s, then `k`'s telemetry after the success.
   */
  function SuccessDoc(d: Keyword, k: Keyword, unseenKeys: seq<string>, militariaPages: int, now: int): Keyword
  {
    var estimate := NextPagesEstimate(k, militariaPages);
    var grown := d.(seenListingKeys := AddToSet(d.seenListingKeys, unseenKeys));
    var estimated := if estimate != k.totalPagesEstimate then grown.(totalPagesEstimate := estimate) else grown;
    Telemetry(k.(lastChecked := Some(now), lastSuccessTs := Some(now), consecutiveErrors := 0,
                 lastErrorMessage := None), now)(estimated)
  }

  /**
   * After a successful poll the stored document holds its old seen keys
   * followed by the new ones, records the success at `now` with the error
   * count reset, gains a page estimate of at least 1 exactly when the
   * keyword had none and pages were scanned, and keeps its identity,
   * text, platforms and window.
   */
  lemma SuccessDocSpec(d: Keyword, k: Keyword, unseenKeys: seq<string>, militariaPages: int, now: int)
    ensures var r := SuccessDoc(d, k, unseenKeys, militariaPages, now);
            && |d.seenListingKeys| <= |r.seenListingKeys| && r.seenListingKeys[..|d.seenListingKeys|] == d.seenListingKeys
            && (forall key :: key in r.seenListingKeys <==> key in d.seenListingKeys || key in unseenKeys)
            && r.lastChecked == Some(now) && r.lastSuccessTs == Some(now) && r.updatedAt == Some(now)
            && r.consecutiveErrors == 0 && r.lastErrorMessage.None? && r.lastErrorTs == k.lastErrorTs
            && (k.totalPagesEstimate.None? && militariaPages > 0 ==>
                  r.totalPagesEstimate.Some? && r.totalPagesEstimate.value >= 1)
            && (k.totalPagesEstimate.Some? || militariaPages <= 0 ==> r.totalPagesEstimate == d.totalPagesEstimate)
            && r.id == d.id && r.userId == d.userId && r.originalKeyword == d.originalKeyword
            && r.normalizedKeyword == d.normalizedKeyword && r.platforms == d.platforms
            && r.sinceTs == d.sinceTs && r.isActive == d.isActive
  {
    AddToSetIsUnion(d.seenListingKeys, unseenKeys);
  }

  /** The success document reads of the in-memory keyword only its estimate inputs and the telemetry it copies. */
  lemma SuccessDocReads(d: Keyword, a: Keyword, b: Keyword, unseenKeys: seq<string>, militariaPages: int, now: int)
    requires a.totalPagesEstimate == b.totalPagesEstimate && a.baselineMilitariaPages == b.baselineMilitariaPages
    requires a.pollCursorPage == b.pollCursorPage && a.lastErrorTs == b.lastErrorTs
    requires a.baselineStatus == b.baselineStatus && a.baselineErrors == b.baselineErrors
    ensures SuccessDoc(d, a, unseenKeys, militariaPages, now) == SuccessDoc(d, b, unseenKeys, militariaPages, now)
  {
  }

  /** The writes of a successful poll: the seen-set growth, the page estimate and the telemetry. */
  method RecordSuccess(db: Store, k: Keyword, unseenKeys: seq<string>, militariaPages: int, now: int)
    returns (kw': Keyword)
    modifies db
    ensures kw' == k.(lastChecked := Some(now), lastSuccessTs := Some(now), consecutiveErrors := 0,
                      lastErrorMessage := None)
    ensures FindKeyword(db.keywords, k.id).Some? == FindKeyword(old(db.keywords), k.id).Some?
    ensures FindKeyword(old(db.keywords), k.id).Some? ==>
              FindKeyword(db.keywords, k.id) == Some(SuccessDoc(FindKeyword(old(db.keywords), k.id).value,
                                                                k, unseenKeys, militariaPages, now))
    ensures FindKeyword(old(db.keywords), k.id).Some? ==>
              StoredSeen(db.keywords, k.id) == AddToSet(StoredSeen(old(db.keywords), k.id), unseenKeys)
    ensures db.users == old(db.users) && db.listings == old(db.listings)
    ensures db.notifications == old(db.notifications)
  {
    ghost var d := FindKeyword(db.keywords, k.id);
    ghost var grown := if d.Some? then Some(d.value.(seenListingKeys := AddToSet(d.value.seenListingKeys, unseenKeys)))
                       else None;
    if |unseenKeys| > 0 {
      FindAfterUpdate(db.keywords, k.id, (x: Keyword) => x.(seenListingKeys := AddToSet(x.seenListingKeys, unseenKeys)));
      db.AddSeenKeys(k.id, unseenKeys);
    } else if d.Some? {
      assert grown.value == d.value;
    }
    assert FindKeyword(db.keywords, k.id) == grown;
    var estimate := NextPagesEstimate(k, militariaPages);
    if estimate != k.totalPagesEstimate {
      FindAfterUpdate(db.keywords, k.id, (x: Keyword) => x.(totalPagesEstimate := estimate));
      db.SetKeywordFields(k.id, (x: Keyword) => x.(totalPagesEstimate := estimate));
    }
    kw' := k.(lastChecked := Some(now), lastSuccessTs := Some(now), consecutiveErrors := 0,
              lastErrorMessage := None);
    FindAfterUpdate(db.keywords, k.id, Telemetry(kw', now));
    db.SetKeywordFields(k.id, Telemetry(kw', now));
  }

  /** The stored document after `_ensure_keyword_platforms`: the repaired list is written only when it differs. */
  function PlatformsRepaired(d: Keyword, kw: Keyword, registry: seq<string>): Keyword
  {
    var platforms := EnsuredPlatforms(kw.platforms, registry);
    if platforms != kw.platforms then d.(platforms := platforms) else d
  }

  /** `_ensure_keyword_platforms` seen from the stored document: only its platforms may change. */
  method RepairPlatforms(db: Store, kw: Keyword, registry: seq<string>) returns (k: Keyword)
    modifies db
    ensures k == kw.(platforms := EnsuredPlatforms(kw.platforms, registry))
    ensures FindKeyword(db.keywords, kw.id).Some? == FindKeyword(old(db.keywords), kw.id).Some?
    ensures FindKeyword(old(db.keywords), kw.id).Some? ==>
              FindKeyword(db.keywords, kw.id) == Some(PlatformsRepaired(FindKeyword(old(db.keywords), kw.id).value, kw, registry))
    ensures StoredSeen(db.keywords, kw.id) == StoredSeen(old(db.keywords), kw.id)
    ensures db.users == old(db.users) && db.listings == old(db.listings) && db.notifications == old(db.notifications)
  {
    var platforms;
    platforms, k := EnsureKeywordPlatforms(db, kw, registry);
    if platforms != kw.platforms {
      SeenKeptBy(old(db.keywords), kw.id, (d: Keyword) => d.(platforms := platforms));
      FindAfterUpdate(old(db.keywords), kw.id, (d: Keyword) => d.(platforms := platforms));
    }
  }

  /**
   * One poll of `kw`.  `militaria` is the militaria321.com crawl (`None`
   * when it raised), `crawl` the other providers' crawls, `detail` the
   * detail-page timestamps, `fetchers` the platforms that have a detail
   * fetcher, `registry` the provider names in registration order.
   */
  method SearchKeyword(db: Store, kw: Keyword, registry: seq<string>,
                       militaria: Option<Crawl>, errorMessage: string,
                       crawl: string -> Option<seq<Listing>>,
                       fetchers: set<string>, detail: string -> Option<int>, now: int)
    returns (newItems: seq<Listing>, kw': Keyword, pushed: nat, absorbed: nat)
    modifies db
    ensures db.users == old(db.users) && db.listings == old(db.listings)
    ensures db.notifications == old(db.notifications)
    ensures kw'.platforms == EnsuredPlatforms(kw.platforms, registry)
    ensures kw'.seenListingKeys == kw.seenListingKeys
    ensures kw'.id == kw.id && kw'.userId == kw.userId && kw'.originalKeyword == kw.originalKeyword
    ensures kw'.sinceTs == Some(SinceTs(kw, now))
    ensures kw'.lastChecked == Some(now)
    ensures FindKeyword(db.keywords, kw.id).Some? == FindKeyword(old(db.keywords), kw.id).Some?
    ensures militaria.None? ==>
              && newItems == [] && pushed == 0 && absorbed == 0
              && kw'.lastErrorTs == Some(now) && kw'.lastSuccessTs == kw.lastSuccessTs
              && kw'.consecutiveErrors == kw.consecutiveErrors + 1
              && kw'.lastErrorMessage == Some(Prefix(errorMessage, 500))
              && StoredSeen(db.keywords, kw.id) == StoredSeen(old(db.keywords), kw.id)
              && (FindKeyword(old(db.keywords), kw.id).Some? ==>
                    FindKeyword(db.keywords, kw.id)
                    == Some(Telemetry(kw', now)(PlatformsRepaired(FindKeyword(old(db.keywords), kw.id).value, kw, registry))))
    ensures militaria.Some? ==>
              var all := EnrichAll(AllItems(militaria.value.items,
                                            OtherItems(registry, kw'.platforms, crawl)),
                                   kw.seenListingKeys, fetchers, detail, now);
              var unseenKeys := NewSeenKeys(all, kw.seenListingKeys);
              && newItems == PushedItems(all, kw', now)
              && pushed == |newItems| && pushed + absorbed == |unseenKeys|
              && kw'.lastSuccessTs == Some(now) && kw'.consecutiveErrors == 0
              && kw'.lastErrorMessage.None? && kw'.lastErrorTs == kw.lastErrorTs
              && (FindKeyword(old(db.keywords), kw.id).Some? ==>
                    StoredSeen(db.keywords, kw.id) == AddToSet(StoredSeen(old(db.keywords), kw.id), unseenKeys))
              && (FindKeyword(old(db.keywords), kw.id).Some? ==>
                    FindKeyword(db.keywords, kw.id)
                    == Some(SuccessDoc(PlatformsRepaired(FindKeyword(old(db.keywords), kw.id).value, kw, registry),
                                       kw, unseenKeys, militaria.value.pagesScanned.GetOr(0), now)))
  {
    var k := RepairPlatforms(db, kw, registry);
    ghost var docs0 := db.keywords;
    k := k.(sinceTs := Some(SinceTs(k, now)));
    if militaria.None? {
      SeenKeptBy(db.keywords, kw.id, Telemetry(k.(lastChecked := Some(now), lastErrorTs := Some(now),
                                                   consecutiveErrors := k.consecutiveErrors + 1,
                                                   lastErrorMessage := Some(Prefix(errorMessage, 500))), now));
      kw' := RecordFailure(db, k, errorMessage, now);
      FindAfterUpdate(docs0, kw.id, Telemetry(kw', now));
      return [], kw', 0, 0;
    }
    var result := militaria.value;
    var all := Collect(result.items, registry, k.platforms, crawl);
    all := EnrichItems(all, k.seenListingKeys, fetchers, detail, now);
    var unseenKeys;
    unseenKeys, newItems, pushed, absorbed := Gate(all, k, now);
    kw' := RecordSuccess(db, k, unseenKeys, result.pagesScanned.GetOr(0), now);
    PushedItemsSameGate(all, k, kw', now);
    if FindKeyword(docs0, kw.id).Some? {
      SuccessDocReads(FindKeyword(docs0, kw.id).value, k, kw, unseenKeys, result.pagesScanned.GetOr(0), now);
    }

  }
}
