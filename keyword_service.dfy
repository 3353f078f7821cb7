/**
 * The older backend's keyword service: keyword normalisation, the
 * `"platform:platform_id"` listing key, and the updates it makes to the
 * keyword documents (status, seen set, baseline seed, subscription reset,
 * last-checked time).  The document collection is the service's state.
 */
module KeywordService {
  import opened Wrappers
  import opened Chars
  import opened BackendModels
  import ListingKey

  // ---------------------------------------------------------------------
  // Normalisation and keys
  // ---------------------------------------------------------------------

  /** `normalize_keyword`: strip, then fold the case. */
  function NormalizeKeyword(s: string): (r: string)
    ensures |r| <= |s|
  {
    Lower(Strip(s))
  }

  /** The normalised keyword holds no capital and neither starts nor ends with white space. */
  lemma NormalizeShape(s: string)
    ensures var r := NormalizeKeyword(s);
            && (forall k :: 0 <= k < |r| ==> !IsUpper(r[k]))
            && (|r| > 0 ==> !IsSpace(r[0]) && !IsSpace(r[|r| - 1]))
  {
    var t := Strip(s);
    StripEnds(s);
    if |t| > 0 {
      LowerAt(t, 0);
      LowerAt(t, |t| - 1);
      LowerKeepsSpace(t[0]);
      LowerKeepsSpace(t[|t| - 1]);
    }
    LowerUpperFree(t);
  }

  lemma LowerUpperFree(s: string)
    ensures forall k :: 0 <= k < |s| ==> !IsUpper(Lower(s)[k])
  {
    forall k | 0 <= k < |s| ensures !IsUpper(Lower(s)[k]) {
      LowerAt(s, k);
    }
  }

  /** Normalising twice is normalising once. */
  lemma NormalizeIdempotent(s: string)
    ensures NormalizeKeyword(NormalizeKeyword(s)) == NormalizeKeyword(s)
  {
    var n := NormalizeKeyword(s);
    StripLower(Strip(s));
    StripIdempotent(s);
    LowerIdempotent(Strip(s));
    assert Strip(n) == Lower(Strip(s));
  }

  /** Keywords that differ only in letter case normalise alike. */
  lemma NormalizeIgnoresCase(a: string, b: string)
    requires Lower(a) == Lower(b)
    ensures NormalizeKeyword(a) == NormalizeKeyword(b)
  {
    StripLower(a);
    StripLower(b);
    LowerIdempotent(Strip(a));
    LowerIdempotent(Strip(b));
    assert NormalizeKeyword(a) == Lower(Strip(Lower(a)));
  }

  /** `make_listing_key`: `f"{platform}:{platform_id}"`, the raw id unchanged. */
  function MakeListingKey(platform: string, platformId: string): string
  {
    platform + [':'] + platformId
  }

  /** For a platform name without ':', the key splits back into its two parts. */
  lemma ListingKeyParts(platform: string, platformId: string)
    requires ':' !in platform
    ensures ListingKey.ParseListingKey(MakeListingKey(platform, platformId)) == (platform, platformId)
  {
    SplitOnceJoin(platform, ':', platformId);
  }

  /** Two listings on platforms without ':' share a key only when they share platform and id. */
  lemma ListingKeyInjective(p: string, i: string, q: string, j: string)
    requires ':' !in p && ':' !in q
    requires MakeListingKey(p, i) == MakeListingKey(q, j)
    ensures p == q && i == j
  {
    ListingKeyParts(p, i);
    ListingKeyParts(q, j);
  }

  /** `is_listing_seen`: the listing's key is in the keyword's seen list. */
  predicate IsListingSeen(k: Keyword, platform: string, platformId: string)
  {
    MakeListingKey(platform, platformId) in k.seenListingKeys
  }

  // ---------------------------------------------------------------------
  // Document updates
  // ---------------------------------------------------------------------

  /** The `$set` document of an update: each present field is written, the rest kept. */
  datatype Update = Update(
    isActive: Option<bool>,
    isMuted: Option<bool>,
    mutedUntil: Option<Option<int>>,
    sinceTs: Option<int>,
    seenListingKeys: Option<seq<string>>,
    firstRunCompleted: Option<bool>,
    lastChecked: Option<int>)

  const NO_FIELDS: Update := Update(None, None, None, None, None, None, None)

  /** `update_keyword`'s `$set`, which always adds `updated_at`. */
  function Apply(k: Keyword, u: Update, now: int): (r: Keyword)
    ensures r.id == k.id && r.updatedAt == now
    ensures r.seenListingKeys == if u.seenListingKeys.Some? then u.seenListingKeys.value else k.seenListingKeys
  {
    k.(isActive := u.isActive.GetOr(k.isActive),
       isMuted := u.isMuted.GetOr(k.isMuted),
       mutedUntil := u.mutedUntil.GetOr(k.mutedUntil),
       sinceTs := u.sinceTs.GetOr(k.sinceTs),
       seenListingKeys := u.seenListingKeys.GetOr(k.seenListingKeys),
       firstRunCompleted := u.firstRunCompleted.GetOr(k.firstRunCompleted),
       lastChecked := if u.lastChecked.Some? then u.lastChecked else k.lastChecked,
       updatedAt := now)
  }

  /**
   * `find_one({"id": id})`: the first document with the id.  This is the
   * lookup over the backend's own keyword documents (`BackendModels.Keyword`,
   * with its own fields), not over the bot's `Models.Keyword`, so it cannot
   * share `Database.FindKeyword`.
   */
  function FindKeyword(docs: seq<Keyword>, id: string): (r: Option<Keyword>)
    ensures r.Some? ==> r.value in docs && r.value.id == id
    ensures r.None? ==> forall d :: d in docs ==> d.id != id
  {
    if |docs| == 0 then None
    else if docs[0].id == id then Some(docs[0])
    else FindKeyword(docs[1..], id)
  }

  /** `update_one({"id": id}, {"$set": ...})` on the collection. */
  function UpdateFirst(docs: seq<Keyword>, id: string, u: Update, now: int): (r: seq<Keyword>)
    ensures |r| == |docs|
  {
    if |docs| == 0 then []
    else if docs[0].id == id then [Apply(docs[0], u, now)] + docs[1..]
    else [docs[0]] + UpdateFirst(docs[1..], id, u, now)
  }

  /** The updated document is found with the update applied; every other id finds what it found before. */
  lemma {:induction false} FindAfterUpdate(docs: seq<Keyword>, id: string, u: Update, now: int, other: string)
    requires other != id
    ensures FindKeyword(UpdateFirst(docs, id, u, now), id)
            == if FindKeyword(docs, id).Some? then Some(Apply(FindKeyword(docs, id).value, u, now)) else None
    ensures FindKeyword(UpdateFirst(docs, id, u, now), other) == FindKeyword(docs, other)
  {
    if |docs| > 0 {
      var r := UpdateFirst(docs, id, u, now);
      if docs[0].id == id {
        assert r[1..] == docs[1..];
      } else {
        FindAfterUpdate(docs[1..], id, u, now, other);
        assert r[1..] == UpdateFirst(docs[1..], id, u, now);
      }
    }
  }

  /** The fields `update_keyword_status` writes, or `None` when it has nothing to write. */
  function StatusUpdate(isActive: Option<bool>, isMuted: Option<bool>, mutedUntil: Option<int>): (r: Option<Update>)
    ensures r.None? <==> isActive.None? && isMuted.None?
  {
    var until: Option<Option<int>> :=
      if isMuted == Some(true) && mutedUntil.Some? then Some(mutedUntil)
      else if isMuted == Some(false) then Some(None)
      else None;
    if isActive.None? && isMuted.None? then None
    else Some(NO_FIELDS.(isActive := isActive, isMuted := isMuted, mutedUntil := until))
  }

  /**
   * What a status update does to a document: unmuting clears the mute
   * end, muting with an end stores it, muting without one keeps the old
   * end, and unnamed flags and every other field are kept.
   */
  lemma StatusApplied(k: Keyword, isActive: Option<bool>, isMuted: Option<bool>, mutedUntil: Option<int>, now: int)
    requires StatusUpdate(isActive, isMuted, mutedUntil).Some?
    ensures var r := Apply(k, StatusUpdate(isActive, isMuted, mutedUntil).value, now);
            && r.isActive == (if isActive.Some? then isActive.value else k.isActive)
            && r.isMuted == (if isMuted.Some? then isMuted.value else k.isMuted)
            && (isMuted == Some(false) ==> r.mutedUntil.None?)
            && (isMuted == Some(true) && mutedUntil.Some? ==> r.mutedUntil == mutedUntil)
            && (isMuted == Some(true) && mutedUntil.None? ==> r.mutedUntil == k.mutedUntil)
            && (isMuted.None? ==> r.mutedUntil == k.mutedUntil)
            && r.seenListingKeys == k.seenListingKeys && r.sinceTs == k.sinceTs
            && r.lastChecked == k.lastChecked && r.firstRunCompleted == k.firstRunCompleted
  {
  }

  /** The seen list after `add_to_seen_set`: the key appended unless already there. */
  function AddSeen(seen: seq<string>, key: string): seq<string>
  {
    if key in seen then seen else seen + [key]
  }

  predicate NoDuplicates(s: seq<string>)
  {
    forall i, j :: 0 <= i < j < |s| ==> s[i] != s[j]
  }

  /** The key becomes present, the old list stays a prefix, nothing else is added, and no duplicate appears. */
  lemma AddSeenSpec(seen: seq<string>, key: string)
    ensures var r := AddSeen(seen, key);
            && key in r && |r| <= |seen| + 1 && r[..|seen|] == seen
            && (forall x :: x in r <==> x in seen || x == key)
            && (NoDuplicates(seen) ==> NoDuplicates(r))
  {
    var r := AddSeen(seen, key);
    assert r[..|seen|] == seen;
  }

  /** The collection after `add_to_seen_set` on a present keyword. */
  function AfterAdd(docs: seq<Keyword>, id: string, key: string, now: int): seq<Keyword>
    requires FindKeyword(docs, id).Some?
  {
    var seen := FindKeyword(docs, id).value.seenListingKeys;
    if key in seen then docs else UpdateFirst(docs, id, NO_FIELDS.(seenListingKeys := Some(AddSeen(seen, key))), now)
  }

  /** After the add the key is present, every key present before still is, and a duplicate-free list stays so. */
  lemma AfterAddSpec(docs: seq<Keyword>, id: string, key: string, now: int, x: string)
    requires FindKeyword(docs, id).Some?
    ensures var k := FindKeyword(docs, id).value;
            var r := FindKeyword(AfterAdd(docs, id, key, now), id);
            && r.Some?
            && key in r.value.seenListingKeys
            && (x in k.seenListingKeys ==> x in r.value.seenListingKeys)
            && (NoDuplicates(k.seenListingKeys) ==> NoDuplicates(r.value.seenListingKeys))
  {
    var k := FindKeyword(docs, id).value;
    AddSeenSpec(k.seenListingKeys, key);
    FindAfterUpdate(docs, id, NO_FIELDS.(seenListingKeys := Some(AddSeen(k.seenListingKeys, key))), now, id + "_");
  }

  /** The keys `seed_seen_set` stores: one per listing, in order. */
  function KeysOf(listings: seq<Listing>): (r: seq<string>)
    ensures |r| == |listings|
    ensures forall k :: 0 <= k < |r| ==> r[k] == MakeListingKey(listings[k].platform, listings[k].platformId)
  {
    if |listings| == 0 then []
    else [MakeListingKey(listings[0].platform, listings[0].platformId)] + KeysOf(listings[1..])
  }

  /** After a seed, every seeded listing is seen and only those are. */
  lemma SeededSeen(k: Keyword, listings: seq<Listing>, platform: string, platformId: string, now: int)
    ensures var r := Apply(k, NO_FIELDS.(seenListingKeys := Some(KeysOf(listings))), now);
            IsListingSeen(r, platform, platformId)
            <==> exists j :: 0 <= j < |listings| && MakeListingKey(listings[j].platform, listings[j].platformId) == MakeListingKey(platform, platformId)
  {
    var keys := KeysOf(listings);
    if MakeListingKey(platform, platformId) in keys {
      var j :| 0 <= j < |keys| && keys[j] == MakeListingKey(platform, platformId);
      assert MakeListingKey(listings[j].platform, listings[j].platformId) == MakeListingKey(platform, platformId);
    }
  }

  /** The fields `reset_keyword_subscription` writes. */
  function ResetUpdate(now: int): Update
  {
    NO_FIELDS.(sinceTs := Some(now), seenListingKeys := Some([]), firstRunCompleted := Some(true))
  }

  /** After a reset no listing is seen and the subscription starts now. */
  lemma ResetForgets(k: Keyword, now: int, platform: string, platformId: string)
    ensures var r := Apply(k, ResetUpdate(now), now);
            && !IsListingSeen(r, platform, platformId)
            && r.sinceTs == now && r.firstRunCompleted
            && r.isMuted == k.isMuted && r.isActive == k.isActive
  {
  }

  class Service {
    /** The keyword documents, in store order. */
    var keywords: seq<Keyword>

    constructor(docs: seq<Keyword>)
      ensures keywords == docs
    {
      keywords := docs;
    }

    /**
     * `update_keyword`: true when a document carries the id (its
     * `updated_at` always changes, so the modified count is then 1).
     */
    method UpdateKeyword(id: string, u: Update, now: int) returns (ok: bool)
      modifies this
      ensures ok == FindKeyword(old(keywords), id).Some?
      ensures keywords == UpdateFirst(old(keywords), id, u, now)
    {
      ok := FindKeyword(keywords, id).Some?;
      keywords := UpdateFirst(keywords, id, u, now);
    }

    /** `update_keyword_status`: false and no write when no flag is given. */
    method UpdateKeywordStatus(id: string, isActive: Option<bool>, isMuted: Option<bool>, mutedUntil: Option<int>, now: int)
      returns (ok: bool)
      modifies this
      ensures StatusUpdate(isActive, isMuted, mutedUntil).None? ==> !ok && keywords == old(keywords)
      ensures StatusUpdate(isActive, isMuted, mutedUntil).Some? ==>
                ok == FindKeyword(old(keywords), id).Some?
                && keywords == UpdateFirst(old(keywords), id, StatusUpdate(isActive, isMuted, mutedUntil).value, now)
    {
      var u := StatusUpdate(isActive, isMuted, mutedUntil);
      if u.None? {
        ok := false;
      } else {
        ok := UpdateKeyword(id, u.value, now);
      }
    }

    /** `update_last_checked`: without a given time (`None`) the check time is `now`. */
    method UpdateLastChecked(id: string, lastChecked: Option<int>, now: int) returns (ok: bool)
      modifies this
      ensures ok == FindKeyword(old(keywords), id).Some?
      ensures keywords == UpdateFirst(old(keywords), id, NO_FIELDS.(lastChecked := Some(lastChecked.GetOr(now))), now)
    {
      var at := if lastChecked.Some? then lastChecked.value else now;
      ok := UpdateKeyword(id, NO_FIELDS.(lastChecked := Some(at)), now);
    }

    /**
     * `add_to_seen_set`: false for a missing keyword; true without a write
     * when the key is already present; otherwise the key is appended.
     */
    method AddToSeenSet(id: string, platform: string, platformId: string, now: int) returns (ok: bool)
      modifies this
      ensures FindKeyword(old(keywords), id).None? ==> !ok && keywords == old(keywords)
      ensures FindKeyword(old(keywords), id).Some? ==>
                && ok
                && keywords == AfterAdd(old(keywords), id, MakeListingKey(platform, platformId), now)
    {
      var k := FindKeyword(keywords, id);
      if k.None? {
        return false;
      }
      var key := MakeListingKey(platform, platformId);
      if key !in k.value.seenListingKeys {
        ok := UpdateKeyword(id, NO_FIELDS.(seenListingKeys := Some(k.value.seenListingKeys + [key])), now);
      } else {
        ok := true;
      }
    }

    /** `seed_seen_set`: the seen list replaced by the listings' keys, in order. */
    method SeedSeenSet(id: string, listings: seq<Listing>, now: int) returns (ok: bool)
      modifies this
      ensures ok == FindKeyword(old(keywords), id).Some?
      ensures keywords == UpdateFirst(old(keywords), id, NO_FIELDS.(seenListingKeys := Some(KeysOf(listings))), now)
    {
      var seenKeys: seq<string> := [];
      var i := 0;
      while i < |listings|
        invariant 0 <= i <= |listings|
        invariant seenKeys == KeysOf(listings[..i])
      {
        assert KeysOf(listings[..i + 1]) == KeysOf(listings[..i]) + [MakeListingKey(listings[i].platform, listings[i].platformId)];
        seenKeys := seenKeys + [MakeListingKey(listings[i].platform, listings[i].platformId)];
        i := i + 1;
      }
      assert listings[..i] == listings;
      ok := UpdateKeyword(id, NO_FIELDS.(seenListingKeys := Some(seenKeys)), now);
    }

    /** `reset_keyword_subscription`: a new start time, an empty seen list, the first run marked done. */
    method ResetKeywordSubscription(id: string, now: int) returns (ok: bool)
      modifies this
      ensures ok == FindKeyword(old(keywords), id).Some?
      ensures keywords == UpdateFirst(old(keywords), id, ResetUpdate(now), now)
    {
      ok := UpdateKeyword(id, ResetUpdate(now), now);
    }
  }
}
