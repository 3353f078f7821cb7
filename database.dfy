/**
 * The document store behind the bot: users keyed by their unique Telegram id,
 * keyword documents, listings unique per (platform, platform_id), and the
 * notification records whose unique index on (user_id, keyword_id,
 * listing_key) makes `create_notification` an atomic create-if-absent.
 */
module Database {
  import opened Wrappers
  import opened Models

  datatype NotificationKey = NotificationKey(userId: string, keywordId: string, listingKey: string)

  /** The three ways `create_notification` can end: inserted (True), duplicate key (False), or another store error re-raised. */
  datatype InsertOutcome = Inserted | Duplicate | Raised

  predicate NoDuplicates<T(==)>(s: seq<T>)
  {
    forall i, j :: 0 <= i < j < |s| ==> s[i] != s[j]
  }

  /** `update_one({"id": id}, ...)`: the first document with that id is rewritten by `f`. */
  function UpdateFirst(docs: seq<Keyword>, id: string, f: Keyword -> Keyword): (r: seq<Keyword>)
    ensures |r| == |docs|
  {
    if |docs| == 0 then []
    else if docs[0].id == id then [f(docs[0])] + docs[1..]
    else [docs[0]] + UpdateFirst(docs[1..], id, f)
  }

  /** The stored seen list of a keyword document, empty when absent. */
  function StoredSeen(docs: seq<Keyword>, id: string): seq<string>
  {
    match FindKeyword(docs, id)
    case Some(d) => d.seenListingKeys
    case None => []
  }

  lemma {:induction false} FindAfterUpdate(docs: seq<Keyword>, id: string, f: Keyword -> Keyword)
    requires forall d :: f(d).id == d.id
    ensures FindKeyword(docs, id).Some? ==>
              FindKeyword(UpdateFirst(docs, id, f), id) == Some(f(FindKeyword(docs, id).value))
    ensures FindKeyword(docs, id).None? ==> FindKeyword(UpdateFirst(docs, id, f), id).None?
  {
    if |docs| > 0 {
      var u := UpdateFirst(docs, id, f);
      if docs[0].id == id {
        assert u[0] == f(docs[0]);
      } else {
        FindAfterUpdate(docs[1..], id, f);
        assert u[0] == docs[0];
        assert u[1..] == UpdateFirst(docs[1..], id, f);
      }
    }
  }

  /** An update that keeps ids and seen lists leaves the stored seen list and the document's presence alone. */
  lemma SeenKeptBy(docs: seq<Keyword>, id: string, f: Keyword -> Keyword)
    requires forall d :: f(d).id == d.id && f(d).seenListingKeys == d.seenListingKeys
    ensures StoredSeen(UpdateFirst(docs, id, f), id) == StoredSeen(docs, id)
    ensures FindKeyword(UpdateFirst(docs, id, f), id).Some? == FindKeyword(docs, id).Some?
  {
    FindAfterUpdate(docs, id, f);
  }

  /** `$addToSet` with `$each` on the stored document, when there is one. */
  lemma SeenGrownBy(docs: seq<Keyword>, id: string, keys: seq<string>)
    ensures var u := UpdateFirst(docs, id, (d: Keyword) => d.(seenListingKeys := AddToSet(d.seenListingKeys, keys)));
            && FindKeyword(u, id).Some? == FindKeyword(docs, id).Some?
            && (FindKeyword(docs, id).Some? ==> StoredSeen(u, id) == AddToSet(StoredSeen(docs, id), keys))
  {
    FindAfterUpdate(docs, id, (d: Keyword) => d.(seenListingKeys := AddToSet(d.seenListingKeys, keys)));
  }

  /** Only the first document carrying the id changes, and it changes exactly by `f`. */
  lemma {:induction false} UpdateFirstChangesOne(docs: seq<Keyword>, id: string, f: Keyword -> Keyword, i: nat)
    requires i < |docs|
    ensures var r := UpdateFirst(docs, id, f);
            r[i] == if docs[i].id == id && forall j :: 0 <= j < i ==> docs[j].id != id then f(docs[i]) else docs[i]
  {
    if i > 0 && docs[0].id != id {
      UpdateFirstChangesOne(docs[1..], id, f, i - 1);
    }
  }

  /** The first document with a given id, as `find_one({"id": id})` returns it. */
  function FindKeyword(docs: seq<Keyword>, id: string): (r: Option<Keyword>)
    ensures r.Some? ==> r.value in docs && r.value.id == id
    ensures r.None? ==> forall d :: d in docs ==> d.id != id
  {
    if |docs| == 0 then None
    else if docs[0].id == id then Some(docs[0])
    else FindKeyword(docs[1..], id)
  }

  /** `get_user_keywords`: the user's keywords in store order, only active ones when asked. */
  function UserKeywords(docs: seq<Keyword>, userId: string, activeOnly: bool): (r: seq<Keyword>)
    ensures |r| <= |docs|
  {
    if |docs| == 0 then []
    else if docs[0].userId == userId && (!activeOnly || docs[0].isActive) then
      [docs[0]] + UserKeywords(docs[1..], userId, activeOnly)
    else UserKeywords(docs[1..], userId, activeOnly)
  }

  /** A document is returned exactly when it belongs to the user and, with `active_only`, is active. */
  lemma {:induction false} UserKeywordsExactly(docs: seq<Keyword>, userId: string, activeOnly: bool, d: Keyword)
    ensures d in UserKeywords(docs, userId, activeOnly)
        <==> (d in docs && d.userId == userId && (!activeOnly || d.isActive))
  {
    if |docs| > 0 {
      UserKeywordsExactly(docs[1..], userId, activeOnly, d);
      assert docs == [docs[0]] + docs[1..];
    }
  }

  /** Mongo's `$addToSet` with `$each`: each key is appended, in order, unless already present. */
  function AddToSet(list: seq<string>, keys: seq<string>): (r: seq<string>)
    decreases |keys|
  {
    if |keys| == 0 then list
    else if keys[0] in list then AddToSet(list, keys[1..])
    else AddToSet(list + [keys[0]], keys[1..])
  }

  /** `$addToSet` only widens: the old list is kept as a prefix and the result holds exactly the union of keys. */
  lemma {:induction false} AddToSetIsUnion(list: seq<string>, keys: seq<string>)
    decreases |keys|
    ensures |list| <= |AddToSet(list, keys)| && AddToSet(list, keys)[..|list|] == list
    ensures forall k :: k in AddToSet(list, keys) <==> k in list || k in keys
  {
    if |keys| > 0 {
      if keys[0] in list {
        AddToSetIsUnion(list, keys[1..]);
      } else {
        AddToSetIsUnion(list + [keys[0]], keys[1..]);
        assert (list + [keys[0]])[..|list|] == list;
      }
    }
  }

  /** Adding keys that are distinct and absent from the list appends them unchanged. */
  lemma {:induction false} AddToSetFreshKeys(list: seq<string>, keys: seq<string>)
    requires NoDuplicates(keys)
    requires forall k :: k in keys ==> k !in list
    decreases |keys|
    ensures AddToSet(list, keys) == list + keys
  {
    if |keys| > 0 {
      forall k | k in keys[1..] ensures k !in list + [keys[0]] {
        var j :| 0 <= j < |keys[1..]| && keys[1..][j] == k;
        assert keys[j + 1] == k;
      }
      AddToSetFreshKeys(list + [keys[0]], keys[1..]);
      assert list + [keys[0]] + keys[1..] == list + keys;
    }
  }

  class Store {
    /** telegram_id -> user id; the unique index on `telegram_id` makes this a map. */
    var users: map<int, string>
    var keywords: seq<Keyword>
    /** One listing per (platform, platform_id), the unique listing index. */
    var listings: map<(string, string), Listing>
    var notifications: seq<NotificationKey>

    /** The unique notification index: no triple is stored twice. */
    ghost predicate Valid()
      reads this
    {
      NoDuplicates(notifications)
    }

    constructor ()
      ensures Valid()
      ensures users == map[] && keywords == [] && listings == map[] && notifications == []
    {
      users := map[];
      keywords := [];
      listings := map[];
      notifications := [];
    }

    /** `get_user_by_telegram_id` */
    function UserByTelegramId(telegramId: int): (r: Option<string>)
      reads this
      ensures r.Some? <==> telegramId in users
    {
      if telegramId in users then Some(users[telegramId]) else None
    }

    /**
     * `create_notification`: insert the triple unless it is already stored.
     * `storeError` stands for a failure other than a duplicate key, which
     * propagates and writes nothing.
     */
    method CreateNotification(n: NotificationKey, storeError: bool) returns (r: InsertOutcome)
      requires Valid()
      modifies this
      ensures Valid()
      ensures storeError ==> r == Raised && notifications == old(notifications)
      ensures !storeError && n in old(notifications) ==> r == Duplicate && notifications == old(notifications)
      ensures !storeError && n !in old(notifications) ==> r == Inserted && notifications == old(notifications) + [n]
      ensures users == old(users) && keywords == old(keywords) && listings == old(listings)
    {
      if storeError {
        return Raised;
      }
      if n in notifications {
        return Duplicate;
      }
      notifications := notifications + [n];
      r := Inserted;
    }

    /** `update_keyword_seen_keys`: replace the whole list and stamp `updated_at`. */
    method UpdateKeywordSeenKeys(keywordId: string, seenKeys: seq<string>, now: int)
      modifies this
      ensures keywords == UpdateFirst(old(keywords), keywordId,
                                      (d: Keyword) => d.(seenListingKeys := seenKeys, updatedAt := Some(now)))
      ensures users == old(users) && listings == old(listings) && notifications == old(notifications)
    {
      keywords := UpdateFirst(keywords, keywordId,
                              (d: Keyword) => d.(seenListingKeys := seenKeys, updatedAt := Some(now)));
    }

    /** `update_one({"id": id}, {"$addToSet": {"seen_listing_keys": {"$each": keys}}})` */
    method AddSeenKeys(keywordId: string, keys: seq<string>)
      modifies this
      ensures keywords == UpdateFirst(old(keywords), keywordId,
                                      (d: Keyword) => d.(seenListingKeys := AddToSet(d.seenListingKeys, keys)))
      ensures users == old(users) && listings == old(listings) && notifications == old(notifications)
    {
      keywords := UpdateFirst(keywords, keywordId,
                              (d: Keyword) => d.(seenListingKeys := AddToSet(d.seenListingKeys, keys)));
    }

    /** A `$set` of some keyword fields, given as the rewrite `f`. */
    method SetKeywordFields(keywordId: string, f: Keyword -> Keyword)
      modifies this
      ensures keywords == UpdateFirst(old(keywords), keywordId, f)
      ensures users == old(users) && listings == old(listings) && notifications == old(notifications)
    {
      keywords := UpdateFirst(keywords, keywordId, f);
    }

    /** `upsert_listing`: insert, or overwrite the listing with the same (platform, platform_id). */
    method UpsertListing(l: Listing)
      modifies this
      ensures listings == old(listings)[(l.platform, l.platformId) := l]
      ensures users == old(users) && keywords == old(keywords) && notifications == old(notifications)
    {
      listings := listings[(l.platform, l.platformId) := l];
    }
  }

  /** A second upsert for the same (platform, platform_id) overwrites the first; other listings stay. */
  lemma UpsertTwiceKeepsLast(m: map<(string, string), Listing>, a: Listing, b: Listing)
    requires (a.platform, a.platformId) == (b.platform, b.platformId)
    ensures m[(a.platform, a.platformId) := a][(b.platform, b.platformId) := b]
         == m[(b.platform, b.platformId) := b]
  {
  }
}
