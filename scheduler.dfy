/**
 * `PollingScheduler`: one 60-second interval job per monitored keyword,
 * tracked in the `active_jobs` set, and the poll each job runs: look the
 * keyword up again, search it, send a notification per new item, and
 * write the in-memory seen list back when something was pushed.  The
 * underlying scheduler is modelled as a map from job id to job; whether
 * its `remove_job` raises is an input.
 */
module Scheduler {
  import opened Wrappers
  import opened Models
  import opened SearchService
  import opened Database
  import opened SearchPoll
  import opened Notifications

  // ---------------------------------------------------------------------
  // The job registry
  // ---------------------------------------------------------------------

  /** A registered job: the poll's arguments, its trigger interval in seconds, and `max_instances`. */
  datatype Job = Job(keywordId: string, telegramId: int, intervalSeconds: nat, maxInstances: nat)

  /** `active_jobs` together with the scheduler's jobs by id. */
  datatype Registry = Registry(active: set<string>, jobs: map<string, Job>)

  const POLL_INTERVAL_SECONDS: nat := 60

  /** `f"keyword_{keyword_id}"` */
  function JobId(keywordId: string): string
  {
    "keyword_" + keywordId
  }

  /** Distinct keywords never share a job id. */
  lemma JobIdInjective(a: string, b: string)
    ensures JobId(a) == JobId(b) ==> a == b
  {
    if JobId(a) == JobId(b) {
      assert a == JobId(a)[8..];
      assert b == JobId(b)[8..];
    }
  }

  /** Every tracked keyword has its own single-instance 60-second job. */
  predicate Registered(r: Registry)
  {
    forall id :: id in r.active ==>
      JobId(id) in r.jobs && r.jobs[JobId(id)].keywordId == id
      && r.jobs[JobId(id)].intervalSeconds == POLL_INTERVAL_SECONDS && r.jobs[JobId(id)].maxInstances == 1
  }

  /** `add_keyword_job`: nothing when the keyword is tracked; otherwise (re)place its job and track it. */
  function AddJob(r: Registry, keywordId: string, telegramId: int): Registry
  {
    if keywordId in r.active then r
    else Registry(r.active + {keywordId},
                  r.jobs[JobId(keywordId) := Job(keywordId, telegramId, POLL_INTERVAL_SECONDS, 1)])
  }

  /** `remove_keyword_job`: nothing when untracked or when `remove_job` raises; otherwise drop the job and the id. */
  function RemoveJob(r: Registry, keywordId: string, removeRaises: bool): Registry
  {
    if keywordId !in r.active || removeRaises then r
    else Registry(r.active - {keywordId}, r.jobs - {JobId(keywordId)})
  }

  /** After an add the keyword is tracked, with a 60-second single-instance job under its own id; an add of a tracked keyword changes nothing. */
  lemma AddJobTracks(r: Registry, keywordId: string, telegramId: int)
    requires Registered(r)
    ensures var r' := AddJob(r, keywordId, telegramId);
            && keywordId in r'.active && r'.active == r.active + {keywordId}
            && JobId(keywordId) in r'.jobs
            && (keywordId !in r.active ==>
                  r'.jobs[JobId(keywordId)] == Job(keywordId, telegramId, POLL_INTERVAL_SECONDS, 1))
            && (keywordId in r.active ==> r' == r)
  {
  }

  /** Adding the same keyword again, for any chat, is a no-op. */
  lemma AddJobIdempotent(r: Registry, keywordId: string, t1: int, t2: int)
    ensures AddJob(AddJob(r, keywordId, t1), keywordId, t2) == AddJob(r, keywordId, t1)
  {
  }

  /** Removing twice is removing once. */
  lemma RemoveJobIdempotent(r: Registry, keywordId: string)
    ensures RemoveJob(RemoveJob(r, keywordId, false), keywordId, false) == RemoveJob(r, keywordId, false)
  {
  }

  /** A removal that succeeds leaves the keyword untracked and without a job. */
  lemma RemoveJobUntracks(r: Registry, keywordId: string, removeRaises: bool)
    ensures var r' := RemoveJob(r, keywordId, removeRaises);
            && (keywordId !in r.active || removeRaises ==> r' == r)
            && (keywordId in r.active && !removeRaises ==>
                  keywordId !in r'.active && JobId(keywordId) !in r'.jobs && r'.active == r.active - {keywordId})
  {
  }

  /** Adding keeps every tracked keyword's job in place. */
  lemma {:induction false} AddJobKeepsRegistered(r: Registry, keywordId: string, telegramId: int)
    requires Registered(r)
    ensures Registered(AddJob(r, keywordId, telegramId))
  {
    var r' := AddJob(r, keywordId, telegramId);
    forall id | id in r'.active
      ensures JobId(id) in r'.jobs && r'.jobs[JobId(id)].keywordId == id
      ensures r'.jobs[JobId(id)].intervalSeconds == POLL_INTERVAL_SECONDS && r'.jobs[JobId(id)].maxInstances == 1
    {
      JobIdInjective(id, keywordId);
    }
  }

  /** Removing one keyword's job leaves the other keywords' jobs in place. */
  lemma {:induction false} RemoveJobKeepsRegistered(r: Registry, keywordId: string, removeRaises: bool)
    requires Registered(r)
    ensures Registered(RemoveJob(r, keywordId, removeRaises))
  {
    var r' := RemoveJob(r, keywordId, removeRaises);
    forall id | id in r'.active
      ensures JobId(id) in r'.jobs && r'.jobs[JobId(id)].keywordId == id
      ensures r'.jobs[JobId(id)].intervalSeconds == POLL_INTERVAL_SECONDS && r'.jobs[JobId(id)].maxInstances == 1
    {
      JobIdInjective(id, keywordId);
    }
  }

  /** Removing a freshly added keyword gives back the tracked set it started from. */
  lemma AddThenRemove(r: Registry, keywordId: string, telegramId: int)
    requires keywordId !in r.active
    ensures RemoveJob(AddJob(r, keywordId, telegramId), keywordId, false).active == r.active
    ensures RemoveJob(AddJob(r, keywordId, telegramId), keywordId, false).jobs == r.jobs - {JobId(keywordId)}
  {
    var r1 := AddJob(r, keywordId, telegramId);
    assert RemoveJob(r1, keywordId, false).jobs == r1.jobs - {JobId(keywordId)};
  }

  // ---------------------------------------------------------------------
  // The notification loop of `_poll_keyword`
  // ---------------------------------------------------------------------

  /**
   * What the loop's calls meet, by item position: a store error other than
   * a duplicate, a failing send, and the two timestamps the message shows.
   */
  datatype Sends = Sends(storeError: nat -> bool, sendFails: nat -> bool, found: string, posted: Listing -> string)

  /**
   * The loop's state: the notification records, the messages sent, the
   * in-memory seen list, `pushed_count` and `skipped_duplicate`.
   */
  datatype Delivery = Delivery(notes: seq<NotificationKey>, sent: seq<(int, string)>, seen: seq<string>,
                               pushed: nat, skipped: nat)

  /** The record `send_new_item_notification` creates for an item of `kw`. */
  function Triples(kw: Keyword): Listing -> NotificationKey
  {
    (item: Listing) => NotificationKey(kw.userId, kw.id, CanonicalKey(item))
  }

  /** The message `send_new_item_notification` sends for an item of `kw`. */
  function Messages(kw: Keyword, s: Sends): Listing -> string
  {
    (item: Listing) => FormatMessage(kw, item, s.found, s.posted(item))
  }

  /** The seen keys `f"{platform}:{platform_id}"` of a list of items. */
  function RawKeys(items: seq<Listing>): (r: seq<string>)
    ensures |r| == |items| && forall j :: 0 <= j < |items| ==> r[j] == RawKey(items[j])
  {
    seq(|items|, j requires 0 <= j < |items| => RawKey(items[j]))
  }

  /**
   * One pass of the loop over `new_items`, for the item at position `i`,
   * with `triple` the record and `text` the message of an item: a store
   * error is logged and counts nowhere; a duplicate record or a failed send
   * counts as skipped; a sent item counts as pushed and appends
   * `f"{platform}:{platform_id}"` to the seen list.
   */
  function Step(d: Delivery, i: nat, item: Listing, chat: int, triple: Listing -> NotificationKey,
                text: Listing -> string, s: Sends): Delivery
  {
    var n := triple(item);
    if s.storeError(i) then d
    else if n in d.notes then d.(skipped := d.skipped + 1)
    else if s.sendFails(i) then d.(notes := d.notes + [n], skipped := d.skipped + 1)
    else d.(notes := d.notes + [n], sent := d.sent + [(chat, text(item))],
            seen := d.seen + [RawKey(item)], pushed := d.pushed + 1)
  }

  /** The loop over `new_items`, from the state `start`. */
  function Deliver(items: seq<Listing>, chat: int, triple: Listing -> NotificationKey, text: Listing -> string,
                   s: Sends, start: Delivery): Delivery
    decreases |items|
  {
    if |items| == 0 then start
    else
      var i := |items| - 1;
      Step(Deliver(items[..i], chat, triple, text, s, start), i, items[i], chat, triple, text, s)
  }

  /**
   * The loop only ever adds records, and every pushed item came with
   * exactly one message and one seen key; an item counts at most once.
   */
  lemma {:induction false} DeliverGrows(items: seq<Listing>, chat: int, triple: Listing -> NotificationKey,
                                        text: Listing -> string, s: Sends, start: Delivery)
    decreases |items|
    ensures var d := Deliver(items, chat, triple, text, s, start);
            && start.pushed <= d.pushed && start.skipped <= d.skipped
            && (d.pushed - start.pushed) + (d.skipped - start.skipped) <= |items|
            && |start.notes| <= |d.notes| && d.notes[..|start.notes|] == start.notes
            && |d.sent| == |start.sent| + (d.pushed - start.pushed) && d.sent[..|start.sent|] == start.sent
            && |d.seen| == |start.seen| + (d.pushed - start.pushed) && d.seen[..|start.seen|] == start.seen
  {
    if |items| > 0 {
      var i := |items| - 1;
      DeliverGrows(items[..i], chat, triple, text, s, start);
      var d := Deliver(items[..i], chat, triple, text, s, start);
      assert (d.notes + [triple(items[i])])[..|start.notes|] == d.notes[..|start.notes|];
      assert (d.sent + [(chat, text(items[i]))])[..|start.sent|] == d.sent[..|start.sent|];
      assert (d.seen + [RawKey(items[i])])[..|start.seen|] == d.seen[..|start.seen|];
    }
  }

  /** The unique index keeps holding: a record is added only when absent. */
  lemma {:induction false} DeliverKeepsUnique(items: seq<Listing>, chat: int, triple: Listing -> NotificationKey,
                                              text: Listing -> string, s: Sends, start: Delivery)
    requires NoDuplicates(start.notes)
    decreases |items|
    ensures NoDuplicates(Deliver(items, chat, triple, text, s, start).notes)
  {
    if |items| > 0 {
      DeliverKeepsUnique(items[..|items| - 1], chat, triple, text, s, start);
    }
  }

  /**
   * At most once: when every item's record already exists, the loop sends
   * nothing, pushes nothing and writes no record.
   */
  lemma {:induction false} RecordedNeverResent(items: seq<Listing>, chat: int, triple: Listing -> NotificationKey,
                                               text: Listing -> string, s: Sends, start: Delivery)
    requires forall j :: 0 <= j < |items| ==> triple(items[j]) in start.notes
    decreases |items|
    ensures var d := Deliver(items, chat, triple, text, s, start);
            d.notes == start.notes && d.sent == start.sent && d.seen == start.seen && d.pushed == start.pushed
  {
    if |items| > 0 {
      var i := |items| - 1;
      RecordedNeverResent(items[..i], chat, triple, text, s, start);
      assert triple(items[i]) in start.notes;
    }
  }

  /** Every item whose record call did not fail leaves its record behind, so a later run over it sends nothing. */
  lemma {:induction false} DeliverRecords(items: seq<Listing>, chat: int, triple: Listing -> NotificationKey,
                                          text: Listing -> string, s: Sends, start: Delivery, j: nat)
    requires j < |items| && !s.storeError(j)
    decreases |items|
    ensures triple(items[j]) in Deliver(items, chat, triple, text, s, start).notes
  {
    var i := |items| - 1;
    var d := Deliver(items[..i], chat, triple, text, s, start);
    if j < i {
      DeliverRecords(items[..i], chat, triple, text, s, start, j);
      assert items[..i][j] == items[j];
      assert triple(items[j]) in d.notes;
    }
  }

  // ---------------------------------------------------------------------
  // The scheduler
  // ---------------------------------------------------------------------

  /** How `_poll_keyword` ended: the job removed itself, or the keyword was searched and its items delivered. */
  datatype PollResult = JobRemoved | Polled(items: seq<Listing>, keyword: Keyword, seen: seq<string>, pushed: nat, skipped: nat)

  /** The poll's lookup loop over `get_user_keywords(user.id, active_only=True)`. */
  method PickKeyword(keywords: seq<Keyword>, keywordId: string) returns (k: Option<Keyword>)
    ensures k == FindKeyword(keywords, keywordId)
  {
    var i := 0;
    while i < |keywords|
      invariant 0 <= i <= |keywords|
      invariant FindKeyword(keywords, keywordId) == FindKeyword(keywords[i..], keywordId)
    {
      if keywords[i].id == keywordId {
        return Some(keywords[i]);
      }
      assert keywords[i..][1..] == keywords[i + 1..];
      i := i + 1;
    }
    return None;
  }

  /**
   * The keyword a poll works on: the user's first active keyword with the
   * job's id, `None` when the user or the keyword is gone.
   */
  function PollTarget(users: map<int, string>, docs: seq<Keyword>, telegramId: int, keywordId: string): Option<Keyword>
  {
    if telegramId !in users then None
    else match FindKeyword(UserKeywords(docs, users[telegramId], true), keywordId)
      case Some(k) => if k.isActive then Some(k) else None
      case None => None
  }

  /** A poll target is stored under the job's id, belongs to the chat's user and is active. */
  lemma PollTargetStored(users: map<int, string>, docs: seq<Keyword>, telegramId: int, keywordId: string)
    ensures var t := PollTarget(users, docs, telegramId, keywordId);
            t.Some? ==> && telegramId in users && t.value in docs && t.value.id == keywordId
                        && t.value.userId == users[telegramId] && t.value.isActive
                        && FindKeyword(docs, keywordId).Some?
  {
    var t := PollTarget(users, docs, telegramId, keywordId);
    if t.Some? {
      UserKeywordsExactly(docs, users[telegramId], true, t.value);
    }
  }

  /**
   * The whole-list write at the end of a poll keeps only the in-memory list:
   * a key that is neither in the list read before the search nor the key of
   * an item the loop went over is not in that list, so a key the search's
   * `$addToSet` stored for an absorbed item is gone after the write.
   */
  lemma {:induction false} StaleWriteDropsKey(items: seq<Listing>, chat: int, triple: Listing -> NotificationKey,
                                              text: Listing -> string, s: Sends, start: Delivery, key: string)
    requires key !in start.seen
    requires forall j :: 0 <= j < |items| ==> RawKey(items[j]) != key
    decreases |items|
    ensures key !in Deliver(items, chat, triple, text, s, start).seen
  {
    if |items| > 0 {
      var i := |items| - 1;
      assert forall j :: 0 <= j < i ==> items[..i][j] == items[j];
      StaleWriteDropsKey(items[..i], chat, triple, text, s, start, key);
    }
  }

  class PollingScheduler {
    const db: Store
    const notifier: NotificationService
    var activeJobs: set<string>
    var jobs: map<string, Job>

    ghost predicate Valid()
      reads this, db
    {
      notifier.db == db && db.Valid() && Registered(Registry(activeJobs, jobs))
    }

    constructor (db: Store, notifier: NotificationService)
      requires notifier.db == db && db.Valid()
      ensures Valid()
      ensures this.db == db && this.notifier == notifier && activeJobs == {} && jobs == map[]
    {
      this.db := db;
      this.notifier := notifier;
      activeJobs := {};
      jobs := map[];
    }

    /** `add_keyword_job` */
    method AddKeywordJob(keywordId: string, userTelegramId: int)
      requires Valid()
      modifies this
      ensures Valid()
      ensures Registry(activeJobs, jobs) == AddJob(old(Registry(activeJobs, jobs)), keywordId, userTelegramId)
    {
      AddJobKeepsRegistered(Registry(activeJobs, jobs), keywordId, userTelegramId);
      if keywordId in activeJobs {
        return;
      }
      jobs := jobs[JobId(keywordId) := Job(keywordId, userTelegramId, POLL_INTERVAL_SECONDS, 1)];
      activeJobs := activeJobs + {keywordId};
    }

    /** `remove_keyword_job`; `removeRaises` stands for the scheduler's `remove_job` raising, which is logged. */
    method RemoveKeywordJob(keywordId: string, removeRaises: bool)
      requires Valid()
      modifies this
      ensures Valid()
      ensures Registry(activeJobs, jobs) == RemoveJob(old(Registry(activeJobs, jobs)), keywordId, removeRaises)
    {
      RemoveJobKeepsRegistered(Registry(activeJobs, jobs), keywordId, removeRaises);
      if keywordId !in activeJobs {
        return;
      }
      if removeRaises {
        return;
      }
      jobs := jobs - {JobId(keywordId)};
      activeJobs := activeJobs - {keywordId};
    }

    /** One `send_new_item_notification` call of the loop and the counting after it. */
    method DeliverOne(d: Delivery, i: nat, item: Listing, chat: int, kw: Keyword, s: Sends) returns (d': Delivery)
      requires Valid() && db.notifications == d.notes && notifier.bot.sent == d.sent
      modifies db, notifier.bot
      ensures Valid()
      ensures d' == Step(d, i, item, chat, Triples(kw), Messages(kw, s), s)
      ensures db.notifications == d'.notes && notifier.bot.sent == d'.sent
      ensures db.users == old(db.users) && db.keywords == old(db.keywords) && db.listings == old(db.listings)
    {
      var r := notifier.SendNewItemNotification(chat, kw, item, s.found, s.posted(item), s.storeError(i), s.sendFails(i));
      d' := d;
      match r {
        case Propagated =>
        case Returned(sent) =>
          if sent {
            d' := d.(notes := db.notifications, sent := notifier.bot.sent,
                     seen := d.seen + [RawKey(item)], pushed := d.pushed + 1);
          } else {
            d' := d.(notes := db.notifications, skipped := d.skipped + 1);
          }
      }
    }

    /** The notification loop of `_poll_keyword`. */
    method DeliverItems(items: seq<Listing>, chat: int, kw: Keyword, s: Sends) returns (d: Delivery)
      requires Valid()
      modifies db, notifier.bot
      ensures Valid()
      ensures d == Deliver(items, chat, Triples(kw), Messages(kw, s), s, Delivery(old(db.notifications), old(notifier.bot.sent), kw.seenListingKeys, 0, 0))
      ensures db.notifications == d.notes && notifier.bot.sent == d.sent
      ensures db.users == old(db.users) && db.keywords == old(db.keywords) && db.listings == old(db.listings)
    {
      var start := Delivery(db.notifications, notifier.bot.sent, kw.seenListingKeys, 0, 0);
      d := start;
      var i := 0;
      while i < |items|
        invariant 0 <= i <= |items|
        invariant Valid()
        invariant d == Deliver(items[..i], chat, Triples(kw), Messages(kw, s), s, start)
        invariant db.notifications == d.notes && notifier.bot.sent == d.sent
        invariant db.users == old(db.users) && db.keywords == old(db.keywords) && db.listings == old(db.listings)
      {
        assert items[..i + 1][..i] == items[..i];
        d := DeliverOne(d, i, items[i], chat, kw, s);
        i := i + 1;
      }
      assert items[..i] == items;
    }

    /**
     * The `search_keyword` call as the poll sees it: the stored seen list of
     * a stored keyword only widens, and the in-memory keyword keeps its
     * identity and the seen list it was read with.
     */
    method RunSearch(k: Keyword, registry: seq<string>, militaria: Option<Crawl>, errorMessage: string,
                     crawl: string -> Option<seq<Listing>>, fetchers: set<string>,
                     detail: string -> Option<int>, now: int)
      returns (newItems: seq<Listing>, kw: Keyword)
      requires Valid()
      modifies db
      ensures Valid()
      ensures db.users == old(db.users) && db.listings == old(db.listings) && db.notifications == old(db.notifications)
      ensures kw.id == k.id && kw.userId == k.userId && kw.seenListingKeys == k.seenListingKeys
      ensures FindKeyword(db.keywords, k.id).Some? == FindKeyword(old(db.keywords), k.id).Some?
      ensures forall key :: key in StoredSeen(old(db.keywords), k.id) ==> key in StoredSeen(db.keywords, k.id)
    {
      ghost var before := db.keywords;
      var pushed, absorbed;
      newItems, kw, pushed, absorbed := SearchKeyword(db, k, registry, militaria, errorMessage,
                                                      crawl, fetchers, detail, now);
      if militaria.Some? && FindKeyword(before, k.id).Some? {
        var all := EnrichAll(AllItems(militaria.value.items, OtherItems(registry, kw.platforms, crawl)),
                             k.seenListingKeys, fetchers, detail, now);
        AddToSetIsUnion(StoredSeen(before, k.id), NewSeenKeys(all, k.seenListingKeys));
      }
    }

    /**
     * `_poll_keyword`.  The arguments after `removeRaises` are the inputs
     * of `search_keyword`; `sends` those of the notification calls.
     */
    method PollKeyword(keywordId: string, userTelegramId: int, removeRaises: bool,
                       registry: seq<string>, militaria: Option<Crawl>, errorMessage: string,
                       crawl: string -> Option<seq<Listing>>, fetchers: set<string>,
                       detail: string -> Option<int>, now: int, sends: Sends)
      returns (r: PollResult)
      requires Valid()
      modifies this, db, notifier.bot
      ensures Valid()
      ensures db.users == old(db.users) && db.listings == old(db.listings)
      ensures var target := PollTarget(old(db.users), old(db.keywords), userTelegramId, keywordId);
              && (target.None? <==> r == JobRemoved)
              && (target.None? ==>
                    && Registry(activeJobs, jobs) == RemoveJob(old(Registry(activeJobs, jobs)), keywordId, removeRaises)
                    && db.keywords == old(db.keywords) && db.notifications == old(db.notifications)
                    && notifier.bot.sent == old(notifier.bot.sent))
              && (target.Some? ==>
                    && Registry(activeJobs, jobs) == old(Registry(activeJobs, jobs))
                    && r.Polled? && r.keyword.id == keywordId && r.keyword.userId == target.value.userId
                    && (var d := Deliver(r.items, userTelegramId, Triples(r.keyword), Messages(r.keyword, sends), sends,
                                         Delivery(old(db.notifications), old(notifier.bot.sent),
                                                  target.value.seenListingKeys, 0, 0));
                        && db.notifications == d.notes && notifier.bot.sent == d.sent
                        && r.seen == d.seen && r.pushed == d.pushed && r.skipped == d.skipped)
                    && (r.pushed > 0 ==> StoredSeen(db.keywords, keywordId) == r.seen)
                    && (r.pushed > 0 ==>
                          forall key :: key !in target.value.seenListingKeys && key !in RawKeys(r.items) ==>
                            key !in StoredSeen(db.keywords, keywordId))
                    && (r.pushed == 0 ==>
                          forall key :: key in StoredSeen(old(db.keywords), keywordId) ==>
                            key in StoredSeen(db.keywords, keywordId)))
    {
      PollTargetStored(db.users, db.keywords, userTelegramId, keywordId);
      var user := db.UserByTelegramId(userTelegramId);
      if user.None? {
        RemoveKeywordJob(keywordId, removeRaises);
        return JobRemoved;
      }
      var keywords := UserKeywords(db.keywords, user.value, true);
      var found := PickKeyword(keywords, keywordId);
      if found.None? || !found.value.isActive {
        RemoveKeywordJob(keywordId, removeRaises);
        return JobRemoved;
      }
      var k := found.value;
      var newItems, kw := RunSearch(k, registry, militaria, errorMessage, crawl, fetchers, detail, now);
      var d := DeliverItems(newItems, userTelegramId, kw, sends);
      forall key | key !in k.seenListingKeys && key !in RawKeys(newItems)
        ensures key !in d.seen
      {
        StaleWriteDropsKey(newItems, userTelegramId, Triples(kw), Messages(kw, sends), sends,
                           Delivery(old(db.notifications), old(notifier.bot.sent), kw.seenListingKeys, 0, 0), key);
      }
      if d.pushed > 0 {
        FindAfterUpdate(db.keywords, keywordId,
                        (x: Keyword) => x.(seenListingKeys := d.seen, updatedAt := Some(now)));
        db.UpdateKeywordSeenKeys(kw.id, d.seen, now);
      }
      r := Polled(newItems, kw, d.seen, d.pushed, d.skipped);
    }
  }
}
