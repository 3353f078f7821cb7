/**
 * The notification service: the at-most-once push of a new listing (record
 * first, then send), the German message it sends, and the administrator
 * diagnostics that are sent only to a configured chat.  The Telegram bot is
 * an outbox of (chat id, text) pairs; a failing send is an input.  The
 * listing key is `SearchService.CanonicalKey`, which is this service's
 * `_build_canonical_listing_key` as well: both builders apply the same rule.
 */
module Notifications {
  import opened Wrappers
  import opened Chars
  import opened Models
  import opened Text
  import opened Money
  import opened SearchService
  import opened Database

  /** The messages the bot has delivered, in order. */
  class Bot {
    var sent: seq<(int, string)>

    constructor ()
      ensures sent == []
    {
      sent := [];
    }

    /** `send_message`: delivered unless the call fails, in which case nothing is recorded. */
    method SendMessage(chatId: int, text: string, fails: bool) returns (ok: bool)
      modifies this
      ensures ok == !fails
      ensures sent == if fails then old(sent) else old(sent) + [(chatId, text)]
    {
      if fails {
        return false;
      }
      sent := sent + [(chatId, text)];
      ok := true;
    }
  }

  // ---------------------------------------------------------------------
  // The message
  // ---------------------------------------------------------------------

  /** The price line: the formatted price, or the listing's own price text when that is "/" and a text exists. */
  function PriceLine(item: Listing): string
  {
    var preis := FmtPriceDe(item.priceValue, item.priceCurrency);
    if preis == "/" && item.priceText.Some? && item.priceText.value != "" then item.priceText.value else preis
  }

  /** The fallback applies exactly when the listing has no price value and a non-empty price text. */
  lemma PriceLineFallback(item: Listing)
    ensures item.priceValue.Some? ==> PriceLine(item) == FmtPriceDe(item.priceValue, item.priceCurrency)
    ensures item.priceValue.None? && item.priceText.Some? && item.priceText.value != "" ==>
              PriceLine(item) == item.priceText.value
    ensures item.priceValue.None? && (item.priceText.None? || item.priceText.value == "") ==> PriceLine(item) == "/"
  {
    FmtPriceDeMissing(item.priceValue, item.priceCurrency);
  }

  /** The platform, linked to the listing when it has a URL. */
  function PlatformLink(item: Listing): string
  {
    if item.url != "" then Link(item.platform, item.url) else item.platform
  }

  /** The opening line, `f"🔎 {b('Neues Angebot gefunden')}"`: the headline has nothing to escape. */
  const HEADLINE: string := "\U{1F50E} <b>Neues Angebot gefunden</b>"

  /**
   * The seven text lines of `_format_notification_message`, from the
   * rendered keyword, title, price, platform and the two rendered times.
   */
  function MessageLines(keyword: string, title: string, price: string, platform: string,
                        found: string, posted: string): seq<string>
  {
    [HEADLINE,
     "Suchbegriff: " + keyword,
     "Titel: " + title,
     "Preis: " + price,
     "Plattform: " + platform,
     "Gefunden: " + found,
     "Eingestellt am: " + posted]
  }

  /** The lines of the message for `item`: the title cut to 80 characters, the price line and the platform link. */
  function ItemLines(kw: Keyword, item: Listing, found: string, posted: string): seq<string>
  {
    MessageLines(kw.originalKeyword, SafeTruncate(item.title, 80), PriceLine(item), PlatformLink(item), found, posted)
  }

  /** `br_join` over the first line, an empty entry, then the other lines. */
  function RenderLines(l: seq<string>): string
    requires |l| > 0
  {
    BrJoin([Some(l[0]), Some("")] + SomeAll(l[1..]))
  }

  /** `_format_notification_message` */
  function FormatMessage(kw: Keyword, item: Listing, found: string, posted: string): (r: string)
    ensures r == Join(ItemLines(kw, item, found, posted), '\n')
  {
    LinesAreVisible(kw.originalKeyword, SafeTruncate(item.title, 80), PriceLine(item), PlatformLink(item), found, posted);
    RenderKept(ItemLines(kw, item, found, posted));
    RenderLines(ItemLines(kw, item, found, posted))
  }

  predicate OneLine(s: string) { '\n' !in s }

  predicate AllOneLine(ls: seq<string>) { forall k :: 0 <= k < |ls| ==> OneLine(ls[k]) }

  predicate AllVisible(ls: seq<string>) { forall k :: 0 <= k < |ls| ==> Visible(ls[k]) }

  lemma PlatformLinkOneLine(item: Listing)
    requires OneLine(item.platform) && OneLine(item.url)
    ensures OneLine(PlatformLink(item))
  {
    EscapeAddsOnlyEntities(item.platform);
    EscapeAddsOnlyEntities(item.url);
  }

  lemma PriceLineOneLine(item: Listing)
    requires item.priceCurrency.Some? ==> OneLine(item.priceCurrency.value)
    requires item.priceText.Some? ==> OneLine(item.priceText.value)
    ensures OneLine(PriceLine(item))
  {
    if item.priceValue.Some? {
      AmountShape(item.priceValue.value);
      var a := AmountDe(item.priceValue.value);
      assert forall k :: 0 <= k < |a| ==> a[k] != '\n';
    }
  }

  lemma TruncateOneLine(s: string, n: int)
    requires OneLine(s)
    ensures OneLine(SafeTruncate(s, n))
  {
    if |s| > n {
      var t := SliceTo(s, n - 3);
      assert t == s[..|t|];
      assert forall x :: x in t ==> x in s;
    }
  }

  lemma JoinOneLine(a: string, b: string)
    requires OneLine(a) && OneLine(b)
    ensures OneLine(a + b)
  {
  }

  /** The headline and the labels hold no line break. */
  lemma LabelsOneLine()
    ensures OneLine(HEADLINE) && OneLine("Suchbegriff: ") && OneLine("Titel: ") && OneLine("Preis: ")
    ensures OneLine("Plattform: ") && OneLine("Gefunden: ") && OneLine("Eingestellt am: ")
  {
  }

  /** With one-line parts no line of the message breaks. */
  lemma LinesAreSingle(keyword: string, title: string, price: string, platform: string, found: string, posted: string)
    requires OneLine(keyword) && OneLine(title) && OneLine(price) && OneLine(platform)
    requires OneLine(found) && OneLine(posted)
    ensures AllOneLine(MessageLines(keyword, title, price, platform, found, posted))
  {
    LabelsOneLine();
    JoinOneLine("Suchbegriff: ", keyword);
    JoinOneLine("Titel: ", title);
    JoinOneLine("Preis: ", price);
    JoinOneLine("Plattform: ", platform);
    JoinOneLine("Gefunden: ", found);
    JoinOneLine("Eingestellt am: ", posted);
  }

  /** Every line of the message opens with its label, never with white space. */
  lemma LinesAreVisible(keyword: string, title: string, price: string, platform: string, found: string, posted: string)
    ensures AllVisible(MessageLines(keyword, title, price, platform, found, posted))
  {
    var l := MessageLines(keyword, title, price, platform, found, posted);
    assert l[1][0] == 'S' && l[2][0] == 'T' && l[3][0] == 'P' && l[4][0] == 'P';
    assert l[5][0] == 'G' && l[6][0] == 'E';
  }

  /** `br_join` keeps the first line, drops the empty entry and keeps the other visible lines. */
  lemma RenderKept(l: seq<string>)
    requires |l| > 0 && AllVisible(l)
    ensures Kept([Some(l[0]), Some("")] + SomeAll(l[1..])) == l
  {
    var head := [Some(l[0]), Some("")];
    assert head == [Some(l[0])] + [Some("")];
    KeptAppend([Some(l[0])], [Some("")]);
    assert Kept([Some("")]) == [];
    KeptVisible(l[0]);
    assert Kept(head) == [l[0]];
    var tail := l[1..];
    assert forall k :: 0 <= k < |tail| ==> Visible(tail[k]) by {
      forall k | 0 <= k < |tail| ensures Visible(tail[k]) {
        assert tail[k] == l[k + 1];
      }
    }
    KeptAllVisible(tail);
    KeptAppend(head, SomeAll(tail));
    assert l == [l[0]] + tail;
  }

  /** Rendered visible one-line lines split back into themselves. */
  lemma RenderSplits(l: seq<string>)
    requires |l| > 0 && AllOneLine(l) && AllVisible(l)
    ensures SplitOn(RenderLines(l), '\n') == l
  {
    RenderKept(l);
    SplitJoin(l, '\n');
  }

  /**
   * The message splits at its line breaks into exactly the seven lines, in
   * order, when the keyword, the listing's texts and the times are one-line.
   */
  lemma MessageSplitsIntoLines(kw: Keyword, item: Listing, found: string, posted: string)
    requires OneLine(kw.originalKeyword) && OneLine(item.title) && OneLine(item.platform) && OneLine(item.url)
    requires item.priceCurrency.Some? ==> OneLine(item.priceCurrency.value)
    requires item.priceText.Some? ==> OneLine(item.priceText.value)
    requires OneLine(found) && OneLine(posted)
    ensures SplitOn(FormatMessage(kw, item, found, posted), '\n') == ItemLines(kw, item, found, posted)
  {
    var title, price, platform := SafeTruncate(item.title, 80), PriceLine(item), PlatformLink(item);
    TruncateOneLine(item.title, 80);
    PriceLineOneLine(item);
    PlatformLinkOneLine(item);
    LinesAreSingle(kw.originalKeyword, title, price, platform, found, posted);
    LinesAreVisible(kw.originalKeyword, title, price, platform, found, posted);
    RenderSplits(MessageLines(kw.originalKeyword, title, price, platform, found, posted));
  }

  // ---------------------------------------------------------------------
  // Administrator diagnostics
  // ---------------------------------------------------------------------

  /** `NOTIFY_ADMIN_CHAT_ID` read at start-up: the stripped value as a number when it is all digits. */
  function AdminChatId(raw: string): (r: Option<nat>)
    ensures r.Some? <==> IsDigitString(Strip(raw))
    ensures r.Some? ==> r.value == DigitsToNat(Strip(raw))
  {
    var t := Strip(raw);
    if IsDigitString(t) then Some(DigitsToNat(t)) else None
  }

  /** `if not self.admin_chat_id: return`: an unset chat, and chat 0, send nothing. */
  predicate AdminConfigured(chatId: Option<nat>) { chatId.Some? && chatId.value != 0 }

  /** An administrator event; an absent entry is `None`, and Python's falsy values are `""` and 0. */
  datatype AdminEvent = AdminEvent(
    platform: Option<string>,
    state: Option<string>,
    firstSeen: Option<string>,
    recoveredAt: Option<string>,
    cooldownMinutes: Option<nat>,
    cooldownUntil: Option<string>)

  predicate Truthy(s: Option<string>) { s.Some? && s.value != "" }

  /** `f"⚠️ {b('Systemmeldung')}"`: the headline has nothing to escape. */
  const ADMIN_HEADLINE: string := "\U{26A0}\U{FE0F} <b>Systemmeldung</b>"

  /** A line that is appended only when its entry is set. */
  function OptLine(present: bool, l: string): seq<string>
  {
    if present then [l] else []
  }

  /** The lines of `send_admin_event`: three fixed ones, then each optional entry that is truthy. */
  function AdminEventLines(e: AdminEvent): seq<string>
  {
    [ADMIN_HEADLINE,
     "Plattform: " + e.platform.GetOr("unbekannt"),
     "Status: " + e.state.GetOr("n/a")]
    + OptLine(Truthy(e.firstSeen), "Erkannt: " + e.firstSeen.GetOr(""))
    + OptLine(Truthy(e.recoveredAt), "Wieder normal: " + e.recoveredAt.GetOr(""))
    + OptLine(e.cooldownMinutes.GetOr(0) != 0, "Cooldown: " + NatToString(e.cooldownMinutes.GetOr(0)) + " Minuten")
    + OptLine(Truthy(e.cooldownUntil), "Gesperrt bis: " + e.cooldownUntil.GetOr(""))
  }

  /** The header lines are always there, and each optional line exactly when its entry is truthy. */
  lemma AdminEventLinesShape(e: AdminEvent)
    ensures var ls := AdminEventLines(e);
            && 3 <= |ls| <= 7
            && ls[0] == ADMIN_HEADLINE
            && ls[1] == "Plattform: " + e.platform.GetOr("unbekannt")
            && ls[2] == "Status: " + e.state.GetOr("n/a")
            && |ls| == 3 + |OptLine(Truthy(e.firstSeen), "")| + |OptLine(Truthy(e.recoveredAt), "")|
                         + |OptLine(e.cooldownMinutes.GetOr(0) != 0, "")| + |OptLine(Truthy(e.cooldownUntil), "")|
            && (Truthy(e.firstSeen) ==> ls[3] == "Erkannt: " + e.firstSeen.value)
            && (!Truthy(e.firstSeen) && Truthy(e.recoveredAt) ==> ls[3] == "Wieder normal: " + e.recoveredAt.value)
  {
  }

  /** A line that `br_join` keeps and that holds no line break of its own. */
  predicate CleanLine(l: string) { Visible(l) && OneLine(l) }

  predicate AllClean(ls: seq<string>) { forall k :: 0 <= k < |ls| ==> CleanLine(ls[k]) }

  lemma AllCleanAppend(a: seq<string>, b: seq<string>)
    requires AllClean(a) && AllClean(b)
    ensures AllClean(a + b)
  {
    forall k | 0 <= k < |a + b| ensures CleanLine((a + b)[k]) {
      if k >= |a| {
        assert (a + b)[k] == b[k - |a|];
      }
    }
  }

  /** A label followed by a one-line value is a clean line. */
  lemma LabelClean(tag: string, v: string)
    requires Visible(tag) && OneLine(tag) && OneLine(v)
    ensures CleanLine(tag + v)
  {
    assert (tag + v)[0] == tag[0];
  }

  /** With one-line entries, the payload splits at its line breaks into exactly the event's lines. */
  lemma AdminPayloadLines(e: AdminEvent)
    requires e.platform.Some? ==> OneLine(e.platform.value)
    requires e.state.Some? ==> OneLine(e.state.value)
    requires e.firstSeen.Some? ==> OneLine(e.firstSeen.value)
    requires e.recoveredAt.Some? ==> OneLine(e.recoveredAt.value)
    requires e.cooldownUntil.Some? ==> OneLine(e.cooldownUntil.value)
    ensures SplitOn(BrJoin(SomeAll(AdminEventLines(e))), '\n') == AdminEventLines(e)
  {
    AdminLinesClean(e);
    var ls := AdminEventLines(e);
    KeptAllVisible(ls);
    SplitJoin(ls, '\n');
  }

  /** The headline and the labels of the fixed lines are clean. */
  lemma AdminHeadClean()
    ensures CleanLine(ADMIN_HEADLINE) && CleanLine("Plattform: ") && CleanLine("Status: ")
  {
  }

  /** The labels of the optional lines are clean. */
  lemma AdminTagsClean()
    ensures CleanLine("Erkannt: ") && CleanLine("Wieder normal: ")
    ensures CleanLine("Cooldown: ") && CleanLine("Gesperrt bis: ") && OneLine(" Minuten")
  {
  }

  /** An optional labelled line is clean whether or not it is present. */
  lemma OptLineClean(present: bool, tag: string, v: string)
    requires CleanLine(tag) && OneLine(v)
    ensures AllClean(OptLine(present, tag + v))
  {
    LabelClean(tag, v);
  }

  /** With one-line entries every line of the administrator message is clean. */
  lemma AdminLinesClean(e: AdminEvent)
    requires e.platform.Some? ==> OneLine(e.platform.value)
    requires e.state.Some? ==> OneLine(e.state.value)
    requires e.firstSeen.Some? ==> OneLine(e.firstSeen.value)
    requires e.recoveredAt.Some? ==> OneLine(e.recoveredAt.value)
    requires e.cooldownUntil.Some? ==> OneLine(e.cooldownUntil.value)
    ensures AllClean(AdminEventLines(e))
  {
    AdminHeadClean();
    AdminTagsClean();
    LabelClean("Plattform: ", e.platform.GetOr("unbekannt"));
    LabelClean("Status: ", e.state.GetOr("n/a"));
    var head := [ADMIN_HEADLINE, "Plattform: " + e.platform.GetOr("unbekannt"), "Status: " + e.state.GetOr("n/a")];
    assert AllClean(head);
    var m := NatToString(e.cooldownMinutes.GetOr(0));
    assert OneLine(m + " Minuten") by {
      assert forall k :: 0 <= k < |m| ==> IsDigit(m[k]);
    }
    assert "Cooldown: " + m + " Minuten" == "Cooldown: " + (m + " Minuten");
    var a := OptLine(Truthy(e.firstSeen), "Erkannt: " + e.firstSeen.GetOr(""));
    var b := OptLine(Truthy(e.recoveredAt), "Wieder normal: " + e.recoveredAt.GetOr(""));
    var c := OptLine(e.cooldownMinutes.GetOr(0) != 0, "Cooldown: " + m + " Minuten");
    var d := OptLine(Truthy(e.cooldownUntil), "Gesperrt bis: " + e.cooldownUntil.GetOr(""));
    OptLineClean(Truthy(e.firstSeen), "Erkannt: ", e.firstSeen.GetOr(""));
    OptLineClean(Truthy(e.recoveredAt), "Wieder normal: ", e.recoveredAt.GetOr(""));
    OptLineClean(e.cooldownMinutes.GetOr(0) != 0, "Cooldown: ", m + " Minuten");
    OptLineClean(Truthy(e.cooldownUntil), "Gesperrt bis: ", e.cooldownUntil.GetOr(""));
    AllCleanAppend(head, a);
    AllCleanAppend(head + a, b);
    AllCleanAppend(head + a + b, c);
    AllCleanAppend(head + a + b + c, d);
  }

  class NotificationService {
    const db: Store
    const bot: Bot
    const adminChatId: Option<nat>

    constructor (db: Store, bot: Bot, rawAdminChat: string)
      ensures this.db == db && this.bot == bot && adminChatId == AdminChatId(rawAdminChat)
    {
      this.db := db;
      this.bot := bot;
      adminChatId := AdminChatId(rawAdminChat);
    }

    /**
     * `send_new_item_notification`.  The record is created first; a
     * duplicate returns False without sending, a store error other than a
     * duplicate propagates, and a send failure returns False but keeps the
     * record, so no triple is ever pushed twice.
     */
    method SendNewItemNotification(userTelegramId: int, kw: Keyword, item: Listing,
                                   found: string, posted: string, storeError: bool, sendFails: bool)
      returns (r: Resolution)
      requires db.Valid()
      modifies db, bot
      ensures db.Valid()
      ensures db.users == old(db.users) && db.keywords == old(db.keywords) && db.listings == old(db.listings)
      ensures var n := NotificationKey(kw.userId, kw.id, CanonicalKey(item));
              && (storeError ==> r == Propagated && db.notifications == old(db.notifications) && bot.sent == old(bot.sent))
              && (!storeError && n in old(db.notifications) ==>
                    r == Returned(false) && db.notifications == old(db.notifications) && bot.sent == old(bot.sent))
              && (!storeError && n !in old(db.notifications) ==>
                    db.notifications == old(db.notifications) + [n]
                    && r == Returned(!sendFails)
                    && bot.sent == if sendFails then old(bot.sent)
                                   else old(bot.sent) + [(userTelegramId, FormatMessage(kw, item, found, posted))])
      ensures r == Returned(true) ==> NotificationKey(kw.userId, kw.id, CanonicalKey(item)) !in old(db.notifications)
    {
      var n := NotificationKey(kw.userId, kw.id, CanonicalKey(item));
      var outcome := db.CreateNotification(n, storeError);
      match outcome {
        case Raised =>
          return Propagated;
        case Duplicate =>
          return Returned(false);
        case Inserted =>
          var text := FormatMessage(kw, item, found, posted);
          var ok := bot.SendMessage(userTelegramId, text, sendFails);
          return Returned(ok);
      }
    }

    /** `send_admin_event`: nothing without a configured chat; otherwise the joined lines, a failed send swallowed. */
    method SendAdminEvent(e: AdminEvent, sendFails: bool)
      modifies bot
      ensures !AdminConfigured(adminChatId) || sendFails ==> bot.sent == old(bot.sent)
      ensures AdminConfigured(adminChatId) && !sendFails ==>
                bot.sent == old(bot.sent) + [(adminChatId.value, BrJoin(SomeAll(AdminEventLines(e))))]
    {
      if !AdminConfigured(adminChatId) {
        return;
      }
      var payload := BrJoin(SomeAll(AdminEventLines(e)));
      var _ := bot.SendMessage(adminChatId.value, payload, sendFails);
    }
  }

  /** How a call ended: a returned boolean, or an exception propagated to the caller. */
  datatype Resolution = Returned(sent: bool) | Propagated

  /** Only a chat id that is all digits and not zero receives diagnostics. */
  lemma AdminGuard(raw: string)
    ensures AdminConfigured(AdminChatId(raw)) <==> IsDigitString(Strip(raw)) && DigitsToNat(Strip(raw)) != 0
    ensures Strip(raw) == "" ==> !AdminConfigured(AdminChatId(raw))
  {
  }
}
