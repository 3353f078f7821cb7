# A verified model of the militaria-hunter keyword-watch bot

The bot watches auction and classifieds sites (militaria321.com, egun.de,
kleinanzeigen.de, markt.de) for keywords that its users subscribe to over
Telegram. It remembers which listings each keyword has already seen, and it
sends a notification only for those it judges new. This project models the
decisions the bot makes around its network, HTML, Telegram and database
layers, and proves what those decisions guarantee.

There are two code trees, and each gets its own modules.

**The bot (`article_hunter_bot/`)**

- `SearchService`: the canonical listing key, the newness gate with its inclusive `posted_ts >= since_ts` boundary and its 60-minute grace window, the filter reasons, the page-list rule, the health classifier and the migration trigger.
- `Dedupe`: in-run de-duplication by a key function.
- `SearchPoll`: one poll of a keyword, including the cross-provider de-duplication, enrichment and the posted-time fallback, the gate, the `$addToSet` growth of the seen set, the success and error telemetry, and the repair of the provider list.
- `Baseline`: the status rule of `full_baseline_seed`.
- `Database`: the document store, whose unique notification index makes `create_notification` an atomic create-if-absent.
- `Notifications`: the at-most-once push (record first, then send, so a failed send is never retried), the message text and the administrator guard.
- `Scheduler`: the job registry over `active_jobs` and the control flow of `_poll_keyword`.
- `Kleinanzeigen`: the throttle state machine (cooldowns for HTTP 429, HTTP 403 and CAPTCHA, recovery, the event queue), the URL helpers and the page loop.
- `Egun`, `Militaria`, `MarktDe`: the other providers' page loops and parsers.
- `Matching`: whole-word title matching with the "HH:MM Uhr" exclusion.
- `Text` and `Money`: the text and price utilities.

**The older backend (`backend/`)**

- `ListingKey`: building and parsing listing keys.
- `BackendEgun`: its egun.de parser, formatter, next-page rule and search.
- `Pagination`: the next-page helpers.
- `KeywordService`: the keyword document updates.
- `BackendSearch`: its newness gate and the batched pass over all keywords.
- `BackendScheduler`: the due-check, batching and clean-up.

The bot's state-changing code is modelled as classes with `modifies` clauses and loops with invariants:

- the store: `Database.Store`;
- the bot and the notification service: `Notifications.Bot` and `Notifications.NotificationService`;
- the scheduler: `Scheduler.PollingScheduler`;
- the kleinanzeigen provider: `Kleinanzeigen.Provider`;
- the backend keyword service: `KeywordService.Service`.

Each method is proved against a specification function, and the properties the source promises are proved about those functions as lemmas.

The model abstracts the surroundings as follows:

- Timestamps are whole UTC seconds, and the current time is a parameter.
- Prices are whole hundredths.
- Text is ASCII.
- Whatever comes from outside is an input: a fetched page (its parsed listings, its links or the failure), a provider's search, a Telegram send that may fail, and a `remove_job` that may raise.

## Model

| member | source | states |
|---|---|---|
| Text.KeptMembers | article_hunter_bot/utils/text.py:11-13 | a line is kept exactly when it is present (not `None`) and not blank after stripping |
| Text.KeptAppend | article_hunter_bot/utils/text.py:13 | the filter works entry by entry: filtering a concatenation is the concatenation of the filtered halves |
| Text.KeptAllVisible | article_hunter_bot/utils/text.py:13 | lines that each open with a non-space character are all kept, in order |
| Text.SplitJoin | article_hunter_bot/utils/text.py:13 | joining parts free of the separator and splitting again gives back exactly the parts |
| Text.BrJoinLines | article_hunter_bot/utils/text.py:11-13 | the joined message split at its newlines is exactly the kept lines, in the given order |
| Text.BrJoinEmpty | article_hunter_bot/utils/text.py:11-13 | when every entry is `None` or blank, nothing is kept and the message is empty |
| Text.SafeTruncateBound | article_hunter_bot/utils/text.py:58-62 | for a limit of at least 3: the text comes back unchanged iff it fits; otherwise the result has exactly the limit's length and starts with the first `max_len - 3` characters |
| Text.SafeTruncate | article_hunter_bot/utils/text.py:58-62 | a text that fits comes back unchanged; a longer one ends in `...` |
| Text.SafeTruncateOvershoots | article_hunter_bot/utils/text.py:61-62 | as written, a limit of 2 turns a six-character text into eight characters |
| Text.SafeTruncateBounded | article_hunter_bot/utils/text.py:58-62 | the intended rule never exceeds the limit or the text, keeps a fitting text, and equals the written rule for limits of 3 and more |
| Text.EscapeNoMarkup | article_hunter_bot/utils/text.py:5-33 | escaped text contains no `<`, `>`, `"` or `'` |
| Text.HtmlEscape | article_hunter_bot/utils/text.py:5 | escaping never shortens the text and gives the empty text only for the empty text |
| Text.EscapeAddsOnlyEntities | article_hunter_bot/utils/text.py:5-33 | every character of the escaped text comes from the input or from the five entities |
| Text.EscapePlain | article_hunter_bot/utils/text.py:5 | text without special characters is left unchanged |
| Text.EscapeRoundTrip | article_hunter_bot/utils/text.py:5 | unescaping the escaped text gives back the input: escaping loses nothing |
| Text.WrappersEscape | article_hunter_bot/utils/text.py:16-33 | between the fixed tags, `b`, `i` and `code` hold exactly the escaped text, which contains no markup and reads back as the input |
| Text.LinkEscapes | article_hunter_bot/utils/text.py:26-28 | both the link's `href` value and its caption are the escaped texts, so neither can close the attribute or the tag |
| Text.FmtPriceDeMissing | article_hunter_bot/utils/text.py:42-55 | the rendering is "/" exactly when there is no value; otherwise it starts with the German amount, which parses back to the value |
| Money.GroupShape | backend/providers/egun.py:124-127 | grouping thousands keeps the first and last digits and adds nothing but dots |
| Money.GroupRemoveDots | backend/providers/egun.py:124-127 | deleting the dots undoes the grouping |
| Money.AmountShape | backend/providers/egun.py:119-130 | an amount is the grouped whole units, a comma and the two cent digits, all number characters and opening with a digit |
| Money.DecimalSepAtSpec | article_hunter_bot/providers/egun.py:278 | `[.,](\d{1,2})$` matches exactly when a separator three or two from the end is followed only by digits; the index found is such a separator |
| Money.ParseAmount | backend/providers/egun.py:88-108 | a German amount parses back to its value |
| Money.ParseWhole | backend/providers/egun.py:104-106 | a digit string without separators parses to whole units |
| Dedupe.DedupAppend | article_hunter_bot/services/search_service.py:148-215 | de-duplicating two lists in a row with one shared `seen_this_run` is de-duplicating the first, then the second against the keys the first added |
| Dedupe.DedupKeys | article_hunter_bot/services/search_service.py:148-161 | the kept items carry exactly the keys not already met in the run, each once |
| Dedupe.DedupKeepsFirst | article_hunter_bot/services/search_service.py:149-161 | every kept item is the (rewritten) first occurrence of a fresh key, so the first occurrence in scan order wins |
| Dedupe.DedupInto | article_hunter_bot/services/search_service.py:148-215 | the loop appends exactly the de-duplicated items and grows `seen_this_run` by every key it met |
| SearchService.CanonicalKeyParts | article_hunter_bot/services/search_service.py:385-397 | the key splits at its first colon into the lower-cased, stripped platform and the first digit run of the id, or the whole id when it holds no digit |
| SearchService.CanonicalKeyStable | article_hunter_bot/services/search_service.py:385-397 | rebuilding the key after `platform_id` is overwritten with the key's id part gives the same key |
| SearchService.SameIdentitySameKey | article_hunter_bot/services/search_service.py:385-397 | the key depends on the platform and the id alone |
| SearchService.CanonicalKeyIgnoresDecoration | article_hunter_bot/services/search_service.py:388-397 | ids sharing their first digit run, on platforms equal up to case and padding, give the same key |
| SearchService.SinceTs | article_hunter_bot/services/search_service.py:409-416 | a missing `since_ts` is taken as now, a present one is kept |
| SearchService.SeenIsNeverNew | article_hunter_bot/services/search_service.py:1198-1202 | a listing whose `platform:platform_id` is among the seen keys is never new |
| SearchService.IsNewListing | article_hunter_bot/services/search_service.py:1188-1216 | a listing the gate lets through is never among the seen keys; the timestamp and grace rules are `PostedTsRule` and `GraceWindowRule` |
| SearchService.PostedTsRule | article_hunter_bot/services/search_service.py:1208-1210 | with a `posted_ts`, an unseen listing is new iff `posted_ts >= since_ts`; equality counts as new |
| SearchService.GraceWindowRule | article_hunter_bot/services/search_service.py:1212-1216 | without a `posted_ts`, an unseen listing is new iff `now - since_ts` is at most 60 minutes, inclusive; `GRACE_MINUTES` is not read |
| SearchService.FilterReasonExplainsGate | article_hunter_bot/services/search_service.py:1218-1238 | the reason is "unknown" exactly for the listings the gate lets through, and "already_seen" exactly for seen keys |
| SearchService.GetFilterReason | article_hunter_bot/services/search_service.py:1218-1238 | the reason is "unknown" exactly for the listings the gate lets through |
| SearchService.EarlierSinceKeepsNew | article_hunter_bot/services/search_service.py:1208-1210 | moving `since_ts` earlier never turns a listing with a `posted_ts` from new to old |
| SearchService.RangeTo | article_hunter_bot/services/search_service.py:380-383 | `list(range(1, n + 1))` is `[1, ..., n]`, empty for `n <= 0` |
| SearchService.PagesToScanShape | article_hunter_bot/services/search_service.py:363-383 | the page list is exactly `[1..n]` with n the positive estimate capped by `max_pages_per_cycle`, else `max_pages_per_cycle` |
| SearchService.DeterminePagesToScan | article_hunter_bot/services/search_service.py:363-383 | the pages are consecutive from 1 and never more than the cycle maximum |
| SearchService.PagesToScanIgnoresMode | article_hunter_bot/services/search_service.py:363-383 | mode, cursor, window and primary pages never change the page list |
| SearchService.NextPagesEstimate | article_hunter_bot/services/search_service.py:318-334 | the estimate is written only when it was missing and pages were scanned, and then it is at least 1 |
| SearchService.LargeSeenSetNeverMigrates | article_hunter_bot/services/search_service.py:54-64 | ten or more seen keys never trigger the migration, whatever their shape |
| SearchService.HealthyExactly | article_hunter_bot/services/search_service.py:549-590 | the keyword is healthy iff the baseline is complete, the job exists, errors are below 3, there is no error-only history and no success older than 180 s |
| SearchService.BaselineRuleFirst | article_hunter_bot/services/search_service.py:549-556 | an incomplete baseline is reported as such before any other rule, job or errors notwithstanding |
| SearchService.ComputeKeywordHealth | article_hunter_bot/services/search_service.py:537-590 | the status is "baseline" exactly when the baseline is not complete, and "running" only with a job and fewer than three consecutive errors |
| SearchService.FailingExactly | article_hunter_bot/services/search_service.py:558-578 | the status is an error iff the baseline is complete and rule 2, 3 or 4 fires |
| Dedupe.DedupExtends | article_hunter_bot/providers/egun.py:86-92 | appending a page's not-yet-seen listings keeps a list unique by key, with every listed key among the seen ones |
| Baseline.Succeeded | article_hunter_bot/services/search_service.py:865 | at most one success per registered provider |
| Baseline.ProviderResultsShape | article_hunter_bot/services/search_service.py:840-876 | over distinct provider names, `provider_results` has exactly one entry per successful crawl, holding its pages scanned (0 when missing) and its item count |
| Baseline.CrawlProviders | article_hunter_bot/services/search_service.py:817-860 | the provider loop collects every successful crawl's items in order, the last qualifying item, the errors cut to 400 characters and the per-provider counts |
| Baseline.FullBaselineSeed | article_hunter_bot/services/search_service.py:797-907 | the running write, then the final write with the status rule, errors and the militaria321.com page count; nothing but the keyword document changes |
| Baseline.SucceededCount | article_hunter_bot/services/search_service.py:864-865 | all providers succeeded iff the success count equals the registry size; some succeeded iff it is positive |
| Baseline.BaselineStatusRule | article_hunter_bot/services/search_service.py:862-872 | "complete" iff every crawl succeeded, "partial" iff some succeeded and some raised, "error" iff there were providers and all raised |
| Baseline.BaselineTelemetryRule | article_hunter_bot/services/search_service.py:887-895 | the success telemetry (`last_success_ts`, `consecutive_errors = 0`, no error message) is written iff some crawl succeeded, otherwise those fields are kept |
| SearchPoll.IdRewriteKeepsKeys | article_hunter_bot/services/search_service.py:150-159 | the first-loop overwrite of `platform_id` never changes a listing's canonical key |
| SearchPoll.AllItemsDistinct | article_hunter_bot/services/search_service.py:148-215 | across both loops every canonical key appears in `all_items` at most once, and every key the crawls produced is there |
| SearchPoll.AllItemsFirstOccurrence | article_hunter_bot/services/search_service.py:148-215 | every collected item is the first listing with its key in scan order, militaria321.com first |
| SearchPoll.KeySetPointwise | article_hunter_bot/services/search_service.py:219-236 | lists whose keys agree position by position have the same keys and the same distinctness |
| SearchPoll.Fallback | article_hunter_bot/services/search_service.py:404-406 | an egun.de listing without `posted_ts` gets one; every other listing is unchanged; only `posted_ts` ever changes |
| SearchPoll.Enrich | article_hunter_bot/services/search_service.py:217-236 | enrichment changes only `posted_ts`, and only for unseen listings |
| SearchPoll.EnrichOnlyDates | article_hunter_bot/services/search_service.py:217-236 | enrichment keeps the canonical key, and leaves seen or already dated listings alone |
| SearchPoll.EnrichAllKeys | article_hunter_bot/services/search_service.py:217-236 | enrichment keeps the key set and the distinctness of the collected items |
| SearchPoll.NewSeenKeysExactly | article_hunter_bot/services/search_service.py:239-248 | `new_seen_keys` holds exactly the collected keys not seen before, each once when the items' keys are distinct |
| SearchPoll.PushedItemsExactly | article_hunter_bot/services/search_service.py:240-253 | the pushed items are exactly the unseen items the newness gate accepts, and never more than the new seen keys |
| SearchPoll.Gate | article_hunter_bot/services/search_service.py:239-284 | the gating loop computes `new_seen_keys` and the pushed items, and pushed + absorbed equals `len(new_seen_keys)` |
| SearchPoll.CollectOne | article_hunter_bot/services/search_service.py:179-215 | one provider of the second loop adds its de-duplicated items only when it is not militaria321.com, is followed and did not raise |
| SearchPoll.CollectOthers | article_hunter_bot/services/search_service.py:178-215 | the second loop appends the other providers' items de-duplicated against the run's keys |
| SearchPoll.EnrichItems | article_hunter_bot/services/search_service.py:217-236 | the enrichment pass applies the per-item enrichment to every item |
| SearchPoll.KeepKnownAll | article_hunter_bot/services/search_service.py:499 | a stored list whose providers are all registered passes the filter unchanged |
| SearchPoll.KeepKnownMembers | article_hunter_bot/services/search_service.py:499 | the filter keeps exactly the stored providers that are registered |
| SearchPoll.EnsuredPlatformsProps | article_hunter_bot/services/search_service.py:496-519 | the repaired list names exactly the registered providers, and repairing it again changes nothing |
| SearchPoll.EnsureKeywordPlatforms | article_hunter_bot/services/search_service.py:496-519 | the list is repaired, and the store is written only when the list changed |
| SearchPoll.ApplyPostedTsFallback | article_hunter_bot/services/search_service.py:399-407 | every item of the array becomes its fallback version |
| SearchPoll.PushedItemsSameGate | article_hunter_bot/services/search_service.py:1188-1216 | the gate reads only `seen_listing_keys` and `since_ts` of the keyword |
| SearchPoll.Collect | article_hunter_bot/services/search_service.py:147-215 | both de-duplication loops together give `all_items` |
| SearchPoll.RecordFailure | article_hunter_bot/services/search_service.py:337-349 | on an error, telemetry records the failure, the message cut to 500 characters; nothing else is written |
| SearchPoll.RecordSuccess | article_hunter_bot/services/search_service.py:286-359 | a stored keyword becomes exactly `SuccessDoc` of the old document: the seen set grown by the new keys, the page estimate written when it was missing, the success telemetry; a missing keyword stays missing |
| SearchPoll.SuccessDocSpec | article_hunter_bot/services/search_service.py:286-359 | after a successful poll the stored document keeps its old seen keys first and holds exactly the old and the new ones, records the success at `now` with no error, gains an estimate of at least 1 exactly when the keyword had none and pages were scanned, and keeps its identity, texts, platforms and window |
| SearchPoll.RepairPlatforms | article_hunter_bot/services/search_service.py:496-519 | the platform repair changes only the stored document's platforms, and only when the list changed |
| SearchPoll.SearchKeyword | article_hunter_bot/services/search_service.py:46-361 | one poll: the platform repair, both de-duplication loops, enrichment, the gate with pushed + absorbed = new seen keys; on success the stored document is `SuccessDoc` of the repaired one, with the `$addToSet` union; when the militaria321.com crawl raised, it is the repaired one with the error telemetry and nothing else |
| Database.UpdateFirst | article_hunter_bot/database.py:100-105 | `update_one` keeps the number of keyword documents |
| Database.FindAfterUpdate | article_hunter_bot/database.py:100-105 | after `update_one({"id": id}, ...)` a `find_one` on that id returns the rewritten document when one existed, and still nothing when none did |
| Database.SeenKeptBy | article_hunter_bot/services/search_service.py:299-302 | a `$set` that touches neither id nor seen list leaves the stored seen list and the document's presence unchanged |
| Database.SeenGrownBy | article_hunter_bot/services/search_service.py:286-291 | the `$addToSet`/`$each` write grows the stored seen list exactly by `AddToSet` and creates no document |
| Database.UpdateFirstChangesOne | article_hunter_bot/database.py:102-105 | only the first document carrying the id is rewritten, and by exactly the update; every other document is untouched |
| Database.FindKeyword | article_hunter_bot/services/search_service.py:70 | `find_one({"id": id})` returns a stored document with that id, and nothing only when no document has it |
| Database.UserKeywords | article_hunter_bot/database.py:77-84 | `get_user_keywords` returns no more documents than are stored |
| Database.UserKeywordsExactly | article_hunter_bot/database.py:77-84 | a document is returned exactly when it belongs to the user and, with `active_only`, is active |
| Database.AddToSetIsUnion | article_hunter_bot/services/search_service.py:288-291 | `$addToSet` keeps the old list as a prefix and yields exactly the union of old and new keys |
| Database.AddToSetFreshKeys | article_hunter_bot/services/search_service.py:281-291 | distinct keys absent from the list are appended in order, unchanged |
| Database.Store.constructor | article_hunter_bot/database.py:44-60 | a fresh store is empty and satisfies the unique notification index |
| Database.Store.UserByTelegramId | article_hunter_bot/database.py:65-68 | a user is found exactly when one with that Telegram id is stored |
| Database.Store.CreateNotification | article_hunter_bot/database.py:55-134 | a new (user, keyword, listing key) triple is inserted and `True` returned; a stored triple gives `False` and writes nothing; any other store error propagates and writes nothing; the unique index is kept |
| Database.Store.UpdateKeywordSeenKeys | article_hunter_bot/database.py:100-105 | the keyword's seen list is replaced and `updated_at` stamped; users, listings and notifications are unchanged |
| Database.Store.AddSeenKeys | article_hunter_bot/services/search_service.py:288-291 | the keyword's seen list grows by `$addToSet`; nothing else in the store changes |
| Database.Store.SetKeywordFields | article_hunter_bot/services/search_service.py:299-302 | a `$set` on one keyword document rewrites only that document |
| Database.Store.UpsertListing | article_hunter_bot/database.py:52-121 | the listing is stored under its (platform, platform_id), replacing any earlier one; nothing else changes |
| Database.UpsertTwiceKeepsLast | article_hunter_bot/database.py:112-121 | two upserts for the same (platform, platform_id) leave only the second |
| Notifications.Bot.constructor | article_hunter_bot/services/notification_service.py:22 | a fresh bot has delivered nothing |
| Notifications.Bot.SendMessage | article_hunter_bot/services/notification_service.py:72-78 | a successful send appends exactly (chat, text) to the delivered messages; a failing one records nothing and reports failure |
| Notifications.PriceLineFallback | article_hunter_bot/services/notification_service.py:145-147 | a price value is formatted; without one, a non-empty `price_text` replaces the "/" placeholder, and otherwise "/" stays |
| Notifications.PlatformLinkOneLine | article_hunter_bot/services/notification_service.py:150-151 | the platform line, linked or not, holds no line break when platform and URL hold none |
| Notifications.PriceLineOneLine | article_hunter_bot/services/notification_service.py:145-147 | the price line holds no line break when currency and price text hold none |
| Notifications.TruncateOneLine | article_hunter_bot/services/notification_service.py:158 | cutting the title to 80 characters adds no line break |
| Notifications.LinesAreSingle | article_hunter_bot/services/notification_service.py:154-163 | with one-line parts no line of the message template breaks |
| Notifications.LinesAreVisible | article_hunter_bot/services/notification_service.py:154-163 | every template line opens with its label or headline, so `br_join` keeps it |
| Notifications.RenderKept | article_hunter_bot/utils/text.py:11-13 | `br_join` keeps the headline, drops the empty second entry and keeps the other lines in order |
| Notifications.RenderSplits | article_hunter_bot/utils/text.py:11-13 | visible one-line lines joined by `br_join` split back at the line breaks into the same lines |
| Notifications.MessageSplitsIntoLines | article_hunter_bot/services/notification_service.py:139-163 | with one-line keyword, title, platform, URL and times the message is exactly seven lines: headline, keyword, title cut to 80, price line, platform link, found time, posted time |
| Notifications.FormatMessage | article_hunter_bot/services/notification_service.py:139-163 | the message is the seven lines joined by line breaks: the empty entry after the headline is dropped |
| Notifications.AdminChatId | article_hunter_bot/services/notification_service.py:23-24 | the chat id is set exactly when the stripped variable is all digits, and is then its decimal value |
| Notifications.AdminEventLinesShape | article_hunter_bot/services/notification_service.py:184-204 | the three fixed lines with their defaults come first, then each optional line exactly when its entry is truthy, in order |
| Notifications.AdminPayloadLines | article_hunter_bot/services/notification_service.py:184-206 | with one-line entries the joined payload splits back into exactly the event's lines |
| Notifications.AdminLinesClean | article_hunter_bot/services/notification_service.py:184-204 | with one-line entries every administrator line is visible and unbroken |
| Notifications.NotificationService.constructor | article_hunter_bot/services/notification_service.py:20-24 | the service keeps the store and the bot and reads the administrator chat from the stripped variable |
| Notifications.NotificationService.SendNewItemNotification | article_hunter_bot/services/notification_service.py:37-87 | the record is created before any send; a duplicate returns False and sends nothing; a store error propagates and sends nothing; a new triple is recorded and sent, and a failed send returns False but keeps the record; True only for a triple not recorded before |
| Notifications.NotificationService.SendAdminEvent | article_hunter_bot/services/notification_service.py:179-216 | nothing is sent unless the chat is configured and non-zero; otherwise the joined lines go to that chat and a failed send is swallowed |
| Notifications.AdminGuard | article_hunter_bot/services/notification_service.py:179-182 | diagnostics go out exactly when the stripped variable is all digits and not zero; an empty variable sends nothing |
| Scheduler.JobIdInjective | article_hunter_bot/scheduler.py:65-87 | distinct keywords never share a `keyword_{id}` job id |
| Scheduler.AddJobTracks | article_hunter_bot/scheduler.py:60-80 | after an add the keyword is tracked with a 60-second, single-instance job for its id and chat; a tracked keyword is left as it was |
| Scheduler.AddJobIdempotent | article_hunter_bot/scheduler.py:62-63 | adding a tracked keyword again, for any chat, changes nothing |
| Scheduler.RemoveJobIdempotent | article_hunter_bot/scheduler.py:84-85 | removing twice is removing once |
| Scheduler.RemoveJobUntracks | article_hunter_bot/scheduler.py:82-94 | an untracked keyword or a raising `remove_job` changes nothing; otherwise the job and the tracked id are both gone |
| Scheduler.AddJobKeepsRegistered | article_hunter_bot/scheduler.py:60-80 | every tracked keyword keeps its own job after an add |
| Scheduler.RemoveJobKeepsRegistered | article_hunter_bot/scheduler.py:82-94 | removing one keyword leaves every other tracked keyword's job in place |
| Scheduler.AddThenRemove | article_hunter_bot/scheduler.py:60-94 | removing a freshly added keyword restores the tracked set and drops only its job |
| Scheduler.DeliverGrows | article_hunter_bot/scheduler.py:129-143 | the loop only appends records; each item counts at most once, as pushed or skipped; each pushed item sent one message and appended one seen key |
| Scheduler.DeliverKeepsUnique | article_hunter_bot/scheduler.py:129-143 | the loop keeps the notification index free of duplicates |
| Scheduler.RecordedNeverResent | article_hunter_bot/services/notification_service.py:48-57 | when every item is already recorded the loop sends nothing, writes nothing and pushes nothing |
| Scheduler.DeliverRecords | article_hunter_bot/scheduler.py:129-143 | every item whose record call did not fail is recorded afterwards, sent or not, so a later poll never sends it again |
| Scheduler.PickKeyword | article_hunter_bot/scheduler.py:107-111 | the lookup loop returns the first listed keyword with the job's id, or none |
| Scheduler.PollTargetStored | article_hunter_bot/scheduler.py:99-116 | a poll works only on an active keyword stored under the job's id that belongs to the chat's user |
| Scheduler.StaleWriteDropsKey | article_hunter_bot/scheduler.py:130-147 | a key that is neither in the list read before the search nor the key of an item the loop went over is not in the list the loop builds, so the whole-list write drops a key the search's `$addToSet` stored for an absorbed item |
| Scheduler.PollingScheduler.constructor | article_hunter_bot/scheduler.py:20-30 | a fresh scheduler tracks no keyword and holds no job |
| Scheduler.PollingScheduler.AddKeywordJob | article_hunter_bot/scheduler.py:60-80 | the registry changes exactly as `AddJob` says and stays registered |
| Scheduler.PollingScheduler.RemoveKeywordJob | article_hunter_bot/scheduler.py:82-94 | the registry changes exactly as `RemoveJob` says and stays registered |
| Scheduler.PollingScheduler.DeliverOne | article_hunter_bot/scheduler.py:130-143 | one notification call changes the records and the sent messages exactly as one loop step says |
| Scheduler.PollingScheduler.DeliverItems | article_hunter_bot/scheduler.py:121-143 | the notification loop leaves the records and the messages of the loop specification, starting from the keyword's seen list |
| Scheduler.PollingScheduler.RunSearch | article_hunter_bot/scheduler.py:119 | the search keeps the keyword's identity and its in-memory seen list, widens the stored seen list and touches no other collection |
| Scheduler.PollingScheduler.PollKeyword | article_hunter_bot/scheduler.py:96-161 | a missing user or keyword removes the job and writes nothing; otherwise the items are delivered as the loop specification says; when something was pushed the stored seen list becomes the in-memory list, so a key stored by the search that was neither read before nor the key of a delivered item is gone |
| Kleinanzeigen.Pow2 | article_hunter_bot/providers/kleinanzeigen.py:951 | a power of two is at least one |
| Kleinanzeigen.Block429Range | article_hunter_bot/providers/kleinanzeigen.py:949-953 | the 429 cooldown is `max(backoff, 1)` times 1, 2, 4 or 8, never shrinks as the exponent grows and stops doubling after three steps |
| Kleinanzeigen.CaptchaMinutesRange | article_hunter_bot/providers/kleinanzeigen.py:991-993 | the CAPTCHA cooldown is the doubled base clamped to at most 480 minutes and at least the base, and never shrinks as the exponent grows |
| Kleinanzeigen.RemainingMinutes | article_hunter_bot/providers/kleinanzeigen.py:734-739 | the minutes shown are the whole minutes left, and at least one |
| Kleinanzeigen.OrUrl | article_hunter_bot/providers/kleinanzeigen.py:969-1014 | `final_url or url` picks one of the two, the first whenever it is non-empty |
| Kleinanzeigen.OrText | article_hunter_bot/providers/kleinanzeigen.py:586-590 | `self._last_error or default` is the error text when it is non-empty and the default otherwise, so never empty |
| Kleinanzeigen.ModeOf | article_hunter_bot/providers/kleinanzeigen.py:64-73 | the mode is `http` or `playwright`; either of those is kept and anything else falls back to `playwright` |
| Kleinanzeigen.SlugOr | article_hunter_bot/providers/kleinanzeigen.py:179 | `slug or "suche"` is never empty and keeps a non-empty slug |
| Kleinanzeigen.Distinct | article_hunter_bot/providers/kleinanzeigen.py:197-199 | the `if path not in candidates` loop yields a list without repeats holding exactly the raw paths |
| Kleinanzeigen.DistinctOfDistinct | article_hunter_bot/providers/kleinanzeigen.py:197-199 | a list without repeats passes through the loop unchanged |
| Kleinanzeigen.RawPathsDistinct | article_hunter_bot/providers/kleinanzeigen.py:182-195 | the four raw paths for a page always differ from one another |
| Kleinanzeigen.CandidatePaths | article_hunter_bot/providers/kleinanzeigen.py:178-201 | the candidates are the four paths for the page, in order, with `suche` for an empty slug, and none repeated |
| Kleinanzeigen.FirstCandidateIsSearchUrl | article_hunter_bot/providers/kleinanzeigen.py:169-191 | the first candidate path is the path of `build_search_url` for the same page |
| Kleinanzeigen.LongDigitRunFrom | article_hunter_bot/providers/kleinanzeigen.py:1154 | `\d{5,}` finds a run of at least five digits occurring in the text, and finds nothing exactly when no five digits in a row occur |
| Kleinanzeigen.LongDigitRunFromFirst | article_hunter_bot/providers/kleinanzeigen.py:1154 | the run found is the one `re.search(r"(\d{5,})")` returns: it starts at the first position where five digits begin and takes every digit up to the next non-digit or the end |
| Kleinanzeigen.PathParts | article_hunter_bot/providers/kleinanzeigen.py:1152 | the path parts are the non-empty segments |
| Kleinanzeigen.NonEmpty | article_hunter_bot/providers/kleinanzeigen.py:1152 | the filter keeps exactly the non-empty parts |
| Kleinanzeigen.IdFromParts | article_hunter_bot/providers/kleinanzeigen.py:1153-1157 | the id is at least five digits, and there is none exactly when no part holds such a run |
| Kleinanzeigen.IdIsLastMatch | article_hunter_bot/providers/kleinanzeigen.py:1153-1156 | the id is the run of the last path part that has one |
| Kleinanzeigen.PlatformIdExample | article_hunter_bot/providers/kleinanzeigen.py:1150-1157 | `/s-anzeige/foo/1234567890-0` yields the id `1234567890` |
| Kleinanzeigen.ExtractPlatformId | article_hunter_bot/providers/kleinanzeigen.py:1150-1157 | the reversed loop over the parts returns the id of the last part with a run |
| Kleinanzeigen.FailureMessage | article_hunter_bot/providers/kleinanzeigen.py:578-591 | a failed page always leaves a non-empty message, and for block, network and other failures it is `_last_error` when that is set |
| Kleinanzeigen.MaxPages | article_hunter_bot/providers/kleinanzeigen.py:548-549 | the budget lies in [1, 200]; an override in range is used as given; without one it is 120 for a full crawl and 1 otherwise |
| Kleinanzeigen.TakePageUnique | article_hunter_bot/providers/kleinanzeigen.py:601-612 | a page keeps the items unique by platform id, and every kept id is recorded as seen |
| Kleinanzeigen.ScanUnique | article_hunter_bot/providers/kleinanzeigen.py:571-636 | the items stay unique by platform id over the whole page loop |
| Kleinanzeigen.ScanCounts | article_hunter_bot/providers/kleinanzeigen.py:608-636 | earlier items stay in front; a page is counted only when it adds an item, so the count is bounded by the items, by the budget, and by one outside multi-page mode |
| Kleinanzeigen.ScanStopsAtEnd | article_hunter_bot/providers/kleinanzeigen.py:592-634 | no page after the one that ends the loop (a failure, an empty page, or the first page outside multi-page mode) is ever fetched |
| Kleinanzeigen.ScanErrorIsLast | article_hunter_bot/providers/kleinanzeigen.py:578-592 | a run that ends with an error reports the non-empty message of a failed page, and `_last_error` is that message |
| Kleinanzeigen.TakePageStep | article_hunter_bot/providers/kleinanzeigen.py:601-612 | the filter loop over a page's listings does what one page step says |
| Kleinanzeigen.ScanPages | article_hunter_bot/providers/kleinanzeigen.py:571-636 | the page loop computes the page loop specification from page 1 |
| Kleinanzeigen.SearchOutcomeShape | article_hunter_bot/providers/kleinanzeigen.py:551-669 | a run's items are unique by platform id and its page count is bounded by the items and the budget, and is at most one outside multi-page mode |
| Kleinanzeigen.Provider.constructor | article_hunter_bot/providers/kleinanzeigen.py:57-121 | a fresh provider has no CAPTCHA, no cooldown, no events and no error, and the mode falls back to `playwright` |
| Kleinanzeigen.Provider.HandleBlock | article_hunter_bot/providers/kleinanzeigen.py:939-960 | 429 starts the doubled cooldown and names its minutes; 403 starts a cooldown of `max(hours, 1)`; any other status only sets `HTTP <status>` |
| Kleinanzeigen.Provider.HandleCaptchaDetected | article_hunter_bot/providers/kleinanzeigen.py:973-1021 | a first detection resets the exponent and records the time, a repeat doubles; the cooldown is the clamped CAPTCHA length; three events are queued on entry and two on a repeat |
| Kleinanzeigen.Provider.HandleCaptchaRecovered | article_hunter_bot/providers/kleinanzeigen.py:1024-1042 | out of the entered state everything is cleared and one recovery event queued; otherwise nothing changes |
| Kleinanzeigen.Provider.DrainEvents | article_hunter_bot/providers/kleinanzeigen.py:755-758 | the queued events come back in order and the queue is left empty; nothing else changes |
| Kleinanzeigen.Provider.HealthNote | article_hunter_bot/providers/kleinanzeigen.py:727-729 | a disabled provider reports `Deaktiviert` |
| Kleinanzeigen.Provider.Search | article_hunter_bot/providers/kleinanzeigen.py:522-669 | a disabled provider, a running cooldown, or a failed warm-up when consent failures block give no result; otherwise the page loop runs under the clamped budget; the queued events are always handed back and the queue emptied |
| Kleinanzeigen.HealthNotePause | article_hunter_bot/providers/kleinanzeigen.py:731-740 | the note reports a pause with the minutes left while the cooldown runs, a CAPTCHA pause taking precedence, and an ended CAPTCHA pause once it has run out |
| Matching.WordEnd | article_hunter_bot/providers/egun.py:459 | the end of the non-space run from a position: every character before it is non-space and the one at it is a space |
| Matching.Tokens | article_hunter_bot/providers/egun.py:459 | `[t for t in re.split(r"\s+", s) if t]` yields only non-empty tokens without whitespace |
| Matching.TokensEmpty | article_hunter_bot/providers/egun.py:459-461 | the keyword has no tokens exactly when it is all whitespace, which is when egun matches nothing |
| Matching.TokensOfWord | article_hunter_bot/providers/egun.py:459 | a single word is its own only token |
| Matching.WordEndAll | article_hunter_bot/providers/egun.py:459 | in a text without whitespace the first run reaches the end |
| Matching.LowerAllSpace | article_hunter_bot/providers/egun.py:457-458 | lower-casing keeps an all-whitespace keyword all whitespace |
| Matching.NoColonNoClock | article_hunter_bot/providers/egun.py:467 | without a colon the title holds no `HH:MM uhr` time |
| Matching.ClockUhrSpaced | article_hunter_bot/providers/militaria321.py:296 | "12:00 uhr start" holds the clock pattern under both `\s+` and `\s*` |
| Matching.ClockUhrUnspaced | article_hunter_bot/providers/egun.py:467 | "am 7:05uhr" holds the clock pattern under `\s*` |
| Egun.NumberChars | article_hunter_bot/providers/egun.py:274 | `re.sub(r"[^\d.,]", "", s)` keeps only digits and separators and never lengthens the text |
| Egun.NumberCharsAppend | article_hunter_bot/providers/egun.py:274 | the filter works character by character, so it distributes over concatenation |
| Egun.NumberCharsNone | article_hunter_bot/providers/egun.py:274-276 | a text without digits or separators leaves nothing |
| Egun.NumberCharsOfNumber | article_hunter_bot/providers/egun.py:274 | a text of digits and separators passes unchanged |
| Egun.ParsePrice | article_hunter_bot/providers/egun.py:266-291 | the currency is always EUR, USD or GBP, and a text with no digit or separator gives no value |
| Egun.StripSolid | article_hunter_bot/providers/egun.py:267 | a text that starts and ends with non-space characters strips to itself |
| Egun.EuroAmountCurrency | article_hunter_bot/providers/egun.py:268-272 | a German amount followed by the euro sign reads as EUR |
| Egun.ParsePriceRoundTrip | article_hunter_bot/providers/egun.py:266-291 | an amount printed the German way followed by " €" parses back to the same value in EUR |
| Egun.ParsePriceOf | article_hunter_bot/providers/egun.py:267-291 | for a stripped text with a number, the result is the currency guess paired with the rule's reading of the number characters |
| Egun.DollarNumberChars | article_hunter_bot/providers/egun.py:274 | a dollar sign in front adds no number character |
| Egun.DollarText | article_hunter_bot/providers/egun.py:267-269 | a dollar amount strips to itself and reads as USD |
| Egun.ParsePriceDollar | article_hunter_bot/providers/egun.py:266-291 | a dollar sign in front of a German amount gives USD and the same value |
| Egun.MatchesKeyword | article_hunter_bot/providers/egun.py:456-469 | the token loop accepts exactly when there are tokens and each one stands alone in the title and is not the "uhr" of a clock time |
| Egun.BlankKeywordNeverMatches | article_hunter_bot/providers/egun.py:459-461 | a blank keyword matches no title |
| Egun.KeywordMatches | article_hunter_bot/providers/egun.py:456-469 | a match needs at least one token, and a keyword with the token `uhr` never matches a title with a clock time |
| Egun.ClockTimeBlocksUhr | article_hunter_bot/providers/egun.py:467-468 | the keyword "uhr" never matches a title holding a clock time followed by "uhr" |
| Egun.DolchExamples | article_hunter_bot/providers/egun.py:464-466 | "dolch" stands alone in "historischer dolch" but not in "dolche" |
| Egun.HasNextPage | article_hunter_bot/providers/egun.py:317-323 | the link loop answers exactly whether some href holds `page=<next>` or the `start=` offset of 50 items per page |
| Egun.PagerLinkFound | article_hunter_bot/providers/egun.py:318-322 | a link carrying the next page number is recognised wherever it sits among the links |
| Egun.MaxPages | article_hunter_bot/providers/egun.py:70-71 | the budget is at most 2000; without an override it is 2000 for a full crawl, 3 for a sample and 1 otherwise; an override up to 2000 is used as given |
| Egun.ScanVisits | article_hunter_bot/providers/egun.py:78-124 | the loop requests an unbroken run of pages from the first: every earlier page had listings and a next page, the last is the budget's or ends the loop, and exactly the requested pages with listings are counted |
| Egun.ScanUnique | article_hunter_bot/providers/egun.py:87-102 | the items stay unique by platform id across pages, every kept id recorded |
| Egun.TakePageStep | article_hunter_bot/providers/egun.py:83-102 | the filter loop over a page keeps new ids and updates the counters as one page step says |
| Egun.Search | article_hunter_bot/providers/egun.py:53-133 | the page loop over the budget computes the loop specification, and no result when a page request raised |
| Egun.SearchShape | article_hunter_bot/providers/egun.py:53-133 | every run's items are unique by platform id and a poll counts at most one page |
| Egun.Workers | article_hunter_bot/providers/egun.py:337 | the semaphore always has at least one worker, and no fewer than asked |
| Egun.Enrich | article_hunter_bot/providers/egun.py:328-369 | enrichment keeps the number of listings |
| Egun.EnrichOnlyTargets | article_hunter_bot/providers/egun.py:329-357 | only egun.de listings without a start time change, and only in their start time, which becomes what their detail page yields |
| Egun.PostedBeforeEnd | article_hunter_bot/providers/egun.py:399-414 | a computed start lies before the parsed end by exactly the whole days of the running time's first number |
| Egun.ThirtyDays | article_hunter_bot/providers/egun.py:405-414 | a running time of "30 Tage" puts the start thirty days before the end |
| Militaria.StartAt | article_hunter_bot/providers/militaria321.py:68 | page `k` starts right after `k - 1` full pages of 25 |
| Militaria.StartAtStep | article_hunter_bot/providers/militaria321.py:64-68 | the first page starts at 1 and consecutive pages lie exactly 25 apart |
| Militaria.Matched | article_hunter_bot/providers/militaria321.py:116-119 | the title filter keeps no more listings than the page has |
| Militaria.MatchedMembers | article_hunter_bot/providers/militaria321.py:116-119 | the filter keeps exactly the listings whose titles match the keyword |
| Militaria.MatchedAppend | article_hunter_bot/providers/militaria321.py:116-121 | filtering two pages in a row is filtering each on its own, in order |
| Militaria.ClocklessUhrMatches | article_hunter_bot/providers/militaria321.py:289-300 | "uhr" after a space in a title without a colon matches the keyword "uhr" |
| Militaria.ClockAtSeam | article_hunter_bot/providers/militaria321.py:296 | a clock time "H:MM" or "HH:MM", a space and "uhr" after a non-word character hold the clock pattern |
| Militaria.ClockTimeUhrRejected | article_hunter_bot/providers/militaria321.py:293-298 | "Uhr" right after a clock time and a space never matches the keyword "uhr" |
| Militaria.ClockExample | article_hunter_bot/providers/militaria321.py:281-298 | "Endet um 07:39 Uhr" does not match "uhr" |
| Militaria.TowerExample | article_hunter_bot/providers/militaria321.py:289-300 | "Turm mit Uhr" matches "uhr" |
| Militaria.GroupsEnd | article_hunter_bot/providers/militaria321.py:236 | the `(?:\.[0-9]{3})*` groups end where no further group starts, covering only digits and dots |
| Militaria.SpaceEnd | article_hunter_bot/providers/militaria321.py:236 | the `\s*` run ends at a non-space character or the end |
| Militaria.PriceAt | article_hunter_bot/providers/militaria321.py:236 | a match at a position is well formed and lies inside the text |
| Militaria.FirstPriceFrom | article_hunter_bot/providers/militaria321.py:236-239 | the first of `re.findall`'s matches is well formed |
| Militaria.ContainerPriceAsWritten | article_hunter_bot/providers/militaria321.py:229-249 | a price comes with EUR, and no price with no currency |
| Militaria.ContainerPrice | article_hunter_bot/providers/militaria321.py:229-249 | a price comes with EUR, and no price with no currency |
| Militaria.UngroupedPriceMisread | article_hunter_bot/providers/militaria321.py:236-244 | as written, "1234,56 €" reads as 234.56 € |
| Militaria.UngroupedPriceRead | article_hunter_bot/providers/militaria321.py:235 | the intended parser reads "1234,56 €" as 1234.56 € |
| Militaria.LeadLen | article_hunter_bot/providers/militaria321.py:236 | a grouped integer opens with one to three digits |
| Militaria.GroupedMatch | article_hunter_bot/providers/militaria321.py:236-239 | a grouped integer, a comma, two cent digits and " €" match from the front, under either parser |
| Militaria.GroupedMatchValue | article_hunter_bot/providers/militaria321.py:242-243 | the value of a grouped match is that of its digits without the dots |
| Militaria.GroupedPriceRoundTrip | article_hunter_bot/providers/militaria321.py:229-244 | a German price with thousands dots followed by " €" reads back to its value, as written and as intended |
| Militaria.PlainMatch | article_hunter_bot/providers/militaria321.py:236 | ungrouped digits, a comma, two cent digits and " €" match from the front under the intended parser |
| Militaria.PlainPriceRoundTrip | article_hunter_bot/providers/militaria321.py:235 | a price without thousands dots reads back to its value under the intended parser |
| Militaria.CountFrom | article_hunter_bot/providers/militaria321.py:268 | the search finds a count where `([0-9]+)\s+(?:Treffer\|Ergebnis)` matches, and nothing only when it matches nowhere |
| Militaria.TotalCount | article_hunter_bot/providers/militaria321.py:261-273 | the count shown on the page, else the number of items on the first page |
| Militaria.CountExample | article_hunter_bot/providers/militaria321.py:267-270 | "57 Treffer" shows a count of 57 |
| Militaria.ScanUnfold | article_hunter_bot/providers/militaria321.py:66-157 | a failed request ends the loop; an empty page is counted and ends it; a page with listings takes its step and then stops or goes on to the next page |
| Militaria.ScanKeepsMatches | article_hunter_bot/providers/militaria321.py:115-121 | the loop only appends listings that match the keyword and come from the pages it requests |
| Militaria.ScanCountsPages | article_hunter_bot/providers/militaria321.py:98-149 | every page that comes back is counted, the final empty one included; at most one past the end of the list, and a poll counts one page |
| Militaria.EmptyResultCounted | article_hunter_bot/providers/militaria321.py:98-113 | with no results the single empty page is still counted |
| Militaria.FailedRequestScansNothing | article_hunter_bot/providers/militaria321.py:155-157 | a failed first request scans nothing |
| Militaria.OutcomeOf | article_hunter_bot/providers/militaria321.py:162-167 | `has_more` is always false, and `total_count or len(all_items)` falls back to the item count exactly when no non-zero count was read |
| Militaria.FilterPage | article_hunter_bot/providers/militaria321.py:116-119 | the filter loop keeps exactly the page's matching listings, in order |
| Militaria.Search | article_hunter_bot/providers/militaria321.py:44-167 | the page loop computes the loop specification from page 1 |
| Militaria.Enrich | article_hunter_bot/providers/militaria321.py:331-353 | enrichment keeps the number of listings |
| Militaria.EnrichOnlyMissing | article_hunter_bot/providers/militaria321.py:336-347 | only listings without a start time change, only in the start time, which becomes what the detail page yields |
| MarktDe.IdFrom | article_hunter_bot/providers/marktde.py:354-358 | the search finds the leftmost `/a/<8 hex>/`, and nothing only when it occurs nowhere |
| MarktDe.ListingId | article_hunter_bot/providers/marktde.py:354-358 | the id is eight lower-case hex digits, and there is none exactly when the pattern occurs nowhere |
| MarktDe.ListingIdOfPath | article_hunter_bot/providers/marktde.py:354-357 | a link whose path starts with `/a/<8 hex>/` yields those digits in lower case, whatever follows |
| MarktDe.NoIdWithoutMarker | article_hunter_bot/providers/marktde.py:354-358 | a link without "/a/" has no id |
| MarktDe.SearchUrl | article_hunter_bot/providers/marktde.py:69-76 | the first page is `/suche/<keyword>/`, and a later page adds `?page=N` to it |
| MarktDe.SearchUrlsDiffer | article_hunter_bot/providers/marktde.py:69-76 | different pages get different URLs |
| MarktDe.AttemptsSpec | article_hunter_bot/providers/marktde.py:125-143 | the response is that of the first attempt that got one, all earlier ones having raised, and no attempt past `max_retries` is made; without a response every attempt raised and the last message is kept |
| MarktDe.FetchPage | article_hunter_bot/providers/marktde.py:122-143 | the retry loop computes the attempts specification from attempt 1 |
| MarktDe.MaxPages | article_hunter_bot/providers/marktde.py:105 | a non-zero override wins, else a non-zero `poll_pages`, else no budget |
| MarktDe.FirstPage | article_hunter_bot/providers/marktde.py:112 | the first page is `page_start` when positive, and 1 otherwise |
| MarktDe.IdsOf | article_hunter_bot/providers/marktde.py:193 | the page's ids, one per listing, in order |
| MarktDe.PageStep | article_hunter_bot/providers/marktde.py:144-209 | no response, or a status of 400 or more, stops with `http_error`, a non-empty message (the last error's text, or `HTTP <status>`) and the crawl otherwise unchanged; the consent wall stops with `consent_blocked`; an empty page or a repeat of the previous page's ids stops with `has_more` false and nothing else changed; any other page has its listings taken, and only a multi-page crawl goes on |
| MarktDe.TakenWithinSite | article_hunter_bot/providers/marktde.py:189-191 | a page whose listings are taken lies within the site's result pages |
| MarktDe.ScanUnfold | article_hunter_bot/providers/marktde.py:115-212 | at the budget the loop stops with `has_more` set; below it the page's step runs and the loop goes on only after a `Next` step |
| MarktDe.ScanStopRules | article_hunter_bot/providers/marktde.py:144-195 | below the page budget the crawl ends at a page with no response or status of 400 or more with `http_error` and the crawl so far, at the consent wall with `consent_blocked`, and at an empty or repeated page with `has_more` false and the crawl so far |
| MarktDe.ScanUnique | article_hunter_bot/providers/marktde.py:197-201 | the items stay unique by platform id across pages, every kept id recorded |
| MarktDe.ScanPages | article_hunter_bot/providers/marktde.py:116-209 | the counted pages are consecutive from the first requested and the last is `last_page_index`; the budget is never exceeded; a single-page search counts at most one |
| MarktDe.BudgetSetsHasMore | article_hunter_bot/providers/marktde.py:116-118 | reaching the budget ends the loop with `has_more` set |
| MarktDe.TakePageStep | article_hunter_bot/providers/marktde.py:197-206 | the filter loop over a page keeps its unseen listings and updates the counters as one page step says |
| MarktDe.HandlePage | article_hunter_bot/providers/marktde.py:144-209 | the checks after the request stop or go on exactly as the page step says |
| MarktDe.Search | article_hunter_bot/providers/marktde.py:78-238 | the page loop computes the loop specification from the first page under the budget |
| MarktDe.UnitSeconds | article_hunter_bot/providers/marktde.py:413-422 | a known unit is seconds, minutes, hours, days or weeks |
| MarktDe.RelativeStart | article_hunter_bot/providers/marktde.py:408-425 | the start lies exactly `amount` units before the fetch time, and there is none exactly when the unit is unknown |
| MarktDe.UnitWords | article_hunter_bot/providers/marktde.py:413-422 | "minuten", "sekunden", "stunden", "tagen" and "wochen" are read by their prefixes, and "monaten" is not a unit |
| ListingKey.SearchFrom | backend/utils/listing_key.py:75 | `re.search` finds the leftmost match position of a pattern, and nothing only when it matches nowhere |
| ListingKey.Captured | backend/utils/listing_key.py:77 | `match.group(1)` is a non-empty run of digits |
| ListingKey.FirstCapture | backend/utils/listing_key.py:74-82 | the loop over the patterns yields digits or `""` |
| ListingKey.FirstCaptureSpec | backend/utils/listing_key.py:74-82 | the result is `""` exactly when no pattern matches, and otherwise the capture of the first matching pattern at its leftmost match |
| ListingKey.PatternsFor | backend/utils/listing_key.py:51-72 | militaria321 platforms get `/auktion/`, `?id=` and the 7-digit fallback; egun platforms `?id=` and the fallback; the rest the generic list |
| ListingKey.ExtractPlatformId | backend/utils/listing_key.py:36-82 | the id is a non-empty run of digits, or `""` when no pattern matches |
| ListingKey.AuktionFirst | backend/utils/listing_key.py:51-79 | on a militaria321 platform an `/auktion/` id wins over every other pattern |
| ListingKey.QueryIdFirstOnEgun | backend/utils/listing_key.py:58-79 | on an egun platform a `?id=`/`&id=` parameter wins over the long-number fallback |
| ListingKey.QueryIdCapture | backend/utils/listing_key.py:55-61 | the first `?id=` or `&id=` in a URL, followed by digits, yields exactly those digits |
| ListingKey.SearchBefore | backend/utils/listing_key.py:75 | a search from before the first match position finds it there |
| ListingKey.BuildListingKey | backend/utils/listing_key.py:13-33 | the key is `platform:id`, and the `ValueError` is raised exactly when no id is found |
| ListingKey.ParseListingKey | backend/utils/listing_key.py:85-98 | without a colon the result is `("", "")`; with one the key is the two parts around its first colon |
| ListingKey.KeyRoundTrip | backend/utils/listing_key.py:13-98 | for a platform name without a colon, parsing a built key gives back the platform and the extracted id |
| ListingKey.ColonPlatformSplitsEarly | backend/utils/listing_key.py:95-97 | a key whose platform holds a colon is split inside the platform name |
| BackendEgun.CurrencyOf | backend/providers/egun.py:61-74 | the currency is EUR, USD or GBP; USD only without a euro mark, GBP only without a dollar mark, in pattern order |
| BackendEgun.RemoveCurrency | backend/providers/egun.py:77 | removing the currency marks never lengthens the text |
| BackendEgun.NumberStartsNoCode | backend/providers/egun.py:77 | no currency code starts with a digit or separator |
| BackendEgun.RemoveCurrencyNumberHead | backend/providers/egun.py:77 | a leading digit or separator survives the removal |
| BackendEgun.RemoveCurrencyKeepsNumber | backend/providers/egun.py:77 | digits and separators in front pass the removal unchanged |
| BackendEgun.NumberRunEnd | backend/providers/egun.py:80 | the `[\d.,]+` run ends at the first character that is neither digit nor separator |
| BackendEgun.NumberRunEndAt | backend/providers/egun.py:80 | a run that stops at a position ends there |
| BackendEgun.FirstNumberCharFrom | backend/providers/egun.py:80 | the first digit or separator at or after a position, and none only when there is none |
| BackendEgun.FirstNumberRun | backend/providers/egun.py:80-82 | `re.search(r"[\d.,]+")` yields a non-empty run of digits and separators, and nothing exactly when the text has none |
| BackendEgun.FirstNumberRunOf | backend/providers/egun.py:80-82 | a number followed by a non-number character is its own first run |
| BackendEgun.ParsePrice | backend/providers/egun.py:53-112 | a blank input is `(None, "EUR")`; otherwise the currency is the guess on the stripped text, always EUR, USD or GBP |
| BackendEgun.BlankPrice | backend/providers/egun.py:55-56 | a blank or empty input has no value and the default currency |
| BackendEgun.CurrencySymbol | backend/providers/egun.py:129-130 | EUR is printed as "€", any other currency by its code |
| BackendEgun.FormatPriceDe | backend/providers/egun.py:114-130 | the whole units grouped by three with dots (the same digits once the dots go), a decimal comma, exactly two digits, a space and the symbol |
| BackendEgun.FormatOptionalPriceDe | backend/providers/egun.py:114-117 | the text is empty exactly when there is no amount; otherwise it is the formatted price |
| BackendEgun.EuroSignCurrency | backend/providers/egun.py:61-64 | a text ending in the euro sign reads as EUR |
| BackendEgun.RemoveEuroSign | backend/providers/egun.py:77 | removing the marks from an amount and its euro sign leaves the amount and the space |
| BackendEgun.StripSolid | backend/providers/egun.py:58 | text that starts and ends with non-space characters strips to itself |
| BackendEgun.StripTrailingSpace | backend/providers/egun.py:77-80 | a single trailing space is stripped away |
| BackendEgun.FormatParseRoundTrip | backend/providers/egun.py:53-130 | formatting an amount in euros and parsing it back gives the amount in EUR |
| BackendEgun.MatchesKeyword | backend/providers/egun.py:35-51 | the token loop accepts exactly when there are tokens and each stands alone in the normalised title |
| BackendEgun.BlankKeywordNeverMatches | backend/providers/egun.py:40-42 | a keyword of whitespace only never matches |
| BackendEgun.WordMatchesItself | backend/providers/egun.py:35-51 | a lower-case word matches itself as a title: this matcher has no "uhr" exception |
| BackendEgun.Offsets | backend/providers/egun.py:259-267 | no more offsets than links |
| BackendEgun.OffsetsMembers | backend/providers/egun.py:259-267 | the collected offsets are exactly those of the links that carry `start=` |
| BackendEgun.NextOffset | backend/providers/egun.py:269-270 | the next offset is the smallest one strictly above the current start, and none when no offset is above it |
| BackendEgun.CurrentStart | backend/providers/egun.py:229-232 | a page starts at offset 50 per earlier page, the first at 0 |
| BackendEgun.AdjacentLinkMeansMore | backend/providers/egun.py:269-272 | a link one page ahead and none in between means there is a next page |
| BackendEgun.NoAdjacentLinkNoMore | backend/providers/egun.py:271-272 | when no link lies exactly one page ahead there is no next page |
| BackendEgun.CollectStarts | backend/providers/egun.py:259-267 | the anchor loop collects exactly the offsets, in order |
| BackendEgun.FetchResult | backend/providers/egun.py:202-284 | a failed request gives an empty page; an empty-result notice on page 1 without the query echoed gives `([], 0, False)`; otherwise the parsed listings and total, with more pages by the adjacent-offset rule |
| BackendEgun.FetchPage | backend/providers/egun.py:202-284 | `_fetch_page` returns what the page rule says |
| BackendEgun.MaxPages | backend/providers/egun.py:138 | 10000 pages for a full crawl, else 3 for a sample and 1 for a poll |
| BackendEgun.ScanShape | backend/providers/egun.py:145-182 | the loop only appends, counts at most one page per page number within the budget, and sets `has_more` only when some requested page said so |
| BackendEgun.OutcomeUnique | backend/providers/egun.py:184-196 | the result is unique by id, holds every scanned id, and each item is the first occurrence of its id in scan order |
| BackendEgun.PageBudget | backend/providers/egun.py:138-146 | a poll counts at most one page, a sample at most three, anything at most 10000 |
| BackendEgun.ScanStep | backend/providers/egun.py:149-157 | the loop body extends the listings, counts the page and keeps the first non-zero total |
| BackendEgun.AllOlderCheck | backend/providers/egun.py:160-172 | the early-stop check holds exactly when every listing of the page has a start time and all lie before `since_ts` |
| BackendEgun.Search | backend/providers/egun.py:132-196 | the page loop and then the de-duplication loop compute the search specification |
| Pagination.Lookup | backend/providers/pagination_utils.py:16 | a key is absent from the parsed query exactly when no entry carries it |
| Pagination.Keys | backend/providers/pagination_utils.py:19 | the dictionary's keys, in order |
| Pagination.SetParamLookup | backend/providers/pagination_utils.py:17 | after `q[key] = [value]` the key maps to exactly `[value]` |
| Pagination.ReplaceQueryParam | backend/providers/pagination_utils.py:13-20 | after the replacement the key maps to exactly `[value]` |
| Pagination.SetParamOther | backend/providers/pagination_utils.py:17 | every other key keeps its values |
| Pagination.SetParamKeys | backend/providers/pagination_utils.py:17-19 | the keys keep their order, a new key going last |
| Pagination.SetParamDistinct | backend/providers/pagination_utils.py:16-17 | the dictionary's keys stay distinct |
| Pagination.PairsOf | backend/providers/pagination_utils.py:19 | one encoded pair per value of a key, in order |
| Pagination.ValuePairs | backend/providers/pagination_utils.py:19 | one pair per value, each with the key |
| Pagination.AbsentKeyNoPairs | backend/providers/pagination_utils.py:19 | a key no entry has appears in no encoded pair |
| Pagination.PairsCarryValue | backend/providers/pagination_utils.py:13-20 | after the replacement the encoded query carries the key with the new value and no other |
| Pagination.ParamFrom | backend/providers/pagination_utils.py:34 | the search finds the leftmost `[?&]name=\d+`, and nothing only when it occurs nowhere |
| Pagination.ParamNumber | backend/providers/pagination_utils.py:34-36 | a link has a number for a parameter exactly when the pattern occurs in it |
| Pagination.HrefNumber | backend/providers/pagination_utils.py:33-39 | a link's number is that of `page` if present, else `seite`, else `start`; later names are not tried |
| Pagination.AboveMembers | backend/providers/pagination_utils.py:36-38 | a number is collected exactly when some link carries it and it is above the current page |
| Pagination.Min | backend/providers/pagination_utils.py:41 | `min(nums) if nums else None`: none exactly for an empty list, else the least element |
| Pagination.Numbers | backend/providers/pagination_utils.py:29-31 | each link's number, in order |
| Pagination.FirstNumberAboveSpec | backend/providers/pagination_utils.py:23-41 | the result is the least link number above the current page, and none only when no link has one above it |
| Pagination.FirstNumericGreaterThan | backend/providers/pagination_utils.py:23-41 | the link loop computes the least number above the current page |
| Pagination.NextPageEgun | backend/providers/pagination_utils.py:129-135 | a link found by the next-page selectors wins |
| Pagination.NextPageEgunSpec | backend/providers/pagination_utils.py:143-172 | without a selector link there is no next page exactly when no link's `start` lies above the current one; otherwise `start` becomes the least such offset |
| Pagination.CurrentPage | backend/providers/pagination_utils.py:79-84 | the current page is `seite` if present, else `page`, else 1 |
| Pagination.NextPageMilitaria | backend/providers/pagination_utils.py:66-72 | a link found by the next-page selectors wins |
| Pagination.NextPageMilitariaSpec | backend/providers/pagination_utils.py:79-107 | without a selector link a next page is built exactly when some link number lies above the current page, and it is written into `seite` when the URL uses it, else `page` |
| KeywordService.NormalizeKeyword | backend/services/keyword_service.py:17-20 | the normalised keyword is never longer than the input |
| KeywordService.NormalizeShape | backend/services/keyword_service.py:17-20 | a normalised keyword holds no capital letter and neither starts nor ends with white space |
| KeywordService.NormalizeIdempotent | backend/services/keyword_service.py:17-20 | normalising twice gives the same as normalising once |
| KeywordService.NormalizeIgnoresCase | backend/services/keyword_service.py:17-20 | two keywords that differ only in letter case normalise to the same text |
| KeywordService.ListingKeyParts | backend/services/keyword_service.py:99-101 | for a platform name without a colon, the key `platform:id` splits back into platform and id |
| KeywordService.ListingKeyInjective | backend/services/keyword_service.py:99-101 | on colon-free platform names, two listings share a key only when both platform and id agree |
| KeywordService.Apply | backend/database.py:119-126 | a `$set` update keeps the document id, always stamps `updated_at` with the current time, and writes the seen list only when the update names it |
| KeywordService.FindKeyword | backend/database.py:92-97 | a found keyword is in the collection and carries the id; none is found only when no document has the id |
| KeywordService.UpdateFirst | backend/database.py:119-126 | an update never adds or removes documents |
| KeywordService.FindAfterUpdate | backend/database.py:119-126 | after an update the id finds its old document with the update applied, or still nothing; every other id finds what it found before |
| KeywordService.StatusUpdate | backend/services/keyword_service.py:52-68 | the status update is empty exactly when neither the active flag nor the mute flag is given |
| KeywordService.StatusApplied | backend/services/keyword_service.py:55-65 | a given flag is written and a missing one kept; unmuting clears the mute end, muting with an end stores it, muting without one keeps the old end |
| KeywordService.AddSeenSpec | backend/services/keyword_service.py:128-133 | adding a key makes it present, keeps the old list as a prefix, adds at most that one key, and keeps a duplicate-free list duplicate-free |
| KeywordService.AfterAddSpec | backend/services/keyword_service.py:122-133 | after the add on a present keyword its seen list holds the new key and every key it held before, with no duplicate introduced |
| KeywordService.KeysOf | backend/services/keyword_service.py:114-117 | one key per listing, in listing order, each the listing's `platform:id` |
| KeywordService.SeededSeen | backend/services/keyword_service.py:112-138 | after a seed a listing counts as seen exactly when its key is the key of one of the seeded listings |
| KeywordService.ResetForgets | backend/services/keyword_service.py:103-138 | after a reset no listing is seen, the subscription starts now, the first run is marked done, and the active and mute flags are untouched |
| KeywordService.Service.constructor | backend/services/keyword_service.py:14-15 | the service starts over the given keyword documents |
| KeywordService.Service.UpdateKeyword | backend/database.py:119-126 | reports success exactly when a document carries the id, and the collection becomes the one with that document updated |
| KeywordService.Service.UpdateKeywordStatus | backend/services/keyword_service.py:52-70 | with no flag it returns false and writes nothing; otherwise it writes the status update and succeeds exactly when the keyword exists |
| KeywordService.Service.UpdateLastChecked | backend/services/keyword_service.py:76-81 | writes the given check time on the keyword, or `now` when none is given, and succeeds exactly when the keyword exists |
| KeywordService.Service.AddToSeenSet | backend/services/keyword_service.py:122-133 | a missing keyword gives false and no write; a present one gives true and its seen list gains the key exactly once |
| KeywordService.Service.SeedSeenSet | backend/services/keyword_service.py:112-120 | the keyword's seen list is replaced by the listings' keys in order; success exactly when the keyword exists |
| KeywordService.Service.ResetKeywordSubscription | backend/services/keyword_service.py:103-110 | writes a new start time, an empty seen list and a completed first run; success exactly when the keyword exists |
| BackendSearch.CollectSpec | backend/services/search_service.py:38-55 | a raw listing comes from a registered platform whose search succeeded; there is no error exactly when every platform is registered and its search succeeded |
| BackendSearch.CollectRaw | backend/services/search_service.py:38-57 | the platform loop gives the listings and the errors of the platforms in order, as the collection rule defines them |
| BackendSearch.MatchedSpec | backend/services/search_service.py:60-65 | a listing is matched exactly when it is raw and its title matches the keyword |
| BackendSearch.MatchListings | backend/services/search_service.py:60-67 | the matching loop keeps exactly the matched listings, in order |
| BackendSearch.NotifiableIff | backend/services/search_service.py:85-90 | a listing is notifiable exactly when it has no first-seen time or was first seen strictly after `since_ts`; equality is not new |
| BackendSearch.Stored | backend/services/search_service.py:92-107 | the stored copy keeps platform, id, title and url, always has both timestamps, and keeps a first-seen time that was present |
| BackendSearch.WritesSpec | backend/services/search_service.py:76-119 | a key is sent to the seen set exactly when some matched listing has it and it was not in the keyword's seen list as read |
| BackendSearch.NotifiedSpec | backend/services/search_service.py:76-110 | a listing is stored and notified exactly when it is the stored copy of a matched listing that was unseen and notifiable |
| BackendSearch.RepeatNotifiedTwice | backend/services/search_service.py:76-113 | an unseen listing matched twice in one run is notified twice and written twice, since the seen list is not re-read |
| BackendSearch.SeenAfterWritesSpec | backend/services/search_service.py:113-119 | after the seen-set writes the keyword is still present, keeps every old key, gains every written one, and stays duplicate-free |
| BackendSearch.UnseenMatchedBecomeSeen | backend/services/search_service.py:76-119 | every matched listing that was unseen is seen once the run's writes are done, whether it was notified or not |
| BackendSearch.SeenMatchedUntouched | backend/services/search_service.py:79-81 | a matched listing already seen is never written, and is notified only through another matched listing with the same stored copy |
| BackendSearch.GateListings | backend/services/search_service.py:76-121 | the gating loop returns exactly the notified listings and leaves the documents as the seen-set writes make them |
| BackendSearch.MatcherError | backend/services/search_service.py:61-133 | the first platform's matcher lookup fails exactly when the keyword has no platform or its first platform is not registered |
| BackendSearch.ReportOf | backend/services/search_service.py:27-135 | the report carries the keyword's id and text and the raw count; when the matcher lookup fails the matched and new counts stay 0 and an error is recorded |
| BackendSearch.SearchKeyword | backend/services/search_service.py:25-135 | `search_keyword` gives the report and document effect defined above, notifies exactly the gated listings (none when the matcher lookup fails), and sends only when there are some and the keyword is not muted |
| BackendSearch.BatchesSpec | backend/services/search_service.py:170-173 | the batches put together give the keywords back in order; each holds the batch size except a shorter, non-empty last one |
| BackendSearch.TotalsAsWrittenZero | backend/services/search_service.py:184 | reading the new count under `"new_listings"` makes the total of new listings 0 for any reports |
| BackendSearch.TotalsMissNewListing | backend/services/search_service.py:121-184 | a single report with one new notification already gives a total of 0 against a report value of 1 |
| BackendSearch.TotalsSpec | backend/services/search_service.py:177-185 | every report counts as processed, the new notifications are summed, and the errors are the reports' error lists put one after the other in keyword order |
| BackendSearch.TotalsAsWritten | backend/services/search_service.py:177-185 | the tally as written counts every report as processed; its new-listing total is the subject of `TotalsAsWrittenZero` |
| BackendSearch.Totals | backend/services/search_service.py:177-185 | the corrected tally counts every report and sums the reports' new notifications; its errors are stated by `TotalsSpec` |
| BackendSearch.ReportsOf | backend/services/search_service.py:173-177 | one report per keyword |
| BackendSearch.ReportsOfAt | backend/services/search_service.py:173-177 | each keyword's report is that of its own search |
| BackendSearch.SearchBatch | backend/services/search_service.py:172-185 | searching one batch extends the tally and the documents by exactly that batch's keywords' reports and effects |
| BackendSearch.SearchAllActive | backend/services/search_service.py:155-189 | the totals are the corrected totals of all keywords' reports, the documents those after every search in order, and the batches the slices of five |
| BackendScheduler.ShouldCheck | backend/scheduler.py:148-166 | a keyword never checked is due; an unexpired mute holds it back; otherwise it is due exactly when the frequency has elapsed; an expired mute is lifted exactly when the keyword has been checked before |
| BackendScheduler.DueStaysDue | backend/scheduler.py:148-166 | a due keyword stays due as time goes on |
| BackendScheduler.OpenMuteStillDue | backend/scheduler.py:154-166 | a mute without an end time does not hold a keyword back once its frequency has elapsed |
| BackendScheduler.DueSpec | backend/scheduler.py:107-111 | a keyword is selected exactly when it is active and due |
| BackendScheduler.SelectDue | backend/scheduler.py:104-162 | the filter loop gives the due keywords and the unmute writes in order, and the due keywords cut into batches of three |
| BackendScheduler.BatchesOf | backend/scheduler.py:117-119 | the slicing loop gives the batches of the batch rule |
| BackendScheduler.DueBatches | backend/scheduler.py:117-128 | the due keywords are searched in order, three at a time, with only the last batch shorter |
| BackendScheduler.RemainingSpec | backend/scheduler.py:178-190 | a record survives the deletion exactly when its time is not before the cut-off |
| BackendScheduler.CleanupWindows | backend/scheduler.py:173-190 | a notification is kept exactly when sent at most 30 days ago, a keyword hit exactly when seen at most 90 days ago |

## Left out

- Network I/O is not modelled: HTTP fetching, retries against live servers, and consent resolution in a browser. Fetch outcomes are inputs. This includes the kleinanzeigen request layer (`_request`, warm-up and the consent resolver), whose calls to the block and CAPTCHA handlers are separate Provider methods rather than steps inside `Search`.
- HTML parsing is not modelled (`_parse_search_page`, `_locate_organic_marker`, `_is_promoted`, `detect_consent`, card iteration, `soup.select`, the backend egun `_extract_price`/`_parse_single_listing`). Pages are given as parsed listings or as lists of hrefs.
- Concurrency is not modelled: `asyncio.gather`, semaphores, rate-limit locks with random jitter, APScheduler internals, and the delays between batches. The searches of a batch run one after another, and the fire-and-forget unmute write of the backend scheduler is returned as a list of ids.
- `fetch_posted_ts_batch` is not modelled beyond its choice of targets and the number of workers. The detail lookup is a given function.
- The Telegram send is an outbox entry of (chat id, text). The inline keyboard and the HTML parse mode are not modelled, and neither is `send_recaptcha_warning`, which only sends a fixed text.
- Floating point is not modelled: `fmt_price_de` for a present value, militaria321's `format_price_de`, markt.de `_parse_price`, and float delay settings. Prices are whole hundredths, and back-off lengths are whole minutes or hours.
- BackendEgun.FormatPriceDe: stated only for non-negative amounts with at most two decimals, because amounts are hundredths.
- Time zone handling and date-text parsing are not modelled: German date and time strings, and markt.de's "heute", "gestern" and absolute dates. Only the relative-unit mapping of markt.de and egun's start time from a running time are modelled, in integer seconds.
- Unicode is not modelled: NFKC, `casefold`, `_slugify`, Unicode `\w`/`\b`, and the Unicode white space of `\s`, `str.strip()` and `str.split()`. White space is the ASCII set of `Chars.IsSpace`, so a no-break space (`\xa0`, as in `249,00&nbsp;€`) or `\x85` is an ordinary character in the model. Case folding is ASCII lower-casing; egun's word class is modelled as written, ASCII letters, digits, `ä`, `ö`, `ü` and `ß`, but no other letter counts as a word character.
- Python's percent-encoding in `quote`, `urlencode` and `urlparse` is not modelled. URLs are built from their parts as plain text.
- The migration reseed of old seen keys needs the network and is not modelled. Its trigger is modelled.
- Database errors other than a duplicate key are not modelled. `modified_count > 0` is modelled as "a document carries the id", because every backend update also writes `updated_at`.
- Administrative read-outs with no decision in them (`get_counts_per_provider`, `get_sample_blocks`) and logging are not modelled.
- The generic next-page rule (backend/providers/pagination_utils.py:175-198) is not modelled because it is a selector-only fallback.
- Militaria.Search: the `while True` loop runs over the given finite list of result pages, and a request past the last page gets an empty page.
- MarktDe.Search: the site's pages end at `lastPage`, and past it the site answers with an empty page.
- BackendEgun.Search: a request past the pages the site has is a failed one.
- BackendEgun.Search: a failed page request is caught in `_fetch_page` and ends the loop with the pages gathered so far (`BackendEgun.FetchResult`). The outer handler of backend/providers/egun.py:198-200, which would give an empty result, is not modelled, because nothing in the search raises past `_fetch_page`.
- BackendScheduler.SelectDue: the frequency filter and the batches are modelled, but the searches each batch starts are not composed inside it. The backend's search of one keyword is `BackendSearch.SearchKeyword`.
- Scheduler.PollingScheduler.PollKeyword: the search it runs is stated through `RunSearch`, which promises what the poll needs and nothing more: the keyword's identity and seen list are unchanged, and the stored seen set only grows. The full account of a poll is `SearchPoll.SearchKeyword`.
- BackendSearch.SearchAllActive: returns the corrected tally of the Findings row below, with the new count summed from `new_notifications`. The source sums `result.get("new_listings", 0)`, which is always 0 (`BackendSearch.TotalsAsWrittenZero`), and its function returns nothing: the tally exists there only in the log line. The as-written tally is `BackendSearch.TotalsAsWritten`, which the method does not compute.
- Kleinanzeigen.Provider.HealthNote: the consent lines ("Consent blockiert", "Consent OK", "Consent nicht erforderlich", "Status unbekannt") follow the source in the body, but no contract states them. The contracts cover the disabled case and, in `HealthNotePause`, the cooldown and CAPTCHA lines.

## Findings

| source | as written | input that shows it | evidently intended | confidence | as-written member | corrected member |
|---|---|---|---|---|---|---|
| article_hunter_bot/providers/militaria321.py:236 | the price pattern `([0-9]{1,3}(?:\.[0-9]{3})*(?:,[0-9]{2})??)\s*€` has no left boundary, so an ungrouped amount is read from its last three integer digits | "1234,56 €" reads as 234.56 | the whole amount, 1234.56 | not executed | Militaria.UngroupedPriceMisread | Militaria.UngroupedPriceRead |
| article_hunter_bot/utils/text.py:58-62 | `text[:max_len - 3] + "..."` for `max_len < 3` keeps a negative-index slice and returns more than `max_len` characters | `safe_truncate("abcdef", 2)` gives "abcde..." | a result of at most `max_len` characters | not executed | Text.SafeTruncateOvershoots | Text.SafeTruncateBounded |
| backend/services/search_service.py:184 | the total of new listings is read as `result.get("new_listings", 0)`, but a report names that count `new_notifications` | one keyword whose report has `new_notifications == 1` gives a total of 0 | the sum of the reports' `new_notifications` | not executed | BackendSearch.TotalsMissNewListing | BackendSearch.TotalsSpec |
