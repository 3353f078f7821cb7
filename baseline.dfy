/**
 * `full_baseline_seed`: every registered provider is crawled once in full;
 * the keyword's baseline status ends as complete, partial or error according
 * to how many provider crawls succeeded, and the success telemetry is written
 * only when at least one did.  Crawl outcomes are inputs.
 */
module Baseline {
  import opened Wrappers
  import opened Models
  import opened SearchService
  import opened Database

  /** What one provider's `search(crawl_all=True)` did: its result, or the exception text. */
  datatype Outcome = Crawled(items: seq<Listing>, pagesScanned: Option<int>) | Raised(message: string)

  /** `result.pages_scanned or 0`. */
  function PagesOf(o: Outcome): int
    requires o.Crawled?
  {
    o.pagesScanned.GetOr(0)
  }

  /** The providers whose crawl succeeded, in registry order. */
  function Succeeded(registry: seq<string>, search: string -> Outcome): (r: seq<string>)
    ensures |r| <= |registry|
  {
    if |registry| == 0 then []
    else Succeeded(registry[..|registry| - 1], search)
         + (if search(registry[|registry| - 1]).Crawled? then [registry[|registry| - 1]] else [])
  }

  /** `provider_errors`: (platform, first 400 characters of the message) for each failed crawl. */
  function Failures(registry: seq<string>, search: string -> Outcome): seq<(string, string)>
  {
    if |registry| == 0 then []
    else Failures(registry[..|registry| - 1], search)
         + (var p := registry[|registry| - 1];
            if search(p).Raised? then [(p, Prefix(search(p).message, 400))] else [])
  }

  /** `all_items`: every successful crawl's items, in registry order. */
  function CollectedItems(registry: seq<string>, search: string -> Outcome): seq<Listing>
  {
    if |registry| == 0 then []
    else CollectedItems(registry[..|registry| - 1], search)
         + (var o := search(registry[|registry| - 1]); if o.Crawled? then o.items else [])
  }

  /** `last_item_meta`: the last item of the last successful crawl that had items and a positive page count. */
  function LastItemMeta(registry: seq<string>, search: string -> Outcome): Option<(int, Listing)>
  {
    if |registry| == 0 then None
    else
      var o := search(registry[|registry| - 1]);
      if o.Crawled? && |o.items| > 0 && o.pagesScanned.Some? && o.pagesScanned.value > 0
      then Some((o.pagesScanned.value, o.items[|o.items| - 1]))
      else LastItemMeta(registry[..|registry| - 1], search)
  }

  /** The first write: status running, errors and per-provider counters cleared. */
  function StartBaseline(d: Keyword): Keyword
  {
    d.(baselineStatus := "running", baselineErrors := [], baselineMilitariaPages := 0)
  }

  /** The final write: status, errors, the militaria321.com page count and, after any success, the success telemetry. */
  function FinishBaseline(status: string, errors: seq<(string, string)>, militariaPages: int,
                          anySuccess: bool, now: int): Keyword -> Keyword
  {
    (d: Keyword) =>
      var d' := d.(baselineStatus := status, baselineErrors := errors, baselineMilitariaPages := militariaPages);
      if anySuccess then d'.(lastSuccessTs := Some(now), consecutiveErrors := 0, lastErrorMessage := None)
      else d'
  }

  /** The militaria321.com entry of `baseline_pages_scanned`, 0 when it has none. */
  function MilitariaPages(registry: seq<string>, search: string -> Outcome): int
  {
    if MILITARIA in registry && search(MILITARIA).Crawled? then PagesOf(search(MILITARIA)) else 0
  }

  /** `provider_results`: pages scanned and items collected per successful provider. */
  function ProviderResults(registry: seq<string>, search: string -> Outcome): map<string, (int, nat)>
  {
    if |registry| == 0 then map[]
    else
      var m := ProviderResults(registry[..|registry| - 1], search);
      var o := search(registry[|registry| - 1]);
      if o.Crawled? then m[registry[|registry| - 1] := (PagesOf(o), |o.items|)] else m
  }

  /** Over distinct provider names the dictionary has one entry per successful crawl, holding its counts. */
  lemma {:induction false} ProviderResultsShape(registry: seq<string>, search: string -> Outcome)
    requires NoDuplicates(registry)
    ensures ProviderResults(registry, search).Keys == (set p | p in registry && search(p).Crawled?)
    ensures |ProviderResults(registry, search)| == |Succeeded(registry, search)|
    ensures forall p :: p in ProviderResults(registry, search) ==>
              search(p).Crawled? && ProviderResults(registry, search)[p] == (PagesOf(search(p)), |search(p).items|)
  {
    if |registry| > 0 {
      var q := registry[..|registry| - 1];
      var last := registry[|registry| - 1];
      assert registry == q + [last];
      assert NoDuplicates(q) by {
        forall i, j | 0 <= i < j < |q| ensures q[i] != q[j] {
          assert q[i] == registry[i] && q[j] == registry[j];
        }
      }
      assert last !in q by {
        forall k | 0 <= k < |q| ensures q[k] != last {
          assert q[k] == registry[k];
        }
      }
      ProviderResultsShape(q, search);
      assert forall p :: p in registry <==> p in q || p == last;
    }
  }

  /** The provider loop of `full_baseline_seed`. */
  method CrawlProviders(registry: seq<string>, search: string -> Outcome)
    returns (allItems: seq<Listing>, lastMeta: Option<(int, Listing)>, errors: seq<(string, string)>,
             pagesAndItems: map<string, (int, nat)>)
    ensures allItems == CollectedItems(registry, search)
    ensures lastMeta == LastItemMeta(registry, search)
    ensures errors == Failures(registry, search)
    ensures pagesAndItems == ProviderResults(registry, search)
  {
    allItems := [];
    lastMeta := None;
    pagesAndItems := map[];
    errors := [];
    var i := 0;
    while i < |registry|
      invariant 0 <= i <= |registry|
      invariant allItems == CollectedItems(registry[..i], search)
      invariant lastMeta == LastItemMeta(registry[..i], search)
      invariant errors == Failures(registry[..i], search)
      invariant pagesAndItems == ProviderResults(registry[..i], search)
    {
      var p := registry[i];
      assert registry[..i + 1][..i] == registry[..i];
      match search(p) {
        case Crawled(items, pages) =>
          pagesAndItems := pagesAndItems[p := (pages.GetOr(0), |items|)];
          allItems := allItems + items;
          if |items| > 0 && pages.Some? && pages.value > 0 {
            lastMeta := Some((pages.value, items[|items| - 1]));
          }
        case Raised(message) =>
          errors := errors + [(p, Prefix(message, 400))];
      }
      i := i + 1;
    }
    assert registry[..i] == registry;
  }

  /** `full_baseline_seed`: the running write, the provider loop, then the final write. */
  method FullBaselineSeed(db: Store, keywordId: string, registry: seq<string>,
                          search: string -> Outcome, now: int)
    returns (allItems: seq<Listing>, lastMeta: Option<(int, Listing)>, status: string)
    requires NoDuplicates(registry)
    modifies db
    ensures allItems == CollectedItems(registry, search)
    ensures lastMeta == LastItemMeta(registry, search)
    ensures status == FinalBaselineStatus(|Succeeded(registry, search)|, |registry|)
    ensures db.keywords
         == UpdateFirst(UpdateFirst(old(db.keywords), keywordId, StartBaseline), keywordId,
                        FinishBaseline(status, Failures(registry, search), MilitariaPages(registry, search),
                                       |Succeeded(registry, search)| > 0, now))
    ensures db.users == old(db.users) && db.listings == old(db.listings)
    ensures db.notifications == old(db.notifications)
  {
    db.SetKeywordFields(keywordId, StartBaseline);
    var errors, pagesAndItems;
    allItems, lastMeta, errors, pagesAndItems := CrawlProviders(registry, search);
    ProviderResultsShape(registry, search);
    var successful := |pagesAndItems|;
    status := FinalBaselineStatus(successful, |registry|);
    var militariaPages := if MILITARIA in pagesAndItems then pagesAndItems[MILITARIA].0 else 0;
    assert militariaPages == MilitariaPages(registry, search);
    db.SetKeywordFields(keywordId, FinishBaseline(status, errors, militariaPages, successful > 0, now));
  }

  lemma {:induction false} SucceededCount(registry: seq<string>, search: string -> Outcome)
    ensures |Succeeded(registry, search)| == |registry| <==> forall p :: p in registry ==> search(p).Crawled?
    ensures |Succeeded(registry, search)| > 0 <==> exists p :: p in registry && search(p).Crawled?
  {
    if |registry| > 0 {
      var q := registry[..|registry| - 1];
      var last := registry[|registry| - 1];
      SucceededCount(q, search);
      assert registry == q + [last];
      assert forall p :: p in registry <==> p in q || p == last;
    }
  }

  /**
   * The final status is complete exactly when every provider crawl
   * succeeded, partial exactly when some but not all did, and error exactly
   * when there were providers and none succeeded.
   */
  lemma BaselineStatusRule(registry: seq<string>, search: string -> Outcome)
    ensures var s := FinalBaselineStatus(|Succeeded(registry, search)|, |registry|);
            && (s == "complete" <==> forall p :: p in registry ==> search(p).Crawled?)
            && (s == "partial" <==> ((exists p :: p in registry && search(p).Crawled?)
                                   && (exists p :: p in registry && search(p).Raised?)))
            && (s == "error" <==> |registry| > 0 && forall p :: p in registry ==> search(p).Raised?)
  {
    SucceededCount(registry, search);
    if |registry| > 0 {
      assert registry[0] in registry;
    }
  }

  /** The success telemetry is written exactly when some provider crawl succeeded; otherwise those fields keep their values. */
  lemma BaselineTelemetryRule(d: Keyword, status: string, errors: seq<(string, string)>, pages: int,
                              registry: seq<string>, search: string -> Outcome, now: int)
    ensures var r := FinishBaseline(status, errors, pages, |Succeeded(registry, search)| > 0, now)(d);
            && r.baselineStatus == status && r.baselineErrors == errors
            && ((exists p :: p in registry && search(p).Crawled?) ==>
                  r.lastSuccessTs == Some(now) && r.consecutiveErrors == 0 && r.lastErrorMessage.None?)
            && ((forall p :: p in registry ==> search(p).Raised?) ==>
                  r.lastSuccessTs == d.lastSuccessTs && r.consecutiveErrors == d.consecutiveErrors
                  && r.lastErrorMessage == d.lastErrorMessage)
  {
    SucceededCount(registry, search);
  }
}
