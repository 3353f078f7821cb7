/**
 * Records shared by the bot's services: a scraped listing and a keyword
 * subscription with the telemetry fields the search service reads and writes.
 * Timestamps are whole UTC seconds; prices are whole hundredths of the unit.
 */
module Models {
  import opened Wrappers

  datatype Listing = Listing(
    platform: string,
    platformId: string,
    title: string,
    url: string,
    priceValue: Option<nat>,
    priceCurrency: Option<string>,
    priceText: Option<string>,
    postedTs: Option<int>)

  datatype Keyword = Keyword(
    id: string,
    userId: string,
    originalKeyword: string,
    normalizedKeyword: string,
    sinceTs: Option<int>,
    seenListingKeys: seq<string>,
    isActive: bool,
    platforms: seq<string>,
    baselineStatus: string,
    /** `baseline_errors` as (platform, message) pairs in insertion order. */
    baselineErrors: seq<(string, string)>,
    consecutiveErrors: nat,
    lastChecked: Option<int>,
    lastSuccessTs: Option<int>,
    lastErrorTs: Option<int>,
    lastErrorMessage: Option<string>,
    totalPagesEstimate: Option<int>,
    pollCursorPage: int,
    /** `baseline_pages_scanned["militaria321.com"]`, 0 when absent. */
    baselineMilitariaPages: int,
    updatedAt: Option<int>)

  const MILITARIA: string := "militaria321.com"
  const EGUN: string := "egun.de"
}
