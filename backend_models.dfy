/**
 * Records of the older backend: a scraped listing and a keyword
 * subscription as its keyword service stores them.  Timestamps are whole
 * UTC seconds; prices are whole hundredths of the unit.
 */
module BackendModels {
  import opened Wrappers

  datatype Listing = Listing(
    platform: string,
    platformId: string,
    title: string,
    url: string,
    priceValue: Option<nat>,
    priceCurrency: Option<string>,
    firstSeenTs: Option<int>,
    lastSeenTs: Option<int>)

  datatype Keyword = Keyword(
    id: string,
    userId: string,
    /** The keyword as the user entered it. */
    keyword: string,
    normalizedKeyword: Option<string>,
    isActive: bool,
    isMuted: bool,
    mutedUntil: Option<int>,
    frequencySeconds: int,
    platforms: seq<string>,
    updatedAt: int,
    lastChecked: Option<int>,
    firstRunCompleted: bool,
    sinceTs: int,
    seenListingKeys: seq<string>)
}
