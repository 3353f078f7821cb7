/**
 * The backend's listing keys: `"{platform}:{platform_id}"`, with the
 * numeric id taken from the item URL by the first of a platform's
 * patterns that matches anywhere in it.  A `ValueError` is `None`.
 */
module ListingKey {
  import opened Wrappers
  import opened Chars

  /**
   * The id patterns: a literal marker followed by `(\d+)`, the query
   * parameter `[?&]id=(\d+)`, and the fallback `/(\d{7,})`.
   */
  datatype Pattern = Marker(marker: string) | QueryId | LongNumber

  /** Where the captured digits of `p` would start if it matched at `i`. */
  function CaptureStart(p: Pattern, i: nat): nat
  {
    match p
    case Marker(m) => i + |m|
    case QueryId => i + 4
    case LongNumber => i + 1
  }

  /** The pattern matches at `i` (its digits greedy up to the first non-digit). */
  predicate MatchesAt(p: Pattern, url: string, i: nat)
  {
    var s := CaptureStart(p, i);
    && s < |url| && IsDigit(url[s])
    && match p
       case Marker(m) => OccursAt(url, m, i)
       case QueryId => (url[i] == '?' || url[i] == '&') && url[i + 1..i + 4] == "id="
       case LongNumber => url[i] == '/' && DigitRunEnd(url, s) - s >= 7
  }

  /** `re.search`: the leftmost match position from `i`. */
  function SearchFrom(p: Pattern, url: string, i: nat): (r: Option<nat>)
    decreases |url| - i
    ensures r.Some? ==> i <= r.value && MatchesAt(p, url, r.value)
    ensures r.Some? ==> forall j :: i <= j < r.value ==> !MatchesAt(p, url, j)
    ensures r.None? ==> forall j :: i <= j ==> !MatchesAt(p, url, j)
  {
    if i >= |url| then None
    else if MatchesAt(p, url, i) then Some(i)
    else SearchFrom(p, url, i + 1)
  }

  /** `match.group(1)` of the match at `i`: the digit run after the pattern's prefix. */
  function Captured(p: Pattern, url: string, i: nat): (r: string)
    requires MatchesAt(p, url, i)
    ensures IsDigitString(r)
  {
    var s := CaptureStart(p, i);
    url[s..DigitRunEnd(url, s)]
  }

  /** The capture of the first pattern in the list that matches, or `""`. */
  function FirstCapture(patterns: seq<Pattern>, url: string): (r: string)
    ensures r == "" || IsDigitString(r)
  {
    if |patterns| == 0 then ""
    else match SearchFrom(patterns[0], url, 0)
      case Some(i) => Captured(patterns[0], url, i)
      case None => FirstCapture(patterns[1..], url)
  }

  /** The capture is that of the first matching pattern, at its leftmost match; `""` when none matches. */
  lemma {:induction false} FirstCaptureSpec(patterns: seq<Pattern>, url: string)
    ensures var r := FirstCapture(patterns, url);
            && (r == "" <==> forall k :: 0 <= k < |patterns| ==> SearchFrom(patterns[k], url, 0).None?)
            && (r != "" ==> exists k :: 0 <= k < |patterns| && SearchFrom(patterns[k], url, 0).Some?
                                     && (forall j :: 0 <= j < k ==> SearchFrom(patterns[j], url, 0).None?)
                                     && r == Captured(patterns[k], url, SearchFrom(patterns[k], url, 0).value))
  {
    if |patterns| > 0 {
      FirstCaptureSpec(patterns[1..], url);
      var r := FirstCapture(patterns, url);
      if SearchFrom(patterns[0], url, 0).None? {
        assert forall k :: 1 <= k < |patterns| ==> patterns[1..][k - 1] == patterns[k];
        if r != "" {
          var k' :| 0 <= k' < |patterns[1..]| && SearchFrom(patterns[1..][k'], url, 0).Some?
                    && (forall j :: 0 <= j < k' ==> SearchFrom(patterns[1..][j], url, 0).None?)
                    && r == Captured(patterns[1..][k'], url, SearchFrom(patterns[1..][k'], url, 0).value);
          assert forall j :: 0 <= j < k' + 1 ==> SearchFrom(patterns[j], url, 0).None? by {
            forall j | 0 <= j < k' + 1 ensures SearchFrom(patterns[j], url, 0).None? {
              if j > 0 { assert patterns[j] == patterns[1..][j - 1]; }
            }
          }
        }
      }
    }
  }

  const MILITARIA_PATTERNS: seq<Pattern> := [Marker("/auktion/"), QueryId, LongNumber]
  const EGUN_PATTERNS: seq<Pattern> := [QueryId, LongNumber]
  const GENERIC_PATTERNS: seq<Pattern> := [QueryId, Marker("/item/"), Marker("/product/"), Marker("/listing/"), LongNumber]

  /** The pattern list by platform: militaria321 first, then egun, then the generic list. */
  function PatternsFor(platform: string): (r: seq<Pattern>)
    ensures Contains(Lower(platform), "militaria321") ==> r == MILITARIA_PATTERNS
    ensures !Contains(Lower(platform), "militaria321") && Contains(Lower(platform), "egun") ==> r == EGUN_PATTERNS
    ensures !Contains(Lower(platform), "militaria321") && !Contains(Lower(platform), "egun") ==> r == GENERIC_PATTERNS
  {
    var p := Lower(platform);
    if Contains(p, "militaria321") then MILITARIA_PATTERNS
    else if Contains(p, "egun") then EGUN_PATTERNS
    else GENERIC_PATTERNS
  }

  /** `extract_platform_id`: a non-empty string of digits, or `""` when no pattern matches. */
  function ExtractPlatformId(platform: string, url: string): (r: string)
    ensures r == "" || IsDigitString(r)
  {
    FirstCapture(PatternsFor(platform), url)
  }

  /** On a militaria321 platform an `/auktion/` id wins over every other pattern. */
  lemma AuktionFirst(platform: string, url: string)
    requires Contains(Lower(platform), "militaria321")
    requires SearchFrom(Marker("/auktion/"), url, 0).Some?
    ensures ExtractPlatformId(platform, url)
            == Captured(Marker("/auktion/"), url, SearchFrom(Marker("/auktion/"), url, 0).value)
  {
  }

  /** On an egun platform a `?id=`/`&id=` parameter wins over the long-number fallback. */
  lemma QueryIdFirstOnEgun(platform: string, url: string)
    requires !Contains(Lower(platform), "militaria321") && Contains(Lower(platform), "egun")
    requires SearchFrom(QueryId, url, 0).Some?
    ensures ExtractPlatformId(platform, url) == Captured(QueryId, url, SearchFrom(QueryId, url, 0).value)
  {
  }

  /** The first `?id=` of a URL, followed by digits, yields exactly those digits. */
  lemma QueryIdCapture(pre: string, sep: char, digits: string, rest: string)
    requires '?' !in pre && '&' !in pre && (sep == '?' || sep == '&')
    requires IsDigitString(digits) && (rest == [] || !IsDigit(rest[0]))
    ensures var url := pre + [sep] + "id=" + digits + rest;
            && SearchFrom(QueryId, url, 0) == Some(|pre|)
            && Captured(QueryId, url, |pre|) == digits
  {
    var url := pre + [sep] + "id=" + digits + rest;
    var i := |pre|;
    assert url[i] == sep && url[i + 1..i + 4] == "id=";
    assert forall k :: 0 <= k < |digits| ==> url[i + 4 + k] == digits[k];
    assert MatchesAt(QueryId, url, i);
    forall j | 0 <= j < i ensures !MatchesAt(QueryId, url, j) {
      assert url[j] == pre[j];
    }
    SearchBefore(QueryId, url, 0, i);
    if rest != [] {
      assert url[i + 4 + |digits|] == rest[0];
    }
    DigitRunEndAt(url, i + 4, i + 4 + |digits|);
    assert url[i + 4..i + 4 + |digits|] == digits;
  }

  /** A search whose first match is at `m` finds it there. */
  lemma {:induction false} SearchBefore(p: Pattern, url: string, i: nat, m: nat)
    requires i <= m && MatchesAt(p, url, m) && forall j :: i <= j < m ==> !MatchesAt(p, url, j)
    decreases m - i
    ensures SearchFrom(p, url, i) == Some(m)
  {
    if i < m {
      SearchBefore(p, url, i + 1, m);
    }
  }

  /** `build_listing_key`: `"platform:id"`, or the `ValueError` (`None`) when no id is found. */
  function BuildListingKey(platform: string, url: string): (r: Option<string>)
    ensures r.None? <==> ExtractPlatformId(platform, url) == ""
    ensures r.Some? ==> r.value == platform + [':'] + ExtractPlatformId(platform, url)
  {
    var id := ExtractPlatformId(platform, url);
    if id == "" then None else Some(platform + [':'] + id)
  }

  /** `parse_listing_key`: the parts around the first ':', or `("", "")` without one. */
  function ParseListingKey(key: string): (r: (string, string))
    ensures ':' !in key ==> r == ("", "")
    ensures ':' in key ==> key == r.0 + [':'] + r.1 && ':' !in r.0
  {
    match SplitOnce(key, ':')
    case Some(parts) => parts
    case None => ("", "")
  }

  /** For a platform name without ':', parsing a built key gives back the platform and the extracted id. */
  lemma KeyRoundTrip(platform: string, url: string)
    requires ':' !in platform
    requires BuildListingKey(platform, url).Some?
    ensures ParseListingKey(BuildListingKey(platform, url).value) == (platform, ExtractPlatformId(platform, url))
  {
    SplitOnceJoin(platform, ':', ExtractPlatformId(platform, url));
  }

  /** A key whose platform contains ':' is split inside the platform name. */
  lemma ColonPlatformSplitsEarly(a: string, b: string, id: string)
    requires ':' !in a
    ensures ParseListingKey(a + [':'] + b + [':'] + id) == (a, b + [':'] + id)
  {
    assert a + [':'] + b + [':'] + id == a + [':'] + (b + [':'] + id);
    SplitOnceJoin(a, ':', b + [':'] + id);
  }
}
