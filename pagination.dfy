/**
 * The backend's next-page helpers: a query parameter replaced in a
 * parsed query, the smallest page number above the current one among a
 * page's links, and the numeric fallbacks of the egun.de and
 * militaria321.com next-page rules.  The links a page's selectors find
 * are given as their hrefs, in selector order.
 */
module Pagination {
  import opened Wrappers
  import opened Chars

  // ---------------------------------------------------------------------
  // Query parameters
  // ---------------------------------------------------------------------

  /** One key of `parse_qs`'s dictionary with its values. */
  datatype Param = Param(key: string, values: seq<string>)

  /** The values of `key`, if it is present. */
  function Lookup(q: seq<Param>, key: string): (r: Option<seq<string>>)
    ensures r.None? <==> forall k :: 0 <= k < |q| ==> q[k].key != key
  {
    if |q| == 0 then None
    else if q[0].key == key then Some(q[0].values)
    else
      assert forall k :: 1 <= k < |q| ==> q[k] == q[1..][k - 1];
      Lookup(q[1..], key)
  }

  function Keys(q: seq<Param>): (r: seq<string>)
    ensures |r| == |q| && forall k :: 0 <= k < |q| ==> r[k] == q[k].key
  {
    if |q| == 0 then [] else [q[0].key] + Keys(q[1..])
  }

  predicate DistinctKeys(q: seq<Param>)
  {
    forall i, j :: 0 <= i < j < |q| ==> q[i].key != q[j].key
  }

  /** `q[key] = [value]` on the dictionary: the entry is replaced where it stands, or added at the end. */
  function SetParam(q: seq<Param>, key: string, value: string): (r: seq<Param>)
  {
    if |q| == 0 then [Param(key, [value])]
    else if q[0].key == key then [Param(key, [value])] + q[1..]
    else [q[0]] + SetParam(q[1..], key, value)
  }

  /** The key now maps to exactly `[value]`. */
  lemma {:induction false} SetParamLookup(q: seq<Param>, key: string, value: string)
    ensures Lookup(SetParam(q, key, value), key) == Some([value])
  {
    if |q| > 0 && q[0].key != key {
      SetParamLookup(q[1..], key, value);
    }
  }

  /** Every other key keeps its values. */
  lemma {:induction false} SetParamOther(q: seq<Param>, key: string, value: string, other: string)
    requires other != key
    ensures Lookup(SetParam(q, key, value), other) == Lookup(q, other)
  {
    if |q| > 0 {
      if q[0].key != key {
        SetParamOther(q[1..], key, value, other);
      } else {
        assert SetParam(q, key, value)[1..] == q[1..];
      }
    }
  }

  /** The keys keep their order, the new key last when it was absent. */
  lemma {:induction false} SetParamKeys(q: seq<Param>, key: string, value: string)
    ensures Keys(SetParam(q, key, value)) == Keys(q) + (if key in Keys(q) then [] else [key])
  {
    if |q| > 0 {
      assert Keys(q) == [q[0].key] + Keys(q[1..]);
      if q[0].key != key {
        SetParamKeys(q[1..], key, value);
        assert key in Keys(q) <==> key in Keys(q[1..]);
      } else {
        assert SetParam(q, key, value)[1..] == q[1..];
      }
    }
  }

  /** Distinct keys stay distinct. */
  lemma SetParamDistinct(q: seq<Param>, key: string, value: string)
    requires DistinctKeys(q)
    ensures DistinctKeys(SetParam(q, key, value))
  {
    var r := SetParam(q, key, value);
    SetParamKeys(q, key, value);
    forall i, j | 0 <= i < j < |r| ensures r[i].key != r[j].key {
      assert r[i].key == Keys(r)[i] && r[j].key == Keys(r)[j];
      if j >= |q| {
        assert key !in Keys(q);
        assert Keys(r)[i] == Keys(q)[i];
      } else {
        assert Keys(q)[i] == q[i].key && Keys(q)[j] == q[j].key;
      }
    }
  }

  /** `urlencode` of the dictionary's items: one pair per value, in order. */
  function Pairs(q: seq<Param>): seq<(string, string)>
  {
    if |q| == 0 then [] else PairsOf(q[0]) + Pairs(q[1..])
  }

  function PairsOf(p: Param): (r: seq<(string, string)>)
    ensures |r| == |p.values| && forall k :: 0 <= k < |r| ==> r[k] == (p.key, p.values[k])
  {
    ValuePairs(p.key, p.values)
  }

  function ValuePairs(key: string, values: seq<string>): (r: seq<(string, string)>)
    ensures |r| == |values| && forall k :: 0 <= k < |r| ==> r[k] == (key, values[k])
  {
    if |values| == 0 then [] else [(key, values[0])] + ValuePairs(key, values[1..])
  }

  /** A key no entry has appears in no encoded pair. */
  lemma {:induction false} AbsentKeyNoPairs(q: seq<Param>, key: string, v: string)
    requires forall k :: 0 <= k < |q| ==> q[k].key != key
    ensures (key, v) !in Pairs(q)
  {
    if |q| > 0 {
      assert forall k :: 1 <= k < |q| ==> q[1..][k - 1] == q[k];
      AbsentKeyNoPairs(q[1..], key, v);
    }
  }

  /** After the replacement the query encodes the key once, with the new value. */
  lemma {:induction false} PairsCarryValue(q: seq<Param>, key: string, value: string, v: string)
    requires DistinctKeys(q)
    ensures (key, value) in Pairs(SetParam(q, key, value))
    ensures (key, v) in Pairs(SetParam(q, key, value)) ==> v == value
  {
    if |q| > 0 {
      var rest := q[1..];
      assert DistinctKeys(rest) by {
        forall i, j | 0 <= i < j < |rest| ensures rest[i].key != rest[j].key {
          assert rest[i] == q[i + 1] && rest[j] == q[j + 1];
        }
      }
      if q[0].key == key {
        assert forall k :: 0 <= k < |rest| ==> rest[k] == q[k + 1];
        AbsentKeyNoPairs(rest, key, v);
        assert Pairs(SetParam(q, key, value)) == [(key, value)] + Pairs(rest);
      } else {
        PairsCarryValue(rest, key, value, v);
        assert Pairs(SetParam(q, key, value)) == PairsOf(q[0]) + Pairs(SetParam(rest, key, value));
      }
    } else {
      assert Pairs(SetParam(q, key, value)) == [(key, value)] + Pairs([]);
    }
  }

  /** A URL's text along with its parsed query. */
  datatype Url = Url(text: string, query: seq<Param>)

  /** `replace_query_param`: the query with `key` set to `value`, the rest of the URL as it was. */
  function ReplaceQueryParam(u: Url, key: string, value: string): (r: seq<Param>)
    ensures Lookup(r, key) == Some([value])
  {
    SetParamLookup(u.query, key, value);
    SetParam(u.query, key, value)
  }

  // ---------------------------------------------------------------------
  // Numbers in links
  // ---------------------------------------------------------------------

  /** `[?&]name=(\d+)` matches at `i`. */
  predicate ParamAt(s: string, name: string, i: int)
  {
    var v := i + 1 + |name| + 1;
    && 0 <= i && v < |s| && (s[i] == '?' || s[i] == '&')
    && s[i + 1..i + 1 + |name|] == name && s[i + 1 + |name|] == '=' && IsDigit(s[v])
  }

  function ParamFrom(s: string, name: string, i: nat): (r: Option<nat>)
    decreases |s| - i
    ensures r.Some? ==> i <= r.value && ParamAt(s, name, r.value)
    ensures r.Some? ==> forall j :: i <= j < r.value ==> !ParamAt(s, name, j)
    ensures r.None? ==> forall j :: i <= j ==> !ParamAt(s, name, j)
  {
    if i >= |s| then None
    else if ParamAt(s, name, i) then Some(i)
    else ParamFrom(s, name, i + 1)
  }

  /** `int(re.search(r"[?&]name=(\d+)", s).group(1))`, if it matches. */
  function ParamNumber(s: string, name: string): (r: Option<nat>)
    ensures r.None? <==> forall j :: 0 <= j ==> !ParamAt(s, name, j)
  {
    match ParamFrom(s, name, 0)
    case None => None
    case Some(i) =>
      var v := i + 1 + |name| + 1;
      Some(DigitsToNat(s[v..DigitRunEnd(s, v)]))
  }

  /** A link's number: that of the first of `page`, `seite`, `start` it carries; later names are not tried. */
  function HrefNumber(href: string): (r: Option<nat>)
    ensures ParamNumber(href, "page").Some? ==> r == ParamNumber(href, "page")
    ensures ParamNumber(href, "page").None? && ParamNumber(href, "seite").Some? ==> r == ParamNumber(href, "seite")
    ensures ParamNumber(href, "page").None? && ParamNumber(href, "seite").None? ==> r == ParamNumber(href, "start")
  {
    var p := ParamNumber(href, "page");
    if p.Some? then p
    else
      var s := ParamNumber(href, "seite");
      if s.Some? then s else ParamNumber(href, "start")
  }

  /** The `nums` list: the links' numbers above `current`, in order. */
  function Above(numbers: seq<Option<nat>>, current: int): (r: seq<nat>)
  {
    if |numbers| == 0 then []
    else
      var rest := Above(numbers[1..], current);
      if numbers[0].Some? && numbers[0].value > current then [numbers[0].value] + rest else rest
  }

  /** A number is among those above `current` exactly when some link carries it and it lies above. */
  lemma {:induction false} AboveMembers(numbers: seq<Option<nat>>, current: int, x: nat)
    ensures x in Above(numbers, current) <==> x > current && exists k :: 0 <= k < |numbers| && numbers[k] == Some(x)
  {
    if |numbers| > 0 {
      AboveMembers(numbers[1..], current, x);
      assert forall k :: 1 <= k < |numbers| ==> numbers[k] == numbers[1..][k - 1];
    }
  }

  /** `min(nums) if nums else None`. */
  function Min(xs: seq<nat>): (r: Option<nat>)
    ensures r.None? <==> |xs| == 0
    ensures r.Some? ==> r.value in xs && forall x :: x in xs ==> r.value <= x
  {
    if |xs| == 0 then None
    else
      var m := Min(xs[1..]);
      assert forall x :: x in xs ==> x == xs[0] || x in xs[1..];
      if m.Some? && m.value < xs[0] then m else Some(xs[0])
  }

  function Numbers(hrefs: seq<string>, number: string -> Option<nat>): (r: seq<Option<nat>>)
    ensures |r| == |hrefs| && forall k :: 0 <= k < |r| ==> r[k] == number(hrefs[k])
  {
    if |hrefs| == 0 then [] else [number(hrefs[0])] + Numbers(hrefs[1..], number)
  }

  /** `first_numeric_greater_than` over the links' hrefs. */
  function FirstNumberAbove(hrefs: seq<string>, current: int): Option<nat>
  {
    Min(Above(Numbers(hrefs, HrefNumber), current))
  }

  /** The result is the least link number above `current`, and there is none only when no link has one. */
  lemma FirstNumberAboveSpec(hrefs: seq<string>, current: int)
    ensures var r := FirstNumberAbove(hrefs, current);
            && (r.Some? ==> r.value > current && (exists k :: 0 <= k < |hrefs| && HrefNumber(hrefs[k]) == r)
                            && forall k :: 0 <= k < |hrefs| && HrefNumber(hrefs[k]).Some? && HrefNumber(hrefs[k]).value > current
                                           ==> r.value <= HrefNumber(hrefs[k]).value)
            && (r.None? ==> forall k :: 0 <= k < |hrefs| && HrefNumber(hrefs[k]).Some? ==> HrefNumber(hrefs[k]).value <= current)
  {
    var ns := Numbers(hrefs, HrefNumber);
    var r := FirstNumberAbove(hrefs, current);
    if r.Some? {
      AboveMembers(ns, current, r.value);
    }
    forall k | 0 <= k < |hrefs| && HrefNumber(hrefs[k]).Some? && HrefNumber(hrefs[k]).value > current
      ensures r.Some? && r.value <= HrefNumber(hrefs[k]).value
    {
      AboveMembers(ns, current, HrefNumber(hrefs[k]).value);
    }
  }

  /** The loop of `first_numeric_greater_than`, collecting `nums` and taking their minimum. */
  method FirstNumericGreaterThan(hrefs: seq<string>, current: int) returns (r: Option<nat>)
    ensures r == FirstNumberAbove(hrefs, current)
  {
    var nums: seq<nat> := [];
    var i := |hrefs|;
    while i > 0
      invariant 0 <= i <= |hrefs|
      invariant nums == Above(Numbers(hrefs[i..], HrefNumber), current)
    {
      i := i - 1;
      assert Numbers(hrefs[i..], HrefNumber)[1..] == Numbers(hrefs[i + 1..], HrefNumber);
      var n := HrefNumber(hrefs[i]);
      if n.Some? && n.value > current {
        nums := [n.value] + nums;
      }
    }
    assert hrefs[0..] == hrefs;
    r := Min(nums);
  }

  // ---------------------------------------------------------------------
  // The numeric fallbacks
  // ---------------------------------------------------------------------

  /** The next-page link of a provider rule: one found by a selector, one built from a page number, or none. */
  datatype NextPage = Linked(href: string) | Numbered(query: seq<Param>) | NoNext

  function StartNumber(href: string): Option<nat>
  {
    ParamNumber(href, "start")
  }

  /**
   * egun.de: a link found by the next-page selectors wins; otherwise the
   * smallest `start` offset above the URL's own (0 without one) becomes
   * the `start` parameter.
   */
  function NextPageEgun(current: Url, linked: Option<string>, hrefs: seq<string>): (r: NextPage)
    ensures linked.Some? ==> r == Linked(linked.value)
  {
    if linked.Some? then Linked(linked.value)
    else
      var curStart := StartNumber(current.text).GetOr(0);
      match Min(Above(Numbers(hrefs, StartNumber), curStart))
      case None => NoNext
      case Some(next) => Numbered(ReplaceQueryParam(current, "start", NatToString(next)))
  }

  /** Without a selector link, the next offset is the least link offset above the current one, if any is. */
  lemma NextPageEgunSpec(current: Url, hrefs: seq<string>)
    ensures var cur := StartNumber(current.text).GetOr(0);
            var r := NextPageEgun(current, None, hrefs);
            && (r.NoNext? <==> forall k :: 0 <= k < |hrefs| && StartNumber(hrefs[k]).Some? ==> StartNumber(hrefs[k]).value <= cur)
            && (r.Numbered? ==> exists n: nat :: n > cur && r == Numbered(SetParam(current.query, "start", NatToString(n)))
                                       && (exists k :: 0 <= k < |hrefs| && StartNumber(hrefs[k]) == Some(n))
                                       && forall k :: 0 <= k < |hrefs| && StartNumber(hrefs[k]).Some? && StartNumber(hrefs[k]).value > cur
                                                      ==> n <= StartNumber(hrefs[k]).value)
  {
    var cur := StartNumber(current.text).GetOr(0);
    var ns := Numbers(hrefs, StartNumber);
    var m := Min(Above(ns, cur));
    forall k | 0 <= k < |hrefs| && StartNumber(hrefs[k]).Some? && StartNumber(hrefs[k]).value > cur
      ensures m.Some? && m.value <= StartNumber(hrefs[k]).value
    {
      AboveMembers(ns, cur, StartNumber(hrefs[k]).value);
    }
    if m.Some? {
      AboveMembers(ns, cur, m.value);
    }
  }

  /** militaria321.com's current page: that of `seite`, else `page`, else 1. */
  function CurrentPage(url: string): (r: nat)
    ensures ParamNumber(url, "seite").Some? ==> r == ParamNumber(url, "seite").value
    ensures ParamNumber(url, "seite").None? && ParamNumber(url, "page").Some? ==> r == ParamNumber(url, "page").value
    ensures ParamNumber(url, "seite").None? && ParamNumber(url, "page").None? ==> r == 1
  {
    match ParamNumber(url, "seite")
    case Some(n) => n
    case None => ParamNumber(url, "page").GetOr(1)
  }

  /**
   * militaria321.com: a selector link wins; otherwise the least link
   * number above the current page, written into `seite` when the URL
   * already has `seite=`, else into `page`.
   */
  function NextPageMilitaria(current: Url, linked: Option<string>, hrefs: seq<string>): (r: NextPage)
    ensures linked.Some? ==> r == Linked(linked.value)
  {
    if linked.Some? then Linked(linked.value)
    else
      match FirstNumberAbove(hrefs, CurrentPage(current.text))
      case None => NoNext
      case Some(next) =>
        var param := if Contains(current.text, "seite=") then "seite" else "page";
        Numbered(ReplaceQueryParam(current, param, NatToString(next)))
  }

  /** The number written is above the current page and the parameter is the one the URL uses. */
  lemma NextPageMilitariaSpec(current: Url, hrefs: seq<string>)
    ensures var r := NextPageMilitaria(current, None, hrefs);
            var param := if Contains(current.text, "seite=") then "seite" else "page";
            && (r.Numbered? <==> FirstNumberAbove(hrefs, CurrentPage(current.text)).Some?)
            && (r.Numbered? ==> var n := FirstNumberAbove(hrefs, CurrentPage(current.text)).value;
                                n > CurrentPage(current.text)
                                && Lookup(r.query, param) == Some([NatToString(n)]))
  {
    FirstNumberAboveSpec(hrefs, CurrentPage(current.text));
    var param := if Contains(current.text, "seite=") then "seite" else "page";
    var n := FirstNumberAbove(hrefs, CurrentPage(current.text));
    if n.Some? {
      SetParamLookup(current.query, param, NatToString(n.value));
    }
  }
}
