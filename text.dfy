/**
 * The Telegram HTML text helpers: line joining, truncation with an
 * ellipsis, HTML escaping inside the bold, italic, code and link wrappers,
 * and the "/" rendering of a missing price.
 */
module Text {
  import opened Wrappers
  import opened Chars
  import opened Money

  // ---------------------------------------------------------------------
  // br_join
  // ---------------------------------------------------------------------

  /** The lines `br_join` keeps: present and not blank after stripping, in order. */
  function Kept(lines: seq<Option<string>>): (r: seq<string>)
    ensures |r| <= |lines|
  {
    if |lines| == 0 then []
    else (if lines[0].Some? && Strip(lines[0].value) != "" then [lines[0].value] else [])
         + Kept(lines[1..])
  }

  /** `sep.join(parts)` for a one-character separator. */
  function Join(parts: seq<string>, sep: char): string
  {
    if |parts| == 0 then ""
    else if |parts| == 1 then parts[0]
    else parts[0] + [sep] + Join(parts[1..], sep)
  }

  /** `s.split(sep)` for a one-character separator: always at least one part. */
  function SplitOn(s: string, sep: char): (r: seq<string>)
    ensures |r| >= 1
    decreases |s|
  {
    match IndexOf(s, sep)
    case None => [s]
    case Some(i) => [s[..i]] + SplitOn(s[i + 1..], sep)
  }

  /** `br_join`: the kept lines joined by newlines. */
  function BrJoin(lines: seq<Option<string>>): string
  {
    Join(Kept(lines), '\n')
  }

  /** `br_join` filters entry by entry, so it splits over concatenation. */
  lemma {:induction false} KeptAppend(a: seq<Option<string>>, b: seq<Option<string>>)
    ensures Kept(a + b) == Kept(a) + Kept(b)
  {
    if |a| == 0 {
      assert a + b == b;
    } else {
      assert (a + b)[0] == a[0] && (a + b)[1..] == a[1..] + b;
      KeptAppend(a[1..], b);
    }
  }

  /** A line that opens with a visible character is kept. */
  lemma KeptVisible(l: string)
    requires Visible(l)
    ensures Kept([Some(l)]) == [l]
  {
    StripBlank(l);
  }

  /** Every line as a present `br_join` entry. */
  function SomeAll(lines: seq<string>): (r: seq<Option<string>>)
    ensures |r| == |lines| && forall k :: 0 <= k < |lines| ==> r[k] == Some(lines[k])
  {
    if |lines| == 0 then [] else [Some(lines[0])] + SomeAll(lines[1..])
  }

  /** A line that opens with a character other than white space. */
  predicate Visible(l: string) { |l| > 0 && !IsSpace(l[0]) }

  /** Lines that all open visibly are all kept. */
  lemma {:induction false} KeptAllVisible(lines: seq<string>)
    requires forall k :: 0 <= k < |lines| ==> Visible(lines[k])
    ensures Kept(SomeAll(lines)) == lines
  {
    if |lines| > 0 {
      StripBlank(lines[0]);
      KeptAllVisible(lines[1..]);
      assert SomeAll(lines)[1..] == SomeAll(lines[1..]);
      assert lines == [lines[0]] + lines[1..];
    }
  }

  /** A line is kept exactly when it is present and not blank. */
  lemma {:induction false} KeptMembers(lines: seq<Option<string>>, l: string)
    ensures l in Kept(lines) <==> Some(l) in lines && Strip(l) != ""
  {
    if |lines| > 0 {
      KeptMembers(lines[1..], l);
      assert lines == [lines[0]] + lines[1..];
    }
  }

  /** Splitting at a first separator peels off the text before it. */
  lemma SplitOnCons(head: string, sep: char, rest: string)
    requires sep !in head
    ensures SplitOn(head + [sep] + rest, sep) == [head] + SplitOn(rest, sep)
  {
    var s := head + [sep] + rest;
    IndexOfPrefix(head, sep, rest);
    assert s[..|head|] == head;
    assert s[|head| + 1..] == rest;
  }

  /** Joining parts free of the separator and splitting again gives the parts back. */
  lemma {:induction false} SplitJoin(parts: seq<string>, sep: char)
    requires |parts| > 0
    requires forall k :: 0 <= k < |parts| ==> sep !in parts[k]
    ensures SplitOn(Join(parts, sep), sep) == parts
  {
    if |parts| == 1 {
      assert IndexOf(parts[0], sep).None?;
    } else {
      var tail := parts[1..];
      assert forall k :: 0 <= k < |tail| ==> sep !in tail[k] by {
        forall k | 0 <= k < |tail| ensures sep !in tail[k] { assert tail[k] == parts[k + 1]; }
      }
      SplitOnCons(parts[0], sep, Join(tail, sep));
      SplitJoin(tail, sep);
      assert parts == [parts[0]] + tail;
    }
  }

  /** The message `br_join` builds splits at its newlines into exactly the kept lines. */
  lemma BrJoinLines(lines: seq<Option<string>>)
    requires |Kept(lines)| > 0
    requires forall k :: 0 <= k < |lines| && lines[k].Some? ==> '\n' !in lines[k].value
    ensures SplitOn(BrJoin(lines), '\n') == Kept(lines)
  {
    var kept := Kept(lines);
    forall k | 0 <= k < |kept| ensures '\n' !in kept[k] {
      KeptMembers(lines, kept[k]);
      var j :| 0 <= j < |lines| && lines[j] == Some(kept[k]);
    }
    SplitJoin(kept, '\n');
  }

  /** With nothing to keep, the message is empty. */
  lemma {:induction false} BrJoinEmpty(lines: seq<Option<string>>)
    requires forall k :: 0 <= k < |lines| ==> lines[k].None? || Strip(lines[k].value) == ""
    ensures Kept(lines) == [] && BrJoin(lines) == ""
  {
    if |lines| > 0 {
      BrJoinEmpty(lines[1..]);
    }
  }

  // ---------------------------------------------------------------------
  // safe_truncate
  // ---------------------------------------------------------------------

  /** Python's `s[:k]`, where a negative `k` counts from the end. */
  function SliceTo(s: string, k: int): (r: string)
    ensures |r| <= |s|
    ensures k >= 0 ==> |r| == if k < |s| then k else |s|
  {
    if k >= 0 then (if k < |s| then s[..k] else s)
    else if |s| + k > 0 then s[..|s| + k] else ""
  }

  /** `safe_truncate` as written: `text[:max_len - 3] + "..."` once the text is too long. */
  function SafeTruncate(text: string, maxLen: int): (r: string)
    ensures |text| <= maxLen ==> r == text
    ensures |text| > maxLen ==> |r| >= 3 && r[|r| - 3..] == "..."
  {
    if |text| <= maxLen then text else SliceTo(text, maxLen - 3) + "..."
  }

  /** For a limit of at least 3 the result never exceeds it, and is exactly the limit when it truncates. */
  lemma SafeTruncateBound(text: string, maxLen: int)
    requires maxLen >= 3
    ensures |SafeTruncate(text, maxLen)| <= maxLen
    ensures |text| <= maxLen <==> SafeTruncate(text, maxLen) == text
    ensures |text| > maxLen ==> (|SafeTruncate(text, maxLen)| == maxLen
                                 && SafeTruncate(text, maxLen)[..maxLen - 3] == text[..maxLen - 3])
  {
    if |text| > maxLen {
      var r := SafeTruncate(text, maxLen);
      assert r == text[..maxLen - 3] + "...";
      assert r[..maxLen - 3] == text[..maxLen - 3];
    }
  }

  /** Below 3 the written rule overshoots: a limit of 2 turns six characters into eight. */
  lemma SafeTruncateOvershoots()
    ensures |SafeTruncate("abcdef", 2)| == 8
  {
    assert SliceTo("abcdef", -1) == "abcde";
  }

  /** The intended rule: never longer than the limit, equal to the written one from 3 up. */
  function SafeTruncateBounded(text: string, maxLen: int): (r: string)
    ensures maxLen >= 3 ==> r == SafeTruncate(text, maxLen)
    ensures |r| <= |text|
    ensures |r| <= (if maxLen < 0 then 0 else maxLen)
    ensures |text| <= maxLen ==> r == text
  {
    if |text| <= maxLen then text
    else if maxLen < 3 then SliceTo(text, if maxLen < 0 then 0 else maxLen)
    else SliceTo(text, maxLen - 3) + "..."
  }

  // ---------------------------------------------------------------------
  // HTML escaping and the wrappers
  // ---------------------------------------------------------------------

  /** `html.escape(c, quote=True)` for one character. */
  function EscapeChar(c: char): string
  {
    if c == '&' then "&amp;"
    else if c == '<' then "&lt;"
    else if c == '>' then "&gt;"
    else if c == '"' then "&quot;"
    else if c == '\'' then "&#x27;"
    else [c]
  }

  function HtmlEscape(s: string): (r: string)
    ensures |r| >= |s|
    ensures |r| == 0 <==> |s| == 0
  {
    if |s| == 0 then "" else EscapeChar(s[0]) + HtmlEscape(s[1..])
  }

  /** Characters that would open or close markup or an attribute. */
  predicate IsMarkup(c: char) { c == '<' || c == '>' || c == '"' || c == '\'' }

  /** Escaped text holds no markup character. */
  lemma {:induction false} EscapeNoMarkup(s: string)
    ensures forall k :: 0 <= k < |HtmlEscape(s)| ==> !IsMarkup(HtmlEscape(s)[k])
  {
    if |s| > 0 {
      EscapeNoMarkup(s[1..]);
      var e, r := EscapeChar(s[0]), HtmlEscape(s[1..]);
      assert HtmlEscape(s) == e + r;
      forall k | 0 <= k < |e + r| ensures !IsMarkup((e + r)[k]) {
        if k >= |e| {
          assert (e + r)[k] == r[k - |e|];
        }
      }
    }
  }

  /** Escaping introduces nothing but the characters of the five entities. */
  lemma {:induction false} EscapeAddsOnlyEntities(s: string)
    ensures forall x :: x in HtmlEscape(s) ==> x in s || x in "&amp;lt;gt;quot;#x27"
  {
    if |s| > 0 {
      EscapeAddsOnlyEntities(s[1..]);
      assert HtmlEscape(s) == EscapeChar(s[0]) + HtmlEscape(s[1..]);
      assert forall x :: x in s[1..] ==> x in s;
    }
  }

  /** Text without any of the five special characters is left as it is. */
  lemma {:induction false} EscapePlain(s: string)
    requires forall k :: 0 <= k < |s| ==> !IsMarkup(s[k]) && s[k] != '&'
    ensures HtmlEscape(s) == s
  {
    if |s| > 0 {
      EscapePlain(s[1..]);
      assert s == [s[0]] + s[1..];
    }
  }

  /** Reverses `HtmlEscape`: the five entities become their characters again. */
  function Unescape(s: string): string
  {
    if |s| == 0 then ""
    else if s[0] != '&' then [s[0]] + Unescape(s[1..])
    else if |s| >= 5 && s[..5] == "&amp;" then "&" + Unescape(s[5..])
    else if |s| >= 4 && s[..4] == "&lt;" then "<" + Unescape(s[4..])
    else if |s| >= 4 && s[..4] == "&gt;" then ">" + Unescape(s[4..])
    else if |s| >= 6 && s[..6] == "&quot;" then "\"" + Unescape(s[6..])
    else if |s| >= 6 && s[..6] == "&#x27;" then "'" + Unescape(s[6..])
    else [s[0]] + Unescape(s[1..])
  }

  lemma UnescapeChar(c: char, rest: string)
    ensures Unescape(EscapeChar(c) + rest) == [c] + Unescape(rest)
  {
    var s := EscapeChar(c) + rest;
    if c == '&' {
      assert s[..5] == "&amp;" && s[5..] == rest;
    } else if c == '<' {
      assert s[..4] == "&lt;" && s[4..] == rest;
      assert s[1] == 'l' && (|s| < 5 || s[..5] != "&amp;");
    } else if c == '>' {
      assert s[..4] == "&gt;" && s[4..] == rest;
      assert s[1] == 'g' && (|s| < 5 || s[..5] != "&amp;") && s[..4] != "&lt;";
    } else if c == '"' {
      assert s[..6] == "&quot;" && s[6..] == rest;
      assert s[1] == 'q' && s[..5] != "&amp;" && s[..4] != "&lt;" && s[..4] != "&gt;";
    } else if c == '\'' {
      assert s[..6] == "&#x27;" && s[6..] == rest;
      assert s[1] == '#' && s[..5] != "&amp;" && s[..4] != "&lt;" && s[..4] != "&gt;" && s[..6] != "&quot;";
    } else {
      assert s[0] == c && s[1..] == rest;
    }
  }

  /** Escaping loses nothing: unescaping gives the input back. */
  lemma {:induction false} EscapeRoundTrip(s: string)
    ensures Unescape(HtmlEscape(s)) == s
  {
    if |s| > 0 {
      UnescapeChar(s[0], HtmlEscape(s[1..]));
      EscapeRoundTrip(s[1..]);
      assert s == [s[0]] + s[1..];
    }
  }

  /** `b(txt)` */
  function Bold(txt: string): string
  {
    "<b>" + HtmlEscape(txt) + "</b>"
  }

  /** `i(txt)` */
  function Italic(txt: string): string
  {
    "<i>" + HtmlEscape(txt) + "</i>"
  }

  /** `code(txt)` */
  function Code(txt: string): string
  {
    "<code>" + HtmlEscape(txt) + "</code>"
  }

  /** `a(caption, url)` */
  function Link(caption: string, url: string): string
  {
    "<a href=\"" + HtmlEscape(url) + "\">" + HtmlEscape(caption) + "</a>"
  }

  /** Between its fixed tags each wrapper carries the escaped text, which holds no markup and reads back as the input. */
  lemma WrappersEscape(txt: string)
    ensures Bold(txt)[3..|Bold(txt)| - 4] == HtmlEscape(txt)
    ensures Italic(txt)[3..|Italic(txt)| - 4] == HtmlEscape(txt)
    ensures Code(txt)[6..|Code(txt)| - 7] == HtmlEscape(txt)
    ensures forall k :: 0 <= k < |HtmlEscape(txt)| ==> !IsMarkup(HtmlEscape(txt)[k])
    ensures Unescape(HtmlEscape(txt)) == txt
  {
    EscapeNoMarkup(txt);
    EscapeRoundTrip(txt);
  }

  /** The link's attribute value and caption are both escaped, so neither can close the tag. */
  lemma LinkEscapes(caption: string, url: string)
    ensures var e := HtmlEscape(url);
            Link(caption, url)[9..9 + |e|] == e
            && Link(caption, url)[9 + |e| + 2..|Link(caption, url)| - 4] == HtmlEscape(caption)
    ensures forall k :: 0 <= k < |HtmlEscape(url)| ==> !IsMarkup(HtmlEscape(url)[k])
    ensures forall k :: 0 <= k < |HtmlEscape(caption)| ==> !IsMarkup(HtmlEscape(caption)[k])
  {
    EscapeNoMarkup(url);
    EscapeNoMarkup(caption);
  }

  // ---------------------------------------------------------------------
  // fmt_price_de
  // ---------------------------------------------------------------------

  /** `fmt_price_de`: "/" without a value, else the German amount and `currency or "EUR"`, EUR shown as €. */
  function FmtPriceDe(value: Option<nat>, currency: Option<string>): string
  {
    if value.None? then "/"
    else
      var code := if currency.None? || currency.value == "" then "EUR" else currency.value;
      AmountDe(value.value) + (if code == "EUR" then " €" else " " + code)
  }

  /** The rendering is "/" exactly when there is no value; otherwise it opens with the amount, which reads back as the value. */
  lemma FmtPriceDeMissing(value: Option<nat>, currency: Option<string>)
    ensures FmtPriceDe(value, currency) == "/" <==> value.None?
    ensures value.Some? ==>
              var a := AmountDe(value.value);
              FmtPriceDe(value, currency)[..|a|] == a && ParseNumber(a) == value
  {
    if value.Some? {
      var a := AmountDe(value.value);
      AmountShape(value.value);
      ParseAmount(value.value);
      assert FmtPriceDe(value, currency)[0] == a[0];
    }
  }
}
