/**
 * ASCII character classes and the small string operations the Python code
 * relies on: `str.strip`, `str.lower`, `in`, the first `\d+` run of a string,
 * and decimal digit strings.  Unicode classes are restricted to ASCII.
 */
module Chars {
  import opened Wrappers

  predicate IsDigit(c: char) { '0' <= c <= '9' }
  predicate IsUpper(c: char) { 'A' <= c <= 'Z' }
  predicate IsLowerLetter(c: char) { 'a' <= c <= 'z' }
  predicate IsAlnum(c: char) { IsDigit(c) || IsUpper(c) || IsLowerLetter(c) }
  /** Characters matched by the regex class `\w` (ASCII part). */
  predicate IsWordChar(c: char) { IsAlnum(c) || c == '_' }
  /** Characters that `str.strip()` removes and `\s` matches (ASCII part). */
  predicate IsSpace(c: char)
  {
    c == ' ' || c == '\t' || c == '\n' || c == '\r' || c == '\U{B}' || c == '\U{C}'
    || ('\U{1C}' <= c <= '\U{1F}')
  }

  predicate AllDigits(s: string) { forall k :: 0 <= k < |s| ==> IsDigit(s[k]) }
  /** Python's `str.isdigit()`: non-empty and every character a digit. */
  predicate IsDigitString(s: string) { |s| > 0 && AllDigits(s) }

  function LowerChar(c: char): (r: char)
    ensures !IsUpper(r)
    ensures IsUpper(c) ==> r as int == c as int + 32
    ensures !IsUpper(c) ==> r == c
  {
    if IsUpper(c) then (c as int + 32) as char else c
  }

  /** `str.lower()` on ASCII text. */
  function Lower(s: string): (r: string)
    ensures |r| == |s|
  {
    if |s| == 0 then [] else [LowerChar(s[0])] + Lower(s[1..])
  }

  lemma {:induction false} LowerAt(s: string, k: nat)
    requires k < |s|
    ensures Lower(s)[k] == LowerChar(s[k])
  {
    if k > 0 {
      LowerAt(s[1..], k - 1);
    }
  }

  /** Lowering works character by character, so it distributes over concatenation. */
  lemma {:induction false} LowerAppend(a: string, b: string)
    ensures Lower(a + b) == Lower(a) + Lower(b)
  {
    if |a| == 0 {
      assert a + b == b;
    } else {
      assert (a + b)[0] == a[0] && (a + b)[1..] == a[1..] + b;
      LowerAppend(a[1..], b);
    }
  }

  /** Lowering is idempotent, as `str.lower` is on ASCII. */
  lemma {:induction false} LowerIdempotent(s: string)
    ensures Lower(Lower(s)) == Lower(s)
  {
    if |s| > 0 {
      LowerIdempotent(s[1..]);
      assert Lower(s)[1..] == Lower(s[1..]);
    }
  }

  /** Text without capitals is its own lower case. */
  lemma {:induction false} LowerNoUpper(s: string)
    requires forall k :: 0 <= k < |s| ==> !IsUpper(s[k])
    ensures Lower(s) == s
  {
    if |s| > 0 {
      LowerNoUpper(s[1..]);
      assert s == [s[0]] + s[1..];
    }
  }

  function LStrip(s: string): (r: string)
    ensures |r| <= |s|
  {
    if |s| > 0 && IsSpace(s[0]) then LStrip(s[1..]) else s
  }

  lemma {:induction false} LStripSpec(s: string)
    ensures var r := LStrip(s);
            && r == s[|s| - |r|..]
            && (|r| > 0 ==> !IsSpace(r[0]))
            && (forall k :: 0 <= k < |s| - |r| ==> IsSpace(s[k]))
  {
    if |s| > 0 && IsSpace(s[0]) {
      LStripSpec(s[1..]);
    }
  }

  function RStrip(s: string): (r: string)
    ensures |r| <= |s|
  {
    if |s| > 0 && IsSpace(s[|s| - 1]) then RStrip(s[..|s| - 1]) else s
  }

  lemma {:induction false} RStripSpec(s: string)
    ensures var r := RStrip(s);
            && r == s[..|r|]
            && (|r| > 0 ==> !IsSpace(r[|r| - 1]))
            && (forall k :: |r| <= k < |s| ==> IsSpace(s[k]))
  {
    if |s| > 0 && IsSpace(s[|s| - 1]) {
      RStripSpec(s[..|s| - 1]);
    }
  }

  /** `str.strip()`: drop leading and trailing white space. */
  function Strip(s: string): (r: string)
    ensures |r| <= |s|
  {
    RStrip(LStrip(s))
  }

  /** The stripped text starts and ends with a non-space character. */
  lemma StripEnds(s: string)
    ensures var r := Strip(s); |r| > 0 ==> !IsSpace(r[0]) && !IsSpace(r[|r| - 1])
  {
    var l := LStrip(s);
    LStripSpec(s);
    RStripSpec(l);
    var r := RStrip(l);
    if |r| > 0 {
      assert r[0] == l[0];
    }
  }

  lemma StripIdempotent(s: string)
    ensures Strip(Strip(s)) == Strip(s)
  {
    var t := Strip(s);
    StripEnds(s);
    if |t| > 0 {
      assert LStrip(t) == t;
      assert RStrip(t) == t;
    }
  }

  /** A string made only of white space strips to the empty string, and only such a string does. */
  lemma StripBlank(s: string)
    ensures (Strip(s) == []) == (forall k :: 0 <= k < |s| ==> IsSpace(s[k]))
  {
    var l := LStrip(s);
    LStripSpec(s);
    RStripSpec(l);
    if Strip(s) == [] {
      assert l == [];
    } else {
      assert |l| > 0;
      assert !IsSpace(s[|s| - |l|]);
    }
  }

  /** Lowering neither makes nor removes white space. */
  lemma LowerKeepsSpace(c: char)
    ensures IsSpace(LowerChar(c)) == IsSpace(c)
  {
  }

  /** Lowering a prefix is the prefix of the lowered text. */
  lemma {:induction false} LowerPrefix(s: string, n: nat)
    requires n <= |s|
    ensures Lower(s[..n]) == Lower(s)[..n]
  {
    if n > 0 {
      assert s[..n][1..] == s[1..][..n - 1];
      LowerPrefix(s[1..], n - 1);
    }
  }

  lemma {:induction false} LStripLower(s: string)
    ensures LStrip(Lower(s)) == Lower(LStrip(s))
  {
    if |s| > 0 {
      LowerKeepsSpace(s[0]);
      if IsSpace(s[0]) {
        LStripLower(s[1..]);
      }
    }
  }

  lemma {:induction false} RStripLower(s: string)
    decreases |s|
    ensures RStrip(Lower(s)) == Lower(RStrip(s))
  {
    if |s| > 0 {
      var n := |s| - 1;
      LowerAt(s, n);
      LowerKeepsSpace(s[n]);
      if IsSpace(s[n]) {
        LowerPrefix(s, n);
        RStripLower(s[..n]);
      }
    }
  }

  /** Stripping and lowering commute. */
  lemma StripLower(s: string)
    ensures Strip(Lower(s)) == Lower(Strip(s))
  {
    LStripLower(s);
    RStripLower(LStrip(s));
  }

  /** `needle in hay` on strings: `needle` occurs at some index. */
  predicate OccursAt(hay: string, needle: string, i: int)
  {
    0 <= i && i + |needle| <= |hay| && hay[i..i + |needle|] == needle
  }

  predicate Contains(hay: string, needle: string)
  {
    exists i | 0 <= i <= |hay| :: OccursAt(hay, needle, i)
  }

  /** A needle whose first character is absent does not occur. */
  lemma NotContained(hay: string, needle: string)
    requires |needle| > 0 && needle[0] !in hay
    ensures !Contains(hay, needle)
  {
    forall i | 0 <= i <= |hay| ensures !OccursAt(hay, needle, i) {
      if i + |needle| <= |hay| {
        assert hay[i..i + |needle|][0] == hay[i];
      }
    }
  }

  /** First index at or after `from` where `needle` occurs. */
  function FindFrom(hay: string, needle: string, from: nat): (r: Option<nat>)
    decreases |hay| - from
    ensures r.Some? ==> from <= r.value && OccursAt(hay, needle, r.value)
    ensures r.Some? ==> forall j :: from <= j < r.value ==> !OccursAt(hay, needle, j)
    ensures r.None? ==> forall j :: from <= j ==> !OccursAt(hay, needle, j)
  {
    if from + |needle| > |hay| then None
    else if hay[from..from + |needle|] == needle then Some(from)
    else FindFrom(hay, needle, from + 1)
  }

  /** A scanning search for `needle`, proved equal to `Contains`. */
  function Find(hay: string, needle: string): (r: Option<nat>)
    ensures r.Some? <==> Contains(hay, needle)
    ensures r.Some? ==> OccursAt(hay, needle, r.value)
  {
    FindFrom(hay, needle, 0)
  }

  /** Index of the first character at or after `from` satisfying `IsDigit`. */
  function FirstDigitFrom(s: string, from: nat): (r: Option<nat>)
    decreases |s| - from
    ensures r.Some? ==> from <= r.value < |s| && IsDigit(s[r.value])
    ensures r.Some? ==> forall j :: from <= j < r.value ==> !IsDigit(s[j])
    ensures r.None? ==> forall j :: from <= j < |s| ==> !IsDigit(s[j])
  {
    if from >= |s| then None
    else if IsDigit(s[from]) then Some(from)
    else FirstDigitFrom(s, from + 1)
  }

  /** End of the maximal run of digits starting at `i`. */
  function DigitRunEnd(s: string, i: nat): (j: nat)
    requires i <= |s|
    decreases |s| - i
    ensures i <= j <= |s|
    ensures forall k :: i <= k < j ==> IsDigit(s[k])
    ensures j < |s| ==> !IsDigit(s[j])
  {
    if i < |s| && IsDigit(s[i]) then DigitRunEnd(s, i + 1) else i
  }

  /** A run of digits from `i` that stops at `j` ends there. */
  lemma DigitRunEndAt(s: string, i: nat, j: nat)
    requires i <= j <= |s| && (forall k :: i <= k < j ==> IsDigit(s[k])) && (j < |s| ==> !IsDigit(s[j]))
    ensures DigitRunEnd(s, i) == j
  {
  }

  /** The text of the leftmost greedy match of `\d+` in `s`, if any. */
  function FirstDigitRun(s: string): (r: Option<string>)
    ensures r.Some? ==> |r.value| <= |s|
  {
    match FirstDigitFrom(s, 0)
    case None => None
    case Some(i) => Some(s[i..DigitRunEnd(s, i)])
  }

  /** The run found is a digit string, and there is none exactly when `s` holds no digit. */
  lemma FirstDigitRunShape(s: string)
    ensures FirstDigitRun(s).Some? ==> IsDigitString(FirstDigitRun(s).value)
    ensures FirstDigitRun(s).None? <==> forall k :: 0 <= k < |s| ==> !IsDigit(s[k])
  {
  }

  /** A string of digits always yields itself as its first digit run. */
  lemma FirstDigitRunOfDigits(s: string)
    requires IsDigitString(s)
    ensures FirstDigitRun(s) == Some(s)
  {
    assert FirstDigitFrom(s, 0) == Some(0);
    DigitRunEndAll(s, 0);
    assert s[0..|s|] == s;
  }

  lemma {:induction false} DigitRunEndAll(s: string, i: nat)
    requires i <= |s| && AllDigits(s)
    decreases |s| - i
    ensures DigitRunEnd(s, i) == |s|
  {
    if i < |s| {
      DigitRunEndAll(s, i + 1);
    }
  }

  function DigitValue(c: char): (d: nat)
    requires IsDigit(c)
    ensures d < 10
  {
    c as int - '0' as int
  }

  function DigitChar(d: nat): (c: char)
    requires d < 10
    ensures IsDigit(c) && DigitValue(c) == d
  {
    ('0' as int + d) as char
  }

  /** Python's `int(s)` on a string of decimal digits. */
  function DigitsToNat(s: string): (n: nat)
    requires AllDigits(s)
  {
    if |s| == 0 then 0 else DigitsToNat(s[..|s| - 1]) * 10 + DigitValue(s[|s| - 1])
  }

  /** Python's `str(n)` on a natural number. */
  function NatToString(n: nat): (s: string)
    ensures IsDigitString(s)
    ensures |s| > 1 ==> s[0] != '0'
  {
    if n < 10 then [DigitChar(n)] else NatToString(n / 10) + [DigitChar(n % 10)]
  }

  /** `int(str(n)) == n`: the decimal rendering of a number reads back as it. */
  lemma {:induction false} NatToStringRoundTrip(n: nat)
    ensures DigitsToNat(NatToString(n)) == n
  {
    var s := NatToString(n);
    if n >= 10 {
      NatToStringRoundTrip(n / 10);
      assert s[..|s| - 1] == NatToString(n / 10);
    }
  }

  /** `s.replace(c, "")`: every occurrence of `c` removed. */
  function RemoveChar(s: string, c: char): (r: string)
    ensures |r| <= |s|
    ensures c !in s ==> r == s
  {
    if |s| == 0 then []
    else if s[0] == c then RemoveChar(s[1..], c)
    else [s[0]] + RemoveChar(s[1..], c)
  }

  /** What is left holds no `c` and nothing that was not there before. */
  lemma {:induction false} RemoveCharSpec(s: string, c: char)
    ensures c !in RemoveChar(s, c)
    ensures forall x :: x in RemoveChar(s, c) <==> x in s && x != c
  {
    if |s| > 0 {
      RemoveCharSpec(s[1..], c);
      assert forall x :: x in s <==> x == s[0] || x in s[1..];
    }
  }

  /** Removing a character distributes over concatenation. */
  lemma {:induction false} RemoveCharAppend(a: string, b: string, c: char)
    ensures RemoveChar(a + b, c) == RemoveChar(a, c) + RemoveChar(b, c)
  {
    if |a| == 0 {
      assert a + b == b;
    } else {
      assert (a + b)[0] == a[0] && (a + b)[1..] == a[1..] + b;
      RemoveCharAppend(a[1..], b, c);
    }
  }

  /** Deleting `c` from `g + [c] + t` with no `c` in `t` keeps `t` whole. */
  lemma RemoveCharJoin(g: string, c: char, t: string)
    requires c !in t
    ensures RemoveChar(g + [c] + t, c) == RemoveChar(g, c) + t
  {
    var gc := g + [c];
    RemoveCharAppend(gc, t, c);
    RemoveCharAppend(g, [c], c);
    RemoveCharSingle(c);
    assert RemoveChar(gc, c) == RemoveChar(g, c);
  }

  lemma RemoveCharSingle(c: char)
    ensures RemoveChar([c], c) == []
  {
    assert [c][1..] == [];
  }

  /** `s.replace(a, b)` for single characters. */
  function ReplaceChar(s: string, a: char, b: char): (r: string)
    ensures |r| == |s|
    ensures forall k :: 0 <= k < |s| ==> r[k] == (if s[k] == a then b else s[k])
  {
    if |s| == 0 then [] else [if s[0] == a then b else s[0]] + ReplaceChar(s[1..], a, b)
  }

  /** Index of the first `c` in `s`, if any. */
  function IndexOf(s: string, c: char): (r: Option<nat>)
    ensures r.Some? ==> r.value < |s| && s[r.value] == c && c !in s[..r.value]
    ensures r.None? <==> c !in s
  {
    if |s| == 0 then None
    else if s[0] == c then Some(0)
    else match IndexOf(s[1..], c)
      case None => None
      case Some(i) => assert s[1..][..i] == s[1..i + 1]; Some(i + 1)
  }

  /** `s.split(sep, 1)` when `sep` occurs: the text before and after its first occurrence. */
  function SplitOnce(s: string, sep: char): (r: Option<(string, string)>)
    ensures r.None? <==> sep !in s
    ensures r.Some? ==> s == r.value.0 + [sep] + r.value.1 && sep !in r.value.0
  {
    match IndexOf(s, sep)
    case None => None
    case Some(i) =>
      assert s == s[..i] + [sep] + s[i + 1..];
      Some((s[..i], s[i + 1..]))
  }

  lemma {:induction false} IndexOfPrefix(a: string, sep: char, b: string)
    requires sep !in a
    ensures IndexOf(a + [sep] + b, sep) == Some(|a|)
  {
    if |a| > 0 {
      assert (a + [sep] + b)[1..] == a[1..] + [sep] + b;
      IndexOfPrefix(a[1..], sep, b);
    }
  }

  /** Splitting `a + [sep] + b` on its first `sep` gives back `a` and `b`. */
  lemma SplitOnceJoin(a: string, sep: char, b: string)
    requires sep !in a
    ensures SplitOnce(a + [sep] + b, sep) == Some((a, b))
  {
    var s := a + [sep] + b;
    IndexOfPrefix(a, sep, b);
    assert s[..|a|] == a;
    assert s[|a| + 1..] == b;
  }
}
