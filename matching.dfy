/**
 * Title matching shared by the marketplace providers: whitespace
 * tokenisation of a keyword, a token standing alone between characters of
 * the egun.de letter class, a whole-word match between `\b` word
 * boundaries, and the "HH:MM Uhr" clock pattern that keeps the keyword
 * "uhr" from matching a time of day.  Text is lower-cased ASCII; Unicode
 * normalisation and case folding reduce to `Lower`.
 */
module Matching {
  import opened Chars

  // ---------------------------------------------------------------------
  // Tokens
  // ---------------------------------------------------------------------

  predicate NoSpace(s: string) { forall k :: 0 <= k < |s| ==> !IsSpace(s[k]) }

  predicate AllSpace(s: string) { forall k :: 0 <= k < |s| ==> IsSpace(s[k]) }

  /** End of the run of non-space characters starting at `i`. */
  function WordEnd(s: string, i: nat): (j: nat)
    requires i <= |s|
    decreases |s| - i
    ensures i <= j <= |s|
    ensures forall k :: i <= k < j ==> !IsSpace(s[k])
    ensures j < |s| ==> IsSpace(s[j])
  {
    if i < |s| && !IsSpace(s[i]) then WordEnd(s, i + 1) else i
  }

  /** `[t for t in re.split(r"\s+", s) if t]`, which is also `s.split()`. */
  function Tokens(s: string): (r: seq<string>)
    decreases |s|
    ensures forall k :: 0 <= k < |r| ==> r[k] != "" && NoSpace(r[k])
  {
    if |s| == 0 then []
    else if IsSpace(s[0]) then Tokens(s[1..])
    else
      var j := WordEnd(s, 0);
      assert NoSpace(s[..j]) by {
        forall k | 0 <= k < j ensures !IsSpace(s[..j][k]) {
          assert s[..j][k] == s[k];
        }
      }
      [s[..j]] + Tokens(s[j..])
  }

  /** There are no tokens exactly when the text is all whitespace. */
  lemma {:induction false} TokensEmpty(s: string)
    decreases |s|
    ensures Tokens(s) == [] <==> AllSpace(s)
  {
    if |s| > 0 && IsSpace(s[0]) {
      TokensEmpty(s[1..]);
      assert AllSpace(s) <==> AllSpace(s[1..]) by {
        assert forall k :: 0 < k < |s| ==> s[k] == s[1..][k - 1];
        if AllSpace(s[1..]) {
          forall k | 0 <= k < |s| ensures IsSpace(s[k]) {
            if k > 0 { assert s[k] == s[1..][k - 1]; }
          }
        }
      }
    }
  }

  /** A single word between optional spaces is its own only token. */
  lemma TokensOfWord(w: string)
    requires w != "" && NoSpace(w)
    ensures Tokens(w) == [w]
  {
    WordEndAll(w, 0);
    assert w[..|w|] == w;
    assert w[|w|..] == [];
  }

  lemma {:induction false} WordEndAll(s: string, i: nat)
    requires i <= |s| && NoSpace(s)
    decreases |s| - i
    ensures WordEnd(s, i) == |s|
  {
    if i < |s| {
      WordEndAll(s, i + 1);
    }
  }

  /** Lower-casing keeps whitespace where it is. */
  lemma LowerAllSpace(s: string)
    requires AllSpace(s)
    ensures AllSpace(Lower(s))
  {
    forall k | 0 <= k < |s| ensures IsSpace(Lower(s)[k]) {
      LowerAt(s, k);
    }
  }

  // ---------------------------------------------------------------------
  // A token between egun.de letter-class boundaries
  // ---------------------------------------------------------------------

  /** `[0-9a-zA-Zäöüß]`: the characters that may not touch a token. */
  predicate IsTokenChar(c: char)
  {
    IsDigit(c) || IsUpper(c) || IsLowerLetter(c)
    || c == '\U{E4}' || c == '\U{F6}' || c == '\U{FC}' || c == '\U{DF}'
  }

  predicate TokenCharAt(s: string, p: int)
  {
    0 <= p < |s| && IsTokenChar(s[p])
  }

  /** The lookbehind/lookahead pattern matches at `i`: the token there, no letter-class character beside it. */
  predicate BoundedAt(s: string, token: string, i: int)
  {
    OccursAt(s, token, i) && !TokenCharAt(s, i - 1) && !TokenCharAt(s, i + |token|)
  }

  predicate HasBounded(s: string, token: string)
  {
    exists i | 0 <= i <= |s| :: BoundedAt(s, token, i)
  }

  // ---------------------------------------------------------------------
  // Whole words between `\b` boundaries
  // ---------------------------------------------------------------------

  predicate WordCharAt(s: string, p: int)
  {
    0 <= p < |s| && IsWordChar(s[p])
  }

  /** `\b` at position `p`: a word character on exactly one side. */
  predicate WordBoundary(s: string, p: int)
  {
    WordCharAt(s, p - 1) != WordCharAt(s, p)
  }

  /** `\bw\b` matches at `i`. */
  predicate WholeWordAt(s: string, w: string, i: int)
  {
    OccursAt(s, w, i) && WordBoundary(s, i) && WordBoundary(s, i + |w|)
  }

  predicate HasWholeWord(s: string, w: string)
  {
    exists i | 0 <= i <= |s| :: WholeWordAt(s, w, i)
  }

  // ---------------------------------------------------------------------
  // The clock pattern
  // ---------------------------------------------------------------------

  /**
   * `\b\d{1,2}:\d{2}\s*uhr\b` (or `\s+` with `minSpaces` = 1) matches at
   * `i` with `d` hour digits and `k` spaces before "uhr".
   */
  predicate ClockUhrAt(s: string, i: int, d: int, k: int, minSpaces: nat)
  {
    var colon := i + d;
    var gap := colon + 3;
    var word := gap + k;
    && 0 <= i && 1 <= d <= 2 && minSpaces <= k && word + 3 <= |s|
    && WordBoundary(s, i) && AllDigits(s[i..colon]) && s[colon] == ':'
    && AllDigits(s[colon + 1..gap]) && AllSpace(s[gap..word])
    && s[word..word + 3] == "uhr" && WordBoundary(s, word + 3)
  }

  predicate HasClockUhr(s: string, minSpaces: nat)
  {
    exists i, d, k | 0 <= i <= |s| && 1 <= d <= 2 && 0 <= k <= |s| :: ClockUhrAt(s, i, d, k, minSpaces)
  }

  /** Without a colon there is no clock time. */
  lemma NoColonNoClock(s: string, minSpaces: nat)
    requires ':' !in s
    ensures !HasClockUhr(s, minSpaces)
  {
  }

  /** A time like "12:00" followed by " uhr" is the clock pattern, with `\s*` and with `\s+`. */
  lemma ClockUhrSpaced()
    ensures HasClockUhr("12:00 uhr start", 1) && HasClockUhr("12:00 uhr start", 0)
  {
    var s := "12:00 uhr start";
    assert s[0..2] == "12" && s[3..5] == "00" && s[5..6] == " " && s[6..9] == "uhr";
    assert ClockUhrAt(s, 0, 2, 1, 1);
    assert ClockUhrAt(s, 0, 2, 1, 0);
  }

  /** Without a space the pattern still matches under `\s*`. */
  lemma ClockUhrUnspaced()
    ensures HasClockUhr("am 7:05uhr", 0)
  {
    var t := "am 7:05uhr";
    assert t[3..4] == "7" && t[5..7] == "05" && t[7..7] == "" && t[7..10] == "uhr";
    assert ClockUhrAt(t, 3, 1, 0, 0);
  }
}
