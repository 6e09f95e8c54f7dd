/** The string primitives the chat widget relies on: `String.prototype.trim`,
    `String.prototype.toLowerCase` (restricted to ASCII letters) and
    `String.prototype.includes`. */
module Text {

  /** The characters `trim` removes: ECMAScript WhiteSpace (tab, vertical tab,
      form feed, space, no-break space, byte order mark and every other
      space separator) and LineTerminator (LF, CR, LS, PS). */
  predicate IsWhitespace(c: char) {
    c == '\t' || c == '\n' || c == '\U{B}' || c == '\U{C}' || c == '\r' || c == ' '
    || c == '\U{A0}' || c == '\U{1680}' || ('\U{2000}' <= c <= '\U{200A}')
    || c == '\U{2028}' || c == '\U{2029}' || c == '\U{202F}' || c == '\U{205F}'
    || c == '\U{3000}' || c == '\U{FEFF}'
  }

  /** The first position at or after `i` that does not hold whitespace, or
      `|s|` when there is none. */
  function StartOfText(s: string, i: nat): (j: nat)
    requires i <= |s|
    ensures i <= j <= |s|
    ensures forall k :: i <= k < j ==> IsWhitespace(s[k])
    ensures j == |s| || !IsWhitespace(s[j])
    decreases |s| - i
  {
    if i < |s| && IsWhitespace(s[i]) then StartOfText(s, i + 1) else i
  }

  /** The position just after the last character of `s[lo..hi]` that is not
      whitespace, or `lo` when there is none. */
  function EndOfText(s: string, lo: nat, hi: nat): (j: nat)
    requires lo <= hi <= |s|
    ensures lo <= j <= hi
    ensures forall k :: j <= k < hi ==> IsWhitespace(s[k])
    ensures j == lo || !IsWhitespace(s[j - 1])
    decreases hi - lo
  {
    if lo < hi && IsWhitespace(s[hi - 1]) then EndOfText(s, lo, hi - 1) else hi
  }

  /** `s.trim()`: the characters between the first and the last character
      that are not whitespace. */
  function Trim(s: string): string {
    var i := StartOfText(s, 0);
    s[i..EndOfText(s, i, |s|)]
  }

  /** A string `trim` leaves as it is. */
  predicate IsTrimmed(s: string) {
    s == [] || (!IsWhitespace(s[0]) && !IsWhitespace(s[|s| - 1]))
  }

  /** `t` is `s[i..j]` and everything of `s` outside it is whitespace. */
  ghost predicate WhitespaceAround(s: string, t: string, i: int, j: int) {
    0 <= i <= j <= |s| && t == s[i..j]
    && (forall k :: 0 <= k < i ==> IsWhitespace(s[k]))
    && (forall k :: j <= k < |s| ==> IsWhitespace(s[k]))
  }

  /** `trim` yields a contiguous piece of its input, surrounded only by
      whitespace, that neither starts nor ends with whitespace. */
  lemma TrimIsInnerSlice(s: string)
    ensures exists i, j :: WhitespaceAround(s, Trim(s), i, j)
    ensures IsTrimmed(Trim(s))
  {
    var i := StartOfText(s, 0);
    var j := EndOfText(s, i, |s|);
    assert WhitespaceAround(s, Trim(s), i, j);
  }

  /** A message is rejected by the chat shell exactly when it is made of
      whitespace only (the empty string included). */
  lemma TrimEmptyIff(s: string)
    ensures Trim(s) == [] <==> forall k :: 0 <= k < |s| ==> IsWhitespace(s[k])
  {
    var i := StartOfText(s, 0);
    if i < |s| {
      assert |Trim(s)| > 0;
    }
  }

  /** Trimming twice is trimming once. */
  lemma TrimIdempotent(s: string)
    ensures Trim(Trim(s)) == Trim(s)
  {
    TrimIsInnerSlice(s);
    TrimTrimmed(Trim(s));
  }

  /** `trim` leaves a trimmed string unchanged. */
  lemma TrimTrimmed(t: string)
    requires IsTrimmed(t)
    ensures Trim(t) == t
  {
    assert StartOfText(t, 0) == 0;
    if t != [] {
      assert EndOfText(t, 0, |t|) == |t|;
    }
  }

  /** ASCII `toLowerCase` of one character. */
  function LowerChar(c: char): char {
    if 'A' <= c <= 'Z' then (c as int + 32) as char else c
  }

  /** The capital letters and the small letters, in alphabetical order. */
  const Capitals := "ABCDEFGHIJKLMNOPQRSTUVWXYZ"
  const Smalls := "abcdefghijklmnopqrstuvwxyz"

  /** Lower-casing sends each capital letter to the small letter at the same
      place in the alphabet and leaves every other character alone. */
  lemma LowerCharAlphabet(c: char)
    ensures forall k :: 0 <= k < 26 && c == Capitals[k] ==> LowerChar(c) == Smalls[k]
    ensures c !in Capitals ==> LowerChar(c) == c
  {
  }

  /** `s.toLowerCase()`, restricted to ASCII letters: every character is
      lowered, in place. */
  function ToLower(s: string): string {
    seq(|s|, i requires 0 <= i < |s| => LowerChar(s[i]))
  }

  /** Lower-casing is idempotent. */
  lemma ToLowerIdempotent(s: string)
    ensures ToLower(ToLower(s)) == ToLower(s)
  {
  }

  /** Two strings that differ only in the case of their letters. */
  predicate SameIgnoringCase(a: string, b: string) {
    |a| == |b| && forall k :: 0 <= k < |a| ==> LowerChar(a[k]) == LowerChar(b[k])
  }

  /** Strings equal up to letter case lower to the same string, and only they. */
  lemma SameIgnoringCaseIff(a: string, b: string)
    ensures SameIgnoringCase(a, b) <==> ToLower(a) == ToLower(b)
  {
    if ToLower(a) == ToLower(b) {
      assert forall k :: 0 <= k < |a| ==> LowerChar(a[k]) == ToLower(a)[k];
    }
  }

  /** `k` occurs in `s` starting at position `i`. */
  predicate OccursAt(s: string, k: string, i: int) {
    0 <= i <= |s| - |k| && s[i..i + |k|] == k
  }

  /** `s.includes(k)`: `k` occurs at some position of `s`. */
  predicate Includes(s: string, k: string) {
    exists i | 0 <= i <= |s| - |k| :: OccursAt(s, k, i)
  }

  /** Lower-casing preserves containment: if the message contains a keyword
      written in any letter case, its lower-cased form contains the lower-cased
      keyword. */
  lemma IncludesLowered(s: string, w: string)
    requires Includes(s, w)
    ensures Includes(ToLower(s), ToLower(w))
  {
    var i :| 0 <= i <= |s| - |w| && OccursAt(s, w, i);
    assert ToLower(s)[i..i + |w|] == ToLower(w) by {
      forall k | 0 <= k < |w| ensures ToLower(s)[i..i + |w|][k] == ToLower(w)[k] {
        assert s[i..i + |w|][k] == w[k];
      }
    }
    assert OccursAt(ToLower(s), ToLower(w), i);
  }

  /** No character of `s`, lower-cased, is `c`. */
  predicate LacksCharIgnoringCase(s: string, c: char) {
    forall i :: 0 <= i < |s| ==> LowerChar(s[i]) != c
  }

  /** No two adjacent characters of `s`, lower-cased, are `c` then `d`. */
  predicate LacksPairIgnoringCase(s: string, c: char, d: char) {
    forall i :: 0 <= i < |s| - 1 ==> !(LowerChar(s[i]) == c && LowerChar(s[i + 1]) == d)
  }

  /** A message that lacks, in any case, some character of a keyword does not
      contain the keyword once lower-cased. */
  lemma MissingCharExcludes(s: string, k: string, p: nat)
    requires p < |k| && LacksCharIgnoringCase(s, k[p])
    ensures !Includes(ToLower(s), k)
  {
  }

  /** No character of `s` between positions `lo` (included) and `hi`
      (excluded), lower-cased, is `c`. */
  predicate LacksCharInWindow(s: string, c: char, lo: int, hi: int) {
    forall i :: lo <= i < hi && 0 <= i < |s| ==> LowerChar(s[i]) != c
  }

  /** Character `q` of a keyword can only land between positions `q` and
      `|s| - |k| + q` of the message; a message whose lower-cased form lacks
      that character there does not contain the keyword. */
  lemma MissingCharInWindow(s: string, k: string, q: nat)
    requires q < |k| && LacksCharInWindow(s, k[q], q, |s| - |k| + q + 1)
    ensures !Includes(ToLower(s), k)
  {
  }

  /** A message that lacks, in any case, some two adjacent characters of a
      keyword does not contain the keyword once lower-cased. */
  lemma MissingPairExcludes(s: string, k: string, p: nat)
    requires p + 1 < |k| && LacksPairIgnoringCase(s, k[p], k[p + 1])
    ensures !Includes(ToLower(s), k)
  {
  }

  /** A string without upper-case ASCII letters is its own lower-case form. */
  lemma LowerCaseFixed(w: string)
    requires forall i :: 0 <= i < |w| ==> !('A' <= w[i] <= 'Z')
    ensures ToLower(w) == w
  {
  }
}
