/**
 * Whitespace trimming as performed by ECMAScript's `String.prototype.trim`,
 * which the checkout form applies to every field before checking it and
 * before submitting it.
 */
module Text {

  /**
   * The characters `trim` removes: the WhiteSpace and LineTerminator code
   * points of ECMAScript (tab, line tabulation, form feed, space, no-break
   * space, byte-order mark, the Unicode space separators, and the four line
   * terminators).
   */
  predicate IsWhitespace(c: char) {
    || c == '\t' || c == '\n' || c == '\U{000B}' || c == '\U{000C}' || c == '\r'
    || c == ' ' || c == '\U{00A0}' || c == '\U{1680}'
    || ('\U{2000}' <= c <= '\U{200A}')
    || c == '\U{2028}' || c == '\U{2029}' || c == '\U{202F}' || c == '\U{205F}'
    || c == '\U{3000}' || c == '\U{FEFF}'
  }

  /** A string made of whitespace only (the empty string included). */
  predicate IsBlank(s: string) {
    forall i | 0 <= i < |s| :: IsWhitespace(s[i])
  }

  /** The index of the first non-whitespace character of s at or after i, or |s| if there is none. */
  function SkipLeading(s: string, i: nat): (k: nat)
    requires i <= |s|
    ensures i <= k <= |s|
    ensures forall j | i <= j < k :: IsWhitespace(s[j])
    ensures k == |s| || !IsWhitespace(s[k])
    decreases |s| - i
  {
    if i < |s| && IsWhitespace(s[i]) then SkipLeading(s, i + 1) else i
  }

  /**
   * The end of s[lo..j] once its trailing whitespace is dropped: the least k
   * in [lo, j] such that s[k..j] is all whitespace.
   */
  function SkipTrailing(s: string, lo: nat, j: nat): (k: nat)
    requires lo <= j <= |s|
    ensures lo <= k <= j
    ensures forall m | k <= m < j :: IsWhitespace(s[m])
    ensures k == lo || !IsWhitespace(s[k - 1])
  {
    if lo < j && IsWhitespace(s[j - 1]) then SkipTrailing(s, lo, j - 1) else j
  }

  /**
   * `s.trim()`: the slice s[a..b] left once the whitespace at both ends is
   * cut off. The cut-off margins are blank, the result does not begin or end
   * with whitespace, and it is empty exactly when `s` is blank (which is
   * when JavaScript treats `s.trim()` as false).
   */
  function Trim(s: string): (r: string)
    ensures |r| <= |s|
    ensures var a := SkipLeading(s, 0); var b := SkipTrailing(s, a, |s|);
      && r == s[a..b]
      && (forall j | 0 <= j < a :: IsWhitespace(s[j]))
      && (forall j | b <= j < |s| :: IsWhitespace(s[j]))
    ensures r == [] <==> IsBlank(s)
    ensures r == [] || (!IsWhitespace(r[0]) && !IsWhitespace(r[|r| - 1]))
  {
    var a := SkipLeading(s, 0);
    var b := SkipTrailing(s, a, |s|);
    s[a..b]
  }

  /** Trimming twice is trimming once: a trimmed string is left as it is. */
  lemma TrimIdempotent(s: string)
    ensures Trim(Trim(s)) == Trim(s)
  {
    var t := Trim(s);
    if t != [] {
      assert SkipLeading(t, 0) == 0;
      assert SkipTrailing(t, 0, |t|) == |t|;
    }
  }

  /**
   * How many UTF-16 code units JavaScript's `.length` counts for c: two for
   * a character outside the Basic Multilingual Plane (stored as a surrogate
   * pair), one for any other.
   */
  function CodeUnits(c: char): nat {
    if c >= '\U{10000}' then 2 else 1
  }

  /** `s.length` in JavaScript: the number of UTF-16 code units of s, between |s| and 2|s|. */
  function Utf16Length(s: string): (n: nat)
    ensures |s| <= n <= 2 * |s|
  {
    if s == [] then 0 else CodeUnits(s[0]) + Utf16Length(s[1..])
  }

  /** Every character of s lies in the Basic Multilingual Plane. */
  predicate IsBmp(s: string) {
    forall i | 0 <= i < |s| :: s[i] < '\U{10000}'
  }

  /** For a string of Basic Multilingual Plane characters, JavaScript's length is the number of characters. */
  lemma {:induction false} BmpLength(s: string)
    requires IsBmp(s)
    ensures Utf16Length(s) == |s|
  {
    if s != [] {
      assert IsBmp(s[1..]);
      BmpLength(s[1..]);
    }
  }
}
