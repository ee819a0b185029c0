/** The two JavaScript string primitives the chat client relies on:
    `String.prototype.trim` and `length` (counted in UTF-16 code units). */
module JsString {

  /** WhiteSpace and LineTerminator code points as ECMAScript's `trim`
      strips them: TAB, VT, FF, SPACE, NBSP, ZWNBSP, the Zs category,
      LF, CR, LS and PS. */
  predicate IsWhitespace(c: char) {
    || c == '\t' || c == '\U{000B}' || c == '\U{000C}' || c == ' '
    || c == '\U{00A0}' || c == '\U{FEFF}'
    || c == '\U{1680}' || ('\U{2000}' <= c <= '\U{200A}')
    || c == '\U{202F}' || c == '\U{205F}' || c == '\U{3000}'
    || c == '\n' || c == '\r' || c == '\U{2028}' || c == '\U{2029}'
  }

  /** A string that `trim` empties: every character is whitespace. */
  predicate Blank(s: string) {
    forall i :: 0 <= i < |s| ==> IsWhitespace(s[i])
  }

  /** The first index at or after `i` whose character is not whitespace,
      or `|s|` if there is none. */
  function SkipLeading(s: string, i: nat): (n: nat)
    requires i <= |s|
    ensures i <= n <= |s|
    ensures forall k :: i <= k < n ==> IsWhitespace(s[k])
    ensures n < |s| ==> !IsWhitespace(s[n])
    decreases |s| - i
  {
    if i < |s| && IsWhitespace(s[i]) then SkipLeading(s, i + 1) else i
  }

  /** The index just past the last character of `s[lo..j]` that is not
      whitespace, or `lo` if there is none. */
  function SkipTrailing(s: string, lo: nat, j: nat): (n: nat)
    requires lo <= j <= |s|
    ensures lo <= n <= j
    ensures forall k :: n <= k < j ==> IsWhitespace(s[k])
    ensures n > lo ==> !IsWhitespace(s[n - 1])
  {
    if j > lo && IsWhitespace(s[j - 1]) then SkipTrailing(s, lo, j - 1) else j
  }

  /** `s` without its leading whitespace: a suffix of `s` that starts with a
      non-whitespace character, and what was dropped is blank. */
  function TrimStart(s: string): (r: string)
    ensures |r| <= |s| && r == s[|s| - |r|..]
    ensures Blank(s[..|s| - |r|])
    ensures r == [] || !IsWhitespace(r[0])
  {
    s[SkipLeading(s, 0)..]
  }

  /** `s` without its trailing whitespace: a prefix of `s` that ends with a
      non-whitespace character, and what was dropped is blank. */
  function TrimEnd(s: string): (r: string)
    ensures |r| <= |s| && r == s[..|r|]
    ensures Blank(s[|r|..])
    ensures r == [] || !IsWhitespace(r[|r| - 1])
  {
    s[..SkipTrailing(s, 0, |s|)]
  }

  /** `String.prototype.trim`: the infix of `s` between its leading and its
      trailing whitespace, both of which are blank. It is empty exactly when
      `s` is blank, and otherwise starts and ends with non-whitespace. */
  function Trim(s: string): (r: string)
    ensures var start := |s| - |TrimStart(s)|;
      start + |r| <= |s| && r == s[start..start + |r|] && Blank(s[start + |r|..])
    ensures r == [] <==> Blank(s)
    ensures r != [] ==> !IsWhitespace(r[0]) && !IsWhitespace(r[|r| - 1])
  {
    var a := SkipLeading(s, 0);
    var b := SkipTrailing(s, a, |s|);
    s[a..b]
  }

  /** `trim` removes both ends: it is `TrimEnd` after `TrimStart`. */
  lemma TrimIsBothEnds(s: string)
    ensures Trim(s) == TrimEnd(TrimStart(s))
  {
    var a := SkipLeading(s, 0);
    var t := s[a..];
    var b, c := SkipTrailing(s, a, |s|), SkipTrailing(t, 0, |t|);
    assert forall k :: 0 <= k < |t| ==> t[k] == s[a + k];
    assert t[..c] == s[a..b];
  }

  /** Number of UTF-16 code units JavaScript's `length` reports: code points
      above U+FFFF take a surrogate pair. */
  function Utf16Length(s: string): (n: nat)
    ensures |s| <= n <= 2 * |s|
  {
    if s == [] then 0
    else Utf16Length(s[..|s| - 1]) + (if s[|s| - 1] as int > 0xFFFF then 2 else 1)
  }

  /** `length` adds up over concatenation. */
  lemma {:induction false} Utf16LengthAppend(a: string, b: string)
    ensures Utf16Length(a + b) == Utf16Length(a) + Utf16Length(b)
    decreases |b|
  {
    if b != [] {
      var b' := b[..|b| - 1];
      assert (a + b)[..|a + b| - 1] == a + b';
      Utf16LengthAppend(a, b');
    } else {
      assert a + b == a;
    }
  }
}
