/** The few pieces of JavaScript string semantics the components rely on:
    `String.prototype.trim`, the truthiness of a trimmed string, a
    `substring`-based caption cut and the `\w` character class of a regular
    expression. Strings are sequences of characters; one character stands
    for one Unicode code point (see README, Left out). */
module JsText {

  /** The characters `trim()` removes: ECMAScript WhiteSpace and
      LineTerminator (tab, line feed, vertical tab, form feed, carriage
      return, space, no-break space, the Unicode space separators, the line
      and paragraph separators and the byte order mark). */
  predicate IsWhitespace(c: char) {
    c == '\t' || c == '\n' || c == '\U{000B}' || c == '\U{000C}' || c == '\r'
    || c == ' ' || c == '\U{00A0}' || c == '\U{1680}'
    || ('\U{2000}' <= c <= '\U{200A}')
    || c == '\U{2028}' || c == '\U{2029}' || c == '\U{202F}' || c == '\U{205F}'
    || c == '\U{3000}' || c == '\U{FEFF}'
  }

  /** Drops the leading whitespace: the result is the suffix of `s` that
      starts at its first non-whitespace character. */
  function TrimStart(s: string): (r: string)
    ensures |r| <= |s| && r == s[|s| - |r|..]
    ensures forall i :: 0 <= i < |s| - |r| ==> IsWhitespace(s[i])
    ensures |r| > 0 ==> !IsWhitespace(r[0])
  {
    if |s| > 0 && IsWhitespace(s[0]) then TrimStart(s[1..]) else s
  }

  /** Drops the trailing whitespace: the result is the prefix of `s` that
      ends at its last non-whitespace character. */
  function TrimEnd(s: string): (r: string)
    ensures |r| <= |s| && r == s[..|r|]
    ensures forall i :: |r| <= i < |s| ==> IsWhitespace(s[i])
    ensures |r| > 0 ==> !IsWhitespace(r[|r| - 1])
  {
    if |s| > 0 && IsWhitespace(s[|s| - 1]) then TrimEnd(s[..|s| - 1]) else s
  }

  /** `s.trim()` */
  function Trim(s: string): string {
    TrimEnd(TrimStart(s))
  }

  /** `!s.trim()`: the trimmed string is the empty, falsy string. */
  predicate IsBlank(s: string) {
    Trim(s) == ""
  }

  /** A string is blank exactly when every one of its characters is
      whitespace; in particular "" is blank. */
  lemma BlankIffAllWhitespace(s: string)
    ensures IsBlank(s) <==> forall i :: 0 <= i < |s| ==> IsWhitespace(s[i])
  {
    var t := TrimStart(s);
    if !forall i :: 0 <= i < |s| ==> IsWhitespace(s[i]) {
      var j :| 0 <= j < |s| && !IsWhitespace(s[j]);
      assert |s| - |t| <= j;
      assert t[j - (|s| - |t|)] == s[j];
      assert Trim(s) != "";
    }
  }

  /** The caption cut of both avatars: `s.length > k ? s.substring(0, k) + '...' : s`. */
  function Truncate(s: string, k: nat): (r: string)
    ensures |r| <= k + 3
    ensures |s| <= k ==> r == s
    ensures |s| > k ==> |r| == k + 3 && r[..k] == s[..k] && r[k..] == "..."
  {
    if |s| > k then s[..k] + "..." else s
  }

  /** A character of the regular-expression class `\w`: an ASCII letter, an
      ASCII digit or the underscore. */
  predicate IsWordChar(c: char) {
    ('a' <= c <= 'z') || ('A' <= c <= 'Z') || ('0' <= c <= '9') || c == '_'
  }

  /** `toUpperCase()` of one `\w` character: lower-case ASCII letters move to
      upper case, every other word character is its own upper case. */
  function ToUpper(c: char): (u: char)
    ensures 'a' <= c <= 'z' ==> 'A' <= u <= 'Z' && u as int == c as int - 32
    ensures !('a' <= c <= 'z') ==> u == c
    ensures IsWordChar(c) <==> IsWordChar(u)
  {
    if 'a' <= c <= 'z' then (c as int - 32) as char else c
  }
}
