/**
 * The parts of JavaScript string semantics the form validators rely on:
 * the whitespace set shared by `String.prototype.trim` and the regular
 * expression class `\S`, string truthiness, and `trim` itself.
 *
 * Strings are sequences of characters; `.length` is the sequence length.
 */
module JsText {

  /**
   * WhiteSpace and LineTerminator of ECMA-262 (sections 12.2 and 12.3 of
   * the 2023 edition): TAB, VT, FF, ZWNBSP, every Unicode "Zs" space
   * separator, and LF, CR, LS, PS. `trim` strips exactly these, and
   * `\s` matches exactly these.
   */
  predicate IsWs(c: char) {
    c == '\t' || c == '\U{000B}' || c == '\U{000C}' || c == '\U{FEFF}'
    // Zs: space separators
    || c == ' ' || c == '\U{00A0}' || c == '\U{1680}'
    || ('\U{2000}' <= c <= '\U{200A}')
    || c == '\U{202F}' || c == '\U{205F}' || c == '\U{3000}'
    // line terminators
    || c == '\n' || c == '\r' || c == '\U{2028}' || c == '\U{2029}'
  }

  /** Every character of `s` is whitespace (vacuously true of ""). */
  predicate IsBlank(s: string) {
    forall k :: 0 <= k < |s| ==> IsWs(s[k])
  }

  /** No character of `s` is whitespace. */
  predicate NoWs(s: string) {
    forall k :: 0 <= k < |s| ==> !IsWs(s[k])
  }

  /** ToBoolean on a string: only the empty string is falsy. */
  predicate Truthy(s: string) {
    s != ""
  }

  /** `r` occurs in `s` at index `p`, and everything in `s` before and after it is whitespace. */
  predicate StrippedAt(r: string, s: string, p: int) {
    0 <= p <= |s| - |r| && r == s[p..p + |r|] &&
    (forall k :: 0 <= k < p ==> IsWs(s[k])) && (forall k :: p + |r| <= k < |s| ==> IsWs(s[k]))
  }

  /** Whitespace in front of `s` extends what is stripped before `r`. */
  lemma StrippedPrepend(r: string, s: string, p: int)
    requires s != "" && IsWs(s[0]) && StrippedAt(r, s[1..], p)
    ensures StrippedAt(r, s, p + 1)
  {
  }

  /** Whitespace at the end of `s` extends what is stripped after `r`. */
  lemma StrippedAppend(r: string, s: string, p: int)
    requires s != "" && IsWs(s[|s| - 1]) && StrippedAt(r, s[..|s| - 1], p)
    ensures StrippedAt(r, s, p)
  {
  }

  /** Stripping whitespace from both ends leaves nothing exactly when the string is blank. */
  lemma StrippedEmptyIffBlank(r: string, s: string, p: int)
    requires StrippedAt(r, s, p)
    requires r != "" ==> !IsWs(r[0])
    ensures r == "" <==> IsBlank(s)
  {
  }

  /**
   * `String.prototype.trim`: `s` with its leading and trailing whitespace
   * removed. The result is an infix of `s` with only whitespace around it
   * and neither starts nor ends with whitespace, so it is empty exactly
   * when `s` is blank: `!s.trim()` holds exactly of the blank strings.
   */
  function Trim(s: string): (r: string)
    ensures exists p :: StrippedAt(r, s, p)
    ensures r != "" ==> !IsWs(r[0]) && !IsWs(r[|r| - 1])
    ensures r == "" <==> IsBlank(s)
  {
    var r :=
      if s != "" && IsWs(s[0]) then
        var r := Trim(s[1..]);
        var p :| StrippedAt(r, s[1..], p);
        StrippedPrepend(r, s, p);
        r
      else if s != "" && IsWs(s[|s| - 1]) then
        var r := Trim(s[..|s| - 1]);
        var p :| StrippedAt(r, s[..|s| - 1], p);
        StrippedAppend(r, s, p);
        r
      else
        assert StrippedAt(s, s, 0);
        s;
    var p :| StrippedAt(r, s, p);
    StrippedEmptyIffBlank(r, s, p);
    r
  }
}
