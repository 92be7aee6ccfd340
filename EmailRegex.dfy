/**
 * The email format test `/^\S+@\S+\.\S+$/.test(s)` shared by the register,
 * login and contact forms.
 *
 * `InPattern` is the language of the pattern read off its structure: a
 * non-empty run of non-whitespace, an '@', another run, a '.', a third run,
 * anchored at both ends. `Test` decides it without backtracking, and
 * `TestIffPattern` proves the two agree on every string.
 */
module EmailRegex {
  import opened JsText

  /** `\S+`: a non-empty run of non-whitespace characters. */
  predicate NonWsRun(s: string) {
    |s| > 0 && NoWs(s)
  }

  /** The split of `s` at an '@' at index `at` and a '.' at index `dot` that the pattern needs. */
  predicate SplitsAt(s: string, at: int, dot: int) {
    0 <= at < dot < |s| && s[at] == '@' && s[dot] == '.' &&
    NonWsRun(s[..at]) && NonWsRun(s[at + 1..dot]) && NonWsRun(s[dot + 1..])
  }

  /** `s` is in the language of `^\S+@\S+\.\S+$`. */
  ghost predicate InPattern(s: string) {
    exists at, dot :: SplitsAt(s, at, dot)
  }

  /** The index of the first `c` in `s` at or after `from`, or `|s|` when there is none. */
  function FirstIndex(s: string, c: char, from: nat): (r: nat)
    requires from <= |s|
    ensures from <= r <= |s|
    ensures r < |s| ==> s[r] == c
    ensures forall k :: from <= k < r ==> s[k] != c
    decreases |s| - from
  {
    if from == |s| || s[from] == c then from else FirstIndex(s, c, from + 1)
  }

  /** The index of the last `c` in `s[..upto]`, or -1 when there is none. */
  function LastIndex(s: string, c: char, upto: nat): (r: int)
    requires upto <= |s|
    ensures -1 <= r < upto
    ensures r >= 0 ==> s[r] == c
    ensures forall k :: r < k < upto ==> s[k] != c
  {
    if upto == 0 then -1
    else if s[upto - 1] == c then upto - 1
    else LastIndex(s, c, upto - 1)
  }

  /**
   * `RegExp.prototype.test` for the email pattern. Since `\S` also matches
   * '@' and '.', the string matches when it has no whitespace and the
   * earliest '@' after the first character lies at least two places before
   * the last '.' that precedes the final character.
   */
  predicate Test(s: string) {
    |s| > 0 && NoWs(s) &&
    var at := FirstIndex(s, '@', 1);
    var dot := LastIndex(s, '.', |s| - 1);
    at < |s| && at + 1 < dot
  }

  /** The decision procedure and the pattern's language agree on every string. */
  lemma TestIffPattern(s: string)
    ensures Test(s) <==> InPattern(s)
  {
    if Test(s) {
      var at := FirstIndex(s, '@', 1);
      var dot := LastIndex(s, '.', |s| - 1);
      assert SplitsAt(s, at, dot);
    }
    if InPattern(s) {
      var at, dot :| SplitsAt(s, at, dot);
      var first := FirstIndex(s, '@', 1);
      var last := LastIndex(s, '.', |s| - 1);
      assert first <= at;
      assert dot <= last;
    }
  }

  /** A string the pattern accepts is never blank, so its `trim()` is truthy. */
  lemma PatternNotBlank(s: string)
    ensures InPattern(s) ==> s != "" && !IsBlank(s) && Trim(s) != ""
  {
  }

  /** The decision on the examples the form's placeholder and common typos suggest. */
  lemma Examples()
    ensures Test("a@b.c") && Test("you@example.com")
    ensures !Test("a@b") && !Test("@b.c") && !Test("a @b.c") && !Test("a@.c") && !Test("a@b.")
  {
    assert SplitsAt("a@b.c", 1, 3);
    assert SplitsAt("you@example.com", 3, 11);
    TestIffPattern("a@b.c");
    TestIffPattern("you@example.com");
  }
}
