/** The one string primitive the handler relies on: `String.prototype.endsWith`. */
module JsString {

  /** `s.endsWith(suffix)` with no position argument: the last `|suffix|`
      characters of `s` are exactly `suffix` (and `s` is at least that long). */
  predicate EndsWith(s: string, suffix: string) {
    |suffix| <= |s| && s[|s| - |suffix|..] == suffix
  }

  /** Appending a suffix makes the result end with it. */
  lemma EndsWithAppend(p: string, suffix: string)
    ensures EndsWith(p + suffix, suffix)
  {
  }

  /** `endsWith` agrees with the algebraic reading "s is something followed by suffix". */
  lemma {:induction false} EndsWithIffSplit(s: string, suffix: string)
    ensures EndsWith(s, suffix) <==> exists p :: s == p + suffix
  {
    if EndsWith(s, suffix) {
      var p := s[..|s| - |suffix|];
      assert s == p + suffix;
    }
    if exists p :: s == p + suffix {
      var p :| s == p + suffix;
      EndsWithAppend(p, suffix);
    }
  }

}
