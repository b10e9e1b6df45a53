/**
 * The framework's notion of a blank string: one whose every character is
 * white space (the empty string included). `presence: true` rejects a text
 * attribute exactly when it is nil or blank in this sense.
 */
module Whitespace {

  /**
   * Characters with the Unicode White_Space property, the POSIX class
   * `[[:space:]]` that the framework's blank test matches.
   */
  predicate IsWhitespace(c: char) {
    || ('\t' <= c <= '\r')  // tab, line feed, vertical tab, form feed, carriage return
    || c == ' '
    || c == '\U{0085}' || c == '\U{00A0}' || c == '\U{1680}'
    || ('\U{2000}' <= c <= '\U{200A}')
    || c == '\U{2028}' || c == '\U{2029}' || c == '\U{202F}' || c == '\U{205F}'
    || c == '\U{3000}'
  }

  /**
   * The blank test, scanning from the front: the empty string is blank, and
   * a string is blank when it starts with white space and the rest is blank.
   * Its contract gives the character-by-character reading.
   */
  predicate IsBlank(s: string)
    ensures IsBlank(s) <==> forall i :: 0 <= i < |s| ==> IsWhitespace(s[i])
  {
    if s == [] then true
    else
      assert forall i :: 1 <= i < |s| ==> s[i] == s[1..][i - 1];
      IsWhitespace(s[0]) && IsBlank(s[1..])
  }

  /**
   * `s` with its leading white space removed: an independent reading of
   * "empty after removing leading White_Space characters", used to
   * cross-check IsBlank.
   */
  function TrimStart(s: string): (r: string)
    ensures |r| <= |s| && r == s[|s| - |r|..]
    ensures IsBlank(s[..|s| - |r|])
    ensures r != [] ==> !IsWhitespace(r[0])
  {
    if s == [] || !IsWhitespace(s[0]) then s
    else
      var r := TrimStart(s[1..]);
      assert s[..|s| - |r|] == [s[0]] + s[1..][..|s| - 1 - |r|];
      r
  }

  /** A string is blank exactly when removing its leading White_Space characters leaves nothing. */
  lemma {:induction false} BlankIffTrimsToEmpty(s: string)
    ensures IsBlank(s) <==> TrimStart(s) == []
  {
    if s == [] {
    } else if !IsWhitespace(s[0]) {
      assert TrimStart(s) == s;
    } else {
      assert TrimStart(s) == TrimStart(s[1..]);
      BlankIffTrimsToEmpty(s[1..]);
    }
  }
}
