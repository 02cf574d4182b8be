/**
 * Identifier sanitization: `re.sub(r"\W", "_", name)`, applied to every field key and to
 * every model name (archetypal_core/models/models.py:43, 54, 70). The word-character
 * class `\w` is taken over ASCII: letters, digits and the underscore.
 */
module Identifiers {

  /** A character matched by `\w`. */
  predicate IsWordChar(c: char) {
    || ('a' <= c <= 'z')
    || ('A' <= c <= 'Z')
    || ('0' <= c <= '9')
    || c == '_'
  }

  /**
   * Every character of `s` is a word character. This is all sanitization guarantees: a
   * word string may still be empty or start with a digit, and then it is not a Python
   * identifier.
   */
  predicate IsWordString(s: string) {
    forall i | 0 <= i < |s| :: IsWordChar(s[i])
  }

  /**
   * Replaces every non-word character by `_`, one for one: the length is kept, word
   * characters stay where they are, and what comes out holds only word characters.
   */
  function Sanitize(s: string): (r: string)
    ensures |r| == |s|
    ensures IsWordString(r)
    ensures forall i | 0 <= i < |s| :: IsWordChar(s[i]) ==> r[i] == s[i]
    ensures forall i | 0 <= i < |s| :: !IsWordChar(s[i]) ==> r[i] == '_'
    decreases |s|
  {
    if s == [] then []
    else Sanitize(s[..|s| - 1]) + [if IsWordChar(s[|s| - 1]) then s[|s| - 1] else '_']
  }

  /** A string is left unchanged exactly when it already holds only word characters. */
  lemma {:induction false} SanitizeFixesWordStrings(s: string)
    ensures Sanitize(s) == s <==> IsWordString(s)
  {
    if IsWordString(s) {
      assert forall i | 0 <= i < |s| :: Sanitize(s)[i] == s[i];
    }
  }

  /** Sanitizing twice is sanitizing once. */
  lemma {:induction false} SanitizeIdempotent(s: string)
    ensures Sanitize(Sanitize(s)) == Sanitize(s)
  {
    SanitizeFixesWordStrings(Sanitize(s));
  }
}
