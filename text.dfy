/** Character classes and blank tests as Kotlin's standard library defines them on the JVM. */
module Text {

  /**
   * Kotlin's `Char.isWhitespace()` on the JVM: `Character.isWhitespace(c) || Character.isSpaceChar(c)`,
   * i.e. the controls U+0009..U+000D and U+001C..U+001F, the space separators (Zs),
   * the line separator U+2028 and the paragraph separator U+2029.
   */
  predicate IsWhitespace(c: char) {
    || '\U{0009}' <= c <= '\U{000D}'
    || '\U{001C}' <= c <= '\U{0020}'
    || c == '\U{00A0}' || c == '\U{1680}'
    || '\U{2000}' <= c <= '\U{200A}'
    || c == '\U{2028}' || c == '\U{2029}' || c == '\U{202F}' || c == '\U{205F}' || c == '\U{3000}'
  }

  /** Kotlin's `CharSequence.isBlank()`: empty, or made of whitespace only. */
  predicate IsBlank(s: string) {
    forall i | 0 <= i < |s| :: IsWhitespace(s[i])
  }

  predicate IsAsciiDigit(c: char) {
    '0' <= c <= '9'
  }

  /** A string whose character at `i` is a digit is not blank. */
  lemma DigitMakesNonBlank(s: string, i: nat)
    requires i < |s| && IsAsciiDigit(s[i])
    ensures !IsBlank(s)
  {
    assert !IsWhitespace(s[i]);
  }
}
