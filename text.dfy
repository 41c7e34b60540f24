/**
 * Java strings as sequences of Unicode scalar values, and `String.isBlank`.
 */
module Text {

  /** A Unicode scalar value: a code point that is not a surrogate. */
  newtype Scalar = c: int | 0 <= c < 0xD800 || 0xE000 <= c < 0x11_0000

  /** A Java `String`, read code point by code point. */
  type JavaString = seq<Scalar>

  /**
   * `Character.isWhitespace` (Java 11 and later): the space, line and
   * paragraph separators other than the no-break spaces U+00A0, U+2007 and
   * U+202F, plus the controls TAB, LF, VT, FF, CR and U+001C to U+001F.
   */
  predicate IsWhitespace(c: Scalar) {
    || 0x09 <= c <= 0x0D
    || 0x1C <= c <= 0x20
    || c == 0x1680
    || 0x2000 <= c <= 0x2006
    || 0x2008 <= c <= 0x200A
    || c == 0x2028 || c == 0x2029
    || c == 0x205F
    || c == 0x3000
  }

  /** `String.isBlank`: empty, or whitespace code points only. */
  predicate IsBlank(s: JavaString) {
    forall i | 0 <= i < |s| :: IsWhitespace(s[i])
  }
}
