/**
 * The pieces of ECMAScript regular expressions (ECMA-262, section 22.2) that
 * the validators' `@Matches` patterns use: character classes, the lookahead
 * `(?=.*[...])`, where `.` stops at a line terminator, and `$` without the `m`
 * flag, which only matches at the end. Strings are sequences of Unicode scalar
 * values. The patterns carry no `u` flag and so run over UTF-16 characters,
 * but none of their classes tells the two halves of a surrogate pair apart, so
 * they accept the same strings either way.
 */
module EcmaPatterns {

  /** `\d`. */
  predicate IsDigit(c: char) {
    '0' <= c <= '9'
  }

  /** `[A-Z]`. */
  predicate IsUpper(c: char) {
    'A' <= c <= 'Z'
  }

  /** `[a-z]`. */
  predicate IsLower(c: char) {
    'a' <= c <= 'z'
  }

  /** `[A-Za-z]`. */
  predicate IsAsciiLetter(c: char) {
    IsUpper(c) || IsLower(c)
  }

  /** `[@#&!]`. */
  predicate IsSpecial(c: char) {
    c == '@' || c == '#' || c == '&' || c == '!'
  }

  /** `\w` is `[A-Za-z0-9_]`; `\W` is every other character. */
  predicate IsNonWord(c: char) {
    !(IsAsciiLetter(c) || IsDigit(c) || c == '_')
  }

  /** The characters `.` does not match: LF, CR, LINE SEPARATOR, PARAGRAPH SEPARATOR. */
  predicate IsLineTerminator(c: char) {
    c == '\n' || c == '\r' || c == '\U{2028}' || c == '\U{2029}'
  }

  predicate NoLineTerminator(s: string) {
    forall i :: 0 <= i < |s| ==> !IsLineTerminator(s[i])
  }

  /**
   * `(?=.*[cls])` tried at position `p`: some character of the class occurs at
   * or after `p` with no line terminator in between.
   */
  predicate LookaheadAnyThen(s: string, p: nat, cls: char -> bool) {
    exists k :: p <= k < |s| && cls(s[k]) && forall j :: p <= j < k ==> !IsLineTerminator(s[j])
  }

  /** Some character of the class occurs at or after `p`. */
  predicate OccursFrom(s: string, p: nat, cls: char -> bool) {
    exists k :: p <= k < |s| && cls(s[k])
  }

  /** Without line terminators, the lookahead is plain occurrence. */
  lemma LookaheadWithoutTerminators(s: string, p: nat, cls: char -> bool)
    requires forall i :: p <= i < |s| ==> !IsLineTerminator(s[i])
    ensures LookaheadAnyThen(s, p, cls) <==> OccursFrom(s, p, cls)
  {
    if OccursFrom(s, p, cls) {
      var k :| p <= k < |s| && cls(s[k]);
      assert forall j :: p <= j < k ==> !IsLineTerminator(s[j]);
    }
  }

  /**
   * `\s`: the WhiteSpace characters (tab, vertical tab, form feed, the byte
   * order mark and the space separators of category Zs) and the line terminators.
   */
  predicate IsWhiteSpace(c: char) {
    || c == '\t' || c == '\U{000B}' || c == '\U{000C}' || c == '\U{FEFF}'
    || c == ' ' || c == '\U{00A0}' || c == '\U{1680}' || '\U{2000}' <= c <= '\U{200A}'
    || c == '\U{202F}' || c == '\U{205F}' || c == '\U{3000}'
    || IsLineTerminator(c)
  }

  /** A character of `[A-Za-z\d@#&!]`. */
  predicate IsPasswordChar(c: char) {
    IsAsciiLetter(c) || IsDigit(c) || IsSpecial(c)
  }

  /**
   * `^(?=.*[A-Za-z])(?=.*\d)(?=.*[@#&!])[A-Za-z\d@#&!]{12,16}$`, the pattern
   * CreateUserDto and LoginDto share: the three lookaheads from the start,
   * then 12 to 16 characters of the class running to the end of the input.
   */
  predicate MatchesLettersDigitsSpecials(s: string) {
    && LookaheadAnyThen(s, 0, IsAsciiLetter)
    && LookaheadAnyThen(s, 0, IsDigit)
    && LookaheadAnyThen(s, 0, IsSpecial)
    && 12 <= |s| <= 16
    && forall i :: 0 <= i < |s| ==> IsPasswordChar(s[i])
  }

  /** What the pattern asks for, stated directly. */
  predicate LettersDigitsSpecials(s: string) {
    && 12 <= |s| <= 16
    && (forall i :: 0 <= i < |s| ==> IsPasswordChar(s[i]))
    && (exists i :: 0 <= i < |s| && IsAsciiLetter(s[i]))
    && (exists i :: 0 <= i < |s| && IsDigit(s[i]))
    && (exists i :: 0 <= i < |s| && IsSpecial(s[i]))
  }

  lemma LettersDigitsSpecialsMeaning(s: string)
    ensures MatchesLettersDigitsSpecials(s) <==> LettersDigitsSpecials(s)
  {
    if forall i :: 0 <= i < |s| ==> IsPasswordChar(s[i]) {
      assert forall i :: 0 <= i < |s| ==> !IsLineTerminator(s[i]) by {
        forall i | 0 <= i < |s| ensures !IsLineTerminator(s[i]) {
          assert IsPasswordChar(s[i]);
        }
      }
      LookaheadWithoutTerminators(s, 0, IsAsciiLetter);
      LookaheadWithoutTerminators(s, 0, IsDigit);
      LookaheadWithoutTerminators(s, 0, IsSpecial);
    }
  }

  /** `^\d{10}$`: exactly ten ASCII digits. */
  predicate TenDigits(s: string) {
    |s| == 10 && forall i :: 0 <= i < |s| ==> IsDigit(s[i])
  }
}
