/**
 * The body rules of `POST /auth/register` (register.dto.ts). Its password
 * pattern has no `^` anchor, so `test` succeeds when the pattern matches
 * from any position. `IsEmail`, `IsPhoneNumber` and `IsDateString` are
 * library checks and enter as parameters.
 */
module RegisterDto {
  import opened EcmaPatterns
  import opened ClassValidator
  import CreateUserDto
  import LoginDto

  datatype RegisterBody = RegisterBody(
    username: string, password: string, fullName: string, email: string, phone: string,
    dateOfBirth: string, address: string, city: string, country: string,
    nationality: string, occupation: string)

  /** `MinLength(8)` and `MaxLength(10)`. */
  predicate ValidUsername(s: string) {
    LengthBetween(s, 8, 10)
  }

  /**
   * `((?=.*\d)|(?=.*\W+))(?![.\n])(?=.*[A-Z])(?=.*[a-z])(?=.*[@#&!]).*$`
   * tried at position `p`. The final `.*$` needs the rest of the input to be
   * free of line terminators.
   */
  predicate PatternMatchesAt(s: string, p: nat) {
    && (LookaheadAnyThen(s, p, IsDigit) || LookaheadAnyThen(s, p, IsNonWord))
    && !(p < |s| && (s[p] == '.' || s[p] == '\n'))
    && LookaheadAnyThen(s, p, IsUpper)
    && LookaheadAnyThen(s, p, IsLower)
    && LookaheadAnyThen(s, p, IsSpecial)
    && (forall j :: p <= j < |s| ==> !IsLineTerminator(s[j]))
  }

  /** `pattern.test(s)`: a match from some start position. */
  predicate PatternMatches(s: string) {
    exists p :: 0 <= p <= |s| && PatternMatchesAt(s, p)
  }

  /** `MinLength(12)`, `MaxLength(16)` and the pattern. */
  predicate ValidPassword(s: string) {
    LengthBetween(s, 12, 16) && PatternMatches(s)
  }

  predicate Valid(b: RegisterBody, isEmail: string -> bool, isPhone: string -> bool, isDate: string -> bool) {
    && ValidUsername(b.username) && ValidPassword(b.password)
    && isEmail(b.email) && isPhone(b.phone) && isDate(b.dateOfBirth)
  }

  /** The first position at or after `i` that does not hold a `.`. */
  ghost function SkipDots(s: string, i: nat): (p: nat)
    requires i <= |s|
    ensures i <= p <= |s|
    ensures forall j :: i <= j < p ==> s[j] == '.'
    ensures p < |s| ==> s[p] != '.'
    decreases |s| - i
  {
    if i < |s| && s[i] == '.' then SkipDots(s, i + 1) else i
  }

  /**
   * On input without line terminators the pattern asks for an upper-case
   * letter, a lower-case letter and one of `@#&!`, and nothing else: the
   * special character already satisfies the `\W` alternative, so no digit is
   * needed, and any other character is allowed.
   */
  lemma {:induction false} PatternMeaning(s: string)
    requires NoLineTerminator(s)
    ensures PatternMatches(s) <==>
      OccursFrom(s, 0, IsUpper) && OccursFrom(s, 0, IsLower) && OccursFrom(s, 0, IsSpecial)
  {
    if OccursFrom(s, 0, IsUpper) && OccursFrom(s, 0, IsLower) && OccursFrom(s, 0, IsSpecial) {
      var p := SkipDots(s, 0);
      var ku :| 0 <= ku < |s| && IsUpper(s[ku]);
      var kl :| 0 <= kl < |s| && IsLower(s[kl]);
      var ks :| 0 <= ks < |s| && IsSpecial(s[ks]);
      assert p <= ku && p <= kl && p <= ks;
      assert IsNonWord(s[ks]);
      LookaheadWithoutTerminators(s, p, IsUpper);
      LookaheadWithoutTerminators(s, p, IsLower);
      LookaheadWithoutTerminators(s, p, IsSpecial);
      LookaheadWithoutTerminators(s, p, IsNonWord);
      assert PatternMatchesAt(s, p);
    }
    if PatternMatches(s) {
      var p :| 0 <= p <= |s| && PatternMatchesAt(s, p);
      LookaheadWithoutTerminators(s, p, IsUpper);
      LookaheadWithoutTerminators(s, p, IsLower);
      LookaheadWithoutTerminators(s, p, IsSpecial);
    }
  }

  /** The stated "number" requirement is not enforced: a password without a digit passes. */
  lemma AcceptsPasswordWithoutDigit()
    ensures ValidPassword("Abcdefgh@ijk")
    ensures !CreateUserDto.ValidPassword("Abcdefgh@ijk")
  {
    var s := "Abcdefgh@ijk";
    assert forall i :: 0 <= i < |s| ==> !IsVariationSelector(s[i]) && !IsLineTerminator(s[i]);
    assert IsUpper(s[0]) && IsLower(s[1]) && IsSpecial(s[8]);
    PatternMeaning(s);
    CreateUserDto.RefusesPasswordWithoutDigit();
  }

  /**
   * A space passes registration; login refuses the same password before it
   * is compared, so the account cannot sign in with it.
   */
  lemma RegisteredPasswordLoginRefuses()
    ensures ValidPassword("Abc defg@h1j")
    ensures !LoginDto.ValidPassword("Abc defg@h1j")
  {
    var s := "Abc defg@h1j";
    assert forall i :: 0 <= i < |s| ==> !IsVariationSelector(s[i]) && !IsLineTerminator(s[i]);
    assert IsUpper(s[0]) && IsLower(s[1]) && IsSpecial(s[8]);
    PatternMeaning(s);
    CreateUserDto.RefusesPasswordWithSpace();
    LoginDto.SameRulesAsCreateUser("", s);
  }

  /** A trailing line feed defeats `.*$` from every start position. */
  lemma RefusesTrailingLineFeed()
    ensures !PatternMatches("Abcdefgh@ij\n")
  {
    var s := "Abcdefgh@ij\n";
    forall p | 0 <= p <= |s| ensures !PatternMatchesAt(s, p) {
      if p < |s| {
        assert IsLineTerminator(s[|s| - 1]);
      }
    }
  }
}
