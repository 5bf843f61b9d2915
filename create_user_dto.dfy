/**
 * The body rules of `POST /users` (create-user.dto.ts). `IsEmail` is a
 * library check and enters as a parameter.
 */
module CreateUserDto {
  import opened EcmaPatterns
  import opened ClassValidator

  datatype CreateUserBody = CreateUserBody(
    username: string, password: string, fullName: string, email: string, phone: string)

  /** `Length(8, 10)`. */
  predicate ValidUsername(s: string) {
    LengthBetween(s, 8, 10)
  }

  /** `Length(12, 16)` and the letters-digits-specials pattern. */
  predicate ValidPassword(s: string) {
    LengthBetween(s, 12, 16) && MatchesLettersDigitsSpecials(s)
  }

  /** `Matches(/^\d{10}$/)`. */
  predicate ValidPhone(s: string) {
    TenDigits(s)
  }

  /** Every rule of CreateUserDto; `fullName` may be any string. */
  predicate Valid(b: CreateUserBody, isEmail: string -> bool) {
    ValidUsername(b.username) && ValidPassword(b.password) && isEmail(b.email) && ValidPhone(b.phone)
  }

  /** The pattern's characters are no variation selectors, so they all count. */
  lemma PasswordCharsCountPlainly(s: string)
    requires forall i :: 0 <= i < |s| ==> IsPasswordChar(s[i])
    ensures CountedLength(s) == |s|
  {
    forall i | 0 <= i < |s| ensures !IsVariationSelector(s[i]) {
      assert IsPasswordChar(s[i]);
    }
  }

  /**
   * The accepted passwords: 12 to 16 characters, only ASCII letters, digits and
   * `@#&!`, with at least one letter, one digit and one of `@#&!`.
   */
  lemma PasswordRule(s: string)
    ensures ValidPassword(s) <==> LettersDigitsSpecials(s)
  {
    LettersDigitsSpecialsMeaning(s);
    if MatchesLettersDigitsSpecials(s) {
      PasswordCharsCountPlainly(s);
    }
  }

  /** A letter, a digit and `@` among twelve allowed characters: accepted. */
  lemma AcceptsMixedPassword()
    ensures ValidPassword("Abcdefgh@1jk")
  {
    var s := "Abcdefgh@1jk";
    assert IsAsciiLetter(s[0]) && IsSpecial(s[8]) && IsDigit(s[9]);
    forall i | 0 <= i < |s| ensures IsPasswordChar(s[i]) {
      if i != 8 && i != 9 {
        assert IsAsciiLetter(s[i]);
      }
    }
    assert LettersDigitsSpecials(s);
    PasswordRule(s);
  }

  /** No digit: refused. */
  lemma RefusesPasswordWithoutDigit()
    ensures !ValidPassword("Abcdefgh@ijk")
  {
    var s := "Abcdefgh@ijk";
    assert forall i :: 0 <= i < |s| ==> !IsDigit(s[i]);
    PasswordRule(s);
  }

  /** A space is outside the class: refused. */
  lemma RefusesPasswordWithSpace()
    ensures !ValidPassword("Abc defg@h1j")
  {
    var s := "Abc defg@h1j";
    assert !IsPasswordChar(s[3]);
    PasswordRule(s);
  }
}
