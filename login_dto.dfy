/** The body rules of `POST /auth/login` (login.dto.ts). */
module LoginDto {
  import opened EcmaPatterns
  import opened ClassValidator
  import CreateUserDto

  /** `IsNotEmpty` and `Length(8, 10)`. */
  predicate ValidUsername(s: string) {
    s != "" && LengthBetween(s, 8, 10)
  }

  /** `IsNotEmpty`, `Length(12, 16)` and the pattern CreateUserDto also uses. */
  predicate ValidPassword(s: string) {
    s != "" && LengthBetween(s, 12, 16) && MatchesLettersDigitsSpecials(s)
  }

  predicate Valid(username: string, password: string) {
    ValidUsername(username) && ValidPassword(password)
  }

  /**
   * The `IsNotEmpty` checks add nothing to the length minimums, so login and
   * user creation accept exactly the same usernames and passwords.
   */
  lemma SameRulesAsCreateUser(username: string, password: string)
    ensures ValidUsername(username) <==> CreateUserDto.ValidUsername(username)
    ensures ValidPassword(password) <==> CreateUserDto.ValidPassword(password)
    ensures ValidPassword(password) <==> LettersDigitsSpecials(password)
  {
    CreateUserDto.PasswordRule(password);
  }
}
