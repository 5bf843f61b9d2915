/**
 * The body of `PATCH /users/:id/profile` (update-profile.dto.ts): every
 * profile field may be left out; a field that is present must pass its
 * check. `IsEmail`, `IsPhoneNumber` and `IsDateString` enter as parameters.
 */
module UpdateProfileDto {
  import opened Wrappers

  datatype UpdateProfileBody = UpdateProfileBody(
    fullName: Option<string>,
    email: Option<string>,
    phone: Option<string>,
    dateOfBirth: Option<string>,
    address: Option<string>,
    city: Option<string>,
    country: Option<string>,
    nationality: Option<string>,
    occupation: Option<string>)

  /** `IsOptional` on every field; the library checks on the present ones. */
  predicate Valid(b: UpdateProfileBody, isEmail: string -> bool, isPhone: string -> bool, isDate: string -> bool) {
    && (b.email.Some? ==> isEmail(b.email.value))
    && (b.phone.Some? ==> isPhone(b.phone.value))
    && (b.dateOfBirth.Some? ==> isDate(b.dateOfBirth.value))
  }

  /** The body with no keys at all. */
  const Empty: UpdateProfileBody := UpdateProfileBody(None, None, None, None, None, None, None, None, None)
}
