/**
 * Vocabulary shared by the back end and the front end: identifiers, roles,
 * the authenticated caller and the HTTP exceptions the services throw.
 */
module Common {
  import opened Wrappers

  /** Primary keys are database-generated uuids; the model numbers them. */
  type Uuid = nat

  /** Points in time (`new Date()`), supplied by the caller of each operation. */
  type Timestamp = int

  /** `UserRole` of user.entity.ts; the front end calls the first one CLIENT. */
  datatype Role = User | Officer

  /** The string each role is stored and transmitted as. */
  function RoleName(r: Role): string {
    match r
    case User => "USER"
    case Officer => "OFFICER"
  }

  /** `IsEnum(UserRole)`: the strings that denote a role. */
  function ParseRole(s: string): (r: Option<Role>)
    ensures r.Some? ==> RoleName(r.value) == s
  {
    if s == "USER" then Some(User)
    else if s == "OFFICER" then Some(Officer)
    else None
  }

  lemma RoleNameRoundTrip(r: Role, s: string)
    ensures ParseRole(RoleName(r)) == Some(r)
    ensures ParseRole(s).Some? <==> (s == "USER" || s == "OFFICER")
  {
  }

  /** What the access-token guard attaches to a request as `req.user`. */
  datatype Caller = Caller(id: Uuid, username: string, role: Role)

  /**
   * The exceptions thrown by the services and controllers. A failed body
   * validation is a BadRequest; its message list is modelled only where one
   * rule alone can fail.
   */
  datatype Error =
    | BadRequest(detail: Option<string>)
    | Unauthorized(message: string)
    | Forbidden(message: string)
    | NotFound(message: string)
    | Conflict(message: string)
    | Database(code: string)
    | ServerError

  /** PostgreSQL's error code for a unique-constraint violation. */
  const UniqueViolation: string := "23505"
}
