/**
 * The access-token guard and the role guard every protected controller is
 * wrapped in. Their source files are not part of this model; they are taken
 * to behave as Nest's stock guards do.
 */
module Guards {
  import opened Wrappers
  import opened Common

  /**
   * `JwtAuthGuard` then `RolesGuard`: a request without a valid access token
   * is refused with 401, one whose role is not listed with 403.
   */
  function Authorize(caller: Option<Caller>, roles: set<Role>): (r: Result<Caller, Error>)
    ensures r.Ok? <==> caller.Some? && (roles == {} || caller.value.role in roles)
    ensures r.Ok? ==> r.value == caller.value
    ensures caller.None? ==> r == Err(Unauthorized("Unauthorized"))
    ensures caller.Some? && r.Err? ==> r == Err(Forbidden("Forbidden resource"))
  {
    if caller.None? then Err(Unauthorized("Unauthorized"))
    else if roles != {} && caller.value.role !in roles then Err(Forbidden("Forbidden resource"))
    else Ok(caller.value)
  }
}
