/**
 * The query of `GET /users` (get-users.dto.ts): its field rules, and the
 * defaults `findAll` fills in for the fields that are absent.
 */
module GetUsersDto {
  import opened Wrappers
  import opened Common
  import opened KycEntity

  /** The query as received, with `page` and `limit` already numbers. */
  datatype GetUsersQuery = GetUsersQuery(
    search: Option<string>,
    role: Option<string>,
    status: Option<string>,
    page: Option<int>,
    limit: Option<int>,
    sortBy: Option<string>,
    sortOrder: Option<string>)

  /**
   * `IsEnum` on `role` and `status`, `IsInt` and `Min(1)` on `page` and
   * `limit`; `search`, `sortBy` and `sortOrder` only have to be strings.
   */
  predicate Valid(q: GetUsersQuery) {
    && (q.role.Some? ==> ParseRole(q.role.value).Some?)
    && (q.status.Some? ==> ParseKycStatus(q.status.value).Some?)
    && (q.page.Some? ==> q.page.value >= 1)
    && (q.limit.Some? ==> q.limit.value >= 1)
  }

  const DefaultPage: int := 1
  const DefaultLimit: int := 10
  const DefaultSortBy: string := "createdAt"
  const DefaultSortOrder: string := "DESC"

  /** The query `findAll` works with: defaults filled in and the enumerations typed. */
  datatype ListQuery = ListQuery(
    search: string,
    role: Option<Role>,
    status: Option<KycStatus>,
    page: int,
    limit: int,
    sortBy: string,
    sortOrder: string)

  /** The validation pipe, then the destructuring with defaults at the top of `findAll`. */
  function Resolve(q: GetUsersQuery): (r: Result<ListQuery, Error>)
    ensures r.Ok? <==> Valid(q)
    ensures r.Err? ==> r.error == BadRequest(None)
    ensures r.Ok? ==> r.value.page >= 1 && r.value.limit >= 1
    ensures r.Ok? ==> r.value.page == (if q.page.Some? then q.page.value else DefaultPage)
    ensures r.Ok? ==> r.value.limit == (if q.limit.Some? then q.limit.value else DefaultLimit)
    ensures r.Ok? ==> r.value.sortBy == (if q.sortBy.Some? then q.sortBy.value else DefaultSortBy)
    ensures r.Ok? ==> r.value.sortOrder == (if q.sortOrder.Some? then q.sortOrder.value else DefaultSortOrder)
    ensures r.Ok? ==> r.value.search == (if q.search.Some? then q.search.value else "")
    ensures r.Ok? ==> (r.value.role.Some? <==> q.role.Some?)
    ensures r.Ok? && q.role.Some? ==> RoleName(r.value.role.value) == q.role.value
    ensures r.Ok? ==> (r.value.status.Some? <==> q.status.Some?)
    ensures r.Ok? && q.status.Some? ==> r.value.status.value.Name() == q.status.value
  {
    if !Valid(q) then Err(BadRequest(None))
    else
      Ok(ListQuery(
        q.search.GetOr(""),
        if q.role.Some? then ParseRole(q.role.value) else None,
        if q.status.Some? then ParseKycStatus(q.status.value) else None,
        q.page.GetOr(DefaultPage),
        q.limit.GetOr(DefaultLimit),
        q.sortBy.GetOr(DefaultSortBy),
        q.sortOrder.GetOr(DefaultSortOrder)))
  }

  /** An empty query lists the first ten users, newest first. */
  lemma EmptyQueryDefaults()
    ensures Resolve(GetUsersQuery(None, None, None, None, None, None, None))
         == Ok(ListQuery("", None, None, 1, 10, "createdAt", "DESC"))
  {
  }

  /**
   * The client list offers a "NONE" status (users without a record); the
   * query rules refuse it, as they refuse page 0.
   */
  lemma NoneStatusRefused(q: GetUsersQuery)
    ensures Resolve(q.(status := Some("NONE"))).Err?
    ensures Resolve(q.(page := Some(0))).Err?
    ensures Resolve(q.(status := Some("APPROVED"), role := None, page := None, limit := None)).Ok?
  {
  }
}
