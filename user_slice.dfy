/**
 * The `user` slice of the client store (userSlice.ts): the signed-in user,
 * the officers' client list with its pagination and filters, and the flags
 * the route guard reads.
 */
module UserSlice {
  import opened Wrappers
  import opened Common
  import opened FrontTypes

  datatype PaginationMeta = PaginationMeta(current: int, pageSize: int, total: int)

  /** `UserFilters`, plus the `role` key the initial state adds; every key may be missing. */
  datatype UserFilters = UserFilters(
    search: Option<string>,
    status: Option<string>,
    sortBy: Option<string>,
    sortOrder: Option<string>,
    role: Option<string>)

  /**
   * The payload of `setFilters`: for each key, whether the payload object
   * has it, and then the value it holds there (which may be `undefined`).
   */
  datatype FiltersPatch = FiltersPatch(
    search: Option<Option<string>>,
    status: Option<Option<string>>,
    sortBy: Option<Option<string>>,
    sortOrder: Option<Option<string>>,
    role: Option<Option<string>>)

  /** The payload of `setPagination`: the keys it has. */
  datatype PaginationPatch = PaginationPatch(current: Option<int>, pageSize: Option<int>, total: Option<int>)

  /** `{ ...filters, ...patch }`. */
  function MergeFilters(f: UserFilters, p: FiltersPatch): UserFilters {
    UserFilters(p.search.GetOr(f.search), p.status.GetOr(f.status), p.sortBy.GetOr(f.sortBy),
                p.sortOrder.GetOr(f.sortOrder), p.role.GetOr(f.role))
  }

  /** `{ ...pagination, ...patch }`. */
  function MergePagination(m: PaginationMeta, p: PaginationPatch): PaginationMeta {
    PaginationMeta(p.current.GetOr(m.current), p.pageSize.GetOr(m.pageSize), p.total.GetOr(m.total))
  }

  /**
   * A shallow merge: a key the payload has takes the payload's value, every
   * other key keeps its own; the empty payload changes nothing and merging
   * the same payload twice is merging it once.
   */
  lemma MergeFiltersIsShallow(f: UserFilters, p: FiltersPatch)
    ensures var r := MergeFilters(f, p);
      && (p.search.Some? ==> r.search == p.search.value) && (p.search.None? ==> r.search == f.search)
      && (p.status.Some? ==> r.status == p.status.value) && (p.status.None? ==> r.status == f.status)
      && (p.sortBy.Some? ==> r.sortBy == p.sortBy.value) && (p.sortBy.None? ==> r.sortBy == f.sortBy)
      && (p.sortOrder.Some? ==> r.sortOrder == p.sortOrder.value) && (p.sortOrder.None? ==> r.sortOrder == f.sortOrder)
      && (p.role.Some? ==> r.role == p.role.value) && (p.role.None? ==> r.role == f.role)
    ensures MergeFilters(f, FiltersPatch(None, None, None, None, None)) == f
    ensures MergeFilters(MergeFilters(f, p), p) == MergeFilters(f, p)
  {
  }

  lemma MergePaginationIsShallow(m: PaginationMeta, p: PaginationPatch)
    ensures var r := MergePagination(m, p);
      && (p.current.Some? ==> r.current == p.current.value) && (p.current.None? ==> r.current == m.current)
      && (p.pageSize.Some? ==> r.pageSize == p.pageSize.value) && (p.pageSize.None? ==> r.pageSize == m.pageSize)
      && (p.total.Some? ==> r.total == p.total.value) && (p.total.None? ==> r.total == m.total)
    ensures MergePagination(m, PaginationPatch(None, None, None)) == m
    ensures MergePagination(MergePagination(m, p), p) == MergePagination(m, p)
  {
  }

  /** The fallback texts of the two requests. */
  const ProfileFailure: string := "Failed to fetch profile"
  const ClientListFailure: string := "Failed to fetch client list"

  class UserState {
    var user: Option<UserView>
    var clients: seq<UserView>
    var loading: bool
    var loadingClientList: bool
    var error: Option<string>
    var isAuthenticated: bool
    var initialized: bool
    var pagination: PaginationMeta
    var filters: UserFilters

    /** `initialState`; the client role is the string "USER". */
    constructor ()
      ensures user.None? && clients == [] && !loading && !loadingClientList && error.None?
      ensures !isAuthenticated && !initialized
      ensures pagination == PaginationMeta(1, 10, 0)
      ensures filters == UserFilters(Some(""), None, Some("createdAt"), Some("ASC"), Some(RoleName(User)))
      ensures filters.role == Some("USER")
    {
      user := None;
      clients := [];
      loading := false;
      loadingClientList := false;
      error := None;
      isAuthenticated := false;
      initialized := false;
      pagination := PaginationMeta(1, 10, 0);
      filters := UserFilters(Some(""), None, Some("createdAt"), Some("ASC"), Some(RoleName(User)));
    }

    /** `clearUser`: the user and the error go; the cookies it also clears are not modelled. */
    method ClearUser()
      modifies this
      ensures user.None? && error.None?
      ensures clients == old(clients) && isAuthenticated == old(isAuthenticated) && initialized == old(initialized)
      ensures pagination == old(pagination) && filters == old(filters)
      ensures loading == old(loading) && loadingClientList == old(loadingClientList)
    {
      user := None;
      error := None;
    }

    method SetFilters(p: FiltersPatch)
      modifies this
      ensures filters == MergeFilters(old(filters), p)
      ensures user == old(user) && clients == old(clients) && pagination == old(pagination) && error == old(error)
      ensures isAuthenticated == old(isAuthenticated) && initialized == old(initialized)
      ensures loading == old(loading) && loadingClientList == old(loadingClientList)
    {
      filters := MergeFilters(filters, p);
    }

    method SetPagination(p: PaginationPatch)
      modifies this
      ensures pagination == MergePagination(old(pagination), p)
      ensures user == old(user) && clients == old(clients) && filters == old(filters) && error == old(error)
      ensures isAuthenticated == old(isAuthenticated) && initialized == old(initialized)
      ensures loading == old(loading) && loadingClientList == old(loadingClientList)
    {
      pagination := MergePagination(pagination, p);
    }

    /** `getCurrentUser.pending`. */
    method CurrentUserStarted()
      modifies this
      ensures loading && error.None?
      ensures user == old(user) && isAuthenticated == old(isAuthenticated) && initialized == old(initialized)
      ensures clients == old(clients) && pagination == old(pagination) && filters == old(filters)
      ensures loadingClientList == old(loadingClientList)
    {
      loading := true;
      error := None;
    }

    /**
     * `getCurrentUser.fulfilled`. Without an access token the request
     * resolves with nothing, and the slice still counts as authenticated.
     */
    method CurrentUserLoaded(payload: Option<UserView>)
      modifies this
      ensures !loading && user == payload && isAuthenticated && initialized
      ensures error == old(error) && clients == old(clients) && pagination == old(pagination)
      ensures filters == old(filters) && loadingClientList == old(loadingClientList)
    {
      loading := false;
      user := payload;
      isAuthenticated := true;
      initialized := true;
    }

    /** `getCurrentUser.rejected`: the user is kept. */
    method CurrentUserFailed(message: Option<string>)
      modifies this
      ensures !loading && !isAuthenticated && initialized
      ensures error == Some(OrElse(message, ProfileFailure))
      ensures user == old(user) && clients == old(clients) && pagination == old(pagination)
      ensures filters == old(filters) && loadingClientList == old(loadingClientList)
    {
      loading := false;
      isAuthenticated := false;
      initialized := true;
      error := Some(OrElse(message, ProfileFailure));
    }

    /** `getClientList.pending`. */
    method ClientListStarted()
      modifies this
      ensures loadingClientList && error.None?
      ensures user == old(user) && clients == old(clients) && pagination == old(pagination)
      ensures filters == old(filters) && loading == old(loading)
      ensures isAuthenticated == old(isAuthenticated) && initialized == old(initialized)
    {
      loadingClientList := true;
      error := None;
    }

    /** `getClientList.fulfilled`: the page and the overall count; the page number and size stay. */
    method ClientListLoaded(data: seq<UserView>, total: int)
      modifies this
      ensures !loadingClientList && clients == data
      ensures pagination == old(pagination).(total := total)
      ensures pagination.current == old(pagination.current) && pagination.pageSize == old(pagination.pageSize)
      ensures user == old(user) && error == old(error) && filters == old(filters) && loading == old(loading)
      ensures isAuthenticated == old(isAuthenticated) && initialized == old(initialized)
    {
      loadingClientList := false;
      clients := data;
      pagination := MergePagination(pagination, PaginationPatch(None, None, Some(total)));
    }

    /** `getClientList.rejected`. */
    method ClientListFailed(message: Option<string>)
      modifies this
      ensures !loadingClientList && error == Some(OrElse(message, ClientListFailure))
      ensures user == old(user) && clients == old(clients) && pagination == old(pagination)
      ensures filters == old(filters) && loading == old(loading)
      ensures isAuthenticated == old(isAuthenticated) && initialized == old(initialized)
    {
      loadingClientList := false;
      error := Some(OrElse(message, ClientListFailure));
    }
  }
}
