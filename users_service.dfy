/**
 * The users service (users.service.ts): creating a user with its profile in
 * one transaction, the officers' paged user list, looking a user or a
 * profile up, and the partial update of a profile.
 */
module Users {
  import opened Wrappers
  import opened Common
  import opened Crypto
  import opened UserStore
  import opened KycEntity
  import opened Kyc
  import opened GetUsersDto
  import opened CreateUserDto
  import opened UpdateProfileDto
  import Seqs

  // ---------------------------------------------------------------------------
  // create

  /** The profile `create` saves: the given name, email and phone, today as birth date, the rest empty. */
  function NewProfile(userId: Uuid, dto: CreateUserBody, now: Timestamp): Profile {
    Profile(userId, dto.fullName, dto.email, dto.phone, now, "", "", "", "", "")
  }

  /** The USER account `create` saves, with the password hashed. */
  function SignedUpAccount(id: Uuid, dto: CreateUserBody, now: Timestamp): Account {
    Account(id, dto.username, BcryptHash(dto.password), User, now, None)
  }

  /**
   * What `create` evidently means to return: the saved user without its
   * password, and its profile.
   */
  datatype CreatedUser = CreatedUser(id: Uuid, username: string, role: Role, createdAt: Timestamp, profile: Profile)

  /**
   * What `create` returns as written: `{ ...result, profile }`, where
   * `result` is the saved user less its password, but `profile` was created
   * with `user` and still holds the whole saved entity under `profile.user`.
   */
  datatype CreatedUserAsWritten = CreatedUserAsWritten(
    id: Uuid, username: string, role: Role, createdAt: Timestamp, profile: Profile, profileUser: Account)

  /** The corrected response, built from the saved account and profile. */
  function Response(a: Account, p: Profile): CreatedUser {
    CreatedUser(a.id, a.username, a.role, a.createdAt, p)
  }

  /** The response as written, built from the saved account and profile. */
  function ResponseAsWritten(a: Account, p: Profile): CreatedUserAsWritten {
    CreatedUserAsWritten(a.id, a.username, a.role, a.createdAt, p, a)
  }

  /**
   * As written, the response carries the stored hash of the sign-up
   * password, so two sign-ups that differ only in their passwords are
   * answered differently.
   */
  lemma ResponseAsWrittenCarriesHash(id: Uuid, dto: CreateUserBody, other: string, now: Timestamp)
    requires other != dto.password
    ensures ResponseAsWritten(SignedUpAccount(id, dto, now), NewProfile(id, dto, now)).profileUser.password
            == BcryptHash(dto.password)
    ensures ResponseAsWritten(SignedUpAccount(id, dto, now), NewProfile(id, dto, now))
            != ResponseAsWritten(SignedUpAccount(id, dto.(password := other), now), NewProfile(id, dto.(password := other), now))
  {
  }

  /**
   * The corrected response keeps every field of `result` and the profile,
   * and does not depend on the password: two sign-ups that differ only in
   * their passwords are answered alike.
   */
  lemma ResponseHidesPassword(id: Uuid, dto: CreateUserBody, other: string, now: Timestamp)
    ensures var a := SignedUpAccount(id, dto, now);
      var r := Response(a, NewProfile(id, dto, now));
      && r.id == a.id && r.username == a.username && r.role == a.role && r.createdAt == a.createdAt
      && r.profile == NewProfile(id, dto, now)
    ensures Response(SignedUpAccount(id, dto, now), NewProfile(id, dto, now))
            == Response(SignedUpAccount(id, dto.(password := other), now), NewProfile(id, dto.(password := other), now))
  {
  }

  /**
   * `create`: the USER account and its profile are written in one
   * transaction, so a taken username or email leaves both tables as they were.
   * It answers with the corrected response; `ResponseAsWritten` is what the
   * source sends.
   */
  method Create(users: UserTable, dto: CreateUserBody, now: Timestamp) returns (r: Result<CreatedUser, Error>)
    requires users.Valid()
    modifies users
    ensures users.Valid()
    ensures r.Ok? <==> !old(users.UsernameTaken(dto.username)) && !old(users.EmailTaken(dto.email))
    ensures r.Err? ==>
      && r.error == Database(UniqueViolation)
      && users.accounts == old(users.accounts) && users.profiles == old(users.profiles)
      && users.nextId == old(users.nextId)
    ensures r.Ok? ==>
      var id := old(users.nextId);
      && users.accounts == old(users.accounts)[id := SignedUpAccount(id, dto, now)]
      && users.profiles == old(users.profiles)[id := NewProfile(id, dto, now)]
      && r.value == Response(users.accounts[id], users.profiles[id])
      // what the source sends instead nests the stored password hash
      && ResponseAsWritten(users.accounts[id], users.profiles[id]).profileUser.password == BcryptHash(dto.password)
      && users.nextId == id + 1
  {
    var accounts0, nextId0 := users.accounts, users.nextId;
    var saved := users.InsertAccount(dto.username, BcryptHash(dto.password), User, now);
    if saved.Err? {
      return Err(saved.error);
    }
    var a := saved.value;
    // the new id is above every stored one, so no profile belongs to it yet
    assert a.id !in users.profiles;
    var p := users.InsertProfile(NewProfile(a.id, dto, now));
    if p.Err? {
      // the transaction is rolled back
      users.accounts, users.nextId := accounts0, nextId0;
      return Err(p.error);
    }
    r := Ok(Response(a, p.value));
  }

  // ---------------------------------------------------------------------------
  // findAll

  /** A user row with its `profile` and `kyc` relations joined; `None` is a missing relation. */
  datatype Listed = Listed(account: Account, profile: Option<Profile>, kyc: Option<KycRecord>)

  datatype PageMeta = PageMeta(page: int, limit: int, total: nat, totalPages: nat)

  /** `{ data, meta }`. */
  datatype Listing = Listing(data: seq<Listed>, meta: PageMeta)

  /**
   * The WHERE clause: the search text inside the username or the full name
   * (a row without a profile has no name to match), the role, and the status
   * of a joined record (a row without one never matches a status).
   */
  predicate Matches(q: ListQuery, row: Listed) {
    && (q.search != "" ==>
          Seqs.Contains(row.account.username, q.search) ||
          (row.profile.Some? && Seqs.Contains(row.profile.value.fullName, q.search)))
    && (q.role.Some? ==> row.account.role == q.role.value)
    && (q.status.Some? ==> row.kyc.Some? && row.kyc.value.status == q.status.value)
  }

  datatype SortOrder = Asc | Desc

  /** The query builder's `orderBy` accepts exactly these two directions. */
  function ParseSortOrder(s: string): (r: Option<SortOrder>)
    ensures r.Some? <==> s == "ASC" || s == "DESC"
    ensures r == Some(Asc) <==> s == "ASC"
  {
    if s == "ASC" then Some(Asc) else if s == "DESC" then Some(Desc) else None
  }

  /** `ORDER BY user.<sortBy> <order>`, with the column's values given by `key`. */
  function Order(key: Account -> int, order: SortOrder): (le: (Listed, Listed) -> bool)
    ensures Seqs.TotalPreorder(le)
    ensures forall a, b :: le(a, b) <==> if order == Asc then key(a.account) <= key(b.account)
                                                          else key(a.account) >= key(b.account)
  {
    if order == Asc then (a: Listed, b: Listed) => key(a.account) <= key(b.account)
    else (a: Listed, b: Listed) => key(a.account) >= key(b.account)
  }

  /** `Math.ceil(n / d)` for a count and a positive page size. */
  function CeilDiv(n: nat, d: int): (c: nat)
    requires d >= 1
    ensures n <= c * d
    ensures c > 0 ==> (c - 1) * d < n
    ensures c == 0 <==> n == 0
  {
    var c := (n + d - 1) / d;
    assert c * d <= n + d - 1 < c * d + d;
    c
  }

  /** `(page - 1) * limit`: how many rows the page skips. */
  function Skip(page: int, limit: int): nat
    requires page >= 1 && limit >= 1
  {
    (page - 1) * limit
  }

  /** `skip(Skip(page, limit)).take(limit)`: the up to `limit` rows after the skipped ones. */
  function Page<T>(s: seq<T>, page: int, limit: int): (r: seq<T>)
    requires page >= 1 && limit >= 1
    ensures |r| <= limit
    ensures |r| == if Skip(page, limit) >= |s| then 0
                   else if Skip(page, limit) + limit <= |s| then limit
                   else |s| - Skip(page, limit)
    ensures forall i :: 0 <= i < |r| ==> r[i] == s[Skip(page, limit) + i]
  {
    var skip := Skip(page, limit);
    if skip >= |s| then []
    else if skip + limit <= |s| then s[skip..skip + limit]
    else s[skip..]
  }

  /** The filtered rows in the requested order: what the pages are cut from. */
  function Arranged(rows: seq<Listed>, q: ListQuery, key: Account -> int, order: SortOrder): (r: seq<Listed>)
    ensures multiset(r) == multiset(Seqs.Filter(rows, (x: Listed) => Matches(q, x)))
    ensures Seqs.SortedBy(r, Order(key, order))
  {
    Seqs.InsertionSort(Seqs.Filter(rows, (x: Listed) => Matches(q, x)), Order(key, order))
  }

  /**
   * The pipeline of `findAll` over the joined rows: filter, order, cut one
   * page, and count every row that passed the filter.
   */
  function ListUsers(rows: seq<Listed>, q: ListQuery, key: Account -> int): (r: Result<Listing, Error>)
    requires q.page >= 1 && q.limit >= 1
    ensures r.Ok? <==> ParseSortOrder(q.sortOrder).Some?
    ensures r.Err? ==> r.error == ServerError
    ensures r.Ok? ==>
      var all := Arranged(rows, q, key, ParseSortOrder(q.sortOrder).value);
      && r.value.data == Page(all, q.page, q.limit)
      && r.value.meta.total == |all|
      && r.value.meta.totalPages == CeilDiv(|all|, q.limit)
      && r.value.meta.page == q.page && r.value.meta.limit == q.limit
  {
    match ParseSortOrder(q.sortOrder)
    case None => Err(ServerError)
    case Some(order) =>
      var all := Arranged(rows, q, key, order);
      Ok(Listing(Page(all, q.page, q.limit), PageMeta(q.page, q.limit, |all|, CeilDiv(|all|, q.limit))))
  }

  /**
   * One page holds at most `limit` rows, each of them a row of the table that
   * passes the filter, in the requested order; `total` counts every row that
   * passes; the pages after `totalPages` are empty and the ones up to it are not.
   */
  lemma ListingContents(rows: seq<Listed>, q: ListQuery, key: Account -> int)
    requires q.page >= 1 && q.limit >= 1
    requires ListUsers(rows, q, key).Ok?
    ensures var l := ListUsers(rows, q, key).value;
      && |l.data| <= q.limit
      && (forall x :: x in l.data ==> x in rows && Matches(q, x))
      && Seqs.SortedBy(l.data, Order(key, ParseSortOrder(q.sortOrder).value))
      && l.meta.total == |Seqs.Filter(rows, (x: Listed) => Matches(q, x))|
      && (l.data == [] <==> q.page > l.meta.totalPages)
  {
    var order := ParseSortOrder(q.sortOrder).value;
    var all := Arranged(rows, q, key, order);
    var filtered := Seqs.Filter(rows, (x: Listed) => Matches(q, x));
    assert |all| == |filtered| by {
      assert |multiset(all)| == |multiset(filtered)|;
    }
    PageOfSorted(all, q.page, q.limit, Order(key, order));
    Seqs.SameElements(all, filtered);
    PageEmptyPastEnd(|all|, q.page, q.limit);
  }

  /** A page holds rows of the list it is cut from, in the list's order. */
  lemma PageOfSorted<T>(s: seq<T>, page: int, limit: int, le: (T, T) -> bool)
    requires page >= 1 && limit >= 1
    ensures forall x :: x in Page(s, page, limit) ==> x in s
    ensures Seqs.SortedBy(s, le) ==> Seqs.SortedBy(Page(s, page, limit), le)
  {
    var r := Page(s, page, limit);
    forall x | x in r ensures x in s {
      var i :| 0 <= i < |r| && r[i] == x;
      assert x == s[Skip(page, limit) + i];
    }
  }

  lemma PageEmptyPastEnd(n: nat, page: int, limit: int)
    requires page >= 1 && limit >= 1
    ensures Skip(page, limit) >= n <==> page > CeilDiv(n, limit)
  {
    var c := CeilDiv(n, limit);
    if page > c {
      assert (page - 1) * limit >= c * limit;
    } else if c > 0 {
      assert (page - 1) * limit <= (c - 1) * limit;
    }
  }

  /** The first `n` pages, one after the other. */
  function Pages<T>(s: seq<T>, limit: int, n: nat): seq<T>
    requires limit >= 1
  {
    if n == 0 then [] else Pages(s, limit, n - 1) + Page(s, n, limit)
  }

  /** A page is the slice of the list between its skip and the skip plus the limit, as far as there are rows. */
  lemma PageIsSlice<T>(s: seq<T>, page: int, limit: int)
    requires page >= 1 && limit >= 1
    ensures var skip := Skip(page, limit);
      var lo := if skip <= |s| then skip else |s|;
      var hi := if skip + limit <= |s| then skip + limit else |s|;
      Page(s, page, limit) == s[lo..hi]
  {
  }

  lemma PrefixSplit<T>(s: seq<T>, lo: nat, hi: nat)
    requires lo <= hi <= |s|
    ensures s[..hi] == s[..lo] + s[lo..hi]
  {
  }

  /** The first `n` pages are the first `n * limit` rows, as far as there are rows. */
  lemma {:induction false} PagesArePrefix<T>(s: seq<T>, limit: int, n: nat)
    requires limit >= 1
    ensures Pages(s, limit, n) == s[..if n * limit <= |s| then n * limit else |s|]
  {
    if n > 0 {
      PagesArePrefix(s, limit, n - 1);
      var skip := Skip(n, limit);
      assert skip == (n - 1) * limit && n * limit == skip + limit;
      PageIsSlice(s, n, limit);
      var lo := if skip <= |s| then skip else |s|;
      var hi := if skip + limit <= |s| then skip + limit else |s|;
      PrefixSplit(s, lo, hi);
    }
  }

  /**
   * Paging through pages 1 to `totalPages` yields the whole arranged list:
   * every matching user is listed once, on one page.
   */
  lemma AllPagesListEveryone(rows: seq<Listed>, q: ListQuery, key: Account -> int)
    requires q.page >= 1 && q.limit >= 1
    requires ListUsers(rows, q, key).Ok?
    ensures var all := Arranged(rows, q, key, ParseSortOrder(q.sortOrder).value);
      Pages(all, q.limit, ListUsers(rows, q, key).value.meta.totalPages) == all
  {
    var all := Arranged(rows, q, key, ParseSortOrder(q.sortOrder).value);
    PagesArePrefix(all, q.limit, CeilDiv(|all|, q.limit));
  }

  /** Row `i` of the arranged list is row `i % limit` of page `i / limit + 1`. */
  lemma RowOnItsPage<T>(s: seq<T>, limit: int, i: nat)
    requires limit >= 1 && i < |s|
    ensures i % limit < |Page(s, i / limit + 1, limit)|
    ensures Page(s, i / limit + 1, limit)[i % limit] == s[i]
  {
    assert (i / limit) * limit + i % limit == i;
  }

  // ---------------------------------------------------------------------------
  // reading from the tables

  /** A user row with its relations loaded from the two services' tables. */
  function Joined(users: UserTable, kyc: KycService, a: Account): (r: Listed)
    reads users, kyc
    requires kyc.Valid()
    ensures r.account == a
    ensures r.profile.Some? <==> a.id in users.profiles
    ensures r.profile.Some? ==> r.profile.value == users.profiles[a.id]
    ensures r.kyc.Some? <==> kyc.HasRecordOf(a.id)
    ensures r.kyc.Some? ==> r.kyc.value in kyc.records.Values && r.kyc.value.owner == a.id
  {
    Listed(a, if a.id in users.profiles then Some(users.profiles[a.id]) else None, kyc.RecordOf(a.id))
  }

  function JoinAll(accounts: seq<Account>, users: UserTable, kyc: KycService): (r: seq<Listed>)
    reads users, kyc
    requires kyc.Valid()
    ensures |r| == |accounts|
    ensures forall i :: 0 <= i < |r| ==> r[i] == Joined(users, kyc, accounts[i])
  {
    if accounts == [] then [] else [Joined(users, kyc, accounts[0])] + JoinAll(accounts[1..], users, kyc)
  }

  lemma JoinAllRows(accounts: seq<Account>, users: UserTable, kyc: KycService)
    requires kyc.Valid()
    ensures forall x :: x in JoinAll(accounts, users, kyc) ==>
      x.account in accounts && x == Joined(users, kyc, x.account)
  {
    var r := JoinAll(accounts, users, kyc);
    forall x | x in r ensures x.account in accounts && x == Joined(users, kyc, x.account) {
      var i :| 0 <= i < |r| && r[i] == x;
    }
  }

  /** `findAll`: the pipeline over every user row with its relations. */
  function FindAll(users: UserTable, kyc: KycService, q: ListQuery, key: Account -> int): (r: Result<Listing, Error>)
    reads users, kyc
    requires users.Valid() && kyc.Valid()
    requires q.page >= 1 && q.limit >= 1
    ensures r.Ok? <==> ParseSortOrder(q.sortOrder).Some?
    ensures r.Ok? ==> |r.value.data| <= q.limit
    ensures r.Ok? ==> forall x :: x in r.value.data ==>
      x.account in users.accounts.Values && Matches(q, x) && x == Joined(users, kyc, x.account)
  {
    var scanned := Seqs.Scan(users.accounts, users.nextId);
    var rows := JoinAll(scanned, users, kyc);
    var r := ListUsers(rows, q, key);
    if r.Ok? then
      ListingContents(rows, q, key);
      JoinAllRows(scanned, users, kyc);
      assert forall a :: a in scanned ==> a in users.accounts.Values;
      r
    else r
  }

  /** `findOne`: the user with both relations, or NotFound. */
  function FindOne(users: UserTable, kyc: KycService, id: Uuid): (r: Result<Listed, Error>)
    reads users, kyc
    requires users.Valid() && kyc.Valid()
    ensures r.Ok? <==> id in users.accounts
    ensures r.Ok? ==> r.value == Joined(users, kyc, users.accounts[id])
    ensures r.Ok? ==> (r.value.kyc.None? <==> !kyc.HasRecordOf(id))
    ensures r.Err? ==> r.error == NotFound("User not found")
  {
    if id in users.accounts then Ok(Joined(users, kyc, users.accounts[id])) else Err(NotFound("User not found"))
  }

  /** `findProfile`: the user's profile, or NotFound. */
  function FindProfile(users: UserTable, userId: Uuid): (r: Result<Profile, Error>)
    reads users
    requires users.Valid()
    ensures r.Ok? <==> userId in users.profiles
    ensures r.Ok? ==> r.value == users.profiles[userId] && r.value.userId == userId
    ensures r.Err? ==> r.error == NotFound("Profile not found")
  {
    if userId in users.profiles then Ok(users.profiles[userId]) else Err(NotFound("Profile not found"))
  }

  // ---------------------------------------------------------------------------
  // updateProfile

  /**
   * `Object.assign(profile, dto)`: each key present in the body replaces its
   * field; `dateOf` is how the date column reads the date string.
   */
  function MergeProfile(p: Profile, patch: UpdateProfileBody, dateOf: string -> Timestamp): Profile {
    p.(fullName := patch.fullName.GetOr(p.fullName),
       email := patch.email.GetOr(p.email),
       phone := patch.phone.GetOr(p.phone),
       dateOfBirth := if patch.dateOfBirth.Some? then dateOf(patch.dateOfBirth.value) else p.dateOfBirth,
       address := patch.address.GetOr(p.address),
       city := patch.city.GetOr(p.city),
       country := patch.country.GetOr(p.country),
       nationality := patch.nationality.GetOr(p.nationality),
       occupation := patch.occupation.GetOr(p.occupation))
  }

  /** The keys present in the body are exactly the fields that may change. */
  lemma MergeChangesOnlyPresentKeys(p: Profile, patch: UpdateProfileBody, dateOf: string -> Timestamp)
    ensures var m := MergeProfile(p, patch, dateOf);
      && m.userId == p.userId
      && (patch.fullName.None? ==> m.fullName == p.fullName)
      && (patch.fullName.Some? ==> m.fullName == patch.fullName.value)
      && (patch.email.None? ==> m.email == p.email)
      && (patch.email.Some? ==> m.email == patch.email.value)
      && (patch.phone.None? ==> m.phone == p.phone)
      && (patch.phone.Some? ==> m.phone == patch.phone.value)
      && (patch.dateOfBirth.None? ==> m.dateOfBirth == p.dateOfBirth)
      && (patch.address.None? ==> m.address == p.address)
      && (patch.city.None? ==> m.city == p.city)
      && (patch.country.None? ==> m.country == p.country)
      && (patch.nationality.None? ==> m.nationality == p.nationality)
      && (patch.occupation.None? ==> m.occupation == p.occupation)
  {
  }

  /** The empty body changes nothing, and sending a body twice is sending it once. */
  lemma MergeLaws(p: Profile, patch: UpdateProfileBody, dateOf: string -> Timestamp)
    ensures MergeProfile(p, UpdateProfileDto.Empty, dateOf) == p
    ensures MergeProfile(MergeProfile(p, patch, dateOf), patch, dateOf) == MergeProfile(p, patch, dateOf)
  {
  }

  /**
   * `updateProfile`: NotFound without a profile; otherwise the merged profile
   * is saved, unless its email belongs to another profile.
   */
  method UpdateProfile(users: UserTable, userId: Uuid, patch: UpdateProfileBody, dateOf: string -> Timestamp)
    returns (r: Result<Profile, Error>)
    requires users.Valid()
    modifies users
    ensures users.Valid()
    ensures users.accounts == old(users.accounts) && users.nextId == old(users.nextId)
    ensures userId !in old(users.profiles) ==>
      r == Err(NotFound("Profile not found")) && users.profiles == old(users.profiles)
    ensures userId in old(users.profiles) ==>
      var m := MergeProfile(old(users.profiles[userId]), patch, dateOf);
      && (r.Ok? <==> !exists u :: u in old(users.profiles) && u != userId && old(users.profiles[u]).email == m.email)
      && (r.Ok? ==> r.value == m && users.profiles == old(users.profiles)[userId := m])
      && (r.Err? ==> r.error == Database(UniqueViolation) && users.profiles == old(users.profiles))
  {
    var found := FindProfile(users, userId);
    if found.Err? {
      return Err(found.error);
    }
    var m := MergeProfile(found.value, patch, dateOf);
    r := users.SaveProfile(m);
  }
}
