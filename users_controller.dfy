/**
 * The `/users` routes (users.controller.ts): the guards, the self-or-officer
 * check on reading a profile, and the mapping of storage errors on `create`.
 */
module UsersController {
  import opened Wrappers
  import opened Common
  import opened UserStore
  import opened Kyc
  import opened Guards
  import opened GetUsersDto
  import CreateUserDto
  import UpdateProfileDto
  import opened Users

  /** GET /users: officers only; an invalid query is a 400. */
  function GetUsersHandler(users: UserTable, kyc: KycService, caller: Option<Caller>, query: GetUsersQuery,
                           key: Account -> int): (r: Result<Listing, Error>)
    reads users, kyc
    requires users.Valid() && kyc.Valid()
    ensures caller.None? ==> r == Err(Unauthorized("Unauthorized"))
    ensures caller.Some? && caller.value.role != Officer ==> r == Err(Forbidden("Forbidden resource"))
    ensures caller.Some? && caller.value.role == Officer && !GetUsersDto.Valid(query) ==> r == Err(BadRequest(None))
    ensures caller.Some? && caller.value.role == Officer && GetUsersDto.Valid(query) ==>
      r == FindAll(users, kyc, Resolve(query).value, key)
  {
    var _ :- Authorize(caller, {Officer});
    var q :- Resolve(query);
    FindAll(users, kyc, q, key)
  }

  /** GET /users/me: the caller's own user. */
  function MeHandler(users: UserTable, kyc: KycService, caller: Option<Caller>): (r: Result<Listed, Error>)
    reads users, kyc
    requires users.Valid() && kyc.Valid()
    ensures caller.None? ==> r == Err(Unauthorized("Unauthorized"))
    ensures caller.Some? ==> r == FindOne(users, kyc, caller.value.id)
    ensures r.Ok? ==> r.value.account.id == caller.value.id
  {
    var c :- Authorize(caller, {});
    FindOne(users, kyc, c.id)
  }

  /** GET /users/:id/profile: a non-officer may only read their own profile. */
  function GetUserProfileHandler(users: UserTable, caller: Option<Caller>, id: Uuid): (r: Result<Profile, Error>)
    reads users
    requires users.Valid()
    ensures r.Ok? <==> (caller.Some? && (caller.value.role == Officer || caller.value.id == id) &&
                        id in users.profiles)
    ensures r.Ok? ==> r.value == users.profiles[id]
    ensures caller.None? ==> r == Err(Unauthorized("Unauthorized"))
    ensures caller.Some? && caller.value.role != Officer && caller.value.id != id ==>
      r == Err(Forbidden("You can only view your own profile"))
    ensures caller.Some? && (caller.value.role == Officer || caller.value.id == id) && id !in users.profiles ==>
      r == Err(NotFound("Profile not found"))
  {
    var c :- Authorize(caller, {});
    if c.role != Officer && c.id != id then Err(Forbidden("You can only view your own profile"))
    else FindProfile(users, id)
  }

  /**
   * PATCH /users/:id/profile: any authenticated caller reaches the service,
   * whoever owns the profile.
   */
  method UpdateProfileHandler(users: UserTable, caller: Option<Caller>, id: Uuid,
                              body: UpdateProfileDto.UpdateProfileBody,
                              isEmail: string -> bool, isPhone: string -> bool, isDate: string -> bool,
                              dateOf: string -> Timestamp)
    returns (r: Result<Profile, Error>)
    requires users.Valid()
    modifies users
    ensures users.Valid()
    ensures users.accounts == old(users.accounts) && users.nextId == old(users.nextId)
    ensures caller.None? ==> r == Err(Unauthorized("Unauthorized")) && users.profiles == old(users.profiles)
    ensures caller.Some? && !UpdateProfileDto.Valid(body, isEmail, isPhone, isDate) ==>
      r == Err(BadRequest(None)) && users.profiles == old(users.profiles)
    ensures caller.Some? && UpdateProfileDto.Valid(body, isEmail, isPhone, isDate) && id !in old(users.profiles) ==>
      r == Err(NotFound("Profile not found")) && users.profiles == old(users.profiles)
    ensures caller.Some? && UpdateProfileDto.Valid(body, isEmail, isPhone, isDate) && id in old(users.profiles) ==>
      var m := MergeProfile(old(users.profiles[id]), body, dateOf);
      && (r.Ok? <==> !exists u :: u in old(users.profiles) && u != id && old(users.profiles[u]).email == m.email)
      && (r.Ok? ==> r.value == m && users.profiles == old(users.profiles)[id := m])
      && (r.Err? ==> r.error == Database(UniqueViolation) && users.profiles == old(users.profiles))
  {
    var c := Authorize(caller, {});
    if c.Err? {
      return Err(c.error);
    }
    if !UpdateProfileDto.Valid(body, isEmail, isPhone, isDate) {
      return Err(BadRequest(None));
    }
    r := UpdateProfile(users, id, body, dateOf);
  }

  /** The `catch` of `create`: a unique violation is reported as a taken username. */
  function CreateErrorMapping(e: Error): (r: Error)
    ensures e == Database(UniqueViolation) ==> r == Conflict("Username already exists")
    ensures e != Database(UniqueViolation) ==> r == e
  {
    if e.Database? && e.code == UniqueViolation then Conflict("Username already exists") else e
  }

  /**
   * POST /users: public. A taken email is a unique violation too, so it is
   * answered as if the username were taken.
   */
  method CreateHandler(users: UserTable, body: CreateUserDto.CreateUserBody, isEmail: string -> bool, now: Timestamp)
    returns (r: Result<CreatedUser, Error>)
    requires users.Valid()
    modifies users
    ensures users.Valid()
    ensures !CreateUserDto.Valid(body, isEmail) ==>
      r == Err(BadRequest(None)) && users.accounts == old(users.accounts) && users.profiles == old(users.profiles)
    ensures CreateUserDto.Valid(body, isEmail) ==>
      (r.Ok? <==> !old(users.UsernameTaken(body.username)) && !old(users.EmailTaken(body.email)))
    ensures CreateUserDto.Valid(body, isEmail) && r.Err? ==>
      r == Err(Conflict("Username already exists")) &&
      users.accounts == old(users.accounts) && users.profiles == old(users.profiles)
    ensures r.Ok? ==> users.accounts.Keys == old(users.accounts.Keys) + {r.value.id}
  {
    if !CreateUserDto.Valid(body, isEmail) {
      return Err(BadRequest(None));
    }
    var created := Create(users, body, now);
    if created.Err? {
      return Err(CreateErrorMapping(created.error));
    }
    r := created;
  }
}
