/**
 * The `user` and `profile` tables (user.entity.ts, profile.entity.ts and the
 * initial migration) as the services see them through their repositories:
 * rows keyed by generated ids, the UNIQUE constraints on `username`, `email`
 * and `profile.userId`, and the primitive writes the services issue.
 */
module UserStore {
  import opened Wrappers
  import opened Common
  import opened Crypto

  /** A row of the `user` table. */
  datatype Account = Account(
    id: Uuid,
    username: string,
    password: Hash<string>,
    role: Role,
    createdAt: Timestamp,
    refreshToken: Option<Hash<Token>>)

  /** A row of the `profile` table, identified by the user it belongs to. */
  datatype Profile = Profile(
    userId: Uuid,
    fullName: string,
    email: string,
    phone: string,
    dateOfBirth: Timestamp,
    address: string,
    city: string,
    country: string,
    nationality: string,
    occupation: string)

  class UserTable {
    var accounts: map<Uuid, Account>
    /** Profiles by the id of their user (`profile.userId` is UNIQUE). */
    var profiles: map<Uuid, Profile>
    var nextId: Uuid

    ghost predicate Valid()
      reads this
    {
      && (forall id :: id in accounts ==> id < nextId && accounts[id].id == id)
      && (forall a, b :: a in accounts && b in accounts && accounts[a].username == accounts[b].username ==> a == b)
      && (forall u :: u in profiles ==> u in accounts && profiles[u].userId == u)
      && (forall a, b :: a in profiles && b in profiles && profiles[a].email == profiles[b].email ==> a == b)
    }

    constructor ()
      ensures Valid() && accounts == map[] && profiles == map[] && nextId == 0
    {
      accounts := map[];
      profiles := map[];
      nextId := 0;
    }

    predicate UsernameTaken(username: string)
      reads this
    {
      exists id :: id in accounts && accounts[id].username == username
    }

    predicate EmailTaken(email: string)
      reads this
    {
      exists u :: u in profiles && profiles[u].email == email
    }

    /** `findOne({ where: { username } })`. */
    function FindByUsername(username: string): (r: Option<Account>)
      reads this
      requires Valid()
      ensures r.Some? <==> UsernameTaken(username)
      ensures r.Some? ==> r.value.id in accounts && accounts[r.value.id] == r.value && r.value.username == username
    {
      if UsernameTaken(username) then
        var id :| id in accounts && accounts[id].username == username;
        Some(accounts[id])
      else None
    }

    /** `findOne({ where: { id } })`. */
    function FindById(id: Uuid): (r: Option<Account>)
      reads this
      ensures r.Some? <==> id in accounts
      ensures r.Some? ==> r.value == accounts[id]
    {
      if id in accounts then Some(accounts[id]) else None
    }

    /** Saving a new user row; a taken username violates the UNIQUE constraint. */
    method InsertAccount(username: string, password: Hash<string>, role: Role, now: Timestamp)
      returns (r: Result<Account, Error>)
      requires Valid()
      modifies this
      ensures Valid() && profiles == old(profiles)
      ensures r.Err? <==> old(UsernameTaken(username))
      ensures r.Err? ==> r.error == Database(UniqueViolation) && accounts == old(accounts) && nextId == old(nextId)
      ensures r.Ok? ==> r.value == Account(old(nextId), username, password, role, now, None)
      ensures r.Ok? ==> accounts == old(accounts)[r.value.id := r.value] && nextId == old(nextId) + 1
    {
      if UsernameTaken(username) {
        return Err(Database(UniqueViolation));
      }
      var a := Account(nextId, username, password, role, now, None);
      accounts := accounts[nextId := a];
      nextId := nextId + 1;
      r := Ok(a);
    }

    /**
     * Saving a new profile row; a taken email, or a user that already has a
     * profile, violates a UNIQUE constraint.
     */
    method InsertProfile(p: Profile) returns (r: Result<Profile, Error>)
      requires Valid()
      requires p.userId in accounts
      modifies this
      ensures Valid() && accounts == old(accounts) && nextId == old(nextId)
      ensures r.Err? <==> old(EmailTaken(p.email)) || p.userId in old(profiles)
      ensures r.Err? ==> r.error == Database(UniqueViolation) && profiles == old(profiles)
      ensures r.Ok? ==> r.value == p && profiles == old(profiles)[p.userId := p]
    {
      if EmailTaken(p.email) || p.userId in profiles {
        return Err(Database(UniqueViolation));
      }
      profiles := profiles[p.userId := p];
      r := Ok(p);
    }

    /** Saving a changed profile; a taken email violates the UNIQUE constraint. */
    method SaveProfile(p: Profile) returns (r: Result<Profile, Error>)
      requires Valid()
      requires p.userId in profiles
      modifies this
      ensures Valid() && accounts == old(accounts) && nextId == old(nextId)
      ensures r.Err? <==> exists u :: u in old(profiles) && u != p.userId && old(profiles[u]).email == p.email
      ensures r.Err? ==> r.error == Database(UniqueViolation) && profiles == old(profiles)
      ensures r.Ok? ==> r.value == p && profiles == old(profiles)[p.userId := p]
    {
      if exists u :: u in profiles && u != p.userId && profiles[u].email == p.email {
        return Err(Database(UniqueViolation));
      }
      profiles := profiles[p.userId := p];
      r := Ok(p);
    }

    /** `update(id, { refreshToken })`: writes the slot of that row, if the row exists. */
    method SetRefreshToken(id: Uuid, slot: Option<Hash<Token>>)
      requires Valid()
      modifies this
      ensures Valid() && profiles == old(profiles) && nextId == old(nextId)
      ensures accounts == if id in old(accounts) then old(accounts)[id := old(accounts)[id].(refreshToken := slot)]
                          else old(accounts)
    {
      if id in accounts {
        accounts := accounts[id := accounts[id].(refreshToken := slot)];
      }
    }
  }
}
