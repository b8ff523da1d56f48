/**
 * The stakeholders user repository: read one profile, update the five
 * profile fields of one profile, list every profile. The `Users` table is
 * a sequence of rows with distinct primary keys.
 */
module Stakeholders {
  import opened Wrappers
  import opened Seqs

  datatype User = User(
    id: int,
    username: string,
    email: string,
    passwordHash: string,
    role: string,
    createdAt: nat,
    description: string,
    firstName: string,
    lastName: string,
    moto: string,
    profilePhoto: string)

  /** The error the ORM reports when no row has the key. */
  const RecordNotFound := "record not found"

  ghost predicate UniqueIds(users: seq<User>)
  {
    forall i, j :: 0 <= i < j < |users| ==> users[i].id != users[j].id
  }

  /** The position of the row with primary key `id`, if any. */
  function IndexOfId(users: seq<User>, id: int): (r: Option<nat>)
    ensures r.Some? ==> r.value < |users| && users[r.value].id == id
                        && forall j :: 0 <= j < r.value ==> users[j].id != id
    ensures r.None? <==> forall j :: 0 <= j < |users| ==> users[j].id != id
  {
    FirstIndex(users, (u: User) => u.id == id)
  }

  /** `GetById`: the row with the key, or the not-found error. */
  function Lookup(users: seq<User>, id: int): (r: Result<User, string>)
    ensures r.Ok? <==> exists i :: 0 <= i < |users| && users[i].id == id
    ensures r.Ok? ==> r.value in users && r.value.id == id
    ensures r.Err? ==> r.error == RecordNotFound
  {
    match IndexOfId(users, id)
      case None => Err(RecordNotFound)
      case Some(i) => Ok(users[i])
  }

  /** The five assignments of `Update`: the profile fields come from `update`, everything else stays. */
  function Profiled(existing: User, update: User): User
  {
    existing.(firstName := update.firstName, lastName := update.lastName,
              profilePhoto := update.profilePhoto, description := update.description,
              moto := update.moto)
  }

  /** Update touches the five profile fields and only those: identity, credentials and role are kept. */
  lemma ProfiledFields(existing: User, update: User)
    ensures var u := Profiled(existing, update);
            && u.id == existing.id && u.username == existing.username && u.email == existing.email
            && u.passwordHash == existing.passwordHash && u.role == existing.role
            && u.createdAt == existing.createdAt
            && u.firstName == update.firstName && u.lastName == update.lastName
            && u.profilePhoto == update.profilePhoto && u.description == update.description
            && u.moto == update.moto
  {
  }

  /** Applying the same update twice is applying it once; an update from the row itself is a no-op. */
  lemma ProfiledIdempotent(existing: User, update: User)
    ensures Profiled(Profiled(existing, update), update) == Profiled(existing, update)
    ensures Profiled(existing, existing) == existing
  {
  }

  /** Only the later of two updates counts. */
  lemma ProfiledLastWins(existing: User, first: User, second: User)
    ensures Profiled(Profiled(existing, first), second) == Profiled(existing, second)
  {
  }

  class UserRepository {
    var users: seq<User>

    ghost predicate Valid()
      reads this
    {
      UniqueIds(users)
    }

    constructor(users: seq<User>)
      requires UniqueIds(users)
      ensures this.users == users && Valid()
    {
      this.users := users;
    }

    method GetById(id: int) returns (r: Result<User, string>)
      ensures r == Lookup(users, id)
    {
      r := Lookup(users, id);
    }

    /**
     * `Update`: load, copy the five fields, save. An unknown id and a failed
     * save (`saveError`) return the error and leave the table as it was.
     */
    method Update(id: int, update: User, saveError: Option<string>) returns (r: Result<User, string>)
      requires Valid()
      modifies this
      ensures Valid()
      ensures match Lookup(old(users), id)
        case Err(e) => r == Err(e) && users == old(users)
        case Ok(existing) =>
          match saveError
            case Some(e) => r == Err(e) && users == old(users)
            case None =>
              && r == Ok(Profiled(existing, update))
              && exists i :: 0 <= i < |old(users)| && old(users)[i].id == id
                             && users == old(users)[i := Profiled(existing, update)]
    {
      var found := IndexOfId(users, id);
      if found.None? {
        return Err(RecordNotFound);
      }
      var i := found.value;
      var saved := Profiled(users[i], update);
      if saveError.Some? {
        return Err(saveError.value);
      }
      users := users[i := saved];
      r := Ok(saved);
    }

    method GetAllUsers() returns (all: seq<User>)
      ensures all == users
    {
      all := users;
    }
  }

  /** After an update, reading the id returns the saved row, and other ids read as before. */
  lemma UpdateThenGet(users: seq<User>, i: nat, update: User, other: int)
    requires UniqueIds(users) && i < |users|
    ensures Lookup(users[i := Profiled(users[i], update)], users[i].id) == Ok(Profiled(users[i], update))
    ensures other != users[i].id ==>
              Lookup(users[i := Profiled(users[i], update)], other) == Lookup(users, other)
  {
    var after := users[i := Profiled(users[i], update)];
    assert forall j :: 0 <= j < |after| ==> after[j].id == users[j].id;
    var k := IndexOfId(after, users[i].id);
    assert k == Some(i);
  }
}
