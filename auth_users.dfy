/**
 * The credential store behind `IUserRepository`: the Users table as a
 * sequence of rows in table order, with an identity counter for `Id`.
 */
module Users {
  import opened Wrappers
  import opened Accounts
  import opened Seqs

  /** The first row with this username, as an index. */
  function IndexOfUsername(rows: seq<Account>, username: string): (r: Option<nat>)
    ensures r.Some? ==> r.value < |rows| && rows[r.value].username == username
    ensures r.Some? ==> forall j :: 0 <= j < r.value ==> rows[j].username != username
    ensures r.None? <==> forall j :: 0 <= j < |rows| ==> rows[j].username != username
  {
    FirstIndex(rows, (a: Account) => a.username == username)
  }

  /** The first row with this id, as an index. */
  function IndexOfId(rows: seq<Account>, id: int): (r: Option<nat>)
    ensures r.Some? ==> r.value < |rows| && rows[r.value].id == id
    ensures r.Some? ==> forall j :: 0 <= j < r.value ==> rows[j].id != id
    ensures r.None? <==> forall j :: 0 <= j < |rows| ==> rows[j].id != id
  {
    FirstIndex(rows, (a: Account) => a.id == id)
  }

  /** `UsernameExistsAsync` (`AnyAsync`). */
  predicate UsernameExists(rows: seq<Account>, username: string)
  {
    IndexOfUsername(rows, username).Some?
  }

  /** `GetByUsernameAsync` (`SingleOrDefaultAsync`); usernames are unique, so the first match is the single one. */
  function ByUsername(rows: seq<Account>, username: string): Option<Account>
  {
    match IndexOfUsername(rows, username)
    case None => None
    case Some(i) => Some(rows[i])
  }

  ghost predicate UniqueUsernames(rows: seq<Account>)
  {
    forall i, j :: 0 <= i < j < |rows| ==> rows[i].username != rows[j].username
  }

  ghost predicate UniqueIds(rows: seq<Account>)
  {
    forall i, j :: 0 <= i < j < |rows| ==> rows[i].id != rows[j].id
  }

  ghost predicate IdsBelow(rows: seq<Account>, next: int)
  {
    forall i :: 0 <= i < |rows| ==> 1 <= rows[i].id < next
  }

  /** A username that no row has is found, after it is appended, at the appended row. */
  lemma {:induction false} IndexOfAppended(rows: seq<Account>, a: Account)
    requires !UsernameExists(rows, a.username)
    ensures IndexOfUsername(rows + [a], a.username) == Some(|rows|)
  {
    if |rows| > 0 {
      assert (rows + [a])[1..] == rows[1..] + [a];
      assert !UsernameExists(rows[1..], a.username);
      IndexOfAppended(rows[1..], a);
    }
  }

  class UserStore {
    var rows: seq<Account>
    var nextId: int

    /** Identity ids are positive, below the counter and unique; usernames are unique. */
    ghost predicate Valid()
      reads this
    {
      nextId >= 1 && IdsBelow(rows, nextId) && UniqueIds(rows) && UniqueUsernames(rows)
    }

    constructor ()
      ensures Valid() && rows == [] && nextId == 1
    {
      rows := [];
      nextId := 1;
    }

    /**
     * `AddAsync` followed by `SaveChangesAsync`: the row is committed with the
     * next identity value as its Id.
     */
    method Insert(a: Account) returns (saved: Account)
      requires Valid() && !UsernameExists(rows, a.username)
      modifies this
      ensures Valid()
      ensures saved == a.(id := old(nextId))
      ensures rows == old(rows) + [saved] && nextId == old(nextId) + 1
    {
      saved := a.(id := nextId);
      rows := rows + [saved];
      nextId := nextId + 1;
    }

    /** Changes made to the tracked entity at index `i`, committed by `SaveChangesAsync`. */
    method SaveTracked(i: nat, a: Account)
      requires Valid() && i < |rows| && a.id == rows[i].id && a.username == rows[i].username
      modifies this
      ensures Valid()
      ensures rows == old(rows)[i := a] && nextId == old(nextId)
    {
      rows := rows[i := a];
    }
  }
}
