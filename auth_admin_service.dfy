/**
 * `AdminService`: listing accounts and blocking or unblocking one of them.
 * `Block` and `Unblock` are the specification of the two store updates;
 * `BlockAsync` and `UnblockAsync` perform them on the store.
 */
module AdminService {
  import opened Wrappers
  import opened Accounts
  import opened Users

  /** The projection `GetAllAsync` returns: every column but the password hash. */
  datatype UserDto = UserDto(
    id: int, username: string, email: string, role: string,
    firstName: Option<string>, lastName: Option<string>, description: Option<string>,
    moto: Option<string>, profilePhoto: Option<string>,
    createdAt: nat, status: UserStatus, blockedAt: Option<nat>)

  function View(a: Account): UserDto
  {
    UserDto(a.id, a.username, a.email, a.role, a.firstName, a.lastName, a.description,
            a.moto, a.profilePhoto, a.createdAt, a.status, a.blockedAt)
  }

  /** `GetAllAsync`: one view per row, in table order. */
  function GetAll(rows: seq<Account>): (views: seq<UserDto>)
    ensures |views| == |rows|
    ensures forall i :: 0 <= i < |rows| ==> views[i] == View(rows[i])
  {
    if |rows| == 0 then [] else [View(rows[0])] + GetAll(rows[1..])
  }

  /** A view loses nothing but the password hash: two rows with equal views differ at most there. */
  lemma ViewKeepsAllButHash(a: Account, b: Account)
    requires View(a) == View(b)
    ensures a == b.(passwordHash := a.passwordHash)
  {
  }

  const UserNotFound := "User not found."
  const AlreadyBlocked := "User already blocked."
  const AlreadyActive := "User already active."

  /** The outcome of an admin update: what the call returns and the rows afterwards. */
  datatype Outcome = Outcome(result: Result<(), Exception>, rows: seq<Account>)

  /** `BlockAsync` as a function of the rows. */
  function Block(rows: seq<Account>, id: int, now: nat): Outcome
  {
    match IndexOfId(rows, id)
    case None => Outcome(Err(KeyNotFound(UserNotFound)), rows)
    case Some(i) =>
      if rows[i].status == Blocked then Outcome(Err(InvalidOperation(AlreadyBlocked)), rows)
      else Outcome(Ok(()), rows[i := rows[i].(status := Blocked, blockedAt := Some(now))])
  }

  /** `UnblockAsync` as a function of the rows. */
  function Unblock(rows: seq<Account>, id: int): Outcome
  {
    match IndexOfId(rows, id)
    case None => Outcome(Err(KeyNotFound(UserNotFound)), rows)
    case Some(i) =>
      if rows[i].status == Active then Outcome(Err(InvalidOperation(AlreadyActive)), rows)
      else Outcome(Ok(()), rows[i := rows[i].(status := Active, blockedAt := None)])
  }

  /** Every failure leaves the rows as they were, and each failure has its own reason. */
  lemma FailuresChangeNothing(rows: seq<Account>, id: int, now: nat)
    ensures Block(rows, id, now).result.Err? ==> Block(rows, id, now).rows == rows
    ensures Unblock(rows, id).result.Err? ==> Unblock(rows, id).rows == rows
    ensures Block(rows, id, now).result == Err(KeyNotFound(UserNotFound)) <==>
              forall j :: 0 <= j < |rows| ==> rows[j].id != id
    ensures Block(rows, id, now).result == Err(InvalidOperation(AlreadyBlocked)) <==>
              exists j :: 0 <= j < |rows| && rows[j].id == id && rows[j].status == Blocked
                          && forall k :: 0 <= k < j ==> rows[k].id != id
    ensures Unblock(rows, id).result == Err(InvalidOperation(AlreadyActive)) <==>
              exists j :: 0 <= j < |rows| && rows[j].id == id && rows[j].status == Active
                          && forall k :: 0 <= k < j ==> rows[k].id != id
  {
    var r := IndexOfId(rows, id);
    if r.Some? {
      forall j | 0 <= j < |rows| && rows[j].id == id && forall k :: 0 <= k < j ==> rows[k].id != id
        ensures j == r.value
      {
      }
    }
  }

  ghost predicate AllConsistent(rows: seq<Account>)
  {
    forall i :: 0 <= i < |rows| ==> StatusConsistent(rows[i])
  }

  /**
   * A successful update touches one row — the one with the id — and only its
   * status and blocked-at columns; and `BlockedAt` is set exactly when the
   * status is Blocked, before and after.
   */
  lemma BlockUpdatesOneRow(rows: seq<Account>, id: int, now: nat)
    requires Block(rows, id, now).result.Ok?
    ensures var o := Block(rows, id, now).rows;
            |o| == |rows|
            && exists i :: 0 <= i < |rows| && rows[i].id == id && rows[i].status == Active
                           && o[i] == rows[i].(status := Blocked, blockedAt := Some(now))
                           && forall j :: 0 <= j < |rows| && j != i ==> o[j] == rows[j]
  {
    var i := IndexOfId(rows, id).value;
    assert rows[i].id == id;
  }

  lemma UnblockUpdatesOneRow(rows: seq<Account>, id: int)
    requires Unblock(rows, id).result.Ok?
    ensures var o := Unblock(rows, id).rows;
            |o| == |rows|
            && exists i :: 0 <= i < |rows| && rows[i].id == id && rows[i].status == Blocked
                           && o[i] == rows[i].(status := Active, blockedAt := None)
                           && forall j :: 0 <= j < |rows| && j != i ==> o[j] == rows[j]
  {
    var i := IndexOfId(rows, id).value;
    assert rows[i].id == id;
  }

  lemma AdminKeepsStatusConsistent(rows: seq<Account>, id: int, now: nat)
    requires AllConsistent(rows)
    ensures AllConsistent(Block(rows, id, now).rows)
    ensures AllConsistent(Unblock(rows, id).rows)
  {
  }

  /** Blocking an active, consistent account and then unblocking it restores every row. */
  lemma {:induction false} BlockThenUnblock(rows: seq<Account>, id: int, now: nat)
    requires Block(rows, id, now).result.Ok? && AllConsistent(rows)
    ensures Unblock(Block(rows, id, now).rows, id) == Outcome(Ok(()), rows)
  {
    var i := IndexOfId(rows, id).value;
    var blocked := Block(rows, id, now).rows;
    assert blocked == rows[i := rows[i].(status := Blocked, blockedAt := Some(now))];
    var k := IndexOfId(blocked, id);
    assert k == Some(i) by {
      assert blocked[i].id == id;
    }
    assert StatusConsistent(rows[i]);
    assert blocked[i := blocked[i].(status := Active, blockedAt := None)] == rows;
  }

  /** `BlockAsync`: performs `Block` on the store. */
  method BlockAsync(store: UserStore, id: int, now: nat) returns (r: Result<(), Exception>)
    requires store.Valid()
    modifies store
    ensures store.Valid() && store.nextId == old(store.nextId)
    ensures Outcome(r, store.rows) == Block(old(store.rows), id, now)
  {
    var found := IndexOfId(store.rows, id);
    if found.None? {
      return Err(KeyNotFound(UserNotFound));
    }
    var i := found.value;
    var user := store.rows[i];
    if user.status == Blocked {
      return Err(InvalidOperation(AlreadyBlocked));
    }
    store.SaveTracked(i, user.(status := Blocked, blockedAt := Some(now)));
    r := Ok(());
  }

  /** `UnblockAsync`: performs `Unblock` on the store. */
  method UnblockAsync(store: UserStore, id: int) returns (r: Result<(), Exception>)
    requires store.Valid()
    modifies store
    ensures store.Valid() && store.nextId == old(store.nextId)
    ensures Outcome(r, store.rows) == Unblock(old(store.rows), id)
  {
    var found := IndexOfId(store.rows, id);
    if found.None? {
      return Err(KeyNotFound(UserNotFound));
    }
    var i := found.value;
    var user := store.rows[i];
    if user.status == Active {
      return Err(InvalidOperation(AlreadyActive));
    }
    store.SaveTracked(i, user.(status := Active, blockedAt := None));
    r := Ok(());
  }
}
