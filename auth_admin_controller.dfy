/**
 * `AdminController`: the admin endpoints, all behind `[Authorize(Roles = "Admin")]`.
 */
module AdminController {
  import opened Wrappers
  import opened Accounts
  import opened Users
  import AdminService
  import Jwt

  datatype Body = Users(users: seq<AdminService.UserDto>) | Text(text: string) | NoBody

  datatype Response = Response(status: int, body: Body)

  /** The caller holds a Role claim with the value "Admin". */
  predicate IsAdmin(claims: seq<Jwt.Claim>)
  {
    exists i :: 0 <= i < |claims| && claims[i] == Jwt.Claim(Jwt.Role, "Admin")
  }

  /** The authorization filter: 401 without a valid token, 403 without the Admin role, otherwise none. */
  function Gate(principal: Jwt.Principal): (refused: Option<Response>)
    ensures refused.None? <==> principal.Some? && IsAdmin(principal.value)
    ensures refused.Some? ==> refused.value.body == NoBody
                              && (refused.value.status == 401 <==> principal.None?)
                              && (refused.value.status == 403 <==> principal.Some?)
  {
    match principal
    case None => Some(Response(401, NoBody))
    case Some(claims) => if IsAdmin(claims) then None else Some(Response(403, NoBody))
  }

  /** `GET /api/admin`. */
  function GetAll(principal: Jwt.Principal, rows: seq<Account>): (resp: Response)
    ensures resp.status == 200 <==> principal.Some? && IsAdmin(principal.value)
    ensures resp.status == 200 ==> resp.body == Users(AdminService.GetAll(rows))
    ensures resp.status == 200 ==> |resp.body.users| == |rows|
                                   && forall i :: 0 <= i < |rows| ==> resp.body.users[i] == AdminService.View(rows[i])
    ensures resp.status != 200 ==> resp == Gate(principal).value
  {
    match Gate(principal)
    case Some(refused) => refused
    case None => Response(200, Users(AdminService.GetAll(rows)))
  }

  /** How `Block` and `Unblock` answer once the service has: 204, 404 or 400 with the message. */
  function UpdateResult(r: Result<(), Exception>): (resp: Response)
    ensures resp.status == 204 <==> r.Ok?
    ensures resp.status == 404 <==> r.Err? && r.error.KeyNotFound?
    ensures resp.status == 400 <==> r.Err? && r.error.InvalidOperation?
    ensures resp.status == 400 ==> resp.body == Text(r.error.message)
  {
    match r
    case Ok(_) => Response(204, NoBody)
    case Err(KeyNotFound(_)) => Response(404, NoBody)
    case Err(InvalidOperation(message)) => Response(400, Text(message))
    case Err(_) => Response(500, NoBody)
  }

  /** `PUT /api/admin/{id}/block`. */
  method Block(principal: Jwt.Principal, store: UserStore, id: int, now: nat) returns (resp: Response)
    requires store.Valid()
    modifies store
    ensures store.Valid()
    ensures Gate(principal).Some? ==> resp == Gate(principal).value && store.rows == old(store.rows)
    ensures Gate(principal).None? ==>
              var o := AdminService.Block(old(store.rows), id, now);
              store.rows == o.rows && resp == UpdateResult(o.result)
  {
    var refused := Gate(principal);
    if refused.Some? {
      return refused.value;
    }
    var r := AdminService.BlockAsync(store, id, now);
    resp := UpdateResult(r);
  }

  /** `PUT /api/admin/{id}/unblock`. */
  method Unblock(principal: Jwt.Principal, store: UserStore, id: int) returns (resp: Response)
    requires store.Valid()
    modifies store
    ensures store.Valid()
    ensures Gate(principal).Some? ==> resp == Gate(principal).value && store.rows == old(store.rows)
    ensures Gate(principal).None? ==>
              var o := AdminService.Unblock(old(store.rows), id);
              store.rows == o.rows && resp == UpdateResult(o.result)
  {
    var refused := Gate(principal);
    if refused.Some? {
      return refused.value;
    }
    var r := AdminService.UnblockAsync(store, id);
    resp := UpdateResult(r);
  }

  /** Service errors never reach a 500: the admin updates fail only with the two handled kinds. */
  lemma UpdatesNeverFail500(rows: seq<Account>, id: int, now: nat)
    ensures UpdateResult(AdminService.Block(rows, id, now).result).status in {204, 400, 404}
    ensures UpdateResult(AdminService.Unblock(rows, id).result).status in {204, 400, 404}
  {
  }
}
