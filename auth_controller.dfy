/**
 * `AuthController`: the HTTP face of registration, login and `whoami`.
 * `[ApiController]` model validation answers 400 before an action runs; an
 * exception the action does not catch becomes a 500.
 */
module AuthController {
  import opened Wrappers
  import opened Text
  import opened Accounts
  import opened Users
  import AuthService
  import Jwt

  datatype Body =
    | Text(text: string)
    | Registered(id: int, username: string, email: string, role: string)
    | TokenBody(token: Jwt.Token)
    | Message(message: string)
    | Identity(claimedName: Option<string>, claimedRole: Option<string>, claimedEmail: Option<string>, claimedId: Option<string>)
    | ValidationProblem
    | NoBody

  datatype Response = Response(status: int, body: Body)

  const InvalidUsernameOrPassword := "Invalid username or password."

  /** The body of `Register` once the service has answered. */
  function RegisterResult(r: Result<Account, Exception>): (resp: Response)
    ensures r.Ok? <==> resp.status == 200
    ensures resp.status == 400 <==> r.Err? && r.error.InvalidOperation?
    ensures r.Ok? ==> resp.body == Registered(r.value.id, r.value.username, r.value.email, r.value.role)
    ensures r.Err? && r.error.InvalidOperation? ==> resp.body == Text(r.error.message)
    ensures resp.status in {200, 400, 500}
  {
    match r
    case Ok(user) => Response(200, Registered(user.id, user.username, user.email, user.role))
    case Err(InvalidOperation(message)) => Response(400, Text(message))
    case Err(_) => Response(500, NoBody)
  }

  /** `POST /api/auth/register`. */
  method Register(store: UserStore, dto: RegisterRequest, hasher: AuthService.Hasher, now: nat)
    returns (resp: Response)
    requires store.Valid()
    modifies store
    ensures store.Valid()
    ensures !ValidRegisterRequest(dto) ==>
              resp == Response(400, ValidationProblem) && store.rows == old(store.rows)
    ensures ValidRegisterRequest(dto) && UsernameExists(old(store.rows), dto.username) ==>
              resp == Response(400, Text(AuthService.UsernameTaken)) && store.rows == old(store.rows)
    ensures ValidRegisterRequest(dto) && !UsernameExists(old(store.rows), dto.username) ==>
              resp == Response(200, Registered(old(store.nextId), dto.username, dto.email, dto.role))
              && |store.rows| == |old(store.rows)| + 1
  {
    if !ValidRegisterRequest(dto) {
      return Response(400, ValidationProblem);
    }
    var r, _ := AuthService.Register(store, dto, hasher, now);
    resp := RegisterResult(r);
  }

  /** The body of `Login` once the service has answered; `AccountBlockedException` would give 423. */
  function LoginResult(r: Result<Jwt.Token, Exception>): (resp: Response)
    ensures r.Ok? <==> resp.status == 200
    ensures resp.status == 401 <==> r.Err? && r.error.UnauthorizedAccess?
    ensures resp.status == 423 <==> r.Err? && r.error.AccountBlocked?
    ensures r.Ok? ==> resp.body == TokenBody(r.value)
    ensures resp.status == 401 ==> resp.body == Text(InvalidUsernameOrPassword)
    ensures resp.status in {200, 401, 423, 500}
  {
    match r
    case Ok(token) => Response(200, TokenBody(token))
    case Err(UnauthorizedAccess(_)) => Response(401, Text(InvalidUsernameOrPassword))
    case Err(AccountBlocked(message)) => Response(423, Message(message))
    case Err(_) => Response(500, NoBody)
  }

  /** `POST /api/auth/login`. */
  function Login(rows: seq<Account>, dto: LoginRequest, hasher: AuthService.Hasher, jwt: Jwt.JwtUtils, now: nat)
    : Response
  {
    if !ValidLoginRequest(dto) then Response(400, ValidationProblem)
    else LoginResult(AuthService.Login(rows, dto, hasher, jwt, now))
  }

  /**
   * What a login request can get back: a token exactly when the credentials
   * are right, the same 401 for an unknown user and a wrong password, and
   * never the 423 the controller is prepared to send, since the service
   * does not throw `AccountBlockedException`.
   */
  lemma LoginOutcomes(rows: seq<Account>, dto: LoginRequest, hasher: AuthService.Hasher, jwt: Jwt.JwtUtils, now: nat)
    ensures var resp := Login(rows, dto, hasher, jwt, now);
            && resp.status != 423
            && (resp.status == 200 <==>
                  ValidLoginRequest(dto) && Jwt.CanSign(jwt) && ByUsername(rows, dto.username).Some?
                  && hasher.verify(dto.password, ByUsername(rows, dto.username).value.passwordHash))
            && (resp.status == 401 <==>
                  ValidLoginRequest(dto)
                  && (ByUsername(rows, dto.username).None?
                      || !hasher.verify(dto.password, ByUsername(rows, dto.username).value.passwordHash)))
  {
  }

  /** `GET /api/auth/whoami` (`[Authorize]`): the four claims of the caller, each possibly absent. */
  function WhoAmI(principal: Jwt.Principal): Response
  {
    match principal
    case None => Response(401, NoBody)
    case Some(claims) =>
      Response(200, Identity(Jwt.FindFirst(claims, Jwt.Name), Jwt.FindFirst(claims, Jwt.Role),
                             Jwt.FindFirst(claims, Jwt.Email), Jwt.FindFirst(claims, Jwt.NameIdentifier)))
  }

  /** Presenting a token issued by login, `whoami` reports the account it was issued for. */
  lemma WhoAmIEchoesLogin(a: Account)
    ensures WhoAmI(Some(AuthService.ClaimsOf(a)))
            == Response(200, Identity(Some(a.username), Some(a.role), Some(a.email), Some(Decimal(a.id))))
  {
    var c := AuthService.ClaimsOf(a);
    assert c[0].kind == Jwt.NameIdentifier && c[1].kind == Jwt.Name;
    assert c[2].kind == Jwt.Role && c[3].kind == Jwt.Email;
  }
}
