/**
 * `AuthService`: registration and login over the user store. Password
 * hashing is BCrypt, which the model takes as a pair of functions.
 */
module AuthService {
  import opened Wrappers
  import opened Text
  import opened Accounts
  import opened Users
  import Jwt

  /** `BCrypt.HashPassword` and `BCrypt.Verify`. */
  datatype Hasher = Hasher(hash: string -> string, verify: (string, string) -> bool)

  /** What BCrypt guarantees: a password verifies against its own hash, and a hash is never blank. */
  ghost predicate Sound(h: Hasher)
  {
    forall p :: h.verify(p, h.hash(p)) && Required(h.hash(p))
  }

  const UsernameTaken := "Username taken."
  const InvalidCredentials := "Invalid credentials."

  /** The row `RegisterAsync` commits: the request's fields, the hash, Id from the identity counter. */
  function Registered(dto: RegisterRequest, passwordHash: string, id: int, now: nat): (a: Account)
    ensures a.id == id && a.username == dto.username && a.email == dto.email && a.role == dto.role
    ensures a.passwordHash == passwordHash && a.createdAt == now && a.status == Active
  {
    NewAccount(dto, passwordHash, now).(id := id)
  }

  /**
   * `RegisterAsync`: a taken username fails with "Username taken." and leaves
   * the store alone (the password is never hashed); otherwise the new account
   * is appended and returned. `hashed` is the password handed to BCrypt.
   */
  method Register(store: UserStore, dto: RegisterRequest, hasher: Hasher, now: nat)
    returns (r: Result<Account, Exception>, hashed: Option<string>)
    requires store.Valid()
    modifies store
    ensures store.Valid()
    ensures UsernameExists(old(store.rows), dto.username) ==>
              r == Err(InvalidOperation(UsernameTaken)) && hashed == None
              && store.rows == old(store.rows) && store.nextId == old(store.nextId)
    ensures !UsernameExists(old(store.rows), dto.username) ==>
              hashed == Some(dto.password)
              && r == Ok(Registered(dto, hasher.hash(dto.password), old(store.nextId), now))
              && store.rows == old(store.rows) + [r.value] && store.nextId == old(store.nextId) + 1
  {
    if UsernameExists(store.rows, dto.username) {
      return Err(InvalidOperation(UsernameTaken)), None;
    }
    var user := NewAccount(dto, hasher.hash(dto.password), now);
    var saved := store.Insert(user);
    r, hashed := Ok(saved), Some(dto.password);
  }

  /** The claims `LoginAsync` puts into the token, in order. */
  function ClaimsOf(a: Account): seq<Jwt.Claim>
  {
    [Jwt.Claim(Jwt.NameIdentifier, Decimal(a.id)), Jwt.Claim(Jwt.Name, a.username),
     Jwt.Claim(Jwt.Role, a.role), Jwt.Claim(Jwt.Email, a.email)]
  }

  /**
   * `LoginAsync`: an unknown username and a wrong password fail alike with
   * "Invalid credentials."; otherwise the token carries the account's claims.
   * The account's status is not consulted.
   */
  function Login(rows: seq<Account>, dto: LoginRequest, hasher: Hasher, jwt: Jwt.JwtUtils, now: nat)
    : (r: Result<Jwt.Token, Exception>)
    ensures r == Err(UnauthorizedAccess(InvalidCredentials)) <==>
              ByUsername(rows, dto.username).None?
              || !hasher.verify(dto.password, ByUsername(rows, dto.username).value.passwordHash)
    ensures r.Ok? ==> ByUsername(rows, dto.username).Some?
                      && r.value.claims == ClaimsOf(ByUsername(rows, dto.username).value)
                      && r.value.expires == now + Jwt.OneDay
  {
    match ByUsername(rows, dto.username)
    case None => Err(UnauthorizedAccess(InvalidCredentials))
    case Some(user) =>
      if !hasher.verify(dto.password, user.passwordHash) then Err(UnauthorizedAccess(InvalidCredentials))
      else Jwt.GenerateToken(jwt, ClaimsOf(user), now)
  }

  /** An unknown username and a wrong password for a known one cannot be told apart. */
  lemma EnumerationResistance(rows: seq<Account>, unknown: LoginRequest, wrong: LoginRequest,
                              hasher: Hasher, jwt: Jwt.JwtUtils, now: nat)
    requires !UsernameExists(rows, unknown.username)
    requires UsernameExists(rows, wrong.username)
    requires !hasher.verify(wrong.password, ByUsername(rows, wrong.username).value.passwordHash)
    ensures Login(rows, unknown, hasher, jwt, now) == Login(rows, wrong, hasher, jwt, now)
  {
  }

  /**
   * A user who has just registered can log in with the same credentials at
   * any later time, and the token names the new account.
   */
  lemma RegisterThenLogin(rows: seq<Account>, dto: RegisterRequest, hasher: Hasher, jwt: Jwt.JwtUtils,
                          id: int, now: nat, later: nat)
    requires !UsernameExists(rows, dto.username)
    requires Sound(hasher) && Jwt.CanSign(jwt)
    ensures var a := Registered(dto, hasher.hash(dto.password), id, now);
            var r := Login(rows + [a], LoginRequest(dto.username, dto.password), hasher, jwt, later);
            r.Ok? && r.value.claims == ClaimsOf(a) && r.value.expires == later + Jwt.OneDay
  {
    var a := Registered(dto, hasher.hash(dto.password), id, now);
    IndexOfAppended(rows, a);
    assert hasher.verify(dto.password, hasher.hash(dto.password));
  }

  /** A blocked account still receives a token: `LoginAsync` never looks at the status. */
  lemma LoginIgnoresStatus(rows: seq<Account>, i: nat, dto: LoginRequest, hasher: Hasher,
                           jwt: Jwt.JwtUtils, now: nat)
    requires i < |rows| && UniqueUsernames(rows)
    requires rows[i].username == dto.username && rows[i].status == Blocked
    requires hasher.verify(dto.password, rows[i].passwordHash) && Jwt.CanSign(jwt)
    ensures Login(rows, dto, hasher, jwt, now).Ok?
  {
  }
}
