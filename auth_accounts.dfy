/**
 * The auth service's Account entity (the `User` model with the `Status` and
 * `BlockedAt` columns its migration adds), the register and login request
 * DTOs, the declarative validation those classes carry, and the exception
 * kinds the services throw.
 */
module Accounts {
  import opened Wrappers

  /** `UserStatus`: ACTIVE is the column default 0. */
  datatype UserStatus = Active | Blocked

  /** A row of the Users table; the profile columns are nullable. Instants are seconds. */
  datatype Account = Account(
    id: int,
    username: string,
    email: string,
    passwordHash: string,
    role: string,
    firstName: Option<string>,
    lastName: Option<string>,
    description: Option<string>,
    moto: Option<string>,
    profilePhoto: Option<string>,
    createdAt: nat,
    status: UserStatus,
    blockedAt: Option<nat>)

  datatype RegisterRequest = RegisterRequest(username: string, email: string, password: string, role: string)

  datatype LoginRequest = LoginRequest(username: string, password: string)

  /** The .NET exception kinds that cross the service/controller boundary. */
  datatype Exception =
    | InvalidOperation(message: string)
    | UnauthorizedAccess(message: string)
    | KeyNotFound(message: string)
    | AccountBlocked(message: string)
    | ArgumentNull(message: string)
    | Argument(message: string)

  /** `char.IsWhiteSpace` on the characters a form field can plausibly carry. */
  predicate IsWhiteSpace(c: char)
  {
    c == ' ' || c == '\t' || c == '\n' || c == '\r' || c == '\U{000B}' || c == '\U{000C}' || c == '\U{00A0}'
  }

  /** `[Required]` on a string: some character is not white space (empty and blank strings fail). */
  predicate Required(s: string)
  {
    exists i :: 0 <= i < |s| && !IsWhiteSpace(s[i])
  }

  /** `[EmailAddress]`: exactly one '@', and it is neither the first nor the last character. */
  predicate EmailShaped(s: string)
  {
    exists i :: 0 < i < |s| - 1 && s[i] == '@' && forall j :: 0 <= j < |s| && s[j] == '@' ==> j == i
  }

  /**
   * `[RegularExpression(p)]` where `p` is an alternation of literals: the empty
   * string passes (the attribute skips it), otherwise one alternative must
   * match the WHOLE string.
   */
  predicate RegexAccepts(s: string, alternatives: set<string>)
  {
    s == "" || s in alternatives
  }

  const RegisterRoles: set<string> := {"Guide", "Tourist"}
  const AccountRoles: set<string> := {"Guide", "Tourist", "Admin"}

  /** All the attribute constraints of `RegisterRequest` hold. */
  predicate ValidRegisterRequest(r: RegisterRequest)
  {
    && Required(r.username) && 3 <= |r.username| <= 20
    && Required(r.email) && EmailShaped(r.email)
    && Required(r.password)
    && Required(r.role) && RegexAccepts(r.role, RegisterRoles)
  }

  /** `[Required]` on both fields of `LoginRequest`. */
  predicate ValidLoginRequest(r: LoginRequest)
  {
    Required(r.username) && Required(r.password)
  }

  /**
   * The attribute constraints of `User`, together with the status invariant the
   * admin operations keep: `BlockedAt` is set exactly when the status is BLOCKED.
   */
  predicate AccountConstraints(a: Account)
  {
    && Required(a.username) && |a.username| <= 20
    && Required(a.email) && EmailShaped(a.email)
    && Required(a.passwordHash)
    && Required(a.role) && RegexAccepts(a.role, AccountRoles)
    && StatusConsistent(a)
  }

  predicate StatusConsistent(a: Account)
  {
    a.blockedAt.Some? <==> a.status == Blocked
  }

  /**
   * The `new User { ... }` of registration: the request's username, email and
   * role, the given hash, `CreatedAt` = now, and every other property at its
   * default (Id 0 until the store assigns one, ACTIVE, no BlockedAt, no profile).
   */
  function NewAccount(r: RegisterRequest, passwordHash: string, now: nat): Account
  {
    Account(0, r.username, r.email, passwordHash, r.role, None, None, None, None, None, now, Active, None)
  }

  /** A request that passes validation names Guide or Tourist, so no one can register as Admin. */
  lemma ValidRequestRole(r: RegisterRequest)
    requires ValidRegisterRequest(r)
    ensures r.role == "Guide" || r.role == "Tourist"
    ensures r.role != "Admin"
  {
    assert r.role != "" by {
      var i :| 0 <= i < |r.role| && !IsWhiteSpace(r.role[i]);
    }
  }

  /** An account made from a valid request and a non-blank hash satisfies every `User` constraint. */
  lemma NewAccountValid(r: RegisterRequest, passwordHash: string, now: nat)
    requires ValidRegisterRequest(r) && Required(passwordHash)
    ensures AccountConstraints(NewAccount(r, passwordHash, now))
    ensures NewAccount(r, passwordHash, now).status == Active
  {
    ValidRequestRole(r);
  }

  /** The registration form's default role "Turista" fails the role constraint. */
  lemma TuristaRejected(r: RegisterRequest)
    requires r.role == "Turista"
    ensures !ValidRegisterRequest(r)
  {
  }
}
