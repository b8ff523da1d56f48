/**
 * `JwtUtils`: issues a JSON Web Token (RFC 7519) signed with HMAC-SHA256
 * (section 3.2 of RFC 7518). The signing itself is outside the model: a token
 * is the record of what the signed structure carries.
 */
module Jwt {
  import opened Wrappers
  import Accounts

  /** The four `ClaimTypes` the auth service puts into tokens. */
  datatype ClaimType = NameIdentifier | Name | Role | Email

  datatype Claim = Claim(kind: ClaimType, value: string)

  /** The claims of a validated bearer token, or None when the caller is not authenticated. */
  type Principal = Option<seq<Claim>>

  /** The settings read once, in the constructor, from configuration; a missing entry reads as null. */
  datatype JwtUtils = JwtUtils(key: Option<string>, issuer: Option<string>, audience: Option<string>)

  function Setting(cfg: map<string, string>, name: string): Option<string>
  {
    if name in cfg then Some(cfg[name]) else None
  }

  /** The constructor: `Jwt:Key`, `Jwt:Issuer` and `Jwt:Audience`, looked up once. */
  function FromConfiguration(cfg: map<string, string>): JwtUtils
  {
    JwtUtils(Setting(cfg, "Jwt:Key"), Setting(cfg, "Jwt:Issuer"), Setting(cfg, "Jwt:Audience"))
  }

  /** `AddDays(1)`, with instants in seconds. */
  const OneDay: nat := 86400

  const HS256 := "HS256"

  /** A signed token: its header algorithm, the key it was signed with, and its payload. */
  datatype Token = Token(
    alg: string,
    signingKey: string,
    issuer: Option<string>,
    audience: Option<string>,
    claims: seq<Claim>,
    expires: nat)

  /** Signing works when the key is configured and not empty. */
  predicate CanSign(j: JwtUtils)
  {
    j.key.Some? && j.key.value != ""
  }

  /**
   * `GenerateToken`: a null key makes `Encoding.GetBytes` throw and an empty
   * key makes `SymmetricSecurityKey` throw; otherwise the token carries the
   * configured issuer and audience, the given claims unchanged, HS256 over
   * the configured key, and an expiry exactly one day after `now`.
   */
  function GenerateToken(j: JwtUtils, claims: seq<Claim>, now: nat): (r: Result<Token, Accounts.Exception>)
    ensures r.Ok? <==> CanSign(j)
    ensures j.key.None? ==> r.Err? && r.error.ArgumentNull?
    ensures j.key == Some("") ==> r.Err? && r.error.Argument?
    ensures r.Ok? ==> r.value.alg == HS256 && r.value.signingKey == j.key.value
    ensures r.Ok? ==> r.value.issuer == j.issuer && r.value.audience == j.audience
    ensures r.Ok? ==> r.value.claims == claims && r.value.expires - now == OneDay
  {
    if j.key.None? then Err(Accounts.ArgumentNull("s"))
    else if j.key.value == "" then Err(Accounts.Argument("key"))
    else Ok(Token(HS256, j.key.value, j.issuer, j.audience, claims, now + OneDay))
  }

  /** `FindFirstValue`: the value of the first claim of that type, or null. */
  function FindFirst(claims: seq<Claim>, kind: ClaimType): (r: Option<string>)
    ensures r.None? <==> forall i :: 0 <= i < |claims| ==> claims[i].kind != kind
    ensures r.Some? ==> exists i :: 0 <= i < |claims| && claims[i] == Claim(kind, r.value)
                                  && forall j :: 0 <= j < i ==> claims[j].kind != kind
  {
    if |claims| == 0 then None
    else if claims[0].kind == kind then Some(claims[0].value)
    else
      var rest := FindFirst(claims[1..], kind);
      assert rest.Some? ==> exists i :: 1 <= i < |claims| && claims[i] == Claim(kind, rest.value)
                                          && forall j :: 0 <= j < i ==> claims[j].kind != kind by {
        if rest.Some? {
          var k :| 0 <= k < |claims| - 1 && claims[1..][k] == Claim(kind, rest.value)
                   && forall j :: 0 <= j < k ==> claims[1..][j].kind != kind;
          assert claims[k + 1] == Claim(kind, rest.value);
          assert forall j :: 1 <= j < k + 1 ==> claims[j].kind == claims[1..][j - 1].kind;
        }
      }
      rest
  }
}
