/**
 * The gateway's JWT middlewares. `AuthOptional` always forwards the request
 * and, when it carries a valid bearer token, sets `X-User-Id` and `X-Roles`
 * from the token's claims; `AuthRequired` refuses a request without a valid
 * bearer token with 401 "Unauthorized". Signature, issuer, audience and
 * expiry checks are `jwt.Parse`, which the model takes as a verifier.
 */
module GatewayAuth {
  import opened Wrappers
  import opened Text
  import opened Http

  /** A JSON value as `jwt.MapClaims` holds it; only strings and arrays matter here. */
  datatype ClaimValue = JString(s: string) | JArray(items: seq<ClaimValue>) | JOther

  type Claims = map<string, ClaimValue>

  /** `jwt.Parse` with the gateway's secret, issuer and audience: the claims of a valid token, else None. */
  type Verifier = string -> Option<Claims>

  const BearerPrefix := "bearer "

  /** The Authorization value is present and starts with "bearer ", in any letter case. */
  predicate IsBearer(auth: string)
  {
    auth != "" && HasPrefix(ToLower(auth), BearerPrefix)
  }

  /** What follows the seven-character scheme, with surrounding white space trimmed. */
  function TokenString(auth: string): string
    requires IsBearer(auth)
  {
    TrimSpace(auth[|BearerPrefix|..])
  }

  /** The verified claims of the request's bearer token, if it has a valid one. */
  function Authenticated(h: Header, verify: Verifier): Option<Claims>
  {
    var auth := Get(h, "Authorization");
    if IsBearer(auth) then verify(TokenString(auth)) else None
  }

  /** The user id the token names: `sub` when it is a string, otherwise `uid` when it is a string. */
  function UserIdClaim(c: Claims): Option<string>
  {
    if "sub" in c && c["sub"].JString? then Some(c["sub"].s)
    else if "uid" in c && c["uid"].JString? then Some(c["uid"].s)
    else None
  }

  /** The string items of a JSON array, in order; other items are skipped. */
  function StringItems(items: seq<ClaimValue>): seq<string>
  {
    if |items| == 0 then []
    else StringItems(items[..|items| - 1])
         + (if items[|items| - 1].JString? then [items[|items| - 1].s] else [])
  }

  /** The `X-Roles` value: an array's strings joined by commas, or a string as it is. */
  function RolesClaim(c: Claims): Option<string>
  {
    if "role" !in c then None
    else match c["role"]
      case JArray(items) => Some(Join(StringItems(items), ","))
      case JString(s) => Some(s)
      case JOther => None
  }

  /** The headers after a verified token has been mapped onto them. */
  function Annotated(h: Header, c: Claims): Header
  {
    var withId := if UserIdClaim(c).Some? then h["X-User-Id" := UserIdClaim(c).value] else h;
    if RolesClaim(c).Some? then withId["X-Roles" := RolesClaim(c).value] else withId
  }

  /** The headers the next handler receives from `AuthOptional`. */
  function OptionalHeaders(h: Header, verify: Verifier): Header
  {
    match Authenticated(h, verify)
    case None => h
    case Some(c) => Annotated(h, c)
  }

  /** The loop over a role array: collects its string items in order. */
  method CollectRoleStrings(items: seq<ClaimValue>) returns (s: seq<string>)
    ensures s == StringItems(items)
  {
    s := [];
    var i := 0;
    while i < |items|
      invariant 0 <= i <= |items|
      invariant s == StringItems(items[..i])
    {
      assert items[..i + 1][..i] == items[..i];
      if items[i].JString? {
        s := s + [items[i].s];
      }
      i := i + 1;
    }
    assert items[..|items|] == items;
  }

  /** `AuthOptional`: rewrites the request's headers in place, then forwards it. */
  method AuthOptional(req: Request, verify: Verifier)
    modifies req`header
    ensures req.header == OptionalHeaders(old(req.header), verify)
  {
    var claims := Authenticated(req.header, verify);
    if claims.Some? {
      req.header := Annotate(req.header, claims.value);
    }
  }

  /** The claim mapping of `AuthOptional`, on a header value. */
  method Annotate(h: Header, c: Claims) returns (out: Header)
    ensures out == Annotated(h, c)
  {
    out := h;
    var id := UserIdClaim(c);
    if id.Some? {
      out := out["X-User-Id" := id.value];
    }
    if "role" in c {
      match c["role"] {
        case JArray(items) =>
          var roles := CollectRoleStrings(items);
          out := out["X-Roles" := Join(roles, ",")];
        case JString(v) =>
          out := out["X-Roles" := v];
        case JOther =>
      }
    }
  }

  /** What `AuthRequired` does with a request. */
  datatype Decision = Forward | Reject(status: int, text: string)

  function AuthRequired(h: Header, verify: Verifier): (d: Decision)
    ensures d.Reject? ==> d == Reject(StatusUnauthorized, "Unauthorized")
  {
    var auth := Get(h, "Authorization");
    if !IsBearer(auth) then Reject(StatusUnauthorized, "Unauthorized")
    else if verify(TokenString(auth)).None? then Reject(StatusUnauthorized, "Unauthorized")
    else Forward
  }

  /** The two middlewares agree on who is authenticated: `AuthRequired` forwards exactly those requests. */
  lemma RequiredAgreesWithOptional(h: Header, verify: Verifier)
    ensures AuthRequired(h, verify).Forward? <==> Authenticated(h, verify).Some?
  {
  }

  /**
   * `AuthOptional` changes no header but `X-User-Id` and `X-Roles`, and
   * removes none.
   */
  lemma OptionalTouchesOnlyIdentity(h: Header, verify: Verifier)
    ensures var out := OptionalHeaders(h, verify);
            h.Keys <= out.Keys <= h.Keys + {"X-User-Id", "X-Roles"}
            && forall k :: k in h && k != "X-User-Id" && k != "X-Roles" ==> out[k] == h[k]
  {
    match Authenticated(h, verify)
    case None =>
    case Some(c) => AnnotatedTouchesOnlyIdentity(h, c);
  }

  lemma AnnotatedTouchesOnlyIdentity(h: Header, c: Claims)
    ensures var out := Annotated(h, c);
            h.Keys <= out.Keys <= h.Keys + {"X-User-Id", "X-Roles"}
            && forall k :: k in h && k != "X-User-Id" && k != "X-Roles" ==> out[k] == h[k]
  {
  }

  /** A valid token's string `sub` becomes `X-User-Id`, whatever the client sent there. */
  lemma TokenSubjectWins(h: Header, verify: Verifier)
    requires Authenticated(h, verify).Some?
    requires var c := Authenticated(h, verify).value; "sub" in c && c["sub"].JString?
    ensures OptionalHeaders(h, verify)["X-User-Id"] == Authenticated(h, verify).value["sub"].s
  {
  }

  /**
   * Without a valid bearer token the headers pass through unchanged: an
   * `X-User-Id` or `X-Roles` the client sent itself reaches the upstream
   * service, since the middleware does not remove them.
   */
  lemma UnverifiedIdentityPassesThrough(h: Header, verify: Verifier)
    requires Authenticated(h, verify).None?
    ensures OptionalHeaders(h, verify) == h
  {
  }

  /** The scheme is matched in any letter case, and the token is what follows it, trimmed. */
  lemma SchemeCaseInsensitive(token: string)
    ensures IsBearer("Bearer " + token) && IsBearer("bearer " + token) && IsBearer("BEARER " + token)
    ensures TokenString("Bearer " + token) == TrimSpace(token)
  {
    assert ToLower("Bearer " + token)[..7] == "bearer ";
    assert ToLower("bearer " + token)[..7] == "bearer ";
    assert ToLower("BEARER " + token)[..7] == "bearer ";
    assert ("Bearer " + token)[7..] == token;
  }

  /** Collecting the strings of two arrays in a row gives the strings of each, in order. */
  lemma {:induction false} StringItemsAppend(a: seq<ClaimValue>, b: seq<ClaimValue>)
    ensures StringItems(a + b) == StringItems(a) + StringItems(b)
    decreases |b|
  {
    if |b| == 0 {
      assert a + b == a;
    } else {
      var b' := b[..|b| - 1];
      assert (a + b)[..|a + b| - 1] == a + b';
      StringItemsAppend(a, b');
    }
  }

  /**
   * A role array of any shape becomes its string items, in array order,
   * comma-joined; every string item is kept and nothing else is.
   */
  lemma {:induction false} RoleArrayJoined(items: seq<ClaimValue>)
    ensures RolesClaim(map["role" := JArray(items)]) == Some(Join(StringItems(items), ","))
    ensures forall x :: x in StringItems(items) <==> JString(x) in items
    ensures |StringItems(items)| <= |items|
    decreases |items|
  {
    if |items| > 0 {
      var init := items[..|items| - 1];
      RoleArrayJoined(init);
      assert items == init + [items[|items| - 1]];
      forall x
        ensures x in StringItems(items) <==> JString(x) in items
      {
        assert JString(x) in items <==> JString(x) in init || JString(x) == items[|items| - 1];
      }
    }
  }

  /** The array `[a, 7, b]` gives "a,b": a number between two roles is dropped. */
  lemma RoleArrayExample(a: string, b: string)
    ensures RolesClaim(map["role" := JArray([JString(a), JOther, JString(b)])]) == Some(a + "," + b)
  {
    StringItemsAppend([JString(a)], [JOther]);
    StringItemsAppend([JString(a), JOther], [JString(b)]);
    assert StringItems([JString(a)]) == [a] by {
      assert [JString(a)][..0] == [];
    }
    assert StringItems([JOther]) == [] by {
      assert [JOther][..0] == [];
    }
    assert StringItems([JString(b)]) == [b] by {
      assert [JString(b)][..0] == [];
    }
    assert [JString(a), JOther] == [JString(a)] + [JOther];
    assert [JString(a), JOther, JString(b)] == [JString(a), JOther] + [JString(b)];
    assert StringItems([JString(a), JOther, JString(b)]) == [a, b];
    assert [a, b][1..] == [b];
    assert Join([a, b], ",") == a + "," + b;
  }

  /**
   * The scheme test accepts exactly the headers whose first seven characters
   * spell "bearer " in any mixture of ASCII letter cases.
   */
  lemma BearerIgnoresCase(auth: string)
    ensures IsBearer(auth) <==>
              |auth| >= |BearerPrefix| && forall i :: 0 <= i < |BearerPrefix| ==> SameLetter(auth[i], BearerPrefix[i])
  {
    if |auth| >= |BearerPrefix| {
      assert ToLower(auth)[..|BearerPrefix|] == ToLower(auth[..|BearerPrefix|]);
      ToLowerIdempotent(BearerPrefix);
      assert ToLower(BearerPrefix) == BearerPrefix;
      SameUpToCase(auth[..|BearerPrefix|], BearerPrefix);
    }
  }
}
