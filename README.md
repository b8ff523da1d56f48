# soa-team-20 core, modelled in Dafny

soa-team-20 is a tourism platform built from microservices behind an API
gateway. This project models the parts that make decisions:

- **Auth service (C#).** Registration and login, the admin block/unblock
  workflow, the controllers' exception-to-status mapping, request validation
  and JWT issuing.
- **Gateway (Go).** Bearer-token middleware that maps claims onto `X-User-Id`
  and `X-Roles`. Reverse-proxy director and response filter.
- **Shared observability package (Go).** Request/trace id middleware for HTTP
  and gRPC, the logging response writer, client IP choice, and header
  propagation on outgoing calls.
- **Tour service (Go).** The tour factory and enums. The tour-execution state
  machine (start, proximity check, abandon). The key point HTTP handler.
- **Shopping service (Go).** Cart and purchase-token server over its
  repository.
- **Followers service (Go).** The follow graph and its queries.
- **Stakeholders service (Go).** Its user repository.
- **Blog service (Go).** The blog HTTP handler.
- **Angular front end.** The shop page, the tour view page, the tour list
  page and the registration form.

Each source file has its own module:

- Pure code is functions and lemmas.
- Stores the source mutates are classes whose methods carry `modifies`
  clauses: the user table, execution and key point collections, carts and
  tokens, the follow graph, the stakeholder table, and the front-end
  components' fields.
- Loops in the source are `while` loops with invariants, proved against a
  specification function: `isValidImageType`, the `remaining` builder,
  `cartToProto`, the remove-first loop, the checkout token loop, the blog
  upload filter, the role-array loop, the cursor loops and the marker loop.

Calls into code that is not part of the model become parameters:
BCrypt (`Hasher`), JWT signature checking (`Verifier`), `uuid.Parse` and
`strconv.ParseFloat` (`Parsers`), `net.SplitHostPort`, new UUIDs (`newId`,
`storedId`), the clock (`now`), haversine distance (`dist`) and the email
pattern. A database error is a parameter in two places only: the follow
graph's Neo4j writes (`storeError`) and the stakeholder table's save
(`saveError`). The other stores fail only where the model says so (a
duplicate id); their other database errors are listed under "Left out".

Behaviour the proofs make explicit:

- **Blocked accounts can still log in.** `LoginAsync` never reads the account
  status, so a blocked account still gets a token (`AuthService.LoginIgnoresStatus`).
  The controller's 423 branch is unreachable.
- **Login does not reveal which usernames exist.** An unknown username and a
  wrong password give identical results (`AuthService.EnumerationResistance`).
- **The register form's default role is refused.** The form starts with
  "Turista", which the request validator rejects (`RegisterForm.DefaultRoleRejected`).
  A validation-problem body (parsed JSON) then makes the form's error
  callback throw (`RegisterForm.ValidationProblemThrows`).
- **Client-sent identity headers pass through.** Without a valid token,
  `X-User-Id` and `X-Roles` reach the upstream service unchanged
  (`GatewayAuth.UnverifiedIdentityPassesThrough`).
- **The logged client address is caller-controlled.** The access log takes
  any `X-Forwarded-For` as it is (`ObsHttp.ClientIPIsCallerControlled`).
- **"image/jpg" is accepted inconsistently.** Key point `Create` accepts it;
  multipart key point `Update` and the blog upload filter refuse it
  (`KeyPointHandler.JpgOnlyOnCreate`, `BlogHandler.JpgDropped`).
- **A created key point is returned under an id it is not stored under.**
  The handler answers 201 with the id it drew, but the service stores a copy
  made by the factory under a second new id, so asking for the returned id's
  image gives 404 (`KeyPointHandler.ReturnedIdNotServed`).
- **Blog `Create` skips the image filter on the JSON path**
  (`BlogHandler.JsonPathUnfiltered`).
- **The tour page resets codes on save.** `statusToNumber` and
  `transportTypeToNumber` turn the service's numeric codes into 0
  (`ViewTour.NumericCodesBecomeZero`). After one save the local difficulty is
  a label, so a second save sends difficulty 0
  (`ViewTour.SecondSaveResetsDifficulty`).
- **The shop page's remove leaves the local cart as it was**
  (`ShopComponent.Shop.RemoveFromCart`).
- **A failed checkout can store some tokens.** Checkout may store a prefix of
  the tokens and still keep the cart (`ShoppingServer.Checkout`).

## Model

| member | source | states |
|---|---|---|
| Accounts.ValidRequestRole | Backend/services/auth/AuthService/DTOs/RegisterRequest.cs:14-16 | a request that passes validation names Guide or Tourist, never Admin |
| Accounts.NewAccountValid | Backend/services/auth/AuthService/Models/User.cs:6-27 | the account registration builds from a valid request and a non-blank hash meets every User constraint and is ACTIVE with no BlockedAt |
| Accounts.TuristaRejected | Backend/services/auth/AuthService/DTOs/RegisterRequest.cs:14-16 | a request with role "Turista" fails validation |
| Jwt.GenerateToken | Backend/services/auth/AuthService/Utills/JwtUtils.cs:20-32 | no configured key fails with ArgumentNull and an empty key with Argument; otherwise the token is HS256 over that key, carries the configured issuer and audience and the claims unchanged, and expires one day after issue |
| Jwt.FindFirst | Backend/services/auth/AuthService/Controllers/AuthController.cs:56-59 | the value of the first claim of the requested type, None iff no claim has that type |
| Seqs.FirstIndex | Backend/services/auth/AuthService/Services/AuthService.cs:43 | the first position satisfying the test; None iff no position does |
| Users.IndexOfUsername | Backend/services/auth/AuthService/Services/AuthService.cs:43 | the first row with the username, None iff no row has it |
| Users.IndexOfId | Backend/services/auth/AuthService/Services/AdminService.cs:27 | the first row with the id, None iff no row has it |
| Users.IndexOfAppended | Backend/services/auth/AuthService/Services/AuthService.cs:36-37 | a username new to the table is found, once appended, at the appended row |
| Users.UserStore.constructor | Backend/services/auth/AuthService/Models/User.cs:8-10 | an empty table whose identity counter starts at 1 |
| Users.UserStore.Insert | Backend/services/auth/AuthService/Services/AuthService.cs:36-37 | the row is appended under the next identity value; ids and usernames stay unique |
| Users.UserStore.SaveTracked | Backend/services/auth/AuthService/Services/AdminService.cs:30-32 | committing a tracked entity replaces that row only |
| AuthService.Registered | Backend/services/auth/AuthService/Services/AuthService.cs:29-35 | the committed row carries the request's username, email and role, the hash, and is ACTIVE |
| AuthService.Register | Backend/services/auth/AuthService/Services/AuthService.cs:25-39 | a taken username fails with "Username taken." and adds nothing; otherwise exactly one row with hash(password) is stored and returned |
| AuthService.Login | Backend/services/auth/AuthService/Services/AuthService.cs:41-64 | fails with "Invalid credentials." iff the user is unknown or the password does not verify; a token is built from the stored account's four claims |
| AuthService.EnumerationResistance | Backend/services/auth/AuthService/Services/AuthService.cs:45-53 | an unknown username and a wrong password give identical results |
| AuthService.RegisterThenLogin | Backend/services/auth/AuthService/Services/AuthService.cs:25-62 | with a sound hasher and a signing key, logging in right after registering issues a token with the new account's claims |
| AuthService.LoginIgnoresStatus | Backend/services/auth/AuthService/Services/AuthService.cs:41-64 | a blocked account with the right password still receives a token |
| AdminService.GetAll | Backend/services/auth/AuthService/Services/AdminService.cs:9-25 | one view per row, in table order |
| AdminService.ViewKeepsAllButHash | Backend/services/auth/AuthService/Services/AdminService.cs:11-24 | two accounts with equal views differ at most in the password hash |
| AdminService.FailuresChangeNothing | Backend/services/auth/AuthService/Services/AdminService.cs:26-41 | each failure (not found, already blocked, already active) happens exactly in its case and leaves the rows unchanged |
| AdminService.BlockUpdatesOneRow | Backend/services/auth/AuthService/Services/AdminService.cs:26-33 | a successful block sets BLOCKED and BlockedAt=now on that row and touches no other field or row |
| AdminService.UnblockUpdatesOneRow | Backend/services/auth/AuthService/Services/AdminService.cs:34-41 | a successful unblock sets ACTIVE and clears BlockedAt on that row only |
| AdminService.AdminKeepsStatusConsistent | Backend/services/auth/AuthService/Services/AdminService.cs:26-41 | block and unblock preserve "BlockedAt set iff BLOCKED" for every row |
| AdminService.BlockThenUnblock | Backend/services/auth/AuthService/Services/AdminService.cs:30-31 | blocking an active account and then unblocking it restores every row |
| AdminService.BlockAsync | Backend/services/auth/AuthService/Services/AdminService.cs:26-33 | the store's result and new rows are those of the block specification |
| AdminService.UnblockAsync | Backend/services/auth/AuthService/Services/AdminService.cs:34-41 | the store's result and new rows are those of the unblock specification |
| AuthController.RegisterResult | Backend/services/auth/AuthService/Controllers/AuthController.cs:17-35 | 200 with exactly id, username, email and role iff the service succeeded; 400 with the message iff InvalidOperation |
| AuthController.Register | Backend/services/auth/AuthService/Controllers/AuthController.cs:17-35 | an invalid request is refused before the service; a taken name gives 400 and no write; otherwise 200 and one new row |
| AuthController.LoginResult | Backend/services/auth/AuthService/Controllers/AuthController.cs:37-50 | 200 with the token iff success; every UnauthorizedAccess gives 401 "Invalid username or password."; 423 iff AccountBlocked |
| AuthController.LoginOutcomes | Backend/services/auth/AuthService/Controllers/AuthController.cs:37-50 | never 423; 200 iff the request is valid, a key is configured, the user is known and the password verifies; 401 iff the request is valid and the user is unknown or the password wrong |
| AuthController.WhoAmIEchoesLogin | Backend/services/auth/AuthService/Controllers/AuthController.cs:52-62 | a principal holding login's claims is echoed back as the account's name, role, email and id |
| AdminController.Gate | Backend/services/auth/AuthService/Controllers/AdminController.cs:9 | a request passes iff it is authenticated and holds the Admin role |
| AdminController.GetAll | Backend/services/auth/AuthService/Controllers/AdminController.cs:13-17 | 200 iff admin, with a body equal to the service's list (one view per row, in order); otherwise the gate's refusal |
| AdminController.UpdateResult | Backend/services/auth/AuthService/Controllers/AdminController.cs:18-35 | 204 iff success, 404 iff KeyNotFound, 400 with the message iff InvalidOperation |
| AdminController.Block | Backend/services/auth/AuthService/Controllers/AdminController.cs:18-26 | refused callers change nothing; otherwise the response maps the block outcome and the rows are the block specification's |
| AdminController.Unblock | Backend/services/auth/AuthService/Controllers/AdminController.cs:27-35 | refused callers change nothing; otherwise the response maps the unblock outcome |
| AdminController.UpdatesNeverFail500 | Backend/services/auth/AuthService/Controllers/AdminController.cs:18-35 | block and unblock answer only 204, 400 or 404 |
| Text.ToLowerIdempotent | Backend/gateway/internal/mw/auth.go:23 | a lowered string has no ASCII capitals, and lowering it again changes nothing |
| Text.SameUpToCase | Backend/gateway/internal/mw/auth.go:23 | two strings lower to the same string iff they have the same length and agree letter by letter up to ASCII case |
| Text.TrimSpace | Backend/gateway/internal/mw/auth.go:28 | a contiguous slice of the input with only white space cut from each end and none left at either end; empty iff the input is all white space |
| GatewayAuth.CollectRoleStrings | Backend/gateway/internal/mw/auth.go:43-50 | the loop over a role array collects exactly its string items, in order |
| GatewayAuth.AuthOptional | Backend/gateway/internal/mw/auth.go:19-60 | the request's headers become the optional-auth specification of the old headers |
| GatewayAuth.Annotate | Backend/gateway/internal/mw/auth.go:33-55 | the claim mapping writes exactly the specified X-User-Id and X-Roles |
| GatewayAuth.AuthRequired | Backend/gateway/internal/mw/auth.go:63-83 | a refusal is always 401 "Unauthorized" |
| GatewayAuth.RequiredAgreesWithOptional | Backend/gateway/internal/mw/auth.go:19-83 | AuthRequired forwards exactly the requests AuthOptional authenticates |
| GatewayAuth.OptionalTouchesOnlyIdentity | Backend/gateway/internal/mw/auth.go:32-56 | AuthOptional changes no header other than X-User-Id and X-Roles |
| GatewayAuth.AnnotatedTouchesOnlyIdentity | Backend/gateway/internal/mw/auth.go:33-55 | the claim mapping changes no header other than X-User-Id and X-Roles |
| GatewayAuth.TokenSubjectWins | Backend/gateway/internal/mw/auth.go:35-36 | a valid token's string `sub` replaces whatever X-User-Id the client sent |
| GatewayAuth.UnverifiedIdentityPassesThrough | Backend/gateway/internal/mw/auth.go:22-32 | without a valid token the headers, client-sent identity included, pass unchanged |
| GatewayAuth.SchemeCaseInsensitive | Backend/gateway/internal/mw/auth.go:23-28 | the scheme matches in any case and the token is what follows it, trimmed |
| GatewayAuth.BearerIgnoresCase | Backend/gateway/internal/mw/auth.go:23 | a header counts as Bearer iff its first seven characters are "bearer " up to ASCII case |
| GatewayAuth.StringItemsAppend | Backend/gateway/internal/mw/auth.go:43-50 | the string items of two arrays are those of each, in order |
| GatewayAuth.RoleArrayJoined | Backend/gateway/internal/mw/auth.go:43-50 | for every role array, X-Roles is its string items comma-joined, in order; a string is among them iff the array holds it, and non-strings are skipped |
| GatewayAuth.RoleArrayExample | Backend/gateway/internal/mw/auth.go:43-50 | [a, non-string, b] becomes "a,b" |
| GatewayProxy.JoinPath | Backend/gateway/internal/proxy/http_proxy.go:36-40 | exactly one slash at the seam: the target path without its trailing slash, "/", then the request path without its leading slash |
| GatewayProxy.StripRestores | Backend/gateway/internal/proxy/http_proxy.go:41-44 | putting the prefix back in front of a stripped path restores it |
| GatewayProxy.StripEdges | Backend/gateway/internal/proxy/http_proxy.go:41-44 | the bare prefix becomes "/", an unprefixed path is kept, and no non-empty path becomes empty |
| GatewayProxy.DirectedHeader | Backend/gateway/internal/proxy/http_proxy.go:46-47 | the forwarded host is the original Host and the protocol "http"; every other header is kept |
| GatewayProxy.Director | Backend/gateway/internal/proxy/http_proxy.go:39-49 | the URL is rewritten to the target with the prefix stripped, the headers as specified, and Host set to the target's |
| GatewayProxy.RouteUnderPrefix | Backend/gateway/internal/proxy/http_proxy.go:40-44 | a request under the prefix reaches the upstream with the rest of its path |
| GatewayProxy.UpstreamResponse.constructor | Backend/gateway/internal/proxy/http_proxy.go:56 | a response holds the upstream's status and headers |
| GatewayProxy.WithoutCors | Backend/gateway/internal/proxy/http_proxy.go:58-62 | exactly the five CORS headers are removed and every other value kept |
| GatewayProxy.WithoutCorsIdempotent | Backend/gateway/internal/proxy/http_proxy.go:56-64 | removing the CORS headers twice is removing them once |
| GatewayProxy.ModifyResponse | Backend/gateway/internal/proxy/http_proxy.go:56-64 | the response headers become the old ones without CORS headers |
| GatewayProxy.ErrorHandler | Backend/gateway/internal/proxy/http_proxy.go:53-55 | every transport failure answers 502 |
| ObsHttp.StringAt | Backend/common/obs/httpmw.go:20-31 | a non-empty result is the string stored under the key; a stored string is returned |
| ObsHttp.PickIds | Backend/common/obs/httpmw.go:36-43 | the caller's X-Request-ID or a new id; the caller's X-Trace-Id or the request id |
| ObsHttp.TraceIdsReachContextAndResponse | Backend/common/obs/httpmw.go:45-50 | the chosen ids are set on the response and readable from the handler's context |
| ObsHttp.CallerIdsWin | Backend/common/obs/httpmw.go:36-43 | when the caller sends X-Request-ID, the chosen ids do not depend on the new id drawn |
| ObsHttp.LoggingWriter.constructor | Backend/common/obs/httpmw.go:79 | status and byte count start at zero |
| ObsHttp.LoggingWriter.WriteHeader | Backend/common/obs/httpmw.go:60-63 | the code is recorded |
| ObsHttp.LoggingWriter.Write | Backend/common/obs/httpmw.go:65-72 | the byte count grows by what was written; a missing status becomes 200 |
| ObsHttp.WriteAfterHeader | Backend/common/obs/httpmw.go:60-72 | a status set by WriteHeader survives later writes |
| ObsHttp.ClientIP | Backend/common/obs/httpmw.go:96-108 | X-Forwarded-For, then X-Real-IP, then the host of RemoteAddr, then RemoteAddr |
| ObsHttp.ClientIPIsCallerControlled | Backend/common/obs/httpmw.go:97-99 | a sent X-Forwarded-For is the logged address |
| ObsGrpc.First | Backend/common/obs/grpcmw.go:35-41 | the first metadata value under the key when there is one; "" when the metadata, the key or its values are missing |
| ObsGrpc.ReqIDFromCtx | Backend/common/obs/grpcmw.go:15-20 | non-empty iff a non-empty string is stored under request_id |
| ObsGrpc.TraceIDFromCtx | Backend/common/obs/grpcmw.go:21-26 | non-empty iff a non-empty string is stored under trace_id |
| ObsGrpc.ReadersAgree | Backend/common/obs/grpcmw.go:15-26 | the gRPC and HTTP readers return the same ids from every context |
| ObsGrpc.TraceUnaryContract | Backend/common/obs/grpcmw.go:29-61 | the handler runs once under a context holding the chosen ids, which are also sent back |
| ObsGrpc.SameRulesAsHttp | Backend/common/obs/grpcmw.go:35-47 | the interceptor and the HTTP middleware choose the same ids |
| ObsClient.Fill | Backend/common/obs/client.go:12-21 | an empty header is filled from a non-empty context value; otherwise nothing changes |
| ObsClient.PropagationRules | Backend/common/obs/client.go:12-21 | set headers are never overwritten; empty ones take the context's ids |
| ObsClient.PropagationIdempotent | Backend/common/obs/client.go:12-21 | propagating twice is propagating once |
| ObsClient.IdsTravelDownstream | Backend/common/obs/client.go:12-21 | ids the trace middleware chose reach a downstream call made with its context |
| ObsClient.RoundTrip | Backend/common/obs/client.go:8-23 | the request headers become the propagated ones; a nil base uses the default transport |
| TourModel.BeforeCreateTour | Backend/services/tour/model/Tour.go:33-44 | a new tour has the given fields, Draft status, price 0 and the new id |
| TourModel.NewTourNotStartable | Backend/services/tour/model/Tour.go:41 | a tour fresh from the factory cannot be started |
| TourExecution.BuildRemaining | Backend/services/tour/service/TourExecutionService.go:55-63 | one reference per key point, in order, numbered from 1 |
| TourExecution.Refs | Backend/services/tour/service/TourExecutionService.go:55-63 | the reference at position i is key point i's, numbered i+1 |
| TourExecution.FirstActive | Backend/services/tour/repository/TourExecutionRepository.go:22-29 | the first active execution of the user (and tour); None iff there is none |
| TourExecution.ExecutionStore.constructor | Backend/services/tour/repository/TourExecutionRepository.go:13-15 | an empty collection |
| TourExecution.ExecutionStore.Insert | Backend/services/tour/repository/TourExecutionRepository.go:17-20 | a taken id is refused with no write; otherwise the execution is appended |
| TourExecution.ExecutionStore.Replace | Backend/services/tour/repository/TourExecutionRepository.go:40-43 | the execution with that id is replaced and nothing else changes; ids stay unique |
| TourExecution.Start | Backend/services/tour/service/TourExecutionService.go:22-103 | an active execution of the tour is resumed; each failed check writes nothing; a duplicate id is refused; otherwise the new execution is inserted and returned |
| TourExecution.NewExecutionShape | Backend/services/tour/service/TourExecutionService.go:76-90 | a new execution is active, starts at the location and has every key point ahead, numbered 1..n |
| TourExecution.StartIdempotent | Backend/services/tour/service/TourExecutionService.go:24-28 | once Start has created an execution, starting again resumes it |
| TourExecution.DraftNotStarted | Backend/services/tour/service/TourExecutionService.go:41-43 | a Draft tour cannot be started |
| TourExecution.VisitedRefs | Backend/services/tour/service/TourExecutionService.go:156-159 | the references of the visits, position by position |
| TourExecution.ProximityKeepsRoute | Backend/services/tour/service/TourExecutionService.go:148-172 | a check never reorders, loses or invents key points |
| TourExecution.ProximityOutcome | Backend/services/tour/service/TourExecutionService.go:127-172 | reached iff a point remains within 10 m; completed iff nothing remains afterwards; position and time always recorded |
| TourExecution.ProximityKeepsTimesAligned | Backend/services/tour/service/TourExecutionService.go:156-161 | each visit gets its completion time beside it |
| TourExecution.WalkCompletes | Backend/services/tour/service/TourExecutionService.go:148-171 | reaching each point in turn completes the execution after one check per remaining point, in route order |
| TourExecution.CheckProximity | Backend/services/tour/service/TourExecutionService.go:118-178 | no active execution is an error with no write; otherwise the user's first active execution becomes the proximity specification's |
| TourExecution.Abandon | Backend/services/tour/service/TourExecutionService.go:180-193 | no active execution is an error; otherwise it is marked abandoned and ended now |
| TourExecution.AbandonEndsSession | Backend/services/tour/service/TourExecutionService.go:180-193 | when the abandoned execution was the user's only active one, none is active afterwards |
| KeyPointHandler.IsValidImageType | Backend/services/tour/handler/KeyPointHandler.go:157-172 | true iff the type is one of the five listed |
| KeyPointHandler.CreateImageTypesExactly | Backend/services/tour/handler/KeyPointHandler.go:158-164 | the accepted types are exactly jpeg, jpg, png, gif and webp |
| KeyPointHandler.JpgOnlyOnCreate | Backend/services/tour/handler/KeyPointHandler.go:157-286 | "image/jpg" passes Create but not multipart Update; Update's types all pass Create |
| KeyPointHandler.KeyPointStore.constructor | Backend/services/tour/repository/KeyPointRepository.go:91 | an empty collection |
| KeyPointHandler.KeyPointStore.Insert | Backend/services/tour/repository/KeyPointRepository.go:91-97 | inserted iff the id is new |
| KeyPointHandler.KeyPointStore.Update | Backend/services/tour/repository/KeyPointRepository.go:110-128 | succeeds iff the id is stored; then the four editable fields are overwritten |
| KeyPointHandler.KeyPointStore.Delete | Backend/services/tour/repository/KeyPointRepository.go:99-108 | succeeds iff the id was stored; the key is gone afterwards |
| KeyPointHandler.Overwritten | Backend/services/tour/repository/KeyPointRepository.go:111-118 | id and tour are kept; coordinates, title, description and image come from the update |
| KeyPointHandler.ServiceCopy | Backend/services/tour/service/KeyPointService.go:24-30 | the service stores the handler's key point with every field kept except the id, which is the factory's new one |
| KeyPointHandler.Create | Backend/services/tour/handler/KeyPointHandler.go:74-154 | a refused request (including a tour id uuid.Parse refuses) writes nothing; otherwise the factory's copy, with the canonical parsed tour id, is stored under the service's own new id (500 and no write if taken) and the key point with the handler's id is returned with 201 |
| KeyPointHandler.CreateWithoutImage | Backend/services/tour/handler/KeyPointHandler.go:83-142 | a well-formed form without an image creates a key point with no image under the new id, carrying the parsed tour id |
| KeyPointHandler.CreateRefusesOtherTypes | Backend/services/tour/handler/KeyPointHandler.go:126-131 | an image of an unlisted type is refused with 400 |
| KeyPointHandler.Update | Backend/services/tour/handler/KeyPointHandler.go:194-311 | a refused request writes nothing; otherwise the key point the parsed id names has its four fields overwritten, or 404 when that UUID is not stored |
| KeyPointHandler.UpdateKeepsImage | Backend/services/tour/handler/KeyPointHandler.go:261-300 | a multipart update without a file keeps the image stored under the parsed id |
| KeyPointHandler.UpdateUnknownIsNotFound | Backend/services/tour/handler/KeyPointHandler.go:262-266 | a multipart update whose parsed UUID is not stored is refused with 404 |
| KeyPointHandler.UpdateRefusesJpg | Backend/services/tour/handler/KeyPointHandler.go:282-286 | "image/jpg" is refused by multipart Update |
| KeyPointHandler.Delete | Backend/services/tour/handler/KeyPointHandler.go:174-192 | a non-UUID id is 400 with no write; otherwise the parsed UUID's key point is removed, 200 iff it was stored, else 404 |
| KeyPointHandler.GetImage | Backend/services/tour/handler/KeyPointHandler.go:314-341 | 200 iff the id parses, its UUID is stored and has image bytes; then those bytes with their type and length |
| KeyPointHandler.CreatedImageServed | Backend/services/tour/handler/KeyPointHandler.go:314-341 | an image stored by Create is served back byte for byte with its type under the id the service stored |
| KeyPointHandler.ReturnedIdNotServed | Backend/services/tour/handler/KeyPointHandler.go:142-152 | the id in the 201 body is the handler's, and when the service stored under another id, the image lookup for the returned id is 404 |
| KeyPointHandler.SpellingsAgree | Backend/services/tour/handler/KeyPointHandler.go:198-202 | two spellings uuid.Parse maps to one UUID get the same image response and the same update plan |
| KeyPointHandler.AnySpellingServed | Backend/services/tour/handler/KeyPointHandler.go:317-340 | a stored key point's image is served under any spelling that parses to its id |
| KeyPointHandler.CreateRefusalsPlainText | Backend/services/tour/handler/KeyPointHandler.go:74-131 | every refusal of Create is http.Error's plain-text, nosniff response |
| KeyPointHandler.UpdateRefusalsPlainText | Backend/services/tour/handler/KeyPointHandler.go:194-286 | every refusal of Update is http.Error's plain-text, nosniff response |
| KeyPointHandler.ImageRefusalsPlainText | Backend/services/tour/handler/KeyPointHandler.go:314-333 | every GetImage answer other than the image itself is http.Error's plain-text, nosniff response |
| ShoppingRepo.IdsOf | Backend/services/shopping_service/internal/repo/shopping_repo.go:53-63 | exactly the ids of the tokens |
| ShoppingRepo.FirstClash | Backend/services/shopping_service/internal/repo/shopping_repo.go:61 | the position where an ordered insert stops lies within the batch |
| ShoppingRepo.TokensOf | Backend/services/shopping_service/internal/repo/shopping_repo.go:65-80 | exactly the tokens of that user |
| ShoppingRepo.ShoppingRepo.constructor | Backend/services/shopping_service/internal/repo/shopping_repo.go:19-24 | no carts and no tokens |
| ShoppingRepo.ShoppingRepo.GetCart | Backend/services/shopping_service/internal/repo/shopping_repo.go:27-37 | the stored items, or an empty cart for that user |
| ShoppingRepo.ShoppingRepo.SaveCart | Backend/services/shopping_service/internal/repo/shopping_repo.go:39-46 | an upsert: reading the cart back gives it |
| ShoppingRepo.ShoppingRepo.ClearCart | Backend/services/shopping_service/internal/repo/shopping_repo.go:48-51 | the cart is deleted and reads as empty |
| ShoppingRepo.ShoppingRepo.SaveTokens | Backend/services/shopping_service/internal/repo/shopping_repo.go:53-63 | an ordered insert: tokens before the first duplicate id are stored; ok iff none clashed |
| ShoppingRepo.ShoppingRepo.GetTokens | Backend/services/shopping_service/internal/repo/shopping_repo.go:65-80 | the user's tokens in store order |
| ShoppingRepo.BeforeClash | Backend/services/shopping_service/internal/repo/shopping_repo.go:61 | every token stored before the clash has a new id |
| ShoppingRepo.BatchPrefixKeepsIdsUnique | Backend/services/shopping_service/internal/repo/shopping_repo.go:61 | what an ordered insert stores keeps ids unique |
| ShoppingRepo.FreshBatchStoredWhole | Backend/services/shopping_service/internal/repo/shopping_repo.go:61 | a batch of new distinct ids is stored whole |
| ShoppingServer.SumAppend | Backend/services/shopping_service/internal/api/server.go:137-140 | the total of two item lists is the sum of their totals |
| ShoppingServer.CartToProto | Backend/services/shopping_service/internal/api/server.go:136-146 | the items in order with the total of their prices |
| ShoppingServer.AddToCart | Backend/services/shopping_service/internal/api/server.go:30-45 | the item is appended to the user's cart; the total grows by its price |
| ShoppingServer.RemoveFirst | Backend/services/shopping_service/internal/api/server.go:53-61 | the loop removes the first item of the tour and nothing else |
| ShoppingServer.RemoveSplit | Backend/services/shopping_service/internal/api/server.go:53-61 | removal before the first match works on the rest only |
| ShoppingServer.RemoveFirstMatchSpec | Backend/services/shopping_service/internal/api/server.go:52-61 | no match leaves the items; a first match at k removes exactly position k |
| ShoppingServer.AddThenRemove | Backend/services/shopping_service/internal/api/server.go:30-67 | adding a tour not in the cart and removing it restores the cart |
| ShoppingServer.RemoveFromCart | Backend/services/shopping_service/internal/api/server.go:47-67 | the saved cart and the returned view are the cart without the first item of the tour |
| ShoppingServer.GetCart | Backend/services/shopping_service/internal/api/server.go:69-75 | the stored cart with its total |
| ShoppingServer.MakeTokens | Backend/services/shopping_service/internal/api/server.go:83-104 | one token per item, in order, with a new id and the same time |
| ShoppingServer.TokensChargeCartTotal | Backend/services/shopping_service/internal/api/server.go:83-104 | the tokens' prices add up to the cart total |
| ShoppingServer.Checkout | Backend/services/shopping_service/internal/api/server.go:77-115 | tokens before a clash are stored; if all are stored the cart is cleared and they are returned, otherwise an error with the cart kept |
| Followers.FollowedKeepsClosed | Backend/services/followers_service/internal/server/followers.go:24-26 | after Follow every edge still joins stored users |
| Followers.FollowIdempotent | Backend/services/followers_service/internal/server/followers.go:24-26 | following twice is following once |
| Followers.FollowListed | Backend/services/followers_service/internal/server/followers.go:17-38 | after Follow(a,b) b is a followee of a and a a follower of b; no other edge changes |
| Followers.UnfollowRemovesOnly | Backend/services/followers_service/internal/server/followers.go:41-59 | Unfollow removes exactly the edge a->b; without it nothing changes |
| Followers.FollowThenUnfollow | Backend/services/followers_service/internal/server/followers.go:17-59 | following someone new and unfollowing restores the relation |
| Followers.FollowingFollowersDual | Backend/services/followers_service/internal/server/followers.go:62-134 | following and followers are image and preimage of one relation |
| Followers.RecommendationsExactly | Backend/services/followers_service/internal/server/followers.go:91-93 | r is recommended iff u follows someone who follows r, r is not u, and u does not follow r |
| Followers.FollowingRecommendedRemovesIt | Backend/services/followers_service/internal/server/followers.go:91-93 | following a recommended user removes them from the recommendations |
| Followers.Collect | Backend/services/followers_service/internal/server/followers.go:73-76 | the collected ids are exactly the query's results, each once |
| Followers.FollowGraph.constructor | Backend/services/followers_service/internal/server/followers.go:11-14 | an empty graph |
| Followers.FollowGraph.Follow | Backend/services/followers_service/internal/server/followers.go:17-38 | success iff the store raised no error; then the graph is the followed one, else unchanged |
| Followers.FollowGraph.Unfollow | Backend/services/followers_service/internal/server/followers.go:41-59 | success iff no store error; then the edge is gone, else unchanged |
| Followers.FollowGraph.GetFollowing | Backend/services/followers_service/internal/server/followers.go:62-83 | exactly the users u follows, each once |
| Followers.FollowGraph.GetFollowers | Backend/services/followers_service/internal/server/followers.go:113-134 | exactly the users following u, each once |
| Followers.FollowGraph.GetRecommendations | Backend/services/followers_service/internal/server/followers.go:85-110 | exactly the recommendations, never u or someone u follows, each once |
| Stakeholders.IndexOfId | Backend/services/stakeholders/repository/user_repository.go:16 | the first row with the id; None iff no row has it |
| Stakeholders.Lookup | Backend/services/stakeholders/repository/user_repository.go:14-22 | a stored row with that id iff one exists, otherwise "record not found" |
| Stakeholders.ProfiledFields | Backend/services/stakeholders/repository/user_repository.go:30-34 | the five profile fields come from the update; id, credentials and role are kept |
| Stakeholders.ProfiledIdempotent | Backend/services/stakeholders/repository/user_repository.go:30-34 | applying an update twice is applying it once; a row's own values change nothing |
| Stakeholders.ProfiledLastWins | Backend/services/stakeholders/repository/user_repository.go:30-34 | of two updates only the later counts |
| Stakeholders.UserRepository.constructor | Backend/services/stakeholders/repository/user_repository.go:9-12 | a table over the given rows |
| Stakeholders.UserRepository.GetById | Backend/services/stakeholders/repository/user_repository.go:14-22 | the lookup of the id |
| Stakeholders.UserRepository.Update | Backend/services/stakeholders/repository/user_repository.go:24-40 | an unknown id or a failed save changes nothing; otherwise that row gets the five fields and is returned |
| Stakeholders.UserRepository.GetAllUsers | Backend/services/stakeholders/repository/user_repository.go:42-48 | every row |
| Stakeholders.UpdateThenGet | Backend/services/stakeholders/repository/user_repository.go:14-40 | after an update the id reads back the saved row and other ids read as before |
| BlogHandler.FilterImages | Backend/services/blog/handler/BlogHandler.go:83-109 | the loop keeps exactly the specified images |
| BlogHandler.KeptImagesAppend | Backend/services/blog/handler/BlogHandler.go:85-109 | the filter works file by file |
| BlogHandler.KeptImagesExactly | Backend/services/blog/handler/BlogHandler.go:85-109 | each kept image is of an allowed type and comes from an upload; no readable allowed file is dropped |
| BlogHandler.JpgDropped | Backend/services/blog/handler/BlogHandler.go:100-102 | "image/jpg" files are dropped |
| BlogHandler.PlanCreate | Backend/services/blog/handler/BlogHandler.go:52-112 | exact "application/json" takes the decoded blog; otherwise the form's fields and the filtered images |
| BlogHandler.Create | Backend/services/blog/handler/BlogHandler.go:52-123 | a refusal is 400; a service error 417; otherwise 201 |
| BlogHandler.JsonPathUnfiltered | Backend/services/blog/handler/BlogHandler.go:59-68 | the JSON path hands the blog to the service as decoded, images unfiltered |
| BlogHandler.Update | Backend/services/blog/handler/BlogHandler.go:145-180 | 400 "Invalid UUID" for a bad id; a decoded body's title, description and images go to the service; 200 iff the id is valid, the body decodes and the service succeeds |
| BlogHandler.GetById | Backend/services/blog/handler/BlogHandler.go:31-50 | 400 iff the id is not a UUID; 200 with the blog iff found |
| BlogHandler.Delete | Backend/services/blog/handler/BlogHandler.go:125-143 | 400 iff not a UUID; 404 with the service's error; 200 iff deleted |
| ShopComponent.IndexInRange | Frontend/frontend-app/src/app/shop/shop.component.ts:188-198 | from a non-negative index both carousel steps stay within the key points |
| ShopComponent.NextPrevRoundTrip | Frontend/frontend-app/src/app/shop/shop.component.ts:188-198 | next then previous, or previous then next, returns to the index |
| ShopComponent.NextCycles | Frontend/frontend-app/src/app/shop/shop.component.ts:188-192 | k steps from the first image reach image k; n steps come back to the first |
| ShopComponent.CreateImageDataUrl | Frontend/frontend-app/src/app/shop/shop.component.ts:180-186 | the result is a data URL ending in the data; data already a data URL is kept |
| ShopComponent.DataUrlIdempotent | Frontend/frontend-app/src/app/shop/shop.component.ts:180-186 | building a URL from a URL changes nothing |
| ShopComponent.SomeWithId | Frontend/frontend-app/src/app/shop/shop.component.ts:59-61 | true iff some owned tour has the id |
| ShopComponent.Shop.constructor | Frontend/frontend-app/src/app/shop/shop.component.ts:16-21 | the initial field values |
| ShopComponent.Shop.NextImage | Frontend/frontend-app/src/app/shop/shop.component.ts:188-192 | with key points, the tour's index advances and stays in range; otherwise nothing changes |
| ShopComponent.Shop.PrevImage | Frontend/frontend-app/src/app/shop/shop.component.ts:194-198 | with key points, the tour's index steps back and stays in range; otherwise nothing changes |
| ShopComponent.Shop.AddToCart | Frontend/frontend-app/src/app/shop/shop.component.ts:110-118 | the item is always pushed; the request is sent iff a user is logged in |
| ShopComponent.Shop.RemoveFromCart | Frontend/frontend-app/src/app/shop/shop.component.ts:120-125 | the request is sent iff logged in; the local cart is untouched |
| ShopComponent.Shop.Checkout | Frontend/frontend-app/src/app/shop/shop.component.ts:134-150 | sent iff logged in; a success empties and closes the cart, anything else leaves them |
| ShopComponent.AddToCartTotal | Frontend/frontend-app/src/app/shop/shop.component.ts:110-132 | each push adds the tour's price to the total |
| ViewTour.DifficultyLabel | Frontend/frontend-app/src/app/tour/view-tour/view-tour.component.ts:215-229 | "Unknown" iff the value is not one of the numbers 0..3 |
| ViewTour.DifficultyToNumber | Frontend/frontend-app/src/app/tour/view-tour/view-tour.component.ts:322-335 | a code in 0..3 |
| ViewTour.StatusToNumber | Frontend/frontend-app/src/app/tour/view-tour/view-tour.component.ts:309-320 | a code in 0..2, non-zero only for a string label |
| ViewTour.TransportTypeToNumber | Frontend/frontend-app/src/app/tour/view-tour/view-tour.component.ts:337-348 | a code in 0..2, non-zero only for a string label |
| ViewTour.DifficultyRoundTrip | Frontend/frontend-app/src/app/tour/view-tour/view-tour.component.ts:322-335 | code and label are inverse on the four codes and labels; anything else becomes 0 |
| ViewTour.NumericCodesBecomeZero | Frontend/frontend-app/src/app/tour/view-tour/view-tour.component.ts:281-283 | numeric status and transport codes are sent as 0 |
| ViewTour.IsOwner | Frontend/frontend-app/src/app/tour/view-tour/view-tour.component.ts:103-110 | owner iff the current user id is truthy and equals the stringified author id |
| ViewTour.OwnerByRenderedId | Frontend/frontend-app/src/app/tour/view-tour/view-tour.component.ts:103-110 | a numeric author id matches its decimal form; a present authorId hides userId |
| ViewTour.VisibleKeyPoints | Frontend/frontend-app/src/app/tour/view-tour/view-tour.component.ts:141-144 | an owner sees all key points, anyone else at most the first |
| ViewTour.DrawKeyPoints | Frontend/frontend-app/src/app/tour/view-tour/view-tour.component.ts:145-149 | one position per key point with both coordinates, in order |
| ViewTour.NonOwnerSeesAtMostOne | Frontend/frontend-app/src/app/tour/view-tour/view-tour.component.ts:141-149 | a non-owner gets at most one marker, so no route |
| ViewTour.SelectedFlags | Frontend/frontend-app/src/app/tour/view-tour/view-tour.component.ts:250-252 | one checkbox per available tag, checked iff the tour has it |
| ViewTour.SelectedTagsMembers | Frontend/frontend-app/src/app/tour/view-tour/view-tour.component.ts:266-270 | a tag is saved iff its checkbox is checked |
| ViewTour.SelectedTagsAppend | Frontend/frontend-app/src/app/tour/view-tour/view-tour.component.ts:266-270 | the tags of two checkbox groups are the tags of each, in order |
| ViewTour.KeepTagsWithoutToggling | Frontend/frontend-app/src/app/tour/view-tour/view-tour.component.ts:250-270 | saving untouched checkboxes keeps exactly the tour's available tags |
| ViewTour.SaveUneditedResetsStatus | Frontend/frontend-app/src/app/tour/view-tour/view-tour.component.ts:243-286 | an unedited save sends status 0, the real difficulty, title and price |
| ViewTour.SecondSaveResetsDifficulty | Frontend/frontend-app/src/app/tour/view-tour/view-tour.component.ts:249-293 | after one save the label shows "Unknown" and the next save sends difficulty 0 |
| ViewTour.ViewTourPage.constructor | Frontend/frontend-app/src/app/tour/view-tour/view-tour.component.ts:35-41 | no tour id, no tour, not in edit mode, an empty edit form |
| ViewTour.ViewTourPage.EnableEditMode | Frontend/frontend-app/src/app/tour/view-tour/view-tour.component.ts:243-255 | edit mode with the form built from the tour; the tour id and tour are kept, so a loaded page stays loaded |
| ViewTour.ViewTourPage.SaveChanges | Frontend/frontend-app/src/app/tour/view-tour/view-tour.component.ts:262-306 | without a truthy tour id or a tour nothing happens, from any form; otherwise the DTO is sent, and a success updates the tour and leaves edit mode |
| ListTours.StatusLabel | Frontend/frontend-app/src/app/tour/list-tours/list-tours.component.ts:97-108 | "Unknown" iff the code is not 0..2 |
| ListTours.LabelsReadBack | Frontend/frontend-app/src/app/tour/list-tours/list-tours.component.ts:81-108 | the status and difficulty labels convert back to their codes |
| ListTours.PublishedOnlyExactly | Frontend/frontend-app/src/app/tour/list-tours/list-tours.component.ts:65-67 | exactly the tours whose status is the number 1 are kept |
| ListTours.PublishedOnlyAppend | Frontend/frontend-app/src/app/tour/list-tours/list-tours.component.ts:65-67 | the filter keeps order: filtering a concatenation is concatenating the filtered parts |
| ListTours.DraftsOnlyOnUserPage | Frontend/frontend-app/src/app/tour/list-tours/list-tours.component.ts:57-68 | an unpublished tour is shown only on a user's page |
| ListTours.ListToursPage.constructor | Frontend/frontend-app/src/app/tour/list-tours/list-tours.component.ts:12-18 | the initial field values |
| ListTours.ListToursPage.UpdateIsMyTours | Frontend/frontend-app/src/app/tour/list-tours/list-tours.component.ts:47-52 | my tours iff both ids are truthy and equal |
| ListTours.ListToursPage.StartLoad | Frontend/frontend-app/src/app/tour/list-tours/list-tours.component.ts:55-56 | loading is on and the error is cleared |
| ListTours.ListToursPage.FinishLoad | Frontend/frontend-app/src/app/tour/list-tours/list-tours.component.ts:61-76 | loading ends; success shows the filtered tours; failure keeps the tours and shows the error message |
| RegisterForm.ConfirmErrorsAfter | Frontend/frontend-app/src/app/auth/register/register.component.ts:24-43 | a mismatch sets exactly passwordMismatch; otherwise only that key is removed and an empty set becomes null |
| RegisterForm.ValidatorIdempotent | Frontend/frontend-app/src/app/auth/register/register.component.ts:24-43 | running the validator again changes nothing |
| RegisterForm.React | Frontend/frontend-app/src/app/auth/register/register.component.ts:64-71 | marks the username iff 400 with a text body containing "Username"; throws iff 400 with a JSON body |
| RegisterForm.TakenUsernameMarked | Frontend/frontend-app/src/app/auth/register/register.component.ts:66-67 | the service's "Username taken." answer marks the username control |
| RegisterForm.ValidationProblemThrows | Frontend/frontend-app/src/app/auth/register/register.component.ts:66 | a validation-problem body makes the callback throw |
| RegisterForm.Registration.constructor | Frontend/frontend-app/src/app/auth/register/register.component.ts:13-19 | empty fields and the role "Turista" |
| RegisterForm.Registration.PasswordMatchValidator | Frontend/frontend-app/src/app/auth/register/register.component.ts:24-43 | the group error iff mismatch, and the confirmation errors as specified |
| RegisterForm.Registration.EditUsername | Frontend/frontend-app/src/app/auth/register/register.component.ts:14 | editing the username re-runs its validator, which clears an error set from outside |
| RegisterForm.Registration.Register | Frontend/frontend-app/src/app/auth/register/register.component.ts:44-73 | nothing is sent from an invalid form, including one whose username carries an error; otherwise the four fields are sent and the answer handled as specified; marking the username taken leaves the form invalid |
| RegisterForm.DefaultRoleRejected | Frontend/frontend-app/src/app/auth/register/register.component.ts:16 | the default role fails the auth service's validation |

## Left out

- Cryptography: BCrypt hashing and verification, HMAC signing, and JWT signature, expiry and clock-skew checks are oracles (`Hasher`, `Verifier`). The model keeps only what the callers rely on.
- JWT claim-type URIs: `ClaimTypes` are a four-valued enumeration, and the gateway's `sub`/`uid`/`role` names are modelled as plain keys. How the auth service's claim URIs map onto them is not modelled.
- Databases: EF Core, MongoDB, Neo4j and GORM are modelled as in-memory tables or maps. Transactions, timeouts, indexes (`EnsureIndexes`) and concurrency are not modelled.
- Database errors other than a duplicate id are not modelled for the execution store (`TourExecution.Start`, `CheckProximity` and `Abandon` never see a failing read or write), the key point store, the follow graph's read queries (`GetFollowing`, `GetFollowers` and `GetRecommendations` return the driver's error when `ExecuteRead` fails, followers.go:79-81), the shopping repository (`GetCart`, `SaveCart` and `ClearCart` always succeed, so the gRPC errors `server.go` makes from their failures are not modelled) and the auth service's `SaveChangesAsync`. Only the follow graph (`storeError`) and the stakeholder save (`saveError`) take a failure as a parameter.
- `net/http` header canonicalisation: header maps are keyed by the exact names the source writes.
- `X-Forwarded-For` appending by the reverse proxy, its transport settings and the TLS configuration are not modelled.
- The access-log middlewares for HTTP and gRPC: only the values they read are modelled (`LoggingWriter`, `ClientIP`, the id readers). Log output and latency are left out.
- Haversine distance: `CheckProximity` takes the distance as an input. Floating-point rounding is not modelled; prices and coordinates are reals.
- `TourExecution.Start`: re-storing the user's current location after a start (a best-effort upsert whose error is ignored) is not modelled.
- `GetActiveByUserAndTour` and `GetActive` on the execution service are repository pass-throughs; their query is `FirstActive`.
- The key point handler's `GetAll`, `GetAllByTour` and `GetAllByTourSortedByCreatedAt` are service pass-throughs and are not modelled. The same holds for the blog handler's `GetAll` and `GetAllByUser`.
- File reading errors in the key point handler's 500 path are modelled as an unreadable file part. The 10 MB and 50 MB form limits are part of "form parsing failed".
- The blog entity and service shown in the repository do not match the fields the handler uses. The model follows the handler: a blog is user id, title, description and images, with "" for fields the handler does not set.
- The stakeholders `User` model's `ProfilePhoto` struct tag is malformed, so its ORM column mapping is uncertain. The model treats it like the other four profile fields.
- `ShoppingServer.GetTokens` (the gRPC handler) converts the repository's tokens to protobuf; the list it returns is `ShoppingRepo.ShoppingRepo.GetTokens`.
- Angular lifecycle code: `ngOnInit` subscriptions, routing, `whoAmI` calls, Leaflet maps, markers, dialogs, routing-control drawing, alerts and SweetAlert popups are not modelled. Neither are `getCurrentImage`, `getFirstKeypointImage`, `loadTours`, `loadCart`, `toggleCart`, `viewTour`, `cancelEdit`, `confirmDelete` and `updateTourDistanceAndDuration`.
- `ViewTour.ViewTourPage.SaveChanges`: `parseFloat(price)` is modelled as passing the price through. The DTO (`ViewTour.DtoOf`, `ViewTour.UpdateDto`) does not carry `distance`, `duration`, `publishedAt` and `archivedAt`, which the page copies from the loaded tour unchanged. With a tour loaded but the form reset to `{}` (by `cancelEdit` or a previous save), the source throws a TypeError reading `selectedTags`; the model requires a form in that state.
- `ViewTour.ViewTourPage.EnableEditMode` requires a loaded tour: on a null tour the source throws a TypeError, which is not modelled.
- `RegisterForm.Registration.Register`: `Validators.email` is an oracle (`emailPattern`).
- `Accounts.ValidRequestRole`: `[EmailAddress]` is approximated as "exactly one '@', not at either end", and `char.IsWhiteSpace` is approximated by the common white-space characters.
- The blog handler's replies carry a status and a body only; the headers `http.Error` and the JSON responses set on them are not modelled.
- `KeyPointHandler.Parsers`: `uuid.Parse` is an oracle returning the canonical form of the UUID a text spells. The model trusts it to be canonical; which spellings it accepts is not modelled.
- `Text.ToLower`: only ASCII letters are lowered; Unicode case mapping of other letters is not modelled.
- `Jwt.GenerateToken`: the HS256 minimum key length (IdentityModel refuses a key under 256 bits when the token is written) is not modelled; a short non-empty key yields a token in the model.
- The tour model's `KeyPoint.Image` is declared as a string, while the handler builds and the service copies an image record (bytes and MIME type). The model follows the handler's image record. The handler also calls `KeyPointService.GetById` (KeyPointHandler.go:262, :323), which neither KeyPointService.go nor KeyPointRepository.go defines; the model takes it to be a lookup by `_id` that fails for a missing key point.
