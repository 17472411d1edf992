# Startup benefits platform: API handlers over users, deals and claims

This project models the server side of a small deals catalogue. Registered
users browse partner deals and claim them. Some deals are locked and may only
be claimed by a verified user. The model covers the decisions and the
bookkeeping the API route handlers perform over the three MongoDB collections
(users, deals, claims), and what the Mongoose schemas impose on every stored
document.

- `Store.Database` is a class holding the three collections as sequences in
  natural (insertion) order. `Model.create` is one method per collection,
  each proved against a pure function (`UserCreate`, `DealCreate`,
  `ClaimCreate`). Those functions apply the schema: required fields, the
  `status` enum, the `isVerified`, `isLocked` and `status` defaults, the
  timestamps, and the unique indexes on `_id`, on `email` and on
  (`userId`, `dealId`). `TablesValid` is the class invariant.
- Every route handler is a pure function. The handlers that write return
  the answer and the new collections; the read-only handlers (login, profile
  and the two listings) take the collections and return only the answer.
  The handlers that write (`POST /api/claims`,
  `POST /api/claims/user`, `POST /api/auth/register`) are also methods that
  run the early-return guards and write once through the store. Each method
  is proved to agree with its function.
- The strict claim path is split in two. `ClaimsRoute.Authenticate` covers
  the session. `ClaimsRoute.Admit` covers the deal lookup, the lock gate,
  the duplicate check and the insert. `ClaimsRoute.ExpectedDenial` states
  the guard order declaratively over whole tables, and
  `AdmitFollowsGuardOrder` proves that the handler follows it.
- Code outside this model is passed in as uninterpreted functions
  (`External.Services`):
  - `verifyToken` and `generateToken` from `src/lib/auth`;
  - `bcrypt.hash` (with its random salt made an argument) and
    `bcrypt.compare`;
  - zod's `.email()` check;
  - Mongoose's ObjectId cast;
  - MongoDB's `$regex` compilation and case-insensitive matching.
- `getUserFromToken`, also from `src/lib/auth`, is not part of this model.
  The handlers that call it take its result as an input (`caller`).
- Clocks and generated ObjectIds are inputs too (`now`, `newId`).
- `Api` composes the handlers over one shared store. A sequence of
  requests is served one after another, and the lemmas there hold for every
  such sequence.
- A value that Mongoose cannot cast to an ObjectId makes the query or the
  create throw. The model answers 500 in that case, as the `catch` blocks
  do.

Where the handlers as written differ from what one might expect, the model
follows the handlers:
- A locked deal whose caller has no user record answers 403, not 401.
- A unique-index clash at insert time is thrown and answers 500, not 409.
- The second claim-creation path (`POST /api/claims/user`) is modelled as
  written. It has no deal lookup and no lock gate, and it answers a
  duplicate with 400. See "Findings".

## Model

| member | source | states |
|---|---|---|
| `Models.ParseStatus` | src/models/Claim.ts:15-19 | a status string is accepted exactly when it is 'pending', 'approved' or 'rejected' |
| `Models.StatusName` | src/models/Claim.ts:6 | the string stored for each status parses back to that status |
| `Store.UserCreate` | src/models/User.ts:12-22 | a user is stored exactly when name, email and passwordHash are non-empty and neither `_id` nor `email` is taken. The stored user has the given fields, `isVerified` false unless set, and createdAt = updatedAt = now. Unique ids and unique emails are preserved |
| `Store.DealCreate` | src/models/Deal.ts:14-26 | a deal is stored exactly when its five required strings are non-empty and its `_id` is free. `isLocked` is false unless set, and the timestamps are now. Unique ids are preserved |
| `Store.ClaimCreate` | src/models/Claim.ts:11-27 | a claim is stored exactly when both references cast, the status (if given) is in the enum, and neither `_id` nor (userId, dealId) is taken. The status defaults to pending, the timestamps are now, and at most one claim per (userId, dealId) is preserved |
| `Store.Database.CreateUser` | src/models/User.ts:12-24 | `User.create` appends exactly the document `UserCreate` builds, or nothing, and keeps the invariant |
| `Store.Database.CreateDeal` | src/models/Deal.ts:14-31 | `Deal.create` appends exactly the document `DealCreate` builds, or nothing, and keeps the invariant |
| `Store.Database.CreateClaim` | src/models/Claim.ts:11-29 | `Claim.create` appends exactly the document `ClaimCreate` builds, or nothing, and keeps the invariant |
| `Store.FindUserById` | src/app/api/auth/me/route.ts:19 | `findById` throws when the id does not cast. It finds a user with that id exactly when one exists |
| `Store.FindUserByEmail` | src/app/api/auth/login/route.ts:16 | `findOne({ email })` finds a user exactly when one has that email |
| `Store.FindDealById` | src/app/api/claims/route.ts:33 | `findById` throws when the id does not cast. It finds a deal with that id exactly when one exists |
| `Store.FindClaim` | src/app/api/claims/route.ts:54-57 | `findOne({ userId, dealId })` throws when either id does not cast. It finds a claim exactly when one has that pair |
| `Store.FindClaimsOfUser` | src/app/api/claims/user/route.ts:19 | `find({ userId })` returns each claim of that user as often as stored, and no other claim |
| `Collections.SortByKeyDesc` | src/app/api/deals/route.ts:27 | `sort({ createdAt: -1 })` returns a permutation of its input, newest first |
| `Json.Destructure` | src/app/api/claims/user/route.ts:45-46 | `const { dealId } = body` throws exactly on null, and yields the field exactly when the body is an object that has it |
| `Validators.ParseRegister` | src/lib/validators.ts:3-7 | a body passes `registerSchema` exactly when it has a name of length ≥ 1, a string email the email check accepts, and a password of length ≥ 6 |
| `Validators.ParseLogin` | src/lib/validators.ts:9-12 | a body passes `loginSchema` exactly when it has an email the email check accepts and a password of length ≥ 1 |
| `Validators.ParseClaim` | src/lib/validators.ts:14-16 | a body passes `claimSchema` exactly when it has a string dealId of length ≥ 1 |
| `Validators.RegisterBodyPassesLogin` | src/lib/validators.ts:3-12 | every body `registerSchema` accepts, `loginSchema` accepts with the same email and password |
| `Sessions.IssueSession` | src/app/api/auth/login/route.ts:34-46 | the response exposes only id, email and name. The cookie lives 604800 seconds. Under a sound token service, the cookie is non-empty and verifies to {user id, email} |
| `ClaimsRoute.Authenticate` | src/app/api/claims/route.ts:13-27 | a caller is authenticated exactly when the token cookie is non-empty and `verifyToken` accepts it |
| `ClaimsRoute.LockGate` | src/app/api/claims/route.ts:42-51 | an unlocked deal always passes. A locked deal passes only for an existing verified user, and for such a user whenever user ids are unique. The lookup throws only on a locked deal with an uncastable user id |
| `ClaimsRoute.Admit` | src/app/api/claims/route.ts:32-71 | any failure writes nothing. A success appends exactly one pending claim for (caller, deal) with timestamps now. That claim's deal exists, is unlocked or has a verified caller, and has no earlier claim by the caller. A deal id that does not cast answers 500 with no write. Users and deals are never touched, and claim uniqueness is preserved |
| `ClaimsRoute.PostOutcome` | src/app/api/claims/route.ts:8-79 | 401 comes exactly without an authenticated caller. A missing or invalid body then gives 500. Failures write nothing, a success appends one claim, and uniqueness is preserved |
| `ClaimsRoute.Post` | src/app/api/claims/route.ts:8-79 | the early-return handler answers and writes exactly as `PostOutcome` and keeps the store invariant |
| `ClaimsRoute.AdmitFollowsGuardOrder` | src/app/api/claims/route.ts:32-71 | with castable ids, the answer is the first failing guard in the order deal exists (404), lock and verification (403), no duplicate (409), with no write. If none fails, exactly Claim(newId, caller, deal, pending, now, now) is appended |
| `ClaimsRoute.UnlockedDealIgnoresUsers` | src/app/api/claims/route.ts:42-51 | on an unlocked deal, the answer does not depend on the users collection, so an unverified caller can claim it |
| `ClaimsRoute.RetryAfterSuccessConflicts` | src/app/api/claims/route.ts:53-69 | replaying a successful request answers 409 "Deal already claimed" and writes nothing |
| `ClaimsUserRoute.Populate` | src/app/api/claims/user/route.ts:76 | `populate('dealId')` attaches the deal with the claim's dealId when one exists, and null otherwise |
| `ClaimsUserRoute.ListOutcome` | src/app/api/claims/user/route.ts:6-31 | `GET` answers 401 exactly without a caller. With a caller it succeeds exactly when the caller's id casts, and otherwise answers 500. Each listed entry is a claim with its populated deal |
| `ClaimsUserRoute.ListIsCallersClaimsNewestFirst` | src/app/api/claims/user/route.ts:18-21 | a successful listing holds exactly the caller's claims, each as often as stored and no other claim, newest first |
| `ClaimsUserRoute.PostOutcome` | src/app/api/claims/user/route.ts:33-89 | 401 comes exactly without a caller, and 400 "Deal ID is required" for a falsy dealId. A missing body, a null body, a caller id or truthy dealId that does not cast, and a create refused for a taken `_id` all answer 500. Every failure is one of 401, 500 and the two 400s, and failures write nothing. A success appends one claim with status pending and answers with it populated and "Claim submitted successfully". Uniqueness is preserved |
| `ClaimsUserRoute.Post` | src/app/api/claims/user/route.ts:33-89 | the early-return handler answers and writes exactly as `PostOutcome` and keeps the store invariant |
| `ClaimsUserRoute.PostAdmitsExactlyUnclaimed` | src/app/api/claims/user/route.ts:45-73 | for a caller id that casts and a truthy `dealId` of any JSON form that casts, it succeeds exactly when the caller has no claim on the cast deal id, storing Claim(newId, caller, deal, pending, now, now). Otherwise it answers 400 "Claim already exists for this deal" |
| `ClaimsUserRoute.StrictSuccessImpliesLooseSuccess` | src/app/api/claims/user/route.ts:45-73 | whatever `POST /api/claims` admits, this path admits as well and stores the same document |
| `ClaimsUserRoute.PostIgnoresUsersAndDeals` | src/app/api/claims/user/route.ts:45-73 | replacing the users and the deals by any others changes neither whether the request succeeds, nor any failure answer, nor the stored claim, nor the claims collection. There is no 404 and no lock gate. Only the deal populated into a success body depends on the deals |
| `ClaimsUserRoute.LooseBypassesLockGate` | src/app/api/claims/user/route.ts:45-73 | an unverified user's claim on a locked deal is refused with 403 by the strict path and stored by this one |
| `ClaimsUserRoute.GatedPostOutcome` | src/app/api/claims/user/route.ts:33-89 | with the deal lookup and lock gate restored, a stored claim always names an existing deal, and a locked deal only with a verified caller. Failures write nothing and uniqueness is preserved |
| `ClaimsUserRoute.GatedMatchesPostOnOpenDeals` | src/app/api/claims/user/route.ts:45-73 | on an existing unlocked deal, the gated path answers and writes exactly as the written one |
| `LoginRoute.LoginOutcome` | src/app/api/auth/login/route.ts:8-56 | every failure is 500 or the single 401 "Invalid credentials". A success is the session of a stored user with the given email whose hash bcrypt accepts. The collections are never written |
| `LoginRoute.LoginSucceedsIffCredentialsMatch` | src/app/api/auth/login/route.ts:15-39 | with unique emails, login succeeds exactly when a user has the email and the password matches. An unknown email and a wrong password give the same answer |
| `MeRoute.ProfileOutcome` | src/app/api/auth/me/route.ts:6-41 | 401 exactly without a caller, 500 on an uncastable id, 404 exactly when no user has the id. Otherwise the answer is that user's {id, email, name} |
| `RegisterRoute.RegisterOutcome` | src/app/api/auth/register/route.ts:8-57 | an invalid body gives 500. A taken email gives 400 "User already exists". Failures write nothing. A success appends exactly one unverified user with the given name and email and passwordHash = hash(password), and answers with that user's session. Unique ids and emails are preserved |
| `RegisterRoute.RegisterSucceedsIffEmailFree` | src/app/api/auth/register/route.ts:16-32 | for a valid body with a non-empty e-mail and hash and a fresh id, registration succeeds exactly when no user has that e-mail, and otherwise answers 400 "User already exists" |
| `RegisterRoute.Register` | src/app/api/auth/register/route.ts:8-57 | the early-return handler answers and writes exactly as `RegisterOutcome` and keeps the store invariant |
| `RegisterRoute.RegisterThenLogin` | src/app/api/auth/register/route.ts:25-40 | when bcrypt accepts a password against its own hash, logging in with a body that registered returns the same session |
| `RegisterRoute.RegisterThenProfile` | src/app/api/auth/register/route.ts:35-47 | under a sound token service, the registration cookie verifies to the new user, and the profile endpoint returns the profile registration answered with |
| `Api.ConflictPersists` | src/app/api/claims/route.ts:53-69 | once a request answers 409, every replay of it answers 409 and leaves the store as it is |
| `Api.AtMostOneSuccess` | src/app/api/claims/route.ts:53-69 | however often a claim request is replayed, with any ids and clocks, it succeeds at most once. Every attempt after the success answers 409 "Deal already claimed". The store gains one claim per success and nothing else |
| `Api.Step` | src/app/api/claims/route.ts:8-79 | composing the three writing handlers (`POST /api/claims`, `POST /api/claims/user`, `POST /api/auth/register`) with the read-only ones, serving any one request keeps the unique indexes and required fields. It never changes deals and only appends users and claims. The read-only routes change nothing |
| `Api.RunPreservesValid` | src/models/Claim.ts:26-27 | after any sequence of requests, user ids and emails, deal ids, claim ids and (userId, dealId) pairs are still unique, and every required field is still present |
| `Api.RunOnlyAppends` | src/app/api/auth/register/route.ts:8-57 | over all routes, which write only through the three writing handlers (`POST /api/claims`, `POST /api/claims/user`, `POST /api/auth/register`), no sequence of requests deletes or edits a document: deals never change, and the users and claims before are a prefix of those after |
| `DealsRoute.BuildQuery` | src/app/api/deals/route.ts:13-25 | a category or search filter is set exactly when that parameter is a non-empty string |
| `DealsRoute.ListOutcome` | src/app/api/deals/route.ts:5-37 | the listing fails, with 500, exactly when a non-empty search pattern does not compile |
| `DealsRoute.ListSelectsExactly` | src/app/api/deals/route.ts:13-27 | the listing holds each deal, with multiplicity, exactly when it passes every given filter (category equality; a case-insensitive match on title, description or partnerName). It is newest first |
| `DealsRoute.NoFilterListsEverything` | src/app/api/deals/route.ts:13-27 | with neither parameter, the listing is the whole catalogue, reordered |

## Findings

| source | as written | input that shows it | evidently intended | confidence | as-written member | corrected member |
|---|---|---|---|---|---|---|
| src/app/api/claims/user/route.ts:45-73 | `POST` stores a claim for any truthy `dealId` that casts and that the caller has not yet claimed. It never looks the deal up or checks its lock, so the lock gate of `POST /api/claims` (src/app/api/claims/route.ts:41-51) can be bypassed | an unverified user posts `{"dealId": "<id of a locked deal>"}` to `/api/claims/user` | refuse a missing deal with 404 and a locked deal for an unverified caller with 403, as the other claim path does | medium; not executed | `ClaimsUserRoute.LooseBypassesLockGate` | `ClaimsUserRoute.GatedPostOutcome` |

## Left out

- HTTP framing: `NextResponse`, the cookie's `httpOnly`, `secure` and `sameSite` flags, and `console.error` logging. An answer is an `Http.Outcome` that carries the status and the error message.
- Connecting to the database (`dbConnect`) and store I/O failures. In the source each of these is thrown and gives 500; they are not modelled as separate inputs.
- Concurrency. Each handler is one atomic step. The race between two identical claim requests, which the unique index resolves, is out of scope. `ClaimCreate` still refuses the second insert.
- `src/lib/auth` is not part of this model. `getUserFromToken` is an input. `verifyToken` and `generateToken` are uninterpreted. So are bcrypt, zod's email check, Mongoose's ObjectId cast and MongoDB's regex engine. `HashSound`, `TokensSound` and `Canonical` (the cast returns a generated id unchanged) are the only facts assumed of these, and only in the lemmas that name them: `RegisterRoute.RegisterThenLogin` assumes `HashSound`, `Sessions.IssueSession` (in one ensures) and `RegisterRoute.RegisterThenProfile` assume `TokensSound`, and `RegisterRoute.RegisterThenProfile` assumes `Canonical`. Other lemmas only take as preconditions that particular inputs cast.
- JSON numbers are integers. zod counts string length in UTF-16 code units, while the model counts characters.
- `Json.Destructure`: MongoDB reads an object-valued `dealId` such as `{"$ne": null}` as a query operator, and Mongoose turns an array-valued `dealId` in a query into `$in`, so `findOne` may find a claim for an array while `Claim.create` fails on it. The model hands either value as it is to one ObjectId cast, the same in the query and in the create.
- `Store.Database.CreateDeal` models `Deal.create` and its `isLocked` default. No modelled handler creates deals; the seed script does, and it is not modelled.
- The `canClaim` flag of `GET /api/deals/[id]`, the `/api/auth/verify` and `/api/auth/logout` endpoints, and the pages, components, seed script, middleware and connection cache are not part of this model. No change to `isVerified` is modelled.
- Sorting: MongoDB leaves the order of deals or claims with equal `createdAt` unspecified. The model fixes one order, and its lemmas promise only newest-first and the same elements.
