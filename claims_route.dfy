/**
 * `POST /api/claims`: the strict claim path. Guards run in a fixed order
 * and the first that fails decides the answer: session token, request
 * body, deal lookup, the lock gate (a locked deal needs a verified
 * caller), the duplicate check; only then is one claim created.
 */
module ClaimsRoute {
  import opened Wrappers
  import opened Json
  import opened External
  import opened Models
  import opened Store
  import opened Http
  import opened Validators

  const DealNotFound := "Deal not found"
  const VerificationRequired := "Verification required for locked deals"
  const AlreadyClaimed := "Deal already claimed"

  /** The session check: a non-empty `token` cookie that `verifyToken` accepts. */
  function Authenticate(cookie: Option<string>, svc: Services): (r: Option<TokenPayload>)
    ensures r.Some? <==> NonEmpty(cookie) && svc.verifyToken(cookie.value).Some?
    ensures r.Some? ==> r == svc.verifyToken(cookie.value)
  {
    if NonEmpty(cookie) then svc.verifyToken(cookie.value) else None
  }

  /** What the lock gate decides about a deal that was found. */
  datatype Gate = Pass | Deny | Throw

  /** A locked deal admits only a caller whose user record exists and is verified. */
  function LockGate(users: seq<User>, deal: Deal, userId: string, svc: Services): (g: Gate)
    ensures !deal.isLocked ==> g == Pass
    ensures g == Throw <==> deal.isLocked && svc.castId(JStr(userId)).None?
    ensures g == Pass ==> !deal.isLocked ||
                          exists u :: u in users && Some(u.id) == svc.castId(JStr(userId)) && u.isVerified
    ensures UsersValid(users) && (exists u :: u in users && Some(u.id) == svc.castId(JStr(userId)) && u.isVerified) ==>
              g == Pass
  {
    if !deal.isLocked then Pass
    else
      match FindUserById(users, JStr(userId), svc)
      case CastFailed => Throw
      case Missing => Deny
      case Found(u) =>
        if u.isVerified then Pass
        else
          assert UsersValid(users) ==> forall v :: v in users && Some(v.id) == svc.castId(JStr(userId)) ==> v == u by {
            if UsersValid(users) {
              forall v | v in users && Some(v.id) == svc.castId(JStr(userId)) { UserById(users, u, v); }
            }
          }
          Deny
  }

  /**
   * The checks after the body has been parsed: the deal, the lock gate, the
   * duplicate check and the insert. The second component is the new state.
   */
  function Admit(t: Tables, userId: string, dealId: string, svc: Services,
                 newId: ObjectId, now: Timestamp): (r: (Outcome<Claim>, Tables))
    ensures r.1.users == t.users && r.1.deals == t.deals
    ensures r.0.Fail? ==> r.1 == t
    ensures svc.castId(JStr(dealId)).None? ==> r == (ServerError(), t)
    ensures r.0.Ok? ==> r.1.claims == t.claims + [r.0.value]
    ensures r.0.Ok? ==> Some(r.0.value.userId) == svc.castId(JStr(userId)) &&
                        Some(r.0.value.dealId) == svc.castId(JStr(dealId)) &&
                        r.0.value.status == Pending && r.0.value.id == newId &&
                        r.0.value.createdAt == now && r.0.value.updatedAt == now
    ensures r.0.Ok? ==> exists d :: d in t.deals && d.id == r.0.value.dealId &&
                          (d.isLocked ==> exists u :: u in t.users && u.id == r.0.value.userId && u.isVerified)
    ensures r.0.Ok? ==> forall c :: c in t.claims ==>
                          !(c.userId == r.0.value.userId && c.dealId == r.0.value.dealId)
    ensures ClaimsValid(t.claims) ==> ClaimsValid(r.1.claims)
  {
    var rawUser, rawDeal := JStr(userId), JStr(dealId);
    match FindDealById(t.deals, rawDeal, svc)
    case CastFailed => (ServerError(), t)
    case Missing => (Fail(NotFound404, DealNotFound), t)
    case Found(deal) =>
      match LockGate(t.users, deal, userId, svc)
      case Throw => (ServerError(), t)
      case Deny => (Fail(Forbidden403, VerificationRequired), t)
      case Pass =>
        match FindClaim(t.claims, rawUser, rawDeal, svc)
        case CastFailed => (ServerError(), t)
        case Found(_) => (Fail(Conflict409, AlreadyClaimed), t)
        case Missing =>
          match ClaimCreate(t.claims, rawUser, rawDeal, None, newId, now, svc)
          case Refused(_) => (ServerError(), t)
          case Created(c) => (Ok(c), t.(claims := t.claims + [c]))
  }

  /** The whole handler: session, body, then `Admit`; anything thrown becomes 500. */
  function PostOutcome(t: Tables, cookie: Option<string>, body: Option<Json>, svc: Services,
                       newId: ObjectId, now: Timestamp): (r: (Outcome<Claim>, Tables))
    ensures r.1.users == t.users && r.1.deals == t.deals
    ensures r.0.Fail? ==> r.1 == t
    ensures r.0.Ok? ==> r.1.claims == t.claims + [r.0.value]
    ensures r.0 == Unauthorized() <==> Authenticate(cookie, svc).None?
    ensures Authenticate(cookie, svc).Some? && (body.None? || ParseClaim(body.value).None?) ==>
              r.0 == ServerError()
    ensures ClaimsValid(t.claims) ==> ClaimsValid(r.1.claims)
  {
    match Authenticate(cookie, svc)
    case None => (Unauthorized(), t)
    case Some(payload) =>
      if body.None? then (ServerError(), t)
      else
        match ParseClaim(body.value)
        case None => (ServerError(), t)
        case Some(input) => Admit(t, payload.userId, input.dealId, svc, newId, now)
  }

  /** The handler as it runs: early returns, and the one write through `Claim.create`. */
  method Post(db: Database, cookie: Option<string>, body: Option<Json>, svc: Services,
              newId: ObjectId, now: Timestamp) returns (r: Outcome<Claim>)
    requires db.Valid()
    modifies db`claims
    ensures db.Valid()
    ensures (r, db.Snapshot()) == PostOutcome(old(db.Snapshot()), cookie, body, svc, newId, now)
  {
    if !NonEmpty(cookie) {
      return Unauthorized();
    }
    var payload := svc.verifyToken(cookie.value);
    if payload.None? {
      return Unauthorized();
    }
    if body.None? {
      return ServerError();
    }
    var input := ParseClaim(body.value);
    if input.None? {
      return ServerError();
    }
    var rawUser, rawDeal := JStr(payload.value.userId), JStr(input.value.dealId);
    var deal := FindDealById(db.deals, rawDeal, svc);
    if deal.CastFailed? {
      return ServerError();
    }
    if deal.Missing? {
      return Fail(NotFound404, DealNotFound);
    }
    if deal.doc.isLocked {
      var user := FindUserById(db.users, rawUser, svc);
      if user.CastFailed? {
        return ServerError();
      }
      if user.Missing? || !user.doc.isVerified {
        return Fail(Forbidden403, VerificationRequired);
      }
    }
    var existing := FindClaim(db.claims, rawUser, rawDeal, svc);
    if existing.CastFailed? {
      return ServerError();
    }
    if existing.Found? {
      return Fail(Conflict409, AlreadyClaimed);
    }
    var created := db.CreateClaim(rawUser, rawDeal, None, newId, now, svc);
    if created.Refused? {
      return ServerError();
    }
    r := Ok(created.doc);
  }

  /**
   * The guards read declaratively over whole tables, in the handler's
   * order: the first that fails names the status, and `None` means admitted.
   */
  function ExpectedDenial(t: Tables, userId: ObjectId, dealId: ObjectId): Option<HttpStatus> {
    if !(exists d :: d in t.deals && d.id == dealId) then Some(NotFound404)
    else if (exists d :: d in t.deals && d.id == dealId && d.isLocked) &&
            !(exists u :: u in t.users && u.id == userId && u.isVerified) then Some(Forbidden403)
    else if exists c :: c in t.claims && c.userId == userId && c.dealId == dealId then Some(Conflict409)
    else None
  }

  /**
   * For an authenticated caller and ids that cast, the handler's answer is
   * the first failing guard of `ExpectedDenial`, with no write; when none
   * fails, exactly the one pending claim is appended.
   */
  lemma AdmitFollowsGuardOrder(t: Tables, userId: string, dealId: string, svc: Services,
                               newId: ObjectId, now: Timestamp, uid: ObjectId, did: ObjectId)
    requires TablesValid(t)
    requires svc.castId(JStr(userId)) == Some(uid) && svc.castId(JStr(dealId)) == Some(did)
    requires forall c :: c in t.claims ==> c.id != newId
    ensures var r := Admit(t, userId, dealId, svc, newId, now);
            match ExpectedDenial(t, uid, did)
            case Some(status) => r.0.Fail? && r.0.status == status && r.1 == t
            case None => r.0 == Ok(Claim(newId, uid, did, Pending, now, now)) &&
                         r.1 == t.(claims := t.claims + [r.0.value])
  {
  }

  /**
   * An unlocked deal never consults the users collection: the answer and
   * the new state are the same whatever the users are, so an unverified
   * caller (or one with no user record) can claim it.
   */
  lemma UnlockedDealIgnoresUsers(t: Tables, users: seq<User>, userId: string, dealId: string,
                                 svc: Services, newId: ObjectId, now: Timestamp)
    requires forall d :: d in t.deals && Some(d.id) == svc.castId(JStr(dealId)) ==> !d.isLocked
    ensures Admit(t.(users := users), userId, dealId, svc, newId, now).0 == Admit(t, userId, dealId, svc, newId, now).0
  {
  }

  /**
   * A claim is created at most once per (caller, deal): replaying a request
   * that succeeded, with any new id and clock, answers 409 and writes nothing.
   */
  lemma RetryAfterSuccessConflicts(t: Tables, cookie: Option<string>, body: Option<Json>,
                                   svc: Services, newId: ObjectId, now: Timestamp,
                                   retryId: ObjectId, retryNow: Timestamp)
    requires PostOutcome(t, cookie, body, svc, newId, now).0.Ok?
    ensures var t' := PostOutcome(t, cookie, body, svc, newId, now).1;
            PostOutcome(t', cookie, body, svc, retryId, retryNow) == (Fail(Conflict409, AlreadyClaimed), t')
  {
  }
}
