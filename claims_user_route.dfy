/**
 * `/api/claims/user`. `GET` lists the caller's claims newest first, each
 * with its deal populated. `POST` is a second, looser way to create a
 * claim: it checks only that a deal id was sent and that the caller has no
 * claim for it yet, answers a duplicate with 400 rather than 409, and never
 * looks the deal up, so neither the 404 nor the lock gate of the strict
 * path applies.
 */
module ClaimsUserRoute {
  import opened Wrappers
  import opened Json
  import opened Collections
  import opened External
  import opened Models
  import opened Store
  import opened Http
  import opened Validators
  import ClaimsRoute

  const DealIdRequired := "Deal ID is required"
  const ClaimExists := "Claim already exists for this deal"
  const Submitted := "Claim submitted successfully"

  /** A claim after `populate('dealId')`: its deal document, or null when there is none. */
  datatype PopulatedClaim = PopulatedClaim(claim: Claim, deal: Option<Deal>)

  /** The body of a successful `POST`: `{ claim, message }`. */
  datatype Submission = Submission(claim: PopulatedClaim, message: string)

  function Populate(deals: seq<Deal>, c: Claim): (p: PopulatedClaim)
    ensures p.claim == c
    ensures p.deal.Some? <==> exists d :: d in deals && d.id == c.dealId
    ensures p.deal.Some? ==> p.deal.value in deals && p.deal.value.id == c.dealId
  {
    PopulatedClaim(c, FindFirst(deals, (d: Deal) => d.id == c.dealId))
  }

  function PopulateAll(deals: seq<Deal>, cs: seq<Claim>): (ps: seq<PopulatedClaim>)
    ensures |ps| == |cs|
    ensures forall i :: 0 <= i < |cs| ==> ps[i] == Populate(deals, cs[i])
  {
    seq(|cs|, i requires 0 <= i < |cs| => Populate(deals, cs[i]))
  }

  function ClaimsOf(ps: seq<PopulatedClaim>): (cs: seq<Claim>)
    ensures |cs| == |ps|
    ensures forall i :: 0 <= i < |ps| ==> cs[i] == ps[i].claim
  {
    seq(|ps|, i requires 0 <= i < |ps| => ps[i].claim)
  }

  function CreatedAt(c: Claim): int {
    c.createdAt
  }

  /** `GET`: `Claim.find({ userId }).populate('dealId').sort({ createdAt: -1 })`. */
  function ListOutcome(t: Tables, caller: Option<TokenPayload>, svc: Services): (r: Outcome<seq<PopulatedClaim>>)
    ensures r == Unauthorized() <==> caller.None?
    ensures caller.Some? ==> (r.Ok? <==> svc.castId(JStr(caller.value.userId)).Some?)
    ensures r.Fail? ==> r == Unauthorized() || r == ServerError()
    ensures r.Ok? ==> forall p :: p in r.value ==> p == Populate(t.deals, p.claim)
  {
    match caller
    case None => Unauthorized()
    case Some(user) =>
      match FindClaimsOfUser(t.claims, JStr(user.userId), svc)
      case None => ServerError()
      case Some(mine) => Ok(PopulateAll(t.deals, SortByKeyDesc(mine, CreatedAt)))
  }

  /**
   * A successful `GET` lists each of the caller's claims as often as the
   * collection holds it and no other claim, newest first.
   */
  lemma ListIsCallersClaimsNewestFirst(t: Tables, user: TokenPayload, svc: Services)
    requires ListOutcome(t, Some(user), svc).Ok?
    ensures var listed := ClaimsOf(ListOutcome(t, Some(user), svc).value);
            && SortedDesc(listed, CreatedAt)
            && forall c :: multiset(listed)[c] ==
                 if Some(c.userId) == svc.castId(JStr(user.userId)) then multiset(t.claims)[c] else 0
  {
    var mine := FindClaimsOfUser(t.claims, JStr(user.userId), svc).value;
    var sorted := SortByKeyDesc(mine, CreatedAt);
    assert ClaimsOf(PopulateAll(t.deals, sorted)) == sorted;
  }

  /** `POST`: presence of `dealId`, the duplicate check, then `Claim.create` with status 'pending'. */
  function PostOutcome(t: Tables, caller: Option<TokenPayload>, body: Option<Json>, svc: Services,
                       newId: ObjectId, now: Timestamp): (r: (Outcome<Submission>, Tables))
    ensures r.1.users == t.users && r.1.deals == t.deals
    ensures r.0.Fail? ==> r.1 == t
    ensures r.0.Ok? ==> r.1.claims == t.claims + [r.0.value.claim.claim]
    ensures r.0 == Unauthorized() <==> caller.None?
    ensures (caller.Some? && body.Some? && Destructure(body.value, "dealId").Value? &&
             !Truthy(Destructure(body.value, "dealId").v)) ==> r.0 == Fail(BadRequest400, DealIdRequired)
    ensures r.0.Ok? ==> r.0.value.claim.claim.status == Pending && r.0.value.message == Submitted &&
                        r.0.value.claim == Populate(t.deals, r.0.value.claim.claim)
    ensures r.0.Fail? ==> r.0 in {Unauthorized(), ServerError(), Fail(BadRequest400, DealIdRequired),
                                  Fail(BadRequest400, ClaimExists)}
    ensures caller.Some? && (body.None? || body == Some(JNull)) ==> r.0 == ServerError()
    ensures (caller.Some? && body.Some? && Destructure(body.value, "dealId").Value? &&
             Truthy(Destructure(body.value, "dealId").v) &&
             (svc.castId(JStr(caller.value.userId)).None? ||
              svc.castId(Destructure(body.value, "dealId").v.value).None?)) ==> r.0 == ServerError()
    ensures (caller.Some? && body.Some? && Destructure(body.value, "dealId").Value? &&
             Truthy(Destructure(body.value, "dealId").v) &&
             (exists c :: c in t.claims && c.id == newId) &&
             (forall c :: c in t.claims ==>
                Some(c.userId) != svc.castId(JStr(caller.value.userId)) ||
                Some(c.dealId) != svc.castId(Destructure(body.value, "dealId").v.value))) ==>
              r.0 == ServerError()
    ensures ClaimsValid(t.claims) ==> ClaimsValid(r.1.claims)
  {
    match caller
    case None => (Unauthorized(), t)
    case Some(user) =>
      if body.None? then (ServerError(), t)
      else
        match Destructure(body.value, "dealId")
        case TypeError => (ServerError(), t)
        case Value(dealId) =>
          if !Truthy(dealId) then (Fail(BadRequest400, DealIdRequired), t)
          else
            var rawUser := JStr(user.userId);
            match FindClaim(t.claims, rawUser, dealId.value, svc)
            case CastFailed => (ServerError(), t)
            case Found(_) => (Fail(BadRequest400, ClaimExists), t)
            case Missing =>
              match ClaimCreate(t.claims, rawUser, dealId.value, Some("pending"), newId, now, svc)
              case Refused(_) => (ServerError(), t)
              case Created(c) =>
                (Ok(Submission(Populate(t.deals, c), Submitted)), t.(claims := t.claims + [c]))
  }

  /** The handler as it runs: early returns, and the one write through `Claim.create`. */
  method Post(db: Database, caller: Option<TokenPayload>, body: Option<Json>, svc: Services,
              newId: ObjectId, now: Timestamp) returns (r: Outcome<Submission>)
    requires db.Valid()
    modifies db`claims
    ensures db.Valid()
    ensures (r, db.Snapshot()) == PostOutcome(old(db.Snapshot()), caller, body, svc, newId, now)
  {
    if caller.None? {
      return Unauthorized();
    }
    if body.None? {
      return ServerError();
    }
    var field := Destructure(body.value, "dealId");
    if field.TypeError? {
      return ServerError();
    }
    var dealId := field.v;
    if !Truthy(dealId) {
      return Fail(BadRequest400, DealIdRequired);
    }
    var rawUser := JStr(caller.value.userId);
    var existing := FindClaim(db.claims, rawUser, dealId.value, svc);
    if existing.CastFailed? {
      return ServerError();
    }
    if existing.Found? {
      return Fail(BadRequest400, ClaimExists);
    }
    var created := db.CreateClaim(rawUser, dealId.value, Some("pending"), newId, now, svc);
    if created.Refused? {
      return ServerError();
    }
    r := Ok(Submission(Populate(db.deals, created.doc), Submitted));
  }

  /**
   * For a caller and a deal id that cast, `POST` succeeds exactly when the
   * caller has no claim on that id yet, and otherwise answers 400; no deal
   * has to exist and no lock is consulted.
   */
  lemma PostAdmitsExactlyUnclaimed(t: Tables, user: TokenPayload, body: Json, svc: Services,
                                   newId: ObjectId, now: Timestamp, raw: Json, uid: ObjectId, did: ObjectId)
    requires Destructure(body, "dealId") == Value(Some(raw)) && Truthy(Some(raw))
    requires svc.castId(JStr(user.userId)) == Some(uid) && svc.castId(raw) == Some(did)
    requires forall c :: c in t.claims ==> c.id != newId
    ensures var r := PostOutcome(t, Some(user), Some(body), svc, newId, now);
            && (r.0.Ok? <==> !exists c :: c in t.claims && c.userId == uid && c.dealId == did)
            && (r.0.Ok? ==> r.0.value.claim.claim == Claim(newId, uid, did, Pending, now, now))
            && (r.0.Fail? ==> r.0 == Fail(BadRequest400, ClaimExists))
  {
  }

  /**
   * Whatever the strict path admits, this path admits too, and it stores
   * the very same claim document.
   */
  lemma StrictSuccessImpliesLooseSuccess(t: Tables, cookie: Option<string>, body: Option<Json>,
                                         svc: Services, newId: ObjectId, now: Timestamp)
    requires ClaimsRoute.PostOutcome(t, cookie, body, svc, newId, now).0.Ok?
    ensures var strict := ClaimsRoute.PostOutcome(t, cookie, body, svc, newId, now);
            var loose := PostOutcome(t, ClaimsRoute.Authenticate(cookie, svc), body, svc, newId, now);
            loose.0.Ok? && loose.0.value.claim.claim == strict.0.value && loose.1 == strict.1
  {
  }

  /**
   * What `POST` writes never depends on the users or on the deals: swapping
   * either collection for any other leaves the answer's status and the
   * stored claims unchanged.
   */
  lemma PostIgnoresUsersAndDeals(t: Tables, users: seq<User>, deals: seq<Deal>, caller: Option<TokenPayload>,
                                 body: Option<Json>, svc: Services, newId: ObjectId, now: Timestamp)
    ensures var r := PostOutcome(t, caller, body, svc, newId, now);
            var r' := PostOutcome(Tables(users, deals, t.claims), caller, body, svc, newId, now);
            r.0.Ok? == r'.0.Ok? && r.1.claims == r'.1.claims &&
            (r.0.Fail? ==> r.0 == r'.0) && (r.0.Ok? ==> r.0.value.claim.claim == r'.0.value.claim.claim)
  {
  }

  /** A store holding one unverified user and one locked deal. */
  function BypassTables(): Tables {
    Tables([User("u1", "Ann", "ann@example.com", "h", false, 0, 0)],
           [Deal("d1", "Deal", "A locked deal", "Partner", "tools", true, "Verified startups", 0, 0)],
           [])
  }

  /** Collaborators under which every token is Ann's and every string is an ObjectId. */
  function BypassServices(): Services {
    Services(
      (token: string) => Some(TokenPayload("u1", "ann@example.com")),
      (p: TokenPayload) => "token",
      (password: string, salt: string) => password,
      (password: string, hash: string) => password == hash,
      (s: string) => true,
      (j: Json) => if j.JStr? then Some(j.s) else None,
      (pattern: string) => true,
      (pattern: string, text: string) => pattern == text)
  }

  /**
   * The same request, `{ "dealId": "d1" }` from an unverified user, is
   * refused with 403 by the strict path and stored by this one.
   */
  lemma LooseBypassesLockGate()
    ensures ClaimsRoute.PostOutcome(BypassTables(), Some("token"), Some(JObj(map["dealId" := JStr("d1")])),
                                    BypassServices(), "c1", 0).0 ==
            Fail(Forbidden403, ClaimsRoute.VerificationRequired)
    ensures PostOutcome(BypassTables(), Some(TokenPayload("u1", "ann@example.com")),
                        Some(JObj(map["dealId" := JStr("d1")])), BypassServices(), "c1", 0).0.Ok?
  {
  }

  /**
   * `POST` with the strict path's deal lookup and lock gate put back in
   * after the presence check: a claim is stored only for a deal that exists
   * and, when that deal is locked, only for a verified caller.
   */
  function GatedPostOutcome(t: Tables, caller: Option<TokenPayload>, body: Option<Json>, svc: Services,
                            newId: ObjectId, now: Timestamp): (r: (Outcome<Submission>, Tables))
    ensures r.1.users == t.users && r.1.deals == t.deals
    ensures r.0.Fail? ==> r.1 == t
    ensures r.0.Ok? ==> r.1.claims == t.claims + [r.0.value.claim.claim]
    ensures r.0.Ok? ==> exists d :: d in t.deals && d.id == r.0.value.claim.claim.dealId &&
                          (d.isLocked ==> exists u :: u in t.users && u.id == r.0.value.claim.claim.userId &&
                                                     u.isVerified)
    ensures ClaimsValid(t.claims) ==> ClaimsValid(r.1.claims)
  {
    match caller
    case None => (Unauthorized(), t)
    case Some(user) =>
      if body.None? then (ServerError(), t)
      else
        match Destructure(body.value, "dealId")
        case TypeError => (ServerError(), t)
        case Value(dealId) =>
          if !Truthy(dealId) then (Fail(BadRequest400, DealIdRequired), t)
          else
            match FindDealById(t.deals, dealId.value, svc)
            case CastFailed => (ServerError(), t)
            case Missing => (Fail(NotFound404, ClaimsRoute.DealNotFound), t)
            case Found(deal) =>
              match ClaimsRoute.LockGate(t.users, deal, user.userId, svc)
              case Throw => (ServerError(), t)
              case Deny => (Fail(Forbidden403, ClaimsRoute.VerificationRequired), t)
              case Pass => PostOutcome(t, caller, body, svc, newId, now)
  }

  /** On a deal that exists and is unlocked, the gated `POST` answers exactly as the written one. */
  lemma GatedMatchesPostOnOpenDeals(t: Tables, user: TokenPayload, body: Json, svc: Services,
                                    newId: ObjectId, now: Timestamp, deal: Deal)
    requires deal in t.deals && !deal.isLocked && DealsValid(t.deals)
    requires Destructure(body, "dealId").Value? && Destructure(body, "dealId").v.Some? &&
             svc.castId(Destructure(body, "dealId").v.value) == Some(deal.id)
    ensures GatedPostOutcome(t, Some(user), Some(body), svc, newId, now) ==
            PostOutcome(t, Some(user), Some(body), svc, newId, now)
  {
  }
}
