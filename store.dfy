/**
 * The document store as the handlers see it: the queries they issue
 * (`findById`, `findOne`, `find`) and `Model.create`, which validates a new
 * document against its schema, fills in the defaults and timestamps, and
 * refuses a document that would break a unique index.
 */
module Store {
  import opened Wrappers
  import opened Json
  import opened Collections
  import opened External
  import opened Models

  /** Why a store call throws: a value that is not an ObjectId, a schema violation, a unique-index clash. */
  datatype StoreError = CastError | ValidationError | DuplicateKey

  /** The result of a lookup: the document, no document, or a thrown cast error. */
  datatype Query<D> = Found(doc: D) | Missing | CastFailed

  /** The result of `Model.create`: the stored document, or the error it throws. */
  datatype Write<D> = Created(doc: D) | Refused(error: StoreError)

  /** `User.findById(raw)`. */
  function FindUserById(users: seq<User>, raw: Json, svc: Services): (r: Query<User>)
    ensures r.CastFailed? <==> svc.castId(raw).None?
    ensures r.Found? ==> r.doc in users && svc.castId(raw) == Some(r.doc.id)
    ensures r.Missing? <==> svc.castId(raw).Some? && forall u :: u in users ==> u.id != svc.castId(raw).value
  {
    match svc.castId(raw)
    case None => CastFailed
    case Some(id) =>
      match FindFirst(users, (u: User) => u.id == id)
      case Some(u) => Found(u)
      case None => Missing
  }

  /** `User.findOne({ email })`. */
  function FindUserByEmail(users: seq<User>, email: string): (r: Option<User>)
    ensures r.Some? <==> exists u :: u in users && u.email == email
    ensures r.Some? ==> r.value in users && r.value.email == email
  {
    FindFirst(users, (u: User) => u.email == email)
  }

  /** `Deal.findById(raw)`. */
  function FindDealById(deals: seq<Deal>, raw: Json, svc: Services): (r: Query<Deal>)
    ensures r.CastFailed? <==> svc.castId(raw).None?
    ensures r.Found? ==> r.doc in deals && svc.castId(raw) == Some(r.doc.id)
    ensures r.Missing? <==> svc.castId(raw).Some? && forall d :: d in deals ==> d.id != svc.castId(raw).value
  {
    match svc.castId(raw)
    case None => CastFailed
    case Some(id) =>
      match FindFirst(deals, (d: Deal) => d.id == id)
      case Some(d) => Found(d)
      case None => Missing
  }

  /** `Claim.findOne({ userId: rawUser, dealId: rawDeal })`. */
  function FindClaim(claims: seq<Claim>, rawUser: Json, rawDeal: Json, svc: Services): (r: Query<Claim>)
    ensures r.CastFailed? <==> svc.castId(rawUser).None? || svc.castId(rawDeal).None?
    ensures r.Found? ==> r.doc in claims && svc.castId(rawUser) == Some(r.doc.userId) &&
                         svc.castId(rawDeal) == Some(r.doc.dealId)
    ensures r.Missing? <==> svc.castId(rawUser).Some? && svc.castId(rawDeal).Some? &&
                            forall c :: c in claims ==> !(c.userId == svc.castId(rawUser).value &&
                                                          c.dealId == svc.castId(rawDeal).value)
  {
    match (svc.castId(rawUser), svc.castId(rawDeal))
    case (Some(userId), Some(dealId)) =>
      (match FindFirst(claims, (c: Claim) => c.userId == userId && c.dealId == dealId)
       case Some(c) => Found(c)
       case None => Missing)
    case _ => CastFailed
  }

  /** `Claim.find({ userId: rawUser })`, or nothing when the id does not cast. */
  function FindClaimsOfUser(claims: seq<Claim>, rawUser: Json, svc: Services): (r: Option<seq<Claim>>)
    ensures r.Some? <==> svc.castId(rawUser).Some?
    ensures r.Some? ==> forall c :: multiset(r.value)[c] ==
                          if Some(c.userId) == svc.castId(rawUser) then multiset(claims)[c] else 0
  {
    match svc.castId(rawUser)
    case None => None
    case Some(userId) => Some(Filter(claims, (c: Claim) => c.userId == userId))
  }

  /** `User.create`: required fields, the `isVerified` default, unique `_id` and `email`. */
  function UserCreate(users: seq<User>, name: string, email: string, passwordHash: string,
                      isVerified: Option<bool>, id: ObjectId, now: Timestamp): (r: Write<User>)
    ensures r.Created? <==> UserFieldsPresent(name, email, passwordHash) &&
                             forall u :: u in users ==> u.id != id && u.email != email
    ensures !UserFieldsPresent(name, email, passwordHash) ==> r == Refused(ValidationError)
    ensures r.Created? ==> r.doc.id == id && r.doc.name == name && r.doc.email == email &&
                            r.doc.passwordHash == passwordHash &&
                            r.doc.isVerified == (isVerified == Some(true)) &&
                            r.doc.createdAt == now && r.doc.updatedAt == now
    ensures r.Created? && UsersValid(users) ==> UsersValid(users + [r.doc])
  {
    if !UserFieldsPresent(name, email, passwordHash) then Refused(ValidationError)
    else if exists u :: u in users && (u.id == id || u.email == email) then Refused(DuplicateKey)
    else
      var verified := if isVerified.Some? then isVerified.value else false;
      Created(User(id, name, email, passwordHash, verified, now, now))
  }

  /** `Deal.create`: required fields, the `isLocked` default, unique `_id`. */
  function DealCreate(deals: seq<Deal>, title: string, description: string, partnerName: string,
                      category: string, isLocked: Option<bool>, eligibilityText: string,
                      id: ObjectId, now: Timestamp): (r: Write<Deal>)
    ensures r.Created? <==> DealFieldsPresent(title, description, partnerName, category, eligibilityText) &&
                             forall d :: d in deals ==> d.id != id
    ensures r.Created? ==> r.doc.id == id && r.doc.title == title && r.doc.description == description &&
                            r.doc.partnerName == partnerName && r.doc.category == category &&
                            r.doc.eligibilityText == eligibilityText &&
                            r.doc.isLocked == (isLocked == Some(true)) &&
                            r.doc.createdAt == now && r.doc.updatedAt == now
    ensures r.Created? && DealsValid(deals) ==> DealsValid(deals + [r.doc])
  {
    if !DealFieldsPresent(title, description, partnerName, category, eligibilityText) then
      Refused(ValidationError)
    else if exists d :: d in deals && d.id == id then Refused(DuplicateKey)
    else
      var locked := if isLocked.Some? then isLocked.value else false;
      Created(Deal(id, title, description, partnerName, category, locked, eligibilityText, now, now))
  }

  /**
   * `Claim.create`: both references cast to ObjectIds, `status` one of the
   * enum values or the default, unique `_id` and unique (userId, dealId).
   */
  function ClaimCreate(claims: seq<Claim>, rawUser: Json, rawDeal: Json, status: Option<string>,
                       id: ObjectId, now: Timestamp, svc: Services): (r: Write<Claim>)
    ensures r.Created? <==> svc.castId(rawUser).Some? && svc.castId(rawDeal).Some? &&
                             (status.Some? ==> ParseStatus(status.value).Some?) &&
                             (forall c :: c in claims ==>
                                c.id != id &&
                                !(c.userId == svc.castId(rawUser).value && c.dealId == svc.castId(rawDeal).value))
    ensures r.Created? ==> Some(r.doc.userId) == svc.castId(rawUser) &&
                            Some(r.doc.dealId) == svc.castId(rawDeal) &&
                            r.doc.id == id && r.doc.createdAt == now && r.doc.updatedAt == now &&
                            r.doc.status == (if status.Some? then ParseStatus(status.value).value else DefaultStatus)
    ensures r.Created? && ClaimsValid(claims) ==> ClaimsValid(claims + [r.doc])
  {
    match (svc.castId(rawUser), svc.castId(rawDeal))
    case (Some(userId), Some(dealId)) =>
      var st := if status.Some? then ParseStatus(status.value) else Some(DefaultStatus);
      if st.None? then Refused(ValidationError)
      else if exists c :: c in claims && (c.id == id || (c.userId == userId && c.dealId == dealId)) then
        Refused(DuplicateKey)
      else Created(Claim(id, userId, dealId, st.value, now, now))
    case _ => Refused(ValidationError)
  }

  /** The three collections, updated in place by `create`. */
  class Database {
    var users: seq<User>
    var deals: seq<Deal>
    var claims: seq<Claim>

    function Snapshot(): Tables
      reads this
    {
      Tables(users, deals, claims)
    }

    ghost predicate Valid()
      reads this
    {
      TablesValid(Snapshot())
    }

    constructor ()
      ensures Valid() && Snapshot() == Tables([], [], [])
    {
      users, deals, claims := [], [], [];
    }

    method CreateUser(name: string, email: string, passwordHash: string, isVerified: Option<bool>,
                      id: ObjectId, now: Timestamp) returns (r: Write<User>)
      requires Valid()
      modifies this`users
      ensures Valid()
      ensures r == UserCreate(old(users), name, email, passwordHash, isVerified, id, now)
      ensures users == if r.Created? then old(users) + [r.doc] else old(users)
    {
      r := UserCreate(users, name, email, passwordHash, isVerified, id, now);
      if r.Created? {
        users := users + [r.doc];
      }
    }

    method CreateDeal(title: string, description: string, partnerName: string, category: string,
                      isLocked: Option<bool>, eligibilityText: string,
                      id: ObjectId, now: Timestamp) returns (r: Write<Deal>)
      requires Valid()
      modifies this`deals
      ensures Valid()
      ensures r == DealCreate(old(deals), title, description, partnerName, category, isLocked,
                              eligibilityText, id, now)
      ensures deals == if r.Created? then old(deals) + [r.doc] else old(deals)
    {
      r := DealCreate(deals, title, description, partnerName, category, isLocked, eligibilityText, id, now);
      if r.Created? {
        deals := deals + [r.doc];
      }
    }

    method CreateClaim(rawUser: Json, rawDeal: Json, status: Option<string>,
                       id: ObjectId, now: Timestamp, svc: Services) returns (r: Write<Claim>)
      requires Valid()
      modifies this`claims
      ensures Valid()
      ensures r == ClaimCreate(old(claims), rawUser, rawDeal, status, id, now, svc)
      ensures claims == if r.Created? then old(claims) + [r.doc] else old(claims)
    {
      r := ClaimCreate(claims, rawUser, rawDeal, status, id, now, svc);
      if r.Created? {
        claims := claims + [r.doc];
      }
    }
  }
}
