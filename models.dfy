/**
 * The three document schemas (users, deals, claims), the defaults the
 * schemas fill in, and the constraints the schemas and their indexes
 * impose on each collection.
 */
module Models {
  import opened Wrappers

  /** An ObjectId in its canonical string form. */
  type ObjectId = string

  /** A `createdAt`/`updatedAt` value, in milliseconds, set by the store's clock. */
  type Timestamp = int

  datatype Status = Pending | Approved | Rejected

  /** The schema default for a claim's `status`. */
  const DefaultStatus: Status := Pending

  /** The string the enum stores for each status. */
  function StatusName(st: Status): (name: string)
    ensures ParseStatus(name) == Some(st)
  {
    match st
    case Pending => "pending"
    case Approved => "approved"
    case Rejected => "rejected"
  }

  /** The enum validator: only the three listed strings are statuses. */
  function ParseStatus(name: string): (r: Option<Status>)
    ensures r.Some? <==> name == "pending" || name == "approved" || name == "rejected"
  {
    if name == "pending" then Some(Pending)
    else if name == "approved" then Some(Approved)
    else if name == "rejected" then Some(Rejected)
    else None
  }

  datatype User = User(
    id: ObjectId,
    name: string,
    email: string,
    passwordHash: string,
    isVerified: bool,
    createdAt: Timestamp,
    updatedAt: Timestamp)

  datatype Deal = Deal(
    id: ObjectId,
    title: string,
    description: string,
    partnerName: string,
    category: string,
    isLocked: bool,
    eligibilityText: string,
    createdAt: Timestamp,
    updatedAt: Timestamp)

  datatype Claim = Claim(
    id: ObjectId,
    userId: ObjectId,
    dealId: ObjectId,
    status: Status,
    createdAt: Timestamp,
    updatedAt: Timestamp)

  /** Mongoose's `required` check on a String path: present and not empty. */
  predicate Present(s: string) {
    s != ""
  }

  predicate UserFieldsPresent(name: string, email: string, passwordHash: string) {
    Present(name) && Present(email) && Present(passwordHash)
  }

  predicate DealFieldsPresent(title: string, description: string, partnerName: string,
                              category: string, eligibilityText: string) {
    Present(title) && Present(description) && Present(partnerName) &&
    Present(category) && Present(eligibilityText)
  }

  /** The users collection: unique `_id`, unique `email`, required fields present. */
  predicate UsersValid(users: seq<User>) {
    && (forall i, j :: 0 <= i < j < |users| ==> users[i].id != users[j].id)
    && (forall i, j :: 0 <= i < j < |users| ==> users[i].email != users[j].email)
    && (forall u :: u in users ==> UserFieldsPresent(u.name, u.email, u.passwordHash))
  }

  /** The deals collection: unique `_id`, required fields present. */
  predicate DealsValid(deals: seq<Deal>) {
    && (forall i, j :: 0 <= i < j < |deals| ==> deals[i].id != deals[j].id)
    && (forall d :: d in deals ==>
          DealFieldsPresent(d.title, d.description, d.partnerName, d.category, d.eligibilityText))
  }

  /** The claims collection: unique `_id` and at most one claim per (userId, dealId). */
  predicate ClaimsValid(claims: seq<Claim>) {
    && (forall i, j :: 0 <= i < j < |claims| ==> claims[i].id != claims[j].id)
    && (forall i, j :: 0 <= i < j < |claims| ==>
          claims[i].userId != claims[j].userId || claims[i].dealId != claims[j].dealId)
  }

  /** The three collections at one moment, each in natural (insertion) order. */
  datatype Tables = Tables(users: seq<User>, deals: seq<Deal>, claims: seq<Claim>)

  predicate TablesValid(t: Tables) {
    UsersValid(t.users) && DealsValid(t.deals) && ClaimsValid(t.claims)
  }

  /** Under the unique `_id` index, a user is determined by its id. */
  lemma UserById(users: seq<User>, a: User, b: User)
    requires UsersValid(users) && a in users && b in users && a.id == b.id
    ensures a == b
  {
    var i :| 0 <= i < |users| && users[i] == a;
    var j :| 0 <= j < |users| && users[j] == b;
    assert !(i < j) && !(j < i);
  }
}
