/**
 * `POST /api/auth/register`: refuses an e-mail that is already taken,
 * otherwise stores one new user holding the bcrypt hash of the password
 * (never the password) and starts a session for it.
 */
module RegisterRoute {
  import opened Wrappers
  import opened Json
  import opened Collections
  import opened External
  import opened Models
  import opened Store
  import opened Http
  import opened Validators
  import opened Sessions
  import LoginRoute
  import MeRoute

  const UserExists := "User already exists"

  function RegisterOutcome(t: Tables, body: Option<Json>, svc: Services, salt: string,
                           newId: ObjectId, now: Timestamp): (r: (Outcome<Session>, Tables))
    ensures r.1.deals == t.deals && r.1.claims == t.claims
    ensures r.0.Fail? ==> r.1 == t
    ensures r.0.Ok? ==> body.Some? && ParseRegister(body.value, svc.isEmail).Some?
    ensures body.None? || ParseRegister(body.value, svc.isEmail).None? ==> r.0 == ServerError()
    ensures r.0.Ok? ==>
              var input := ParseRegister(body.value, svc.isEmail).value;
              && |r.1.users| == |t.users| + 1 && r.1.users[..|t.users|] == t.users
              && var u := r.1.users[|t.users|];
              && u.id == newId && u.name == input.name && u.email == input.email
              && u.passwordHash == svc.hash(input.password, salt) && !u.isVerified
              && u.createdAt == now && u.updatedAt == now
              && r.0.value == IssueSession(u, svc)
    ensures (body.Some? && ParseRegister(body.value, svc.isEmail).Some? &&
             exists u :: u in t.users && u.email == ParseRegister(body.value, svc.isEmail).value.email) ==>
              r.0 == Fail(BadRequest400, UserExists)
    ensures UsersValid(t.users) ==> UsersValid(r.1.users)
  {
    if body.None? then (ServerError(), t)
    else
      match ParseRegister(body.value, svc.isEmail)
      case None => (ServerError(), t)
      case Some(input) =>
        if FindUserByEmail(t.users, input.email).Some? then (Fail(BadRequest400, UserExists), t)
        else
          var passwordHash := svc.hash(input.password, salt);
          match UserCreate(t.users, input.name, input.email, passwordHash, None, newId, now)
          case Refused(_) => (ServerError(), t)
          case Created(u) =>
            assert (t.users + [u])[..|t.users|] == t.users;
            (Ok(IssueSession(u, svc)), t.(users := t.users + [u]))
  }

  /**
   * A valid body whose e-mail and hash are non-empty, given a fresh id,
   * registers exactly when no user has that e-mail yet; the only refusal
   * is 400 "User already exists".
   */
  lemma RegisterSucceedsIffEmailFree(t: Tables, body: Json, svc: Services, salt: string,
                                     newId: ObjectId, now: Timestamp, input: RegisterInput)
    requires ParseRegister(body, svc.isEmail) == Some(input)
    requires input.email != "" && svc.hash(input.password, salt) != ""
    requires forall u :: u in t.users ==> u.id != newId
    ensures var r := RegisterOutcome(t, Some(body), svc, salt, newId, now);
            && (r.0.Ok? <==> !exists u :: u in t.users && u.email == input.email)
            && (r.0.Fail? ==> r.0 == Fail(BadRequest400, UserExists))
  {
  }

  /** The handler as it runs: early returns, and the one write through `User.create`. */
  method Register(db: Database, body: Option<Json>, svc: Services, salt: string,
                  newId: ObjectId, now: Timestamp) returns (r: Outcome<Session>)
    requires db.Valid()
    modifies db`users
    ensures db.Valid()
    ensures (r, db.Snapshot()) == RegisterOutcome(old(db.Snapshot()), body, svc, salt, newId, now)
  {
    if body.None? {
      return ServerError();
    }
    var input := ParseRegister(body.value, svc.isEmail);
    if input.None? {
      return ServerError();
    }
    var existing := FindUserByEmail(db.users, input.value.email);
    if existing.Some? {
      return Fail(BadRequest400, UserExists);
    }
    var passwordHash := svc.hash(input.value.password, salt);
    var created := db.CreateUser(input.value.name, input.value.email, passwordHash, None, newId, now);
    if created.Refused? {
      return ServerError();
    }
    r := Ok(IssueSession(created.doc, svc));
  }

  /**
   * Registration and login agree: once a body has registered, the same body
   * logs in and gets the very same session back, provided bcrypt accepts a
   * password against its own hash.
   */
  lemma RegisterThenLogin(t: Tables, body: Json, svc: Services, salt: string,
                          newId: ObjectId, now: Timestamp)
    requires HashSound(svc)
    requires RegisterOutcome(t, Some(body), svc, salt, newId, now).0.Ok?
    ensures var r := RegisterOutcome(t, Some(body), svc, salt, newId, now);
            LoginRoute.LoginOutcome(r.1.users, Some(body), svc) == r.0
  {
  }

  /**
   * The cookie a registration sets identifies the new user: under a sound
   * token service it verifies to the new user's id and e-mail, and the
   * profile endpoint then answers with the profile registration returned.
   */
  lemma RegisterThenProfile(t: Tables, body: Json, svc: Services, salt: string,
                            newId: ObjectId, now: Timestamp)
    requires TokensSound(svc) && Canonical(svc, newId)
    requires RegisterOutcome(t, Some(body), svc, salt, newId, now).0.Ok?
    ensures var r := RegisterOutcome(t, Some(body), svc, salt, newId, now);
            var caller := svc.verifyToken(r.0.value.cookie.value);
            caller.Some? && caller.value.userId == newId &&
            MeRoute.ProfileOutcome(r.1.users, caller, svc) == Ok(r.0.value.user)
  {
  }
}
