/**
 * `POST /api/auth/login`: a read-only handler. An unknown e-mail and a
 * wrong password give the same 401 answer; a match gives the session.
 */
module LoginRoute {
  import opened Wrappers
  import opened Json
  import opened External
  import opened Models
  import opened Store
  import opened Http
  import opened Validators
  import opened Sessions

  const InvalidCredentials := "Invalid credentials"

  function LoginOutcome(users: seq<User>, body: Option<Json>, svc: Services): (r: Outcome<Session>)
    ensures r.Fail? ==> r == ServerError() || r == Fail(Unauthorized401, InvalidCredentials)
    ensures r.Ok? ==> body.Some? && ParseLogin(body.value, svc.isEmail).Some?
    ensures r.Ok? ==> exists u :: u in users && r.value == IssueSession(u, svc) &&
                                  u.email == ParseLogin(body.value, svc.isEmail).value.email &&
                                  svc.compare(ParseLogin(body.value, svc.isEmail).value.password, u.passwordHash)
  {
    if body.None? then ServerError()
    else
      match ParseLogin(body.value, svc.isEmail)
      case None => ServerError()
      case Some(input) =>
        match FindUserByEmail(users, input.email)
        case None => Fail(Unauthorized401, InvalidCredentials)
        case Some(user) =>
          if !svc.compare(input.password, user.passwordHash) then Fail(Unauthorized401, InvalidCredentials)
          else Ok(IssueSession(user, svc))
  }

  /**
   * With unique e-mails, a valid body logs in exactly when some user has
   * that e-mail and bcrypt accepts the password against that user's hash;
   * the session is that user's, and every other answer is the one 401.
   */
  lemma LoginSucceedsIffCredentialsMatch(users: seq<User>, body: Json, svc: Services,
                                         input: LoginInput)
    requires UsersValid(users)
    requires ParseLogin(body, svc.isEmail) == Some(input)
    ensures var r := LoginOutcome(users, Some(body), svc);
            && (r.Ok? <==> exists u :: u in users && u.email == input.email &&
                                       svc.compare(input.password, u.passwordHash))
            && (r.Ok? ==> forall u :: u in users && u.email == input.email ==> r.value == IssueSession(u, svc))
            && (r.Fail? ==> r == Fail(Unauthorized401, InvalidCredentials))
  {
  }
}
