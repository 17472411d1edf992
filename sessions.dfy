/**
 * The response shape shared by registration and login: the public part of
 * the user and an HTTP-only `token` cookie that holds a signed
 * `{ userId, email }` and lives for seven days. The profile endpoint
 * answers with the same public part.
 */
module Sessions {
  import opened Wrappers
  import opened External
  import opened Models

  /** `{ id, email, name }`: a user without the password hash, the flag or the timestamps. */
  datatype Profile = Profile(id: ObjectId, email: string, name: string)

  datatype Cookie = Cookie(value: string, maxAge: nat)

  datatype Session = Session(user: Profile, cookie: Cookie)

  /** The cookie's lifetime: 60 * 60 * 24 * 7 seconds. */
  const SessionMaxAge: nat := 60 * 60 * 24 * 7

  function ProfileOf(u: User): (p: Profile)
    ensures p.id == u.id && p.email == u.email && p.name == u.name
  {
    Profile(u.id, u.email, u.name)
  }

  /** The body and cookie sent back once `u` has been authenticated or created. */
  function IssueSession(u: User, svc: Services): (s: Session)
    ensures s.user == ProfileOf(u)
    ensures s.cookie.maxAge == 604800
    ensures TokensSound(svc) ==> s.cookie.value != "" &&
                                 svc.verifyToken(s.cookie.value) == Some(TokenPayload(u.id, u.email))
  {
    Session(ProfileOf(u), Cookie(svc.generateToken(TokenPayload(u.id, u.email)), SessionMaxAge))
  }
}
