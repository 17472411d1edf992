/** `GET /api/auth/me`: the caller's public profile, read-only. */
module MeRoute {
  import opened Wrappers
  import opened Json
  import opened External
  import opened Models
  import opened Store
  import opened Http
  import opened Sessions

  const UserNotFound := "User not found"

  /** `User.findById(userId).select('-passwordHash')`, projected to `{ id, email, name }`. */
  function ProfileOutcome(users: seq<User>, caller: Option<TokenPayload>, svc: Services): (r: Outcome<Profile>)
    ensures r == Unauthorized() <==> caller.None?
    ensures caller.Some? && svc.castId(JStr(caller.value.userId)).None? ==> r == ServerError()
    ensures r == Fail(NotFound404, UserNotFound) <==>
              caller.Some? && svc.castId(JStr(caller.value.userId)).Some? &&
              forall u :: u in users ==> Some(u.id) != svc.castId(JStr(caller.value.userId))
    ensures caller.Some? && (exists u :: u in users && Some(u.id) == svc.castId(JStr(caller.value.userId))) ==>
              r.Ok?
    ensures r.Ok? ==> exists u :: u in users && Some(u.id) == svc.castId(JStr(caller.value.userId)) &&
                                  r.value == ProfileOf(u)
  {
    match caller
    case None => Unauthorized()
    case Some(user) =>
      match FindUserById(users, JStr(user.userId), svc)
      case CastFailed => ServerError()
      case Missing => Fail(NotFound404, UserNotFound)
      case Found(u) => Ok(ProfileOf(u))
  }
}
