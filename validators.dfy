/**
 * The zod schemas a request body must satisfy: `registerSchema`,
 * `loginSchema` and `claimSchema`. A body that fails makes `parse` throw.
 * zod strips keys a schema does not name, so only the named fields are kept.
 */
module Validators {
  import opened Wrappers
  import opened Json

  datatype RegisterInput = RegisterInput(name: string, email: string, password: string)
  datatype LoginInput = LoginInput(email: string, password: string)
  datatype ClaimInput = ClaimInput(dealId: string)

  /** `z.string().min(minLength)` applied to `body[key]` of an object body. */
  function StringField(body: Json, key: string, minLength: nat): (r: Option<string>)
    ensures r.Some? <==> body.JObj? && key in body.fields && body.fields[key].JStr? &&
                         |body.fields[key].s| >= minLength
    ensures r.Some? ==> body.fields[key] == JStr(r.value)
  {
    if body.JObj? && key in body.fields && body.fields[key].JStr? && |body.fields[key].s| >= minLength then
      Some(body.fields[key].s)
    else
      None
  }

  /** `registerSchema`: name of length at least 1, an e-mail, password of length at least 6. */
  function ParseRegister(body: Json, isEmail: string -> bool): (r: Option<RegisterInput>)
    ensures r.Some? ==> |r.value.name| >= 1 && |r.value.password| >= 6 && isEmail(r.value.email)
    ensures r.Some? <==> StringField(body, "name", 1).Some? && StringField(body, "password", 6).Some? &&
                         StringField(body, "email", 0).Some? && isEmail(StringField(body, "email", 0).value)
    ensures r.Some? ==> body.fields["name"] == JStr(r.value.name) &&
                        body.fields["email"] == JStr(r.value.email) &&
                        body.fields["password"] == JStr(r.value.password)
  {
    match (StringField(body, "name", 1), StringField(body, "email", 0), StringField(body, "password", 6))
    case (Some(name), Some(email), Some(password)) =>
      if isEmail(email) then Some(RegisterInput(name, email, password)) else None
    case _ => None
  }

  /** `loginSchema`: an e-mail and a password of length at least 1. */
  function ParseLogin(body: Json, isEmail: string -> bool): (r: Option<LoginInput>)
    ensures r.Some? ==> |r.value.password| >= 1 && isEmail(r.value.email)
    ensures r.Some? <==> StringField(body, "password", 1).Some? &&
                         StringField(body, "email", 0).Some? && isEmail(StringField(body, "email", 0).value)
    ensures r.Some? ==> body.fields["email"] == JStr(r.value.email) &&
                        body.fields["password"] == JStr(r.value.password)
  {
    match (StringField(body, "email", 0), StringField(body, "password", 1))
    case (Some(email), Some(password)) =>
      if isEmail(email) then Some(LoginInput(email, password)) else None
    case _ => None
  }

  /** `claimSchema`: a deal id of length at least 1. */
  function ParseClaim(body: Json): (r: Option<ClaimInput>)
    ensures r.Some? <==> StringField(body, "dealId", 1).Some?
    ensures r.Some? ==> |r.value.dealId| >= 1 && body.fields["dealId"] == JStr(r.value.dealId)
  {
    match StringField(body, "dealId", 1)
    case Some(dealId) => Some(ClaimInput(dealId))
    case None => None
  }

  /** Any body that registers also logs in, with the same e-mail and password. */
  lemma RegisterBodyPassesLogin(body: Json, isEmail: string -> bool)
    requires ParseRegister(body, isEmail).Some?
    ensures ParseLogin(body, isEmail) ==
            Some(LoginInput(ParseRegister(body, isEmail).value.email, ParseRegister(body, isEmail).value.password))
  {
  }
}
