/**
 * Collaborators whose code is not part of this model: the session-token
 * service (`generateToken`, `verifyToken`), bcrypt, zod's e-mail check,
 * Mongoose's ObjectId cast and MongoDB's `$regex` matcher. Each becomes an
 * uninterpreted function handed to the handlers; the few facts that some
 * properties rely on are named predicates over them.
 */
module External {
  import opened Wrappers
  import opened Json

  /** What a session token carries: `{ userId, email }`. */
  datatype TokenPayload = TokenPayload(userId: string, email: string)

  datatype Services = Services(
    /** `verifyToken`: the payload of a well-signed, unexpired token, or nothing. */
    verifyToken: string -> Option<TokenPayload>,
    /** `generateToken`: signs a payload. */
    generateToken: TokenPayload -> string,
    /** `bcrypt.hash(password, 10)`, with the random salt made an argument. */
    hash: (string, string) -> string,
    /** `bcrypt.compare(password, passwordHash)`. */
    compare: (string, string) -> bool,
    /** zod's `.email()` format check. */
    isEmail: string -> bool,
    /** Mongoose's cast of a value to an ObjectId, in its canonical string form. */
    castId: Json -> Option<string>,
    /** Whether MongoDB accepts a string as a `$regex` pattern. */
    regexCompiles: string -> bool,
    /** `{ $regex: pattern, $options: 'i' }` applied to a field value. */
    regexMatches: (string, string) -> bool
  )

  /** bcrypt accepts the password a hash was made from, whatever the salt. */
  ghost predicate HashSound(svc: Services) {
    forall password, salt :: svc.compare(password, svc.hash(password, salt))
  }

  /** A token the service issues is non-empty and verifies to its own payload. */
  ghost predicate TokensSound(svc: Services) {
    forall p :: svc.generateToken(p) != "" && svc.verifyToken(svc.generateToken(p)) == Some(p)
  }

  /** `id` is an ObjectId in canonical form: casting its string gives it back. */
  predicate Canonical(svc: Services, id: string) {
    svc.castId(JStr(id)) == Some(id)
  }
}
