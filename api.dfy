// The API as a whole: the route handlers composed over one shared store.
module Api {
  import opened Wrappers
  import opened Json
  import opened External
  import opened Models
  import opened Http
  import ClaimsRoute
  import ClaimsUserRoute
  import RegisterRoute

  /** The id and clock a handler is given when it creates a document. */
  datatype Stamp = Stamp(id: ObjectId, at: Timestamp)

  /**
   * The same `POST /api/claims` request sent once per stamp, each attempt
   * seeing the store the previous one left behind.
   */
  function Attempts(t: Tables, cookie: Option<string>, body: Option<Json>, svc: Services,
                    stamps: seq<Stamp>): (r: (seq<Outcome<Claim>>, Tables))
    ensures |r.0| == |stamps|
    decreases |stamps|
  {
    if stamps == [] then ([], t)
    else
      var first := ClaimsRoute.PostOutcome(t, cookie, body, svc, stamps[0].id, stamps[0].at);
      var rest := Attempts(first.1, cookie, body, svc, stamps[1..]);
      ([first.0] + rest.0, rest.1)
  }

  /** How many outcomes are successes. */
  function Successes<T>(os: seq<Outcome<T>>): nat {
    if os == [] then 0 else (if os[0].Ok? then 1 else 0) + Successes(os[1..])
  }

  /** A 409 does not depend on the id or clock the attempt was given, and writes nothing. */
  lemma ConflictIgnoresStamp(t: Tables, cookie: Option<string>, body: Option<Json>, svc: Services,
                             s: Stamp, s': Stamp)
    requires ClaimsRoute.PostOutcome(t, cookie, body, svc, s.id, s.at).0 ==
             Fail(Conflict409, ClaimsRoute.AlreadyClaimed)
    ensures ClaimsRoute.PostOutcome(t, cookie, body, svc, s'.id, s'.at) ==
            (Fail(Conflict409, ClaimsRoute.AlreadyClaimed), t)
  {
  }

  /** Once a request answers 409, every replay of it answers 409 and the store stays as it is. */
  lemma {:induction false} ConflictPersists(t: Tables, cookie: Option<string>, body: Option<Json>,
                                            svc: Services, s: Stamp, stamps: seq<Stamp>)
    requires ClaimsRoute.PostOutcome(t, cookie, body, svc, s.id, s.at).0 ==
             Fail(Conflict409, ClaimsRoute.AlreadyClaimed)
    ensures var r := Attempts(t, cookie, body, svc, stamps);
            && r.1 == t
            && Successes(r.0) == 0
            && forall k :: 0 <= k < |r.0| ==> r.0[k] == Fail(Conflict409, ClaimsRoute.AlreadyClaimed)
    decreases |stamps|
  {
    if stamps != [] {
      ConflictIgnoresStamp(t, cookie, body, svc, s, stamps[0]);
      ConflictPersists(t, cookie, body, svc, s, stamps[1..]);
    }
  }

  /**
   * However often one claim request is replayed, with whatever ids and clocks,
   * it succeeds at most once, every attempt after the success answers 409,
   * and the store gains exactly one claim per success.
   */
  lemma {:induction false} AtMostOneSuccess(t: Tables, cookie: Option<string>, body: Option<Json>,
                                            svc: Services, stamps: seq<Stamp>)
    ensures var r := Attempts(t, cookie, body, svc, stamps);
            && Successes(r.0) <= 1
            && (forall i, j :: 0 <= i < j < |r.0| && r.0[i].Ok? ==>
                  r.0[j] == Fail(Conflict409, ClaimsRoute.AlreadyClaimed))
            && r.1.users == t.users && r.1.deals == t.deals
            && |r.1.claims| == |t.claims| + Successes(r.0)
            && t.claims <= r.1.claims
    decreases |stamps|
  {
    if stamps != [] {
      var first := ClaimsRoute.PostOutcome(t, cookie, body, svc, stamps[0].id, stamps[0].at);
      var r := Attempts(t, cookie, body, svc, stamps);
      var rest := Attempts(first.1, cookie, body, svc, stamps[1..]);
      assert r.0 == [first.0] + rest.0;
      assert r.0[1..] == rest.0;
      if first.0.Ok? {
        if stamps[1..] != [] {
          ClaimsRoute.RetryAfterSuccessConflicts(t, cookie, body, svc, stamps[0].id, stamps[0].at,
                                                 stamps[1].id, stamps[1].at);
          ConflictPersists(first.1, cookie, body, svc, stamps[1], stamps[1..]);
        }
      } else {
        AtMostOneSuccess(t, cookie, body, svc, stamps[1..]);
      }
    }
  }

  /** One request to the API. The read-only routes are listed for completeness. */
  datatype Request =
    | ClaimDeal(cookie: Option<string>, body: Option<Json>, stamp: Stamp)
    | SubmitClaim(caller: Option<TokenPayload>, body: Option<Json>, stamp: Stamp)
    | ListClaims(caller: Option<TokenPayload>)
    | RegisterUser(body: Option<Json>, salt: string, stamp: Stamp)
    | LogIn(body: Option<Json>)
    | ShowProfile(caller: Option<TokenPayload>)
    | ListDeals(category: Option<string>, search: Option<string>)

  /** The store after one request, whatever the request answered. */
  function Step(t: Tables, svc: Services, req: Request): (t': Tables)
    ensures TablesValid(t) ==> TablesValid(t')
    ensures t'.deals == t.deals && t.users <= t'.users && t.claims <= t'.claims
    ensures !(req.ClaimDeal? || req.SubmitClaim? || req.RegisterUser?) ==> t' == t
  {
    match req
    case ClaimDeal(cookie, body, s) =>
      ClaimsRoute.PostOutcome(t, cookie, body, svc, s.id, s.at).1
    case SubmitClaim(caller, body, s) =>
      ClaimsUserRoute.PostOutcome(t, caller, body, svc, s.id, s.at).1
    case RegisterUser(body, salt, s) =>
      var r := RegisterRoute.RegisterOutcome(t, body, svc, salt, s.id, s.at);
      r.1
    case _ => t
  }

  /** The store after a sequence of requests, served one after another. */
  function Run(t: Tables, svc: Services, reqs: seq<Request>): Tables
    decreases |reqs|
  {
    if reqs == [] then t else Run(Step(t, svc, reqs[0]), svc, reqs[1..])
  }

  /** The unique indexes and required fields hold after any sequence of requests. */
  lemma {:induction false} RunPreservesValid(t: Tables, svc: Services, reqs: seq<Request>)
    requires TablesValid(t)
    ensures TablesValid(Run(t, svc, reqs))
    decreases |reqs|
  {
    if reqs != [] {
      RunPreservesValid(Step(t, svc, reqs[0]), svc, reqs[1..]);
    }
  }

  /** No request deletes or edits a document: deals never change, users and claims only grow. */
  lemma {:induction false} RunOnlyAppends(t: Tables, svc: Services, reqs: seq<Request>)
    ensures var t' := Run(t, svc, reqs);
            t'.deals == t.deals && t.users <= t'.users && t.claims <= t'.claims
    decreases |reqs|
  {
    if reqs != [] {
      var t1 := Step(t, svc, reqs[0]);
      RunOnlyAppends(t1, svc, reqs[1..]);
    }
  }
}
