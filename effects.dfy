/** Vocabulary shared by both revisions of the logout handler: the values the
    collaborators report, and the effects the handler issues on them. */
module Effects {

  datatype Option<+T> = None | Some(value: T)

  /** A JavaScript `Error` object, observed only through its message. */
  datatype JsError = JsError(message: string)

  /** What `req.session.destroy` reports to its callback: a falsy error
      (success) or an error object. */
  datatype DestroyOutcome = Destroyed | DestroyFailed(error: JsError)

  /** The identity that authorization leaves on the request as `req.auth.token`;
      `jti` is the unique claim by which the token is revoked. */
  datatype AuthToken = AuthToken(jti: string)

  /** One call the handler makes on a collaborator. */
  datatype Effect =
    | Destroy              // req.session.destroy(callback)
    | Revoke(jti: string)  // AuthToken.revoke(jti)
    | End                  // res.end()
    | Next(error: JsError) // next(error)

  /** An effect that settles the request: the response is ended or the error
      is handed on. */
  predicate IsTerminal(e: Effect) {
    e.End? || e.Next?
  }

  predicate IsRevoke(e: Effect) {
    e.Revoke?
  }

  predicate IsDestroy(e: Effect) {
    e.Destroy?
  }

  /** Number of effects in `t` that satisfy `p`. */
  function Count(t: seq<Effect>, p: Effect -> bool): (n: nat)
    ensures n <= |t|
    ensures n == 0 <==> forall i :: 0 <= i < |t| ==> !p(t[i])
  {
    if t == [] then 0 else Count(t[..|t| - 1], p) + (if p(t[|t| - 1]) then 1 else 0)
  }

  /** Counting distributes over the concatenation of two effect logs. */
  lemma {:induction false} CountAppend(s: seq<Effect>, t: seq<Effect>, p: Effect -> bool)
    ensures Count(s + t, p) == Count(s, p) + Count(t, p)
  {
    if t == [] {
      assert s + t == s;
    } else {
      CountAppend(s, t[..|t| - 1], p);
      assert (s + t)[..|s + t| - 1] == s + t[..|t| - 1];
    }
  }
}
