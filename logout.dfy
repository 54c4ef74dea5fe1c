/** The logout handler `SessionsModule.clearSession` of lib/SessionsModule.js:
    it destroys the request's session, revokes the request's auth token once the
    session is gone, and then ends the response; a failed destroy is handed to
    `next` instead. Collaborator outcomes are inputs, and the calls made on the
    collaborators are recorded, in order, in an effect log. */
module Logout {
  import opened Effects

  /** What `clearSession` reads from the request: whether `req.session` is set,
      and `req.auth.token`. */
  datatype LogoutRequest = LogoutRequest(hasSession: bool, token: Option<AuthToken>)

  /** The handler acts only when the request has a session and an auth token. */
  predicate Acts(req: LogoutRequest) {
    req.hasSession && req.token.Some?
  }

  /** Every revoke sits between a destroy just before it and an end just after it. */
  predicate RevokesGuarded(t: seq<Effect>) {
    forall i :: 0 <= i < |t| && t[i].Revoke? ==>
      0 < i && t[i - 1] == Destroy && i + 1 < |t| && t[i + 1] == End
  }

  /** The effects one call of `clearSession` issues, in order. */
  function LogoutTrace(req: LogoutRequest, destroy: DestroyOutcome): (t: seq<Effect>)
    // exactly one terminal effect, and it comes last
    ensures |t| > 0 && IsTerminal(t[|t| - 1])
    ensures forall i :: 0 <= i < |t| - 1 ==> !IsTerminal(t[i])
    // destroy is called only when the handler acts, and then it is called first
    ensures Destroy in t <==> Acts(req)
    ensures Acts(req) ==> t[0] == Destroy
    ensures !Acts(req) ==> t == [End]
    // revoke only after a successful destroy, with the request's own jti
    ensures (exists j :: Revoke(j) in t) <==> Acts(req) && destroy.Destroyed?
    ensures forall j :: Revoke(j) in t ==> req.token.Some? && j == req.token.value.jti
    ensures RevokesGuarded(t)
    // a failed destroy hands on that very error and does not end the response
    ensures forall e :: Next(e) in t ==> destroy == DestroyFailed(e)
    ensures End in t <==> !Acts(req) || destroy.Destroyed?
    ensures Count(t, IsRevoke) <= 1 && Count(t, IsDestroy) <= 1
  {
    if !Acts(req) then
      [End]
    else
      match destroy
      case DestroyFailed(e) => [Destroy, Next(e)]
      case Destroyed => [Destroy, Revoke(req.token.value.jti), End]
  }

  /** The collaborators of one request (`req.session`, `AuthToken`, `res`,
      `next`), seen only through the calls made on them. */
  class Collaborators {
    var log: seq<Effect>

    constructor ()
      ensures log == []
    {
      log := [];
    }

    /** `req.session.destroy(callback)`: the store's verdict is the callback's argument. */
    method DestroySession(outcome: DestroyOutcome) returns (error: Option<JsError>)
      modifies this
      ensures log == old(log) + [Destroy]
      ensures error.Some? <==> outcome.DestroyFailed?
      ensures error.Some? ==> error.value == outcome.error
    {
      log := log + [Destroy];
      error := if outcome.DestroyFailed? then Some(outcome.error) else None;
    }

    /** `await AuthToken.revoke(jti)`, assumed to complete. */
    method RevokeToken(jti: string)
      modifies this
      ensures log == old(log) + [Revoke(jti)]
    {
      log := log + [Revoke(jti)];
    }

    /** `res.end()` */
    method EndResponse()
      modifies this
      ensures log == old(log) + [End]
    {
      log := log + [End];
    }

    /** `next(error)` */
    method CallNext(error: JsError)
      modifies this
      ensures log == old(log) + [Next(error)]
    {
      log := log + [Next(error)];
    }
  }

  /** `clearSession(req, res, next)`: the calls it makes are appended to the log. */
  method ClearSession(req: LogoutRequest, destroy: DestroyOutcome, c: Collaborators)
    modifies c
    ensures c.log == old(c.log) + LogoutTrace(req, destroy)
  {
    if !req.hasSession || req.token.None? {
      c.EndResponse();
      return;
    }
    var error := c.DestroySession(destroy);
    if error.Some? {
      c.CallNext(error.value);
      return;
    }
    c.RevokeToken(req.token.value.jti);
    c.EndResponse();
  }

  /** Number of requests whose logout destroys the session successfully. */
  function SuccessfulLogouts(reqs: seq<(LogoutRequest, DestroyOutcome)>): (n: nat)
    ensures n <= |reqs|
  {
    if reqs == [] then 0
    else
      var (req, destroy) := reqs[|reqs| - 1];
      SuccessfulLogouts(reqs[..|reqs| - 1]) + (if Acts(req) && destroy.Destroyed? then 1 else 0)
  }

  /** The effect log of a run of logout requests handled one after another. */
  function ServeAll(reqs: seq<(LogoutRequest, DestroyOutcome)>): seq<Effect>
  {
    if reqs == [] then []
    else
      var (req, destroy) := reqs[|reqs| - 1];
      ServeAll(reqs[..|reqs| - 1]) + LogoutTrace(req, destroy)
  }

  /** Over any run of logout requests: one terminal effect per request, one
      revoke per successful destroy, and every revoke between its destroy and
      its end. */
  lemma {:induction false} ServeAllGuarantees(reqs: seq<(LogoutRequest, DestroyOutcome)>)
    ensures Count(ServeAll(reqs), IsTerminal) == |reqs|
    ensures Count(ServeAll(reqs), IsRevoke) == SuccessfulLogouts(reqs)
    ensures Count(ServeAll(reqs), IsRevoke) <= Count(ServeAll(reqs), IsDestroy)
    ensures RevokesGuarded(ServeAll(reqs))
  {
    if reqs != [] {
      var (req, destroy) := reqs[|reqs| - 1];
      var prefix := ServeAll(reqs[..|reqs| - 1]);
      var last := LogoutTrace(req, destroy);
      ServeAllGuarantees(reqs[..|reqs| - 1]);
      CountAppend(prefix, last, IsTerminal);
      CountAppend(prefix, last, IsRevoke);
      CountAppend(prefix, last, IsDestroy);
      RevokesGuardedAppend(prefix, last);
    }
  }

  /** Appending one handler's log to a guarded log keeps it guarded. */
  lemma RevokesGuardedAppend(s: seq<Effect>, t: seq<Effect>)
    requires RevokesGuarded(s) && RevokesGuarded(t)
    ensures RevokesGuarded(s + t)
  {
    forall i | 0 <= i < |s + t| && (s + t)[i].Revoke?
      ensures 0 < i && (s + t)[i - 1] == Destroy && i + 1 < |s + t| && (s + t)[i + 1] == End
    {
      if i < |s| {
        assert s[i].Revoke?;
      } else {
        assert t[i - |s|].Revoke?;
      }
    }
  }
}
