/** The later revision of the logout logic, as extracted into
    tests/SessionsModule.spec.js: an async `clearSession(req)` that returns early
    without a session, and otherwise destroys the session and settles its promise
    on the destroy callback. It does not revoke anything. */
module ExtractedLogout {
  import opened Effects

  /** How the promise returned by `clearSession` settles. */
  datatype Settled = Resolved | Rejected(reason: JsError)

  /** The message of the error the promise rejects with. */
  const DestroySessionFail: string := "DESTROY_SESSION_FAIL"

  /** `clearSession(req)`: `calls` lists the calls made on the collaborators,
      `r` how the returned promise settles. */
  method ClearSession(hasSession: bool, destroy: DestroyOutcome) returns (calls: seq<Effect>, r: Settled)
    // destroy is called, once, exactly when there is a session
    ensures calls == if hasSession then [Destroy] else []
    // resolves without a session or after a successful destroy
    ensures r.Resolved? <==> !hasSession || destroy.Destroyed?
    // every failure reads DESTROY_SESSION_FAIL, whatever the store reported
    ensures r.Rejected? ==> r.reason.message == DestroySessionFail
    ensures r.Rejected? ==> hasSession && destroy.DestroyFailed?
  {
    if !hasSession {
      return [], Resolved;
    }
    calls := [Destroy];
    match destroy {
      case DestroyFailed(_) =>
        r := Rejected(JsError(DestroySessionFail));
      case Destroyed =>
        r := Resolved;
    }
  }
}
