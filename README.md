# Session logout and header bridge of adapt-authoring-sessions

This project models two request-pipeline rules of the sessions module of an
authoring server. The rules are modelled against abstract collaborators whose
outcomes are inputs.

- **Logout handler** `SessionsModule.clearSession` (`lib/SessionsModule.js`).
  When the request has no session or no auth token, it only ends the response
  (`res.end()`); it does not destroy the session or revoke anything.
  Otherwise it destroys the session. If the store reports an error, that same
  error goes to `next`. If not, it revokes the request's token by its `jti` and
  then ends the response. The model (module `Logout`) is a method that issues
  these calls on a `Collaborators` object. Each call is appended to an effect
  log. The method is proved to produce exactly the log `LogoutTrace`. The
  ordering and terminal-effect properties are proved about that function.
  `ServeAll` joins the logs of several logout requests handled in turn; the
  lemma about it only carries the per-request properties over to such a log.
- **Extracted logout** (`tests/SessionsModule.spec.js`, module
  `ExtractedLogout`). This later revision returns early only when there is no
  session. It never revokes. It rejects with `Error('DESTROY_SESSION_FAIL')`
  whatever the store's error was.
- **Header bridge** `storeAuthHeader` (`tests/SessionsModule.spec.js`, module
  `HeaderBridge`). It looks for a truthy token in the session. If it finds one
  and the request has no truthy `Authorization` header, it writes
  `Authorization: Bearer <token>`. This is the header form of section 2.1 of
  RFC 6750. It then calls `next` once. The header map is a `map<string,string>`
  field of a `Request` object, updated in place. `next` is a counter.

Two details of the code are easy to misread; the model follows the code:

- The test `if (!req.headers.Authorization)` is a truthiness test, so an
  `Authorization` header whose value is the empty string IS overwritten. Only a
  non-empty header is protected.
- The extracted logout drops the store's error message. Its rejection carries
  only `DESTROY_SESSION_FAIL`.

Also, when a session has no auth token, the library handler only ends the
response (`res.end()`); it does not destroy the session or revoke anything.

## Model

| member | source | states |
|---|---|---|
| `Logout.LogoutTrace` | lib/SessionsModule.js:45-54 | The handler issues exactly one terminal effect, `End` or `Next`, and issues it last. `Destroy` is issued iff there is a session and a token, and it is then the first effect. `Revoke` is issued iff destroy succeeded, and it carries the request's own `jti`. Each `Revoke` comes right after `Destroy` and right before `End`. A failed destroy passes that same error to `next` and does not end the response. Destroy and revoke each happen at most once. |
| `Logout.ClearSession` | lib/SessionsModule.js:45-54 | Calling the handler appends exactly `LogoutTrace(req, destroy)` to the collaborators' effect log. Nothing already in the log changes. |
| `Logout.Collaborators.DestroySession` | lib/SessionsModule.js:49-50 | Logs one `Destroy`. Hands the callback an error iff the store reported one, and it is that error. |
| `Logout.Collaborators.RevokeToken` | lib/SessionsModule.js:51 | Logs one `Revoke(jti)` for the given `jti`. |
| `Logout.Collaborators.EndResponse` | lib/SessionsModule.js:47-52 | Logs one `End`. |
| `Logout.Collaborators.CallNext` | lib/SessionsModule.js:50 | Logs one `Next(error)` for the given error. |
| `Logout.ServeAllGuarantees` | lib/SessionsModule.js:46-53 | A consequence of the per-request contract of `LogoutTrace`, not a separate promise of the source: over any run of logout requests handled one after another, the log holds exactly one terminal effect per request. The number of revokes equals the number of successful destroys. There are never more revokes than destroys. Every revoke stays between its destroy and its end. |
| `ExtractedLogout.ClearSession` | tests/SessionsModule.spec.js:68-78 | Destroy is called, once, iff there is a session, and nothing else is called. The promise resolves iff there is no session or destroy succeeded. It rejects only on a destroy error, and the rejection's message is exactly `DESTROY_SESSION_FAIL`. |
| `HeaderBridge.Bridged` | tests/SessionsModule.spec.js:13-16 | No entry other than `Authorization` is added, removed or changed. A non-empty `Authorization` header is never overwritten. Without a truthy session token the map is unchanged. Otherwise `Authorization` becomes `"Bearer " + token`. |
| `HeaderBridge.BridgedIdempotent` | tests/SessionsModule.spec.js:14-15 | Running the bridge twice gives the same headers as running it once. |
| `HeaderBridge.BridgedPresentsCredential` | tests/SessionsModule.spec.js:13-15 | With a truthy session token, the request leaves the bridge with a non-empty `Authorization` header. That header is either the one it came with or `"Bearer " + token`. |
| `HeaderBridge.StoreAuthHeader` | tests/SessionsModule.spec.js:12-18 | The request's header map becomes `Bridged` of the old map and the request's session. `next` is called exactly once. |

`HeaderBridge.BridgeScenarios` replays the bridge's test cases
(tests/SessionsModule.spec.js:20-63) against the contracts above.

## Left out

- `init` of `lib/SessionsModule.js` (lines 11-38) and all of `lib/sessionsModule.js`: module lookup, express-session and MongoDB store configuration, route registration and the `clear:session` route guard. These are framework wiring over libraries that are not part of this model.
- Session loading and creation, `resave` / `saveUninitialized` / rolling semantics, and TTL expiry. These happen inside express-session and connect-mongo.
- The internals of `session.destroy` and `AuthToken.revoke`. They are modelled only through their outcomes. In particular, the model does not say whether `req.session` is cleared after a destroy, so a second logout on the same request is not modelled.
- Logout.Collaborators.RevokeToken: assumed to complete. If `AuthToken.revoke` rejects inside the destroy callback, the source leaves an unhandled rejection with no defined outcome, so no revocation-failure result is modelled.
- Promise and callback scheduling, concurrent requests on one session id, and dropped connections. These are asynchrony, not sequential logic.
- `req.auth` is taken to be present on the logout route, since authorization runs first. Without it, `req.auth.token` would throw.
- `req.headers` is taken to be present. A request object with no `headers` property and a truthy session token would throw a `TypeError` in `storeAuthHeader`. The empty-request test only passes because no token is found first.
- A `jti` that is not a string. `AuthToken` holds `jti` as a string, but the source only tests `req.auth.token` for truthiness, so `req.auth.token.jti` could be `undefined` or another value when it is passed to `AuthToken.revoke`.
- Token values other than strings. Truthiness is modelled for an optional string as "present and non-empty".
- Cookie and transport settings (name, sameSite, secure, maxAge).
