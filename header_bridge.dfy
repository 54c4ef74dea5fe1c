/** The header bridge `storeAuthHeader(req, res, next)` of
    tests/SessionsModule.spec.js: a bearer token kept in the session is copied
    into the request's `Authorization` header, in the form of section 2.1 of
    RFC 6750, unless the request already carries one; `next` is then called. */
module HeaderBridge {
  import opened Effects

  /** `req.session`, seen only through its optional `token` field. */
  datatype Session = Session(token: Option<string>)

  /** The header key written and tested, compared exactly (case-sensitive). */
  const Authorization: string := "Authorization"

  const BearerPrefix: string := "Bearer "

  /** JavaScript truthiness of an optional string: present and not empty. */
  predicate Truthy(v: Option<string>) {
    v.Some? && v.value != ""
  }

  /** `req?.session?.token` */
  function SessionToken(session: Option<Session>): Option<string> {
    if session.Some? then session.value.token else None
  }

  /** `req.headers.Authorization`, as JavaScript reads it (absent is `undefined`). */
  function AuthorizationHeader(headers: map<string, string>): Option<string> {
    if Authorization in headers then Some(headers[Authorization]) else None
  }

  /** The header map after the bridge. */
  function Bridged(headers: map<string, string>, session: Option<Session>): (r: map<string, string>)
    // only the Authorization entry can change; every other entry is kept
    ensures forall k :: k != Authorization ==> (k in r <==> k in headers)
    ensures forall k :: k in r && k != Authorization ==> r[k] == headers[k]
    // a non-empty Authorization header is never overwritten
    ensures Truthy(AuthorizationHeader(headers)) ==> r == headers
    // without a truthy session token nothing changes
    ensures !Truthy(SessionToken(session)) ==> r == headers
    // otherwise the header becomes "Bearer <token>"
    ensures Truthy(SessionToken(session)) && !Truthy(AuthorizationHeader(headers)) ==>
      AuthorizationHeader(r) == Some(BearerPrefix + SessionToken(session).value)
  {
    var token := SessionToken(session);
    if Truthy(token) && !Truthy(AuthorizationHeader(headers)) then
      headers[Authorization := BearerPrefix + token.value]
    else
      headers
  }

  /** Running the bridge a second time changes nothing: after the first run the
      header is either left as it was or set to a non-empty value. */
  lemma BridgedIdempotent(headers: map<string, string>, session: Option<Session>)
    ensures Bridged(Bridged(headers, session), session) == Bridged(headers, session)
  {
    var once := Bridged(headers, session);
    if Truthy(SessionToken(session)) && !Truthy(AuthorizationHeader(headers)) {
      assert AuthorizationHeader(once) == Some(BearerPrefix + SessionToken(session).value);
      assert Truthy(AuthorizationHeader(once));
    }
  }

  /** After the bridge, a request whose session holds a token always presents a
      credential, and it is either the one it came with or the session's. */
  lemma BridgedPresentsCredential(headers: map<string, string>, session: Option<Session>)
    requires Truthy(SessionToken(session))
    ensures Truthy(AuthorizationHeader(Bridged(headers, session)))
    ensures AuthorizationHeader(Bridged(headers, session)) == AuthorizationHeader(headers)
         || AuthorizationHeader(Bridged(headers, session)) == Some(BearerPrefix + SessionToken(session).value)
  {
  }

  /** The request object: a mutable header map and the session loaded for it. */
  class Request {
    var headers: map<string, string>
    const session: Option<Session>

    constructor (headers: map<string, string>, session: Option<Session>)
      ensures this.headers == headers && this.session == session
    {
      this.headers := headers;
      this.session := session;
    }
  }

  /** The `next` callback, observed through how often it has been called. */
  class NextSpy {
    var calls: nat

    constructor ()
      ensures calls == 0
    {
      calls := 0;
    }
  }

  /** `storeAuthHeader(req, res, next)` */
  method StoreAuthHeader(req: Request, next: NextSpy)
    modifies req, next
    ensures req.headers == Bridged(old(req.headers), req.session)
    ensures next.calls == old(next.calls) + 1
  {
    var token := SessionToken(req.session);
    if Truthy(token) && !Truthy(AuthorizationHeader(req.headers)) {
      req.headers := req.headers[Authorization := BearerPrefix + token.value];
    }
    next.calls := next.calls + 1;
  }

  /** The scenarios of the bridge's tests, replayed against the contracts above. */
  method BridgeScenarios()
  {
    var next := new NextSpy();
    var withToken := new Request(map[], Some(Session(Some("abc123"))));
    StoreAuthHeader(withToken, next);
    assert withToken.headers[Authorization] == "Bearer abc123";
    assert next.calls == 1;

    var existing := new Request(map[Authorization := "Bearer existing"], Some(Session(Some("abc123"))));
    StoreAuthHeader(existing, next);
    assert existing.headers[Authorization] == "Bearer existing";

    var noToken := new Request(map[], Some(Session(None)));
    StoreAuthHeader(noToken, next);
    assert Authorization !in noToken.headers;

    var noSession := new Request(map[], None);
    StoreAuthHeader(noSession, next);
    assert noSession.headers == map[];
    assert next.calls == 4;
  }
}
