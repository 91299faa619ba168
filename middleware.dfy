/**
 * The request gates of the API and the way routes assemble them.
 *
 * JavaScript functions are modelled symbolically: a route's handler, a middleware
 * (`withAuth`, `withMethods(list)`, `withAdminAuth`, `withAdminRole(roles)`), what a
 * middleware returns when applied to a function, and a promise. `Call` applies a
 * value to one argument, as `reduce` and `(...)(handler)` do; `Serve` calls a value
 * with a request and follows the request down to the handler. The identity
 * provider, token verification and the admin table are parameters (`Env`).
 */
module Middleware {
  import opened Wrappers
  import opened Strings
  import opened Database
  import opened Store

  /** The identity provider's answer to `getUser(token)`. */
  datatype Identity = Authenticated(id: string, email: string) | NoUser | ProviderError | ProviderThrew

  datatype AuthUser = AuthUser(id: string, email: string)
  datatype AdminPrincipal = AdminPrincipal(id: string, email: string, role: AdminRole)

  /** The parts of a request the gates read, and the identities they attach to it. */
  datatype Request = Request(httpMethod: string, authorization: Option<string>, user: Option<AuthUser>, admin: Option<AdminPrincipal>)

  /**
   * The services behind the gates: the identity provider, the admin-token check
   * (the id a valid token carries; `None` when verification throws) and the admin table.
   */
  datatype Env = Env(identity: string -> Identity, verifyToken: string -> Option<string>, admins: seq<AdminUser>)

  datatype Gate = Auth | Methods(allowed: seq<string>) | AdminAuth | AdminRoleGate(allowedRoles: seq<AdminRole>)

  /** The JavaScript values routes are built from. */
  datatype JsValue =
    | Endpoint                              // a route's own async handler
    | Middleware(gate: Gate)                // `withAuth`, `withMethods(list)`, `withAdminAuth`, `withAdminRole(roles)`
    | Guarded(gate: Gate, inner: JsValue)   // the async function a middleware returns for `inner`
    | PromiseValue                          // what calling an async function yields

  /**
   * Calling a value with one argument: a middleware wraps it; an async function
   * returns a promise whatever it is given; a promise is not callable and throws a
   * `TypeError` (`Err`).
   */
  function Call(f: JsValue, arg: JsValue): (r: Result<JsValue>)
    ensures f.Middleware? ==> r == Ok(Guarded(f.gate, arg))
    ensures (f.Guarded? || f.Endpoint?) ==> r == Ok(PromiseValue)
    ensures r.Err? <==> f.PromiseValue?
  {
    match f
    case Middleware(g) => Ok(Guarded(g, arg))
    case Guarded(_, _) => Ok(PromiseValue)
    case Endpoint => Ok(PromiseValue)
    case PromiseValue => Err("TypeError: not a function")
  }

  /**
   * `combineMiddleware` and `combineAdminMiddleware`: `middlewares.reduce((acc, m) => m(acc))`
   * with no seed, so the first middleware is the seed and each later one is applied
   * to the accumulated value. An empty list throws.
   */
  function Combine(ms: seq<JsValue>): (r: Result<JsValue>)
    ensures ms == [] ==> r.Err?
    ensures |ms| == 1 ==> r == Ok(ms[0])
  {
    if ms == [] then Err("TypeError: Reduce of empty array with no initial value")
    else if |ms| == 1 then Ok(ms[0])
    else
      match Combine(ms[..|ms| - 1])
      case Err(e) => Err(e)
      case Ok(acc) => Call(ms[|ms| - 1], acc)
  }

  /** What a caller observes once a value has been called with a request. */
  datatype Reply =
    | Status(code: nat)       // the route answered with this status
    | Reached(req: Request)   // the route's handler ran, with this request
    | Thrown                  // an exception escaped synchronously; the framework answers 500
    | Rejected                // the returned promise was rejected; the framework answers 500
    | Silent                  // nothing ever answers the request

  /** `!authHeader || !authHeader.startsWith('Bearer ')`, else the token after the 7-character prefix. */
  function BearerToken(header: Option<string>): (r: Option<string>)
    ensures r.Some? <==> header.Some? && StartsWith(header.value, "Bearer ")
    ensures r.Some? ==> header.value == "Bearer " + r.value
  {
    if Truthy(header) && StartsWith(header.value, "Bearer ") then Some(header.value[7..]) else None
  }

  lemma BearerRoundTrip(token: string)
    ensures BearerToken(Some("Bearer " + token)) == Some(token)
  {
    assert ("Bearer " + token)[..7] == "Bearer ";
  }

  /** The scheme is matched case-sensitively and needs its space. */
  lemma BearerCaseSensitive(token: string)
    ensures BearerToken(Some("bearer " + token)) == None
    ensures BearerToken(Some("Bearer")) == None
    ensures BearerToken(None) == None
  {
    assert ("bearer " + token)[0] == 'b';
  }

  /** The admin `withAdminAuth` finds for a request: a verified token naming exactly one admin row, which is active. */
  function AdminFor(req: Request, env: Env): (r: Option<AdminPrincipal>)
    ensures r.Some? <==>
      && BearerToken(req.authorization).Some?
      && env.verifyToken(BearerToken(req.authorization).value).Some?
      && Single(env.admins, IdIs(env.verifyToken(BearerToken(req.authorization).value).value)).Some?
      && Single(env.admins, IdIs(env.verifyToken(BearerToken(req.authorization).value).value)).value.isActive
    ensures r.Some? ==> exists a :: a in env.admins && a.isActive && r.value == AdminPrincipal(a.id, a.email, a.role)
  {
    match BearerToken(req.authorization)
    case None => None
    case Some(token) =>
      match env.verifyToken(token)
      case None => None
      case Some(id) =>
        match Single(env.admins, IdIs(id))
        case None => None
        case Some(a) => if a.isActive then Some(AdminPrincipal(a.id, a.email, a.role)) else None
  }

  /** `.eq('id', id)` on the admin table. */
  function IdIs(id: string): AdminUser -> bool
  {
    (a: AdminUser) => a.id == id
  }

  /**
   * Calling `f(req, res)`. The two authentication gates catch what their handler
   * throws synchronously and answer 500; an async function turns a synchronous
   * throw into a rejected promise.
   */
  function Serve(f: JsValue, req: Request, env: Env): Reply
  {
    match f
    case Endpoint => Reached(req)
    case PromiseValue => Thrown
    case Middleware(_) => Silent
    case Guarded(Auth, inner) =>
      (match BearerToken(req.authorization)
       case None => Status(401)
       case Some(token) =>
         match env.identity(token)
         case ProviderThrew => Status(500)
         case ProviderError => Status(401)
         case NoUser => Status(401)
         case Authenticated(id, email) => CatchThrown(Serve(inner, req.(user := Some(AuthUser(id, email))), env)))
    case Guarded(Methods(allowed), inner) =>
      if req.httpMethod in allowed then RejectThrown(Serve(inner, req, env)) else Status(405)
    case Guarded(AdminAuth, inner) =>
      (match AdminFor(req, env)
       case None => Status(401)
       case Some(admin) => CatchThrown(Serve(inner, req.(admin := Some(admin)), env)))
    case Guarded(AdminRoleGate(allowedRoles), inner) =>
      match req.admin
      case None => Rejected   // `req.admin.role` of undefined, inside an async function
      case Some(admin) => if admin.role in allowedRoles then RejectThrown(Serve(inner, req, env)) else Status(403)
  }

  /** A `try { return handler(req, res) } catch { 500 }` around a call that is not awaited. */
  function CatchThrown(r: Reply): Reply
  {
    if r.Thrown? then Status(500) else r
  }

  /** A synchronous throw inside an async function rejects its promise. */
  function RejectThrown(r: Reply): Reply
  {
    if r.Thrown? then Rejected else r
  }

  /**
   * `withAuth(handler)`: 401 without a `Bearer ` header or when the provider reports
   * an error or no user, 500 when the provider throws; otherwise the handler runs
   * with `req.user` set to the provider's user.
   */
  lemma WithAuthGate(req: Request, env: Env)
    ensures var r := Serve(Guarded(Auth, Endpoint), req, env);
      && (BearerToken(req.authorization).None? ==> r == Status(401))
      && (BearerToken(req.authorization).Some? ==>
            var answer := env.identity(BearerToken(req.authorization).value);
            && (answer.ProviderThrew? ==> r == Status(500))
            && ((answer.ProviderError? || answer.NoUser?) ==> r == Status(401))
            && (answer.Authenticated? ==> r == Reached(req.(user := Some(AuthUser(answer.id, answer.email))))))
  {
  }

  /** `withMethods(allowed)(handler)`: 405 exactly when the method is not listed, else the handler with the request unchanged. */
  lemma WithMethodsGate(allowed: seq<string>, req: Request, env: Env)
    ensures Serve(Guarded(Methods(allowed), Endpoint), req, env)
      == if req.httpMethod in allowed then Reached(req) else Status(405)
  {
  }

  /** No gate removes a user once one is attached to the request (an inner `withAuth` may replace it). */
  lemma {:induction false} ServeKeepsUser(f: JsValue, req: Request, env: Env)
    requires req.user.Some?
    ensures Serve(f, req, env).Reached? ==> Serve(f, req, env).req.user.Some?
  {
    match f
    case Endpoint =>
    case PromiseValue =>
    case Middleware(_) =>
    case Guarded(g, inner) =>
      match g
      case Auth =>
        var token := BearerToken(req.authorization);
        if token.Some? && env.identity(token.value).Authenticated? {
          var answer := env.identity(token.value);
          ServeKeepsUser(inner, req.(user := Some(AuthUser(answer.id, answer.email))), env);
        }
      case Methods(_) => ServeKeepsUser(inner, req, env);
      case AdminAuth =>
        var admin := AdminFor(req, env);
        if admin.Some? {
          ServeKeepsUser(inner, req.(admin := admin), env);
        }
      case AdminRoleGate(_) => ServeKeepsUser(inner, req, env);
  }

  /**
   * Whatever `withAuth` wraps, a handler behind it runs only for a `Bearer ` token
   * the provider resolves to a user, and with a user attached to the request.
   */
  lemma ServeAuthSetsUser(inner: JsValue, req: Request, env: Env)
    ensures var r := Serve(Guarded(Auth, inner), req, env);
      r.Reached? ==>
        && BearerToken(req.authorization).Some?
        && env.identity(BearerToken(req.authorization).value).Authenticated?
        && r.req.user.Some?
  {
    var token := BearerToken(req.authorization);
    if token.Some? && env.identity(token.value).Authenticated? {
      var answer := env.identity(token.value);
      ServeKeepsUser(inner, req.(user := Some(AuthUser(answer.id, answer.email))), env);
    }
  }

  /**
   * The seedless fold over two or more middlewares never reaches a handler: the
   * first middleware is the innermost value, the last one wraps the rest, and applying
   * the combination to a handler calls an async function, which returns a promise.
   */
  lemma {:induction false} CombineWrapsFirst(ms: seq<JsValue>)
    requires |ms| >= 2
    requires forall i :: 0 <= i < |ms| ==> ms[i].Middleware?
    ensures Combine(ms).Ok?
    ensures Combine(ms).value == Guarded(ms[|ms| - 1].gate, Combine(ms[..|ms| - 1]).value)
    ensures Innermost(Combine(ms).value) == ms[0]
    ensures Call(Combine(ms).value, Endpoint) == Ok(PromiseValue)
  {
    var front := ms[..|ms| - 1];
    if |ms| > 2 {
      CombineWrapsFirst(front);
    } else {
      assert Combine(front) == Ok(ms[0]);
    }
  }

  /** The value a chain of wrappers ends on. */
  function Innermost(f: JsValue): JsValue
  {
    if f.Guarded? then Innermost(f.inner) else f
  }
}
