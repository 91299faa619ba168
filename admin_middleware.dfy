/**
 * The back-office gates: `withAdminAuth`, `withAdminRole`, their combination as the
 * admin routes write it, and the activity log. The gates themselves are interpreted
 * by `Middleware.Serve`; this module states what they guarantee and how two admin
 * routes assemble them.
 */
module AdminMiddleware {
  import opened Wrappers
  import opened Database
  import opened Store
  import opened Middleware

  /**
   * `withAdminAuth(handler)`: 401 unless the bearer token verifies and names exactly
   * one admin row, which is active; then the handler runs with `req.admin` set from
   * that row.
   */
  lemma WithAdminAuthGate(req: Request, env: Env)
    ensures var r := Serve(Guarded(AdminAuth, Endpoint), req, env);
      && (r == Status(401) <==> AdminFor(req, env).None?)
      && (r.Reached? <==> AdminFor(req, env).Some?)
      && (r.Reached? ==> r.req == req.(admin := AdminFor(req, env)))
  {
  }

  /** A missing or malformed header, or a token that fails verification, is refused with 401. */
  lemma AdminAuthRefusals(req: Request, env: Env)
    ensures BearerToken(req.authorization).None? ==> Serve(Guarded(AdminAuth, Endpoint), req, env) == Status(401)
    ensures BearerToken(req.authorization).Some? && env.verifyToken(BearerToken(req.authorization).value).None?
      ==> Serve(Guarded(AdminAuth, Endpoint), req, env) == Status(401)
  {
  }

  /** A deactivated admin is refused with 401, even with a valid token naming it. */
  lemma InactiveAdminRefused(req: Request, env: Env, a: AdminUser)
    requires BearerToken(req.authorization).Some? && env.verifyToken(BearerToken(req.authorization).value) == Some(a.id)
    requires a in env.admins && !a.isActive
    ensures Serve(Guarded(AdminAuth, Endpoint), req, env) == Status(401)
  {
    var found := Single(env.admins, IdIs(a.id));
    if found.Some? {
      AdminRowUnique(env.admins, a.id, a, found.value);
    }
  }

  /** With exactly one row carrying an id, any row carrying that id is that row. */
  lemma AdminRowUnique(admins: seq<AdminUser>, id: string, a: AdminUser, found: AdminUser)
    requires Matching(admins, IdIs(id)) == [found]
    requires a in admins && a.id == id
    ensures a == found
  {
    var i :| 0 <= i < |admins| && admins[i] == a;
    assert IdIs(id)(admins[i]);
    assert a in Matching(admins, IdIs(id));
  }

  /** `withAdminRole(roles)(handler)`: 403 exactly when the admin's role is not listed; without `req.admin` the call rejects. */
  lemma WithAdminRoleGate(allowedRoles: seq<AdminRole>, req: Request, env: Env)
    ensures var r := Serve(Guarded(AdminRoleGate(allowedRoles), Endpoint), req, env);
      && (req.admin.None? ==> r == Rejected)
      && (req.admin.Some? && req.admin.value.role in allowedRoles ==> r == Reached(req))
      && (req.admin.Some? && req.admin.value.role !in allowedRoles ==> r == Status(403))
  {
  }

  /** `combineAdminMiddleware(withAdminAuth, withAdminRole(roles))` is `withAdminRole(roles)(withAdminAuth)`. */
  lemma CombineAdminPair(allowedRoles: seq<AdminRole>)
    ensures Combine([Middleware(AdminAuth), Middleware(AdminRoleGate(allowedRoles))])
      == Ok(Guarded(AdminRoleGate(allowedRoles), Middleware(AdminAuth)))
  {
    var ms := [Middleware(AdminAuth), Middleware(AdminRoleGate(allowedRoles))];
    assert ms[..1] == [Middleware(AdminAuth)];
  }

  const ExecutiveOnly: seq<AdminRole> := [Executive]
  const ExecutiveOrAdmin: seq<AdminRole> := [Executive, Admin]

  /**
   * The admin-users route as written: a POST goes through
   * `combineAdminMiddleware(withAdminAuth, withAdminRole(['Executif']))(handler)(req, res)`,
   * any other method through `withAdminAuth(handler)`.
   */
  function AdminUsersRoute(req: Request, env: Env): Reply
  {
    if req.httpMethod == "POST" then
      match Combine([Middleware(AdminAuth), Middleware(AdminRoleGate(ExecutiveOnly))])
      case Err(_) => Thrown
      case Ok(combined) =>
        match Call(combined, Endpoint)
        case Err(_) => Thrown
        case Ok(route) => Serve(route, req, env)
    else Serve(Guarded(AdminAuth, Endpoint), req, env)
  }

  /**
   * As written, no POST to the admin-users route reaches its handler, even with a
   * valid token of an active `Executif`: the combination applied to the handler is a
   * promise, and calling a promise throws.
   */
  lemma AdminUsersPostAsWritten(req: Request, env: Env)
    requires req.httpMethod == "POST"
    ensures AdminUsersRoute(req, env) == Thrown
  {
    CombineAdminPair(ExecutiveOnly);
  }

  /** The default export of the custom-commission route: the combination applied to the handler. */
  function CommissionsExport(): Result<JsValue>
  {
    match Combine([Middleware(AdminAuth), Middleware(AdminRoleGate(ExecutiveOrAdmin))])
    case Err(e) => Err(e)
    case Ok(combined) => Call(combined, Endpoint)
  }

  /** As written, the custom-commission route exports a promise, so every request to it throws. */
  lemma CommissionsExportAsWritten(req: Request, env: Env)
    ensures CommissionsExport() == Ok(PromiseValue)
    ensures Serve(CommissionsExport().value, req, env) == Thrown
  {
    CombineAdminPair(ExecutiveOrAdmin);
  }

  /** The composition the routes intend: the first gate outermost, the handler innermost. */
  function Compose(gates: seq<Gate>, handler: JsValue): JsValue
  {
    if gates == [] then handler else Guarded(gates[0], Compose(gates[1..], handler))
  }

  /** Whether a gate lets a request through, judged from the request's method and header alone. */
  predicate Admits(g: Gate, req: Request, env: Env)
  {
    match g
    case Auth => BearerToken(req.authorization).Some? && env.identity(BearerToken(req.authorization).value).Authenticated?
    case Methods(allowed) => req.httpMethod in allowed
    case AdminAuth => AdminFor(req, env).Some?
    case AdminRoleGate(roles) => AdminFor(req, env).Some? && AdminFor(req, env).value.role in roles
  }

  /** Every role check in the chain runs on a request whose `req.admin` is already set. */
  predicate AdminSetBeforeRoleCheck(gates: seq<Gate>, req: Request)
  {
    req.admin.Some? || forall i :: 0 <= i < |gates| && gates[i].AdminRoleGate? ==> AdminAuth in gates[..i]
  }

  /** The admin behind a request depends on its `Authorization` header only. */
  lemma AdminForHeaderOnly(req: Request, req': Request, env: Env)
    requires req'.authorization == req.authorization
    ensures AdminFor(req', env) == AdminFor(req, env)
  {
  }

  /**
   * A request passes a chain of gates and reaches the handler exactly when every gate
   * admits it and no role check comes before the authentication that sets `req.admin`;
   * the handler sees the request's own method and header.
   */
  lemma {:induction false} ComposeReachedIffAllAdmit(gates: seq<Gate>, req: Request, env: Env)
    requires req.admin.None? || req.admin == AdminFor(req, env)
    ensures var r := Serve(Compose(gates, Endpoint), req, env);
      && (r.Reached? <==> (forall i :: 0 <= i < |gates| ==> Admits(gates[i], req, env)) && AdminSetBeforeRoleCheck(gates, req))
      && (r.Reached? ==> r.req.httpMethod == req.httpMethod && r.req.authorization == req.authorization)
  {
    if gates != [] {
      var g, rest := gates[0], gates[1..];
      assert forall i :: 1 <= i < |gates| ==> gates[i] == rest[i - 1];
      assert forall i :: 1 <= i < |gates| ==> gates[..i] == [g] + rest[..i - 1];
      var req' := match g
        case Auth =>
          if BearerToken(req.authorization).Some? && env.identity(BearerToken(req.authorization).value).Authenticated? then
            var who := env.identity(BearerToken(req.authorization).value);
            req.(user := Some(AuthUser(who.id, who.email)))
          else req
        case AdminAuth => req.(admin := AdminFor(req, env))
        case _ => req;
      AdminForHeaderOnly(req, req', env);
      assert forall h :: Admits(h, req', env) == Admits(h, req, env);
      ComposeReachedIffAllAdmit(rest, req', env);
      var r := Serve(Compose(gates, Endpoint), req, env);
      if Admits(g, req, env) && (g.AdminRoleGate? ==> req.admin.Some?) {
        assert r.Reached? <==> Serve(Compose(rest, Endpoint), req', env).Reached?;
        assert r.Reached? ==> r == Serve(Compose(rest, Endpoint), req', env);
        assert AdminSetBeforeRoleCheck(gates, req) <==> AdminSetBeforeRoleCheck(rest, req');
      } else {
        assert !r.Reached?;
      }
    }
  }

  /** The admin-users route with the intended composition. */
  function AdminUsersRouteCorrected(req: Request, env: Env): Reply
  {
    if req.httpMethod == "POST" then Serve(Compose([AdminAuth, AdminRoleGate(ExecutiveOnly)], Endpoint), req, env)
    else Serve(Guarded(AdminAuth, Endpoint), req, env)
  }

  /**
   * Authentication, then the role check, then the handler: 401 for a request with no
   * active admin behind its token, 403 for an admin whose role is not allowed, and the
   * handler, with `req.admin` set, otherwise.
   */
  lemma ComposedAdminGate(allowedRoles: seq<AdminRole>, req: Request, env: Env)
    ensures var r := Serve(Compose([AdminAuth, AdminRoleGate(allowedRoles)], Endpoint), req, env);
      && (AdminFor(req, env).None? ==> r == Status(401))
      && (AdminFor(req, env).Some? && AdminFor(req, env).value.role !in allowedRoles ==> r == Status(403))
      && (AdminFor(req, env).Some? && AdminFor(req, env).value.role in allowedRoles
          ==> r == Reached(req.(admin := AdminFor(req, env))))
  {
    var gates := [AdminAuth, AdminRoleGate(allowedRoles)];
    assert gates[1..] == [AdminRoleGate(allowedRoles)];
    assert gates[1..][1..] == [];
    assert Compose(gates[1..], Endpoint) == Guarded(AdminRoleGate(allowedRoles), Endpoint);
    assert Compose(gates, Endpoint) == Guarded(AdminAuth, Guarded(AdminRoleGate(allowedRoles), Endpoint));
    var admin := AdminFor(req, env);
    if admin.Some? {
      var req' := req.(admin := admin);
      WithAdminRoleGate(allowedRoles, req', env);
      assert Serve(Guarded(AdminAuth, Guarded(AdminRoleGate(allowedRoles), Endpoint)), req, env)
        == CatchThrown(Serve(Guarded(AdminRoleGate(allowedRoles), Endpoint), req', env));
    }
  }

  /** With the intended composition, a POST from an active `Executif` reaches the handler and other roles get 403. */
  lemma AdminUsersPostCorrected(req: Request, env: Env)
    requires req.httpMethod == "POST" && AdminFor(req, env).Some?
    ensures AdminFor(req, env).value.role == Executive ==> AdminUsersRouteCorrected(req, env).Reached?
    ensures AdminFor(req, env).value.role != Executive ==> AdminUsersRouteCorrected(req, env) == Status(403)
  {
    ComposedAdminGate(ExecutiveOnly, req, env);
  }

  /**
   * `logAdminActivity`: appends one row to the activity log when the store accepts the
   * insert (`accepted`); a refused or failing insert is swallowed, and the caller
   * carries on either way.
   */
  method LogAdminActivity(db: Db, adminId: string, action: string, description: string,
                          targetType: Option<string>, targetId: Option<string>, metadata: Option<string>,
                          ipAddress: Option<string>, accepted: bool)
    modifies db
    ensures accepted ==> db.State() == old(db.State()).(adminLogs := old(db.adminLogs) + [AdminLog(adminId, action, description, targetType, targetId, metadata, ipAddress)])
    ensures !accepted ==> db.State() == old(db.State())
  {
    if accepted {
      db.adminLogs := db.adminLogs + [AdminLog(adminId, action, description, targetType, targetId, metadata, ipAddress)];
    }
  }
}
