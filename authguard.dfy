/**
 * The route guards of the admin front end (frontend/src/auth/authGuard.js),
 * as decisions. A guard receives the development-bypass flag and the Auth0
 * instance (`None` when none is registered) and ends in one call of the
 * router's `next`: either with no argument (proceed) or with a path.
 */
module AuthGuard {
  import opened Wrappers
  import opened Auth0

  /** What a guard passes to `next`. */
  datatype Next = Proceed | Redirect(path: string)

  /** The parts of the Auth0 instance the guards read. */
  datatype Auth0Instance = Auth0Instance(isAuthenticated: bool, user: Option<User>)

  datatype GuardContext = GuardContext(bypass: bool, auth0: Option<Auth0Instance>)

  const PlaceholderDomain: string := "your-tenant.auth0.com"
  const LoginPath: string := "/admin/login"
  const UnauthorizedPath: string := "/admin/unauthorized"
  const ForbiddenPath: string := "/admin/forbidden"

  /** A JavaScript environment value that is undefined or the empty string is falsy. */
  predicate Falsy(v: Option<string>) {
    v.None? || v.value == ""
  }

  /** Development mode with no real Auth0 tenant configured turns the admin guards off. */
  function BypassAuth(nodeEnv: Option<string>, domain: Option<string>): bool {
    nodeEnv == Some("development") && (Falsy(domain) || domain == Some(PlaceholderDomain))
  }

  predicate Authenticated(ctx: GuardContext) {
    ctx.auth0.Some? && ctx.auth0.value.isAuthenticated
  }

  /** The signed-in user, read only when authenticated. */
  function CurrentUser(ctx: GuardContext): Option<User>
    requires Authenticated(ctx)
  {
    ctx.auth0.value.user
  }

  function AdminGuard(ctx: GuardContext): Next {
    if ctx.bypass then Proceed
    else if !Authenticated(ctx) then Redirect(LoginPath)
    else if !CanAccessAdmin(CurrentUser(ctx)) then Redirect(UnauthorizedPath)
    else Proceed
  }

  /** The guard `createRoleGuard(requiredRoles)` returns, applied. */
  function RoleGuard(requiredRoles: seq<string>, ctx: GuardContext): Next {
    if !Authenticated(ctx) then Redirect(LoginPath)
    else if !HasAnyRole(CurrentUser(ctx), requiredRoles) then Redirect(ForbiddenPath)
    else Proceed
  }

  /** The guard `createPermissionGuard(requiredPermissions)` returns, applied. */
  function PermissionGuard(requiredPermissions: seq<string>, ctx: GuardContext): Next {
    if !Authenticated(ctx) then Redirect(LoginPath)
    else if !HasAnyPermission(CurrentUser(ctx), requiredPermissions) then Redirect(ForbiddenPath)
    else Proceed
  }

  /**
   * The admin guard lets through exactly bypass mode and authenticated users
   * with an admin role; every refusal is the login page (not signed in) or the
   * unauthorized page (signed in without an admin role).
   */
  lemma AdminGuardDecision(ctx: GuardContext)
    ensures AdminGuard(ctx) == Proceed <==>
              ctx.bypass
              || (Authenticated(ctx) && exists r :: r in AdminRoles && r in GetUserRoles(CurrentUser(ctx)))
    ensures AdminGuard(ctx) == Redirect(LoginPath) <==> !ctx.bypass && !Authenticated(ctx)
    ensures AdminGuard(ctx).Redirect? ==> AdminGuard(ctx).path in {LoginPath, UnauthorizedPath}
  {
    if Authenticated(ctx) {
      HasAnyRoleIff(CurrentUser(ctx), AdminRoles);
    }
  }

  /**
   * The role guard lets through exactly authenticated users holding one of
   * the required roles, whatever the bypass flag says.
   */
  lemma RoleGuardDecision(requiredRoles: seq<string>, ctx: GuardContext)
    ensures RoleGuard(requiredRoles, ctx) == Proceed <==>
              Authenticated(ctx) && exists r :: r in requiredRoles && r in GetUserRoles(CurrentUser(ctx))
    ensures RoleGuard(requiredRoles, ctx) == Redirect(LoginPath) <==> !Authenticated(ctx)
    ensures RoleGuard(requiredRoles, ctx).Redirect? ==> RoleGuard(requiredRoles, ctx).path in {LoginPath, ForbiddenPath}
    ensures RoleGuard(requiredRoles, ctx.(bypass := !ctx.bypass)) == RoleGuard(requiredRoles, ctx)
  {
    if Authenticated(ctx) {
      HasAnyRoleIff(CurrentUser(ctx), requiredRoles);
    }
  }

  /**
   * The permission guard makes the same decision over permissions, also
   * whatever the bypass flag says.
   */
  lemma PermissionGuardDecision(requiredPermissions: seq<string>, ctx: GuardContext)
    ensures PermissionGuard(requiredPermissions, ctx) == Proceed <==>
              Authenticated(ctx)
              && exists p :: p in requiredPermissions && p in GetUserPermissions(CurrentUser(ctx))
    ensures PermissionGuard(requiredPermissions, ctx) == Redirect(LoginPath) <==> !Authenticated(ctx)
    ensures PermissionGuard(requiredPermissions, ctx).Redirect? ==>
              PermissionGuard(requiredPermissions, ctx).path in {LoginPath, ForbiddenPath}
    ensures PermissionGuard(requiredPermissions, ctx.(bypass := !ctx.bypass)) == PermissionGuard(requiredPermissions, ctx)
  {
    if Authenticated(ctx) {
      HasAnyPermissionIff(CurrentUser(ctx), requiredPermissions);
    }
  }

  /**
   * Outside bypass mode the admin guard is the role guard for the three admin
   * roles, except that a signed-in user without one is sent to the
   * unauthorized page rather than the forbidden page.
   */
  lemma AdminGuardIsAdminRoleGuard(ctx: GuardContext)
    requires !ctx.bypass
    ensures AdminGuard(ctx) == Proceed <==> RoleGuard(AdminRoles, ctx) == Proceed
    ensures AdminGuard(ctx) == Redirect(LoginPath) <==> RoleGuard(AdminRoles, ctx) == Redirect(LoginPath)
    ensures AdminGuard(ctx) == Redirect(UnauthorizedPath) <==> RoleGuard(AdminRoles, ctx) == Redirect(ForbiddenPath)
  {
  }

  /**
   * What `authGuard` does with its callback: calls it once, with or without a
   * path, or starts the Auth0 login redirect and never calls it.
   */
  datatype AuthGuardOutcome = CalledNext(path: Option<string>) | LoginRedirect

  /**
   * The combined guard: bypass proceeds; otherwise a path from `authGuard` is
   * forwarded and a plain callback hands over to the admin guard. `None` means
   * `next` is never called because the browser leaves for the login page.
   */
  function AdminAuthGuard(ctx: GuardContext, auth: AuthGuardOutcome): Option<Next> {
    if ctx.bypass then Some(Proceed)
    else match auth
      case LoginRedirect => None
      case CalledNext(path) =>
        match path
        case Some(p) => Some(Redirect(p))
        case None => Some(AdminGuard(ctx))
  }

  /**
   * The combined guard calls `next` exactly once unless `authGuard` started
   * the login redirect; it proceeds exactly in bypass mode or when `authGuard`
   * proceeded and the user is signed in with an admin role; and a path from
   * `authGuard` reaches the router unchanged, while a bare callback hands
   * the decision to the admin guard.
   */
  lemma AdminAuthGuardDecision(ctx: GuardContext, auth: AuthGuardOutcome)
    ensures AdminAuthGuard(ctx, auth).None? <==> !ctx.bypass && auth.LoginRedirect?
    ensures AdminAuthGuard(ctx, auth) == Some(Proceed) <==>
              ctx.bypass
              || (auth == CalledNext(None) && Authenticated(ctx)
                  && exists r :: r in AdminRoles && r in GetUserRoles(CurrentUser(ctx)))
    ensures !ctx.bypass && auth.CalledNext? && auth.path.Some? ==>
              AdminAuthGuard(ctx, auth) == Some(Redirect(auth.path.value))
    ensures !ctx.bypass && auth == CalledNext(None) ==> AdminAuthGuard(ctx, auth) == Some(AdminGuard(ctx))
  {
    AdminGuardDecision(ctx);
  }

  /** The guard context of a build: the bypass flag computed from its environment, and the registered instance. */
  function EnvContext(nodeEnv: Option<string>, domain: Option<string>, inst: Option<Auth0Instance>): GuardContext {
    GuardContext(BypassAuth(nodeEnv, domain), inst)
  }

  /**
   * A development build with no tenant configured (domain unset, empty or the
   * placeholder) lets everyone through both admin guards, signed in or not.
   */
  lemma DevelopmentWithoutTenantOpensAdminGuards(nodeEnv: Option<string>, domain: Option<string>,
                                                 inst: Option<Auth0Instance>, auth: AuthGuardOutcome)
    requires nodeEnv == Some("development")
    requires domain.None? || domain.value == "" || domain.value == PlaceholderDomain
    ensures AdminGuard(EnvContext(nodeEnv, domain, inst)) == Proceed
    ensures AdminAuthGuard(EnvContext(nodeEnv, domain, inst), auth) == Some(Proceed)
  {
  }

  /**
   * Any other build, one that is not development or one with a real tenant
   * domain, enforces the admin role: the admin guard proceeds exactly for a
   * signed-in admin, and the combined guard exactly when in addition
   * `authGuard` proceeded, never calling `next` after the login redirect.
   */
  lemma RealTenantEnforcesAdminGuards(nodeEnv: Option<string>, domain: Option<string>,
                                      inst: Option<Auth0Instance>, auth: AuthGuardOutcome)
    requires nodeEnv != Some("development") || (domain.Some? && domain.value != "" && domain.value != PlaceholderDomain)
    ensures var ctx := EnvContext(nodeEnv, domain, inst);
            AdminGuard(ctx) == Proceed <==> Authenticated(ctx) && CanAccessAdmin(CurrentUser(ctx))
    ensures var ctx := EnvContext(nodeEnv, domain, inst);
            AdminAuthGuard(ctx, auth) == Some(Proceed) <==>
              auth == CalledNext(None) && Authenticated(ctx) && CanAccessAdmin(CurrentUser(ctx))
    ensures var ctx := EnvContext(nodeEnv, domain, inst);
            AdminAuthGuard(ctx, auth).None? <==> auth.LoginRedirect?
  {
  }
}
