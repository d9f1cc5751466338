/**
 * The route guard of `src/components/ProtectedRoute.jsx`: an
 * unauthenticated visitor is sent to the admin login, an authenticated one
 * whose role differs from the required one is sent home, anyone else sees
 * the protected page. The routes of `src/App.jsx` pass the required role
 * under a different prop name than the guard reads.
 */
module ProtectedRoute {
  import opened Js
  import opened Session

  const LoginPath := "/admin/login"
  const HomePath := "/"

  /** What the guard renders: a redirect, or the protected children. */
  datatype Outcome = Redirect(to: string) | RenderChildren

  /** `user?.role`: missing when there is no user or the profile has no role. */
  function RoleOf(user: Option<User>): Option<string> {
    if user.Some? then user.value.role else None
  }

  /** The guard as written: it compares `user?.role` with its `requiredRole` prop, absent or not. */
  function Guard(isAuthenticated: bool, user: Option<User>, requiredRole: Option<string>): (r: Outcome)
    ensures !isAuthenticated ==> r == Redirect(LoginPath)
    ensures isAuthenticated ==> (r == RenderChildren <==> RoleOf(user) == requiredRole)
    ensures r != RenderChildren ==> r == Redirect(LoginPath) || r == Redirect(HomePath)
  {
    if !isAuthenticated then Redirect(LoginPath)
    else if RoleOf(user) != requiredRole then Redirect(HomePath)
    else RenderChildren
  }

  /** A guarded route of `App.jsx`: it passes `requiredRoles`, so the guard's `requiredRole` is absent. */
  function GuardAsRouted(isAuthenticated: bool, user: Option<User>, requiredRoles: seq<string>): (r: Outcome)
    ensures !isAuthenticated ==> r == Redirect(LoginPath)
    ensures isAuthenticated ==> (r == RenderChildren <==> RoleOf(user).None?)
  {
    Guard(isAuthenticated, user, None)
  }

  /** The evidently intended guard: the user's role must be one of `requiredRoles`. */
  function GuardForRoles(isAuthenticated: bool, user: Option<User>, requiredRoles: seq<string>): (r: Outcome)
    ensures !isAuthenticated ==> r == Redirect(LoginPath)
    ensures isAuthenticated ==>
      (r == RenderChildren <==> RoleOf(user).Some? && RoleOf(user).value in requiredRoles)
    ensures r != RenderChildren ==> r == Redirect(LoginPath) || r == Redirect(HomePath)
  {
    if !isAuthenticated then Redirect(LoginPath)
    else if RoleOf(user).None? || RoleOf(user).value !in requiredRoles then Redirect(HomePath)
    else RenderChildren
  }

  /** With a single required role, the intended guard is the written guard given that role. */
  lemma GuardForOneRole(isAuthenticated: bool, user: Option<User>, role: string)
    ensures GuardForRoles(isAuthenticated, user, [role]) == Guard(isAuthenticated, user, Some(role))
  {
  }

  /**
   * As routed, a signed-in admin with a loaded profile is sent home from the
   * admin dashboard, while a signed-in visitor whose profile has no role
   * (or is not loaded) is let through to it.
   */
  lemma AsRoutedLocksOutAdmins(admin: User, stranger: Option<User>)
    requires admin.role == Some("admin")
    requires RoleOf(stranger).None?
    ensures GuardAsRouted(true, Some(admin), ["admin"]) == Redirect(HomePath)
    ensures GuardAsRouted(true, stranger, ["admin"]) == RenderChildren
  {
  }

  /** The intended guard lets the admin in and keeps the role-less visitor out. */
  lemma ForRolesAdmitsAdmins(admin: User, stranger: Option<User>)
    requires admin.role == Some("admin")
    requires RoleOf(stranger).None?
    ensures GuardForRoles(true, Some(admin), ["admin"]) == RenderChildren
    ensures GuardForRoles(true, stranger, ["admin"]) == Redirect(HomePath)
  {
  }
}
