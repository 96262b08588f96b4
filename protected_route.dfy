/**
 * The route guard (src/components/ProtectedRoute.tsx): what the guard
 * renders for the authentication flag, the profile role, the required
 * role and the optional fallback. `F` is the fallback's type; a fallback
 * that is absent or falsy is `None`.
 */
module ProtectedRoute {
  import opened Wrappers
  import opened Auth

  datatype Outcome<F> = RedirectToAuth | ShowFallback(fallback: F) | AccessDenied | RenderChildren

  /** `requiredRole = 'user'`. */
  function RequiredRoleOf(requiredRole: Option<string>): string {
    requiredRole.GetOr("user")
  }

  /** `authUser?.profile?.role || 'guest'`. */
  function UserRoleOf(profileRole: Option<string>): string {
    if TruthyString(profileRole) then profileRole.value else "guest"
  }

  function Decide<F>(isAuthenticated: bool, profileRole: Option<string>, requiredRole: Option<string>, fallback: Option<F>): Outcome<F> {
    if !isAuthenticated && !TruthyString(profileRole) then RedirectToAuth
    else
      var userRole := UserRoleOf(profileRole);
      if !HasPermission(userRole, RequiredRoleOf(requiredRole)) then
        if fallback.Some? then ShowFallback(fallback.value)
        else if userRole == "guest" then RedirectToAuth
        else AccessDenied
      else RenderChildren
  }

  /** Signed out and without a role: back to /auth, whatever is required and whatever the fallback. */
  lemma SignedOutRedirects<F>(profileRole: Option<string>, requiredRole: Option<string>, fallback: Option<F>)
    requires !TruthyString(profileRole)
    ensures Decide(false, profileRole, requiredRole, fallback) == RedirectToAuth
  {
  }

  /** Once past the sign-in check, the children are rendered exactly when the role is permitted. */
  lemma RendersChildrenIffPermitted<F>(isAuthenticated: bool, profileRole: Option<string>, requiredRole: Option<string>, fallback: Option<F>)
    requires isAuthenticated || TruthyString(profileRole)
    ensures Decide(isAuthenticated, profileRole, requiredRole, fallback) == RenderChildren
      <==> HasPermission(UserRoleOf(profileRole), RequiredRoleOf(requiredRole))
  {
  }

  /**
   * Without permission the fallback wins if there is one; otherwise a
   * guest is sent to /auth and any other role sees the denial.
   */
  lemma DeniedOutcome<F>(isAuthenticated: bool, profileRole: Option<string>, requiredRole: Option<string>, fallback: Option<F>)
    requires isAuthenticated || TruthyString(profileRole)
    requires !HasPermission(UserRoleOf(profileRole), RequiredRoleOf(requiredRole))
    ensures fallback.Some? ==> Decide(isAuthenticated, profileRole, requiredRole, fallback) == ShowFallback(fallback.value)
    ensures fallback.None? && UserRoleOf(profileRole) == "guest" ==> Decide(isAuthenticated, profileRole, requiredRole, fallback) == RedirectToAuth
    ensures fallback.None? && UserRoleOf(profileRole) != "guest" ==> Decide(isAuthenticated, profileRole, requiredRole, fallback) == AccessDenied
  {
  }

  /**
   * A missing required role means 'user', and an authenticated user with
   * no (or an empty) profile role is judged as 'guest', so with the
   * defaults such a user is sent to /auth.
   */
  lemma Defaults<F>(profileRole: Option<string>, requiredRole: Option<string>, fallback: Option<F>)
    ensures Decide(true, profileRole, None, fallback) == Decide(true, profileRole, Some("user"), fallback)
    ensures !TruthyString(profileRole) ==> Decide(true, profileRole, requiredRole, fallback) == Decide(true, Some("guest"), requiredRole, fallback)
    ensures Decide<F>(true, None, None, None) == RedirectToAuth
    ensures Decide(true, Some("admin"), requiredRole, fallback) == RenderChildren
  {
    RoleLevels("guest");
    AdminAndGuest(RequiredRoleOf(requiredRole));
  }
}
