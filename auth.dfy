/**
 * The role hierarchy check of the security API (src/lib/auth.ts):
 * a user role is permitted for a required role when its position in
 * guest < user < premium < admin is at least the required one's, a role
 * outside the list having position -1.
 */
module Auth {

  const RoleHierarchy: seq<string> := ["guest", "user", "premium", "admin"]

  /** `s.indexOf(x)`: the first position of `x` in `s`, or -1. */
  function IndexOf(s: seq<string>, x: string): (i: int)
    ensures -1 <= i < |s|
    ensures i >= 0 ==> s[i] == x && forall j :: 0 <= j < i ==> s[j] != x
    ensures i == -1 <==> x !in s
    decreases |s|
  {
    if s == [] then -1
    else if s[0] == x then 0
    else
      var k := IndexOf(s[1..], x);
      if k == -1 then -1 else k + 1
  }

  function RoleLevel(role: string): int {
    IndexOf(RoleHierarchy, role)
  }

  predicate KnownRole(role: string) {
    role in RoleHierarchy
  }

  /** `hasPermission(userRole, requiredRole)`. */
  predicate HasPermission(userRole: string, requiredRole: string) {
    RoleLevel(userRole) >= RoleLevel(requiredRole)
  }

  /** The four roles sit at positions 0 to 3; every other string at -1. */
  lemma RoleLevels(role: string)
    ensures RoleLevel("guest") == 0 && RoleLevel("user") == 1
    ensures RoleLevel("premium") == 2 && RoleLevel("admin") == 3
    ensures KnownRole(role) <==> RoleLevel(role) >= 0
    ensures KnownRole(role) <==> role == "guest" || role == "user" || role == "premium" || role == "admin"
  {
    assert RoleHierarchy[0] == "guest" && RoleHierarchy[1] == "user";
    assert RoleHierarchy[2] == "premium" && RoleHierarchy[3] == "admin";
  }

  /** Every role is permitted for itself. */
  lemma PermissionReflexive(role: string)
    ensures HasPermission(role, role)
  {
  }

  /** admin is permitted for every role; guest only for guest among the known ones. */
  lemma AdminAndGuest(role: string)
    ensures HasPermission("admin", role)
    ensures KnownRole(role) ==> (HasPermission("guest", role) <==> role == "guest")
  {
    RoleLevels(role);
  }

  /** A role at or above a permitted role is permitted too. */
  lemma PermissionMonotone(a: string, b: string, required: string)
    requires HasPermission(a, required)
    requires RoleLevel(a) <= RoleLevel(b)
    ensures HasPermission(b, required)
  {
  }

  /** An unknown required role admits everyone; an unknown user role is denied every known role. */
  lemma UnknownRoles(userRole: string, requiredRole: string)
    ensures !KnownRole(requiredRole) ==> HasPermission(userRole, requiredRole)
    ensures !KnownRole(userRole) && KnownRole(requiredRole) ==> !HasPermission(userRole, requiredRole)
  {
    RoleLevels(userRole);
    RoleLevels(requiredRole);
  }

  /** Between two known roles the check is a total order: one direction always holds, both only for equal roles. */
  lemma PermissionTotalOrder(a: string, b: string)
    requires KnownRole(a) && KnownRole(b)
    ensures HasPermission(a, b) || HasPermission(b, a)
    ensures HasPermission(a, b) && HasPermission(b, a) ==> a == b
  {
    RoleLevels(a);
    RoleLevels(b);
  }
}
