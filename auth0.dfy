/**
 * The role and permission helpers of the admin front end
 * (frontend/src/auth/auth0.js). A user is an ID-token profile whose
 * namespaced claims hold lists of role and permission names; a null or
 * undefined user is `None`, and a missing (or falsy) claim is a missing key.
 */
module Auth0 {
  import opened Wrappers

  const RolesClaim: string := "https://medicalfacilities.com/roles"
  const PermissionsClaim: string := "https://medicalfacilities.com/permissions"

  const SuperAdmin: string := "super-admin"
  const NurseAdmin: string := "nurse-admin"
  const Reviewer: string := "reviewer"

  /** The roles that open the admin panel. */
  const AdminRoles: seq<string> := [SuperAdmin, NurseAdmin, Reviewer]

  const NoAdminAccess: string := "No Admin Access"

  datatype User = User(claims: map<string, seq<string>>)

  /** The value of a list claim, or the empty list when the user or the claim is missing. */
  function Claim(user: Option<User>, name: string): seq<string> {
    match user
    case None => []
    case Some(u) => if name in u.claims then u.claims[name] else []
  }

  function GetUserRoles(user: Option<User>): seq<string> {
    Claim(user, RolesClaim)
  }

  function GetUserPermissions(user: Option<User>): seq<string> {
    Claim(user, PermissionsClaim)
  }

  /** `candidates.some(c => held.includes(c))`: scans the candidates left to right. */
  function AnyIncluded(candidates: seq<string>, held: seq<string>): bool {
    if candidates == [] then false
    else candidates[0] in held || AnyIncluded(candidates[1..], held)
  }

  /** The scan is true exactly when some candidate is held; in particular it is false for no candidates. */
  lemma {:induction false} AnyIncludedIff(candidates: seq<string>, held: seq<string>)
    ensures AnyIncluded(candidates, held) <==> exists c :: c in candidates && c in held
  {
    if candidates != [] {
      AnyIncludedIff(candidates[1..], held);
      assert forall c :: c in candidates <==> c == candidates[0] || c in candidates[1..];
    }
  }

  function HasRole(user: Option<User>, role: string): bool {
    role in GetUserRoles(user)
  }

  function HasPermission(user: Option<User>, permission: string): bool {
    permission in GetUserPermissions(user)
  }

  function HasAnyRole(user: Option<User>, roles: seq<string>): bool {
    AnyIncluded(roles, GetUserRoles(user))
  }

  function HasAnyPermission(user: Option<User>, permissions: seq<string>): bool {
    AnyIncluded(permissions, GetUserPermissions(user))
  }

  function CanAccessAdmin(user: Option<User>): bool {
    HasAnyRole(user, AdminRoles)
  }

  /** The highest role the user holds, for display. */
  function GetUserRoleLevel(user: Option<User>): string {
    var roles := GetUserRoles(user);
    if SuperAdmin in roles then "Super Admin"
    else if NurseAdmin in roles then "Nurse Admin"
    else if Reviewer in roles then "Reviewer"
    else NoAdminAccess
  }

  /**
   * Each claim is read on its own: a missing user, or one without the roles
   * claim, has no roles and passes no role check; likewise for permissions.
   */
  lemma MissingUserHasNothing(user: Option<User>, roles: seq<string>, permissions: seq<string>)
    ensures (user.None? || RolesClaim !in user.value.claims) ==>
              GetUserRoles(user) == [] && !HasAnyRole(user, roles) && !CanAccessAdmin(user)
    ensures (user.None? || PermissionsClaim !in user.value.claims) ==>
              GetUserPermissions(user) == [] && !HasAnyPermission(user, permissions)
  {
    AnyIncludedIff(roles, []);
    AnyIncludedIff(permissions, []);
    AnyIncludedIff(AdminRoles, []);
  }

  /** `hasAnyRole` holds iff one of the listed roles is among the user's roles; never for an empty list. */
  lemma HasAnyRoleIff(user: Option<User>, roles: seq<string>)
    ensures HasAnyRole(user, roles) <==> exists r :: r in roles && r in GetUserRoles(user)
    ensures roles == [] ==> !HasAnyRole(user, roles)
  {
    AnyIncludedIff(roles, GetUserRoles(user));
  }

  /** `hasAnyPermission` holds iff one of the listed permissions is among the user's permissions. */
  lemma HasAnyPermissionIff(user: Option<User>, permissions: seq<string>)
    ensures HasAnyPermission(user, permissions) <==> exists p :: p in permissions && p in GetUserPermissions(user)
    ensures permissions == [] ==> !HasAnyPermission(user, permissions)
  {
    AnyIncludedIff(permissions, GetUserPermissions(user));
  }

  /** Permission checks do not look at roles: replacing the roles claim changes nothing. */
  lemma PermissionsIgnoreRoles(u: User, roles: seq<string>, permissions: seq<string>)
    ensures HasAnyPermission(Some(User(u.claims[RolesClaim := roles])), permissions)
         == HasAnyPermission(Some(u), permissions)
  {
    assert GetUserPermissions(Some(User(u.claims[RolesClaim := roles]))) == GetUserPermissions(Some(u));
  }

  /** The single-item checks are the list checks on a one-element list. */
  lemma SingleChecksAreListChecks(user: Option<User>, role: string, permission: string)
    ensures HasRole(user, role) == HasAnyRole(user, [role])
    ensures HasPermission(user, permission) == HasAnyPermission(user, [permission])
  {
    HasAnyRoleIff(user, [role]);
    HasAnyPermissionIff(user, [permission]);
  }

  /** The admin panel is open exactly to holders of one of the three admin roles. */
  lemma CanAccessAdminIff(user: Option<User>)
    ensures CanAccessAdmin(user) <==>
              SuperAdmin in GetUserRoles(user) || NurseAdmin in GetUserRoles(user) || Reviewer in GetUserRoles(user)
  {
    HasAnyRoleIff(user, AdminRoles);
  }

  /**
   * The role level names the highest role held, Super Admin over Nurse Admin
   * over Reviewer, and says "No Admin Access" exactly when the admin panel is
   * closed to the user.
   */
  lemma RoleLevelIsHighestAdminRole(user: Option<User>)
    ensures var roles := GetUserRoles(user);
            && (GetUserRoleLevel(user) == "Super Admin" <==> SuperAdmin in roles)
            && (GetUserRoleLevel(user) == "Nurse Admin" <==> SuperAdmin !in roles && NurseAdmin in roles)
            && (GetUserRoleLevel(user) == "Reviewer" <==>
                  SuperAdmin !in roles && NurseAdmin !in roles && Reviewer in roles)
    ensures GetUserRoleLevel(user) != NoAdminAccess <==> CanAccessAdmin(user)
  {
    CanAccessAdminIff(user);
  }
}
