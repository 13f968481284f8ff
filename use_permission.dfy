/**
 * The permission hook: everything it returns is computed from the
 * signed-in user's role, with the checks of the permission tables
 * closed over that role.
 */
module UsePermission {
  import opened Wrappers
  import opened AuthStore
  import opened Permissions

  datatype PermissionHookResult = PermissionHookResult(
    user: Option<User>,
    role: Option<UserRole>,
    isAuthenticated: bool,
    isOwner: bool,
    isAdmin: bool,
    isStaff: bool,
    isViewer: bool,
    hasRole: UserRole -> bool,
    hasAnyRole: seq<UserRole> -> bool,
    hasRoleOrHigher: UserRole -> bool,
    can: (FeatureCategory, PermissionAction) -> bool,
    canView: FeatureCategory -> bool,
    canCreate: FeatureCategory -> bool,
    canEdit: FeatureCategory -> bool,
    canDelete: FeatureCategory -> bool,
    canApprove: FeatureCategory -> bool,
    canReject: FeatureCategory -> bool,
    canExport: FeatureCategory -> bool,
    canImport: FeatureCategory -> bool,
    canAdmin: FeatureCategory -> bool,
    canAccessRoute: string -> bool,
    isSuperUser: bool,
    canManageUsers: bool,
    canApproveUsers: bool,
    canManageProducts: bool,
    canManageOrders: bool,
    canViewReports: bool,
    canManageSettings: bool)

  /** `user?.role || null`: a role name is never empty, so this is the user's role. */
  function RoleOf(user: Option<User>): (r: Option<UserRole>)
    ensures r.Some? <==> user.Some?
    ensures user.Some? ==> r.value == user.value.role
  {
    if user.Some? then Some(user.value.role) else None
  }

  /**
   * The hook's result with the route check `routeRule`: `usePermission()`
   * closes every check over the user's role.
   */
  function HookWith(user: Option<User>, isAuthenticated: bool, routeRule: (Option<UserRole>, string) -> bool): PermissionHookResult {
    var role := RoleOf(user);
    var can := (f: FeatureCategory, a: PermissionAction) => HasPermission(role, f, a);
    var isOwner := role == Some(OWNER);
    PermissionHookResult(
      user, role, isAuthenticated,
      isOwner, role == Some(UserRole.ADMIN), role == Some(STAFF), role == Some(VIEWER),
      (required: UserRole) => role == Some(required),
      (roles: seq<UserRole>) => role.Some? && role.value in roles,
      (required: UserRole) => HasRoleLevel(role, required),
      can,
      (f: FeatureCategory) => can(f, VIEW),
      (f: FeatureCategory) => can(f, CREATE),
      (f: FeatureCategory) => can(f, EDIT),
      (f: FeatureCategory) => can(f, DELETE),
      (f: FeatureCategory) => can(f, APPROVE),
      (f: FeatureCategory) => can(f, REJECT),
      (f: FeatureCategory) => can(f, EXPORT),
      (f: FeatureCategory) => can(f, IMPORT),
      (f: FeatureCategory) => can(f, PermissionAction.ADMIN),
      (route: string) => routeRule(role, route),
      isOwner,
      can(USERS, PermissionAction.ADMIN),
      can(REGISTRATION_REQUESTS, APPROVE),
      can(PRODUCTS, PermissionAction.ADMIN),
      can(ORDERS, PermissionAction.ADMIN),
      can(REPORTS, VIEW),
      can(SETTINGS, PermissionAction.ADMIN))
  }

  /** `usePermission()`, given what the auth store holds: its route check is `canAccessRoute` as written. */
  function Hook(user: Option<User>, isAuthenticated: bool): PermissionHookResult {
    HookWith(user, isAuthenticated, CanAccessRoute)
  }

  /** The hook as it would be with the longest-prefix route check; every other field is the same. */
  function HookCorrected(user: Option<User>, isAuthenticated: bool): PermissionHookResult {
    HookWith(user, isAuthenticated, CanAccessRouteLongestPrefix)
  }

  /** Exactly one role flag holds for a signed-in user, none without one; the flags follow the user's role. */
  lemma RoleFlags(user: Option<User>, isAuthenticated: bool)
    ensures var h := Hook(user, isAuthenticated);
      h.user == user && h.isAuthenticated == isAuthenticated && h.role == RoleOf(user)
    ensures var h := Hook(user, isAuthenticated);
      user.None? ==> !h.isOwner && !h.isAdmin && !h.isStaff && !h.isViewer
    ensures var h := Hook(user, isAuthenticated);
      user.Some? ==> (if h.isOwner then 1 else 0) + (if h.isAdmin then 1 else 0)
                     + (if h.isStaff then 1 else 0) + (if h.isViewer then 1 else 0) == 1
    ensures var h := Hook(user, isAuthenticated);
      h.isOwner <==> user.Some? && user.value.role == OWNER
  {
  }

  /** `hasRole` is equality with the role; `hasAnyRole` is membership, and false without a role. */
  lemma RoleChecks(user: Option<User>, isAuthenticated: bool, r: UserRole, roles: seq<UserRole>)
    ensures Hook(user, isAuthenticated).hasRole(r) <==> user.Some? && user.value.role == r
    ensures Hook(user, isAuthenticated).hasAnyRole(roles) <==> user.Some? && user.value.role in roles
    ensures user.None? ==> !Hook(user, isAuthenticated).hasAnyRole(roles)
    ensures Hook(user, isAuthenticated).hasAnyRole([]) == false
  {
  }

  /** The closures delegate to the permission tables with the user's role. */
  lemma Delegation(user: Option<User>, isAuthenticated: bool, r: UserRole, f: FeatureCategory, a: PermissionAction, route: string)
    ensures Hook(user, isAuthenticated).hasRoleOrHigher(r) == HasRoleLevel(RoleOf(user), r)
    ensures Hook(user, isAuthenticated).can(f, a) == HasPermission(RoleOf(user), f, a)
    ensures Hook(user, isAuthenticated).canAccessRoute(route) == CanAccessRoute(RoleOf(user), route)
  {
  }

  /**
   * Through the hook, as the program runs it, a viewer may open a user's
   * page; the longest-prefix check would refuse it, and the corrected hook
   * differs from the hook in the route check alone.
   */
  lemma HookViewerReachesUserPage(user: User, isAuthenticated: bool, r: UserRole, f: FeatureCategory, a: PermissionAction, route: string)
    requires user.role == VIEWER
    ensures Hook(Some(user), isAuthenticated).canAccessRoute("/dashboard/users/123")
    ensures !HookCorrected(Some(user), isAuthenticated).canAccessRoute("/dashboard/users/123")
    ensures HookCorrected(Some(user), isAuthenticated).canAccessRoute(route) == CanAccessRouteLongestPrefix(Some(VIEWER), route)
    ensures HookCorrected(Some(user), isAuthenticated).can(f, a) == Hook(Some(user), isAuthenticated).can(f, a)
    ensures HookCorrected(Some(user), isAuthenticated).hasRoleOrHigher(r) == Hook(Some(user), isAuthenticated).hasRoleOrHigher(r)
  {
    AsWrittenViewerReachesUserPage();
    ViewerBlockedFromUserPage();
  }

  /** Each `canX` is `can` with its action fixed. */
  lemma FixedActions(user: Option<User>, isAuthenticated: bool, f: FeatureCategory)
    ensures var h := Hook(user, isAuthenticated);
      h.canView(f) == h.can(f, VIEW) && h.canCreate(f) == h.can(f, CREATE)
      && h.canEdit(f) == h.can(f, EDIT) && h.canDelete(f) == h.can(f, DELETE)
      && h.canApprove(f) == h.can(f, APPROVE) && h.canReject(f) == h.can(f, REJECT)
      && h.canExport(f) == h.can(f, EXPORT) && h.canImport(f) == h.can(f, IMPORT)
      && h.canAdmin(f) == h.can(f, PermissionAction.ADMIN)
  {
  }

  /** The quick checks, resolved against the matrix: which roles get each. */
  lemma QuickChecks(user: Option<User>, isAuthenticated: bool)
    ensures var h := Hook(user, isAuthenticated);
      h.isSuperUser == h.isOwner
    ensures var h := Hook(user, isAuthenticated);
      (h.canManageUsers <==> h.isOwner) && (h.canApproveUsers <==> h.isOwner)
      && (h.canManageSettings <==> h.isOwner)
    ensures var h := Hook(user, isAuthenticated);
      (h.canManageProducts <==> h.isOwner || h.isAdmin) && (h.canManageOrders <==> h.isOwner || h.isAdmin)
    ensures var h := Hook(user, isAuthenticated);
      h.canViewReports <==> h.isOwner || h.isAdmin || h.isStaff
  {
  }

  /** `useHasPermission(feature, action)`. */
  function UseHasPermission(user: Option<User>, f: FeatureCategory, a: PermissionAction): bool {
    HasPermission(RoleOf(user), f, a)
  }

  /** `useHasRole(requiredRole)`. */
  function UseHasRole(user: Option<User>, required: UserRole): bool {
    user.Some? && user.value.role == required
  }

  /** `useHasAnyRole(roles)`. */
  function UseHasAnyRole(user: Option<User>, roles: seq<UserRole>): bool {
    user.Some? && user.value.role in roles
  }

  /** The stand-alone hooks agree with the full hook's checks, and are false without a user. */
  lemma StandAloneHooksAgree(user: Option<User>, isAuthenticated: bool, f: FeatureCategory, a: PermissionAction,
                             r: UserRole, roles: seq<UserRole>)
    ensures UseHasPermission(user, f, a) == Hook(user, isAuthenticated).can(f, a)
    ensures UseHasRole(user, r) == Hook(user, isAuthenticated).hasRole(r)
    ensures UseHasAnyRole(user, roles) == Hook(user, isAuthenticated).hasAnyRole(roles)
    ensures user.None? ==> !UseHasPermission(user, f, a) && !UseHasRole(user, r) && !UseHasAnyRole(user, roles)
  {
  }
}
