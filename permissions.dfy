/**
 * Role-based access control: a constant matrix from feature and action
 * to the roles allowed, a table from dashboard route to roles, and the
 * lookups over them.
 */
module Permissions {
  import opened Wrappers
  import opened Text
  import opened Seqs
  import opened AuthStore

  datatype PermissionAction = VIEW | CREATE | EDIT | DELETE | APPROVE | REJECT | EXPORT | IMPORT | ADMIN
  datatype FeatureCategory = DASHBOARD | USERS | REGISTRATION_REQUESTS | PRODUCTS | ORDERS | REPORTS | SETTINGS

  /** The matrix's keys, in the order they are declared. */
  const Features: seq<FeatureCategory> :=
    [DASHBOARD, USERS, REGISTRATION_REQUESTS, PRODUCTS, ORDERS, REPORTS, SETTINGS]
  const Actions: seq<PermissionAction> :=
    [VIEW, CREATE, EDIT, DELETE, APPROVE, REJECT, EXPORT, IMPORT, PermissionAction.ADMIN]

  const All: seq<UserRole> := [OWNER, UserRole.ADMIN, STAFF, VIEWER]
  const Managers: seq<UserRole> := [OWNER, UserRole.ADMIN]
  const Workers: seq<UserRole> := [OWNER, UserRole.ADMIN, STAFF]
  const OwnerOnly: seq<UserRole> := [OWNER]

  /** `PERMISSION_MATRIX[feature][action]`. */
  function MatrixCell(f: FeatureCategory, a: PermissionAction): seq<UserRole> {
    match f
    case DASHBOARD =>
      (match a case VIEW => All case EXPORT => Managers case _ => [])
    case USERS =>
      (match a case APPROVE => [] case REJECT => [] case _ => OwnerOnly)
    case REGISTRATION_REQUESTS =>
      (match a case CREATE => [] case EDIT => [] case DELETE => [] case _ => OwnerOnly)
    case PRODUCTS =>
      (match a
       case VIEW => All case CREATE => Workers case EDIT => Workers
       case APPROVE => [] case REJECT => [] case _ => Managers)
    case ORDERS =>
      (match a
       case VIEW => All case CREATE => Workers case EDIT => Workers
       case IMPORT => [] case _ => Managers)
    case REPORTS =>
      (match a case VIEW => Workers case EXPORT => Managers case ADMIN => OwnerOnly case _ => [])
    case SETTINGS =>
      (match a case VIEW => Managers case EDIT => OwnerOnly case ADMIN => OwnerOnly case _ => [])
  }

  /** `ROUTE_PERMISSIONS`, its keys in declaration order. */
  const Routes: seq<(string, seq<UserRole>)> := [
    ("/dashboard", All),
    ("/dashboard/users", OwnerOnly),
    ("/dashboard/registration-requests", OwnerOnly),
    ("/dashboard/products", All),
    ("/dashboard/orders", All),
    ("/dashboard/reports", Workers),
    ("/dashboard/settings", Managers)
  ]

  /** `ROLE_LEVELS`. */
  function Level(r: UserRole): nat {
    match r
    case VIEWER => 1
    case STAFF => 2
    case ADMIN => 3
    case OWNER => 4
  }

  // ---------------------------------------------------------------------
  // hasPermission

  /** `hasPermission(userRole, feature, action)`: a null role has none. */
  predicate HasPermission(role: Option<UserRole>, f: FeatureCategory, a: PermissionAction) {
    role.Some? && role.value in MatrixCell(f, a)
  }

  /** OWNER is in every non-empty cell, and a null role is in none. */
  lemma MatrixOwnerEverywhere(f: FeatureCategory, a: PermissionAction)
    ensures MatrixCell(f, a) != [] ==> HasPermission(Some(OWNER), f, a)
    ensures HasPermission(None, f, a) == false
  {
  }

  /** USERS and REGISTRATION_REQUESTS are the owner's alone. */
  lemma OwnerOnlyFeatures(r: UserRole, a: PermissionAction)
    ensures HasPermission(Some(r), USERS, a) ==> r == OWNER
    ensures HasPermission(Some(r), REGISTRATION_REQUESTS, a) ==> r == OWNER
  {
  }

  /** The matrix is upward-closed: whatever a role may do, a role of higher level may do too. */
  lemma MatrixUpwardClosed(r: UserRole, s: UserRole, f: FeatureCategory, a: PermissionAction)
    requires Level(r) <= Level(s)
    ensures HasPermission(Some(r), f, a) ==> HasPermission(Some(s), f, a)
  {
  }

  // ---------------------------------------------------------------------
  // canAccessRoute, as written

  /** The entry whose key is exactly `route`. */
  function ExactRoute(route: string): (r: Option<nat>)
    ensures r.Some? ==> r.value < |Routes| && Routes[r.value].0 == route
    ensures r.None? ==> forall k :: 0 <= k < |Routes| ==> Routes[k].0 != route
  {
    FirstIndex(Routes, (e: (string, seq<UserRole>)) => e.0 == route)
  }

  /** `Object.keys(ROUTE_PERMISSIONS).find(r => route.startsWith(r))`. */
  function FirstPrefixRoute(route: string): (r: Option<nat>)
    ensures r.Some? ==> r.value < |Routes| && StartsWith(route, Routes[r.value].0)
    ensures r.Some? ==> forall k :: 0 <= k < r.value ==> !StartsWith(route, Routes[k].0)
    ensures r.None? ==> forall k :: 0 <= k < |Routes| ==> !StartsWith(route, Routes[k].0)
  {
    FirstIndex(Routes, (e: (string, seq<UserRole>)) => StartsWith(route, e.0))
  }

  /** `canAccessRoute(userRole, route)` as the source writes it. */
  predicate CanAccessRoute(role: Option<UserRole>, route: string) {
    if role.None? then false
    else match ExactRoute(route)
      case Some(i) => role.value in Routes[i].1
      case None =>
        match FirstPrefixRoute(route)
        case Some(i) => role.value in Routes[i].1
        case None => false
  }

  /** "/dashboard" comes first and is a prefix of every dashboard path. */
  lemma DashboardFirst(route: string)
    requires StartsWith(route, "/dashboard")
    ensures FirstPrefixRoute(route) == Some(0)
  {
    FirstIndexAt(Routes, (e: (string, seq<UserRole>)) => StartsWith(route, e.0), 0);
  }

  /**
   * As written, any dashboard path that is not itself a key is decided
   * by the "/dashboard" entry, so a viewer reaches a user's page under
   * the owner-only "/dashboard/users".
   */
  lemma AsWrittenViewerReachesUserPage()
    ensures CanAccessRoute(Some(VIEWER), "/dashboard/users/123")
  {
    var route := "/dashboard/users/123";
    assert route[..|"/dashboard"|] == "/dashboard";
    DashboardFirst(route);
    assert ExactRoute(route).None? by {
      forall k | 0 <= k < |Routes| ensures Routes[k].0 != route {
        assert |Routes[k].0| != |route|;
      }
    }
  }

  /** The as-written rule, in general: a non-key dashboard path is open to every role. */
  lemma AsWrittenDashboardPathsOpen(r: UserRole, route: string)
    requires StartsWith(route, "/dashboard")
    requires forall k :: 0 <= k < |Routes| ==> Routes[k].0 != route
    ensures CanAccessRoute(Some(r), route)
  {
    DashboardFirst(route);
  }

  // ---------------------------------------------------------------------
  // canAccessRoute, corrected: the most specific (longest) key decides

  /** Among the keys `route` starts with, the index of the longest one. */
  function LongestPrefixRoute(route: string): (r: Option<nat>)
    ensures r.Some? ==> r.value < |Routes| && StartsWith(route, Routes[r.value].0)
    ensures r.Some? ==> forall k :: 0 <= k < |Routes| && StartsWith(route, Routes[k].0) ==> |Routes[k].0| <= |Routes[r.value].0|
    ensures r.None? ==> forall k :: 0 <= k < |Routes| ==> !StartsWith(route, Routes[k].0)
  {
    LongestFrom(route, |Routes|)
  }

  function LongestFrom(route: string, n: nat): (r: Option<nat>)
    requires n <= |Routes|
    ensures r.Some? ==> r.value < n && StartsWith(route, Routes[r.value].0)
    ensures r.Some? ==> forall k :: 0 <= k < n && StartsWith(route, Routes[k].0) ==> |Routes[k].0| <= |Routes[r.value].0|
    ensures r.None? ==> forall k :: 0 <= k < n ==> !StartsWith(route, Routes[k].0)
  {
    if n == 0 then None
    else
      var rest := LongestFrom(route, n - 1);
      if !StartsWith(route, Routes[n - 1].0) then rest
      else if rest.Some? && |Routes[n - 1].0| <= |Routes[rest.value].0| then rest
      else Some(n - 1)
  }

  /** The route check with the most specific key deciding; the exact key is the longest prefix when there is one. */
  predicate CanAccessRouteLongestPrefix(role: Option<UserRole>, route: string) {
    if role.None? then false
    else match LongestPrefixRoute(route)
      case Some(i) => role.value in Routes[i].1
      case None => false
  }

  /** Two prefixes of one string, the shorter is a prefix of the longer. */
  lemma PrefixOfPrefix(s: string, p: string, q: string)
    requires StartsWith(s, p) && StartsWith(s, q) && |p| <= |q|
    ensures StartsWith(q, p)
  {
    assert q[..|p|] == s[..|q|][..|p|];
  }

  /** Only "/dashboard/users" among the keys of its length or more has a 'u' after "/dashboard/". */
  lemma OnlyUsersKey(j: nat)
    requires j < |Routes| && 16 <= |Routes[j].0| && Routes[j].0[11] == 'u'
    ensures j == 1
  {
  }

  /** Every path under "/dashboard/users" is the owner's, whatever follows. */
  lemma UserPagesOwnerOnly(r: UserRole, rest: string)
    ensures CanAccessRouteLongestPrefix(Some(r), "/dashboard/users" + rest) ==> r == OWNER
  {
    var route := "/dashboard/users" + rest;
    assert StartsWith(route, Routes[1].0) by { assert route[..16] == "/dashboard/users"; }
    var i := LongestPrefixRoute(route).value;
    assert 16 <= |Routes[i].0|;
    PrefixOfPrefix(route, Routes[1].0, Routes[i].0);
    assert Routes[i].0[..16] == "/dashboard/users";
    assert Routes[i].0[11] == Routes[i].0[..16][11];
    OnlyUsersKey(i);
  }

  /** So a viewer does not reach "/dashboard/users/123" under the corrected rule. */
  lemma ViewerBlockedFromUserPage()
    ensures !CanAccessRouteLongestPrefix(Some(VIEWER), "/dashboard/users/123")
  {
    assert "/dashboard/users/123" == "/dashboard/users" + "/123";
    UserPagesOwnerOnly(VIEWER, "/123");
  }

  /** The corrected rule still decides a key by its own entry, which is what the source's exact match does. */
  lemma ExactKeyDecides(role: Option<UserRole>, i: nat)
    requires i < |Routes|
    ensures CanAccessRouteLongestPrefix(role, Routes[i].0) == CanAccessRoute(role, Routes[i].0)
    ensures CanAccessRouteLongestPrefix(role, Routes[i].0) <==> role.Some? && role.value in Routes[i].1
  {
    var route := Routes[i].0;
    assert StartsWith(route, route) by { assert route[..|route|] == route; }
    var l := LongestPrefixRoute(route).value;
    assert |Routes[l].0| == |route|;
    assert Routes[l].0 == route by { assert route[..|Routes[l].0|] == route; }
  }

  /** Both rules deny a null role and a path under no key, and every route list is upward-closed. */
  lemma RoutesUpwardClosed(r: UserRole, s: UserRole, route: string)
    requires Level(r) <= Level(s)
    ensures CanAccessRouteLongestPrefix(Some(r), route) ==> CanAccessRouteLongestPrefix(Some(s), route)
    ensures CanAccessRoute(Some(r), route) ==> CanAccessRoute(Some(s), route)
    ensures !CanAccessRouteLongestPrefix(None, route) && !CanAccessRoute(None, route)
    ensures FirstPrefixRoute(route).None? ==> !CanAccessRouteLongestPrefix(Some(r), route) && !CanAccessRoute(Some(r), route)
  {
    forall k | 0 <= k < |Routes|
      ensures r in Routes[k].1 ==> s in Routes[k].1
    {
    }
  }

  // ---------------------------------------------------------------------
  // getRolePermissions

  datatype FeaturePermissions = FeaturePermissions(feature: FeatureCategory, actions: seq<PermissionAction>)

  /** Both key lists name every constructor. */
  lemma EveryKeyListed(f: FeatureCategory, a: PermissionAction)
    ensures f in Features && a in Actions
  {
  }

  /** A viewer may only view. */
  lemma ViewerOnlyViews(f: FeatureCategory, a: PermissionAction)
    ensures HasPermission(Some(VIEWER), f, a) ==> a == VIEW
  {
  }

  /** The actions of `f` granted to `role`, in declaration order. */
  function ActionsFor(role: UserRole, f: FeatureCategory): seq<PermissionAction> {
    Filter(Actions, (a: PermissionAction) => HasPermission(Some(role), f, a))
  }

  /** `getRolePermissions(role)`. */
  function RolePermissions(role: UserRole): (r: seq<FeaturePermissions>)
    ensures |r| == |Features|
    ensures forall k :: 0 <= k < |r| ==> r[k] == FeaturePermissions(Features[k], ActionsFor(role, Features[k]))
  {
    seq(|Features|, k requires 0 <= k < |Features| => FeaturePermissions(Features[k], ActionsFor(role, Features[k])))
  }

  /** One entry per feature in declaration order, listing an action iff the role has it there. */
  lemma RolePermissionsListsGranted(role: UserRole, k: nat, a: PermissionAction)
    requires k < |Features|
    ensures RolePermissions(role)[k].feature == Features[k]
    ensures a in RolePermissions(role)[k].actions <==> HasPermission(Some(role), Features[k], a)
  {
    EveryKeyListed(Features[k], a);
  }

  /** The owner has every action of every feature whose cell is non-empty, and a viewer's lists hold only VIEW. */
  lemma RolePermissionsExtremes(k: nat, a: PermissionAction)
    requires k < |Features|
    ensures MatrixCell(Features[k], a) != [] ==> a in RolePermissions(OWNER)[k].actions
    ensures a in RolePermissions(VIEWER)[k].actions ==> a == VIEW
  {
    RolePermissionsListsGranted(OWNER, k, a);
    RolePermissionsListsGranted(VIEWER, k, a);
    MatrixOwnerEverywhere(Features[k], a);
    ViewerOnlyViews(Features[k], a);
  }

  // ---------------------------------------------------------------------
  // hasRoleLevel

  /** `hasRoleLevel(userRole, requiredRole)`. */
  predicate HasRoleLevel(role: Option<UserRole>, required: UserRole) {
    role.Some? && Level(role.value) >= Level(required)
  }

  /** The levels give a total order: reflexive, transitive, and equal levels only for equal roles. */
  lemma RoleLevelOrder(a: UserRole, b: UserRole, c: UserRole)
    ensures HasRoleLevel(Some(a), a)
    ensures HasRoleLevel(Some(a), b) && HasRoleLevel(Some(b), c) ==> HasRoleLevel(Some(a), c)
    ensures HasRoleLevel(Some(a), b) || HasRoleLevel(Some(b), a)
    ensures HasRoleLevel(Some(a), b) && HasRoleLevel(Some(b), a) ==> a == b
    ensures !HasRoleLevel(None, a)
    ensures HasRoleLevel(Some(a), OWNER) <==> a == OWNER
  {
  }
}
