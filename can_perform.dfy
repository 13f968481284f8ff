/**
 * The conditional-render component: the first criterion given decides
 * whether the children or the fallback are rendered.
 */
module CanPerform {
  import opened Wrappers
  import opened AuthStore
  import opened Permissions
  import UsePermission

  /** The component's props; `children` and `fallback` are whatever nodes the caller passes. */
  datatype Props<T> = Props(
    children: T,
    fallback: Option<T>,
    feature: Option<FeatureCategory>,
    action: Option<PermissionAction>,
    requiredRole: Option<UserRole>,
    requiredRoles: Option<seq<UserRole>>,
    when: Option<bool>)

  /** Which criterion decides, in the order the component tries them. */
  datatype Criterion = FeatureAndAction | RequiredRole | RequiredRoles | When | NoCriteria

  function Deciding<T>(p: Props<T>): (c: Criterion)
    ensures c == FeatureAndAction <==> p.feature.Some? && p.action.Some?
    ensures c == NoCriteria <==>
      (p.feature.None? || p.action.None?) && p.requiredRole.None?
      && (p.requiredRoles.None? || p.requiredRoles.value == []) && p.when.None?
  {
    if p.feature.Some? && p.action.Some? then FeatureAndAction
    else if p.requiredRole.Some? then RequiredRole
    else if p.requiredRoles.Some? && |p.requiredRoles.value| > 0 then RequiredRoles
    else if p.when.Some? then When
    else NoCriteria
  }

  /** The `canPerform` flag, for the signed-in `user`. */
  predicate Allowed<T>(user: Option<User>, p: Props<T>) {
    var h := UsePermission.Hook(user, user.Some?);
    if p.feature.Some? && p.action.Some? then h.can(p.feature.value, p.action.value)
    else if p.requiredRole.Some? then h.hasRole(p.requiredRole.value)
    else if p.requiredRoles.Some? && |p.requiredRoles.value| > 0 then h.hasAnyRole(p.requiredRoles.value)
    else if p.when.Some? then p.when.value
    else true
  }

  /** What the component renders: the children iff allowed, else the fallback (by default nothing). */
  function Render<T>(user: Option<User>, p: Props<T>): (r: Option<T>)
    ensures Allowed(user, p) ==> r == Some(p.children)
    ensures !Allowed(user, p) ==> r == p.fallback
  {
    if Allowed(user, p) then Some(p.children) else p.fallback
  }

  /** The deciding criterion alone settles the flag, each by its own check on the user's role. */
  lemma FirstCriterionDecides<T>(user: Option<User>, p: Props<T>)
    ensures Deciding(p) == FeatureAndAction ==>
      (Allowed(user, p) <==> HasPermission(UsePermission.RoleOf(user), p.feature.value, p.action.value))
    ensures Deciding(p) == RequiredRole ==>
      (Allowed(user, p) <==> user.Some? && user.value.role == p.requiredRole.value)
    ensures Deciding(p) == RequiredRoles ==>
      (Allowed(user, p) <==> user.Some? && user.value.role in p.requiredRoles.value)
    ensures Deciding(p) == When ==> (Allowed(user, p) <==> p.when.value)
    ensures Deciding(p) == NoCriteria ==> Allowed(user, p)
  {
  }

  /** A feature without an action, or an empty role list, is ignored: the next criterion decides. */
  lemma IgnoredCriteria<T>(user: Option<User>, p: Props<T>)
    ensures p.action.None? ==> Allowed(user, p) == Allowed(user, p.(feature := None))
    ensures p.requiredRoles == Some([]) ==> Allowed(user, p) == Allowed(user, p.(requiredRoles := None))
  {
  }

  /** Without a user, only `when` or the fail-open default can allow. */
  lemma SignedOutDenied<T>(p: Props<T>)
    ensures Allowed(None, p) ==> Deciding(p) == When || Deciding(p) == NoCriteria
  {
  }

  function WithAction<T>(f: FeatureCategory, a: PermissionAction, children: T, fallback: Option<T>): Props<T> {
    Props(children, fallback, Some(f), Some(a), None, None, None)
  }

  /** `CanView`, `CanEdit`, `CanDelete`, `CanCreate`. */
  function CanView<T>(user: Option<User>, f: FeatureCategory, children: T, fallback: Option<T>): Option<T> {
    Render(user, WithAction(f, VIEW, children, fallback))
  }

  function CanEdit<T>(user: Option<User>, f: FeatureCategory, children: T, fallback: Option<T>): Option<T> {
    Render(user, WithAction(f, EDIT, children, fallback))
  }

  function CanDelete<T>(user: Option<User>, f: FeatureCategory, children: T, fallback: Option<T>): Option<T> {
    Render(user, WithAction(f, DELETE, children, fallback))
  }

  function CanCreate<T>(user: Option<User>, f: FeatureCategory, children: T, fallback: Option<T>): Option<T> {
    Render(user, WithAction(f, CREATE, children, fallback))
  }

  /** `IsOwner`: `requiredRole` OWNER. */
  function IsOwner<T>(user: Option<User>, children: T, fallback: Option<T>): Option<T> {
    Render(user, Props(children, fallback, None, None, Some(OWNER), None, None))
  }

  /** `IsAdmin`: `requiredRoles` [OWNER, ADMIN]. */
  function IsAdmin<T>(user: Option<User>, children: T, fallback: Option<T>): Option<T> {
    Render(user, Props(children, fallback, None, None, None, Some([OWNER, UserRole.ADMIN]), None))
  }

  /** Each shorthand renders its children exactly when the user's role passes its fixed check. */
  lemma Shorthands<T>(user: Option<User>, f: FeatureCategory, children: T, fallback: Option<T>)
    ensures var role := UsePermission.RoleOf(user);
      CanView(user, f, children, fallback) == (if HasPermission(role, f, VIEW) then Some(children) else fallback)
    ensures var role := UsePermission.RoleOf(user);
      CanEdit(user, f, children, fallback) == (if HasPermission(role, f, EDIT) then Some(children) else fallback)
    ensures var role := UsePermission.RoleOf(user);
      CanDelete(user, f, children, fallback) == (if HasPermission(role, f, DELETE) then Some(children) else fallback)
    ensures var role := UsePermission.RoleOf(user);
      CanCreate(user, f, children, fallback) == (if HasPermission(role, f, CREATE) then Some(children) else fallback)
    ensures IsOwner(user, children, fallback) ==
      (if user.Some? && user.value.role == OWNER then Some(children) else fallback)
    ensures IsAdmin(user, children, fallback) ==
      (if user.Some? && HasRoleLevel(Some(user.value.role), UserRole.ADMIN) then Some(children) else fallback)
  {
  }
}
