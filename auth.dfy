/**
 * The role checks of `src/hooks/useAuth.ts` and `src/lib/api/auth.ts`:
 * three roles ordered admin above accounting above staff, the permission
 * test every screen guard uses, and what the `withAuth` wrapper renders.
 */
module Auth {
  import opened Wrappers
  import opened AppStore

  /** A rank per role: admin 3, accounting 2, staff 1. */
  function Rank(r: Role): nat {
    match r
    case Admin => 3
    case Accounting => 2
    case Staff => 1
  }

  /** useAuth.ts lines 162-175: no user, no permission; otherwise the switch on the required role. */
  predicate HasPermission(user: Option<User>, required: Role) {
    if user.None? then false
    else match required
      case Admin => user.value.role == Admin
      case Accounting => user.value.role == Admin || user.value.role == Accounting
      case Staff => user.value.role == Admin || user.value.role == Accounting || user.value.role == Staff
  }

  /** A user has a permission exactly when their role ranks at least as high as the one required. */
  lemma PermissionIsRank(user: Option<User>, required: Role)
    ensures HasPermission(user, required) <==> user.Some? && Rank(user.value.role) >= Rank(required)
  {
  }

  /** Permission for a role implies permission for every role ranked below it. */
  lemma PermissionMonotone(user: Option<User>, higher: Role, lower: Role)
    requires Rank(lower) <= Rank(higher)
    requires HasPermission(user, higher)
    ensures HasPermission(user, lower)
  {
    PermissionIsRank(user, higher);
    PermissionIsRank(user, lower);
  }

  /** Every signed-in user has staff permission; only admins have admin permission. */
  lemma PermissionExtremes(user: Option<User>)
    ensures HasPermission(user, Staff) <==> user.Some?
    ensures HasPermission(user, Admin) <==> user.Some? && user.value.role == Admin
  {
  }

  /** useAuth.ts line 179: `user?.role === 'admin'` */
  predicate IsAdmin(user: Option<User>) {
    user.Some? && user.value.role == Admin
  }

  /** useAuth.ts lines 183-185 */
  predicate HasAccountingPermission(user: Option<User>) {
    user.Some? && (user.value.role == Admin || user.value.role == Accounting)
  }

  /** useAuth.ts lines 188-190 */
  predicate HasStaffPermission(user: Option<User>) {
    user.Some? && (user.value.role == Admin || user.value.role == Accounting || user.value.role == Staff)
  }

  /** auth.ts lines 218-224: the role test against the role stored for a user id. */
  predicate CheckUserRole(storedRole: Role, required: Role) {
    if required == Admin then storedRole == Admin
    else if required == Accounting then storedRole == Admin || storedRole == Accounting
    else storedRole == Admin || storedRole == Accounting || storedRole == Staff
  }

  /** The three shortcuts agree with `hasPermission`, and the server-side check agrees with both. */
  lemma ShortcutsAgree(user: Option<User>, required: Role)
    ensures IsAdmin(user) == HasPermission(user, Admin)
    ensures HasAccountingPermission(user) == HasPermission(user, Accounting)
    ensures HasStaffPermission(user) == HasPermission(user, Staff)
    ensures user.Some? ==> CheckUserRole(user.value.role, required) == HasPermission(user, required)
  {
  }

  /** useAuth.ts lines 290-302: what the wrapped component renders. */
  datatype Rendered = Nothing | Component

  function WithAuth(loading: bool, isAuthenticated: bool, user: Option<User>, required: Option<Role>): (r: Rendered)
    ensures r == Component <==>
      !loading && isAuthenticated && (required.None? || HasPermission(user, required.value))
  {
    if loading then Nothing
    else if !isAuthenticated then Nothing
    else if required.Some? && !HasPermission(user, required.value) then Nothing
    else Component
  }

  /** A page guarded by a role also opens for every user ranked above that role. */
  lemma GuardOpensUpward(user: Option<User>, required: Role, lower: Role)
    requires Rank(lower) <= Rank(required)
    requires WithAuth(false, true, user, Some(required)) == Component
    ensures WithAuth(false, true, user, Some(lower)) == Component
  {
    PermissionMonotone(user, required, lower);
  }
}
