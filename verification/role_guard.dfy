/** The role guard (src/app/guards/role.guard.ts). */
module RoleGuard {
  import opened Common
  import opened UserModel
  import Auth
  import AuthGuard

  const AdminDashboard := "/admin/dashboard"
  const HomePath := "/"

  /** The decision on one user value for a route whose data names `expectedRole`.
      It passes only a user of that role and then asks for no navigation; every
      refusal asks for exactly one: no user to the login page, an admin to the
      admin dashboard, anyone else to the home page. */
  function Decide(user: Option<User>, expectedRole: string): (d: Decision)
    ensures d.allow <==> user.Some? && RoleName(user.value.role) == expectedRole
    ensures d.allow <==> d.navigate.None?
    ensures user.None? ==> d.navigate == Some(AuthGuard.LoginPath)
    ensures user.Some? && !d.allow ==>
      d.navigate == Some(if user.value.role == Admin then AdminDashboard else HomePath)
  {
    match user
    case None => Decision(false, Some(AuthGuard.LoginPath))
    case Some(u) =>
      if RoleName(u.role) == expectedRole then Decision(true, None)
      else if RoleName(u.role) == "admin" then Decision(false, Some(AdminDashboard))
      else Decision(false, Some(HomePath))
  }

  /** `canActivate`: only the first value `currentUser$` emits is consulted; a
      stream that ends without a value gives no decision. */
  function CanActivate(emitted: seq<Option<User>>, expectedRole: string): (r: Option<Decision>)
    ensures r.Some? <==> emitted != []
    ensures emitted != [] ==> r.value == Decide(emitted[0], expectedRole)
  {
    if emitted == [] then None else Some(Decide(emitted[0], expectedRole))
  }

  /** Whatever the role guard lets through, the sign-in guard lets through too,
      and both send a missing user to the same login page. */
  lemma RoleGuardImpliesAuthGuard(user: Option<User>, expectedRole: string)
    ensures Decide(user, expectedRole).allow ==> AuthGuard.Decide(user).allow
    ensures user.None? ==> Decide(user, expectedRole) == AuthGuard.Decide(user)
  {
  }

  /** On an admin route the guard passes exactly when the service reports an admin. */
  lemma AdminRouteIffIsAdmin(auth: Auth.AuthService)
    ensures Decide(auth.current, "admin").allow == auth.IsAdmin()
  {
  }
}
