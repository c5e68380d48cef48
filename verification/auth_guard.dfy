/** The sign-in guard (src/app/core/guards/auth.guard.ts). */
module AuthGuard {
  import opened Common
  import opened UserModel
  import Auth

  const LoginPath := "/auth/login"

  /** The decision on one user value: any signed-in user passes, whatever the
      role; otherwise the one redirect is to the login page. */
  function Decide(user: Option<User>): (d: Decision)
    ensures d.allow <==> user.Some?
    ensures d.allow ==> d.navigate == None
    ensures !d.allow ==> d.navigate == Some(LoginPath)
  {
    if user.Some? then Decision(true, None) else Decision(false, Some(LoginPath))
  }

  /** `canActivate`: only the first value `currentUser$` emits is consulted; a
      stream that ends without a value gives no decision. */
  function CanActivate(emitted: seq<Option<User>>): (r: Option<Decision>)
    ensures r.Some? <==> emitted != []
    ensures emitted != [] ==> r.value == Decide(emitted[0])
  {
    if emitted == [] then None else Some(Decide(emitted[0]))
  }

  /** The guard passes exactly when the service reports a signed-in user. */
  lemma AllowsIffAuthenticated(auth: Auth.AuthService)
    ensures Decide(auth.current).allow == auth.IsAuthenticated()
  {
  }
}
