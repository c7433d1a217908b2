/** The two guards the resolvers call before touching the tables. The caller is whatever the
    request context carries: no one, or an identity with an id and a role. */
module Auth {
  import opened Common
  import opened UserModel

  /** The identity in the request context: the id the resolvers read as `user.userId`, and the role. */
  datatype Caller = Caller(userId: Id, role: string)

  /** Lets any identified caller through. */
  function RequireAuth(caller: Option<Caller>): (r: Outcome)
    ensures r.Fail? <==> caller.None?
    ensures r.Fail? ==> r.error == NotLoggedIn
  {
    if caller.None? then Fail(NotLoggedIn) else Pass
  }

  /** Runs RequireAuth first, then lets only the "admin" role through. */
  function RequireAdmin(caller: Option<Caller>): (r: Outcome)
    ensures r.Pass? <==> caller.Some? && caller.value.role == AdminRole
    ensures caller.None? ==> r == Fail(NotLoggedIn)
    ensures caller.Some? && caller.value.role != AdminRole ==> r == Fail(AdminRequired)
  {
    match RequireAuth(caller)
    case Fail(e) => Fail(e)
    case Pass => if caller.value.role != AdminRole then Fail(AdminRequired) else Pass
  }

  /** Whoever passes the admin guard passes the login guard. */
  lemma AdminImpliesAuth(caller: Option<Caller>)
    ensures RequireAdmin(caller).Pass? ==> RequireAuth(caller).Pass?
  {
  }
}
