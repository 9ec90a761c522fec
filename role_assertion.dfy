/**
 * Role guards: a guard built from a list of role names admits a request whose context holds
 * a user with one of those roles.
 */
module RoleAssertion {
  import opened Wrappers
  import opened Errors
  import opened Schema

  const NoPermission: AppError :=
    HttpException(Forbidden, "You do not have permission to access this resource")

  /** requireRole(...roles): no user is 401, checked first; a role outside the list is 403. */
  function RequireRole(roles: seq<string>, user: Option<User>): (r: Result<(), AppError>)
    ensures user.None? ==> r == Err(PleaseAuthenticate)
    ensures user.Some? ==> (r.Ok? <==> RoleName(user.value.role) in roles)
    ensures user.Some? && r.Err? ==> r.error == NoPermission
  {
    if user.None? then Err(PleaseAuthenticate)
    else if RoleName(user.value.role) !in roles then Err(NoPermission)
    else Ok(())
  }

  /** requireAdmin admits exactly administrators. */
  function RequireAdmin(user: Option<User>): (r: Result<(), AppError>)
    ensures r.Ok? <==> user.Some? && user.value.role == AdminRole
    ensures user.Some? && user.value.role != AdminRole ==> r == Err(NoPermission)
  {
    RequireRole(["admin"], user)
  }

  /** requireUser admits both roles, so every authenticated user. */
  function RequireUser(user: Option<User>): (r: Result<(), AppError>)
    ensures r.Ok? <==> user.Some? && user.value.role in {UserRole, AdminRole}
    ensures r.Ok? <==> user.Some?
  {
    RequireRole(["user", "admin"], user)
  }

  /** Whoever passes the administrator guard passes the user guard. */
  lemma AdminPassesUserGuard(user: Option<User>)
    requires RequireAdmin(user).Ok?
    ensures RequireUser(user).Ok?
  {
  }
}
