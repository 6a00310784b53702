/** The predicates a user record answers: permissions by name, the validity
    of an invitation link and of a password-reset code, and whether the
    account may log in. The current time is a parameter: the UTC instant
    `datetime.utcnow()` reads, in seconds. */
module UserModel {

  import opened Wrappers
  import opened Strings
  import opened Models

  /** The four roles with review rights. */
  predicate IsStaff(role: Role)
  {
    role == Manager || role == Hr || role == Finance || role == Admin
  }

  /** `has_permission`: a fixed map from permission name to condition;
      names outside the map are refused. */
  function HasPermission(u: User, permission: string): (ok: bool)
    ensures permission == "claim_expense" ==> (ok <==> u.canClaimExpenses && u.isActive)
    ensures permission == "approve_expense" || permission == "view_all_expenses" || permission == "view_reports" ==>
      (ok <==> IsStaff(u.role))
    ensures permission == "manage_users" ==> (ok <==> u.role == Admin)
    ensures permission !in ["claim_expense", "approve_expense", "view_all_expenses", "manage_users", "view_reports"] ==> !ok
  {
    var staff := u.role in [Manager, Hr, Finance, Admin];
    var permissionMap := map[
      "claim_expense" := u.canClaimExpenses && u.isActive,
      "approve_expense" := staff,
      "view_all_expenses" := staff,
      "manage_users" := u.role == Admin,
      "view_reports" := staff];
    if permission in permissionMap then permissionMap[permission] else false
  }

  /** Managing users implies every staff permission; an employee has none of
      them; only claiming depends on the account flags. */
  lemma PermissionsNest(u: User)
    ensures HasPermission(u, "manage_users") ==> HasPermission(u, "approve_expense")
    ensures HasPermission(u, "approve_expense") == HasPermission(u, "view_all_expenses") == HasPermission(u, "view_reports")
    ensures u.role == Employee ==> !HasPermission(u, "approve_expense") && !HasPermission(u, "manage_users")
    ensures forall p :: p != "claim_expense" ==> HasPermission(u, p) == HasPermission(u.(isActive := !u.isActive), p)
  {
  }

  /** `is_invitation_valid` */
  function IsInvitationValid(u: User, now: int): (ok: bool)
    ensures ok <==> Given(u.invitationToken) && u.invitationExpiresAt.Some? && u.invitationExpiresAt.value > now
    ensures u.invitationExpiresAt.Some? && now >= u.invitationExpiresAt.value ==> !ok
  {
    if !Given(u.invitationToken) then false
    else if u.invitationExpiresAt.None? then false
    else u.invitationExpiresAt.value > now
  }

  /** `is_reset_token_valid` */
  function IsResetTokenValid(u: User, now: int): (ok: bool)
    ensures ok <==> Given(u.resetToken) && u.resetTokenExpiresAt.Some? && u.resetTokenExpiresAt.value > now
    ensures u.resetTokenExpiresAt.Some? && now >= u.resetTokenExpiresAt.value ==> !ok
  {
    if !Given(u.resetToken) then false
    else if u.resetTokenExpiresAt.None? then false
    else u.resetTokenExpiresAt.value > now
  }

  /** Expiry is final: a token valid now was valid at every earlier instant,
      and one invalid now stays invalid. */
  lemma ExpiryIsFinal(u: User, earlier: int, later: int)
    requires earlier <= later
    ensures IsInvitationValid(u, later) ==> IsInvitationValid(u, earlier)
    ensures IsResetTokenValid(u, later) ==> IsResetTokenValid(u, earlier)
  {
  }

  /** `can_login` */
  function CanLogin(u: User): (ok: bool)
    ensures ok <==> u.isActive && u.isPasswordSet && u.accountStatus == "active"
    ensures u.accountStatus == "pending_setup" || u.accountStatus == "suspended" ==> !ok
  {
    u.isActive && u.isPasswordSet && u.accountStatus == "active"
  }
}
