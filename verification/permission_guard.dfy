/** `PermissionGuard`: what the guard renders for the signed-in user and a required permission. */
module PermissionGuard {
  import opened Wrappers
  import Permissions
  import Users

  datatype GuardView =
    | RenderNothing
    | AccessDenied(requiredPermission: string)
    | RenderChildren

  /** Loading and no user render nothing; a refusal shows the required permission; otherwise the children. */
  function Guard(isLoading: bool, user: Option<Users.User>, requiredPermission: string): GuardView {
    if isLoading then RenderNothing
    else if user.None? then RenderNothing
    else if !Permissions.HasPermission(user.value.Permissions(), requiredPermission) then AccessDenied(requiredPermission)
    else RenderChildren
  }

  /** The children appear exactly when loading is over, a user is present, and the list grants the permission. */
  lemma GuardChildrenIff(isLoading: bool, user: Option<Users.User>, requiredPermission: string)
    ensures Guard(isLoading, user, requiredPermission) == RenderChildren
            <==> !isLoading && user.Some? && user.value.Permissions().Some?
                 && Permissions.Grants(user.value.Permissions().value, requiredPermission)
    ensures Guard(isLoading, user, requiredPermission).AccessDenied?
            ==> Guard(isLoading, user, requiredPermission).requiredPermission == requiredPermission
  {
    if user.Some? {
      Permissions.HasPermissionIff(user.value.Permissions(), requiredPermission);
    }
  }

  /** Unlike the sidebar, the guard has no ADMIN bypass: an admin without a permission list is refused. */
  lemma NoAdminBypass(profile: Users.UserProfile, name: string, requiredPermission: string)
    requires profile.identity == Users.ADMIN && profile.permissions.None?
    ensures Guard(false, Some(Users.User(profile, name)), requiredPermission) == AccessDenied(requiredPermission)
  {
  }
}
