/**
 * `RoleShell`: the role-gated application shell. It shows a loader until it has
 * mounted and the user query has settled, redirects to `/login` when there is no
 * user, and otherwise renders the shell only for the exact required role.
 */
module RoleShell {
  import opened Wrappers
  import Users

  const LOGIN := "/login"
  const GUEST := "Guest"

  datatype ShellView =
    | Loader
    | AccessDenied(expected: string, actual: string)
    | Shell(user: Users.User)

  /** The render decision. */
  function View(mounted: bool, isLoading: bool, user: Option<Users.User>, requiredRole: string): ShellView {
    if !mounted || isLoading then Loader
    else if user.None? || user.value.Identity() != requiredRole then
      AccessDenied(requiredRole, if user.Some? && user.value.Identity() != "" then user.value.Identity() else GUEST)
    else Shell(user.value)
  }

  /** The redirect effect: where it navigates, if anywhere. A role mismatch does not navigate. */
  function RedirectTarget(mounted: bool, isLoading: bool, user: Option<Users.User>): Option<string> {
    if mounted && !isLoading && user.None? then Some(LOGIN) else None
  }

  class RoleShellState {
    var mounted: bool
    /** The routes pushed by the redirect effect, oldest first. */
    var navigations: seq<string>

    constructor ()
      ensures !mounted && navigations == []
    {
      mounted := false;
      navigations := [];
    }

    /** The mount effect sets `mounted` once. */
    method MountEffect()
      modifies this
      ensures mounted && navigations == old(navigations)
    {
      mounted := true;
    }

    /** One run of the redirect effect. */
    method RedirectEffect(user: Option<Users.User>, isLoading: bool)
      modifies this
      ensures mounted == old(mounted)
      ensures navigations == old(navigations)
                             + (if RedirectTarget(mounted, isLoading, user).Some?
                                then [RedirectTarget(mounted, isLoading, user).value] else [])
    {
      if !mounted {
        return;
      }
      if !isLoading && user.None? {
        navigations := navigations + [LOGIN];
      }
    }

    function Render(isLoading: bool, user: Option<Users.User>, requiredRole: string): ShellView
      reads this
    {
      View(mounted, isLoading, user, requiredRole)
    }
  }

  /** The shell, with the user, is rendered exactly for a mounted, loaded user of the required identity. */
  lemma ShellOnlyForExactRole(mounted: bool, isLoading: bool, user: Option<Users.User>, requiredRole: string)
    ensures View(mounted, isLoading, user, requiredRole).Shell?
            <==> mounted && !isLoading && user.Some? && user.value.Identity() == requiredRole
    ensures View(mounted, isLoading, user, requiredRole).Shell?
            ==> View(mounted, isLoading, user, requiredRole).user == user.value
  {
  }

  /** A loaded user of another identity sees both roles and is not redirected. */
  lemma MismatchShowsRolesWithoutRedirect(user: Users.User, requiredRole: string)
    requires user.Identity() != requiredRole && user.Identity() != ""
    ensures View(true, false, Some(user), requiredRole) == AccessDenied(requiredRole, user.Identity())
    ensures RedirectTarget(true, false, Some(user)).None?
  {
  }

  /** Once loaded with no user, the effect sends the visitor to the login page. */
  lemma NoUserRedirectsToLogin(requiredRole: string)
    ensures RedirectTarget(true, false, None) == Some(LOGIN)
    ensures View(true, false, None, requiredRole) == AccessDenied(requiredRole, GUEST)
  {
  }

  /** Before mount or while loading, only the loader shows and nothing navigates. */
  lemma LoaderFirst(mounted: bool, isLoading: bool, user: Option<Users.User>, requiredRole: string)
    requires !mounted || isLoading
    ensures View(mounted, isLoading, user, requiredRole) == Loader
    ensures RedirectTarget(mounted, isLoading, user).None?
  {
  }
}
