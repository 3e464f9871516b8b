/**
 * `LoginForm`: the field validators, the request sent on submit (always for the
 * WEB platform), the landing route chosen from the returned identity, and the
 * error message shown after a failed attempt.
 */
module Login {
  import opened Wrappers
  import opened Strings
  import Users

  const PLATFORM := "WEB"
  const LOGIN_FAILED := "Login failed. Please check your credentials."

  /** The form values, which are also the request body. */
  datatype LoginValues = LoginValues(identifier: string, password: string, platform: string)

  datatype LoginErrors = LoginErrors(identifier: Option<string>, password: Option<string>) {
    predicate Passed() { identifier.None? && password.None? }
  }

  function Validate(v: LoginValues): LoginErrors {
    LoginErrors(
      if |v.identifier| < 3 then Some("Username/Email is too short") else None,
      if |v.password| < 5 then Some("Password should include at least 5 characters") else None)
  }

  /** The route pushed after a successful login. */
  function LandingRoute(identity: string): string {
    if identity == Users.ADMIN then "/admin/dashboard"
    else if identity == Users.STAFF then "/staff/dashboard"
    else if identity == Users.STUDENT then "/student/profile"
    else if identity == Users.PARENT then "/parent/children"
    else "/"
  }

  /** A form passes validation exactly when the identifier has at least 3 and the password at least 5 characters. */
  lemma ValidateIff(v: LoginValues)
    ensures Validate(v).Passed() <==> |v.identifier| >= 3 && |v.password| >= 5
    ensures Validate(v).identifier.Some? <==> |v.identifier| < 3
    ensures Validate(v).password.Some? <==> |v.password| < 5
  {
  }

  /** Each known role has its own landing route; any other identity goes to `/`. */
  lemma LandingRoutesPerRole(identity: string, other: string)
    ensures identity !in {Users.ADMIN, Users.STAFF, Users.STUDENT, Users.PARENT} ==> LandingRoute(identity) == "/"
    ensures identity in {Users.ADMIN, Users.STAFF, Users.STUDENT, Users.PARENT} ==> LandingRoute(identity) != "/"
    ensures identity in {Users.ADMIN, Users.STAFF, Users.STUDENT, Users.PARENT}
            && other in {Users.ADMIN, Users.STAFF, Users.STUDENT, Users.PARENT} && identity != other
            ==> LandingRoute(identity) != LandingRoute(other)
  {
  }

  /** The message shown after a failure is never empty, and is the server's message whenever it has one. */
  lemma FailureMessageShown(message: string)
    ensures OrElse(message, LOGIN_FAILED) != ""
    ensures message != "" ==> OrElse(message, LOGIN_FAILED) == message
  {
  }

  class LoginForm {
    var values: LoginValues
    var error: Option<string>
    /** The routes pushed by the router, oldest first. */
    var navigations: seq<string>

    /** The platform field is a constant of the form. */
    ghost predicate Valid()
      reads this
    {
      values.platform == PLATFORM
    }

    constructor ()
      ensures Valid() && values == LoginValues("", "", PLATFORM)
      ensures error.None? && navigations == []
    {
      values := LoginValues("", "", PLATFORM);
      error := None;
      navigations := [];
    }

    method SetIdentifier(identifier: string)
      requires Valid()
      modifies this
      ensures Valid() && values == old(values).(identifier := identifier)
      ensures error == old(error) && navigations == old(navigations)
    {
      values := values.(identifier := identifier);
    }

    method SetPassword(password: string)
      requires Valid()
      modifies this
      ensures Valid() && values == old(values).(password := password)
      ensures error == old(error) && navigations == old(navigations)
    {
      values := values.(password := password);
    }

    /**
     * `form.onSubmit(handleSubmit)`: validation first; only a passing form clears the
     * error and sends its values, which always carry the WEB platform.
     */
    method Submit() returns (request: Option<LoginValues>)
      requires Valid()
      modifies this
      ensures Valid() && values == old(values) && navigations == old(navigations)
      ensures Validate(values).Passed() ==> request == Some(values) && error.None?
      ensures !Validate(values).Passed() ==> request.None? && error == old(error)
      ensures request.Some? ==> request.value.platform == PLATFORM
                                && |request.value.identifier| >= 3 && |request.value.password| >= 5
    {
      if !Validate(values).Passed() {
        return None;
      }
      error := None;
      request := Some(values);
    }

    method OnSuccess(response: Users.UserProfile)
      modifies this
      ensures values == old(values) && error == old(error)
      ensures navigations == old(navigations) + [LandingRoute(response.identity)]
    {
      navigations := navigations + [LandingRoute(response.identity)];
    }

    method OnError(message: string)
      modifies this
      ensures values == old(values) && navigations == old(navigations)
      ensures error == Some(OrElse(message, LOGIN_FAILED))
    {
      error := Some(OrElse(message, LOGIN_FAILED));
    }
  }
}
