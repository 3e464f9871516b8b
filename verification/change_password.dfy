/**
 * The change-password page: the strength meter (four 25-point tests), its colour
 * band, the requirement checklist, the field validators, and the
 * `success` / `error` state around a submission.
 */
module ChangePassword {
  import opened Wrappers
  import opened Strings

  const CHANGE_FAILED := "Failed to change password. Please try again."

  /** One line of the checklist under the new-password field. */
  datatype Requirement = Requirement(caption: string, meets: bool)

  /** `requirements`: the four tests the checklist shows. */
  function Requirements(password: string): seq<Requirement> {
    [ Requirement("At least 8 characters", |password| >= 8),
      Requirement("Contains lowercase letter", HasLower(password)),
      Requirement("Contains uppercase letter", HasUpper(password)),
      Requirement("Contains number or special character", HasDigit(password) || HasNonAlnum(password)) ]
  }

  /** How many requirements are met. */
  function MetCount(rs: seq<Requirement>): (n: nat)
    ensures n <= |rs|
  {
    if rs == [] then 0 else (if rs[0].meets then 1 else 0) + MetCount(rs[1..])
  }

  /** Unfolds the count over a four-line checklist. */
  lemma MetCountOfFour(rs: seq<Requirement>)
    requires |rs| == 4
    ensures MetCount(rs) == (if rs[0].meets then 1 else 0) + (if rs[1].meets then 1 else 0)
                            + (if rs[2].meets then 1 else 0) + (if rs[3].meets then 1 else 0)
  {
    var r1 := rs[1..];
    var r2 := r1[1..];
    var r3 := r2[1..];
    assert r3[1..] == [];
    assert MetCount(r3) == (if rs[3].meets then 1 else 0);
    assert MetCount(r2) == (if rs[2].meets then 1 else 0) + MetCount(r3);
    assert MetCount(r1) == (if rs[1].meets then 1 else 0) + MetCount(r2);
  }

  /** `getPasswordStrength`: 25 points per test passed, accumulated one test at a time. */
  method PasswordStrength(password: string) returns (strength: int)
    ensures strength == 25 * MetCount(Requirements(password))
  {
    strength := 0;
    if |password| >= 8 {
      strength := strength + 25;
    }
    if HasLower(password) {
      strength := strength + 25;
    }
    if HasUpper(password) {
      strength := strength + 25;
    }
    if HasDigit(password) || HasNonAlnum(password) {
      strength := strength + 25;
    }
    MetCountOfFour(Requirements(password));
  }

  /** `getStrengthColor`. */
  function StrengthColor(strength: int): string {
    if strength < 50 then "red" else if strength < 75 then "yellow" else "green"
  }

  /** The strength is always one of 0, 25, 50, 75 and 100. */
  lemma StrengthIsQuarterStep(password: string)
    ensures 25 * MetCount(Requirements(password)) in {0, 25, 50, 75, 100}
  {
    MetCountOfFour(Requirements(password));
  }

  /** Red for fewer than two requirements met, yellow for exactly two, green for three or four. */
  lemma ColorFollowsRequirements(password: string)
    ensures var met := MetCount(Requirements(password));
            StrengthColor(25 * met) == (if met < 2 then "red" else if met == 2 then "yellow" else "green")
  {
  }

  /** An empty password meets nothing; one with 8+ characters, a lower, an upper and a digit meets all four. */
  lemma StrengthExtremes(password: string)
    ensures password == "" ==> MetCount(Requirements(password)) == 0
    ensures |password| >= 8 && HasLower(password) && HasUpper(password) && HasDigit(password)
            ==> MetCount(Requirements(password)) == 4
  {
    MetCountOfFour(Requirements(password));
  }

  datatype PasswordValues = PasswordValues(currentPassword: string, newPassword: string, confirmPassword: string)

  const INITIAL := PasswordValues("", "", "")

  datatype PasswordErrors = PasswordErrors(
    currentPassword: Option<string>,
    newPassword: Option<string>,
    confirmPassword: Option<string>)
  {
    predicate Passed() { currentPassword.None? && newPassword.None? && confirmPassword.None? }
  }

  function Validate(v: PasswordValues): PasswordErrors {
    PasswordErrors(
      if v.currentPassword == "" then Some("Current password is required") else None,
      if |v.newPassword| < 8 then Some("Password must be at least 8 characters") else None,
      if v.confirmPassword != v.newPassword then Some("Passwords do not match") else None)
  }

  /** A form passes exactly when the current password is given, the new one has 8+ characters, and the confirmation matches. */
  lemma ValidateIff(v: PasswordValues)
    ensures Validate(v).Passed()
            <==> v.currentPassword != "" && |v.newPassword| >= 8 && v.confirmPassword == v.newPassword
  {
  }

  /** The body of the change-password call: the confirmation is not sent. */
  datatype ChangeRequest = ChangeRequest(currentPassword: string, newPassword: string)

  class ChangePasswordPage {
    var values: PasswordValues
    var success: bool
    var error: Option<string>

    constructor ()
      ensures values == INITIAL && !success && error.None?
    {
      values := INITIAL;
      success := false;
      error := None;
    }

    method Edit(v: PasswordValues)
      modifies this
      ensures values == v && success == old(success) && error == old(error)
    {
      values := v;
    }

    /** A passing form clears both flags and sends the current and new password. */
    method Submit() returns (request: Option<ChangeRequest>)
      modifies this
      ensures values == old(values)
      ensures Validate(values).Passed()
              ==> request == Some(ChangeRequest(values.currentPassword, values.newPassword))
                  && !success && error.None?
      ensures !Validate(values).Passed()
              ==> request.None? && success == old(success) && error == old(error)
    {
      if !Validate(values).Passed() {
        return None;
      }
      success := false;
      error := None;
      request := Some(ChangeRequest(values.currentPassword, values.newPassword));
    }

    /** Success sets the flag and resets the form. */
    method OnSuccess()
      modifies this
      ensures success && values == INITIAL && error == old(error)
    {
      success := true;
      values := INITIAL;
    }

    /** Failure shows the server's message, or the fixed fallback when it has none. */
    method OnError(message: string)
      modifies this
      ensures error == Some(OrElse(message, CHANGE_FAILED)) && error.value != ""
      ensures success == old(success) && values == old(values)
    {
      error := Some(OrElse(message, CHANGE_FAILED));
    }
  }
}
