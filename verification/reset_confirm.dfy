/**
 * The password-reset confirmation page: the token read from the query string,
 * the two validators, the guarded submission and the choice of view.
 */
module ResetConfirm {
  import opened Wrappers

  datatype ResetValues = ResetValues(newPassword: string, confirmPassword: string)

  datatype ResetErrors = ResetErrors(newPassword: Option<string>, confirmPassword: Option<string>) {
    predicate Passed() { newPassword.None? && confirmPassword.None? }
  }

  function Validate(v: ResetValues): ResetErrors {
    ResetErrors(
      if |v.newPassword| < 8 then Some("Password must be at least 8 characters") else None,
      if v.confirmPassword != v.newPassword then Some("Passwords do not match") else None)
  }

  /** JavaScript truthiness of the `token` state (`null` and `""` are falsy). */
  predicate HasToken(token: Option<string>) {
    token.Some? && token.value != ""
  }

  /** The body of the confirm-reset call. */
  datatype ConfirmRequest = ConfirmRequest(token: string, newPassword: string)

  /** `handleSubmit`: does nothing without a token, otherwise sends it with the new password. */
  function HandleSubmit(token: Option<string>, v: ResetValues): (request: Option<ConfirmRequest>)
    ensures request.Some? <==> HasToken(token)
    ensures request.Some? ==> request.value.token == token.value && request.value.newPassword == v.newPassword
  {
    if !HasToken(token) then None else Some(ConfirmRequest(token.value, v.newPassword))
  }

  /** The form's submit: validation first, then `handleSubmit`. */
  function Submit(token: Option<string>, v: ResetValues): Option<ConfirmRequest> {
    if Validate(v).Passed() then HandleSubmit(token, v) else None
  }

  /**
   * A request leaves exactly when a non-empty token is present, the new password has
   * 8+ characters and the confirmation matches; it carries the token and new password.
   */
  lemma SubmitIff(token: Option<string>, v: ResetValues)
    ensures Submit(token, v).Some?
            <==> HasToken(token) && |v.newPassword| >= 8 && v.confirmPassword == v.newPassword
    ensures Submit(token, v).Some? ==> Submit(token, v).value == ConfirmRequest(token.value, v.newPassword)
  {
  }

  datatype ResetView = InvalidLink | ResetDone | ResetForm

  /** Which screen is drawn: a missing token wins over a completed reset. */
  function View(token: Option<string>, isSuccess: bool): (view: ResetView)
    ensures view == InvalidLink <==> !HasToken(token)
    ensures view == ResetDone <==> HasToken(token) && isSuccess
  {
    if !HasToken(token) then InvalidLink
    else if isSuccess then ResetDone
    else ResetForm
  }

  /** The form is only on screen when a submission from it would reach the server (given valid input). */
  lemma FormImpliesTokenSent(token: Option<string>, isSuccess: bool, v: ResetValues)
    requires View(token, isSuccess) == ResetForm
    requires Validate(v).Passed()
    ensures Submit(token, v) == Some(ConfirmRequest(token.value, v.newPassword))
  {
  }
}
