/**
 * The password-reset page (frontend/src/pages/ResetPassword.jsx): three
 * ordered checks before anything is sent, then the message the page shows
 * for the server's answer.
 */
module ResetPasswordPage {
  import opened Wrappers
  import opened Js

  /** `!token`: the query parameter is absent (`null`) or empty. */
  predicate TokenMissing(token: Option<string>) {
    token.None? || token.value == ""
  }

  const InvalidLink: string := "Invalid reset link. Please request a new password reset."
  const TooShort: string := "Password must be at least 8 characters"
  const Mismatch: string := "Passwords do not match."
  const ResetDone: string := "Password reset successful! Redirecting to login..."
  const ResetFailed: string := "Failed to reset password. Please try again."

  /** The checks of `handleSubmit`, in order: the first that fails names the error. */
  function FirstError(token: Option<string>, password: string, confirmPassword: string): (r: Option<string>)
    ensures TokenMissing(token) ==> r == Some(InvalidLink)
    ensures !TokenMissing(token) && Utf16Length(password) < 8 ==> r == Some(TooShort)
    ensures !TokenMissing(token) && Utf16Length(password) >= 8 && password != confirmPassword ==> r == Some(Mismatch)
    ensures r.None? <==> !TokenMissing(token) && Utf16Length(password) >= 8 && password == confirmPassword
  {
    if TokenMissing(token) then Some(InvalidLink)
    else if Utf16Length(password) < 8 then Some(TooShort)
    else if password != confirmPassword then Some(Mismatch)
    else None
  }

  /**
   * The length check counts UTF-16 code units: eight code points always
   * pass it, fewer than four never do, and in between it depends on how many
   * lie outside the Basic Multilingual Plane.
   */
  lemma LengthCheckBounds(token: Option<string>, password: string, confirmPassword: string)
    requires !TokenMissing(token)
    ensures |password| >= 8 ==> FirstError(token, password, confirmPassword) != Some(TooShort)
    ensures |password| < 4 ==> FirstError(token, password, confirmPassword) == Some(TooShort)
  {
  }

  datatype Message = Message(text: string, isError: bool)

  datatype Page = Page(password: string, confirmPassword: string, message: Message, loading: bool)

  /** The request body `{ password, token }`. */
  datatype ResetRequest = ResetRequest(password: string, token: string)

  /** How the request ended: success, or an error with the server's and the client's messages ('' when absent). */
  datatype Response = Succeeded | Failed(serverMessage: string, errorMessage: string)

  /** `err.response?.data?.message || err.message || default`. */
  function FailureText(serverMessage: string, errorMessage: string): (r: string)
    ensures r != ""
    ensures serverMessage != "" ==> r == serverMessage
    ensures serverMessage == "" && errorMessage != "" ==> r == errorMessage
    ensures serverMessage == "" && errorMessage == "" ==> r == ResetFailed
  {
    if serverMessage != "" then serverMessage
    else if errorMessage != "" then errorMessage
    else ResetFailed
  }

  /** The first thing `handleSubmit` does: clear the message. */
  function ClearMessage(p: Page): (r: Page)
    ensures r.message == Message("", false)
    ensures r.(message := p.message) == p
  {
    p.(message := Message("", false))
  }

  datatype Submitted = Submitted(page: Page, sent: Option<ResetRequest>)

  /**
   * `handleSubmit`: after clearing the message, a failed check shows its
   * error and sends nothing (loading untouched); otherwise the request is
   * sent and the page ends with loading off and the outcome's message.
   */
  function HandleSubmit(p: Page, token: Option<string>, response: Response): (r: Submitted)
    ensures r.sent.Some? <==> FirstError(token, p.password, p.confirmPassword).None?
    ensures r.sent.Some? ==> r.sent.value == ResetRequest(p.password, token.value)
    ensures r.page.password == p.password && r.page.confirmPassword == p.confirmPassword
    ensures r.sent.None? ==>
      r.page.message == Message(FirstError(token, p.password, p.confirmPassword).value, true) && r.page.loading == p.loading
    ensures r.sent.Some? ==> !r.page.loading
    ensures r.sent.Some? && response.Succeeded? ==> r.page.message == Message(ResetDone, false)
    ensures r.sent.Some? && response.Failed? ==>
      r.page.message == Message(FailureText(response.serverMessage, response.errorMessage), true)
    ensures r.page.message.text != ""
  {
    var cleared := ClearMessage(p);
    match FirstError(token, p.password, p.confirmPassword)
    case Some(error) => Submitted(cleared.(message := Message(error, true)), None)
    case None =>
      var request := ResetRequest(p.password, token.value);
      var shown := match response
        case Succeeded => Message(ResetDone, false)
        case Failed(serverMessage, errorMessage) => Message(FailureText(serverMessage, errorMessage), true);
      Submitted(cleared.(message := shown, loading := false), Some(request))
  }

  /** `disabled={loading || !token}`. */
  function SubmitDisabled(loading: bool, token: Option<string>): (r: bool)
    ensures r <==> loading || TokenMissing(token)
  {
    loading || TokenMissing(token)
  }
}
