/**
 The forgot-password form's submit handler. The e-mail validator is an
 uninterpreted predicate; the reset request's answer is an input.
 */
module ForgotPassword {
  import opened Common

  datatype ResetRequest = ResetRequest(email: string, redirectTo: string)

  /** The request sent (if any), the final `loading` and `emailSent`, and the toast. */
  datatype SubmitOutcome = SubmitOutcome(
    request: Option<ResetRequest>,
    loading: bool,
    emailSent: bool,
    toast: Toast)

  const ResetPath: string := "/reset-password"
  const InvalidEmail: string := "Invalid email address"

  /** `${window.location.origin}/reset-password` */
  function RedirectUrl(origin: string): (url: string)
    ensures origin <= url && url[|origin|..] == ResetPath
  {
    origin + ResetPath
  }

  /** `handleSubmit`: an invalid address shows the validation message and
      sends nothing; a valid one asks for a reset link and sets `emailSent`
      only when the answer has no error. Loading ends on every path. */
  function HandleSubmit(email: string, origin: string, isValidEmail: string -> bool,
                        resetError: Option<string>, emailSent: bool): (o: SubmitOutcome)
    ensures !o.loading
    ensures o.request.Some? <==> isValidEmail(email)
    ensures o.request.Some? ==> o.request.value == ResetRequest(email, RedirectUrl(origin))
    ensures !isValidEmail(email) ==>
              o.emailSent == emailSent && o.toast == Toast("Validation Error", InvalidEmail, true)
    ensures o.emailSent != emailSent ==> o.emailSent && o.request.Some? && resetError.None?
    ensures o.request.Some? && resetError.None? ==> o.emailSent && !o.toast.destructive
    ensures o.request.Some? && resetError.Some? ==>
              o.emailSent == emailSent && o.toast == Toast("Error", resetError.value, true)
  {
    if !isValidEmail(email) then
      SubmitOutcome(None, false, emailSent, Toast("Validation Error", InvalidEmail, true))
    else
      var req := ResetRequest(email, RedirectUrl(origin));
      match resetError
      case Some(msg) => SubmitOutcome(Some(req), false, emailSent, Toast("Error", msg, true))
      case None =>
        SubmitOutcome(Some(req), false, true,
                      Toast("Email sent!", "Check your email for the password reset link.", false))
  }

  /** One submission: the address typed and the reset request's error, if any. */
  datatype Attempt = Attempt(email: string, resetError: Option<string>)

  /** `emailSent` after a series of submissions starting from `emailSent`. */
  function SentAfter(origin: string, isValidEmail: string -> bool, emailSent: bool,
                     attempts: seq<Attempt>): bool
    decreases |attempts|
  {
    if |attempts| == 0 then emailSent
    else
      var o := HandleSubmit(attempts[0].email, origin, isValidEmail, attempts[0].resetError, emailSent);
      SentAfter(origin, isValidEmail, o.emailSent, attempts[1..])
  }

  /** Once sent, always sent; and starting from the fresh form, the page reaches
      the "check your email" state exactly when some submission had a valid
      address and a reset request without error. */
  lemma {:induction false} SentAfterSubmissions(origin: string, isValidEmail: string -> bool,
                                                emailSent: bool, attempts: seq<Attempt>)
    ensures emailSent ==> SentAfter(origin, isValidEmail, emailSent, attempts)
    ensures SentAfter(origin, isValidEmail, emailSent, attempts) <==>
              emailSent || exists i :: 0 <= i < |attempts| && isValidEmail(attempts[i].email)
                                                         && attempts[i].resetError.None?
    decreases |attempts|
  {
    if |attempts| > 0 {
      var a := attempts[0];
      var o := HandleSubmit(a.email, origin, isValidEmail, a.resetError, emailSent);
      SentAfterSubmissions(origin, isValidEmail, o.emailSent, attempts[1..]);
      if exists i :: 0 <= i < |attempts| && isValidEmail(attempts[i].email) && attempts[i].resetError.None? {
        var i :| 0 <= i < |attempts| && isValidEmail(attempts[i].email) && attempts[i].resetError.None?;
        if i > 0 {
          assert attempts[1..][i - 1] == attempts[i];
        }
      }
      if exists j :: 0 <= j < |attempts[1..]| && isValidEmail(attempts[1..][j].email)
                                              && attempts[1..][j].resetError.None? {
        var j :| 0 <= j < |attempts[1..]| && isValidEmail(attempts[1..][j].email)
                                          && attempts[1..][j].resetError.None?;
        assert attempts[j + 1] == attempts[1..][j];
      }
    }
  }
}
