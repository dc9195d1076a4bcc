/** The password-reset screen: its submit clears the previous error, rejects mismatched
    passwords before short ones, and only then calls the reset endpoint with the token from
    the link; success shows a confirmation and schedules the move to the login screen. */
module ResetPassword {
  import opened Js
  import Api

  const MismatchMessage := "Passwords do not match"
  const TooShortMessage := "Password must be at least 6 characters long"
  const ResetFailedMessage := "Failed to reset password. Please try again."
  const MinLength: nat := 6
  const RedirectDelayMs: nat := 3000

  /** The checks before the call, in order: equality first, then length. */
  function CheckPasswords(password: string, confirmPassword: string): (r: Option<string>)
    ensures password != confirmPassword ==> r == Some(MismatchMessage)
    ensures password == confirmPassword && |password| < MinLength ==> r == Some(TooShortMessage)
    ensures r == None <==> password == confirmPassword && |password| >= MinLength
  {
    if password != confirmPassword then Some(MismatchMessage)
    else if |password| < MinLength then Some(TooShortMessage)
    else None
  }

  /** A mismatch is reported whatever the lengths: a short, mismatched pair never gets the
      length message. */
  lemma MismatchWinsOverLength(password: string, confirmPassword: string)
    requires password != confirmPassword && |password| < MinLength && |confirmPassword| < MinLength
    ensures CheckPasswords(password, confirmPassword) == Some(MismatchMessage)
  {
  }

  class ResetPasswordPage {
    const token: string
    var password: string
    var confirmPassword: string
    var error: Value
    var success: bool
    var loading: bool
    /** Delays and targets of the scheduled `navigate` calls. */
    var redirects: seq<(nat, string)>

    constructor (token: string)
      ensures this.token == token && password == "" && confirmPassword == ""
      ensures error == Str("") && !success && !loading && redirects == []
    {
      this.token := token;
      password, confirmPassword, error, success, loading, redirects := "", "", Str(""), false, false, [];
    }

    method SetPassword(value: string)
      modifies this
      ensures password == value && confirmPassword == old(confirmPassword)
      ensures error == old(error) && success == old(success) && loading == old(loading) && redirects == old(redirects)
    {
      password := value;
    }

    method SetConfirmPassword(value: string)
      modifies this
      ensures confirmPassword == value && password == old(password)
      ensures error == old(error) && success == old(success) && loading == old(loading) && redirects == old(redirects)
    {
      confirmPassword := value;
    }

    /** The error is cleared; a failed check sets its message and stops; otherwise loading
        is set and the reset call made. */
    method BeginSubmit() returns (request: Option<Api.Request>)
      modifies this
      ensures request.None? <==> CheckPasswords(password, confirmPassword).Some?
      ensures request.None? ==> error == Str(CheckPasswords(password, confirmPassword).value) && loading == old(loading)
      ensures request.Some? ==> error == Str("") && loading &&
                                request.value == Api.ResetPassword(token, Str(password))
      ensures password == old(password) && confirmPassword == old(confirmPassword)
      ensures success == old(success) && redirects == old(redirects)
    {
      error := Str("");
      var problem := CheckPasswords(password, confirmPassword);
      if problem.Some? {
        error := Str(problem.value);
        request := None;
        return;
      }
      loading := true;
      request := Some(Api.ResetPassword(token, Str(password)));
    }

    /** After the call: success and a 3-second redirect to the login screen, or the server's
        message (else the default text); loading off either way. */
    method FinishSubmit(outcome: Api.Response)
      modifies this
      ensures !loading
      ensures success == (outcome.Ok? || old(success))
      ensures redirects == old(redirects) + (if outcome.Ok? then [(RedirectDelayMs, "/login")] else [])
      ensures error == if outcome.Ok? then old(error) else Api.FailureText(outcome.message, ResetFailedMessage)
      ensures password == old(password) && confirmPassword == old(confirmPassword)
    {
      if outcome.Ok? {
        success := true;
        redirects := redirects + [(RedirectDelayMs, "/login")];
      } else {
        error := Api.FailureText(outcome.message, ResetFailedMessage);
      }
      loading := false;
    }
  }

  /** A whole submit on a fresh page: the reset endpoint is reached only with matching
      passwords of at least six characters, and then loading ends off and `success` tells
      whether the call succeeded. */
  method SubmitOnce(token: string, password: string, confirmPassword: string, outcome: Api.Response)
    returns (called: bool, success: bool, loading: bool, error: Value)
    ensures called <==> password == confirmPassword && |password| >= MinLength
    ensures !loading
    ensures success <==> called && outcome.Ok?
    ensures !called ==> error == Str(CheckPasswords(password, confirmPassword).value)
    ensures called && outcome.Err? ==> error == Api.FailureText(outcome.message, ResetFailedMessage)
    ensures called && outcome.Ok? ==> error == Str("")
  {
    var page := new ResetPasswordPage(token);
    page.SetPassword(password);
    page.SetConfirmPassword(confirmPassword);
    var request := page.BeginSubmit();
    called := request.Some?;
    if called {
      page.FinishSubmit(outcome);
    }
    success, loading, error := page.success, page.loading, page.error;
  }
}
