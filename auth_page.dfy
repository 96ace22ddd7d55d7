/** The sign-in page: an email step that requests a one-time code and a
    code step that verifies it. */
module AuthPage {
  import opened Common
  import opened Tables

  datatype Step = EmailStep | OtpStep

  datatype AuthView = RedirectHome | EmailForm | OtpForm

  /** The page shown: a signed-in user is always sent to `/`. */
  function View(user: Option<User>, step: Step): (r: AuthView)
    ensures user.Some? <==> r == RedirectHome
    ensures user.None? ==> (r == EmailForm <==> step == EmailStep)
  {
    if user.Some? then RedirectHome
    else match step
      case EmailStep => EmailForm
      case OtpStep => OtpForm
  }

  /** `if (result.error)`: only a non-empty message counts as an error. */
  predicate IsError(result: Option<string>) {
    result.Some? && result.value != ""
  }

  /** The code the page asks the provider to verify. */
  datatype VerifyRequest = VerifyRequest(email: string, token: string)

  class SignInForm {
    var email: string
    var otp: string
    var step: Step
    var loading: bool
    var error: string
    /** The successive values the handlers give `loading`. */
    ghost var loadingTrace: seq<bool>

    constructor ()
      ensures email == "" && otp == "" && step == EmailStep && !loading && error == ""
      ensures loadingTrace == []
    {
      email := "";
      otp := "";
      step := EmailStep;
      loading := false;
      error := "";
      loadingTrace := [];
    }

    method TypeEmail(text: string)
      modifies this
      ensures email == text
      ensures otp == old(otp) && step == old(step) && loading == old(loading) && error == old(error)
      ensures loadingTrace == old(loadingTrace)
    {
      email := text;
    }

    method TypeCode(text: string)
      modifies this
      ensures otp == text
      ensures email == old(email) && step == old(step) && loading == old(loading) && error == old(error)
      ensures loadingTrace == old(loadingTrace)
    {
      otp := text;
    }

    /** `handleEmailSubmit`, given what `signIn(email)` resolved to: the
        error is cleared and loading set for the request; afterwards an
        error keeps the email step with the message shown, anything else
        moves to the code step; loading ends false either way. */
    method EmailSubmit(signInResult: Option<string>)
      modifies this
      ensures !loading && loadingTrace == old(loadingTrace) + [true, false]
      ensures IsError(signInResult) ==> step == old(step) && error == signInResult.value
      ensures !IsError(signInResult) ==> step == OtpStep && error == ""
      ensures email == old(email) && otp == old(otp)
    {
      loading := true;
      loadingTrace := loadingTrace + [true];
      error := "";
      if IsError(signInResult) {
        error := signInResult.value;
      } else {
        step := OtpStep;
      }
      loading := false;
      loadingTrace := loadingTrace + [false];
    }

    /** `handleOtpSubmit`: a code whose length is not 6 changes nothing and
        sends nothing. Otherwise the code is sent for the typed email with
        the error cleared; a failed verification shows its message, and the
        step stays where it was. */
    method OtpSubmit(verifyResult: Option<string>) returns (request: Option<VerifyRequest>)
      modifies this
      ensures |old(otp)| != 6 ==>
        request.None? && loading == old(loading) && error == old(error) && loadingTrace == old(loadingTrace)
      ensures |old(otp)| == 6 ==>
        && request == Some(VerifyRequest(email, otp))
        && !loading && loadingTrace == old(loadingTrace) + [true, false]
        && error == (if IsError(verifyResult) then verifyResult.value else "")
      ensures email == old(email) && otp == old(otp) && step == old(step)
    {
      if |otp| != 6 {
        return None;
      }
      loading := true;
      loadingTrace := loadingTrace + [true];
      error := "";
      request := Some(VerifyRequest(email, otp));
      if IsError(verifyResult) {
        error := verifyResult.value;
      }
      loading := false;
      loadingTrace := loadingTrace + [false];
    }

    /** `handleBackToEmail`. */
    method BackToEmail()
      modifies this
      ensures step == EmailStep && otp == "" && error == ""
      ensures email == old(email) && loading == old(loading) && loadingTrace == old(loadingTrace)
    {
      step := EmailStep;
      otp := "";
      error := "";
    }
  }
}
