/** The merchant login page: an email and password form whose submission signs
    in and then goes to the dashboard or shows the error, and a Google sign-in
    button. The sign-in call is split at its `await`: `BeginSubmit` runs up to
    the call and returns the credentials sent, `FinishSubmit` runs on its
    answer. */
module MerchantLoginPage {
  import opened Types
  import opened Strings
  import AuthContext
  import AuthService

  const DashboardPath := "/dashboard"

  datatype Credentials = Credentials(email: string, password: string)

  /** The guard of the submit handler: both fields are non-blank after trimming. */
  function ReadyToSubmit(email: string, password: string): (ready: bool)
    ensures ready <==> ((exists i :: 0 <= i < |email| && !IsSpace(email[i]))
      && (exists i :: 0 <= i < |password| && !IsSpace(password[i])))
  {
    TrimEmptyIffBlank(email);
    TrimEmptyIffBlank(password);
    Trim(email) != "" && Trim(password) != ""
  }

  class LoginForm {
    var email: string
    var password: string
    var isSubmitting: bool
    /** the error shown above the form, null when none */
    var errorMsg: Option<string>
    /** the route this page navigated to, if any */
    var navigatedTo: Option<string>

    /** Only a non-empty message is ever shown. */
    predicate Valid()
      reads this
    {
      errorMsg.None? || errorMsg.value != ""
    }

    constructor ()
      ensures email == "" && password == "" && !isSubmitting
      ensures errorMsg.None? && navigatedTo.None?
      ensures Valid()
    {
      email := "";
      password := "";
      isSubmitting := false;
      errorMsg := None;
      navigatedTo := None;
    }

    /** The submit button is disabled while a sign-in is in flight. */
    function SubmitDisabled(): (disabled: bool)
      reads this
      ensures disabled <==> isSubmitting
    {
      isSubmitting
    }

    function SubmitLabel(): (caption: string)
      reads this
      ensures isSubmitting ==> caption == "Logging in…"
      ensures !isSubmitting ==> caption == "Login"
    {
      if isSubmitting then "Logging in…" else "Login"
    }

    method SetEmail(value: string)
      modifies this
      ensures email == value
      ensures password == old(password) && isSubmitting == old(isSubmitting)
      ensures errorMsg == old(errorMsg) && navigatedTo == old(navigatedTo)
    {
      email := value;
    }

    method SetPassword(value: string)
      modifies this
      ensures password == value
      ensures email == old(email) && isSubmitting == old(isSubmitting)
      ensures errorMsg == old(errorMsg) && navigatedTo == old(navigatedTo)
    {
      password := value;
    }

    /** handleSubmit up to the sign-in call: with a blank field nothing happens;
        otherwise the form is marked submitting, the error is cleared, and the
        fields are sent as typed, untrimmed. */
    method BeginSubmit() returns (sent: Option<Credentials>)
      requires Valid()
      modifies this
      ensures Valid()
      ensures email == old(email) && password == old(password) && navigatedTo == old(navigatedTo)
      ensures sent.Some? <==> ReadyToSubmit(old(email), old(password))
      ensures sent.None? ==> isSubmitting == old(isSubmitting) && errorMsg == old(errorMsg)
      ensures sent.Some? ==> sent.value == Credentials(email, password) && isSubmitting && errorMsg.None?
    {
      if !ReadyToSubmit(email, password) {
        sent := None;
        return;
      }
      isSubmitting := true;
      errorMsg := None;
      sent := Some(Credentials(email, password));
    }

    /** handleSubmit after the sign-in call: a non-empty error message is shown
        and the form is enabled again; otherwise the page goes to the
        dashboard and the form stays disabled. */
    method FinishSubmit(error: Option<string>)
      requires Valid()
      modifies this
      ensures Valid()
      ensures email == old(email) && password == old(password)
      ensures Truthy(error) ==> errorMsg == error && !isSubmitting && navigatedTo == old(navigatedTo)
      ensures !Truthy(error) ==>
        navigatedTo == Some(DashboardPath) && isSubmitting == old(isSubmitting) && errorMsg == old(errorMsg)
    {
      if Truthy(error) {
        errorMsg := error;
        isSubmitting := false;
      } else {
        navigatedTo := Some(DashboardPath);
      }
    }

    /** The whole of handleSubmit, with `response` the provider's answer to
        the credentials sent. */
    method Submit(response: AuthService.AuthResult) returns (sent: Option<Credentials>)
      requires Valid()
      modifies this
      ensures Valid()
      ensures sent.Some? <==> ReadyToSubmit(old(email), old(password))
      ensures sent.None? ==>
        isSubmitting == old(isSubmitting) && errorMsg == old(errorMsg) && navigatedTo == old(navigatedTo)
      ensures sent.Some? && response.error.Some? && response.error.value.message != "" ==>
        errorMsg == Some(response.error.value.message) && !isSubmitting && navigatedTo == old(navigatedTo)
      ensures sent.Some? && (response.error.None? || response.error.value.message == "") ==>
        navigatedTo == Some(DashboardPath) && isSubmitting && errorMsg.None?
    {
      sent := BeginSubmit();
      if sent.Some? {
        var error := AuthContext.SignInAction(response);
        FinishSubmit(error);
      }
    }

    /** handleGoogleLogin: the error is cleared, then set to the sign-in
        call's message when that is non-empty. A successful call leaves the
        page for the provider, which is not part of this model. */
    method GoogleLogin(error: Option<string>)
      requires Valid()
      modifies this
      ensures Valid()
      ensures Truthy(error) ==> errorMsg == error
      ensures !Truthy(error) ==> errorMsg.None?
      ensures email == old(email) && password == old(password)
      ensures isSubmitting == old(isSubmitting) && navigatedTo == old(navigatedTo)
    {
      errorMsg := None;
      if Truthy(error) {
        errorMsg := error;
      }
    }
  }

  /** A provider error whose message is empty is falsy, so the page treats
      the sign-in as successful and goes to the dashboard. */
  method EmptyErrorMessageNavigates(email: string, password: string) returns (form: LoginForm)
    requires ReadyToSubmit(email, password)
    ensures form.navigatedTo == Some(DashboardPath) && form.errorMsg.None?
  {
    form := new LoginForm();
    form.SetEmail(email);
    form.SetPassword(password);
    var sent := form.Submit(AuthService.AuthResult(None, None, Some(AuthError(""))));
  }
}
