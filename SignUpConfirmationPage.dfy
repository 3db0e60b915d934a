/** The page shown after an email sign-up: it names the address the
    confirmation was sent to and offers to resend it. The resend call is split
    at its `await` into `BeginResend` and `FinishResend`. */
module SignUpConfirmationPage {
  import opened Types

  const PlaceholderEmail := "your email"

  /** `searchParams.get("email") || "your email"`: `param` is None when the
      query has no email parameter. */
  function ConfirmationEmail(param: Option<string>): (email: string)
    ensures Truthy(param) ==> email == param.value
    ensures !Truthy(param) ==> email == PlaceholderEmail
    ensures email != ""
  {
    if Truthy(param) then param.value else PlaceholderEmail
  }

  datatype ResendStatus = Idle | Sending | Sent | Error

  class ResendForm {
    /** the address shown, and the one a resend goes to */
    const email: string
    var status: ResendStatus
    var resendError: Option<string>

    /** An error message is held exactly in the error state. */
    predicate Valid()
      reads this
    {
      resendError.Some? <==> status == Error
    }

    constructor (param: Option<string>)
      ensures email == ConfirmationEmail(param)
      ensures status == Idle && resendError.None?
      ensures Valid()
    {
      email := ConfirmationEmail(param);
      status := Idle;
      resendError := None;
    }

    /** The resend button is disabled while sending and once sent. */
    function ResendDisabled(): (disabled: bool)
      reads this
      ensures disabled <==> status == Sending || status == Sent
    {
      status.Sending? || status.Sent?
    }

    /** The button caption for each status */
    function ResendCaption(): (caption: string)
      reads this
      ensures status.Idle? ==> caption == "Resend confirmation email"
      ensures status.Sending? ==> caption == "Sending..."
      ensures status.Sent? ==> caption == "Email sent!"
      ensures status.Error? ==> caption == "Retry sending"
    {
      match status
      case Idle => "Resend confirmation email"
      case Sending => "Sending..."
      case Sent => "Email sent!"
      case Error => "Retry sending"
    }

    /** handleResend up to the provider call: nothing while sending or once
        sent; otherwise the form is marked sending, the error cleared, and a
        resend requested for the page's address. */
    method BeginResend() returns (sentTo: Option<string>)
      requires Valid()
      modifies this
      ensures Valid()
      ensures sentTo.None? <==> old(status) == Sending || old(status) == Sent
      ensures sentTo.None? ==> status == old(status) && resendError == old(resendError)
      ensures sentTo.Some? ==> sentTo.value == email && status == Sending && resendError.None?
    {
      if status == Sending || status == Sent {
        sentTo := None;
        return;
      }
      status := Sending;
      resendError := None;
      sentTo := Some(email);
    }

    /** handleResend after the provider call, which only follows BeginResend:
        an error object puts the form in the error state with its message,
        otherwise the email counts as sent. */
    method FinishResend(error: Option<AuthError>)
      requires Valid() && status == Sending
      modifies this
      ensures Valid()
      ensures error.Some? ==> status == Error && resendError == Some(error.value.message)
      ensures error.None? ==> status == Sent && resendError.None?
    {
      if error.Some? {
        status := Error;
        resendError := Some(error.value.message);
      } else {
        status := Sent;
      }
    }

    /** The whole of handleResend, with `answer` the provider's answer. */
    method Resend(answer: Option<AuthError>) returns (sentTo: Option<string>)
      requires Valid()
      modifies this
      ensures Valid()
      ensures sentTo.None? <==> old(status) == Sending || old(status) == Sent
      ensures sentTo.None? ==> status == old(status) && resendError == old(resendError)
      ensures sentTo.Some? ==> sentTo.value == email
      ensures sentTo.Some? && answer.Some? ==> status == Error && resendError == Some(answer.value.message)
      ensures sentTo.Some? && answer.None? ==> status == Sent && resendError.None?
    {
      sentTo := BeginResend();
      if sentTo.Some? {
        FinishResend(answer);
      }
    }
  }

  /** Without an email parameter the placeholder text is not only shown but is
      also the address a resend is requested for. */
  method ResendWithoutAddressUsesPlaceholder() returns (sentTo: Option<string>)
    ensures sentTo == Some(PlaceholderEmail)
  {
    var form := new ResendForm(None);
    sentTo := form.BeginResend();
  }

  /** The address a resend should go to: the query's address, or none at all
      when the page was opened without one. */
  function IntendedResendTarget(param: Option<string>): (target: Option<string>)
    ensures target.Some? <==> Truthy(param)
    ensures target.Some? ==> target.value == param.value == ConfirmationEmail(param)
  {
    if Truthy(param) then Some(param.value) else None
  }

  /** The intended target never sends the placeholder text unless the visitor
      really gave it as the address, and agrees with the shown address whenever
      there is one. */
  lemma IntendedResendNeverUsesPlaceholder(param: Option<string>)
    ensures IntendedResendTarget(param) == Some(PlaceholderEmail) ==> param == Some(PlaceholderEmail)
    ensures !Truthy(param) ==> IntendedResendTarget(param).None? && ConfirmationEmail(param) == PlaceholderEmail
  {
  }
}
