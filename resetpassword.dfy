/**
 * The reset-password page: its field rules and its submit handler. The email the reset was asked
 * for sits in session storage; the handler removes it once the reset has gone through.
 */
module ResetPassword {
  import opened Wrappers
  import opened AuthRules

  /** The submitted values. */
  datatype ResetForm = ResetForm(code: string, newPassword: string, confirmPassword: string)

  /** The message of the code rule, checked by `CodeError`. */
  const CodeMessage := "Code must be 6 digits"

  /** The three field rules together: none fails exactly when the form may be submitted. */
  predicate Acceptable(form: ResetForm) {
    CodeError(form.code, CodeMessage).None? && PasswordError(form.newPassword).None? &&
    ConfirmError(form.confirmPassword, form.newPassword).None?
  }

  /** An acceptable form has a six-digit code and two equal passwords of at least 8 characters. */
  lemma AcceptableForms(form: ResetForm)
    ensures Acceptable(form) <==>
      |form.code| == 6 && Digits(form.code) && 8 <= |form.newPassword| && form.confirmPassword == form.newPassword
  {
  }

  /** The toast (and the redirect, for an expired code) for each way the reset can be refused. */
  function ErrorEffects(e: Thrown): seq<Effect> {
    match e
    case ErrorObject(name, message) =>
      if name == "CodeMismatchException" then [ToastError("Invalid verification code")]
      else if name == "ExpiredCodeException" then
        [ToastError("Verification code has expired, please request a new one"), Navigate("/forgot-password")]
      else if name == "InvalidPasswordException" then [ToastError("Password does not meet requirements")]
      else [ToastError(message)]
    case _ => [ToastError("An error occurred during password reset")]
  }

  /** No refusal removes the stored email or opens the success page. */
  lemma ErrorEffectsKeepEmail(e: Thrown)
    ensures RemoveStoredEmail !in ErrorEffects(e)
    ensures Navigate("/reset-success") !in ErrorEffects(e)
  {
  }

  /** The effects `handleSubmit` leaves, in order. */
  function SubmitTrace(email: Option<string>, values: Option<ResetForm>, confirm: Outcome<()>): seq<Effect> {
    if !Given(email) then [ToastError("Missing required information"), Navigate("/forgot-password")]
    else
      match values
      case None => []
      case Some(form) =>
        [ConfirmResetCall(email.value, form.code, form.newPassword)] +
        match confirm
        case Returned(_) => [RemoveStoredEmail, ToastSuccess("Password reset successful"), Navigate("/reset-success")]
        case Threw(e) => ErrorEffects(e)
  }

  /** Without a stored email nothing is sent; the user is sent back to ask for a reset. */
  lemma NoEmailNoReset(email: Option<string>, values: Option<ResetForm>, confirm: Outcome<()>)
    requires !Given(email)
    ensures forall e :: e in SubmitTrace(email, values, confirm) ==> !IsIdentityCall(e) && e != RemoveStoredEmail
    ensures Navigate("/forgot-password") in SubmitTrace(email, values, confirm)
  {
  }

  /** A successful reset: the call, the removal of the stored email, the toast, the success page. */
  lemma SuccessTrace(email: Option<string>, form: ResetForm, u: ())
    requires Given(email)
    ensures SubmitTrace(email, Some(form), Returned(u)) ==
      [ConfirmResetCall(email.value, form.code, form.newPassword), RemoveStoredEmail,
       ToastSuccess("Password reset successful"), Navigate("/reset-success")]
  {
  }

  /** Anything short of a successful reset neither removes the stored email nor opens the success page. */
  lemma NoRemovalOtherwise(email: Option<string>, values: Option<ResetForm>, confirm: Outcome<()>)
    requires !(Given(email) && values.Some? && confirm.Returned?)
    ensures RemoveStoredEmail !in SubmitTrace(email, values, confirm)
    ensures Navigate("/reset-success") !in SubmitTrace(email, values, confirm)
  {
    if Given(email) && values.Some? && confirm.Threw? {
      var form := values.value;
      ErrorEffectsKeepEmail(confirm.error);
      assert SubmitTrace(email, values, confirm) ==
        [ConfirmResetCall(email.value, form.code, form.newPassword)] + ErrorEffects(confirm.error);
    }
  }

  /** The stored email is removed only after a successful reset, and before the success page is opened. */
  lemma RemovedBeforeSuccessPage(email: Option<string>, values: Option<ResetForm>, confirm: Outcome<()>)
    ensures RemoveStoredEmail in SubmitTrace(email, values, confirm) <==>
      Given(email) && values.Some? && confirm.Returned?
    ensures Navigate("/reset-success") in SubmitTrace(email, values, confirm) <==>
      RemoveStoredEmail in SubmitTrace(email, values, confirm)
    ensures var trace := SubmitTrace(email, values, confirm);
      forall i, j ::
        (0 <= i < |trace| && 0 <= j < |trace| && trace[i] == RemoveStoredEmail && trace[j] == Navigate("/reset-success"))
        ==> i < j
  {
    if Given(email) && values.Some? && confirm.Returned? {
      SuccessTrace(email, values.value, confirm.value);
    } else {
      NoRemovalOtherwise(email, values, confirm);
    }
  }

  /** A refused reset shows one toast; only an expired code also leads back to the reset request. */
  lemma RefusalEffects(email: Option<string>, form: ResetForm, e: Thrown)
    requires Given(email)
    ensures var trace := SubmitTrace(email, Some(form), Threw(e));
      trace[0] == ConfirmResetCall(email.value, form.code, form.newPassword) &&
      trace[1].ToastError? && RemoveStoredEmail !in trace &&
      (Navigate("/forgot-password") in trace <==> e.ErrorObject? && e.name == "ExpiredCodeException")
  {
  }

  class ResetPasswordPage {
    /** The session-storage entry "resetPasswordEmail". */
    var storedEmail: Option<string>

    constructor(stored: Option<string>)
      ensures storedEmail == stored
    {
      storedEmail := stored;
    }

    /** `handleSubmit`. */
    method HandleSubmit(values: Option<ResetForm>, confirm: Outcome<()>) returns (trace: seq<Effect>)
      modifies this
      ensures trace == SubmitTrace(old(storedEmail), values, confirm)
      ensures storedEmail == if RemoveStoredEmail in trace then None else old(storedEmail)
    {
      var email := storedEmail;
      if !Given(email) {
        return [ToastError("Missing required information"), Navigate("/forgot-password")];
      }
      if values.None? {
        return [];
      }
      var form := values.value;
      trace := [ConfirmResetCall(email.value, form.code, form.newPassword)];
      match confirm {
        case Returned(_) =>
          storedEmail := None;
          trace := trace + [RemoveStoredEmail, ToastSuccess("Password reset successful"), Navigate("/reset-success")];
        case Threw(e) =>
          trace := trace + ErrorEffects(e);
          ErrorEffectsKeepEmail(e);
      }
    }
  }
}
