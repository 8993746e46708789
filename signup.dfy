/**
 * The sign-up page: its field rules, the user-status check, and the two submit handlers, which
 * the form picks by phase. The page starts in the sign-up phase and switches once, to
 * verification; nothing switches it back. The identity calls' outcomes are inputs.
 */
module SignUp {
  import opened Wrappers
  import opened AuthRules

  datatype UserStatus = Confirmed | Unconfirmed | NotExists

  /** `checkUserStatus`: a sign-in that returns tells confirmed from unconfirmed users; one that throws means no user. */
  function CheckUserStatus(signIn: Outcome<bool>): (status: UserStatus)
    ensures status == NotExists <==> signIn.Threw?
    ensures status == Confirmed <==> signIn == Returned(true)
  {
    match signIn
    case Returned(isSignedIn) => if isSignedIn then Confirmed else Unconfirmed
    case Threw(_) => NotExists
  }

  datatype Field = EmailField | PasswordField | TermsField | CodeField

  /** The `required` rule of each field in each phase. */
  function RequiredMessage(field: Field, verifying: bool): Option<string> {
    match field
    case EmailField => Some("Email is required")
    case PasswordField => if !verifying then Some("Password is required") else None
    case TermsField => if verifying then None else Some("Please accept the terms and conditions")
    case CodeField => if verifying then Some("Verification code is required") else None
  }

  /** The fields the form shows in each phase. */
  predicate Displayed(field: Field, verifying: bool) {
    match field
    case EmailField => true
    case PasswordField => !verifying
    case TermsField => !verifying
    case CodeField => verifying
  }

  /** In either phase a field is required exactly when it is on the form. */
  lemma RequiredExactlyDisplayed(field: Field, verifying: bool)
    ensures RequiredMessage(field, verifying).Some? <==> Displayed(field, verifying)
  {
  }

  /** The message of the verification-code rule, checked by `CodeError`. */
  const CodeMessage := "Verification code must be 6 digits"

  function EmailError(email: string): (e: Option<string>)
    ensures e.None? <==> MatchesEmailPattern(email)
  {
    EmailDecision(email);
    if IsValidEmail(email) then None else Some("Invalid email address")
  }

  /** The submitted values. */
  datatype SignUpForm = SignUpForm(email: string, password: string, terms: bool, code: string)

  const ConfirmSignUpStep := "CONFIRM_SIGN_UP"

  /** `handleResendCode`: the call, then a toast for how it went. */
  function ResendEffects(email: string, resend: Outcome<()>): seq<Effect> {
    [ResendCodeCall(email)] +
    match resend
    case Returned(_) => [ToastSuccess("Verification code resent to your email!")]
    case Threw(ErrorObject(_, message)) => [ToastError(message)]
    case Threw(_) => [ToastError("Failed to resend verification code")]
  }

  const SignUpFallback := "An error occurred during sign up"

  /**
   * `toast.error(error.message || "An error occurred during sign up")`, with no `instanceof Error`
   * test: a string message of any thrown object is shown when it is not empty. Reading `message`
   * of `null` or `undefined` throws a TypeError, so the handler rejects without a toast.
   */
  function SignUpErrorEffects(e: Thrown): seq<Effect> {
    if e.Nullish? then []
    else if Given(MessageOf(e)) then [ToastError(MessageOf(e).value)]
    else [ToastError(SignUpFallback)]
  }

  /** Whether the sign-up handler moves the page to the verification phase. */
  predicate EntersVerification(values: Option<SignUpForm>, signIn: Outcome<bool>, signUp: Outcome<string>) {
    values.Some? && values.value.terms &&
    (CheckUserStatus(signIn) == Unconfirmed ||
     (CheckUserStatus(signIn) == NotExists && signUp == Returned(ConfirmSignUpStep)))
  }

  /** The effects `handleInitialSignup` leaves, in order. */
  function InitialTrace(values: Option<SignUpForm>, signIn: Outcome<bool>, resend: Outcome<()>,
                        signUp: Outcome<string>, bucketId: string): seq<Effect>
  {
    match values
    case None => []
    case Some(form) =>
      if !form.terms then [ToastError("Please accept the terms and conditions")]
      else
        [SignInCall(form.email, form.password)] +
        match CheckUserStatus(signIn)
        case Unconfirmed => ResendEffects(form.email, resend)
        case Confirmed => [ToastError("User already exists. Please login.")]
        case NotExists =>
          [SignUpCall(form.email, form.password, bucketId)] +
          match signUp
          case Returned(step) => if step == ConfirmSignUpStep then [ToastSuccess("Verification code sent to your email!")] else []
          case Threw(e) => SignUpErrorEffects(e)
  }

  /** With the terms unchecked the handler stops with a toast, before any identity call. */
  lemma TermsComeFirst(form: SignUpForm, signIn: Outcome<bool>, resend: Outcome<()>, signUp: Outcome<string>, bucketId: string)
    requires !form.terms
    ensures InitialTrace(Some(form), signIn, resend, signUp, bucketId) == [ToastError("Please accept the terms and conditions")]
    ensures forall e :: e in InitialTrace(Some(form), signIn, resend, signUp, bucketId) ==> !IsIdentityCall(e)
    ensures !EntersVerification(Some(form), signIn, signUp)
  {
  }

  /** A confirmed user only gets an error; nobody is signed up and the phase stays. */
  lemma ConfirmedUserStops(form: SignUpForm, resend: Outcome<()>, signUp: Outcome<string>, bucketId: string)
    requires form.terms
    ensures InitialTrace(Some(form), Returned(true), resend, signUp, bucketId) ==
      [SignInCall(form.email, form.password), ToastError("User already exists. Please login.")]
    ensures !EntersVerification(Some(form), Returned(true), signUp)
  {
  }

  /** An unconfirmed user goes straight to verification and is sent a new code, without a sign-up. */
  lemma UnconfirmedUserResends(form: SignUpForm, resend: Outcome<()>, signUp: Outcome<string>, bucketId: string)
    requires form.terms
    ensures var trace := InitialTrace(Some(form), Returned(false), resend, signUp, bucketId);
      |trace| == 3 && trace[1] == ResendCodeCall(form.email) && forall e :: e in trace ==> !e.SignUpCall?
    ensures EntersVerification(Some(form), Returned(false), signUp)
  {
  }

  /** A sign-up happens only for a user that does not exist, with the page's bucket id. */
  lemma SignUpOnlyForNewUsers(values: Option<SignUpForm>, signIn: Outcome<bool>, resend: Outcome<()>,
                              signUp: Outcome<string>, bucketId: string, e: Effect)
    requires e in InitialTrace(values, signIn, resend, signUp, bucketId) && e.SignUpCall?
    ensures values.Some? && values.value.terms && CheckUserStatus(signIn) == NotExists
    ensures e == SignUpCall(values.value.email, values.value.password, bucketId)
  {
  }

  /**
   * A refused sign-up of a new user ends with one toast, which shows the thrown value's own
   * non-empty message (an `Error` or not) and the fallback otherwise. A thrown `null` or
   * `undefined` ends the trace with no toast. The page stays in the sign-up phase either way.
   */
  lemma SignUpRefusal(form: SignUpForm, error: Thrown, e: Thrown, bucketId: string, resend: Outcome<()>)
    requires form.terms
    ensures var trace := InitialTrace(Some(form), Threw(error), resend, Threw(e), bucketId);
      trace[..2] == [SignInCall(form.email, form.password), SignUpCall(form.email, form.password, bucketId)] &&
      (e.Nullish? <==> |trace| == 2) &&
      (!e.Nullish? ==> |trace| == 3 && trace[2] == ToastError(
        if MessageOf(e).Some? && MessageOf(e).value != "" then MessageOf(e).value else SignUpFallback))
    ensures !EntersVerification(Some(form), Threw(error), Threw(e))
  {
  }

  /** A non-`Error` object with a message shows that message: "Network down" is shown as it is. */
  lemma NonErrorMessageShown(form: SignUpForm, error: Thrown, bucketId: string, resend: Outcome<()>)
    requires form.terms
    ensures InitialTrace(Some(form), Threw(error), resend, Threw(OtherValue(Some("Network down"))), bucketId)
      == [SignInCall(form.email, form.password), SignUpCall(form.email, form.password, bucketId),
          ToastError("Network down")]
  {
  }

  /** For a new user, verification starts exactly when the sign-up asks for confirmation. */
  lemma NewUserVerifiesOnConfirmStep(form: SignUpForm, error: Thrown, signUp: Outcome<string>)
    requires form.terms
    ensures EntersVerification(Some(form), Threw(error), signUp) <==> signUp == Returned(ConfirmSignUpStep)
  {
  }

  /** `error.message` when the error is an `Error`, else the page's fallback text. */
  function VerificationErrorToast(e: Thrown): Effect {
    match e
    case ErrorObject(_, message) => ToastError(message)
    case _ => ToastError("An error occurred during verification")
  }

  /** The effects `handleVerification` leaves, in order. */
  function VerificationTrace(values: Option<SignUpForm>, userEmail: string, userPassword: string,
                             confirm: Outcome<()>, signIn: Outcome<bool>): seq<Effect>
  {
    match values
    case None => []
    case Some(form) =>
      [ConfirmSignUpCall(userEmail, form.code)] +
      match confirm
      case Threw(e) => [VerificationErrorToast(e)]
      case Returned(_) =>
        [ToastSuccess("Account verified successfully!"), SignInCall(userEmail, userPassword)] +
        match signIn
        case Returned(_) => [Navigate("/dashboard")]
        case Threw(e) => [VerificationErrorToast(e)]
  }

  /** The dashboard is reached only after the code was confirmed and the saved credentials signed in. */
  lemma DashboardAfterConfirmation(values: Option<SignUpForm>, userEmail: string, userPassword: string,
                                   confirm: Outcome<()>, signIn: Outcome<bool>)
    ensures Navigate("/dashboard") in VerificationTrace(values, userEmail, userPassword, confirm, signIn)
      <==> values.Some? && confirm.Returned? && signIn.Returned?
    ensures values.Some? ==>
      VerificationTrace(values, userEmail, userPassword, confirm, signIn)[0] == ConfirmSignUpCall(userEmail, values.value.code)
  {
  }

  class SignUpPage {
    var showVerification: bool
    var userEmail: string
    var userPassword: string
    var loading: bool

    constructor()
      ensures !showVerification && userEmail == "" && userPassword == "" && !loading
    {
      showVerification, userEmail, userPassword, loading := false, "", "", false;
    }

    /** `handleInitialSignup`, which the form uses before verification. */
    method HandleInitialSignup(values: Option<SignUpForm>, signIn: Outcome<bool>, resend: Outcome<()>,
                               signUp: Outcome<string>, bucketId: string)
      returns (trace: seq<Effect>)
      requires !showVerification
      modifies this
      ensures trace == InitialTrace(values, signIn, resend, signUp, bucketId)
      ensures showVerification == EntersVerification(values, signIn, signUp)
      ensures showVerification ==> userEmail == values.value.email && userPassword == values.value.password
      ensures !showVerification ==> userEmail == old(userEmail) && userPassword == old(userPassword)
      ensures loading == if values.Some? && values.value.terms then false else old(loading)
    {
      trace := [];
      if values.None? {
        return;
      }
      var form := values.value;
      if !form.terms {
        trace := [ToastError("Please accept the terms and conditions")];
        return;
      }
      loading := true;
      trace := trace + [SignInCall(form.email, form.password)];
      var status := CheckUserStatus(signIn);
      if status == Unconfirmed {
        userEmail, userPassword := form.email, form.password;
        showVerification := true;
        trace := trace + ResendEffects(form.email, resend);
      } else if status == Confirmed {
        trace := trace + [ToastError("User already exists. Please login.")];
      } else {
        trace := trace + [SignUpCall(form.email, form.password, bucketId)];
        match signUp {
          case Returned(step) =>
            if step == ConfirmSignUpStep {
              userEmail, userPassword := form.email, form.password;
              showVerification := true;
              trace := trace + [ToastSuccess("Verification code sent to your email!")];
            }
          case Threw(e) =>
            trace := trace + SignUpErrorEffects(e);
        }
      }
      loading := false;
    }

    /** `handleVerification`, which the form uses once verification has started. */
    method HandleVerification(values: Option<SignUpForm>, confirm: Outcome<()>, signIn: Outcome<bool>)
      returns (trace: seq<Effect>)
      requires showVerification
      modifies this
      ensures trace == VerificationTrace(values, userEmail, userPassword, confirm, signIn)
      ensures showVerification && userEmail == old(userEmail) && userPassword == old(userPassword)
      ensures loading == if values.Some? then false else old(loading)
    {
      trace := [];
      if values.None? {
        return;
      }
      loading := true;
      trace := [ConfirmSignUpCall(userEmail, values.value.code)];
      match confirm {
        case Threw(e) =>
          trace := trace + [VerificationErrorToast(e)];
        case Returned(_) =>
          trace := trace + [ToastSuccess("Account verified successfully!"), SignInCall(userEmail, userPassword)];
          match signIn {
            case Returned(_) => trace := trace + [Navigate("/dashboard")];
            case Threw(e) => trace := trace + [VerificationErrorToast(e)];
          }
      }
      loading := false;
    }

    /**
     * A submit: the form hands the values to the handler of the current phase. The phase only
     * ever moves from sign-up to verification.
     */
    method Submit(values: Option<SignUpForm>, signIn: Outcome<bool>, resend: Outcome<()>, signUp: Outcome<string>,
                  bucketId: string, confirm: Outcome<()>)
      returns (trace: seq<Effect>)
      modifies this
      ensures showVerification == (old(showVerification) || EntersVerification(values, signIn, signUp))
      ensures old(showVerification) ==> trace == VerificationTrace(values, old(userEmail), old(userPassword), confirm, signIn)
      ensures !old(showVerification) ==> trace == InitialTrace(values, signIn, resend, signUp, bucketId)
      ensures old(showVerification) ==> userEmail == old(userEmail) && userPassword == old(userPassword)
      ensures !old(showVerification) && showVerification ==>
        userEmail == values.value.email && userPassword == values.value.password
      ensures !showVerification ==> userEmail == old(userEmail) && userPassword == old(userPassword)
      ensures loading == if values.Some? && (old(showVerification) || values.value.terms) then false else old(loading)
    {
      if showVerification {
        trace := HandleVerification(values, confirm, signIn);
      } else {
        trace := HandleInitialSignup(values, signIn, resend, signUp, bucketId);
      }
    }
  }
}
