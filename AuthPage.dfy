/** The sign-in / sign-up page (src/components/AuthPage.tsx): a form whose
    two submit handlers run the same sequence over `isLoading` and `error`,
    and the tab and show-password toggles. */
module AuthPage {

  import opened Wrappers
  import opened Provider

  datatype Tab = SignInTab | SignUpTab

  /** Which provider call a submit makes. */
  datatype AuthKind = SignIn | SignUp

  /** The credentials passed to `signIn` or `signUp`. */
  datatype AuthRequest = AuthRequest(kind: AuthKind, email: string, password: string)

  datatype AuthError = AuthError(message: string)

  /** What the provider call resolved with. */
  datatype AuthResponse = AuthResponse(session: Option<Session>, error: Option<AuthError>)

  /** How the awaited provider call ended: a response, or a thrown exception. */
  datatype AuthOutcome = Responded(response: AuthResponse) | Threw

  const GenericFailure := "Something went wrong. Please try again."

  /** Whether the outcome triggers `onAuthSuccess`: only a response that
      carries a session does. */
  predicate SignalsSuccess(outcome: AuthOutcome)
    ensures SignalsSuccess(outcome) ==> forall prior :: ErrorAfter(outcome, prior) == prior
  {
    outcome.Responded? && outcome.response.session.Some?
  }

  /** The value of `error` once the `try`/`catch` of a handler has run,
      starting from `prior`. */
  function ErrorAfter(outcome: AuthOutcome, prior: Option<string>): (e: Option<string>)
    ensures outcome.Threw? ==> e == Some(GenericFailure)
    ensures outcome.Responded? && outcome.response.session.Some? ==> e == prior
    ensures outcome.Responded? && outcome.response.session.None? && outcome.response.error.Some?
            ==> e == Some(outcome.response.error.value.message)
    ensures outcome.Responded? && outcome.response.session.None? && outcome.response.error.None?
            ==> e == prior
  {
    match outcome
    case Threw => Some(GenericFailure)
    case Responded(res) =>
      if res.session.Some? then prior
      else if res.error.Some? then Some(res.error.value.message)
      else prior
  }

  /** Starting from a cleared error, exactly the session-less outcomes that
      carry an error, and the exceptions, leave an error behind; a success
      never does. */
  lemma SettledErrorIffFailure(outcome: AuthOutcome)
    ensures ErrorAfter(outcome, None).Some? <==>
              outcome.Threw? || (outcome.response.session.None? && outcome.response.error.Some?)
    ensures SignalsSuccess(outcome) ==> ErrorAfter(outcome, None) == None
  {
  }

  class AuthForm {
    var isLoading: bool
    var showPassword: bool
    var email: string
    var password: string
    var tab: Tab
    var error: Option<string>

    constructor ()
      ensures !isLoading && !showPassword && email == "" && password == ""
      ensures tab == SignInTab && error == None
    {
      isLoading := false;
      showPassword := false;
      email := "";
      password := "";
      tab := SignInTab;
      error := None;
    }

    /** The tab buttons. The email and password are shared by both forms and
        are kept. */
    method SelectTab(t: Tab)
      modifies this
      ensures tab == t
      ensures email == old(email) && password == old(password)
      ensures isLoading == old(isLoading) && showPassword == old(showPassword)
      ensures error == old(error)
    {
      tab := t;
    }

    /** The eye button. */
    method ToggleShowPassword()
      modifies this
      ensures showPassword == !old(showPassword)
      ensures tab == old(tab) && email == old(email) && password == old(password)
      ensures isLoading == old(isLoading) && error == old(error)
    {
      showPassword := !showPassword;
    }

    method SetEmail(value: string)
      modifies this`email
      ensures email == value
    {
      email := value;
    }

    method SetPassword(value: string)
      modifies this`password
      ensures password == value
    {
      password := value;
    }

    /** A handler up to its `await`: loading starts, the error is cleared and
        the provider is called with the current credentials. */
    method BeginSubmit(kind: AuthKind) returns (request: AuthRequest)
      modifies this`isLoading, this`error
      ensures isLoading && error == None
      ensures request == AuthRequest(kind, email, password)
    {
      isLoading := true;
      error := None;
      request := AuthRequest(kind, email, password);
    }

    /** A handler after its `await`: the outcome is handled and the `finally`
        resets loading. `success` says whether `onAuthSuccess` was called. */
    method SettleSubmit(outcome: AuthOutcome) returns (success: bool)
      modifies this`isLoading, this`error
      ensures !isLoading
      ensures error == ErrorAfter(outcome, old(error))
      ensures success == SignalsSuccess(outcome)
    {
      success := false;
      match outcome {
        case Threw =>
          error := Some(GenericFailure);
        case Responded(res) =>
          if res.session.Some? {
            success := true;
          } else if res.error.Some? {
            error := Some(res.error.value.message);
          }
      }
      isLoading := false;
    }

    /** `handleSignIn` from submit to `finally`. */
    method HandleSignIn(outcome: AuthOutcome) returns (request: AuthRequest, success: bool)
      modifies this`isLoading, this`error
      ensures request == AuthRequest(SignIn, email, password)
      ensures !isLoading
      ensures error == ErrorAfter(outcome, None)
      ensures success == SignalsSuccess(outcome)
    {
      request := BeginSubmit(SignIn);
      success := SettleSubmit(outcome);
    }

    /** `handleSignUp` from submit to `finally`. */
    method HandleSignUp(outcome: AuthOutcome) returns (request: AuthRequest, success: bool)
      modifies this`isLoading, this`error
      ensures request == AuthRequest(SignUp, email, password)
      ensures !isLoading
      ensures error == ErrorAfter(outcome, None)
      ensures success == SignalsSuccess(outcome)
    {
      request := BeginSubmit(SignUp);
      success := SettleSubmit(outcome);
    }
  }
}
