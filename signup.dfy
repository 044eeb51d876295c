/** The sign-up form of `SignupScreen`: four text fields, a pending flag and an
    inline error, driven by field edits, the Sign Up button, the two callbacks of
    the `signUp` request and the "Login" link.

    The pure functions below are the specification (one transition per event);
    the class `SignUpScreen` holds the state the screen keeps in its six
    `mutableStateOf` variables and updates it step by step. */
module SignUp {
  import opened Optional
  import opened Navigation
  import opened Effects

  const AllFieldsRequired: string := "All fields are required!"
  const PasswordsDoNotMatch: string := "Passwords do not match!"
  const SignupSuccessful: string := "Signup successful!"
  /** Pause between the success snackbar and the navigation to login. */
  const SuccessNavigationDelayMillis: nat := 200

  /** After a successful sign-up: go to login, drop signup from the back stack. */
  const ToLoginAfterSignUp: NavCommand := NavCommand(Login, PopUpTo(ToRoute(Signup), true), true)
  /** The "Already have an account? Login" link. */
  const ToLoginFromLink: NavCommand := NavCommand(Login, PopUpTo(ToRoute(Login), true), false)

  /** A snapshot of the screen's six state variables. */
  datatype Form = Form(
    email: string,
    username: string,
    password: string,
    confirmPassword: string,
    loading: bool,
    error: Option<string>)

  /** Every variable as `remember { mutableStateOf(...) }` first creates it. */
  const Initial: Form := Form("", "", "", "", false, None)

  datatype Field = Email | Username | Password | ConfirmPassword

  /** What the auth view model reports for a `signUp` request. */
  datatype Outcome = Success | Failure(message: string)

  datatype Event =
    | Change(field: Field, value: string)  // a text field's onValueChange
    | TapSignUp                             // the Sign Up button
    | Resolve(outcome: Outcome)             // onSuccess / onError(message)
    | TapLoginLink                          // the "Login" text button

  /** The state after an event, and the effects the handler issued, in order. */
  datatype Transition = Transition(next: Form, effects: seq<Effect>)

  /** `a` and `b` hold the same text in all four fields. */
  predicate SameText(a: Form, b: Form) {
    a.email == b.email && a.username == b.username &&
    a.password == b.password && a.confirmPassword == b.confirmPassword
  }

  /** The 0/1 count of requests the form is waiting for. */
  function Pending(f: Form): nat {
    if f.loading then 1 else 0
  }

  /** The validation the Sign Up button runs, first failure wins: emptiness of
      email, username or password (not of the confirmation), then mismatch. */
  function Validate(f: Form): (r: Option<string>)
    ensures r == Some(AllFieldsRequired) <==> (f.email == "" || f.username == "" || f.password == "")
    ensures r == Some(PasswordsDoNotMatch) <==>
      (f.email != "" && f.username != "" && f.password != "" && f.password != f.confirmPassword)
    ensures r == None <==>
      (f.email != "" && f.username != "" && f.password != "" && f.password == f.confirmPassword)
  {
    if |f.email| == 0 || |f.username| == 0 || |f.password| == 0 then Some(AllFieldsRequired)
    else if f.password != f.confirmPassword then Some(PasswordsDoNotMatch)
    else None
  }

  /** A text field's onValueChange handler. */
  function Changed(f: Form, field: Field, value: string): (t: Transition)
    ensures t.effects == [] && t.next.loading == f.loading && t.next.error == f.error
    ensures t.next.email == (if field == Email then value else f.email)
    ensures t.next.username == (if field == Username then value else f.username)
    ensures t.next.password == (if field == Password then value else f.password)
    ensures t.next.confirmPassword == (if field == ConfirmPassword then value else f.confirmPassword)
  {
    match field
    case Email => Transition(f.(email := value), [])
    case Username => Transition(f.(username := value), [])
    case Password => Transition(f.(password := value), [])
    case ConfirmPassword => Transition(f.(confirmPassword := value), [])
  }

  /** The Sign Up button. While a request is pending the button is disabled and
      a tap does nothing. */
  function Submitted(f: Form): (t: Transition)
    // a disabled button changes nothing and issues nothing
    ensures f.loading ==> t == Transition(f, [])
    // submitting never edits a text field
    ensures SameText(t.next, f)
    // a request is issued exactly when the button is enabled and validation passes,
    // and then it is the only effect, with arguments (username, email, password)
    ensures t.effects != [] <==> (!f.loading && Validate(f) == None)
    ensures t.effects != [] ==> t.effects == [CallSignUp(f.username, f.email, f.password)]
    // the form is pending afterwards exactly when it was, or a request went out
    ensures t.next.loading <==> (f.loading || t.effects != [])
    // an enabled button shows the first validation failure, or clears the error
    ensures !f.loading ==> t.next.error == Validate(f)
    ensures Navigations(t.effects) == []
  {
    if f.loading then Transition(f, [])
    else
      match Validate(f)
      case Some(message) => Transition(f.(error := Some(message)), [])
      case None =>
        var effects := [CallSignUp(f.username, f.email, f.password)];
        assert effects[1..] == [];
        Transition(f.(loading := true, error := None), effects)
  }

  /** The onSuccess callback: clear the form, then snackbar, pause and go to login. */
  function Succeeded(f: Form): (t: Transition)
    ensures !t.next.loading && t.next.error == f.error
    ensures SameText(t.next, Initial)
    ensures t.effects == [ShowSnackbar(SignupSuccessful), Delay(SuccessNavigationDelayMillis), Navigate(ToLoginAfterSignUp)]
    ensures Navigations(t.effects) == [ToLoginAfterSignUp] && RemovesRoute(ToLoginAfterSignUp, Signup)
    ensures SignUpCalls(t.effects) == 0
  {
    var effects := [ShowSnackbar(SignupSuccessful), Delay(SuccessNavigationDelayMillis), Navigate(ToLoginAfterSignUp)];
    assert effects[1..][1..][1..] == [];
    assert Navigations(effects[1..][1..]) == [ToLoginAfterSignUp];
    assert SignUpCalls(effects[1..][1..]) == 0;
    Transition(f.(loading := false, email := "", username := "", password := "", confirmPassword := ""), effects)
  }

  /** The onError callback: show the provider's message verbatim, keep the fields. */
  function Failed(f: Form, message: string): (t: Transition)
    ensures SameText(t.next, f) && !t.next.loading && t.next.error == Some(message)
    ensures t.effects == []
  {
    Transition(f.(loading := false, error := Some(message)), [])
  }

  /** One event of the screen. */
  function Step(f: Form, e: Event): (t: Transition)
    // a signUp request is only ever issued by an enabled Sign Up button
    ensures SignUpCalls(t.effects) > 0 ==> e == TapSignUp && !f.loading
    // a request and a pending flag are exchanged one for one: a new request needs
    // an idle form and leaves it pending, only a callback clears the flag
    ensures SignUpCalls(t.effects) + Pending(f) <= (if e.Resolve? then 1 else 0) + Pending(t.next)
    ensures !e.Resolve? ==> SignUpCalls(t.effects) + Pending(f) == Pending(t.next)
    ensures e.Resolve? && f.loading ==> SignUpCalls(t.effects) + Pending(f) == 1 + Pending(t.next)
    // the text fields change only by typing and by a successful sign-up
    ensures !e.Change? && e != Resolve(Success) ==> SameText(t.next, f)
    // the inline error is never set while a request is pending
    ensures (f.loading ==> f.error == None) ==> (t.next.loading ==> t.next.error == None)
    // navigation happens only on success and from the Login link
    ensures Navigations(t.effects) != [] ==> e == Resolve(Success) || e == TapLoginLink
  {
    match e
    case Change(field, value) => Changed(f, field, value)
    case TapSignUp => Submitted(f)
    case Resolve(Success) => Succeeded(f)
    case Resolve(Failure(message)) => Failed(f, message)
    case TapLoginLink =>
      var effects := [Navigate(ToLoginFromLink)];
      assert effects[1..] == [];
      Transition(f, effects)
  }

  /** A run of events from `f`: the final form and every effect, in order. */
  function Run(f: Form, events: seq<Event>): Transition
    decreases |events|
  {
    if events == [] then Transition(f, [])
    else
      var t := Step(f, events[0]);
      var rest := Run(t.next, events[1..]);
      Transition(rest.next, t.effects + rest.effects)
  }

  /** How many callbacks (success or error) `events` delivers. */
  function Callbacks(events: seq<Event>): nat {
    if events == [] then 0
    else (if events[0].Resolve? then 1 else 0) + Callbacks(events[1..])
  }

  /** The auth view model behaves: it calls back only while a request is pending. */
  predicate CallbacksFollowRequests(f: Form, events: seq<Event>)
    decreases |events|
  {
    events == [] ||
    ((events[0].Resolve? ==> f.loading) && CallbacksFollowRequests(Step(f, events[0]).next, events[1..]))
  }

  /** Whatever the callbacks do, no second request leaves before a callback has
      answered the first: requests issued never exceed callbacks received plus
      the one request the form may still be waiting for. */
  lemma {:induction false} NoRequestWithoutCallback(f: Form, events: seq<Event>)
    ensures SignUpCalls(Run(f, events).effects) + Pending(f) <= Callbacks(events) + Pending(Run(f, events).next)
    decreases |events|
  {
    if events != [] {
      var t := Step(f, events[0]);
      NoRequestWithoutCallback(t.next, events[1..]);
      SignUpCallsAppend(t.effects, Run(t.next, events[1..]).effects);
    }
  }

  /** With a well-behaved view model, `loading` is exactly "one request is
      outstanding": requests issued equal callbacks received plus the pending one. */
  lemma {:induction false} LoadingTracksOutstanding(f: Form, events: seq<Event>)
    requires CallbacksFollowRequests(f, events)
    ensures SignUpCalls(Run(f, events).effects) + Pending(f) == Callbacks(events) + Pending(Run(f, events).next)
    decreases |events|
  {
    if events != [] {
      var t := Step(f, events[0]);
      LoadingTracksOutstanding(t.next, events[1..]);
      SignUpCallsAppend(t.effects, Run(t.next, events[1..]).effects);
    }
  }

  /** From a fresh screen: at most one request is outstanding at any time, and
      one is outstanding exactly when the form shows it is loading. */
  lemma AtMostOneOutstanding(events: seq<Event>)
    requires CallbacksFollowRequests(Initial, events)
    ensures Callbacks(events) <= SignUpCalls(Run(Initial, events).effects) <= Callbacks(events) + 1
    ensures SignUpCalls(Run(Initial, events).effects) == Callbacks(events) + 1 <==> Run(Initial, events).next.loading
  {
    LoadingTracksOutstanding(Initial, events);
  }

  /** The inline error is never shown while a request is pending, in any run. */
  lemma {:induction false} NoErrorWhilePending(f: Form, events: seq<Event>)
    requires f.loading ==> f.error == None
    ensures Run(f, events).next.loading ==> Run(f, events).next.error == None
    decreases |events|
  {
    if events != [] {
      NoErrorWhilePending(Step(f, events[0]).next, events[1..]);
    }
  }

  /** The screen's state holder: the six variables of `SignupScreen`. */
  class SignUpScreen {
    var email: string
    var username: string
    var password: string
    var confirmPassword: string
    var loading: bool
    var error: Option<string>

    function State(): Form
      reads this
    {
      Form(email, username, password, confirmPassword, loading, error)
    }

    constructor ()
      ensures State() == Initial
    {
      email, username, password, confirmPassword := "", "", "", "";
      loading, error := false, None;
    }

    /** `onValueChange = { field = it }` of one of the four text fields. */
    method OnValueChange(field: Field, value: string)
      modifies this
      ensures State() == Step(old(State()), Change(field, value)).next
    {
      match field
      case Email => email := value;
      case Username => username := value;
      case Password => password := value;
      case ConfirmPassword => confirmPassword := value;
    }

    /** The Sign Up button's onClick (a no-op while the button is disabled). */
    method Submit() returns (effects: seq<Effect>)
      modifies this
      ensures Transition(State(), effects) == Step(old(State()), TapSignUp)
    {
      effects := [];
      if loading {
        return;
      }
      if |email| == 0 || |username| == 0 || |password| == 0 {
        error := Some(AllFieldsRequired);
        return;
      }
      if password != confirmPassword {
        error := Some(PasswordsDoNotMatch);
        return;
      }
      loading := true;
      error := None;
      effects := [CallSignUp(username, email, password)];
    }

    /** The onSuccess callback of the `signUp` request. */
    method OnSuccess() returns (effects: seq<Effect>)
      modifies this
      ensures Transition(State(), effects) == Step(old(State()), Resolve(Success))
    {
      loading := false;
      email := "";
      username := "";
      password := "";
      confirmPassword := "";
      effects := [ShowSnackbar(SignupSuccessful)];
      effects := effects + [Delay(SuccessNavigationDelayMillis)];
      effects := effects + [Navigate(ToLoginAfterSignUp)];
    }

    /** The onError callback of the `signUp` request. */
    method OnError(message: string) returns (effects: seq<Effect>)
      modifies this
      ensures Transition(State(), effects) == Step(old(State()), Resolve(Failure(message)))
    {
      loading := false;
      error := Some(message);
      effects := [];
    }

    /** The "Login" link: navigates and touches no form state. */
    method LoginLink() returns (effects: seq<Effect>)
      ensures Step(State(), TapLoginLink) == Transition(State(), effects)
      ensures Navigations(effects) == [ToLoginFromLink] && RemovesRoute(ToLoginFromLink, Login)
    {
      effects := [Navigate(ToLoginFromLink)];
      assert effects[1..] == [];
    }
  }
}
