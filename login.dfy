/** The login form of `LoginScreen`: two text fields checked against one
    hard-coded pair of credentials. There is no remote call, no empty-field check
    and no pending state. */
module Login {
  import opened Navigation
  import opened Effects

  const ValidUsername: string := "user"
  const ValidPassword: string := "password123"
  const SignedIn: string := "Successfully signed in!"
  const InvalidCredentials: string := "Invalid username or password"

  /** After a successful login: go home, popping up to the graph's start
      destination inclusive. */
  const ToHome: NavCommand := NavCommand(Home, PopUpTo(ToStartDestination, true), true)
  /** The "Don't have an account? Sign Up" link: a plain push of signup. */
  const ToSignUp: NavCommand := NavCommand(Signup, NoPopUp, false)

  /** The credential check: exact string equality with the hard-coded pair. */
  predicate CredentialsMatch(username: string, password: string) {
    username == ValidUsername && password == ValidPassword
  }

  /** What the LOGIN button issues, in order: the snackbar is launched first,
      then (on success only) the navigation. */
  function Attempt(username: string, password: string): (effects: seq<Effect>)
    ensures |effects| > 0
    ensures effects[0] == ShowSnackbar(if CredentialsMatch(username, password) then SignedIn else InvalidCredentials)
    ensures Navigations(effects) == (if CredentialsMatch(username, password) then [ToHome] else [])
    ensures SignUpCalls(effects) == 0
    // the snackbar, then the navigation on a match, and nothing else
    ensures |effects| == 1 + |Navigations(effects)|
  {
    if username == ValidUsername && password == ValidPassword then
      var effects := [ShowSnackbar(SignedIn), Navigate(ToHome)];
      assert effects[1..][1..] == [];
      assert Navigations(effects[1..]) == [ToHome] && SignUpCalls(effects[1..]) == 0;
      effects
    else
      var effects := [ShowSnackbar(InvalidCredentials)];
      assert effects[1..] == [];
      effects
  }

  /** A login navigates exactly for the pair ("user", "password123"), and then
      to home with the start destination popped inclusive and single-top. */
  lemma NavigatesIffCredentialsMatch(username: string, password: string)
    ensures Navigations(Attempt(username, password)) != [] <==>
      (username == "user" && password == "password123")
    ensures Navigations(Attempt(username, password)) != [] ==>
      Navigations(Attempt(username, password)) == [NavCommand(Home, PopUpTo(ToStartDestination, true), true)]
  {
  }

  /** Empty fields get no special treatment: they just fail the check. */
  lemma EmptyFieldsFail(username: string, password: string)
    requires username == "" || password == ""
    ensures Attempt(username, password) == [ShowSnackbar("Invalid username or password")]
  {
  }

  /** The screen's state holder: the two `mutableStateOf` text fields. */
  class LoginScreen {
    var username: string
    var password: string

    constructor ()
      ensures username == "" && password == ""
    {
      username, password := "", "";
    }

    /** The username field's onValueChange. */
    method OnUsernameChange(value: string)
      modifies this
      ensures username == value && password == old(password)
    {
      username := value;
    }

    /** The password field's onValueChange. */
    method OnPasswordChange(value: string)
      modifies this
      ensures password == value && username == old(username)
    {
      password := value;
    }

    /** The LOGIN button's onClick. It writes no field (no modifies clause). */
    method Submit() returns (effects: seq<Effect>)
      ensures effects == Attempt(username, password)
    {
      effects := Attempt(username, password);
    }

    /** The "Sign Up" link: navigates to signup without popping anything. */
    method SignUpLink() returns (effects: seq<Effect>)
      ensures Navigations(effects) == [ToSignUp] && ToSignUp.popUpTo == NoPopUp
    {
      effects := [Navigate(ToSignUp)];
      assert effects[1..] == [];
    }
  }
}
