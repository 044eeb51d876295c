# StudyMate authentication and session bootstrap, modelled in Dafny

StudyMate is an Android study-tracking app written in Jetpack Compose. Almost all
of it is layout. This project models the three pieces with decisions in them,
apart from rendering:

- **Sign-up form** (`SignupScreen`). Six state variables: `email`, `username`,
  `password`, `confirmPassword`, `loading` and `error`. The Sign Up button runs
  ordered validation, where the first failure wins. A valid submit issues one
  `signUp(username, email, password)` request and marks the form pending. The
  request's `onSuccess` clears the form and navigates to login. Its `onError`
  shows the message and keeps the fields.
- **Login form** (`LoginScreen`). Two text fields are compared with the
  hard-coded pair `"user"` / `"password123"`. A match shows a snackbar and
  navigates home. A mismatch shows "Invalid username or password".
- **Splash auto-login** (`SplashScreen`). After 1800 ms, one read of the stored
  user picks `home` or `login`. Both routes pop `splash` inclusive.

Files:

- `option.dfy`: `Option` for Kotlin's nullable values.
- `navigation.dfy`: routes and navigation commands (module `Navigation`), and
  the effects a handler issues (module `Effects`). An effect is a snackbar, a
  delay, a navigation, a `signUp` request or the stored-user read. A navigation
  is recorded as the command `(dest, popUpTo, inclusive, launchSingleTop)`. The
  navigation library's back stack is not simulated.
- `signup.dfy`: the sign-up screen. One pure transition function per event
  (`Changed`, `Submitted`, `Succeeded`, `Failed`) and the dispatcher `Step` form
  the specification. The class `SignUpScreen` holds the six variables. Each of
  its handler methods updates them in place and is proved equal to `Step`.
  `Run` folds `Step` over a sequence of events. The lemmas about `Run` prove the
  double-submit guard over whole runs.
- `login.dfy`: the credential check `Attempt` and the class `LoginScreen`.
- `splash.dfy`: the route decision `Destination` and the effect `AutoLogin`.

The auth view model and the local database are inputs. The outcome of a
`signUp` request is an event `Resolve(Success | Failure(message))`. The stored
user is an `Option<StoredUser>`.

A tap on the disabled Sign Up button (`enabled = !loading`) does nothing. The
model therefore makes `Submitted` a no-op while `loading`, rather than putting a
precondition on the caller.

The login form has no empty-field check, no pending flag and no remote call. It
compares the two fields against two constants and always shows the same failure
message. `Login.EmptyFieldsFail` states what it does with empty fields.

The stored-user read has no failure path in the code, so the model's read always
yields a value.

## Model

| member | source | states |
|---|---|---|
| SignUp.Validate | app/src/main/java/com/example/studymate/ui/screens/SignUpScreen.kt:177-184 | "All fields are required!" exactly when email, username or password is empty, even if the passwords also differ. "Passwords do not match!" exactly when those three are non-empty and password differs from the confirmation. No error exactly when neither holds. An empty confirmation is therefore a mismatch, not a missing field. |
| SignUp.Changed | app/src/main/java/com/example/studymate/ui/screens/SignUpScreen.kt:97-158 | Editing a field sets that field alone. `loading` and `error` keep their values, and nothing is issued. |
| SignUp.Submitted | app/src/main/java/com/example/studymate/ui/screens/SignUpScreen.kt:176-192 | While `loading` a tap changes nothing. Submit never edits a text field. A request goes out exactly when the form is idle and validation passes. That request is the only effect, with arguments in the order (username, email, password). Afterwards the form is pending exactly when it was before or a request went out. When idle, `error` becomes the validation result: the first failure, or cleared on a valid submit. No navigation. |
| SignUp.Succeeded | app/src/main/java/com/example/studymate/ui/screens/SignUpScreen.kt:193-211 | Clears `loading` and all four text fields and leaves `error` alone. Then, in order: the "Signup successful!" snackbar, a 200 ms pause, and the single navigation to login. That navigation pops signup inclusive and is single-top. No request is issued. |
| SignUp.Failed | app/src/main/java/com/example/studymate/ui/screens/SignUpScreen.kt:213-216 | Clears `loading` and sets `error` to the message verbatim. Every text field is unchanged and nothing is issued. |
| SignUp.Step | app/src/main/java/com/example/studymate/ui/screens/SignUpScreen.kt:176-252 | Over all events: a request is only issued by a tap while idle. A request turns the form pending, and only a callback clears the pending flag. Text fields change only by typing or a successful sign-up. The error stays empty while pending. Only success and the Login link navigate. |
| SignUp.NoRequestWithoutCallback | app/src/main/java/com/example/studymate/ui/screens/SignUpScreen.kt:186-227 | In any run, whatever the callbacks do: requests issued ≤ callbacks received + the request still pending. So no second request leaves before the first is answered. |
| SignUp.LoadingTracksOutstanding | app/src/main/java/com/example/studymate/ui/screens/SignUpScreen.kt:186-227 | In a run where callbacks arrive only while a request is pending: requests issued = callbacks received + the pending one. |
| SignUp.AtMostOneOutstanding | app/src/main/java/com/example/studymate/ui/screens/SignUpScreen.kt:186-227 | From a fresh screen, with such callbacks: at most one request is outstanding at any time. One is outstanding exactly when `loading` is true. |
| SignUp.NoErrorWhilePending | app/src/main/java/com/example/studymate/ui/screens/SignUpScreen.kt:176-216 | In any run from a form that shows no error while pending, the final form shows no error while pending. |
| SignUp.SignUpScreen.constructor | app/src/main/java/com/example/studymate/ui/screens/SignUpScreen.kt:31-37 | All four fields are empty, the form is not loading and there is no error. |
| SignUp.SignUpScreen.OnValueChange | app/src/main/java/com/example/studymate/ui/screens/SignUpScreen.kt:97-158 | The in-place update agrees with `Changed`. |
| SignUp.SignUpScreen.Submit | app/src/main/java/com/example/studymate/ui/screens/SignUpScreen.kt:176-227 | The in-place update and the issued effects agree with `Submitted`. |
| SignUp.SignUpScreen.OnSuccess | app/src/main/java/com/example/studymate/ui/screens/SignUpScreen.kt:193-211 | The in-place update and the issued effects agree with `Succeeded`. |
| SignUp.SignUpScreen.OnError | app/src/main/java/com/example/studymate/ui/screens/SignUpScreen.kt:213-216 | The in-place update agrees with `Failed`. |
| SignUp.SignUpScreen.LoginLink | app/src/main/java/com/example/studymate/ui/screens/SignUpScreen.kt:249-252 | Changes no form state and issues the single navigation to login, which pops login inclusive. |
| Login.Attempt | app/src/main/java/com/example/studymate/ui/screens/LoginScreen.kt:124-144 | The first effect is the snackbar "Successfully signed in!" when the credentials match, else "Invalid username or password". The only navigation is the one home, issued only on a match. Nothing else is issued: the trace is the snackbar plus, on a match, that navigation. |
| Login.NavigatesIffCredentialsMatch | app/src/main/java/com/example/studymate/ui/screens/LoginScreen.kt:32-134 | A login navigates exactly when the username is "user" and the password is "password123", compared exactly. It then navigates to home, popping the start destination inclusive, single-top. |
| Login.EmptyFieldsFail | app/src/main/java/com/example/studymate/ui/screens/LoginScreen.kt:125-143 | An empty username or password is not special-cased. It produces only the failure snackbar and no navigation. |
| Login.LoginScreen.constructor | app/src/main/java/com/example/studymate/ui/screens/LoginScreen.kt:26-27 | Both fields start empty. |
| Login.LoginScreen.OnUsernameChange | app/src/main/java/com/example/studymate/ui/screens/LoginScreen.kt:88 | Sets the username and keeps the password. |
| Login.LoginScreen.OnPasswordChange | app/src/main/java/com/example/studymate/ui/screens/LoginScreen.kt:106 | Sets the password and keeps the username. |
| Login.LoginScreen.Submit | app/src/main/java/com/example/studymate/ui/screens/LoginScreen.kt:124-144 | Issues exactly `Attempt(username, password)` and writes no field. |
| Login.LoginScreen.SignUpLink | app/src/main/java/com/example/studymate/ui/screens/LoginScreen.kt:159 | Issues the single navigation to signup with no `popUpTo`. |
| Splash.Destination | app/src/main/java/com/example/studymate/ui/screens/SplashScreen.kt:37-49 | The target is home exactly when a user is stored and login exactly when none is. Both pop splash inclusive. |
| Splash.AutoLogin | app/src/main/java/com/example/studymate/ui/screens/SplashScreen.kt:34-49 | One run issues, in order: the 1800 ms pause, the stored-user read, then exactly one navigation, the route decision. No navigation comes before the read. |

## Left out

- Layout, styling, theming, animation, and the static screens (home, timer, subjects, tasks, quotes, notifications): they make no decisions.
- The navigation library's back-stack semantics (`popUpTo`, `launchSingleTop`, the id of the start destination): commands are recorded as issued, not executed.
- The internals of the auth view model and of the local database (a remote auth service and an on-device store): their results are inputs. A read that throws is not modelled because the code has no path for it.
- Coroutine scheduling and snackbar display: the effects are ordered as issued. A screen left while a `signUp` request is pending is not modelled, because nothing in the code cancels the request. On login, the snackbar runs in a launched coroutine, so the navigation does not wait for it.
- `LaunchedEffect(true)` runs once per entry of the splash screen into composition. `Splash.AutoLogin` models one such run. Re-entry is a recomposition concern.
- The Sign Up button's `onClick` does not itself read `loading`; only the button's `enabled = !loading` stops a second tap. The model folds that guard into `Submitted`, which matches the screen once it has recomposed after `loading = true`. A tap delivered before that recomposition is not modelled.
- The splash screen's other effect (the entry animation) and its delays are presentation only.
