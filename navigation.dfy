/** Destinations and the navigation commands the screens issue. The command is
    recorded as issued; what the navigation library then does to its back stack
    is not part of this model. */
module Navigation {

  /** The destinations the three screens name. */
  datatype Route = Splash | Login | Signup | Home

  /** What a `popUpTo` block names: a route by its name, or the graph's start
      destination by its id. */
  datatype PopTarget = ToRoute(route: Route) | ToStartDestination

  /** The `popUpTo` part of a navigate call, absent when the call has no block. */
  datatype PopUpTo = NoPopUp | PopUpTo(target: PopTarget, inclusive: bool)

  /** One `navigate(dest) { popUpTo(...) { inclusive = ... }; launchSingleTop = ... }` call. */
  datatype NavCommand = NavCommand(dest: Route, popUpTo: PopUpTo, launchSingleTop: bool)

  /** The command pops the back stack up to and including `r`. */
  predicate RemovesRoute(cmd: NavCommand, r: Route) {
    cmd.popUpTo == PopUpTo(ToRoute(r), true)
  }
}

/** The observable effects of the screens' handlers, in the order they are issued. */
module Effects {
  import opened Navigation

  datatype Effect =
    | ShowSnackbar(message: string)
    | Delay(millis: nat)
    | Navigate(command: NavCommand)
    | CallSignUp(username: string, email: string, password: string)
    | ReadStoredUser

  /** The navigation commands among `effects`, in order. */
  function Navigations(effects: seq<Effect>): seq<NavCommand> {
    if effects == [] then []
    else (if effects[0].Navigate? then [effects[0].command] else []) + Navigations(effects[1..])
  }

  /** How many `signUp` requests `effects` issues. */
  function SignUpCalls(effects: seq<Effect>): nat {
    if effects == [] then 0
    else (if effects[0].CallSignUp? then 1 else 0) + SignUpCalls(effects[1..])
  }

  lemma {:induction false} SignUpCallsAppend(a: seq<Effect>, b: seq<Effect>)
    ensures SignUpCalls(a + b) == SignUpCalls(a) + SignUpCalls(b)
  {
    if a == [] {
      assert a + b == b;
    } else {
      assert (a + b)[1..] == a[1..] + b;
      SignUpCallsAppend(a[1..], b);
    }
  }
}
