/** The auto-login effect of `SplashScreen`: after a fixed pause, one read of the
    stored user chooses home or login, and splash leaves the back stack. */
module Splash {
  import opened Optional
  import opened Navigation
  import opened Effects

  /** The pause before the stored user is read. */
  const AutoLoginDelayMillis: nat := 1800

  /** The user row the local database may hold; only its presence matters. */
  datatype StoredUser = StoredUser(uid: string)

  /** The route decision: home when a user is stored, login otherwise; both pop
      splash inclusive so it cannot be returned to. */
  function Destination(stored: Option<StoredUser>): (cmd: NavCommand)
    ensures cmd.dest == Home <==> stored.Some?
    ensures cmd.dest == Login <==> stored.None?
    ensures RemovesRoute(cmd, Splash) && !cmd.launchSingleTop
  {
    if stored.Some? then NavCommand(Home, PopUpTo(ToRoute(Splash), true), false)
    else NavCommand(Login, PopUpTo(ToRoute(Splash), true), false)
  }

  /** One run of `LaunchedEffect(true)`. `stored` is what the read yields when it
      happens; the returned trace orders the pause, the read and the navigation. */
  method AutoLogin(stored: Option<StoredUser>) returns (trace: seq<Effect>)
    ensures |trace| == 3
    ensures trace[0] == Delay(AutoLoginDelayMillis) && trace[1] == ReadStoredUser
    // exactly one navigation is issued, and it is the route decision
    ensures Navigations(trace) == [Destination(stored)]
    // nothing is navigated before the read
    ensures forall i :: 0 <= i < |trace| && trace[i].Navigate? ==> i == 2
  {
    trace := [Delay(AutoLoginDelayMillis)];
    trace := trace + [ReadStoredUser];
    trace := trace + [Navigate(Destination(stored))];
    assert trace[1..][1..][1..] == [];
    assert Navigations(trace[1..][1..]) == [Destination(stored)];
  }
}
