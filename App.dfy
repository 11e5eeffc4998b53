/** The root component (src/App.tsx): a gate over two flags, `loading` and
    `isAuthenticated`, that decides which screen is rendered. */
module App {

  import opened Wrappers
  import opened Provider

  datatype Screen = LoadingScreen | AuthScreen | ChatScreen

  /** How the awaited `signOut()` of the logout handler ended. */
  datatype SignOutOutcome = SignedOut | SignOutRejected

  /** The render cascade: loading first, then the auth page for a visitor,
      else the chat layout. Exactly one screen is chosen for every state. */
  function ScreenFor(loading: bool, isAuthenticated: bool): (s: Screen)
    ensures s == LoadingScreen <==> loading
    ensures s == AuthScreen <==> !loading && !isAuthenticated
    ensures s == ChatScreen <==> !loading && isAuthenticated
  {
    if loading then LoadingScreen
    else if !isAuthenticated then AuthScreen
    else ChatScreen
  }

  class AuthGate {
    var isAuthenticated: bool
    var loading: bool

    /** The initial state: still probing, not authenticated; the loading
        screen is shown. */
    constructor ()
      ensures loading && !isAuthenticated
      ensures Render() == LoadingScreen
    {
      isAuthenticated := false;
      loading := true;
    }

    /** The end of `initAuth`: `user` is what the probe `getUser()` returned. */
    method InitAuthResolved(user: Option<User>)
      modifies this
      ensures isAuthenticated == user.Some?
      ensures !loading
    {
      isAuthenticated := user.Some?;
      loading := false;
    }

    /** The `onAuthStateChanged` listener; the event name is ignored. */
    method OnAuthStateChanged(event: string, session: Option<Session>)
      modifies this
      ensures isAuthenticated == session.Some?
      ensures loading == old(loading)
    {
      isAuthenticated := session.Some?;
    }

    /** `handleAuthSuccess`, called by the auth page. */
    method HandleAuthSuccess()
      modifies this
      ensures isAuthenticated
      ensures loading == old(loading)
    {
      isAuthenticated := true;
    }

    /** `handleLogout`: the flag is cleared only once `signOut()` has
        resolved; a rejected sign-out leaves the state as it was. */
    method HandleLogout(signOut: SignOutOutcome)
      modifies this
      ensures signOut == SignedOut ==> !isAuthenticated
      ensures signOut == SignOutRejected ==> isAuthenticated == old(isAuthenticated)
      ensures loading == old(loading)
    {
      if signOut == SignedOut {
        isAuthenticated := false;
      }
    }

    /** The screen the component renders in its current state. */
    function Render(): (s: Screen)
      reads this
      ensures s == LoadingScreen <==> loading
      ensures s == AuthScreen <==> !loading && !isAuthenticated
      ensures s == ChatScreen <==> !loading && isAuthenticated
    {
      ScreenFor(loading, isAuthenticated)
    }
  }

  /** Start-up as the component runs it: the probe resolves, and the screen
      follows the probe's answer. */
  method StartUp(user: Option<User>) returns (gate: AuthGate, screen: Screen)
    ensures screen == if user.Some? then ChatScreen else AuthScreen
  {
    gate := new AuthGate();
    gate.InitAuthResolved(user);
    screen := gate.Render();
  }
}
