/** The authentication context: a token and a role kept in component state
    and mirrored in local storage under the keys `token` and `role`. */
module AuthContext {
  import opened Js
  import opened Wrappers
  import opened Browser
  import PrivateRoute

  const TOKEN_KEY := "token"
  const ROLE_KEY := "role"

  /** The context's state together with the local storage it mirrors. */
  datatype Auth = Auth(authToken: Option<string>, userRole: Option<string>, local: Store)

  /** `localStorage.getItem(key)`, or `null` when that is falsy. */
  function Remembered(local: Store, key: string): (v: Option<string>)
    ensures v.Some? <==> Holds(local, key)
    ensures v.Some? ==> v.value == local[key]
  {
    if Holds(local, key) then Some(local[key]) else None
  }

  /** The state of a freshly mounted provider. */
  function Initial(local: Store): (a: Auth)
    ensures a.local == local
    ensures a.authToken == Remembered(local, TOKEN_KEY) && a.userRole == Remembered(local, ROLE_KEY)
  {
    Auth(Remembered(local, TOKEN_KEY), Remembered(local, ROLE_KEY), local)
  }

  /** `login(token, role)`: both state values and both keys take the new values. */
  function LoggedIn(a: Auth, token: string, role: string): (b: Auth)
    ensures b.authToken == Some(token) && b.userRole == Some(role)
    ensures b.local == a.local[TOKEN_KEY := token][ROLE_KEY := role]
  {
    Auth(Some(token), Some(role), a.local[TOKEN_KEY := token][ROLE_KEY := role])
  }

  /** `logout()`: both state values become null and both keys are removed. */
  function LoggedOut(a: Auth): (b: Auth)
    ensures b.authToken == None && b.userRole == None
    ensures TOKEN_KEY !in b.local && ROLE_KEY !in b.local
    ensures forall k :: k != TOKEN_KEY && k != ROLE_KEY ==> Item(b.local, k) == Item(a.local, k)
  {
    Auth(None, None, a.local - {TOKEN_KEY, ROLE_KEY})
  }

  /** Logging out twice is logging out once. */
  lemma LogoutIdempotent(a: Auth)
    ensures LoggedOut(LoggedOut(a)) == LoggedOut(a)
  {
    assert LoggedOut(LoggedOut(a)).local == LoggedOut(a).local;
  }

  /** A login followed by a logout leaves what a logout alone leaves. */
  lemma LoginThenLogout(a: Auth, token: string, role: string)
    ensures LoggedOut(LoggedIn(a, token, role)) == LoggedOut(a)
  {
    assert LoggedOut(LoggedIn(a, token, role)).local == LoggedOut(a).local;
  }

  /** A remounted provider sees exactly what `login` stored, as long as the
      values are not empty. */
  lemma LoginSurvivesReload(a: Auth, token: string, role: string)
    requires token != "" && role != ""
    ensures Initial(LoggedIn(a, token, role).local) == LoggedIn(a, token, role)
  {
  }

  /** The context's keys are not the ones the route guard reads: its logout
      does not lock the browser out, and its login does not let it in. */
  lemma ContextDoesNotDriveTheGuard(a: Auth, token: string, role: string)
    ensures PrivateRoute.Guard(LoggedOut(a).local) == PrivateRoute.Guard(a.local)
    ensures PrivateRoute.Guard(LoggedIn(a, token, role).local) == PrivateRoute.Guard(a.local)
  {
  }

  /** The provider component; its two state values live in its fields. */
  class AuthProvider {
    var authToken: Option<string>
    var userRole: Option<string>
    const window: Window

    function State(): Auth
      reads this, window
    {
      Auth(authToken, userRole, window.local)
    }

    constructor (window: Window)
      ensures this.window == window
      ensures State() == Initial(window.local)
    {
      this.window := window;
      authToken := if Truthy(Item(window.local, TOKEN_KEY)) then Some(window.local[TOKEN_KEY]) else None;
      userRole := if Truthy(Item(window.local, ROLE_KEY)) then Some(window.local[ROLE_KEY]) else None;
    }

    method LogIn(token: string, role: string)
      modifies this, window`local
      ensures State() == LoggedIn(old(State()), token, role)
    {
      authToken := Some(token);
      userRole := Some(role);
      window.local := window.local[TOKEN_KEY := token];
      window.local := window.local[ROLE_KEY := role];
    }

    method LogOut()
      modifies this, window`local
      ensures State() == LoggedOut(old(State()))
    {
      authToken := None;
      userRole := None;
      window.local := window.local - {TOKEN_KEY};
      window.local := window.local - {ROLE_KEY};
    }
  }
}
