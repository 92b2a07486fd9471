/** The route guard that protects every page but the login page, and how it
    sees the storage that the other components leave behind. */
module PrivateRoute {
  import opened Browser
  import Login
  import Api

  /** What the guard renders. */
  datatype Rendered = Children | Navigate(to: string, replace: bool)

  /** The guard reads local storage only: the protected page is shown exactly
      when a truthy access token is there, otherwise the browser is sent to
      the login page, replacing the current history entry. */
  function Guard(local: Store): (r: Rendered)
    ensures r == Children <==> Holds(local, ACCESS_TOKEN)
    ensures r != Children ==> r == Navigate(LOGIN_PATH, true)
  {
    if Holds(local, ACCESS_TOKEN) then Children else Navigate(LOGIN_PATH, true)
  }

  /** A login without "remember me" on a browser with no access token in local
      storage keeps its tokens in session storage only, so its very next
      protected page sends it back to the login page. */
  lemma ForgottenLoginIsTurnedAway(local: Store, session: Store, username: string, access: string, refresh: string)
    requires !Holds(local, ACCESS_TOKEN)
    ensures var (l, s) := Login.SignedIn(local, session, false, username, access, refresh);
            Holds(s, ACCESS_TOKEN) == (access != "") && Guard(l) == Navigate(LOGIN_PATH, true)
  {
    Login.ForgottenLoginKeepsLocalTokens(local, session, username, access, refresh);
  }

  /** A remembered login with a non-empty access token passes the guard. */
  lemma RememberedLoginPasses(local: Store, session: Store, username: string, access: string, refresh: string)
    requires access != ""
    ensures Guard(Login.SignedIn(local, session, true, username, access, refresh).0) == Children
  {
  }

  /** After a logout, or after the client gave up on refreshing, the guard
      turns the browser away. */
  lemma ClearedSessionIsTurnedAway(local: Store)
    ensures Guard(ClearTokens(local)) == Navigate(LOGIN_PATH, true)
  {
  }

  /** A successful refresh with a non-empty token lets the guard through. */
  lemma RefreshedSessionPasses(local: Store, location: string, headers: Api.Headers, server: Api.Server, refresh: Api.RefreshServer, t: string)
    requires server(0, Api.WithBearer(headers, local)).Unauthorized()
    requires Holds(local, REFRESH_TOKEN)
    requires refresh(local[REFRESH_TOKEN]) == Api.Refreshed(t) && t != ""
    ensures Guard(Api.Run(Api.Start(local, location, headers), server, refresh).local) == Children
  {
    Api.RefreshSuccessRetriesOnce(local, location, headers, server, refresh, t);
  }
}
