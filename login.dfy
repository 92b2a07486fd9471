/** The login form: prefilled credentials, the "remember me" choice, and
    where a successful login keeps its tokens. */
module Login {
  import opened Js
  import opened Browser
  import Api

  /** The form's text fields by name. */
  type Fields = map<string, string>

  const DEFAULT_USERNAME := "odoi"
  const DEFAULT_PASSWORD := "odoi@1234567890"
  const HOME_PATH := "/"

  /** The two stores after a successful login. Remembered: both tokens and
      the username go to local storage and session storage is untouched. Not
      remembered: both tokens go to session storage, the saved username is
      removed, and no token is written to local storage. */
  function SignedIn(local: Store, session: Store, rememberMe: bool, username: string, access: string, refresh: string): (stores: (Store, Store))
    ensures rememberMe ==> stores.1 == session
    ensures rememberMe ==> stores.0 == local[ACCESS_TOKEN := access][REFRESH_TOKEN := refresh][SAVED_USERNAME := username]
    ensures !rememberMe ==> stores.1 == session[ACCESS_TOKEN := access][REFRESH_TOKEN := refresh]
    ensures !rememberMe ==> stores.0 == local - {SAVED_USERNAME}
    ensures !rememberMe ==> forall k :: k != SAVED_USERNAME ==> Item(stores.0, k) == Item(local, k)
  {
    if rememberMe then
      (local[ACCESS_TOKEN := access][REFRESH_TOKEN := refresh][SAVED_USERNAME := username], session)
    else
      (local - {SAVED_USERNAME}, session[ACCESS_TOKEN := access][REFRESH_TOKEN := refresh])
  }

  /** A login that is not remembered leaves local storage's tokens as they were. */
  lemma ForgottenLoginKeepsLocalTokens(local: Store, session: Store, username: string, access: string, refresh: string)
    ensures var (l, _) := SignedIn(local, session, false, username, access, refresh);
            Item(l, ACCESS_TOKEN) == Item(local, ACCESS_TOKEN) && Item(l, REFRESH_TOKEN) == Item(local, REFRESH_TOKEN)
  {
  }

  class LoginForm {
    var credentials: Fields
    var loading: bool
    var errorShake: bool
    var rememberMe: bool
    const window: Window

    /** First render: the default credentials, not loading, and "remember
        me" ticked exactly when local storage holds a truthy access token. */
    constructor (window: Window)
      ensures this.window == window
      ensures credentials == map["username" := DEFAULT_USERNAME, "password" := DEFAULT_PASSWORD]
      ensures !loading && !errorShake
      ensures rememberMe == Holds(window.local, ACCESS_TOKEN)
    {
      this.window := window;
      credentials := map["username" := DEFAULT_USERNAME, "password" := DEFAULT_PASSWORD];
      loading := false;
      errorShake := false;
      rememberMe := Truthy(Item(window.local, ACCESS_TOKEN));
    }

    /** The mount effects: a truthy saved username replaces the username (the
        password stays), and a truthy access token sends the browser home. */
    method Mount()
      modifies this`credentials, window`location
      ensures Holds(window.local, SAVED_USERNAME) ==> credentials == old(credentials)["username" := window.local[SAVED_USERNAME]]
      ensures !Holds(window.local, SAVED_USERNAME) ==> credentials == old(credentials)
      ensures window.location == if Holds(window.local, ACCESS_TOKEN) then HOME_PATH else old(window.location)
    {
      var saved := Item(window.local, SAVED_USERNAME);
      if Truthy(saved) {
        credentials := credentials["username" := saved.s];
      }
      var token := Item(window.local, ACCESS_TOKEN);
      if Truthy(token) {
        window.location := HOME_PATH;
      }
    }

    /** `handleChange`: only the named field takes the typed value. */
    method HandleChange(name: string, value: string)
      modifies this`credentials
      ensures credentials == old(credentials)[name := value]
    {
      credentials := credentials[name := value];
    }

    /** The "remember me" checkbox. */
    method ToggleRememberMe()
      modifies this`rememberMe
      ensures rememberMe == !old(rememberMe)
    {
      rememberMe := !rememberMe;
    }

    /** The start of `handleSubmit`: loading on, the shake cleared, and the
        body posted to the token endpoint: exactly the username and password
        (undefined when a field is missing). */
    method BeginSubmit() returns (payload: Object)
      modifies this`loading, this`errorShake
      ensures loading && !errorShake
      ensures payload.Keys == {"username", "password"}
      ensures forall k :: k in payload ==> payload[k] == FieldText(credentials, k)
    {
      loading := true;
      errorShake := false;
      payload := map["username" := FieldText(credentials, "username"), "password" := FieldText(credentials, "password")];
    }

    /** The end of `handleSubmit`: the POST to the token endpoint goes
        through the configured client, whose response interceptor handles a
        401 first (and may end the stored session). Success stores the
        returned tokens `access` and `refreshToken` in the tier "remember me"
        picks, over what the interceptors left, and goes home; failure writes
        nothing more and shakes the form. Loading ends either way. */
    method FinishSubmit(server: Api.Server, refresher: Api.RefreshServer, access: string, refreshToken: string)
      modifies this`loading, this`errorShake, window`local, window`session, window`location
      ensures !loading
      ensures var g := Api.Run(Api.Start(old(window.local), old(window.location), map[]), server, refresher);
        && (g.phase.outcome.Resolved? ==>
              && (window.local, window.session) == SignedIn(g.local, old(window.session), rememberMe,
                                                            Username(credentials), access, refreshToken)
              && window.location == HOME_PATH && errorShake == old(errorShake))
        && (g.phase.outcome.Rejected? ==>
              && window.local == g.local && window.session == old(window.session)
              && window.location == g.location && errorShake)
    {
      var config := new Api.Config(map[]);
      var outcome := Api.Send(window, config, server, refresher);
      match outcome {
        case Resolved(_) =>
          if rememberMe {
            window.local := window.local[ACCESS_TOKEN := access];
            window.local := window.local[REFRESH_TOKEN := refreshToken];
            window.local := window.local[SAVED_USERNAME := Username(credentials)];
          } else {
            window.session := window.session[ACCESS_TOKEN := access];
            window.session := window.session[REFRESH_TOKEN := refreshToken];
            window.local := window.local - {SAVED_USERNAME};
          }
          window.location := HOME_PATH;
        case Rejected(_) =>
          errorShake := true;
      }
      loading := false;
    }
  }

  /** Wrong credentials (a 401 from the token endpoint) on a browser that
      still stores an access token but no refresh token: the interceptor finds
      no refresh token, removes both tokens and sends the browser to the login
      page before the form is shaken. */
  lemma {:induction false} RefusedLoginEndsStaleSession(local: Store, location: string, server: Api.Server, refresher: Api.RefreshServer)
    requires Holds(local, ACCESS_TOKEN) && !Holds(local, REFRESH_TOKEN)
    requires server(0, Api.WithBearer(map[], local)).Unauthorized()
    ensures var g := Api.Run(Api.Start(local, location, map[]), server, refresher);
            && g.phase.outcome == Api.Rejected(Api.NoRefreshToken)
            && !Holds(g.local, ACCESS_TOKEN) && !Holds(g.local, REFRESH_TOKEN)
            && g.location == LOGIN_PATH
  {
    Api.MissingRefreshTokenEndsSession(local, location, map[], server, refresher);
  }

  /** `credentials.username` as stored: `setItem` turns `undefined` into text. */
  function Username(fields: Fields): string {
    ToText(FieldText(fields, "username"))
  }
}
