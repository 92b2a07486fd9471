/** The registration form: a client-side password check, the POST of the
    whole form, and the notice built from the server's error body. */
module Register {
  import opened Text
  import opened Js
  import opened Wrappers
  import opened Browser
  import Serializers
  import Api

  /** The form's text fields by name. */
  type Fields = map<string, string>

  const MISMATCH_NOTICE := "❌ Passwords do not match"
  const SUCCESS_NOTICE := "🎉 Registered successfully. You can now log in."
  const FAILURE_NOTICE := "❌ Registration failed"

  /** The status DRF answers a create request whose validation fails with. */
  const BAD_REQUEST := 400

  /** `Object.values(data)` of a truthy error body; text is split into its characters. */
  function BodyValues(body: Body): (vs: seq<Value>)
    requires body.Truthy()
    ensures body.JsonObject? ==> vs == Values(body.entries)
    ensures body.JsonText? ==> vs == Strs(seq(|body.text|, i requires 0 <= i < |body.text| => [body.text[i]]))
  {
    if body.JsonObject? then Values(body.entries)
    else Strs(seq(|body.text|, i requires 0 <= i < |body.text| => [body.text[i]]))
  }

  /** The notice for a failed registration: every value of the error body,
      flattened one level and joined with spaces, or the default text when
      that is empty or there is no body. It is never empty. */
  function ErrorMessage(body: Body): (msg: string)
    ensures msg != ""
    ensures !body.Truthy() ==> msg == FAILURE_NOTICE
    ensures body.Truthy() && JoinItems(Flat(BodyValues(body)), " ") != "" ==> msg == JoinItems(Flat(BodyValues(body)), " ")
  {
    if !body.Truthy() then FAILURE_NOTICE
    else
      var joined := JoinItems(Flat(BodyValues(body)), " ");
      if joined != "" then joined else FAILURE_NOTICE
  }

  /** Every message of a validation error body, field after field. */
  function Messages(errors: Serializers.Errors): seq<string> {
    if errors == [] then [] else errors[0].1 + Messages(errors[1..])
  }

  /** Flattening the values of a serializer's error body gives its messages. */
  lemma {:induction false} FlatErrorValues(errors: Serializers.Errors)
    ensures Flat(Values(Serializers.ErrorJson(errors))) == Strs(Messages(errors))
  {
    if errors != [] {
      FlatErrorValues(errors[1..]);
      assert Values(Serializers.ErrorJson(errors))[1..] == Values(Serializers.ErrorJson(errors[1..]));
      assert Strs(Messages(errors)) == Strs(errors[0].1) + Strs(Messages(errors[1..]));
    }
  }

  /** For a serializer's error body the notice is its messages joined with
      spaces, or the default text when that is empty. */
  lemma {:induction false} ErrorMessageOfErrors(errors: Serializers.Errors)
    ensures var joined := Join(Messages(errors), " ");
            ErrorMessage(JsonObject(Serializers.ErrorJson(errors))) == if joined != "" then joined else FAILURE_NOTICE
  {
    FlatErrorValues(errors);
    JoinStrs(Messages(errors), " ");
  }

  /** The client-side check: `password !== password2`. */
  predicate PasswordsDiffer(form: Fields) {
    !StrictEquals(FieldText(form, "password"), FieldText(form, "password2"))
  }

  /** The page compares the raw texts: two present fields differ exactly when
      their texts do, two missing ones are equal (`undefined === undefined`),
      and one missing field differs from a present one. Surrounding spaces
      count here, though the backend strips them. */
  lemma PasswordsDifferAsTexts(form: Fields)
    ensures "password" in form && "password2" in form ==> (PasswordsDiffer(form) <==> form["password"] != form["password2"])
    ensures "password" !in form && "password2" !in form ==> !PasswordsDiffer(form)
    ensures ("password" in form) != ("password2" in form) ==> PasswordsDiffer(form)
    ensures PasswordsDiffer(map["password" := "secret", "password2" := "secret "])
  {
    var padded := map["password" := "secret", "password2" := "secret "];
    assert padded["password"] != padded["password2"] by {
      assert |padded["password"]| != |padded["password2"]|;
    }
  }

  /** The body the backend sends back for a form its serializer refuses. */
  function RefusalBody(form: Fields): (body: Body)
    requires Serializers.ValidateRegistration(form).Rejected?
    ensures body.Truthy()
  {
    JsonObject(Serializers.ErrorJson(Serializers.ValidateRegistration(form).errors))
  }

  /** A form the backend refuses with a 400 passes the client's response
      interceptor untouched, so the page gets the refusal with its response,
      and the notice is the backend's messages joined with spaces: for a
      blank username with matching, non-blank passwords, the blank-field
      message. */
  lemma {:induction false} RefusalNotice(form: Fields, local: Store, location: string, server: Api.Server, refresher: Api.RefreshServer)
    requires Serializers.ValidateRegistration(form).Rejected?
    requires server(0, Api.WithBearer(map[], local)) == Api.Response(BAD_REQUEST)
    ensures var g := Api.Run(Api.Start(local, location, map[]), server, refresher);
            && g.phase.outcome == Api.Rejected(Api.HttpFailure(Api.Response(BAD_REQUEST)))
            && g.phase.outcome.failure.HasResponse()
            && g.local == local && g.location == location
    ensures ErrorMessage(RefusalBody(form)) == Join(Messages(Serializers.ValidateRegistration(form).errors), " ")
    ensures "username" in form && AllSpace(form["username"]) && "password" in form && "password2" in form
            && form["password"] == form["password2"] && Trim(form["password"]) != ""
            ==> ErrorMessage(RefusalBody(form)) == Serializers.BLANK
  {
    Api.OtherRepliesPassThrough(local, location, map[], server, refresher);
    var errors := Serializers.ValidateRegistration(form).errors;
    ErrorMessageOfErrors(errors);
    assert errors != [] && errors[0].1 != [] && errors[0].1[0] != "";
    assert Messages(errors)[0] == errors[0].1[0];
    JoinEmptyIffAllEmpty(Messages(errors), " ");
    if "username" in form && AllSpace(form["username"]) && "password" in form && "password2" in form
       && form["password"] == form["password2"] && Trim(form["password"]) != "" {
      TrimEmptyIffAllSpace(form["username"]);
      assert errors == [("username", [Serializers.BLANK])];
      assert Messages(errors) == [Serializers.BLANK];
    }
  }

  class RegisterPage {
    var formData: Fields
    var loading: bool
    const window: Window

    /** First render: four empty fields, not loading. */
    constructor (window: Window)
      ensures this.window == window
      ensures formData == map["username" := "", "email" := "", "password" := "", "password2" := ""]
      ensures !loading
    {
      this.window := window;
      formData := map["username" := "", "email" := "", "password" := "", "password2" := ""];
      loading := false;
    }

    /** `handleChange`: only the named field takes the typed value. */
    method HandleChange(name: string, value: string)
      modifies this`formData
      ensures formData == old(formData)[name := value]
    {
      formData := formData[name := value];
    }

    /** `handleRegister`. Differing passwords stop it before any request and
        leave `loading` alone. Otherwise the whole form is posted, unchanged,
        through the configured client, whose interceptors may end the stored
        session first; success goes to the login page, a failure that carries
        a response shows the notice built from `body`, the data of that
        response, any other failure the default notice, and `loading` is off
        at the end either way. */
    method HandleRegister(server: Api.Server, refresher: Api.RefreshServer, body: Body) returns (posted: Option<Fields>, notice: string)
      modifies this`loading, window`local, window`location
      ensures PasswordsDiffer(formData) ==>
        && posted == None && notice == MISMATCH_NOTICE && loading == old(loading)
        && window.local == old(window.local) && window.location == old(window.location)
      ensures !PasswordsDiffer(formData) ==>
        var g := Api.Run(Api.Start(old(window.local), old(window.location), map[]), server, refresher);
        && posted == Some(formData) && !loading && window.local == g.local
        && (g.phase.outcome.Resolved? ==> window.location == LOGIN_PATH && notice == SUCCESS_NOTICE)
        && (g.phase.outcome.Rejected? ==>
              && window.location == g.location
              && notice == ErrorMessage(if g.phase.outcome.failure.HasResponse() then body else NoBody))
    {
      if !StrictEquals(FieldText(formData, "password"), FieldText(formData, "password2")) {
        return None, MISMATCH_NOTICE;
      }
      loading := true;
      posted := Some(formData);
      var config := new Api.Config(map[]);
      var outcome := Api.Send(window, config, server, refresher);
      match outcome {
        case Resolved(_) =>
          notice := SUCCESS_NOTICE;
          window.location := LOGIN_PATH;
        case Rejected(failure) =>
          if failure.HasResponse() && body.Truthy() {
            var joined := JoinItems(Flat(BodyValues(body)), " ");
            notice := if joined != "" then joined else FAILURE_NOTICE;
          } else {
            notice := FAILURE_NOTICE;
          }
      }
      loading := false;
    }
  }
}
