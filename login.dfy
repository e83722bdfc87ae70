/** The user step of the config flow: the login response is classified into
    an errors map, and the step either aborts on a configured username,
    creates an entry, or shows the credential form again with the errors. */
module Login {
  import opened FlowValues

  /** A body as `response.json()` decodes it (every JSON number is a `JNumber`). */
  datatype Json =
    | JNull
    | JBool(b: bool)
    | JNumber(n: real)
    | JString(s: string)
    | JArray(items: seq<Json>)
    | JObject(fields: map<string, Json>)

  /** What the POST to the login URL yields: a status and a decoded body, or an
      exception out of `session.post` or `response.json()`. */
  datatype Exchange =
    | Response(status: int, body: Json)
    | TransportFailure

  /** The JSON payload of the login POST: `email` and `password` taken from the input. */
  datatype LoginRequest = LoginRequest(email: Value, password: Value)

  /** What `_async_validate_credentials` does: return an errors map or raise. */
  datatype Validation =
    | Errors(errors: map<string, string>)
    | Raised(failure: Failure)

  /** The outcome of the lookup `data.get("error", {}).get("code") if isinstance(data, dict) else None`:
      the value found (`JNull` for Python's None), or `NoGet` when `.get` is
      called on something that is not a dict. */
  datatype CodeLookup = Found(code: Json) | NoGet

  const InvalidAuth: map<string, string> := map["base" := "invalid_auth"]
  const CannotConnect: map<string, string> := map["base" := "cannot_connect"]

  /** The error codes that mean wrong password, unknown login or disabled account. */
  const InvalidAuthCodes: set<string> := {"LOGIN_007", "LOGIN_000", "LOGIN_008"}

  /** `data.get("error") is not None` on a dict body. */
  predicate ErrorPresent(fields: map<string, Json>) {
    "error" in fields && fields["error"] != JNull
  }

  /** The `"error"` member is a dict, so it can be asked for its `"code"`. */
  predicate ErrorIsDict(fields: map<string, Json>) {
    "error" in fields && fields["error"].JObject?
  }

  /** The `"error"` dict carries a string code from the invalid-auth set. */
  predicate BadCredentialCode(fields: map<string, Json>) {
    && ErrorIsDict(fields)
    && "code" in fields["error"].fields
    && fields["error"].fields["code"].JString?
    && fields["error"].fields["code"].s in InvalidAuthCodes
  }

  /** The response the code accepts: status 200, a dict body, no `"error"` or a null one. */
  predicate Accepted(reply: Exchange) {
    reply.Response? && reply.status == 200 && reply.body.JObject? && !ErrorPresent(reply.body.fields)
  }

  function ErrorCode(data: Json): CodeLookup {
    if !data.JObject? || "error" !in data.fields then Found(JNull)
    else
      match data.fields["error"]
      case JObject(e) => Found(if "code" in e then e["code"] else JNull)
      case _ => NoGet
  }

  /** `_async_validate_credentials` after the POST: the test of line 45
      (short-circuit `or`, so `data.get` runs only when the status is 200),
      the code lookup of line 46 and the membership test of line 47. */
  function ValidateCredentials(reply: Exchange): (r: Validation)
    ensures r.Errors? ==> r.errors in {map[], InvalidAuth, CannotConnect}
    ensures r.Errors? && r.errors != map[] ==> r.errors.Keys == {"base"}
  {
    match reply
    case TransportFailure => Raised(TransportError)
    case Response(status, data) =>
      if status == 200 && !data.JObject? then Raised(BodyNotDict)
      else if status == 200 && !ErrorPresent(data.fields) then Errors(map[])
      else
        match ErrorCode(data)
        case NoGet => Raised(ErrorNotDict)
        case Found(code) =>
          if code.JString? && code.s in InvalidAuthCodes then Errors(InvalidAuth)
          else Errors(CannotConnect)
  }

  /** The three errors maps are distinct, so the user can tell the outcomes apart. */
  lemma ErrorMapsDistinct()
    ensures map[] != InvalidAuth && map[] != CannotConnect && InvalidAuth != CannotConnect
  {
    assert "base" in InvalidAuth && "base" in CannotConnect;
    assert InvalidAuth["base"] != CannotConnect["base"];
  }

  /** Success exactly on status 200 with a dict body whose `"error"` is absent or null. */
  lemma AcceptedIff(reply: Exchange)
    ensures ValidateCredentials(reply) == Errors(map[]) <==> Accepted(reply)
  {
    ErrorMapsDistinct();
  }

  /** A bad-credential code gives `invalid_auth` whatever the status, and nothing else does. */
  lemma InvalidAuthIff(reply: Exchange)
    ensures ValidateCredentials(reply) == Errors(InvalidAuth)
        <==> reply.Response? && reply.body.JObject? && BadCredentialCode(reply.body.fields)
  {
    ErrorMapsDistinct();
  }

  /** In the failure branch, a missing code or a code outside the set gives
      `cannot_connect`, and so does a non-200 status with a body that is not a dict. */
  lemma CannotConnectIff(reply: Exchange)
    ensures ValidateCredentials(reply) == Errors(CannotConnect)
        <==> && reply.Response?
             && if reply.body.JObject? then
                  var fields := reply.body.fields;
                  && (reply.status != 200 || ErrorPresent(fields))
                  && ("error" !in fields || (ErrorIsDict(fields) && !BadCredentialCode(fields)))
                else reply.status != 200
  {
    ErrorMapsDistinct();
  }

  /** The three ways the code raises instead of returning errors; a failed
      POST is never turned into `cannot_connect`. */
  lemma RaisesIff(reply: Exchange)
    ensures reply.TransportFailure? ==> ValidateCredentials(reply) == Raised(TransportError)
    ensures reply.Response? && reply.status == 200 && !reply.body.JObject?
        ==> ValidateCredentials(reply) == Raised(BodyNotDict)
    ensures reply.Response? && reply.status != 200 && reply.body.JObject?
            && "error" in reply.body.fields && reply.body.fields["error"] == JNull
        ==> ValidateCredentials(reply) == Raised(ErrorNotDict)
    ensures ValidateCredentials(reply).Raised?
        <==> || reply.TransportFailure?
             || (reply.status == 200 && !reply.body.JObject?)
             || (&& reply.body.JObject?
                 && (reply.status != 200 || ErrorPresent(reply.body.fields))
                 && "error" in reply.body.fields
                 && !ErrorIsDict(reply.body.fields))
  {
  }

  /** The errors returned are exactly the three maps: each of them is returned
      for some response, and no other map ever is. */
  lemma ValidationRange(errors: map<string, string>)
    ensures (exists reply :: ValidateCredentials(reply) == Errors(errors))
        <==> errors in {map[], InvalidAuth, CannotConnect}
  {
    if errors == map[] {
      var ok := Response(200, JObject(map[]));
      assert ValidateCredentials(ok) == Errors(errors);
    } else if errors == InvalidAuth {
      var bad := Response(401, JObject(map["error" := JObject(map["code" := JString("LOGIN_007")])]));
      assert ValidateCredentials(bad) == Errors(errors);
    } else if errors == CannotConnect {
      var down := Response(503, JObject(map[]));
      assert ValidateCredentials(down) == Errors(errors);
    }
  }

  /** `async_step_user`: no input shows the blank form; otherwise the unique id
      is set from the username and the flow aborts if it is configured, before
      the password is read or the login call is made; then the response of
      `login` to the credentials is classified. */
  function UserStep(input: Option<map<Key, Value>>, configured: set<Value>,
                    login: LoginRequest -> Exchange): (r: FlowResult)
    ensures input.None? ==> r == ShowForm("user", map[], map[])
    ensures r.CreateEntry? ==>
              && input.Some? && Username in input.value
              && input.value[Username] !in configured
              && r.title == input.value[Username] && r.data == input.value
    ensures r.ShowForm? ==>
              && r.stepId == "user" && r.defaults == map[]
              && r.errors in {map[], InvalidAuth, CannotConnect}
              && (input.Some? <==> r.errors != map[])
    ensures r.Abort? ==>
              && r.reason == "already_configured"
              && input.Some? && Username in input.value && input.value[Username] in configured
  {
    match input
    case None => ShowForm("user", map[], map[])
    case Some(ui) =>
      if Username !in ui then Raise(MissingKey(Username))
      else if ui[Username] in configured then Abort("already_configured")
      else if Password !in ui then Raise(MissingKey(Password))
      else
        match ValidateCredentials(login(LoginRequest(ui[Username], ui[Password])))
        case Raised(f) => Raise(f)
        case Errors(errors) =>
          if errors == map[] then CreateEntry(ui[Username], ui)
          else ShowForm("user", map[], errors)
  }

  /** An entry is created exactly when the username is new and the service
      accepts the credentials; its title is the username and its data the input unchanged. */
  lemma UserStepCreatesEntryIff(ui: map<Key, Value>, configured: set<Value>, login: LoginRequest -> Exchange)
    ensures UserStep(Some(ui), configured, login).CreateEntry?
        <==> && Username in ui && ui[Username] !in configured && Password in ui
             && Accepted(login(LoginRequest(ui[Username], ui[Password])))
    ensures UserStep(Some(ui), configured, login).CreateEntry?
        ==> UserStep(Some(ui), configured, login) == CreateEntry(ui[Username], ui)
  {
    if Username in ui && ui[Username] !in configured && Password in ui {
      AcceptedIff(login(LoginRequest(ui[Username], ui[Password])));
    }
  }

  /** A configured username aborts the flow whatever the login service would answer. */
  lemma UserStepAbortsBeforeLogin(ui: map<Key, Value>, configured: set<Value>,
                                  login: LoginRequest -> Exchange, otherLogin: LoginRequest -> Exchange)
    requires Username in ui && ui[Username] in configured
    ensures UserStep(Some(ui), configured, login) == Abort("already_configured")
    ensures UserStep(Some(ui), configured, login) == UserStep(Some(ui), configured, otherLogin)
  {
  }

  /** The only login request the step can depend on carries the input's username
      as `email` and its password; without both keys it depends on none. */
  lemma UserStepSendsTheCredentials(ui: map<Key, Value>, configured: set<Value>,
                                    login: LoginRequest -> Exchange, otherLogin: LoginRequest -> Exchange)
    requires Username in ui && Password in ui ==>
               login(LoginRequest(ui[Username], ui[Password])) == otherLogin(LoginRequest(ui[Username], ui[Password]))
    ensures UserStep(Some(ui), configured, login) == UserStep(Some(ui), configured, otherLogin)
  {
  }

  /** Non-empty errors are shown on the credential form again and create nothing. */
  lemma UserStepShowsErrors(ui: map<Key, Value>, configured: set<Value>, login: LoginRequest -> Exchange)
    requires Username in ui && ui[Username] !in configured && Password in ui
    requires ValidateCredentials(login(LoginRequest(ui[Username], ui[Password]))).Errors?
    requires ValidateCredentials(login(LoginRequest(ui[Username], ui[Password]))).errors != map[]
    ensures UserStep(Some(ui), configured, login)
         == ShowForm("user", map[], ValidateCredentials(login(LoginRequest(ui[Username], ui[Password]))).errors)
  {
  }

  /** A form shown after input always carries the errors the classification
      returned for the credentials: the step never invents a form of its own. */
  lemma UserStepFormOnlyFromErrors(ui: map<Key, Value>, configured: set<Value>, login: LoginRequest -> Exchange)
    ensures UserStep(Some(ui), configured, login).ShowForm? ==>
              && Username in ui && ui[Username] !in configured && Password in ui
              && ValidateCredentials(login(LoginRequest(ui[Username], ui[Password])))
                 == Errors(UserStep(Some(ui), configured, login).errors)
  {
  }

  /** The step raises exactly when the username is missing (`KeyError` at the
      unique id), or the username is new and the password is missing
      (`KeyError` building the payload) or the classification raises; the
      exception is that failure, so a failed login call is never a form. */
  lemma UserStepRaisesIff(ui: map<Key, Value>, configured: set<Value>, login: LoginRequest -> Exchange)
    ensures UserStep(Some(ui), configured, login).Raise?
        <==> || Username !in ui
             || (&& ui[Username] !in configured
                 && (|| Password !in ui
                     || ValidateCredentials(login(LoginRequest(ui[Username], ui[Password]))).Raised?))
    ensures Username !in ui ==> UserStep(Some(ui), configured, login) == Raise(MissingKey(Username))
    ensures Username in ui && ui[Username] !in configured && Password !in ui
        ==> UserStep(Some(ui), configured, login) == Raise(MissingKey(Password))
    ensures Username in ui && ui[Username] !in configured && Password in ui
            && ValidateCredentials(login(LoginRequest(ui[Username], ui[Password]))).Raised?
        ==> UserStep(Some(ui), configured, login)
            == Raise(ValidateCredentials(login(LoginRequest(ui[Username], ui[Password]))).failure)
    ensures Username in ui && ui[Username] !in configured && Password in ui
            && login(LoginRequest(ui[Username], ui[Password])).TransportFailure?
        ==> UserStep(Some(ui), configured, login) == Raise(TransportError)
  {
  }
}
