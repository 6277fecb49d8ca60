/**
 * The configuration flow: the user step probes `/api/discover` and either
 * creates an entry without authentication or moves on to the auth step, which
 * checks the shared secret against `/api/status`; and the options step, which
 * offers the secret only for entries that use it.
 */
module ConfigFlow {
  import opened Json
  import opened Transport
  import opened Const
  import opened Coordinator

  /** What a helper of the flow raises: CannotConnect, InvalidAuth, or any other exception. */
  datatype FlowError = CannotConnect | InvalidAuth | OtherError

  datatype Result<T> = Ok(value: T) | Err(error: FlowError)

  /** What a step hands back to the host: a form (with its `errors`) or a new entry. */
  datatype FlowResult =
    | ShowForm(stepId: string, errors: map<string, string>)
    | CreateEntry(title: string, data: Object)

  /** `_test_connection`'s request: GET `/api/discover`, without headers. */
  function DiscoverRequest(input: Object): (req: Request)
    requires TabletIpKey in input && TabletPortKey in input
    ensures req.verb == "GET" && req.headers == map[] && req.body == None
    ensures req.url == BaseUrl(input[TabletIpKey], input[TabletPortKey]) + ApiDiscover
  {
    Request("GET", BaseUrl(input[TabletIpKey], input[TabletPortKey]) + ApiDiscover, map[], None)
  }

  /**
   * `_test_connection`: another status than 200, a timeout or a client error is
   * CannotConnect; a 200 dict comes back with `ip` and `port` overwritten from
   * the input; a 200 body that is not a dict cannot take the two keys.
   */
  function TestConnection(input: Object, reply: Response): (r: Result<Object>)
    requires TabletIpKey in input && TabletPortKey in input
    ensures reply.Timeout? || reply.ClientError? ==> r == Err(CannotConnect)
    ensures reply.Reply? && reply.status != 200 ==> r == Err(CannotConnect)
    ensures reply.Reply? && reply.status == 200 && !reply.body.JObj? ==> r == Err(OtherError)
    ensures r.Ok? <==> IsOkObject(reply)
    ensures r.Ok? ==>
      && r.value.Keys == reply.body.fields.Keys + {"ip", "port"}
      && r.value["ip"] == input[TabletIpKey] && r.value["port"] == input[TabletPortKey]
      && forall k :: k in reply.body.fields && k != "ip" && k != "port" ==> r.value[k] == reply.body.fields[k]
  {
    match reply
    case Timeout => Err(CannotConnect)
    case ClientError => Err(CannotConnect)
    case Reply(status, body) =>
      if status != 200 then Err(CannotConnect)
      else if !body.JObj? then Err(OtherError)
      else Ok(body.fields["ip" := input[TabletIpKey]]["port" := input[TabletPortKey]])
  }

  /** `_test_auth`'s request: GET `/api/status`, always with the secret, whatever `use_auth` says. */
  function AuthRequest(config: Object): (req: Request)
    requires TabletIpKey in config && TabletPortKey in config && ApiKeyKey in config
    ensures req.verb == "GET" && req.body == None
    ensures req.url == BaseUrl(config[TabletIpKey], config[TabletPortKey]) + ApiStatus
    ensures req.headers.Keys == {AuthHeader} && req.headers[AuthHeader] == config[ApiKeyKey]
  {
    Request("GET", BaseUrl(config[TabletIpKey], config[TabletPortKey]) + ApiStatus,
            map[AuthHeader := config[ApiKeyKey]], None)
  }

  /** `_test_auth`: 401 is InvalidAuth, any other status than 200 or a failed call is CannotConnect, 200 passes. */
  function TestAuth(reply: Response): (r: Result<()>)
    ensures r == Err(InvalidAuth) <==> reply.Reply? && reply.status == 401
    ensures r.Ok? <==> reply.Reply? && reply.status == 200
    ensures r.Err? ==> r.error != OtherError
  {
    match reply
    case Timeout => Err(CannotConnect)
    case ClientError => Err(CannotConnect)
    case Reply(status, _) =>
      if status == 401 then Err(InvalidAuth)
      else if status != 200 then Err(CannotConnect)
      else Ok(())
  }

  /**
   * `info.get("api", {}).get("auth_required", False)`, truthiness taken; None
   * when `api` is there but not a dict (no `get`: the step's broad handler).
   */
  function AuthRequired(info: Object): (r: Option<bool>)
    ensures "api" !in info ==> r == Some(false)
    ensures "api" in info && info["api"].JObj? ==> r == Some(Truthy(Get(info["api"].fields, "auth_required", JBool(false))))
    ensures "api" in info && !info["api"].JObj? ==> r == None
  {
    if "api" !in info then Some(false)
    else
      match info["api"]
      case JObj(api) => Some(Truthy(Get(api, "auth_required", JBool(false))))
      case _ => None
  }

  /** The user step's error code for what its `try` raised. */
  function UserErrorCode(e: FlowError): (code: string)
    ensures e == CannotConnect <==> code == "cannot_connect"
    ensures e == InvalidAuth <==> code == "invalid_auth"
    ensures e == OtherError <==> code == "unknown"
  {
    match e
    case CannotConnect => "cannot_connect"
    case InvalidAuth => "invalid_auth"
    case OtherError => "unknown"
  }

  /** The auth step's error code: only InvalidAuth has its own code. */
  function AuthErrorCode(e: FlowError): (code: string)
    ensures code == "invalid_auth" <==> e == InvalidAuth
    ensures code == "invalid_auth" || code == "unknown"
  {
    if e == InvalidAuth then "invalid_auth" else "unknown"
  }

  /** The two steps agree on every error but CannotConnect, which the auth step reports as `unknown`. */
  lemma AuthStepHidesCannotConnect(e: FlowError)
    ensures AuthErrorCode(e) == UserErrorCode(e) <==> e != CannotConnect
    ensures AuthErrorCode(CannotConnect) == "unknown"
  {
  }

  /** `f"{ip}:{port}"` */
  function UniqueId(ip: Json, port: Json): string
  {
    Str(ip) + ":" + Str(port)
  }

  /** The user step's entry data: the input with authentication switched off and an empty secret. */
  function UserEntryData(input: Object): (data: Object)
    ensures data.Keys == input.Keys + {UseAuthKey, ApiKeyKey}
    ensures data[UseAuthKey] == JBool(false) && data[ApiKeyKey] == JStr("")
    ensures forall k :: k in input && k != UseAuthKey && k != ApiKeyKey ==> data[k] == input[k]
  {
    input[UseAuthKey := JBool(false)][ApiKeyKey := JStr("")]
  }

  /** The auth step's `full_config`: ip and port from the discovery (port 8123 when absent), authentication on, the entered secret. */
  function AuthConfig(discovered: Object, key: Json): (config: Object)
    ensures config.Keys == {TabletIpKey, TabletPortKey, UseAuthKey, ApiKeyKey}
    ensures config[TabletIpKey] == Get(discovered, "ip", JNull)
    ensures config[TabletPortKey] == (if "port" in discovered then discovered["port"] else JInt(DefaultPort))
    ensures config[UseAuthKey] == JBool(true) && config[ApiKeyKey] == key
  {
    map[TabletIpKey := Get(discovered, "ip", JNull),
        TabletPortKey := Get(discovered, "port", JInt(DefaultPort)),
        UseAuthKey := JBool(true),
        ApiKeyKey := key]
  }

  /** An entry made without authentication never sends the secret at run time. */
  lemma UserEntrySendsNoSecret(input: Object)
    ensures AuthHeaders(UserEntryData(input)) == map[]
  {
    assert !Truthy(UserEntryData(input)[UseAuthKey]);
  }

  /** An entry made by the auth step sends at run time exactly the header its auth test sent. */
  lemma AuthEntrySendsTestedSecret(discovered: Object, key: Json)
    ensures AuthHeaders(AuthConfig(discovered, key)) == AuthRequest(AuthConfig(discovered, key)).headers
  {
    var config := AuthConfig(discovered, key);
    assert Truthy(config[UseAuthKey]);
  }

  class ConfigFlow {
    /** `_discovered_info` */
    var discoveredInfo: Object
    /** The unique id the flow has set, if any. */
    var uniqueId: Option<string>

    constructor ()
      ensures discoveredInfo == map[] && uniqueId == None
    {
      discoveredInfo := map[];
      uniqueId := None;
    }

    /**
     * `async_step_user`. With no input, the form. Otherwise probe; a failed probe
     * shows the form with its error code. A passing probe is remembered; then
     * either the auth step's form, or the unique id `ip:port` is set and the entry
     * is created, unless that id is configured already (the abort is caught by
     * the broad handler, `unknown`).
     */
    method StepUser(userInput: Option<Object>, reply: Response, configured: set<string>)
      returns (probe: Option<Request>, result: FlowResult)
      requires userInput.Some? ==> TabletIpKey in userInput.value && TabletPortKey in userInput.value
      modifies this
      ensures userInput.None? ==>
        probe == None && result == ShowForm("user", map[]) && discoveredInfo == old(discoveredInfo) && uniqueId == old(uniqueId)
      ensures userInput.Some? ==>
        var input := userInput.value;
        var info := TestConnection(input, reply);
        var id := UniqueId(input[TabletIpKey], input[TabletPortKey]);
        && probe == Some(DiscoverRequest(input))
        && (info.Err? ==>
              result == ShowForm("user", map["base" := UserErrorCode(info.error)])
              && discoveredInfo == old(discoveredInfo) && uniqueId == old(uniqueId))
        && (info.Ok? ==> discoveredInfo == info.value)
        && (info.Ok? && AuthRequired(info.value) == None ==>
              result == ShowForm("user", map["base" := "unknown"]) && uniqueId == old(uniqueId))
        && (info.Ok? && AuthRequired(info.value) == Some(true) ==>
              result == ShowForm("auth", map[]) && uniqueId == old(uniqueId))
        && (info.Ok? && AuthRequired(info.value) == Some(false) ==>
              && uniqueId == Some(id)
              && (id in configured ==> result == ShowForm("user", map["base" := "unknown"]))
              && (id !in configured ==>
                    result == CreateEntry("Multitek Tablet (" + Str(input[TabletIpKey]) + ")", UserEntryData(input))))
    {
      if userInput.None? {
        return None, ShowForm("user", map[]);
      }
      var input := userInput.value;
      probe := Some(DiscoverRequest(input));
      var info := TestConnection(input, reply);
      if info.Err? {
        return probe, ShowForm("user", map["base" := UserErrorCode(info.error)]);
      }
      discoveredInfo := info.value;
      var authRequired := AuthRequired(info.value);
      if authRequired.None? {
        return probe, ShowForm("user", map["base" := "unknown"]);
      }
      if authRequired.value {
        var _, form := StepAuth(None, reply, configured);
        return probe, form;
      }
      var id := UniqueId(input[TabletIpKey], input[TabletPortKey]);
      uniqueId := Some(id);
      if id in configured {
        return probe, ShowForm("user", map["base" := "unknown"]);
      }
      result := CreateEntry("Multitek Tablet (" + Str(input[TabletIpKey]) + ")", UserEntryData(input));
    }

    /**
     * `async_step_auth`. With no input, the form. Otherwise test the entered
     * secret against the remembered discovery; a failure shows the form with its
     * code; a pass sets the unique id and creates the entry unless the id is
     * configured already (`unknown`).
     */
    method StepAuth(userInput: Option<Object>, reply: Response, configured: set<string>)
      returns (probe: Option<Request>, result: FlowResult)
      requires userInput.Some? ==> ApiKeyKey in userInput.value
      modifies this`uniqueId
      ensures userInput.None? ==> probe == None && result == ShowForm("auth", map[]) && uniqueId == old(uniqueId)
      ensures userInput.Some? ==>
        var config := AuthConfig(discoveredInfo, userInput.value[ApiKeyKey]);
        var auth := TestAuth(reply);
        var id := UniqueId(config[TabletIpKey], config[TabletPortKey]);
        && probe == Some(AuthRequest(config))
        && (auth.Err? ==> result == ShowForm("auth", map["base" := AuthErrorCode(auth.error)]) && uniqueId == old(uniqueId))
        && (auth.Ok? ==> uniqueId == Some(id))
        && (auth.Ok? && id in configured ==> result == ShowForm("auth", map["base" := "unknown"]))
        && (auth.Ok? && id !in configured ==>
              result == CreateEntry("Multitek Tablet (" + Str(config[TabletIpKey]) + ")", config))
    {
      if userInput.None? {
        return None, ShowForm("auth", map[]);
      }
      var config := AuthConfig(discoveredInfo, userInput.value[ApiKeyKey]);
      probe := Some(AuthRequest(config));
      var auth := TestAuth(reply);
      if auth.Err? {
        return probe, ShowForm("auth", map["base" := AuthErrorCode(auth.error)]);
      }
      var id := UniqueId(config[TabletIpKey], config[TabletPortKey]);
      uniqueId := Some(id);
      if id in configured {
        return probe, ShowForm("auth", map["base" := "unknown"]);
      }
      result := CreateEntry("Multitek Tablet (" + Str(config[TabletIpKey]) + ")", config);
    }
  }

  /** What the options step hands back: its form (each field with its default) or the saved options. */
  datatype OptionsResult = OptionsForm(fields: map<string, Json>) | OptionsSaved(data: Object)

  /** `MultitekOptionsFlow.async_step_init`: the secret is offered, with its current value, only when `use_auth` is set. */
  function OptionsStep(entryData: Object, userInput: Option<Object>): (r: OptionsResult)
    ensures userInput.Some? ==> r == OptionsSaved(userInput.value)
    ensures userInput.None? ==> r.OptionsForm? && r.fields.Keys <= {ApiKeyKey}
    ensures userInput.None? ==> (ApiKeyKey in r.fields <==> Truthy(Get(entryData, UseAuthKey, JBool(false))))
    ensures userInput.None? && ApiKeyKey in r.fields ==> r.fields[ApiKeyKey] == Get(entryData, ApiKeyKey, JStr(""))
  {
    if userInput.Some? then OptionsSaved(userInput.value)
    else if Truthy(Get(entryData, UseAuthKey, JBool(false))) then OptionsForm(map[ApiKeyKey := Get(entryData, ApiKeyKey, JStr(""))])
    else OptionsForm(map[])
  }

  /** Entries of the user step get an empty options form; entries of the auth step get the secret they were made with. */
  lemma OptionsFollowTheFlow(input: Object, discovered: Object, key: Json)
    ensures OptionsStep(UserEntryData(input), None) == OptionsForm(map[])
    ensures OptionsStep(AuthConfig(discovered, key), None) == OptionsForm(map[ApiKeyKey := key])
  {
    assert !Truthy(UserEntryData(input)[UseAuthKey]);
  }

  /**
   * `_test_connection` as written: `asyncio` is not imported, so evaluating its
   * first `except` clause raises NameError whenever anything was raised inside
   * the `try`, its own CannotConnect included; the user step's broad handler
   * then reports `unknown`.
   */
  function TestConnectionAsWritten(input: Object, reply: Response): (r: Result<Object>)
    requires TabletIpKey in input && TabletPortKey in input
    ensures r.Ok? <==> TestConnection(input, reply).Ok?
    ensures r.Ok? ==> r == TestConnection(input, reply)
    ensures r.Err? ==> UserErrorCode(r.error) == "unknown"
  {
    match TestConnection(input, reply)
    case Ok(info) => Ok(info)
    case Err(_) => Err(OtherError)
  }

  /** `_test_auth` as written: the same NameError replaces its InvalidAuth and CannotConnect. */
  function TestAuthAsWritten(reply: Response): (r: Result<()>)
    ensures r.Ok? <==> TestAuth(reply).Ok?
    ensures r.Err? ==> AuthErrorCode(r.error) == "unknown"
  {
    match TestAuth(reply)
    case Ok(_) => Ok(())
    case Err(_) => Err(OtherError)
  }

  /**
   * The missing import, shown on two replies: as written a 404 from the tablet is
   * reported as `unknown` instead of `cannot_connect`, and a rejected secret (401)
   * as `unknown` instead of `invalid_auth`.
   */
  lemma MissingImportHidesErrorCodes(input: Object)
    requires TabletIpKey in input && TabletPortKey in input
    ensures UserErrorCode(TestConnectionAsWritten(input, Reply(404, JObj(map[]))).error) == "unknown"
    ensures UserErrorCode(TestConnection(input, Reply(404, JObj(map[]))).error) == "cannot_connect"
    ensures AuthErrorCode(TestAuthAsWritten(Reply(401, JNull)).error) == "unknown"
    ensures AuthErrorCode(TestAuth(Reply(401, JNull)).error) == "invalid_auth"
  {
  }
}
