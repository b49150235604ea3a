/** The hybrid MCP server: its handlers forward to the AWS HTTP server through
    `call_aws_api`, which folds every failure into a `{success: False, error}` envelope.
    The handlers read that envelope with `.get` and `[...]` outside any `try`, so they
    raise when the server answers with something other than an envelope. */
module ServerHybrid {
  import opened Wrappers
  import opened PyStrings
  import opened Faults
  import opened Json
  import opened Http
  import opened Mcp

  /** The module constants `HTTP_AVAILABLE` and `AWS_SERVER_URL`, fixed for the process. */
  datatype Env = Env(httpAvailable: bool, awsServerUrl: string)

  const NO_HTTPX_ERROR := "httpx non installé - installez avec: pip install httpx"
  const CONNECTION_PREFIX := "Erreur connexion AWS: "
  const INSTALL_TOOL := SyntheticTool("install_httpx", "Installer httpx pour activer Red Bee MCP")
  const INSTALL_TEXT := "Pour activer Red Bee MCP, installez httpx:\n\npip install httpx\n\nPuis redémarrez Cursor."
  const MISSING_TEXT := "httpx non installé. Exécutez: pip install httpx"

  /** `{"success": False, "error": error}`. */
  function FailureEnvelope(error: string): (j: Json)
    ensures j.JObject? && Lookup(j.fields, "success") == Some(JBool(false))
    ensures Lookup(j.fields, "error") == Some(JString(error))
  {
    JObject([("success", JBool(false)), ("error", JString(error))])
  }

  /** The request `call_aws_api` sends: a GET exactly when the method is "GET", a POST of
      `data` as JSON otherwise. */
  function AwsRequest(env: Env, endpoint: string, verb: string, data: Option<Json>): (req: Request)
    ensures req.url == Literal(env.awsServerUrl + endpoint)
    ensures req.verb == GET <==> verb == "GET"
    ensures verb != "GET" ==> req.verb == POST && req.body == data && req.headers == JSON_CONTENT
  {
    if verb == "GET" then Request(GET, Literal(env.awsServerUrl + endpoint), map[], None, map[])
    else Request(POST, Literal(env.awsServerUrl + endpoint), JSON_CONTENT, data, map[])
  }

  /** The two calls the handlers make are the requests of the remote bridge protocol. */
  lemma AwsRequestsAreProtocolRequests(env: Env, name: string, arguments: Json)
    ensures AwsRequest(env, "/tools", "GET", None) == ToolsRequest(env.awsServerUrl)
    ensures AwsRequest(env, "/call", "POST", Some(CallPayload(name, arguments))) ==
            CallRequest(env.awsServerUrl, name, arguments)
  {
  }

  /** `call_aws_api`: without httpx a failure envelope and no request; otherwise one
      request whose decoded reply is returned as it came, or a failure envelope carrying
      the exception text. It never raises. */
  function CallAwsApi(env: Env, net: Network, endpoint: string, verb: string, data: Option<Json>): (r: Called<Json>)
    ensures !env.httpAvailable ==> r == Called(FailureEnvelope(NO_HTTPX_ERROR), [])
    ensures env.httpAvailable ==> r.sent == [AwsRequest(env, endpoint, verb, data)]
    ensures env.httpAvailable && RaiseForStatusJson(net(r.sent[0])).Success? ==>
              r.result == RaiseForStatusJson(net(r.sent[0])).value
    ensures env.httpAvailable && RaiseForStatusJson(net(r.sent[0])).Failure? ==>
              r.result == FailureEnvelope(CONNECTION_PREFIX + Describe(RaiseForStatusJson(net(r.sent[0])).error))
  {
    if !env.httpAvailable then Called(FailureEnvelope(NO_HTTPX_ERROR), [])
    else
      var req := AwsRequest(env, endpoint, verb, data);
      match RaiseForStatusJson(net(req))
      case Success(v) => Called(v, [req])
      case Failure(f) => Called(FailureEnvelope(CONNECTION_PREFIX + Describe(f)), [req])
  }

  /** The descriptor standing in for the remote list when the envelope reports failure. */
  function AwsErrorTool(error: string): (t: Tool)
    ensures t.name == "aws_server_error" && RequiredDeclared(t)
    ensures t.description.Some? && Contains(t.description.value, error)
  {
    ContainsMiddle("Erreur serveur AWS: ", error, "");
    assert "Erreur serveur AWS: " + error + "" == "Erreur serveur AWS: " + error;
    SyntheticTool("aws_server_error", "Erreur serveur AWS: " + error)
  }

  /** The list `handle_list_tools` returns for an envelope, or what it raises: the
      `tools` when `success` is truthy, otherwise the single error descriptor carrying
      `error`, or "Indisponible". */
  function ListFromEnvelope(result: Json): (r: Result<seq<Tool>, Fault>)
    ensures !result.JObject? ==> r.Failure? && r.error.AttributeError?
    ensures result.JObject? && Truthy(FieldOr(result.fields, "success", JNull)) ==> r == ToolsField(result)
    ensures result.JObject? && !Truthy(FieldOr(result.fields, "success", JNull)) ==>
              r == Success([AwsErrorTool(Str(FieldOr(result.fields, "error", JString("Indisponible"))))])
  {
    match Get(result, "success", JNull)
    case Failure(f) => Failure(f)
    case Success(flag) =>
      if Truthy(flag) then ToolsField(result)
      else Success([AwsErrorTool(Str(FieldOr(result.fields, "error", JString("Indisponible"))))])
  }

  /** `handle_list_tools`. */
  method HandleListTools(env: Env, net: Network) returns (r: Result<seq<Tool>, Fault>, sent: seq<Request>)
    ensures !env.httpAvailable ==> r == Success([INSTALL_TOOL]) && sent == []
    ensures env.httpAvailable ==>
              var call := CallAwsApi(env, net, "/tools", "GET", None);
              sent == call.sent && r == ListFromEnvelope(call.result)
  {
    if !env.httpAvailable {
      return Success([INSTALL_TOOL]), [];
    }
    var call := CallAwsApi(env, net, "/tools", "GET", None);
    sent := call.sent;
    var result := call.result;
    var flag := Get(result, "success", JNull);
    if flag.Failure? {
      return Failure(flag.error), sent;
    }
    if !Truthy(flag.value) {
      return Success([AwsErrorTool(Str(FieldOr(result.fields, "error", JString("Indisponible"))))]), sent;
    }
    var list := Index(result, "tools");
    if list.Failure? {
      return Failure(list.error), sent;
    }
    var items := Iterate(list.value);
    if items.Failure? {
      return Failure(items.error), sent;
    }
    r := CollectAll(items.value, ToolFromJson);
  }

  /** An unreachable or failing AWS server is listed as the single error descriptor,
      whose description names the failure. */
  lemma UnreachableServerListsErrorTool(env: Env, net: Network)
    requires env.httpAvailable
    requires RaiseForStatusJson(net(ToolsRequest(env.awsServerUrl))).Failure?
    ensures var r := ListFromEnvelope(CallAwsApi(env, net, "/tools", "GET", None).result);
            r.Success? && |r.value| == 1 && r.value[0].name == "aws_server_error" &&
            Contains(r.value[0].description.value,
                     CONNECTION_PREFIX + Describe(RaiseForStatusJson(net(ToolsRequest(env.awsServerUrl))).error))
  {
    AwsRequestsAreProtocolRequests(env, "", JNull);
  }

  /** The tool call result for an envelope, or what it raises: `data` when `success` is
      truthy, otherwise one block "Erreur: <error>". It raises exactly when the reply is
      not a dict, or reports success without `data`. */
  function CallFromEnvelope(result: Json): (r: Result<CallReply, Fault>)
    ensures r.Failure? <==>
              !result.JObject? ||
              (Truthy(FieldOr(result.fields, "success", JNull)) && Lookup(result.fields, "data").None?)
    ensures !result.JObject? ==> r == Failure(Get(result, "success", JNull).error) && r.error.AttributeError?
    ensures result.JObject? && Truthy(FieldOr(result.fields, "success", JNull)) ==>
              r == if Lookup(result.fields, "data").Some? then Success(Forwarded(Lookup(result.fields, "data").value))
                   else Failure(KeyError("data"))
    ensures result.JObject? && !Truthy(FieldOr(result.fields, "success", JNull)) ==>
              r == Success(Answer(TextContent("Erreur: " + Str(FieldOr(result.fields, "error", JString("Erreur inconnue"))))))
  {
    match Get(result, "success", JNull)
    case Failure(f) => Failure(f)
    case Success(flag) =>
      if Truthy(flag) then
        match Index(result, "data")
        case Failure(f) => Failure(f)
        case Success(data) => Success(Forwarded(data))
      else Success(Answer(TextContent("Erreur: " + Str(FieldOr(result.fields, "error", JString("Erreur inconnue"))))))
  }

  /** `Le serveur AWS Red Bee n'est pas accessible. ...`, naming the server. */
  function UnreachableText(awsServerUrl: string): (text: string)
    ensures Contains(text, awsServerUrl)
  {
    var before := "Le serveur AWS Red Bee n'est pas accessible.\nVérifiez que le serveur tourne sur: ";
    ContainsMiddle(before, awsServerUrl, "");
    assert before + awsServerUrl + "" == before + awsServerUrl;
    before + awsServerUrl
  }

  /** `handle_call_tool`: the two synthetic names are answered locally first, then a
      missing httpx; any other call is one POST to `/call`. */
  function HandleCallTool(env: Env, net: Network, name: string, arguments: Json): (r: Called<Result<CallReply, Fault>>)
    ensures r.sent == [] <==> name == "install_httpx" || name == "aws_server_error" || !env.httpAvailable
    ensures r.sent != [] ==>
              r.sent == [CallRequest(env.awsServerUrl, name, arguments)] &&
              r.result == CallFromEnvelope(CallAwsApi(env, net, "/call", "POST", Some(CallPayload(name, arguments))).result)
    ensures name == "install_httpx" ==> r.result == Success(Answer(TextContent(INSTALL_TEXT)))
    ensures name == "aws_server_error" ==>
              r.result.Success? && r.result.value.Answer? && Contains(r.result.value.block.text, env.awsServerUrl)
    ensures name != "install_httpx" && name != "aws_server_error" && !env.httpAvailable ==>
              r.result == Success(Answer(TextContent(MISSING_TEXT)))
  {
    if name == "install_httpx" then Called(Success(Answer(TextContent(INSTALL_TEXT))), [])
    else if name == "aws_server_error" then Called(Success(Answer(TextContent(UnreachableText(env.awsServerUrl)))), [])
    else if !env.httpAvailable then Called(Success(Answer(TextContent(MISSING_TEXT))), [])
    else
      AwsRequestsAreProtocolRequests(env, name, arguments);
      var call := CallAwsApi(env, net, "/call", "POST", Some(CallPayload(name, arguments)));
      Called(CallFromEnvelope(call.result), call.sent)
  }

  /** A call the AWS server fails is answered with one block naming the failure; it
      does not raise. */
  lemma FailedCallIsReported(env: Env, net: Network, name: string, arguments: Json)
    requires env.httpAvailable && name != "install_httpx" && name != "aws_server_error"
    requires RaiseForStatusJson(net(CallRequest(env.awsServerUrl, name, arguments))).Failure?
    ensures HandleCallTool(env, net, name, arguments).result ==
            Success(Answer(TextContent("Erreur: " + CONNECTION_PREFIX +
              Describe(RaiseForStatusJson(net(CallRequest(env.awsServerUrl, name, arguments))).error))))
  {
    AwsRequestsAreProtocolRequests(env, name, arguments);
    var error := CONNECTION_PREFIX + Describe(RaiseForStatusJson(net(CallRequest(env.awsServerUrl, name, arguments))).error);
    var envelope := FailureEnvelope(error);
    assert CallAwsApi(env, net, "/call", "POST", Some(CallPayload(name, arguments))).result == envelope;
    assert !Truthy(FieldOr(envelope.fields, "success", JNull));
    assert Str(FieldOr(envelope.fields, "error", JString("Erreur inconnue"))) == error;
    assert "Erreur: " + error == "Erreur: " + CONNECTION_PREFIX +
           Describe(RaiseForStatusJson(net(CallRequest(env.awsServerUrl, name, arguments))).error);
  }
}
