/** `RedBeeRemoteClient`, the client side of the remote bridge: it lists and calls tools
    on a Red Bee MCP server over HTTP, and degrades to synthetic tools and fixed texts when
    httpx is missing or the server cannot be reached. It never raises. */
module RemoteClient {
  import opened Wrappers
  import opened PyStrings
  import opened Faults
  import opened Json
  import opened Http
  import opened Mcp

  const INSTALL_TOOL := SyntheticTool("install_httpx", "Install httpx dependency for Red Bee MCP")
  const INSTALL_TEXT := "To use Red Bee MCP, install httpx:\n\npip install httpx\n\nThen restart your MCP client."
  const MISSING_TEXT := "Missing dependencies. Install with: pip install httpx"
  const CONNECTION_PREFIX := "Failed to connect to Red Bee server: "
  const COMMUNICATION_PREFIX := "Communication error with AWS server: "
  const SERVER_ERROR_PREFIX := "Server error: "

  /** The descriptor standing in for the remote list when fetching it failed. */
  function ConnectionErrorTool(error: string): (t: Tool)
    ensures t.name == "connection_error" && RequiredDeclared(t)
    ensures t.description.Some? && Contains(t.description.value, error)
  {
    ContainsMiddle(CONNECTION_PREFIX, error, "");
    assert CONNECTION_PREFIX + error + "" == CONNECTION_PREFIX + error;
    SyntheticTool("connection_error", CONNECTION_PREFIX + error)
  }

  const HELP_HEAD := "Failed to connect to Red Bee MCP server.\n\nServer URL: "
  const HELP_CHECKS := "\n\nPlease check:\n1. The server is running on AWS EC2\n2. The URL is correct\n"
                       + "3. Port 8000 is accessible\n4. Your internet connection\n\nTest with: curl "

  /** The help text for `connection_error`, naming the server and its health URL. */
  function ConnectionHelp(serverUrl: string): (text: string)
    ensures Contains(text, serverUrl) && Contains(text, serverUrl + "/health")
  {
    var tail := HELP_CHECKS + (serverUrl + "/health");
    ContainsMiddle(HELP_HEAD, serverUrl, tail);
    ContainsSuffix(HELP_CHECKS, serverUrl + "/health");
    ContainsInTail(HELP_HEAD + serverUrl, tail, serverUrl + "/health");
    HELP_HEAD + serverUrl + tail
  }

  /** The list `get_tools` returns for the reply to its GET: the remote list, or the
      single `connection_error` descriptor carrying the exception's text. */
  function ToolsFromReply(o: HttpOutcome): (tools: seq<Tool>)
    ensures FetchTools(o).Success? ==> tools == FetchTools(o).value
    ensures FetchTools(o).Failure? ==>
              |tools| == 1 && tools[0].name == "connection_error" && tools[0].description.Some? &&
              Contains(tools[0].description.value, Describe(FetchTools(o).error))
  {
    match FetchTools(o)
    case Failure(f) => [ConnectionErrorTool(Describe(f))]
    case Success(tools) => tools
  }

  /** The reply of a remote call, from the server's answer: `data` when `success` is
      truthy, or one block of text; every exception on the way is caught. */
  function CallEnvelope(o: HttpOutcome): (r: CallReply)
    ensures r.Forwarded? <==>
              RaiseForStatusJson(o).Success? && RaiseForStatusJson(o).value.JObject? &&
              Truthy(FieldOr(RaiseForStatusJson(o).value.fields, "success", JNull)) &&
              Lookup(RaiseForStatusJson(o).value.fields, "data").Some?
    ensures RaiseForStatusJson(o).Failure? ==>
              r == Answer(TextContent(COMMUNICATION_PREFIX + Describe(RaiseForStatusJson(o).error)))
    ensures RaiseForStatusJson(o).Success? && !RaiseForStatusJson(o).value.JObject? ==>
              r == Answer(TextContent(COMMUNICATION_PREFIX +
                                      Describe(Get(RaiseForStatusJson(o).value, "success", JNull).error)))
    ensures RaiseForStatusJson(o).Success? && RaiseForStatusJson(o).value.JObject? ==>
              var fields := RaiseForStatusJson(o).value.fields;
              (Truthy(FieldOr(fields, "success", JNull)) ==>
                 r == if Lookup(fields, "data").Some? then Forwarded(Lookup(fields, "data").value)
                      else Answer(TextContent(COMMUNICATION_PREFIX + Describe(KeyError("data"))))) &&
              (!Truthy(FieldOr(fields, "success", JNull)) ==>
                 r == Answer(TextContent(SERVER_ERROR_PREFIX + Str(FieldOr(fields, "error", JString("Unknown error"))))))
  {
    match RaiseForStatusJson(o)
    case Failure(f) => Answer(TextContent(COMMUNICATION_PREFIX + Describe(f)))
    case Success(result) =>
      match Get(result, "success", JNull)
      case Failure(f) => Answer(TextContent(COMMUNICATION_PREFIX + Describe(f)))
      case Success(flag) =>
        if Truthy(flag) then
          match Index(result, "data")
          case Failure(f) => Answer(TextContent(COMMUNICATION_PREFIX + Describe(f)))
          case Success(data) => Forwarded(data)
        else
          Answer(TextContent(SERVER_ERROR_PREFIX + Str(FieldOr(result.fields, "error", JString("Unknown error")))))
  }

  class RedBeeRemoteClient {
    const serverUrl: string
    /** Whether an HTTP client exists, which is whether httpx could be imported. */
    const hasClient: bool

    constructor (serverUrl: string, httpAvailable: bool)
      ensures this.serverUrl == RStrip(serverUrl, '/') && hasClient == httpAvailable
    {
      this.serverUrl := RStrip(serverUrl, '/');
      hasClient := httpAvailable;
    }

    /** `get_tools`: without httpx the install descriptor and no request; otherwise one
        GET of the server's tool list. */
    method GetTools(net: Network) returns (tools: seq<Tool>, sent: seq<Request>)
      ensures !hasClient ==> sent == [] && tools == [INSTALL_TOOL]
      ensures hasClient ==> sent == [ToolsRequest(serverUrl)] && tools == ToolsFromReply(net(sent[0]))
    {
      if !hasClient {
        return [INSTALL_TOOL], [];
      }
      sent := [ToolsRequest(serverUrl)];
      var data := RaiseForStatusJson(net(sent[0]));
      if data.Failure? {
        return [ConnectionErrorTool(Describe(data.error))], sent;
      }
      var list := Index(data.value, "tools");
      if list.Failure? {
        return [ConnectionErrorTool(Describe(list.error))], sent;
      }
      var items := Iterate(list.value);
      if items.Failure? {
        return [ConnectionErrorTool(Describe(items.error))], sent;
      }
      var collected := CollectAll(items.value, ToolFromJson);
      if collected.Failure? {
        return [ConnectionErrorTool(Describe(collected.error))], sent;
      }
      tools := collected.value;
    }

    /** `call_tool`: the two synthetic names are answered locally before anything else,
        then a missing httpx, and only then is the call forwarded in one POST. */
    function CallTool(net: Network, name: string, arguments: Json): (r: Called<CallReply>)
      ensures r.sent == [] <==> name == "install_httpx" || name == "connection_error" || !hasClient
      ensures r.sent != [] ==> r.sent == [CallRequest(serverUrl, name, arguments)] && r.result == CallEnvelope(net(r.sent[0]))
      ensures name == "install_httpx" ==> r.result == Answer(TextContent(INSTALL_TEXT))
      ensures name == "connection_error" ==>
                r.result.Answer? && Contains(r.result.block.text, serverUrl) &&
                Contains(r.result.block.text, serverUrl + "/health")
      ensures name != "install_httpx" && name != "connection_error" && !hasClient ==>
                r.result == Answer(TextContent(MISSING_TEXT))
    {
      if name == "install_httpx" then Called(Answer(TextContent(INSTALL_TEXT)), [])
      else if name == "connection_error" then Called(Answer(TextContent(ConnectionHelp(serverUrl))), [])
      else if !hasClient then Called(Answer(TextContent(MISSING_TEXT)), [])
      else
        var req := CallRequest(serverUrl, name, arguments);
        Called(CallEnvelope(net(req)), [req])
    }
  }

  /** Whatever `get_tools` offers in place of the remote list is answered locally by
      `call_tool`, without a request. */
  lemma SyntheticToolsAnsweredLocally(c: RedBeeRemoteClient, net: Network, o: HttpOutcome, arguments: Json)
    requires !c.hasClient || FetchTools(o).Failure?
    ensures var t := if !c.hasClient then INSTALL_TOOL else ToolsFromReply(o)[0];
            c.CallTool(net, t.name, arguments).sent == [] && c.CallTool(net, t.name, arguments).result.Answer?
  {
  }
}
