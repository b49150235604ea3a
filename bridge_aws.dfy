/** The standalone AWS bridge: an MCP server whose handlers forward to the AWS HTTP
    server through an `AWSBridge`, or answer on their own while none is installed. Every
    failure is folded into an empty list or one block of text. */
module BridgeAws {
  import opened Wrappers
  import opened PyStrings
  import opened Faults
  import opened Json
  import opened Http
  import opened Mcp

  const CONNECTION_PREFIX := "Erreur de connexion: "
  const NOT_STARTED_TEXT := "Bridge non initialisé"

  /** The list `get_tools` returns for the reply to its GET: the remote list, or
      nothing at all when any step fails. */
  function ToolsOrNothing(o: HttpOutcome): (tools: seq<Tool>)
    ensures FetchTools(o).Success? ==> tools == FetchTools(o).value
    ensures FetchTools(o).Failure? ==> tools == []
  {
    match FetchTools(o)
    case Success(tools) => tools
    case Failure(_) => []
  }

  /** The reply of a remote call: `data` when `result["success"]` is truthy, one block
      "Erreur: <error>" when it is not, and one block "Erreur de connexion: <exception>"
      for every exception, a missing `success` key included. */
  function BridgeEnvelope(o: HttpOutcome): (r: CallReply)
    ensures r.Forwarded? <==>
              RaiseForStatusJson(o).Success? && RaiseForStatusJson(o).value.JObject? &&
              Lookup(RaiseForStatusJson(o).value.fields, "success").Some? &&
              Truthy(Lookup(RaiseForStatusJson(o).value.fields, "success").value) &&
              Lookup(RaiseForStatusJson(o).value.fields, "data").Some?
    ensures RaiseForStatusJson(o).Failure? ==>
              r == Answer(TextContent(CONNECTION_PREFIX + Describe(RaiseForStatusJson(o).error)))
    ensures RaiseForStatusJson(o).Success? && !RaiseForStatusJson(o).value.JObject? ==>
              r == Answer(TextContent(CONNECTION_PREFIX + Describe(Index(RaiseForStatusJson(o).value, "success").error)))
    ensures RaiseForStatusJson(o).Success? && RaiseForStatusJson(o).value.JObject? ==>
              var fields := RaiseForStatusJson(o).value.fields;
              (Lookup(fields, "success").None? ==>
                 r == Answer(TextContent(CONNECTION_PREFIX + Describe(KeyError("success"))))) &&
              (Lookup(fields, "success").Some? && Truthy(Lookup(fields, "success").value) ==>
                 r == if Lookup(fields, "data").Some? then Forwarded(Lookup(fields, "data").value)
                      else Answer(TextContent(CONNECTION_PREFIX + Describe(KeyError("data"))))) &&
              (Lookup(fields, "success").Some? && !Truthy(Lookup(fields, "success").value) ==>
                 r == Answer(TextContent("Erreur: " + Str(FieldOr(fields, "error", JString("Erreur inconnue"))))))
  {
    match RaiseForStatusJson(o)
    case Failure(f) => Answer(TextContent(CONNECTION_PREFIX + Describe(f)))
    case Success(result) =>
      match Index(result, "success")
      case Failure(f) => Answer(TextContent(CONNECTION_PREFIX + Describe(f)))
      case Success(flag) =>
        if Truthy(flag) then
          match Index(result, "data")
          case Failure(f) => Answer(TextContent(CONNECTION_PREFIX + Describe(f)))
          case Success(data) => Forwarded(data)
        else
          Answer(TextContent("Erreur: " + Str(FieldOr(result.fields, "error", JString("Erreur inconnue")))))
  }

  /** `AWSBridge`. */
  class AWSBridge {
    const serverUrl: string

    constructor (serverUrl: string)
      ensures this.serverUrl == RStrip(serverUrl, '/')
    {
      this.serverUrl := RStrip(serverUrl, '/');
    }

    /** `get_tools`: one GET of the server's tool list. */
    method GetTools(net: Network) returns (tools: seq<Tool>, sent: seq<Request>)
      ensures sent == [ToolsRequest(serverUrl)]
      ensures tools == ToolsOrNothing(net(sent[0]))
    {
      sent := [ToolsRequest(serverUrl)];
      var data := RaiseForStatusJson(net(sent[0]));
      if data.Failure? {
        return [], sent;
      }
      var list := Index(data.value, "tools");
      if list.Failure? {
        return [], sent;
      }
      var items := Iterate(list.value);
      if items.Failure? {
        return [], sent;
      }
      var collected := CollectAll(items.value, ToolFromJson);
      tools := if collected.Success? then collected.value else [];
    }

    /** `call_tool`: one POST of the call payload. */
    function CallTool(net: Network, name: string, arguments: Json): (r: Called<CallReply>)
      ensures r.sent == [CallRequest(serverUrl, name, arguments)]
      ensures r.result == BridgeEnvelope(net(r.sent[0]))
    {
      var req := CallRequest(serverUrl, name, arguments);
      Called(BridgeEnvelope(net(req)), [req])
    }
  }

  /** The bridge server, with its global `bridge` that `main` installs. */
  class BridgeServer {
    var bridge: AWSBridge?

    constructor ()
      ensures bridge == null
    {
      bridge := null;
    }

    /** What `main` does before serving: install a bridge to `serverUrl`. */
    method Start(serverUrl: string)
      modifies this
      ensures bridge != null && fresh(bridge) && bridge.serverUrl == RStrip(serverUrl, '/')
    {
      bridge := new AWSBridge(serverUrl);
    }

    /** `handle_list_tools`: nothing, and no request, before a bridge is installed. */
    method HandleListTools(net: Network) returns (tools: seq<Tool>, sent: seq<Request>)
      ensures bridge == null ==> tools == [] && sent == []
      ensures bridge != null ==> sent == [ToolsRequest(bridge.serverUrl)] && tools == ToolsOrNothing(net(sent[0]))
    {
      if bridge == null {
        return [], [];
      }
      tools, sent := bridge.GetTools(net);
    }

    /** `handle_call_tool`: one fixed block, and no request, before a bridge is installed. */
    function HandleCallTool(net: Network, name: string, arguments: Json): (r: Called<CallReply>)
      reads this
      ensures bridge == null ==> r == Called(Answer(TextContent(NOT_STARTED_TEXT)), [])
      ensures bridge != null ==>
                r.sent == [CallRequest(bridge.serverUrl, name, arguments)] &&
                r.result == BridgeEnvelope(net(r.sent[0]))
    {
      if bridge == null then Called(Answer(TextContent(NOT_STARTED_TEXT)), [])
      else bridge.CallTool(net, name, arguments)
    }
  }
}
