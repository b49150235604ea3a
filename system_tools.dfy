/** The six system tools: each opens its own `RedBeeClient`, makes one platform call
    (two for channels when it must first open an anonymous session), and reports in a
    single text block, never raising. */
module SystemTools {
  import opened Wrappers
  import opened PyStrings
  import opened Faults
  import opened Json
  import opened Http
  import opened Mcp
  import opened Client

  /** How one tool reports: the heading before a successful payload, and what it was
      doing, which follows "Erreur lors de la " before `str(e)` for an exception other
      than `RedBeeAPIError`. */
  datatype Report = Report(heading: string, activity: string)
  {
    function Fallback(): string
    {
      FALLBACK_PREFIX + activity
    }
  }

  const FALLBACK_PREFIX := "Erreur lors de la "

  const CONFIG_REPORT := Report("Configuration système Red Bee Media:\n", "récupération de la config: ")
  const TIME_REPORT := Report("Heure système Red Bee Media:\n", "récupération de l'heure: ")
  const LOCATION_REPORT := Report("Localisation utilisateur Red Bee Media:\n", "récupération de la localisation: ")
  const CHANNELS_REPORT := Report("Chaînes actives Red Bee Media:\n", "récupération des chaînes: ")
  const DEVICES_REPORT := Report("Appareils utilisateur Red Bee Media:\n", "récupération des appareils: ")
  const DELETE_REPORT := Report("Suppression appareil Red Bee Media:\n", "suppression de l'appareil: ")

  const API_ERROR_PREFIX := "Erreur API Red Bee: "

  function StatusText(status: Option<nat>): string
  {
    if status.Some? then NatToString(status.value) else "None"
  }

  /** The single block a tool returns for the outcome of its platform call. */
  function Reply(report: Report, outcome: Result<Json, Raised>): (blocks: seq<TextContent>)
    ensures |blocks| == 1
    ensures outcome.Success? ==> blocks[0].text == report.heading + Dumps(outcome.value)
    ensures outcome.Failure? && outcome.error.ApiError? ==>
              blocks[0].text == API_ERROR_PREFIX + Str(outcome.error.message) +
                                " (Status: " + StatusText(outcome.error.statusCode) + ")"
    ensures outcome.Failure? && outcome.error.Unexpected? ==>
              blocks[0].text == report.Fallback() + Describe(outcome.error.fault)
  {
    match outcome
    case Success(v) => [TextContent(report.heading + Dumps(v))]
    case Failure(ApiError(message, status, _)) =>
      [TextContent(API_ERROR_PREFIX + Str(message) + " (Status: " + StatusText(status) + ")")]
    case Failure(Unexpected(f)) => [TextContent(report.Fallback() + Describe(f))]
  }

  /** A heading that does not start with "E": the three kinds of reply can then be told
      apart by their text. */
  predicate Distinguishable(report: Report)
  {
    |report.heading| > 0 && report.heading[0] != API_ERROR_PREFIX[0]
  }

  /** The reply starts with "E" exactly when the call failed, and has "A" as eighth
      character exactly when the platform refused the call with an API error. */
  lemma ReplyLeadingChars(report: Report, outcome: Result<Json, Raised>)
    requires Distinguishable(report)
    ensures var text := Reply(report, outcome)[0].text;
            |text| > 7 || outcome.Success?
    ensures var text := Reply(report, outcome)[0].text;
            (text[0] == 'E' <==> outcome.Failure?) &&
            (outcome.Failure? ==> (text[7] == 'A' <==> outcome.error.ApiError?))
  {
    var text := Reply(report, outcome)[0].text;
    assert API_ERROR_PREFIX[0] == 'E' && API_ERROR_PREFIX[7] == 'A';
    assert FALLBACK_PREFIX[0] == 'E' && FALLBACK_PREFIX[7] == 'l';
    match outcome
    case Success(v) =>
      assert text[0] == report.heading[0];
    case Failure(ApiError(message, status, _)) =>
      assert text[0] == API_ERROR_PREFIX[0] && text[7] == API_ERROR_PREFIX[7];
    case Failure(Unexpected(f)) =>
      assert text[0] == FALLBACK_PREFIX[0] && text[7] == FALLBACK_PREFIX[7];
  }

  /** Which of the three outcomes a call had: a payload, a refusal by the platform
      (`RedBeeAPIError`), or another exception. */
  function OutcomeKind(outcome: Result<Json, Raised>): nat
  {
    if outcome.Success? then 0 else if outcome.error.ApiError? then 1 else 2
  }

  /** Replies to outcomes of different kinds are different texts: a caller can tell from
      the text alone whether the call succeeded, was refused by the platform, or failed
      otherwise. */
  lemma RepliesTellOutcomesApart(report: Report, o1: Result<Json, Raised>, o2: Result<Json, Raised>)
    requires Distinguishable(report) && OutcomeKind(o1) != OutcomeKind(o2)
    ensures Reply(report, o1)[0].text != Reply(report, o2)[0].text
  {
    var t1, t2 := Reply(report, o1)[0].text, Reply(report, o2)[0].text;
    ReplyLeadingChars(report, o1);
    ReplyLeadingChars(report, o2);
    if o1.Success? || o2.Success? {
      assert t1[0] != t2[0];
    } else {
      assert t1[7] != t2[7];
    }
  }

  /** Every system tool's heading keeps its replies apart. */
  lemma ReportsDistinguishable()
    ensures Distinguishable(CONFIG_REPORT) && Distinguishable(TIME_REPORT) && Distinguishable(LOCATION_REPORT)
    ensures Distinguishable(CHANNELS_REPORT) && Distinguishable(DEVICES_REPORT) && Distinguishable(DELETE_REPORT)
  {
  }

  function SystemConfigPath(cfg: Config): string { "/v2" + Scope(cfg) + "/system/config" }
  function TimePath(cfg: Config): string { "/v1" + Scope(cfg) + "/time" }
  function LocationPath(cfg: Config): string { "/v1" + Scope(cfg) + "/location" }
  function ChannelsPath(cfg: Config): string { "/v1" + Scope(cfg) + "/channels" }
  function DevicesPath(cfg: Config): string { "/v2" + Scope(cfg) + "/device" }
  function DevicePath(cfg: Config, deviceId: string): string { DevicesPath(cfg) + "/" + deviceId }

  /** A public GET of the exposure API: no `EMP-Auth`, whatever token the configuration holds. */
  function PublicGet(cfg: Config, path: string): (req: Request)
    ensures req.headers == ACCEPT_JSON && "EMP-Auth" !in req.headers
  {
    Request(GET, Joined(cfg.exposureBaseUrl, path), AuthHeaders(false, cfg.sessionToken), None, map[])
  }

  /** The three public tools share their shape: one unauthenticated GET, one report. */
  method PublicTool(cfg: Config, net: Network, path: string, report: Report)
    returns (blocks: seq<TextContent>, sent: seq<Request>)
    ensures sent == [PublicGet(cfg, path)]
    ensures blocks == Reply(report, ResponseResult(net(sent[0])))
  {
    var client := new RedBeeClient(cfg);
    var r, req := client.MakeRequest(net, GET, path, None, map[], None, false);
    sent := [req];
    blocks := Reply(report, r);
  }

  /** `get_system_config`. */
  method GetSystemConfig(cfg: Config, net: Network) returns (blocks: seq<TextContent>, sent: seq<Request>)
    ensures sent == [PublicGet(cfg, SystemConfigPath(cfg))]
    ensures blocks == Reply(CONFIG_REPORT, ResponseResult(net(sent[0])))
  {
    blocks, sent := PublicTool(cfg, net, SystemConfigPath(cfg), CONFIG_REPORT);
  }

  /** `get_system_time`. */
  method GetSystemTime(cfg: Config, net: Network) returns (blocks: seq<TextContent>, sent: seq<Request>)
    ensures sent == [PublicGet(cfg, TimePath(cfg))]
    ensures blocks == Reply(TIME_REPORT, ResponseResult(net(sent[0])))
  {
    blocks, sent := PublicTool(cfg, net, TimePath(cfg), TIME_REPORT);
  }

  /** `get_user_location`. */
  method GetUserLocation(cfg: Config, net: Network) returns (blocks: seq<TextContent>, sent: seq<Request>)
    ensures sent == [PublicGet(cfg, LocationPath(cfg))]
    ensures blocks == Reply(LOCATION_REPORT, ResponseResult(net(sent[0])))
  {
    blocks, sent := PublicTool(cfg, net, LocationPath(cfg), LOCATION_REPORT);
  }

  /** The channels request made with a given token. */
  function ChannelsRequest(cfg: Config, token: Option<string>): Request
  {
    Request(GET, Joined(cfg.exposureBaseUrl, ChannelsPath(cfg)), AuthHeaders(true, token), None, map[])
  }

  /** `get_active_channels`: the caller's token wins, then the configured one; with
      neither, an anonymous session is opened first and its token used. A failure to open
      that session is reported and the channels are not requested. */
  method GetActiveChannels(cfg: Config, net: Network, sessionToken: Option<string>)
    returns (blocks: seq<TextContent>, sent: seq<Request>)
    ensures Present(sessionToken) ==>
              sent == [ChannelsRequest(cfg, sessionToken)] &&
              blocks == Reply(CHANNELS_REPORT, ResponseResult(net(sent[0])))
    ensures !Present(sessionToken) && Present(cfg.sessionToken) ==>
              sent == [ChannelsRequest(cfg, cfg.sessionToken)] &&
              blocks == Reply(CHANNELS_REPORT, ResponseResult(net(sent[0])))
    ensures !Present(sessionToken) && !Present(cfg.sessionToken) ==>
              1 <= |sent| <= 2 &&
              sent[0] == AuthRequest(cfg, cfg.exposureBaseUrl, cfg.deviceId, None, None) &&
              var auth := AuthOutcome(ResponseResult(net(sent[0])), cfg.deviceId);
              (auth.Failure? ==> |sent| == 1 && blocks == Reply(CHANNELS_REPORT, Failure(auth.error))) &&
              (auth.Success? ==>
                 |sent| == 2 && sent[1] == ChannelsRequest(cfg, Some(auth.value.sessionToken)) &&
                 blocks == Reply(CHANNELS_REPORT, ResponseResult(net(sent[1]))))
  {
    var client := new RedBeeClient(cfg);
    sent := [];
    if Present(sessionToken) {
      client.sessionToken := sessionToken;
    } else if !Present(client.sessionToken) {
      var auth, req := client.Authenticate(net, None, None);
      sent := [req];
      if auth.Failure? {
        return Reply(CHANNELS_REPORT, Failure(auth.error)), sent;
      }
    }
    var includeAuth := Present(sessionToken) || Present(client.sessionToken);
    var r, req := client.MakeRequest(net, GET, ChannelsPath(cfg), None, map[], None, includeAuth);
    sent := sent + [req];
    blocks := Reply(CHANNELS_REPORT, r);
  }

  /** The request of a device call, always carrying the caller's token. */
  function DeviceRequest(cfg: Config, verb: Verb, path: string, sessionToken: string): (req: Request)
    ensures "EMP-Auth" in req.headers <==> sessionToken != ""
    ensures sessionToken != "" ==> req.headers["EMP-Auth"] == sessionToken
  {
    Request(verb, Joined(cfg.exposureBaseUrl, path), AuthHeaders(true, Some(sessionToken)), None, map[])
  }

  /** `get_user_devices`. */
  method GetUserDevices(cfg: Config, net: Network, sessionToken: string)
    returns (blocks: seq<TextContent>, sent: seq<Request>)
    ensures sent == [DeviceRequest(cfg, GET, DevicesPath(cfg), sessionToken)]
    ensures blocks == Reply(DEVICES_REPORT, ResponseResult(net(sent[0])))
  {
    var client := new RedBeeClient(cfg);
    client.sessionToken := Some(sessionToken);
    var r, req := client.MakeRequest(net, GET, DevicesPath(cfg), None, map[], None, true);
    sent := [req];
    blocks := Reply(DEVICES_REPORT, r);
  }

  /** The confirmation `delete_user_device` renders after a successful call. */
  function DeletedConfirmation(deviceId: string): Json
  {
    JObject([("success", JBool(true)), ("device_id", JString(deviceId)), ("message", JString("Appareil supprimé"))])
  }

  /** A confirmation names the deleted device, and no other. */
  lemma DeletedConfirmationNamesDevice(d1: string, d2: string)
    ensures Lookup(DeletedConfirmation(d1).fields, "device_id") == Some(JString(d1))
    ensures DeletedConfirmation(d1) == DeletedConfirmation(d2) ==> d1 == d2
  {
  }

  /** `delete_user_device`: the reply body is discarded; only whether the call
      succeeded shows in the confirmation. */
  method DeleteUserDevice(cfg: Config, net: Network, sessionToken: string, deviceId: string)
    returns (blocks: seq<TextContent>, sent: seq<Request>)
    ensures sent == [DeviceRequest(cfg, DELETE, DevicePath(cfg, deviceId), sessionToken)]
    ensures var r := ResponseResult(net(sent[0]));
            blocks == Reply(DELETE_REPORT, if r.Success? then Success(DeletedConfirmation(deviceId)) else r)
  {
    var client := new RedBeeClient(cfg);
    client.sessionToken := Some(sessionToken);
    var r, req := client.MakeRequest(net, DELETE, DevicePath(cfg, deviceId), None, map[], None, true);
    sent := [req];
    if r.Success? {
      blocks := Reply(DELETE_REPORT, Success(DeletedConfirmation(deviceId)));
    } else {
      blocks := Reply(DELETE_REPORT, r);
    }
  }

  // ---------------------------------------------------------------- the catalogue

  /** A string property of an input schema. */
  function Property(name: string, description: string): (string, Json)
  {
    (name, JObject([("type", JString("string")), ("description", JString(description))]))
  }

  /** `{"type": "object", "properties": {...}, "required": [...]}`. */
  function ArgSchema(props: seq<(string, string)>, required: seq<string>): seq<(string, Json)>
  {
    [("type", JString("object")),
     ("properties", JObject(seq(|props|, i requires 0 <= i < |props| => Property(props[i].0, props[i].1)))),
     ("required", JArray(seq(|required|, i requires 0 <= i < |required| => JString(required[i]))))]
  }

  function PropNames(props: seq<(string, string)>): set<string>
  {
    set k | 0 <= k < |props| :: props[k].0
  }

  function ArgTool(name: string, description: string, props: seq<(string, string)>, required: seq<string>): Tool
  {
    Tool(name, Some(description), ArgSchema(props, required))
  }

  /** A schema built from a property list declares every required name it lists. */
  lemma ArgToolRequiredDeclared(name: string, description: string, props: seq<(string, string)>, required: seq<string>)
    requires forall i :: 0 <= i < |required| ==> required[i] in PropNames(props)
    ensures RequiredDeclared(ArgTool(name, description, props, required))
  {
    var t := ArgTool(name, description, props, required);
    var fields := seq(|props|, i requires 0 <= i < |props| => Property(props[i].0, props[i].1));
    assert DistinctKeys(t.inputSchema);
    LookupMember(t.inputSchema, 1);
    LookupMember(t.inputSchema, 2);
    forall i | 0 <= i < |RequiredNames(t)|
      ensures RequiredNames(t)[i].JString? && RequiredNames(t)[i].s in PropertyNames(t)
    {
      var k :| 0 <= k < |props| && props[k].0 == required[i];
      assert fields[k].0 == required[i];
    }
  }

  const DUMMY: seq<(string, string)> := [("random_string", "Dummy parameter for no-parameter tools")]

  /** `SYSTEM_TOOLS`. */
  function SystemCatalogue(): seq<Tool>
  {
    [ArgTool("get_system_config", "Récupère la configuration système de la plateforme", DUMMY, ["random_string"]),
     ArgTool("get_system_time", "Récupère l'heure système du serveur", DUMMY, ["random_string"]),
     ArgTool("get_user_location", "Récupère la localisation géographique basée sur l'IP", DUMMY, ["random_string"]),
     ArgTool("get_active_channels", "Récupère la liste des chaînes actives",
             [("sessionToken", "Token de session utilisateur (optionnel)")], []),
     ArgTool("get_user_devices", "Récupère la liste des appareils d'un utilisateur",
             [("sessionToken", "Token de session utilisateur")], ["sessionToken"]),
     ArgTool("delete_user_device", "Supprime un appareil de la liste d'un utilisateur",
             [("sessionToken", "Token de session utilisateur"), ("deviceId", "ID de l'appareil à supprimer")],
             ["sessionToken", "deviceId"])]
  }

  /** The catalogue lists six tools under distinct names, each of which declares every
      argument it requires. */
  lemma SystemCatalogueWellFormed()
    ensures |SystemCatalogue()| == 6
    ensures DistinctNames(SystemCatalogue())
    ensures forall i :: 0 <= i < 6 ==> RequiredDeclared(SystemCatalogue()[i])
  {
    var c := SystemCatalogue();
    assert DUMMY[0].0 == "random_string";
    ArgToolRequiredDeclared(c[0].name, c[0].description.value, DUMMY, ["random_string"]);
    ArgToolRequiredDeclared(c[1].name, c[1].description.value, DUMMY, ["random_string"]);
    ArgToolRequiredDeclared(c[2].name, c[2].description.value, DUMMY, ["random_string"]);
    ArgToolRequiredDeclared(c[3].name, c[3].description.value,
                            [("sessionToken", "Token de session utilisateur (optionnel)")], []);
    var devicesProps := [("sessionToken", "Token de session utilisateur")];
    assert devicesProps[0].0 == "sessionToken";
    ArgToolRequiredDeclared(c[4].name, c[4].description.value, devicesProps, ["sessionToken"]);
    var deleteProps := [("sessionToken", "Token de session utilisateur"), ("deviceId", "ID de l'appareil à supprimer")];
    assert deleteProps[0].0 == "sessionToken" && deleteProps[1].0 == "deviceId";
    ArgToolRequiredDeclared(c[5].name, c[5].description.value, deleteProps, ["sessionToken", "deviceId"]);
  }
}
