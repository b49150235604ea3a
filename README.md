# Red Bee MCP bridge — a Dafny model

Red Bee MCP exposes the Red Bee Media OTT platform (its Exposure and Analytics REST APIs)
to MCP clients as tools. This project models the decision logic of its core, with the
network replaced by an input:

- **`Client`** (`client.py`) models `RedBeeClient`, the gateway and credential holder:
  - the `EMP-Auth` header policy and the derivation of the analytics URL;
  - the mapping of an HTTP status or transport failure to `RedBeeAPIError(message, status_code, error_code)`;
  - `authenticate`, which picks the login or anonymous path, synthesizes the device id, and replaces the held credential as a whole;
  - playback format selection;
  - the projections of loosely typed upstream JSON onto assets, search results,
    entitlements, viewing history and business-unit records, each field with its default.
- **`SystemTools`** (`tools/system.py`) models the six system tools:
  - their per-call token handling: an override, lazy anonymous authentication, or forced public requests;
  - the rule that every outcome becomes exactly one text block;
  - the static `SYSTEM_TOOLS` catalogue.
- **`RemoteClient`** (`cli.py`), **`ServerHybrid`** (`server_hybrid.py`) and **`BridgeAws`**
  (`bridge_aws.py`) model the three remote-proxy dispatchers. Each one:
  - substitutes synthetic tools (`install_httpx`, `connection_error`, `aws_server_error`) or fixed texts when httpx is missing or the server fails;
  - otherwise unwraps the `{success, data, error}` envelope of the AWS server.
- Shared modules:
  - `Wrappers`: `Option` and `Result`.
  - `PyStrings`: `str.replace`, `split`, `join`, `rstrip`, `lower` and `str(int)`.
  - `Faults`: Python and httpx exceptions and their `str()`.
  - `Json`: decoded JSON, plus `dict.get`, `d[k]` and iteration as Python performs them, and the append loop shared by every `for ... append`.
  - `Http`: requests, outcomes, `raise_for_status`, and the two requests of the remote server.
  - `Mcp`: `Tool`, `TextContent`, and `Tool(**d)`.

The network is a parameter `net: Request -> HttpOutcome`. A `HttpOutcome` is a response
(status, raw text, the body decoded as JSON when it is JSON) or a transport failure.
Every operation returns the requests it sent, in order. So "makes no request" is
`sent == []`, and the contracts state the exact URL, verb, headers, body and query
parameters of each request. A JSON object is an ordered list of members, like a Python
dict, so that the rendered and `str()`-ed texts are functions of it.

Behaviour the contracts make explicit:

- `server_hybrid.py` reads the envelope outside any `try`. `handle_list_tools` and
  `handle_call_tool` therefore raise when the AWS server answers 2xx with JSON that is not
  a dict, with a `success` listing whose `tools` are malformed, or with a `success` call
  without `data`. See `ServerHybrid.ListFromEnvelope` and `ServerHybrid.CallFromEnvelope`,
  whose result is a `Result` for this reason. The other two dispatchers never raise.
- Both the `cli.py` and `bridge_aws.py` dispatchers use httpx's `raise_for_status`, so
  every status outside 200-299 counts as a failure there. `RedBeeClient` instead treats
  only statuses of 400 and above as errors.

## Model

| member | source | states |
|---|---|---|
| Client.AnalyticsUrl | src/redbee_mcp/client.py:45-46 | the analytics URL is the exposure URL split at every "exposure" and re-joined with "eventsink"; a URL without "exposure" is kept unchanged |
| Client.RedBeeClient.constructor | src/redbee_mcp/client.py:39-46 | the client starts with the configured token and device id, the configured exposure URL and the derived analytics URL |
| Client.AuthHeaders | src/redbee_mcp/client.py:57-70 | `EMP-Auth` is sent iff auth is requested and a non-empty token is held, and then carries that token; otherwise the headers are exactly `{Accept: application/json}` |
| Client.PublicHeadersIgnoreToken | src/redbee_mcp/client.py:57-70 | a public request carries the same headers whatever token is held |
| Client.ResponseResult | src/redbee_mcp/client.py:99-118 | success iff status < 400 and the body decodes, returning that body. Status >= 400 raises `RedBeeAPIError` with that status, the body's `message` (else "HTTP <status>") and its `error_code` (else None); if the error body decoded to a non-dict, `.get` raises the AttributeError "'<type>' object has no attribute 'get'" instead. An undecodable body with status < 400 raises the decoding error. A transport failure gives "Erreur de requête: ..." with no status and no error code. Only a status >= 400 ever carries a status |
| Client.RedBeeClient.MakeRequest | src/redbee_mcp/client.py:72-118 | sends one request: to `base_url or exposure_url` joined with the endpoint, with the header policy applied to the held token, and with the params given. The data is sent as body, except for a public GET with falsy data, which goes through `client.get` without a body. The result is the status mapping of its outcome |
| Client.AuthRequest | src/redbee_mcp/client.py:127-161 | POSTs to the v3 login path iff both username and password are truthy, and to the v2 anonymous path otherwise; never sends `EMP-Auth`; the login body has exactly two members, `credentials` with the given username and password and a `device` with id, name "Web Browser" and type "WEB"; the anonymous body has only a `device` with id and type "WEB"; the device id sent is the held one, or else `web_<customer>` (login) or `anon_<customer>` (anonymous) |
| Client.AuthOutcome | src/redbee_mcp/client.py:163-167 | the credential is the reply's `sessionToken` and its `deviceId`, falling back to the held device id or ""; request errors propagate; a reply with a string token and device id always yields a credential |
| Client.RedBeeClient.Authenticate | src/redbee_mcp/client.py:124-173 | on success both `session_token` and `device_id` are replaced by the new credential; on failure neither changes |
| Client.AutocompleteResult | src/redbee_mcp/client.py:195-222 | the autocomplete call raises with the raw response text and the status when the status is >= 400; a transport failure becomes "Erreur de requête: ..."; an undecodable body with status < 400 raises the decoding error; otherwise it returns the decoded body |
| Client.ListingParams | src/redbee_mcp/client.py:225-236 | the listing always sends page size, page number and locale "fr"; it adds each of contentType, genre and sortBy exactly when that filter is truthy, and sends no other key |
| Client.AutocompleteShape | src/redbee_mcp/client.py:247-276 | an autocomplete list succeeds iff every entry is a dict with `assetId`; it then gives total_results = per_page = its length, page 1 and total_pages 1, and one asset per entry, in order, with that id, titled by `text` (default ""), with empty genre, subtitle languages, tags and external references and None for every other field |
| Client.ListingWithoutItems | src/redbee_mcp/client.py:279-306 | a listing reply without `items` succeeds with no assets, echoes page and per_page, and reads totalCount and totalPages with their defaults 0 and 1 |
| Client.ListingShape | src/redbee_mcp/client.py:277-306 | a listing succeeds iff every item is a dict with `assetId`; it then echoes page and per_page, passes totalCount and totalPages through (a missing totalCount reads as 0, a missing totalPages as 1), and builds each asset from its item, in order |
| Client.RedBeeClient.SearchAssets | src/redbee_mcp/client.py:183-306 | a truthy query sends only the hand-built autocomplete request, which has no `EMP-Auth`; otherwise it sends the authenticated listing request with the listing params; the result is the shaping of the reply |
| Client.AssetFromItem | src/redbee_mcp/client.py:317-334 | an asset record is built iff the item is a dict with `assetId`, and keeps that id |
| Client.AssetRoundTrip | src/redbee_mcp/client.py:317-334 | any item that holds every field of a record under its upstream key reproduces that record exactly, whatever else it holds |
| Client.AssetDefaults | src/redbee_mcp/client.py:317-334 | an item with `assetId` and none of the other fields gets the default of each: "" for the title, [] for genre, subtitle languages and tags, {} for the external references, None for the rest |
| Client.AutocompleteAsset | src/redbee_mcp/client.py:249-268 | an autocomplete entry yields an asset iff it is a dict with `assetId`, and keeps that id |
| Client.RedBeeClient.GetAsset | src/redbee_mcp/client.py:308-334 | sends one authenticated GET of content/asset/{id} with locale "fr", and projects the reply onto an asset record |
| Client.FirstSupportedFrom | src/redbee_mcp/client.py:350-356 | the scan returns the first entry whose format is "HLS" or "DASH" after passing over only dicts of other formats; None means every entry was passed over; it raises on the first entry that is not a dict |
| Client.SelectFormat | src/redbee_mcp/client.py:350-356 | the `for ... break` loop computes exactly the first-match scan |
| Client.ScanStopsAtString | src/redbee_mcp/client.py:353-354 | the format scan over entries that start with a `str` raises the AttributeError of `.get` on a `str` |
| Client.PlaybackOverKeysOrChars | src/redbee_mcp/client.py:350-359 | a dict or string `formats` is iterated too: a non-empty one makes the scan's `.get` on a `str` raise an AttributeError, and an empty one raises the "no supported format" error |
| Client.PlaybackWithoutFormats | src/redbee_mcp/client.py:350-359 | a play reply without `formats` fails with "Aucun format de streaming supporté trouvé" |
| Client.PlaybackPicksFirstSupported | src/redbee_mcp/client.py:350-363 | playback succeeds iff some HLS or DASH entry comes after passed-over entries only and has a `mediaLocator`. The record then carries the asset id, that entry's `format` lower-cased, and its `mediaLocator`. That entry without a locator raises KeyError. If no entry qualifies, it fails with "Aucun format de streaming supporté trouvé" |
| Client.FirstSupportedIs | src/redbee_mcp/client.py:353-356 | a supported entry preceded only by passed-over entries is the one the `for ... break` scan picks |
| Client.PlaybackRoundTrip | src/redbee_mcp/client.py:362-371 | a reply whose preferred entry holds the locator and DRM URL, and whose body holds the tracks, quality levels, expiry and contract restrictions, gives exactly that record |
| Client.PlaybackDefaults | src/redbee_mcp/client.py:362-371 | a reply that sets nothing beyond the preferred entry's format and locator gets no DRM URL, empty track and quality lists, no expiry and empty restrictions |
| Client.PlaybackExamples | src/redbee_mcp/client.py:350-363 | a SmoothStreaming entry before a DASH entry is skipped and "dash" is reported; a SmoothStreaming entry alone fails |
| Client.RedBeeClient.GetAssetPlaybackInfo | src/redbee_mcp/client.py:336-371 | sends one authenticated POST to entitlement/{id}/play, with `{userId}` only when a user id is given, and builds the playback record from the reply |
| Client.EntitlementFromItem | src/redbee_mcp/client.py:386-394 | an entitlement is built iff the item is a dict with `assetId` |
| Client.EntitlementsWithoutList | src/redbee_mcp/client.py:385-386 | a reply without `entitlements` gives no entitlements |
| Client.EntitlementsPerItem | src/redbee_mcp/client.py:386-396 | the listing succeeds iff every item is a dict with `assetId`. It then gives one entitlement per item, in order. Each is for the requested user, with the item's assetId, its type (default "unknown"), its expiresAt (default None) and its restrictions (default {}) |
| Client.EntitlementRoundTrip | src/redbee_mcp/client.py:386-394 | an item holding assetId, type, expiresAt and restrictions gives exactly that entitlement for the requested user |
| Client.EntitlementDefaults | src/redbee_mcp/client.py:386-394 | an item with only an assetId is of type "unknown", with no expiry and no restrictions |
| Client.RedBeeClient.GetUserEntitlements | src/redbee_mcp/client.py:377-396 | sends one authenticated GET of entitlement/user/{id}, without params, and builds the entitlements from the reply |
| Client.ViewingFromItem | src/redbee_mcp/client.py:461-472 | a history entry is built iff the item is a dict with both `assetId` and `startedAt` |
| Client.HistoryWithoutItems | src/redbee_mcp/client.py:460-461 | a reply without `items` gives an empty history |
| Client.HistoryPerItem | src/redbee_mcp/client.py:461-474 | the history succeeds iff every item is a dict with `assetId` and `startedAt`. It then gives one entry per item, in order. Each is for the requested user, with the item's assetId, startedAt, endedAt (default None), watchDuration (default 0), deviceType (default None) and quality (default None) |
| Client.ViewingRoundTrip | src/redbee_mcp/client.py:461-472 | an item holding every history field gives exactly that entry for the requested user |
| Client.ViewingDefaults | src/redbee_mcp/client.py:461-472 | an item with only assetId and startedAt has no end, a watch duration of 0, and no device type or quality |
| Client.RedBeeClient.GetUserViewingHistory | src/redbee_mcp/client.py:439-474 | sends one authenticated GET to the analytics base URL, with userId, pageSize and pageNumber, and builds the history from the reply |
| Client.BusinessUnitFrom | src/redbee_mcp/client.py:519-528 | a record is built iff the reply is a dict; customer and business unit come from the configuration; an empty reply gives the defaults "", None, [], {}, "en" and "UTC" |
| Client.BusinessUnitRoundTrip | src/redbee_mcp/client.py:519-528 | a reply holding name, description, features, settings, locale and timezone gives exactly that record for the configured customer and unit |
| Client.BusinessUnitDefaults | src/redbee_mcp/client.py:519-528 | a reply that sets none of those fields, whatever else it holds, gets "", None, [], {}, "en" and "UTC" |
| Client.BusinessUnitFieldsIndependent | src/redbee_mcp/client.py:519-528 | each field of the record is read from its own key only: replies that agree on a key give records that agree on that field |
| Client.RedBeeClient.GetBusinessUnitInfo | src/redbee_mcp/client.py:511-528 | sends one authenticated GET of the config path and builds the business-unit record from the reply |
| PyStrings.ReplaceIsJoinOfSplit | src/redbee_mcp/client.py:46 | `str.replace` equals splitting at the pattern and joining with the replacement |
| PyStrings.ReplaceWithoutOccurrence | src/redbee_mcp/client.py:46 | a string without the pattern comes back from `str.replace` unchanged |
| Json.Iterate | src/redbee_mcp/client.py:353 | `for x in j` visits a list's elements, a dict's keys in order and a string's characters, each as a `str`; any other value raises a TypeError |
| Json.MapAllSucceeds | src/redbee_mcp/client.py:386-394 | an append loop whose step may raise succeeds iff every step does, and then yields one result per item, in order |
| Json.MapAllFirstFailure | src/redbee_mcp/client.py:386-394 | a failing append loop reports the exception of the first item that raised, all earlier steps having succeeded |
| Json.CollectAll | src/redbee_mcp/client.py:386-394 | the imperative append loop computes exactly the list, or the first exception, that the loop specification gives |
| PyStrings.RStrip | src/redbee_mcp/cli.py:38 | `rstrip('/')` keeps a prefix of the URL, removes only '/' characters, and leaves no trailing '/' |
| Http.RaiseForStatusJson | src/redbee_mcp/cli.py:55-56 | succeeds iff the status is 2xx and the body decodes, returning the body; a transport failure and a non-2xx status raise their own exceptions |
| Http.CallRequest | src/redbee_mcp/cli.py:105-110 | the remote call POSTs exactly `{name, arguments}` with `Content-Type: application/json` |
| Mcp.ToolFromJson | src/redbee_mcp/cli.py:60 | `Tool(**d)` succeeds iff `d` is a dict with a string `name`, a dict `inputSchema` and a `description` that is absent, None or a string. The descriptor then has exactly that name, that schema, and that description (none when absent or None). A non-dict raises a TypeError |
| Mcp.ToolsInRemoteOrder | src/redbee_mcp/cli.py:58-60 | tool construction succeeds iff every entry constructs, and then yields one tool per entry in remote order |
| Mcp.FetchToolsInOrder | src/redbee_mcp/cli.py:54-60 | an accepted `/tools` fetch comes from a 2xx dict reply with a `tools` member; for a `tools` array it yields one tool per entry, in order |
| Mcp.SyntheticTool | src/redbee_mcp/cli.py:47-51 | a synthetic descriptor has the given name and description and an object schema with no properties and no required arguments |
| RemoteClient.RedBeeRemoteClient.constructor | src/redbee_mcp/cli.py:37-42 | `server_url` is stored with every trailing '/' removed; an HTTP client exists iff httpx is available |
| RemoteClient.ConnectionErrorTool | src/redbee_mcp/cli.py:65-70 | the fallback descriptor is named `connection_error`, and its description contains the error text |
| RemoteClient.ToolsFromReply | src/redbee_mcp/cli.py:53-70 | returns the remote tools in remote order when the fetch succeeds; any failure gives exactly one `connection_error` tool whose description contains `str(e)` |
| RemoteClient.RedBeeRemoteClient.GetTools | src/redbee_mcp/cli.py:44-70 | without httpx it returns exactly the `install_httpx` tool and makes no request; otherwise it makes one GET of `<server_url>/tools` and returns the tools from the reply |
| RemoteClient.ConnectionHelp | src/redbee_mcp/cli.py:81-95 | the help text contains the server URL and `<server_url>/health` |
| RemoteClient.CallEnvelope | src/redbee_mcp/cli.py:103-125 | a 2xx dict reply with a truthy `success` forwards its `data`. Without `data`, the KeyError gives "Communication error with AWS server: 'data'". A falsy `success` gives one block "Server error: <error or 'Unknown error'>". Every other exception gives "Communication error with AWS server: <str(e)>": a transport failure, a non-2xx status, an undecodable body, or a reply that is not a dict |
| RemoteClient.RedBeeRemoteClient.CallTool | src/redbee_mcp/cli.py:72-125 | `install_httpx` and `connection_error` are answered locally before any other check. Without httpx, any other name gives "Missing dependencies. ...". No request is made exactly in those three cases; otherwise it makes exactly one POST of `{name, arguments}` |
| RemoteClient.SyntheticToolsAnsweredLocally | src/redbee_mcp/cli.py:44-95 | every substitute descriptor that `get_tools` offers is answered by `call_tool` locally, without a request |
| SystemTools.Reply | src/redbee_mcp/tools/system.py:28-42 | every outcome becomes exactly one block. Success gives the heading and the rendered result. A `RedBeeAPIError` gives "Erreur API Red Bee: <message> (Status: <status>)". Any other exception gives the operation's message followed by `str(e)` |
| SystemTools.RepliesTellOutcomesApart | src/redbee_mcp/tools/system.py:28-42 | for every system tool, replies to outcomes of different kinds are different texts: success, a `RedBeeAPIError`, and any other exception can be told apart by the text alone |
| SystemTools.PublicGet | src/redbee_mcp/tools/system.py:22-26 | the public requests never carry `EMP-Auth`, whatever token the configuration holds |
| SystemTools.PublicTool | src/redbee_mcp/tools/system.py:19-42 | a public tool makes exactly one unauthenticated GET and reports its outcome |
| SystemTools.GetSystemConfig | src/redbee_mcp/tools/system.py:14-42 | makes one public GET of the v2 system/config path and returns the one-block report |
| SystemTools.GetSystemTime | src/redbee_mcp/tools/system.py:45-73 | makes one public GET of the v1 time path and returns the one-block report |
| SystemTools.GetUserLocation | src/redbee_mcp/tools/system.py:76-104 | makes one public GET of the v1 location path and returns the one-block report |
| SystemTools.GetActiveChannels | src/redbee_mcp/tools/system.py:107-141 | a supplied token is used; otherwise the configured token is used; with neither, an anonymous session is opened first and its token used. If that anonymous session fails, the failure is reported and the channels are not requested. Like every tool, it works on a client of its own and modifies nothing that existed before the call, so a token it installs cannot reach another call |
| SystemTools.DeviceRequest | src/redbee_mcp/tools/system.py:152-158 | device requests always carry the caller's token as `EMP-Auth` (absent only if that token is empty) |
| SystemTools.GetUserDevices | src/redbee_mcp/tools/system.py:144-175 | makes one GET of the v2 device path with the supplied token and returns the one-block report |
| SystemTools.DeletedConfirmationNamesDevice | src/redbee_mcp/tools/system.py:196-205 | the confirmation names the deleted device, and only that device |
| SystemTools.DeleteUserDevice | src/redbee_mcp/tools/system.py:178-216 | makes one DELETE of device/{id} with the supplied token; on success it reports the fixed confirmation whatever the reply body was, and on failure it reports the error |
| SystemTools.ArgToolRequiredDeclared | src/redbee_mcp/tools/system.py:220-309 | a schema built from a property list, whose required names are all among those properties, declares every name it requires |
| SystemTools.SystemCatalogueWellFormed | src/redbee_mcp/tools/system.py:220-309 | `SYSTEM_TOOLS` lists six tools with pairwise-distinct names, and every `required` entry of each is a key of its `properties` |
| ServerHybrid.FailureEnvelope | src/redbee_mcp/server_hybrid.py:35-39 | the synthesized envelope has `success` False and carries the error text |
| ServerHybrid.AwsRequest | src/redbee_mcp/server_hybrid.py:42-50 | sends a GET iff the method is "GET"; otherwise it POSTs the data as JSON with `Content-Type`; either way to `AWS_SERVER_URL + endpoint` |
| ServerHybrid.AwsRequestsAreProtocolRequests | src/redbee_mcp/server_hybrid.py:79 | the handlers' two calls are the `/tools` GET and the `/call` POST of the remote protocol |
| ServerHybrid.CallAwsApi | src/redbee_mcp/server_hybrid.py:33-57 | without httpx it returns the "httpx non installé ..." envelope and makes no request. Otherwise it makes one request and returns the decoded reply, or on any exception `{success: False, error: "Erreur connexion AWS: ..."}`. It never raises |
| ServerHybrid.AwsErrorTool | src/redbee_mcp/server_hybrid.py:88-96 | the fallback descriptor is named `aws_server_error`, and its description contains the error |
| ServerHybrid.ListFromEnvelope | src/redbee_mcp/server_hybrid.py:79-96 | a truthy `success` gives the `tools` list; otherwise exactly one `aws_server_error` tool carrying `error` (default "Indisponible"); a reply that is not a dict raises |
| ServerHybrid.HandleListTools | src/redbee_mcp/server_hybrid.py:63-96 | without httpx it returns exactly the `install_httpx` tool and makes no request; otherwise it returns the list read from the `/tools` envelope |
| ServerHybrid.UnreachableServerListsErrorTool | src/redbee_mcp/server_hybrid.py:53-57 | a failing AWS server is listed as the single `aws_server_error` tool whose description names the failure |
| ServerHybrid.CallFromEnvelope | src/redbee_mcp/server_hybrid.py:129-135 | a dict with a truthy `success` and a `data` returns exactly that `data`. Without `data` it raises KeyError('data'). A falsy `success` gives one block "Erreur: <error or 'Erreur inconnue'>". A reply that is not a dict raises AttributeError. These are the only raising cases |
| ServerHybrid.UnreachableText | src/redbee_mcp/server_hybrid.py:109-113 | the `aws_server_error` answer contains `AWS_SERVER_URL` |
| ServerHybrid.HandleCallTool | src/redbee_mcp/server_hybrid.py:99-135 | `install_httpx` and `aws_server_error` are answered locally first; then a missing httpx gives its fixed text. No request is made exactly in those cases; otherwise one POST of `{name, arguments}` to `/call`, read as an envelope |
| ServerHybrid.FailedCallIsReported | src/redbee_mcp/server_hybrid.py:124-135 | a call the AWS server fails is answered with one block "Erreur: Erreur connexion AWS: ..." and does not raise |
| BridgeAws.ToolsOrNothing | bridge_aws.py:28-39 | returns the remote tools in order on success, and `[]` on any failure |
| BridgeAws.BridgeEnvelope | bridge_aws.py:41-57 | a 2xx dict reply with a truthy `success` and a `data` forwards exactly that `data`. A falsy `success` gives one block "Erreur: <error or 'Erreur inconnue'>". Each exception gives one block "Erreur de connexion: <str(e)>": a transport failure, non-2xx status or undecodable body; a reply that is not a dict; a missing `success` (KeyError); a truthy `success` without `data` (KeyError) |
| BridgeAws.AWSBridge.constructor | bridge_aws.py:24-26 | `server_url` is stored with every trailing '/' removed |
| BridgeAws.AWSBridge.GetTools | bridge_aws.py:28-39 | makes one GET of `<server_url>/tools` and returns its tools, or `[]` |
| BridgeAws.AWSBridge.CallTool | bridge_aws.py:41-57 | makes one POST of `{name, arguments}` and reads the envelope |
| BridgeAws.BridgeServer.constructor | bridge_aws.py:64 | the server starts with no bridge |
| BridgeAws.BridgeServer.Start | bridge_aws.py:78-84 | `main` installs a new bridge to the given URL |
| BridgeAws.BridgeServer.HandleListTools | bridge_aws.py:66-70 | without a bridge it lists nothing and makes no request; otherwise it is the bridge's `get_tools` |
| BridgeAws.BridgeServer.HandleCallTool | bridge_aws.py:72-76 | without a bridge it returns the single block "Bridge non initialisé" and makes no request; otherwise it is the bridge's `call_tool` |

## Left out

- HTTP itself (httpx's `AsyncClient`, `get`, `post`, `request`, `response.json()`): the network is the parameter `net`. A response's decoded body is given with it, so JSON decoding is not modelled.
- `async`/`await`, the context managers, `aclose` and `close`: resource release has no logic to state. The separate `httpx.AsyncClient` of the autocomplete search is kept only as the fact that its request is built by hand without `EMP-Auth`.
- `urljoin`: a request's URL is kept as the pair (base, endpoint) it is computed from.
- Json: the decoded value has no number with a fraction. Nothing in the core computes with one, but a float anywhere in a reply (a `completionPercentage`, a float `watchDuration`, values inside `settings`, `data` or a rendered payload) is outside the model.
- Json.Lookup: it takes the first member with a key, while `json.loads` keeps the last of repeated keys. The two agree on every object without repeated keys, and the model assumes decoded objects have none.
- Client.AuthOutcome: `AuthenticationResponse` rejects a non-string token or device id. The other record fields are kept as the JSON values that came in, because the `models` module is not part of this model.
- SystemTools.Reply: `json.dumps(..., indent=2, ensure_ascii=False)` is modelled as a compact rendering without escaping (`Json.Dumps`), and `str()` of a decoded value as Python's repr without escaping (`Json.Str`). Only the structure of the texts around them is exact.
- RemoteClient.CallEnvelope: the `str(e)` of library exceptions is a stand-in text (`Faults.Describe`). It is exact for a KeyError's key and for a transport failure's message.
- The `timeout` configuration field: it only configures httpx.
- `completion_percentage` of a history entry, `get_content_analytics` and `get_platform_metrics`: these are float-valued analytics, and the last two are not among the operations modelled.
- Logging, the CLI `main`, its `--test` health check and click options, the MCP SDK plumbing (`Server`, decorators, `stdio_server`, `app.run`), and the entry modules `__main__.py` and `__init__.py`.
- BridgeAws.BridgeServer.Start: the environment variable `REDBEE_AWS_SERVER` and its default URL are read by `main` and passed in here as `serverUrl`. `ServerHybrid.Env` likewise takes `HTTP_AVAILABLE` and `AWS_SERVER_URL` as inputs.
- `authenticate_anonymous` is `authenticate` with no credentials, and appears as `Authenticate(net, None, None)`.
