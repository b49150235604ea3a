/** The Red Bee gateway and credential holder (`RedBeeClient`): header policy, URL
    derivation, the mapping of HTTP outcomes to `RedBeeAPIError`, authentication, and the
    projections of loosely typed upstream JSON onto records with defaults. */
module Client {
  import opened Wrappers
  import opened PyStrings
  import opened Faults
  import opened Json
  import opened Http

  /** `RedBeeConfig`, restricted to the fields the client reads. */
  datatype Config = Config(
    customer: string,
    businessUnit: string,
    exposureBaseUrl: string,
    sessionToken: Option<string>,
    deviceId: Option<string>)

  /** What an operation of the client raises: a `RedBeeAPIError(message, status_code,
      error_code)` (a Python `None` error code is `JNull`), or any other exception. */
  datatype Raised =
    | ApiError(message: Json, statusCode: Option<nat>, errorCode: Json)
    | Unexpected(fault: Fault)

  /** Python truthiness of an `Optional[str]`. */
  predicate Present(o: Option<string>)
  {
    o.Some? && o.value != ""
  }

  /** Python's `o or fallback` for an `Optional[str]`. */
  function Or(o: Option<string>, fallback: string): string
  {
    if Present(o) then o.value else fallback
  }

  /** Applies the next step of an operation to a successful response. */
  function Bind<T>(resp: Result<Json, Raised>, next: Json -> Result<T, Raised>): Result<T, Raised>
  {
    match resp
    case Failure(e) => Failure(e)
    case Success(body) => next(body)
  }

  // ---------------------------------------------------------------- URLs and paths

  /** `self.analytics_url`: the exposure URL with every "exposure" replaced by "eventsink". */
  function AnalyticsUrl(exposureUrl: string): (url: string)
    ensures url == Join(Split(exposureUrl, "exposure"), "eventsink")
    ensures !Contains(exposureUrl, "exposure") ==> url == exposureUrl
  {
    ReplaceIsJoinOfSplit(exposureUrl, "exposure", "eventsink");
    if !Contains(exposureUrl, "exposure") then
      ReplaceWithoutOccurrence(exposureUrl, "exposure", "eventsink");
      Replace(exposureUrl, "exposure", "eventsink")
    else
      Replace(exposureUrl, "exposure", "eventsink")
  }

  function Scope(cfg: Config): string
  {
    "/customer/" + cfg.customer + "/businessunit/" + cfg.businessUnit
  }

  function LoginPath(cfg: Config): string { "/v3" + Scope(cfg) + "/auth/login" }
  function AnonymousPath(cfg: Config): string { "/v2" + Scope(cfg) + "/auth/anonymous" }
  function AssetListPath(cfg: Config): string { "/v1" + Scope(cfg) + "/content/asset" }
  function AssetPath(cfg: Config, assetId: string): string { AssetListPath(cfg) + "/" + assetId }
  function PlayPath(cfg: Config, assetId: string): string { Scope(cfg) + "/entitlement/" + assetId + "/play" }
  function EntitlementsPath(cfg: Config, userId: string): string { Scope(cfg) + "/entitlement/user/" + userId }
  function ViewingHistoryPath(cfg: Config): string { Scope(cfg) + "/analytics/viewing-history" }
  function BusinessUnitPath(cfg: Config): string { Scope(cfg) + "/config" }

  function AutocompleteUrl(exposureUrl: string, cfg: Config, query: string): string
  {
    exposureUrl + "/v1" + Scope(cfg) + "/content/search/autocomplete/" + query
  }

  // ---------------------------------------------------------------- headers

  const ACCEPT_JSON: map<string, string> := map["Accept" := "application/json"]

  /** `_get_headers(include_auth)` for the held token: `EMP-Auth` only when asked for
      and a non-empty token is held, and otherwise nothing but `Accept`. */
  function AuthHeaders(includeAuth: bool, token: Option<string>): (h: map<string, string>)
    ensures "EMP-Auth" in h <==> includeAuth && Present(token)
    ensures "EMP-Auth" in h ==> h == ACCEPT_JSON["EMP-Auth" := token.value]
    ensures "EMP-Auth" !in h ==> h == ACCEPT_JSON
  {
    if includeAuth && Present(token) then ACCEPT_JSON["EMP-Auth" := token.value] else ACCEPT_JSON
  }

  /** A public request carries the same headers whatever token is held. */
  lemma PublicHeadersIgnoreToken(t1: Option<string>, t2: Option<string>)
    ensures AuthHeaders(false, t1) == AuthHeaders(false, t2) == ACCEPT_JSON
  {
  }

  // ---------------------------------------------------------------- status mapping

  function HttpMessage(status: nat): Json
  {
    JString("HTTP " + NatToString(status))
  }

  /** The members of an error body, or none when it did not decode (`error_data = {}`). */
  function ErrorFields(body: Option<Json>): seq<(string, Json)>
  {
    if body.Some? && body.value.JObject? then body.value.fields else []
  }

  /** The tail of `_make_request`: what it returns or raises for one HTTP outcome. */
  function ResponseResult(o: HttpOutcome): (r: Result<Json, Raised>)
    ensures r.Success? <==> o.Response? && o.status < 400 && o.body.Some?
    ensures r.Success? ==> r.value == o.body.value
    ensures o.Response? && o.status >= 400 ==>
              r.Failure? && (r.error.ApiError? <==> o.body.None? || o.body.value.JObject?)
    ensures o.Response? && o.status >= 400 && r.error.ApiError? ==>
              r.error == ApiError(FieldOr(ErrorFields(o.body), "message", HttpMessage(o.status)),
                                  Some(o.status),
                                  FieldOr(ErrorFields(o.body), "error_code", JNull))
    ensures o.Response? && o.status >= 400 && o.body.Some? && !o.body.value.JObject? ==>
              r == Failure(Unexpected(AttributeError(NoGet(TypeName(o.body.value)))))
    ensures o.Response? && o.status < 400 && o.body.None? ==> r == Failure(Unexpected(DecodeError))
    ensures o.TransportFailure? ==>
              r == Failure(ApiError(JString("Erreur de requête: " + o.detail), None, JNull))
    ensures r.Failure? && r.error.ApiError? && r.error.statusCode.Some? ==>
              o.Response? && o.status >= 400 && r.error.statusCode.value == o.status
  {
    match o
    case TransportFailure(detail) =>
      Failure(ApiError(JString("Erreur de requête: " + detail), None, JNull))
    case Response(status, _, body) =>
      if status >= 400 then
        var errorData := if body.Some? then body.value else JObject([]);
        if errorData.JObject? then
          Failure(ApiError(FieldOr(errorData.fields, "message", HttpMessage(status)),
                           Some(status),
                           FieldOr(errorData.fields, "error_code", JNull)))
        else
          Failure(Unexpected(AttributeError(NoGet(TypeName(errorData)))))
      else if body.Some? then Success(body.value)
      else Failure(Unexpected(DecodeError))
  }

  /** The autocomplete call's own handling, which bypasses `_make_request`: an error
      status raises with the raw response text as message and no error code. */
  function AutocompleteResult(o: HttpOutcome): (r: Result<Json, Raised>)
    ensures r.Success? <==> o.Response? && o.status < 400 && o.body.Some?
    ensures r.Success? ==> r.value == o.body.value
    ensures o.Response? && o.status >= 400 ==> r == Failure(ApiError(JString(o.text), Some(o.status), JNull))
    ensures o.Response? && o.status < 400 && o.body.None? ==> r == Failure(Unexpected(DecodeError))
    ensures o.TransportFailure? ==>
              r == Failure(ApiError(JString("Erreur de requête: " + o.detail), None, JNull))
  {
    match o
    case TransportFailure(detail) =>
      Failure(ApiError(JString("Erreur de requête: " + detail), None, JNull))
    case Response(status, text, body) =>
      if status >= 400 then Failure(ApiError(JString(text), Some(status), JNull))
      else if body.Some? then Success(body.value)
      else Failure(Unexpected(DecodeError))
  }

  // ---------------------------------------------------------------- authentication

  /** `AuthenticationResponse`. */
  datatype AuthResponse = AuthResponse(sessionToken: string, deviceId: string, expiresAt: Json)

  /** The `device.deviceId` member of a request body. */
  function SentDeviceId(req: Request): Option<Json>
  {
    if req.body.Some? && req.body.value.JObject? then
      match Lookup(req.body.value.fields, "device")
      case Some(JObject(device)) => Lookup(device, "deviceId")
      case _ => None
    else None
  }

  /** The request `authenticate` sends: a v3 login when both username and password are
      given, a v2 anonymous session otherwise; never with `EMP-Auth`; the device id is the
      known one or one synthesized from the customer. */
  function AuthRequest(cfg: Config, exposureUrl: string, knownDevice: Option<string>,
                       username: Option<string>, password: Option<string>): (req: Request)
    ensures req.verb == POST && req.headers == ACCEPT_JSON && req.params == map[]
    ensures req.url == Joined(exposureUrl, LoginPath(cfg)) <==> Present(username) && Present(password)
    ensures req.url == Joined(exposureUrl, AnonymousPath(cfg)) <==> !(Present(username) && Present(password))
    ensures SentDeviceId(req) ==
              Some(JString(Or(knownDevice,
                              (if Present(username) && Present(password) then "web_" else "anon_") + cfg.customer)))
    ensures req.body.Some? && req.body.value.JObject?
    ensures Present(username) && Present(password) ==>
              Lookup(req.body.value.fields, "credentials") ==
              Some(JObject([("username", JString(username.value)), ("password", JString(password.value))]))
    ensures !(Present(username) && Present(password)) ==> Lookup(req.body.value.fields, "credentials").None?
    ensures Present(username) && Present(password) ==>
              |req.body.value.fields| == 2 &&
              Lookup(req.body.value.fields, "device") ==
              Some(JObject([("deviceId", JString(Or(knownDevice, "web_" + cfg.customer))),
                            ("name", JString("Web Browser")), ("type", JString("WEB"))]))
    ensures !(Present(username) && Present(password)) ==>
              |req.body.value.fields| == 1 &&
              Lookup(req.body.value.fields, "device") ==
              Some(JObject([("deviceId", JString(Or(knownDevice, "anon_" + cfg.customer))), ("type", JString("WEB"))]))
  {
    assert LoginPath(cfg)[2] == '3' && AnonymousPath(cfg)[2] == '2';
    if Present(username) && Present(password) then
      var device := JObject([("deviceId", JString(Or(knownDevice, "web_" + cfg.customer))),
                             ("name", JString("Web Browser")),
                             ("type", JString("WEB"))]);
      var credentials := JObject([("username", JString(username.value)), ("password", JString(password.value))]);
      assert Lookup([("credentials", credentials), ("device", device)], "device") == Some(device);
      Request(POST, Joined(exposureUrl, LoginPath(cfg)), ACCEPT_JSON,
        Some(JObject([
          ("credentials", JObject([("username", JString(username.value)), ("password", JString(password.value))])),
          ("device", JObject([("deviceId", JString(Or(knownDevice, "web_" + cfg.customer))),
                              ("name", JString("Web Browser")),
                              ("type", JString("WEB"))]))])),
        map[])
    else
      Request(POST, Joined(exposureUrl, AnonymousPath(cfg)), ACCEPT_JSON,
        Some(JObject([
          ("device", JObject([("deviceId", JString(Or(knownDevice, "anon_" + cfg.customer))),
                              ("type", JString("WEB"))]))])),
        map[])
  }

  /** The credential `authenticate` builds from the login or anonymous reply: the reply's
      `sessionToken`, and its `deviceId`, or else the known device id, or else "". */
  function AuthOutcome(resp: Result<Json, Raised>, knownDevice: Option<string>): (r: Result<AuthResponse, Raised>)
    ensures resp.Failure? ==> r == Failure(resp.error)
    ensures r.Success? ==>
              resp.Success? && resp.value.JObject? &&
              Lookup(resp.value.fields, "sessionToken") == Some(JString(r.value.sessionToken)) &&
              JString(r.value.deviceId) == FieldOr(resp.value.fields, "deviceId", JString(Or(knownDevice, ""))) &&
              r.value.expiresAt == FieldOr(resp.value.fields, "expiresAt", JNull)
    ensures resp.Success? && resp.value.JObject? &&
            Lookup(resp.value.fields, "sessionToken").Some? && Lookup(resp.value.fields, "sessionToken").value.JString? &&
            FieldOr(resp.value.fields, "deviceId", JString(Or(knownDevice, ""))).JString?
            ==> r.Success?
  {
    match resp
    case Failure(e) => Failure(e)
    case Success(body) =>
      match Index(body, "sessionToken")
      case Failure(f) => Failure(Unexpected(f))
      case Success(token) =>
        var device := FieldOr(body.fields, "deviceId", JString(Or(knownDevice, "")));
        if token.JString? && device.JString? then
          Success(AuthResponse(token.s, device.s, FieldOr(body.fields, "expiresAt", JNull)))
        else
          Failure(Unexpected(ValidationError("AuthenticationResponse")))
  }

  // ---------------------------------------------------------------- records

  /** `Asset`, with the upstream value of every field kept as it came. */
  datatype Asset = Asset(
    assetId: Json, title: Json, description: Json, duration: Json,
    contentType: Json, mediaType: Json, genre: Json, releaseDate: Json,
    rating: Json, language: Json, subtitleLanguages: Json, posterUrl: Json,
    thumbnailUrl: Json, trailerUrl: Json, tags: Json, externalReferences: Json)

  /** An asset record from an asset item: `assetId` is required, every other field
      defaults (to "", [], {} or None) when absent. */
  function AssetFromItem(item: Json): (r: Result<Asset, Raised>)
    ensures r.Success? <==> item.JObject? && Lookup(item.fields, "assetId").Some?
    ensures r.Success? ==> Lookup(item.fields, "assetId") == Some(r.value.assetId)
  {
    match Index(item, "assetId")
    case Failure(f) => Failure(Unexpected(f))
    case Success(id) =>
      var f := item.fields;
      Success(Asset(
        id,
        FieldOr(f, "title", JString("")),
        FieldOr(f, "description", JNull),
        FieldOr(f, "duration", JNull),
        FieldOr(f, "contentType", JNull),
        FieldOr(f, "mediaType", JNull),
        FieldOr(f, "genre", JArray([])),
        FieldOr(f, "releaseDate", JNull),
        FieldOr(f, "rating", JNull),
        FieldOr(f, "language", JNull),
        FieldOr(f, "subtitleLanguages", JArray([])),
        FieldOr(f, "posterUrl", JNull),
        FieldOr(f, "thumbnailUrl", JNull),
        FieldOr(f, "trailerUrl", JNull),
        FieldOr(f, "tags", JArray([])),
        FieldOr(f, "externalReferences", JObject([]))))
  }

  /** An item carries the asset `a` when it is a dict holding every field of `a` under
      its upstream key. */
  predicate CarriesAsset(item: Json, a: Asset)
  {
    item.JObject? &&
    Lookup(item.fields, "assetId") == Some(a.assetId) && Lookup(item.fields, "title") == Some(a.title) &&
    Lookup(item.fields, "description") == Some(a.description) && Lookup(item.fields, "duration") == Some(a.duration) &&
    Lookup(item.fields, "contentType") == Some(a.contentType) && Lookup(item.fields, "mediaType") == Some(a.mediaType) &&
    Lookup(item.fields, "genre") == Some(a.genre) && Lookup(item.fields, "releaseDate") == Some(a.releaseDate) &&
    Lookup(item.fields, "rating") == Some(a.rating) && Lookup(item.fields, "language") == Some(a.language) &&
    Lookup(item.fields, "subtitleLanguages") == Some(a.subtitleLanguages) &&
    Lookup(item.fields, "posterUrl") == Some(a.posterUrl) && Lookup(item.fields, "thumbnailUrl") == Some(a.thumbnailUrl) &&
    Lookup(item.fields, "trailerUrl") == Some(a.trailerUrl) && Lookup(item.fields, "tags") == Some(a.tags) &&
    Lookup(item.fields, "externalReferences") == Some(a.externalReferences)
  }

  /** An item that carries every field of a record reproduces that record, whatever other
      members it has and in whatever order. */
  lemma AssetRoundTrip(item: Json, a: Asset)
    requires CarriesAsset(item, a)
    ensures AssetFromItem(item) == Success(a)
  {
  }

  /** An item with `assetId` and none of the other fields gets the documented default of
      each: "" for the title, [] for genre, subtitle languages and tags, {} for the
      external references, None for the rest. */
  lemma AssetDefaults(item: Json)
    requires item.JObject? && Lookup(item.fields, "assetId").Some?
    requires Lookup(item.fields, "title").None? && Lookup(item.fields, "description").None?
    requires Lookup(item.fields, "duration").None? && Lookup(item.fields, "contentType").None?
    requires Lookup(item.fields, "mediaType").None? && Lookup(item.fields, "genre").None?
    requires Lookup(item.fields, "releaseDate").None? && Lookup(item.fields, "rating").None?
    requires Lookup(item.fields, "language").None? && Lookup(item.fields, "subtitleLanguages").None?
    requires Lookup(item.fields, "posterUrl").None? && Lookup(item.fields, "thumbnailUrl").None?
    requires Lookup(item.fields, "trailerUrl").None? && Lookup(item.fields, "tags").None?
    requires Lookup(item.fields, "externalReferences").None?
    ensures AssetFromItem(item) ==
            Success(Asset(Lookup(item.fields, "assetId").value, JString(""), JNull, JNull, JNull, JNull,
                          JArray([]), JNull, JNull, JNull, JArray([]), JNull, JNull, JNull, JArray([]), JObject([])))
  {
  }

  /** An asset record from an autocomplete entry: `assetId`, `text` as title (default ""),
      and nothing else. */
  function AutocompleteAsset(item: Json): (r: Result<Asset, Raised>)
    ensures r.Success? <==> item.JObject? && Lookup(item.fields, "assetId").Some?
    ensures r.Success? ==> Lookup(item.fields, "assetId") == Some(r.value.assetId)
  {
    match Index(item, "assetId")
    case Failure(f) => Failure(Unexpected(f))
    case Success(id) =>
      Success(Asset(id, FieldOr(item.fields, "text", JString("")), JNull, JNull, JNull, JNull,
                    JArray([]), JNull, JNull, JNull, JArray([]), JNull, JNull, JNull,
                    JArray([]), JObject([])))
  }

  /** `SearchResult`. */
  datatype SearchResult = SearchResult(totalResults: Json, page: int, perPage: int, totalPages: Json, assets: seq<Asset>)

  /** The query parameters of an asset listing: page size and number and the locale
      always, each optional filter only when it is given and non-empty. */
  function ListingParams(page: int, perPage: int, contentType: Option<string>,
                         genre: Option<string>, sortBy: Option<string>): (p: map<string, Json>)
    ensures p.Keys == {"pageSize", "pageNumber", "locale"}
                      + (if Present(contentType) then {"contentType"} else {})
                      + (if Present(genre) then {"genre"} else {})
                      + (if Present(sortBy) then {"sortBy"} else {})
    ensures p["pageSize"] == JInt(perPage) && p["pageNumber"] == JInt(page) && p["locale"] == JString("fr")
    ensures Present(contentType) ==> p["contentType"] == JString(contentType.value)
    ensures Present(genre) ==> p["genre"] == JString(genre.value)
    ensures Present(sortBy) ==> p["sortBy"] == JString(sortBy.value)
  {
    var base := map["pageSize" := JInt(perPage), "pageNumber" := JInt(page), "locale" := JString("fr")];
    var withType := if Present(contentType) then base["contentType" := JString(contentType.value)] else base;
    var withGenre := if Present(genre) then withType["genre" := JString(genre.value)] else withType;
    if Present(sortBy) then withGenre["sortBy" := JString(sortBy.value)] else withGenre
  }

  /** The request of an autocomplete search: built by hand against the exposure URL,
      with a lower-case `accept` header only. */
  function AutocompleteRequest(exposureUrl: string, cfg: Config, query: string): Request
  {
    Request(GET, Literal(AutocompleteUrl(exposureUrl, cfg, query)),
            map["accept" := "application/json"], None, map["locale" := JString("fr")])
  }

  /** The `SearchResult` built from a search reply. A list (only when a query was sent)
      is an autocomplete reply; anything else is read as an asset listing. */
  function SearchOutcome(query: bool, resp: Result<Json, Raised>, page: int, perPage: int): Result<SearchResult, Raised>
  {
    match resp
    case Failure(e) => Failure(e)
    case Success(body) =>
      if query && body.JArray? then
        match MapAll(body.items, AutocompleteAsset)
        case Failure(e) => Failure(e)
        case Success(assets) =>
          Success(SearchResult(JInt(|body.items|), 1, |body.items|, JInt(1), assets))
      else
        match Get(body, "items", JArray([]))
        case Failure(f) => Failure(Unexpected(f))
        case Success(itemsJ) =>
          match Iterate(itemsJ)
          case Failure(f) => Failure(Unexpected(f))
          case Success(items) =>
            match MapAll(items, AssetFromItem)
            case Failure(e) => Failure(e)
            case Success(assets) =>
              Success(SearchResult(FieldOr(body.fields, "totalCount", JInt(0)), page, perPage,
                                   FieldOr(body.fields, "totalPages", JInt(1)), assets))
  }

  /** An autocomplete reply gives one page holding all of its entries: one asset per
      entry, in order, titled by the entry's `text` (default ""), with empty genre,
      subtitle languages, tags and external references, and None for every other field. */
  lemma AutocompleteShape(items: seq<Json>, page: int, perPage: int)
    ensures SearchOutcome(true, Success(JArray(items)), page, perPage).Success? <==>
            forall i :: 0 <= i < |items| ==> items[i].JObject? && Lookup(items[i].fields, "assetId").Some?
    ensures SearchOutcome(true, Success(JArray(items)), page, perPage).Success? ==>
            var r := SearchOutcome(true, Success(JArray(items)), page, perPage).value;
            r.totalResults == JInt(|items|) && r.perPage == |items| && r.page == 1 && r.totalPages == JInt(1) &&
            |r.assets| == |items| &&
            forall i :: 0 <= i < |items| ==>
              items[i].JObject? &&
              Lookup(items[i].fields, "assetId") == Some(r.assets[i].assetId) &&
              r.assets[i].title == FieldOr(items[i].fields, "text", JString("")) &&
              r.assets[i].genre == JArray([]) && r.assets[i].tags == JArray([]) &&
              r.assets[i].externalReferences == JObject([]) && r.assets[i].subtitleLanguages == JArray([]) &&
              r.assets[i].description == JNull && r.assets[i].duration == JNull &&
              r.assets[i].contentType == JNull && r.assets[i].mediaType == JNull &&
              r.assets[i].releaseDate == JNull && r.assets[i].rating == JNull && r.assets[i].language == JNull &&
              r.assets[i].posterUrl == JNull && r.assets[i].thumbnailUrl == JNull && r.assets[i].trailerUrl == JNull
  {
    MapAllSucceeds(items, AutocompleteAsset);
  }

  /** A listing reply without `items` is an empty page: no assets, a missing
      `totalCount` reading as 0 and a missing `totalPages` as 1. */
  lemma ListingWithoutItems(query: bool, fields: seq<(string, Json)>, page: int, perPage: int)
    requires Lookup(fields, "items").None?
    ensures var r := SearchOutcome(query, Success(JObject(fields)), page, perPage);
            r.Success? && r.value.assets == [] && r.value.page == page && r.value.perPage == perPage &&
            r.value.totalResults == FieldOr(fields, "totalCount", JInt(0)) &&
            r.value.totalPages == FieldOr(fields, "totalPages", JInt(1))
  {
  }

  /** An asset listing succeeds exactly when every item is a dict with `assetId`, and
      then yields one asset per item, in order; `totalCount` and `totalPages` are passed
      through, a missing `totalCount` reading as 0 and a missing `totalPages` as 1, and
      the requested page and page size are echoed. */
  lemma ListingShape(query: bool, fields: seq<(string, Json)>, items: seq<Json>, page: int, perPage: int)
    requires Lookup(fields, "items") == Some(JArray(items))
    ensures SearchOutcome(query, Success(JObject(fields)), page, perPage).Success? <==>
            forall i :: 0 <= i < |items| ==> items[i].JObject? && Lookup(items[i].fields, "assetId").Some?
    ensures SearchOutcome(query, Success(JObject(fields)), page, perPage).Success? ==>
            var r := SearchOutcome(query, Success(JObject(fields)), page, perPage).value;
            r.page == page && r.perPage == perPage &&
            (Lookup(fields, "totalCount").Some? ==> r.totalResults == Lookup(fields, "totalCount").value) &&
            (Lookup(fields, "totalCount").None? ==> r.totalResults == JInt(0)) &&
            (Lookup(fields, "totalPages").Some? ==> r.totalPages == Lookup(fields, "totalPages").value) &&
            (Lookup(fields, "totalPages").None? ==> r.totalPages == JInt(1)) &&
            |r.assets| == |items| &&
            forall i :: 0 <= i < |items| ==> Success(r.assets[i]) == AssetFromItem(items[i])
  {
    MapAllSucceeds(items, AssetFromItem);
  }

  // ---------------------------------------------------------------- playback

  const NO_FORMAT := "Aucun format de streaming supporté trouvé"

  /** A format entry `format_info.get("format") in ["HLS", "DASH"]` accepts. */
  predicate Supported(entry: Json)
  {
    entry.JObject? &&
    (Lookup(entry.fields, "format") == Some(JString("HLS")) || Lookup(entry.fields, "format") == Some(JString("DASH")))
  }

  /** The entries from `from` up to `upto` were all looked at and passed over. */
  predicate PassedOver(formats: seq<Json>, from: nat, upto: nat)
    requires upto <= |formats|
  {
    forall j :: from <= j < upto ==> formats[j].JObject? && !Supported(formats[j])
  }

  /** The scan for the preferred format from entry `i` on: the index of the first
      supported entry, None when there is none, or the AttributeError of the first
      entry that is not a dict. */
  function FirstSupportedFrom(formats: seq<Json>, i: nat): (r: Result<Option<nat>, Raised>)
    requires i <= |formats|
    ensures r.Success? && r.value.Some? ==>
              i <= r.value.value < |formats| && Supported(formats[r.value.value]) &&
              PassedOver(formats, i, r.value.value)
    ensures r.Success? && r.value.None? ==> PassedOver(formats, i, |formats|)
    ensures r.Failure? ==>
              r.error.Unexpected? && r.error.fault.AttributeError? &&
              exists k :: i <= k < |formats| && !formats[k].JObject? && PassedOver(formats, i, k)
    decreases |formats| - i
  {
    if i == |formats| then Success(None)
    else if !formats[i].JObject? then
      Failure(Unexpected(AttributeError(NoGet(TypeName(formats[i])))))
    else if Supported(formats[i]) then Success(Some(i))
    else FirstSupportedFrom(formats, i + 1)
  }

  function FirstSupported(formats: seq<Json>): Result<Option<nat>, Raised>
  {
    FirstSupportedFrom(formats, 0)
  }

  /** The `for ... break` loop of `get_asset_playback_info`. */
  method SelectFormat(formats: seq<Json>) returns (r: Result<Option<nat>, Raised>)
    ensures r == FirstSupported(formats)
  {
    var i := 0;
    while i < |formats|
      invariant 0 <= i <= |formats|
      invariant FirstSupportedFrom(formats, i) == FirstSupported(formats)
    {
      if !formats[i].JObject? {
        return Failure(Unexpected(AttributeError(NoGet(TypeName(formats[i])))));
      }
      if Supported(formats[i]) {
        return Success(Some(i));
      }
      i := i + 1;
    }
    return Success(None);
  }

  /** `PlaybackInfo`. */
  datatype PlaybackInfo = PlaybackInfo(
    assetId: string, formatType: string, mediaLocator: Json, drmLicenseUrl: Json,
    subtitleTracks: Json, audioTracks: Json, qualityLevels: Json, expiresAt: Json, restrictions: Json)

  /** The body of the play request: `{}`, or `{"userId": ...}` when a user id is given. */
  function PlayBody(userId: Option<string>): Json
  {
    if Present(userId) then JObject([("userId", JString(userId.value))]) else JObject([])
  }

  /** The playback record built from a play reply. */
  function PlaybackFrom(assetId: string, body: Json): Result<PlaybackInfo, Raised>
  {
    match Get(body, "formats", JArray([]))
    case Failure(f) => Failure(Unexpected(f))
    case Success(formatsJ) =>
      match Iterate(formatsJ)
      case Failure(f) => Failure(Unexpected(f))
      case Success(formats) =>
        match FirstSupported(formats)
        case Failure(e) => Failure(e)
        case Success(None) => Failure(ApiError(JString(NO_FORMAT), None, JNull))
        case Success(Some(k)) =>
          var chosen := formats[k].fields;
          match Lookup(chosen, "mediaLocator")
          case None => Failure(Unexpected(KeyError("mediaLocator")))
          case Some(locator) =>
            Success(PlaybackInfo(
              assetId,
              Lower(Lookup(chosen, "format").value.s),
              locator,
              FieldOr(chosen, "drmLicenseUrl", JNull),
              FieldOr(body.fields, "subtitleTracks", JArray([])),
              FieldOr(body.fields, "audioTracks", JArray([])),
              FieldOr(body.fields, "qualityLevels", JArray([])),
              FieldOr(body.fields, "expiresAt", JNull),
              FieldOr(body.fields, "contractRestrictions", JObject([]))))
  }

  lemma LowerFormats()
    ensures Lower("HLS") == "hls" && Lower("DASH") == "dash"
  {
    assert Lower("HLS")[0] == 'h' && Lower("HLS")[1] == 'l' && Lower("HLS")[2] == 's';
    assert Lower("DASH")[0] == 'd' && Lower("DASH")[1] == 'a' && Lower("DASH")[2] == 's' && Lower("DASH")[3] == 'h';
  }

  /** A supported entry that comes after passed-over entries only is the one the scan
      picks. */
  lemma {:induction false} FirstSupportedIs(formats: seq<Json>, i: nat, k: nat)
    requires i <= k < |formats| && Supported(formats[k]) && PassedOver(formats, i, k)
    ensures FirstSupportedFrom(formats, i) == Success(Some(k))
    decreases k - i
  {
    if i < k {
      FirstSupportedIs(formats, i + 1, k);
    }
  }

  /** The entry playback is served from: supported, with only passed-over entries before it. */
  predicate Preferred(formats: seq<Json>, k: nat)
  {
    k < |formats| && Supported(formats[k]) && PassedOver(formats, 0, k)
  }

  /** The scan over entries that start with a `str` fails on that entry's `.get`. */
  lemma ScanStopsAtString(formats: seq<Json>)
    requires |formats| > 0 && formats[0].JString?
    ensures FirstSupported(formats) == Failure(Unexpected(AttributeError(NoGet("str"))))
  {
    assert TypeName(formats[0]) == "str";
  }

  /** A `formats` member that is a dict or a string is still iterated: a non-empty one
      hands the scan a `str`, whose missing `.get` raises an AttributeError, and an empty
      one leaves no supported format. */
  lemma PlaybackOverKeysOrChars(assetId: string, fields: seq<(string, Json)>, f: Json)
    requires Lookup(fields, "formats") == Some(f) && (f.JObject? || f.JString?)
    ensures (f.JObject? && |f.fields| > 0) || (f.JString? && |f.s| > 0) ==>
              PlaybackFrom(assetId, JObject(fields)) ==
              Failure(Unexpected(AttributeError(NoGet("str"))))
    ensures (f.JObject? && |f.fields| == 0) || (f.JString? && |f.s| == 0) ==>
              PlaybackFrom(assetId, JObject(fields)) == Failure(ApiError(JString(NO_FORMAT), None, JNull))
  {
    var formats := Iterate(f).value;
    if |formats| > 0 {
      ScanStopsAtString(formats);
    } else {
      assert FirstSupportedFrom(formats, 0) == Success(None);
    }
  }

  /** A play reply without `formats` has no supported format. */
  lemma PlaybackWithoutFormats(assetId: string, fields: seq<(string, Json)>)
    requires Lookup(fields, "formats").None?
    ensures PlaybackFrom(assetId, JObject(fields)) == Failure(ApiError(JString(NO_FORMAT), None, JNull))
  {
  }

  /** Playback is served from the first HLS or DASH entry in list order, and exactly when
      that entry has a `mediaLocator`; the record carries the asset id, that entry's
      format in lower case and its locator. An entry without a locator raises KeyError, and
      a reply in which every entry is some other format fails with the "no supported
      format" error. */
  lemma PlaybackPicksFirstSupported(assetId: string, fields: seq<(string, Json)>, formats: seq<Json>)
    requires Lookup(fields, "formats") == Some(JArray(formats))
    ensures PlaybackFrom(assetId, JObject(fields)).Success? <==>
            exists k: nat :: Preferred(formats, k) && Lookup(formats[k].fields, "mediaLocator").Some?
    ensures forall k: nat | Preferred(formats, k) ::
              var r := PlaybackFrom(assetId, JObject(fields));
              (Lookup(formats[k].fields, "mediaLocator").None? ==> r == Failure(Unexpected(KeyError("mediaLocator")))) &&
              (r.Success? ==>
                 r.value.assetId == assetId &&
                 r.value.formatType == Lower(Lookup(formats[k].fields, "format").value.s) &&
                 Lookup(formats[k].fields, "mediaLocator") == Some(r.value.mediaLocator))
    ensures PassedOver(formats, 0, |formats|) ==>
              PlaybackFrom(assetId, JObject(fields)) == Failure(ApiError(JString(NO_FORMAT), None, JNull))
  {
    forall k: nat | Preferred(formats, k)
      ensures FirstSupported(formats) == Success(Some(k))
    {
      FirstSupportedIs(formats, 0, k);
    }
    var first := FirstSupported(formats);
    if first.Success? && first.value.Some? {
      assert Preferred(formats, first.value.value);
    }
  }

  /** A reply whose preferred entry and body carry every playback field reproduces the
      record: the locator and DRM URL of the entry, the tracks, quality levels, expiry and
      contract restrictions of the body. */
  lemma PlaybackRoundTrip(assetId: string, fields: seq<(string, Json)>, formats: seq<Json>, k: nat, p: PlaybackInfo)
    requires Lookup(fields, "formats") == Some(JArray(formats)) && Preferred(formats, k)
    requires p.assetId == assetId && p.formatType == Lower(Lookup(formats[k].fields, "format").value.s)
    requires Lookup(formats[k].fields, "mediaLocator") == Some(p.mediaLocator)
    requires Lookup(formats[k].fields, "drmLicenseUrl") == Some(p.drmLicenseUrl)
    requires Lookup(fields, "subtitleTracks") == Some(p.subtitleTracks) && Lookup(fields, "audioTracks") == Some(p.audioTracks)
    requires Lookup(fields, "qualityLevels") == Some(p.qualityLevels) && Lookup(fields, "expiresAt") == Some(p.expiresAt)
    requires Lookup(fields, "contractRestrictions") == Some(p.restrictions)
    ensures PlaybackFrom(assetId, JObject(fields)) == Success(p)
  {
    FirstSupportedIs(formats, 0, k);
  }

  /** A reply that sets nothing beyond the preferred entry's format and locator gets the
      documented defaults: no DRM URL, no tracks, no quality levels, no expiry, no
      restrictions. */
  lemma PlaybackDefaults(assetId: string, fields: seq<(string, Json)>, formats: seq<Json>, k: nat)
    requires Lookup(fields, "formats") == Some(JArray(formats)) && Preferred(formats, k)
    requires Lookup(formats[k].fields, "mediaLocator").Some? && Lookup(formats[k].fields, "drmLicenseUrl").None?
    requires Lookup(fields, "subtitleTracks").None? && Lookup(fields, "audioTracks").None?
    requires Lookup(fields, "qualityLevels").None? && Lookup(fields, "expiresAt").None?
    requires Lookup(fields, "contractRestrictions").None?
    ensures PlaybackFrom(assetId, JObject(fields)) ==
            Success(PlaybackInfo(assetId, Lower(Lookup(formats[k].fields, "format").value.s),
                                 Lookup(formats[k].fields, "mediaLocator").value, JNull,
                                 JArray([]), JArray([]), JArray([]), JNull, JObject([])))
  {
    FirstSupportedIs(formats, 0, k);
  }

  /** A SmoothStreaming entry before a DASH entry is skipped, and the reply is served as
      "dash"; a SmoothStreaming entry alone fails with the "no supported format" error. */
  lemma PlaybackExamples()
    ensures PlaybackFrom("a", JObject([("formats", JArray([
              JObject([("format", JString("SmoothStreaming"))]),
              JObject([("format", JString("DASH")), ("mediaLocator", JString("x"))])]))])).Success?
    ensures PlaybackFrom("a", JObject([("formats", JArray([
              JObject([("format", JString("SmoothStreaming"))]),
              JObject([("format", JString("DASH")), ("mediaLocator", JString("x"))])]))])).value.formatType == "dash"
    ensures PlaybackFrom("a", JObject([("formats", JArray([JObject([("format", JString("SmoothStreaming"))])]))]))
            == Failure(ApiError(JString(NO_FORMAT), None, JNull))
  {
    LowerFormats();
  }

  // ---------------------------------------------------------------- entitlements, history, business unit

  /** `UserEntitlement`. */
  datatype UserEntitlement = UserEntitlement(
    userId: string, assetId: Json, entitlementType: Json, expiresAt: Json, restrictions: Json)

  function EntitlementFromItem(userId: string, item: Json): (r: Result<UserEntitlement, Raised>)
    ensures r.Success? <==> item.JObject? && Lookup(item.fields, "assetId").Some?
  {
    match Index(item, "assetId")
    case Failure(f) => Failure(Unexpected(f))
    case Success(id) =>
      Success(UserEntitlement(userId, id,
        FieldOr(item.fields, "type", JString("unknown")),
        FieldOr(item.fields, "expiresAt", JNull),
        FieldOr(item.fields, "restrictions", JObject([]))))
  }

  function EntitlementsFrom(userId: string, body: Json): Result<seq<UserEntitlement>, Raised>
  {
    match Get(body, "entitlements", JArray([]))
    case Failure(f) => Failure(Unexpected(f))
    case Success(listJ) =>
      match Iterate(listJ)
      case Failure(f) => Failure(Unexpected(f))
      case Success(items) => MapAll(items, item => EntitlementFromItem(userId, item))
  }

  /** An item that carries every field of an entitlement of `userId` reproduces it. */
  lemma EntitlementRoundTrip(userId: string, item: Json, e: UserEntitlement)
    requires e.userId == userId && item.JObject?
    requires Lookup(item.fields, "assetId") == Some(e.assetId) && Lookup(item.fields, "type") == Some(e.entitlementType)
    requires Lookup(item.fields, "expiresAt") == Some(e.expiresAt) && Lookup(item.fields, "restrictions") == Some(e.restrictions)
    ensures EntitlementFromItem(userId, item) == Success(e)
  {
  }

  /** An item with only an `assetId` is an entitlement of type "unknown", with no expiry
      and no restrictions. */
  lemma EntitlementDefaults(userId: string, item: Json)
    requires item.JObject? && Lookup(item.fields, "assetId").Some?
    requires Lookup(item.fields, "type").None? && Lookup(item.fields, "expiresAt").None?
    requires Lookup(item.fields, "restrictions").None?
    ensures EntitlementFromItem(userId, item) ==
            Success(UserEntitlement(userId, Lookup(item.fields, "assetId").value, JString("unknown"), JNull, JObject([])))
  {
  }

  /** A reply without `entitlements` lists none. */
  lemma EntitlementsWithoutList(userId: string, fields: seq<(string, Json)>)
    requires Lookup(fields, "entitlements").None?
    ensures EntitlementsFrom(userId, JObject(fields)) == Success([])
  {
  }

  /** The listing succeeds exactly when every item is a dict with an `assetId`, and then
      gives one entitlement per item, in order, for the requested user, each field read
      from its item or defaulted. */
  lemma EntitlementsPerItem(userId: string, fields: seq<(string, Json)>, items: seq<Json>)
    requires Lookup(fields, "entitlements") == Some(JArray(items))
    ensures EntitlementsFrom(userId, JObject(fields)).Success? <==>
            forall i :: 0 <= i < |items| ==> items[i].JObject? && Lookup(items[i].fields, "assetId").Some?
    ensures EntitlementsFrom(userId, JObject(fields)).Success? ==>
            var es := EntitlementsFrom(userId, JObject(fields)).value;
            |es| == |items| &&
            forall i :: 0 <= i < |items| ==>
              items[i].JObject? && es[i].userId == userId &&
              Lookup(items[i].fields, "assetId") == Some(es[i].assetId) &&
              es[i].entitlementType == FieldOr(items[i].fields, "type", JString("unknown")) &&
              es[i].expiresAt == FieldOr(items[i].fields, "expiresAt", JNull) &&
              es[i].restrictions == FieldOr(items[i].fields, "restrictions", JObject([]))
  {
    MapAllSucceeds(items, item => EntitlementFromItem(userId, item));
  }

  /** `ViewingHistory`. */
  datatype ViewingHistory = ViewingHistory(
    userId: string, assetId: Json, startedAt: Json, endedAt: Json,
    watchDuration: Json, deviceType: Json, quality: Json)

  function ViewingFromItem(userId: string, item: Json): (r: Result<ViewingHistory, Raised>)
    ensures r.Success? <==> item.JObject? && Lookup(item.fields, "assetId").Some? && Lookup(item.fields, "startedAt").Some?
  {
    match Index(item, "assetId")
    case Failure(f) => Failure(Unexpected(f))
    case Success(id) =>
      match Index(item, "startedAt")
      case Failure(f) => Failure(Unexpected(f))
      case Success(started) =>
        Success(ViewingHistory(userId, id, started,
          FieldOr(item.fields, "endedAt", JNull),
          FieldOr(item.fields, "watchDuration", JInt(0)),
          FieldOr(item.fields, "deviceType", JNull),
          FieldOr(item.fields, "quality", JNull)))
  }

  function HistoryFrom(userId: string, body: Json): Result<seq<ViewingHistory>, Raised>
  {
    match Get(body, "items", JArray([]))
    case Failure(f) => Failure(Unexpected(f))
    case Success(listJ) =>
      match Iterate(listJ)
      case Failure(f) => Failure(Unexpected(f))
      case Success(items) => MapAll(items, item => ViewingFromItem(userId, item))
  }

  /** An item that carries every field of a history entry of `userId` reproduces it. */
  lemma ViewingRoundTrip(userId: string, item: Json, h: ViewingHistory)
    requires h.userId == userId && item.JObject?
    requires Lookup(item.fields, "assetId") == Some(h.assetId) && Lookup(item.fields, "startedAt") == Some(h.startedAt)
    requires Lookup(item.fields, "endedAt") == Some(h.endedAt) && Lookup(item.fields, "watchDuration") == Some(h.watchDuration)
    requires Lookup(item.fields, "deviceType") == Some(h.deviceType) && Lookup(item.fields, "quality") == Some(h.quality)
    ensures ViewingFromItem(userId, item) == Success(h)
  {
  }

  /** An item with only `assetId` and `startedAt` has no end, a watch duration of 0, and
      no device type or quality. */
  lemma ViewingDefaults(userId: string, item: Json)
    requires item.JObject? && Lookup(item.fields, "assetId").Some? && Lookup(item.fields, "startedAt").Some?
    requires Lookup(item.fields, "endedAt").None? && Lookup(item.fields, "watchDuration").None?
    requires Lookup(item.fields, "deviceType").None? && Lookup(item.fields, "quality").None?
    ensures ViewingFromItem(userId, item) ==
            Success(ViewingHistory(userId, Lookup(item.fields, "assetId").value, Lookup(item.fields, "startedAt").value,
                                   JNull, JInt(0), JNull, JNull))
  {
  }

  /** A reply without `items` has an empty history. */
  lemma HistoryWithoutItems(userId: string, fields: seq<(string, Json)>)
    requires Lookup(fields, "items").None?
    ensures HistoryFrom(userId, JObject(fields)) == Success([])
  {
  }

  /** The history succeeds exactly when every item is a dict with `assetId` and
      `startedAt`, and then gives one entry per item, in order, for the requested user,
      each field read from its item or defaulted. */
  lemma HistoryPerItem(userId: string, fields: seq<(string, Json)>, items: seq<Json>)
    requires Lookup(fields, "items") == Some(JArray(items))
    ensures HistoryFrom(userId, JObject(fields)).Success? <==>
            forall i :: 0 <= i < |items| ==>
              items[i].JObject? && Lookup(items[i].fields, "assetId").Some? && Lookup(items[i].fields, "startedAt").Some?
    ensures HistoryFrom(userId, JObject(fields)).Success? ==>
            var hs := HistoryFrom(userId, JObject(fields)).value;
            |hs| == |items| &&
            forall i :: 0 <= i < |items| ==>
              items[i].JObject? && hs[i].userId == userId &&
              Lookup(items[i].fields, "assetId") == Some(hs[i].assetId) &&
              Lookup(items[i].fields, "startedAt") == Some(hs[i].startedAt) &&
              hs[i].endedAt == FieldOr(items[i].fields, "endedAt", JNull) &&
              hs[i].watchDuration == FieldOr(items[i].fields, "watchDuration", JInt(0)) &&
              hs[i].deviceType == FieldOr(items[i].fields, "deviceType", JNull) &&
              hs[i].quality == FieldOr(items[i].fields, "quality", JNull)
  {
    MapAllSucceeds(items, item => ViewingFromItem(userId, item));
  }

  /** `BusinessUnitInfo`. */
  datatype BusinessUnitInfo = BusinessUnitInfo(
    customer: string, businessUnit: string, name: Json, description: Json,
    features: Json, settings: Json, locale: Json, timezone: Json)

  /** The business-unit record: customer and unit from the configuration, the rest from
      the reply with defaults ("", None, [], {}, "en", "UTC"). */
  function BusinessUnitFrom(cfg: Config, body: Json): (r: Result<BusinessUnitInfo, Raised>)
    ensures r.Success? <==> body.JObject?
    ensures r.Success? ==> r.value.customer == cfg.customer && r.value.businessUnit == cfg.businessUnit
    ensures body == JObject([]) ==>
              r == Success(BusinessUnitInfo(cfg.customer, cfg.businessUnit, JString(""), JNull,
                                            JArray([]), JObject([]), JString("en"), JString("UTC")))
  {
    match body
    case JObject(f) =>
      Success(BusinessUnitInfo(cfg.customer, cfg.businessUnit,
        FieldOr(f, "name", JString("")),
        FieldOr(f, "description", JNull),
        FieldOr(f, "features", JArray([])),
        FieldOr(f, "settings", JObject([])),
        FieldOr(f, "locale", JString("en")),
        FieldOr(f, "timezone", JString("UTC"))))
    case _ => Failure(Unexpected(AttributeError(NoGet(TypeName(body)))))
  }

  /** A reply that carries every field of a record for the configured unit reproduces it. */
  lemma BusinessUnitRoundTrip(cfg: Config, body: Json, b: BusinessUnitInfo)
    requires b.customer == cfg.customer && b.businessUnit == cfg.businessUnit && body.JObject?
    requires Lookup(body.fields, "name") == Some(b.name) && Lookup(body.fields, "description") == Some(b.description)
    requires Lookup(body.fields, "features") == Some(b.features) && Lookup(body.fields, "settings") == Some(b.settings)
    requires Lookup(body.fields, "locale") == Some(b.locale) && Lookup(body.fields, "timezone") == Some(b.timezone)
    ensures BusinessUnitFrom(cfg, body) == Success(b)
  {
  }

  /** A reply that sets none of the fields gets every default, whatever else it holds. */
  lemma BusinessUnitDefaults(cfg: Config, body: Json)
    requires body.JObject?
    requires Lookup(body.fields, "name").None? && Lookup(body.fields, "description").None?
    requires Lookup(body.fields, "features").None? && Lookup(body.fields, "settings").None?
    requires Lookup(body.fields, "locale").None? && Lookup(body.fields, "timezone").None?
    ensures BusinessUnitFrom(cfg, body) ==
            Success(BusinessUnitInfo(cfg.customer, cfg.businessUnit, JString(""), JNull,
                                     JArray([]), JObject([]), JString("en"), JString("UTC")))
  {
  }

  /** Each field of the record is read from its own key only: two replies that agree on
      a key give records that agree on that field. */
  lemma BusinessUnitFieldsIndependent(cfg: Config, b1: Json, b2: Json)
    requires b1.JObject? && b2.JObject?
    ensures var r1, r2 := BusinessUnitFrom(cfg, b1).value, BusinessUnitFrom(cfg, b2).value;
            (Lookup(b1.fields, "name") == Lookup(b2.fields, "name") ==> r1.name == r2.name) &&
            (Lookup(b1.fields, "description") == Lookup(b2.fields, "description") ==> r1.description == r2.description) &&
            (Lookup(b1.fields, "features") == Lookup(b2.fields, "features") ==> r1.features == r2.features) &&
            (Lookup(b1.fields, "settings") == Lookup(b2.fields, "settings") ==> r1.settings == r2.settings) &&
            (Lookup(b1.fields, "locale") == Lookup(b2.fields, "locale") ==> r1.locale == r2.locale) &&
            (Lookup(b1.fields, "timezone") == Lookup(b2.fields, "timezone") ==> r1.timezone == r2.timezone)
  {
  }

  // ---------------------------------------------------------------- the client

  /** `RedBeeClient`: the configuration, the two base URLs, and the credential it holds. */
  class RedBeeClient {
    const config: Config
    const exposureUrl: string
    const analyticsUrl: string
    var sessionToken: Option<string>
    var deviceId: Option<string>

    constructor (config: Config)
      ensures this.config == config
      ensures exposureUrl == config.exposureBaseUrl
      ensures analyticsUrl == AnalyticsUrl(config.exposureBaseUrl)
      ensures sessionToken == config.sessionToken && deviceId == config.deviceId
    {
      this.config := config;
      exposureUrl := config.exposureBaseUrl;
      analyticsUrl := AnalyticsUrl(config.exposureBaseUrl);
      sessionToken := config.sessionToken;
      deviceId := config.deviceId;
    }

    /** `_make_request`: one request, to `urljoin(base_url or exposure_url, endpoint)`,
        with the header policy applied to the held token. A public GET whose data is
        falsy goes through `client.get`, which sends no body. */
    method MakeRequest(net: Network, verb: Verb, endpoint: string, data: Option<Json>,
                       params: map<string, Json>, baseUrl: Option<string>, includeAuth: bool)
      returns (r: Result<Json, Raised>, sent: Request)
      ensures verb == GET && !includeAuth && (data.None? || !Truthy(data.value)) ==>
                sent == Request(GET, Joined(Or(baseUrl, exposureUrl), endpoint),
                                AuthHeaders(false, sessionToken), None, params)
      ensures !(verb == GET && !includeAuth && (data.None? || !Truthy(data.value))) ==>
                sent == Request(verb, Joined(Or(baseUrl, exposureUrl), endpoint),
                                AuthHeaders(includeAuth, sessionToken), data, params)
      ensures r == ResponseResult(net(sent))
    {
      var url := Joined(Or(baseUrl, exposureUrl), endpoint);
      var headers := AuthHeaders(includeAuth, sessionToken);
      if verb == GET && !includeAuth && (data.None? || !Truthy(data.value)) {
        sent := Request(GET, url, headers, None, params);
      } else {
        sent := Request(verb, url, headers, data, params);
      }
      r := ResponseResult(net(sent));
    }

    /** `authenticate`: on success the held token and device id are both replaced by the
        new credential; on failure neither changes. */
    method Authenticate(net: Network, username: Option<string>, password: Option<string>)
      returns (r: Result<AuthResponse, Raised>, sent: Request)
      modifies this
      ensures sent == AuthRequest(config, exposureUrl, old(deviceId), username, password)
      ensures r == AuthOutcome(ResponseResult(net(sent)), old(deviceId))
      ensures r.Success? ==> sessionToken == Some(r.value.sessionToken) && deviceId == Some(r.value.deviceId)
      ensures r.Failure? ==> sessionToken == old(sessionToken) && deviceId == old(deviceId)
    {
      var request := AuthRequest(config, exposureUrl, deviceId, username, password);
      var resp;
      resp, sent := MakeRequest(net, POST, request.url.endpoint, request.body, map[], None, false);
      r := AuthOutcome(resp, deviceId);
      if r.Success? {
        sessionToken := Some(r.value.sessionToken);
        deviceId := Some(r.value.deviceId);
      }
    }

    /** `search_assets`: an autocomplete request (never authenticated) when a query is
        given, an authenticated asset listing otherwise. */
    method SearchAssets(net: Network, query: Option<string>, contentType: Option<string>,
                        genre: Option<string>, page: int, perPage: int, sortBy: Option<string>)
      returns (r: Result<SearchResult, Raised>, sent: Request)
      ensures Present(query) ==> sent == AutocompleteRequest(exposureUrl, config, query.value)
      ensures Present(query) ==> "EMP-Auth" !in sent.headers
      ensures !Present(query) ==>
                sent == Request(GET, Joined(exposureUrl, AssetListPath(config)), AuthHeaders(true, sessionToken),
                                None, ListingParams(page, perPage, contentType, genre, sortBy))
      ensures r == SearchOutcome(Present(query),
                                 if Present(query) then AutocompleteResult(net(sent)) else ResponseResult(net(sent)),
                                 page, perPage)
    {
      var resp;
      if Present(query) {
        sent := AutocompleteRequest(exposureUrl, config, query.value);
        resp := AutocompleteResult(net(sent));
      } else {
        resp, sent := MakeRequest(net, GET, AssetListPath(config), None,
                                  ListingParams(page, perPage, contentType, genre, sortBy), None, true);
      }
      if resp.Failure? {
        return Failure(resp.error), sent;
      }
      var body := resp.value;
      if Present(query) && body.JArray? {
        var assets := CollectAll(body.items, AutocompleteAsset);
        if assets.Failure? {
          return Failure(assets.error), sent;
        }
        r := Success(SearchResult(JInt(|body.items|), 1, |body.items|, JInt(1), assets.value));
      } else {
        var itemsJ := Get(body, "items", JArray([]));
        if itemsJ.Failure? {
          return Failure(Unexpected(itemsJ.error)), sent;
        }
        var items := Iterate(itemsJ.value);
        if items.Failure? {
          return Failure(Unexpected(items.error)), sent;
        }
        var assets := CollectAll(items.value, AssetFromItem);
        if assets.Failure? {
          return Failure(assets.error), sent;
        }
        r := Success(SearchResult(FieldOr(body.fields, "totalCount", JInt(0)), page, perPage,
                                  FieldOr(body.fields, "totalPages", JInt(1)), assets.value));
      }
    }

    /** `get_asset`. */
    method GetAsset(net: Network, assetId: string) returns (r: Result<Asset, Raised>, sent: Request)
      ensures sent == Request(GET, Joined(exposureUrl, AssetPath(config, assetId)), AuthHeaders(true, sessionToken),
                              None, map["locale" := JString("fr")])
      ensures r == Bind(ResponseResult(net(sent)), AssetFromItem)
    {
      var resp;
      resp, sent := MakeRequest(net, GET, AssetPath(config, assetId), None, map["locale" := JString("fr")], None, true);
      r := Bind(resp, AssetFromItem);
    }

    /** `get_asset_playback_info`. */
    method GetAssetPlaybackInfo(net: Network, assetId: string, userId: Option<string>)
      returns (r: Result<PlaybackInfo, Raised>, sent: Request)
      ensures sent == Request(POST, Joined(exposureUrl, PlayPath(config, assetId)), AuthHeaders(true, sessionToken),
                              Some(PlayBody(userId)), map[])
      ensures r == Bind(ResponseResult(net(sent)), body => PlaybackFrom(assetId, body))
    {
      var resp;
      resp, sent := MakeRequest(net, POST, PlayPath(config, assetId), Some(PlayBody(userId)), map[], None, true);
      if resp.Failure? {
        return Failure(resp.error), sent;
      }
      var body := resp.value;
      var formatsJ := Get(body, "formats", JArray([]));
      if formatsJ.Failure? {
        return Failure(Unexpected(formatsJ.error)), sent;
      }
      var formats := Iterate(formatsJ.value);
      if formats.Failure? {
        return Failure(Unexpected(formats.error)), sent;
      }
      var preferred := SelectFormat(formats.value);
      if preferred.Failure? {
        return Failure(preferred.error), sent;
      }
      if preferred.value.None? {
        return Failure(ApiError(JString(NO_FORMAT), None, JNull)), sent;
      }
      r := PlaybackFrom(assetId, body);
    }

    /** `get_user_entitlements`. */
    method GetUserEntitlements(net: Network, userId: string) returns (r: Result<seq<UserEntitlement>, Raised>, sent: Request)
      ensures sent == Request(GET, Joined(exposureUrl, EntitlementsPath(config, userId)), AuthHeaders(true, sessionToken),
                              None, map[])
      ensures r == Bind(ResponseResult(net(sent)), body => EntitlementsFrom(userId, body))
    {
      var resp;
      resp, sent := MakeRequest(net, GET, EntitlementsPath(config, userId), None, map[], None, true);
      if resp.Failure? {
        return Failure(resp.error), sent;
      }
      var listJ := Get(resp.value, "entitlements", JArray([]));
      if listJ.Failure? {
        return Failure(Unexpected(listJ.error)), sent;
      }
      var items := Iterate(listJ.value);
      if items.Failure? {
        return Failure(Unexpected(items.error)), sent;
      }
      r := CollectAll(items.value, item => EntitlementFromItem(userId, item));
    }

    /** `get_user_viewing_history`, served from the analytics URL. */
    method GetUserViewingHistory(net: Network, userId: string, page: int, perPage: int)
      returns (r: Result<seq<ViewingHistory>, Raised>, sent: Request)
      ensures sent == Request(GET, Joined(Or(Some(analyticsUrl), exposureUrl), ViewingHistoryPath(config)),
                              AuthHeaders(true, sessionToken), None,
                              map["userId" := JString(userId), "pageSize" := JInt(perPage), "pageNumber" := JInt(page)])
      ensures r == Bind(ResponseResult(net(sent)), body => HistoryFrom(userId, body))
    {
      var resp;
      resp, sent := MakeRequest(net, GET, ViewingHistoryPath(config), None,
                                map["userId" := JString(userId), "pageSize" := JInt(perPage), "pageNumber" := JInt(page)],
                                Some(analyticsUrl), true);
      if resp.Failure? {
        return Failure(resp.error), sent;
      }
      var listJ := Get(resp.value, "items", JArray([]));
      if listJ.Failure? {
        return Failure(Unexpected(listJ.error)), sent;
      }
      var items := Iterate(listJ.value);
      if items.Failure? {
        return Failure(Unexpected(items.error)), sent;
      }
      r := CollectAll(items.value, item => ViewingFromItem(userId, item));
    }

    /** `get_business_unit_info`. */
    method GetBusinessUnitInfo(net: Network) returns (r: Result<BusinessUnitInfo, Raised>, sent: Request)
      ensures sent == Request(GET, Joined(exposureUrl, BusinessUnitPath(config)), AuthHeaders(true, sessionToken),
                              None, map[])
      ensures r == Bind(ResponseResult(net(sent)), body => BusinessUnitFrom(config, body))
    {
      var resp;
      resp, sent := MakeRequest(net, GET, BusinessUnitPath(config), None, map[], None, true);
      r := Bind(resp, body => BusinessUnitFrom(config, body));
    }
  }
}
