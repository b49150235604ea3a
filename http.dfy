/** The HTTP exchanges the bridge performs, as data: the request it would send and the
    outcome the network returns. The network itself is a parameter of every operation. */
module Http {
  import opened Wrappers
  import opened Faults
  import opened Json

  datatype Verb = GET | POST | DELETE

  /** `urljoin(base, endpoint)` is kept as the pair it is computed from; a URL the code
      builds by string formatting is kept as that string. */
  datatype Url = Joined(base: string, endpoint: string) | Literal(text: string)

  datatype Request = Request(
    verb: Verb,
    url: Url,
    headers: map<string, string>,
    body: Option<Json>,           // the `json=` argument
    params: map<string, Json>)    // the `params=` argument

  /** What sending a request produces: a response (its status, its raw text, and its
      body decoded as JSON when the text is JSON), or an httpx `RequestError`. */
  datatype HttpOutcome =
    | Response(status: nat, text: string, body: Option<Json>)
    | TransportFailure(detail: string)

  /** The network the bridge talks to. */
  type Network = Request -> HttpOutcome

  /** A result together with the requests issued to obtain it, in order. */
  datatype Called<T> = Called(result: T, sent: seq<Request>)

  /** `response.raise_for_status(); response.json()` as httpx performs it: every status
      outside 200-299 raises, and so does a body that is not JSON. */
  function RaiseForStatusJson(o: HttpOutcome): (r: Result<Json, Fault>)
    ensures r.Success? <==> o.Response? && 200 <= o.status < 300 && o.body.Some?
    ensures r.Success? ==> r.value == o.body.value
    ensures o.TransportFailure? ==> r == Failure(RequestError(o.detail))
    ensures o.Response? && !(200 <= o.status < 300) ==> r == Failure(StatusError(o.status))
  {
    match o
    case TransportFailure(detail) => Failure(RequestError(detail))
    case Response(status, _, body) =>
      if !(200 <= status < 300) then Failure(StatusError(status))
      else if body.None? then Failure(DecodeError)
      else Success(body.value)
  }

  // ---------------------------------------------------------------- the remote bridge server

  const JSON_CONTENT: map<string, string> := map["Content-Type" := "application/json"]

  /** `{"name": name, "arguments": arguments}`, the body of a remote tool call. */
  function CallPayload(name: string, arguments: Json): Json
  {
    JObject([("name", JString(name)), ("arguments", arguments)])
  }

  /** `GET {server}/tools`, with no headers of its own. */
  function ToolsRequest(server: string): Request
  {
    Request(GET, Literal(server + "/tools"), map[], None, map[])
  }

  /** `POST {server}/call` with the call payload as JSON body. */
  function CallRequest(server: string, name: string, arguments: Json): (req: Request)
    ensures req.body == Some(CallPayload(name, arguments)) && req.headers == JSON_CONTENT
  {
    Request(POST, Literal(server + "/call"), JSON_CONTENT, Some(CallPayload(name, arguments)), map[])
  }
}
