/** The exceptions other than `RedBeeAPIError` that the modelled code can raise or catch:
    Python's own errors on decoded JSON, JSON decoding, and httpx's errors. */
module Faults {
  import opened PyStrings

  datatype Fault =
    | KeyError(key: string)            // `d[key]` on a dict without `key`
    | TypeError(detail: string)        // indexing, iterating or `**`-unpacking the wrong kind of value
    | AttributeError(detail: string)   // `.get` on a value that is not a dict
    | DecodeError                      // `response.json()` on a body that is not JSON
    | StatusError(status: nat)         // httpx `raise_for_status()` on a non-2xx status
    | RequestError(detail: string)     // httpx transport failure (connect, DNS, timeout)
    | ValidationError(model: string)   // a record constructor rejecting its fields

  /** `str(e)`. A KeyError prints its key in quotes; httpx passes the transport message
      through; the other texts stand in for library messages. */
  function Describe(f: Fault): string
  {
    match f
    case KeyError(key) => "'" + key + "'"
    case TypeError(detail) => detail
    case AttributeError(detail) => detail
    case DecodeError => "Expecting value: line 1 column 1 (char 0)"
    case StatusError(status) => "HTTP status " + NatToString(status)
    case RequestError(detail) => detail
    case ValidationError(model) => "1 validation error for " + model
  }
}
