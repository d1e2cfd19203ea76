/**
  The HTTP layer as the adapters see it. A request is a value; the network is
  a total function from requests to responses, so every call the backend makes
  is determined by what it sends. A transport failure (connection error,
  timeout) stands for an exception out of `requests.get` / `requests.post`.
 */
module Http {
  import opened Basics
  import opened PyValues

  type Byte = bv8
  type Bytes = seq<Byte>

  /** A GET with a timeout in seconds, or a multipart POST carrying one file. */
  datatype Request =
    | Get(url: string, timeout: nat)
    | PostFile(url: string, form: map<string, string>, fileField: string,
               filename: string, content: Bytes, timeout: nat)

  /**
    What `requests` gives back: either it raised, or there is a status code, the
    decoded body text and what `response.json()` yields (`None` when the body
    is not JSON, in which case `response.json()` raises).
   */
  datatype Response =
    | RequestFailed
    | Reply(status: int, text: string, json: Option<Value>)

  type Network = Request -> Response

  /** `response.json()` on a reply. */
  function ParseJson(json: Option<Value>): (r: Eval)
    ensures r.Raised? <==> json.None?
    ensures r.Returned? ==> json == Some(r.value)
  {
    match json
    case Some(v) => Returned(v)
    case None => Raised
  }

  /** The reply carries a body that decodes to a JSON object. */
  predicate HasJsonObject(resp: Response) {
    resp.Reply? && resp.json.Some? && resp.json.value.Dict?
  }

  /** `response.json().get(key)` on a reply whose body is a JSON object. */
  function JsonGet(resp: Response, key: string): Value
    requires HasJsonObject(resp)
  {
    ValueOr(Field(resp.json.value, key), Null)
  }
}
