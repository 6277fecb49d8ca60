/**
 * The HTTP calls of the integration, seen from outside the socket: the request
 * the code would issue and the outcome it gets back. Sessions, timeouts as
 * clocks and JSON decoding are not modelled; an outcome is handed in as a value.
 */
module Transport {
  import opened Json

  type Headers = map<string, Json>

  /** What one call produced: a reply (status and decoded body), the timeout firing, or an aiohttp client error. */
  datatype Response = Reply(status: int, body: Json) | Timeout | ClientError

  /** A request as the code builds it; `body` is the `json=` argument, when there is one. */
  datatype Request = Request(verb: string, url: string, headers: Headers, body: Option<Json>)

  /** `f"http://{ip}:{port}"` */
  function BaseUrl(ip: Json, port: Json): string
  {
    "http://" + Str(ip) + ":" + Str(port)
  }

  /** A reply with status 200 whose body is a JSON object (a Python dict). */
  predicate IsOkObject(r: Response)
  {
    r.Reply? && r.status == 200 && r.body.JObj?
  }
}
