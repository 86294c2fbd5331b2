/**
 * The values that cross the transport boundary of the client: what an HTTP
 * response looks like once received, and what a request the client issues
 * is made of. The transport itself (`fetch`, `XMLHttpRequest`) is not modelled.
 */
module Transport {
  import opened Wrappers

  /** The `data` field of a response envelope, an opaque JSON value kept as its text. */
  datatype Payload = Payload(json: string)

  /** The uniform JSON body `{ data?, message? }` the backend returns. */
  datatype Envelope = Envelope(data: Option<Payload>, message: Option<string>)

  /** A response body as JSON parsing sees it: an envelope, or text that is not JSON. */
  datatype Body = Json(envelope: Envelope) | Malformed

  /**
   * A response of the JSON transport: its `ok` flag, its status code, the
   * optional top-level `message` property the gateway inspects, and its body.
   */
  datatype Response = Response(ok: bool, status: int, message: Option<string>, body: Body)

  /** What a `fetch` call settles with: a response, or a rejection with none (a network failure). */
  datatype FetchResult = Received(response: Response) | TransportFailed

  /**
   * What an upload's `XMLHttpRequest` reports: a `load` with the status, its
   * text and the response text, or a network `error`.
   */
  datatype XhrEvent = Loaded(status: nat, statusText: string, responseText: Body) | NetworkError

  /** A response as the Fetch standard produces it: `ok` exactly for the statuses 200 to 299. */
  predicate WellFormed(res: Response) {
    res.ok == (200 <= res.status <= 299)
  }

  datatype HttpMethod = Get | Post

  /** The bodies the modelled requests carry: none, or the login credentials. */
  datatype RequestBody = NoBody | Credentials(username: string, password: string)

  /** A request the client hands to the transport. */
  datatype Request = Request(url: string, verb: HttpMethod, body: RequestBody)
}
