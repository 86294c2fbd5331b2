/**
 * The response policy of the client: how the gateway (`PartAPI.fetch`)
 * turns a JSON-transport response into a resolved envelope or a rejection,
 * when it asks for the session to be re-validated, and the different policy
 * of the two upload handlers.
 */
module Gateway {
  import opened Wrappers
  import opened Transport
  import opened Decimal

  /**
   * What a rejected gateway promise carries: an `Error` with a message, the
   * `SyntaxError` of a body that is not JSON, or the `TypeError` of a `fetch`
   * that got no response.
   */
  datatype Error = Error(message: string) | ParseError | TransportError

  datatype Outcome<+T> = Resolved(value: T) | Rejected(error: Error)

  /** JavaScript truthiness of an optional string: present and not the empty string. */
  predicate Truthy(s: Option<string>) {
    s.Some? && s.value != ""
  }

  /** The message of `Error(m)`: `m` itself, or the empty string when `m` is undefined. */
  function ErrorMessage(m: Option<string>): string {
    m.GetOr("")
  }

  /** The settled value of the promise the gateway returns for response `res`. */
  function Classify(res: Response): (r: Outcome<Envelope>)
    // success exactly when the transport reports ok and the body parses; the envelope comes back whole
    ensures r.Resolved? <==> res.ok && res.body.Json?
    ensures r.Resolved? ==> r.value == res.body.envelope
    // a response that is not ok always fails
    ensures !res.ok ==> r.Rejected?
    // the failure message is the top-level one when truthy; the body is then not read
    ensures !res.ok && Truthy(res.message) ==> r == Rejected(Error(res.message.value))
    // otherwise it is the body's message
    ensures !res.ok && !Truthy(res.message) && res.body.Json? ==>
              r == Rejected(Error(ErrorMessage(res.body.envelope.message)))
    // a parse failure surfaces exactly when the body had to be read and is not JSON
    ensures r == Rejected(ParseError) <==> res.body.Malformed? && (res.ok || !Truthy(res.message))
  {
    if !res.ok then
      if Truthy(res.message) then Rejected(Error(res.message.value))
      else match res.body
        case Json(env) => Rejected(Error(ErrorMessage(env.message)))
        case Malformed => Rejected(ParseError)
    else match res.body
      case Json(env) => Resolved(env)
      case Malformed => Rejected(ParseError)
  }

  /** Whether the gateway calls `checkAuthentification` on response `res`. */
  function TriggersRevalidation(res: Response): (r: bool)
    ensures r ==> Classify(res).Rejected?
    ensures WellFormed(res) ==> (r <==> res.status == 401)
  {
    !res.ok && res.status == 401
  }

  /**
   * The settled value of the gateway's promise: a `fetch` that got no
   * response rejects with its own error before any of the checks on a
   * response run.
   */
  function GatewayOutcome(r: FetchResult): (o: Outcome<Envelope>)
    ensures o == Rejected(TransportError) <==> r.TransportFailed?
    ensures r.Received? ==> o == Classify(r.response)
  {
    match r
    case TransportFailed => Rejected(TransportError)
    case Received(res) => Classify(res)
  }

  /** Whether the gateway calls `checkAuthentification`: never without a response. */
  function GatewayRevalidates(r: FetchResult): (b: bool)
    ensures b ==> r.Received? && GatewayOutcome(r).Rejected?
    ensures r.Received? && WellFormed(r.response) ==> (b <==> r.response.status == 401)
  {
    r.Received? && TriggersRevalidation(r.response)
  }

  /**
   * With a truthy top-level message, a failing response's outcome does not
   * depend on its body at all.
   */
  lemma BodyIgnoredWithTopLevelMessage(res: Response, other: Body)
    requires !res.ok && Truthy(res.message)
    ensures Classify(res.(body := other)) == Classify(res)
  {
  }

  /** The settled value of an upload handler's promise. */
  datatype UploadOutcome =
    | UploadResolved(body: Envelope)
    | UploadRejected(reason: string)
      // `JSON.parse` threw inside `onload`: the promise never settles
    | UploadUnsettled

  /** The template literal `Error ${status}: ${statusText}` an upload rejects with. */
  function RejectionReason(status: nat, statusText: string): string {
    "Error " + DecimalString(status) + ": " + statusText
  }

  /** Recovers the status and status text from a rejection reason. */
  function ParseRejection(s: string): Option<(nat, string)> {
    if |s| < 6 || s[..6] != "Error " then None
    else
      var rest := s[6..];
      var k := DigitPrefix(rest);
      if k == 0 || (k > 1 && rest[0] == '0') || |rest| < k + 2 || rest[k..k + 2] != ": " then None
      else Some((ParseDecimal(rest[..k]), rest[k + 2..]))
  }

  /** The rejection reason loses nothing: it determines the status and its text. */
  lemma RejectionReasonRoundTrip(status: nat, statusText: string)
    ensures ParseRejection(RejectionReason(status, statusText)) == Some((status, statusText))
  {
    var d := DecimalString(status);
    var s := RejectionReason(status, statusText);
    var rest := s[6..];
    assert s[..6] == "Error ";
    assert rest == d + ": " + statusText;
    var k := DigitPrefix(rest);
    assert rest[|d|] == ':';
    assert forall i :: 0 <= i < |d| ==> rest[i] == d[i];
    assert k == |d|;
    assert rest[..k] == d;
    assert rest[k..k + 2] == ": ";
    assert rest[k + 2..] == statusText;
    ParseDecimalString(status);
  }

  /** And the parse accepts only texts the template literal renders. */
  lemma RejectionReasonExact(s: string, status: nat, statusText: string)
    requires ParseRejection(s) == Some((status, statusText))
    ensures s == RejectionReason(status, statusText)
  {
    var rest := s[6..];
    var k := DigitPrefix(rest);
    var d := rest[..k];
    assert Canonical(d);
    DecimalStringOfParse(d);
    assert rest == d + ": " + statusText;
    assert s == s[..6] + rest;
  }

  /**
   * The policy of the `onload` handlers of `getDataTypes` and `uploadDataFile`:
   * only status 200 resolves, with the parsed response text.
   */
  function ClassifyUpload(status: nat, statusText: string, responseText: Body): (r: UploadOutcome)
    ensures r.UploadRejected? <==> status != 200
    ensures r.UploadRejected? ==> ParseRejection(r.reason) == Some((status, statusText))
    ensures r.UploadResolved? <==> status == 200 && responseText.Json?
    ensures r.UploadResolved? ==> r.body == responseText.envelope
  {
    if status != 200 then
      RejectionReasonRoundTrip(status, statusText);
      UploadRejected(RejectionReason(status, statusText))
    else match responseText
      case Json(env) => UploadResolved(env)
      case Malformed => UploadUnsettled
  }

  /**
   * The two policies compared on a well-formed response: an upload succeeds
   * only where the gateway would, and any ok status other than 200 (a 204,
   * say) is a success for the gateway but a rejection for an upload. Both ask
   * for re-validation on exactly status 401.
   */
  lemma UploadPolicyStricter(res: Response, statusText: string)
    requires WellFormed(res) && res.status >= 0
    ensures ClassifyUpload(res.status, statusText, res.body).UploadResolved? ==> Classify(res).Resolved?
    ensures res.ok && res.status != 200 ==> ClassifyUpload(res.status, statusText, res.body).UploadRejected?
    ensures TriggersRevalidation(res) <==> res.status == 401
  {
  }
}
