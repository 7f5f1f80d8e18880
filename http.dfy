/**
 * One HTTP exchange as client.request (client.go) drives it. The JSON encoder, request
 * construction, the transport, the JSON decoder and the body reader are collaborators:
 * their verdicts are inputs (an Env and a Response), and the model decides which headers
 * are set, how the body is read, and what is returned.
 */
module Http {
  import opened GoTypes
  import opened GoStrings
  import opened JsonEncoding

  /**
   * What the server sent back: the status code and status text, the Content-Type header,
   * what decoding the body as JSON gives and what reading it as text gives.
   */
  datatype Response = Response(
    statusCode: int,
    status: string,
    contentType: string,
    decoded: Attempt<Json>,
    text: Attempt<string>)

  /**
   * The collaborators' verdicts for one call: whether the encoder rejects the payload,
   * whether http.NewRequest rejects the method or URL, and what the transport gives.
   */
  datatype Env = Env(encodeError: Option<string>, newRequestError: Option<string>, transport: Attempt<Response>)

  /** The `interface{}` result: nil, a decoded JSON value, or the body as a string. */
  datatype Output = NoOutput | Decoded(json: Json) | Text(text: string)

  /**
   * An error: one a collaborator returned, the status error request makes itself, or one
   * wrapped by errors.Wrap with a message that keeps the cause.
   */
  datatype Error =
    | Cause(text: string)
    | BadStatus(status: string)
    | Wrapped(message: string, cause: Error)

  /** The `(interface{}, error)` pair request and its callers return. */
  datatype Reply = Reply(output: Output, err: Option<Error>)

  /** What left the client: method, URL, body and the headers set on it. */
  datatype Sent = Sent(verb: string, url: string, body: Option<Json>, header: map<string, string>)

  const EncodeFailed: string := "failed to encode json request"
  const CreateFailed: string := "failed to create request"
  const SendFailed: string := "failed to make request"
  const JsonReadFailed: string := "failed to read json response"
  const ReadFailed: string := "failed to read response"

  const ContentTypeHeader: string := "Content-Type"
  const AuthorizationHeader: string := "Authorization"
  /** The Content-Type request sends with a body, spelled as in the source. */
  const JsonContentType: string := "application/json; charset=utf8"
  /** What a response's Content-Type must contain for its body to be decoded as JSON. */
  const JsonMediaType: string := "application/json"

  /** An outgoing request: http.NewRequest fixes method, URL and body; headers are set one at a time. */
  class Request {
    const verb: string
    const url: string
    const body: Option<Json>
    var header: map<string, string>

    constructor(verb: string, url: string, body: Option<Json>)
      ensures this.verb == verb && this.url == url && this.body == body
      ensures header == map[]
    {
      this.verb := verb;
      this.url := url;
      this.body := body;
      header := map[];
    }

    /** Header.Set: the key now holds exactly this value; the other headers are unchanged. */
    method Set(key: string, value: string)
      modifies this
      ensures header == old(header)[key := value]
    {
      header := header[key := value];
    }

    function Snapshot(): Sent
      reads this
    {
      Sent(verb, url, body, header)
    }
  }

  /** The headers request sets, for a call with or without a body and a configured token. */
  function Headers(hasBody: bool, token: string): (h: map<string, string>)
    ensures ContentTypeHeader in h <==> hasBody
    ensures hasBody ==> h[ContentTypeHeader] == JsonContentType
    ensures AuthorizationHeader in h <==> token != ""
    ensures token != "" ==> h[AuthorizationHeader] == "Bearer " + token
    ensures h.Keys <= {ContentTypeHeader, AuthorizationHeader}
  {
    var h := if hasBody then map[ContentTypeHeader := JsonContentType] else map[];
    if token != "" then h[AuthorizationHeader := "Bearer " + token] else h
  }

  /** The body is read as JSON exactly when the response's Content-Type mentions application/json. */
  predicate IsJson(res: Response) {
    Contains(res.contentType, JsonMediaType)
  }

  /** The body was read: decoded when it is JSON, read as text otherwise. */
  predicate Readable(res: Response) {
    if IsJson(res) then res.decoded.Ok? else res.text.Ok?
  }

  /**
   * The response half of request: read the body as JSON or as text, then fail on a status
   * of 400 or more, still returning what was read.
   */
  function Receive(res: Response): (r: Reply)
    ensures r.err.None? <==> Readable(res) && res.statusCode < 400
    ensures !Readable(res) ==> r.output == NoOutput
    ensures IsJson(res) && res.decoded.Fail? ==>
              r.err == Some(Wrapped(JsonReadFailed, Cause(res.decoded.cause)))
    ensures !IsJson(res) && res.text.Fail? ==>
              r.err == Some(Wrapped(ReadFailed, Cause(res.text.cause)))
    ensures Readable(res) ==>
              r.output == (if IsJson(res) then Decoded(res.decoded.value) else Text(res.text.value))
    ensures Readable(res) && res.statusCode >= 400 ==> r.err == Some(BadStatus(res.status))
  {
    var read: Attempt<Output> :=
      if IsJson(res) then
        match res.decoded
        case Fail(e) => Fail(e)
        case Ok(j) => Ok(Decoded(j))
      else
        match res.text
        case Fail(e) => Fail(e)
        case Ok(t) => Ok(Text(t));
    if read.Fail? then
      Reply(NoOutput, Some(Wrapped(if IsJson(res) then JsonReadFailed else ReadFailed, Cause(read.cause))))
    else if res.statusCode >= 400 then Reply(read.value, Some(BadStatus(res.status)))
    else Reply(read.value, None)
  }

  /**
   * The whole of request as a function of its inputs: the reply, and the request that
   * was handed to the transport, if one was built.
   */
  function Exchange(verb: string, url: string, payload: Option<GoValue>, token: string, env: Env): (Reply, Option<Sent>) {
    if payload.Some? && env.encodeError.Some? then
      (Reply(NoOutput, Some(Wrapped(EncodeFailed, Cause(env.encodeError.value)))), None)
    else if env.newRequestError.Some? then
      (Reply(NoOutput, Some(Wrapped(CreateFailed, Cause(env.newRequestError.value)))), None)
    else
      var body := if payload.Some? then Some(Marshal(payload.value)) else None;
      var sent := Sent(verb, url, body, Headers(payload.Some?, token));
      match env.transport
      case Fail(e) => (Reply(NoOutput, Some(Wrapped(SendFailed, Cause(e)))), Some(sent))
      case Ok(res) => (Receive(res), Some(sent))
  }

  /** A payload the encoder rejects ends the call before any request is built. */
  lemma ExchangeEncodeFailure(verb: string, url: string, payload: Option<GoValue>, token: string, env: Env)
    requires payload.Some? && env.encodeError.Some?
    ensures Exchange(verb, url, payload, token, env) ==
            (Reply(NoOutput, Some(Wrapped(EncodeFailed, Cause(env.encodeError.value)))), None)
  {
  }

  /**
   * A request is built unless encoding or http.NewRequest fails; it then carries the
   * payload's encoding as its body, and the headers Headers gives.
   */
  lemma ExchangeSends(verb: string, url: string, payload: Option<GoValue>, token: string, env: Env)
    ensures var (_, sent) := Exchange(verb, url, payload, token, env);
      && (sent.Some? <==> (payload.None? || env.encodeError.None?) && env.newRequestError.None?)
      && (sent.Some? ==>
            && sent.value.verb == verb && sent.value.url == url
            && sent.value.body == (if payload.Some? then Some(Marshal(payload.value)) else None)
            && sent.value.header == Headers(payload.Some?, token))
  {
  }

  /**
   * The call succeeds exactly when the request was built and sent and the response was
   * read with a status below 400; then the output is what was read.
   */
  lemma ExchangeSucceeds(verb: string, url: string, payload: Option<GoValue>, token: string, env: Env)
    ensures var (reply, sent) := Exchange(verb, url, payload, token, env);
      reply.err.None? <==>
        sent.Some? && env.transport.Ok? && Readable(env.transport.value) && env.transport.value.statusCode < 400
  {
  }

  /**
   * When the call fails, the output is nil unless the response was read and only its
   * status failed: then the output is what was read, beside the status error.
   */
  lemma ExchangeFailureOutput(verb: string, url: string, payload: Option<GoValue>, token: string, env: Env)
    ensures var (reply, sent) := Exchange(verb, url, payload, token, env);
      reply.err.Some? ==>
        if sent.Some? && env.transport.Ok? && Readable(env.transport.value) then
          reply.err == Some(BadStatus(env.transport.value.status)) && reply.output != NoOutput
        else reply.output == NoOutput
  {
  }

  /** errors.Wrap on the error of a reply: nil stays nil, and the output is passed through. */
  function WrapReply(r: Reply, message: string): (w: Reply)
    ensures w.output == r.output
    ensures w.err.None? <==> r.err.None?
    ensures r.err.Some? ==> w.err == Some(Wrapped(message, r.err.value))
  {
    match r.err
    case None => r
    case Some(e) => Reply(r.output, Some(Wrapped(message, e)))
  }

  /** The text of an error as errors.Wrap and errors.Errorf render it. */
  function Message(e: Error): string {
    match e
    case Cause(t) => t
    case BadStatus(s) => "request failed with status " + s
    case Wrapped(m, c) => m + ": " + Message(c)
  }

  /** A wrapped error's text starts with its message and ends with its cause's text. */
  lemma MessageKeepsCause(message: string, cause: Error)
    ensures var t := Message(Wrapped(message, cause));
      HasPrefix(t, message + ": ") && t[|message| + 2..] == Message(cause)
  {
  }
}
