/**
 * The decision layer of the `/v1/chat/completions` handler: `fetch` decides
 * between the OPTIONS reply, a 500 error and forwarding; `send_request` and
 * `handle_response` then choose how the upstream answer is relayed.
 */
module Gateway {
  import opened Wrappers
  import opened JsonValue
  import opened Errors
  import opened Routing
  import opened Outbound

  /**
   * An inbound request: its HTTP method (`verb`), its headers, and its body
   * decoded as JSON, or the decoder's error text.
   */
  datatype Request = Request(verb: string, headers: InboundHeaders, body: Result<Json, string>)

  /** What `fetch` does before any upstream answer exists. */
  datatype Outcome =
    | Options204
    | Error500(error: Error)
    | Forward(url: string, headers: HeaderSet, payload: Json)

  /** The URL is usable: neither None nor empty. */
  predicate HasUrl(url: Option<string>) {
    url.Some? && url.value != ""
  }

  /**
   * `fetch` up to the outbound call: OPTIONS short-circuits; a body that does
   * not decode, is not an object, or whose model is unhashable raises; a
   * missing URL raises; otherwise the body is forwarded as it is.
   */
  function Fetch(config: Config, req: Request): (o: Outcome)
    ensures o.Options204? <==> req.verb == "OPTIONS"
    ensures o.Forward? ==>
              && req.body.Success? && req.body.value.Obj?
              && o.payload == req.body.value
              && o.headers.Keys == OutboundNames
              && var model := Get(req.body.value.fields, "model");
                 && ResolveField(config, model, "url") == Success(Some(o.url))
                 && o.url != ""
                 && o.headers == PrepareHeaders(ResolveField(config, model, "key").value, req.headers)
    ensures o.Forward? <==>
              && req.verb != "OPTIONS"
              && req.body.Success? && req.body.value.Obj?
              && var r := ResolveField(config, Get(req.body.value.fields, "model"), "url");
                 r.Success? && HasUrl(r.value)
    ensures req.verb != "OPTIONS" && req.body.Failure? ==> o == Error500(Raised(req.body.error))
    ensures req.verb != "OPTIONS" && req.body.Success? && !req.body.value.Obj? ==>
              o == Error500(NoGetMethod(TypeName(req.body.value)))
    ensures req.verb != "OPTIONS" && req.body.Success? && req.body.value.Obj? ==>
              var model := Get(req.body.value.fields, "model");
              !Hashable(model) ==> o == Error500(Unhashable(TypeName(model)))
    ensures (o == Error500(MissingUrl)) <==>
              && req.verb != "OPTIONS"
              && req.body.Success? && req.body.value.Obj?
              && var r := ResolveField(config, Get(req.body.value.fields, "model"), "url");
                 r.Success? && !HasUrl(r.value)
  {
    if req.verb == "OPTIONS" then Options204
    else match req.body
      case Failure(text) => Error500(Raised(text))
      case Success(body) =>
        if !body.Obj? then Error500(NoGetMethod(TypeName(body)))
        else
          var model := Get(body.fields, "model");
          match ResolveField(config, model, "url")
          case Failure(e) => Error500(e)
          case Success(url) =>
            if !HasUrl(url) then Error500(MissingUrl)
            else
              var key := ResolveField(config, model, "key");
              Forward(url.value, PrepareHeaders(key.value, req.headers), body)
  }

  /** How the answer is relayed to the caller. */
  datatype Mode = PassUpstream | Streaming | Buffered

  /**
   * `send_request` / `handle_response`: a non-200 status returns the upstream
   * response; otherwise a truthy `stream` field streams, anything else buffers.
   */
  function SelectMode(status: int, data: map<string, Json>): (m: Mode)
    ensures m == PassUpstream <==> status != 200
    ensures m == Streaming <==> status == 200 && "stream" in data && Truthy(data["stream"])
    ensures m == Buffered <==> status == 200 && ("stream" !in data || !Truthy(data["stream"]))
  {
    if status != 200 then PassUpstream
    else if !Truthy(Get(data, "stream")) then Buffered
    else Streaming
  }

  /**
   * What the upstream call produced: a transport failure, or a status with
   * the body as the handler would read it. `text` is `resp.text()`, read for
   * a non-200 status; `json` is `resp.json()`, read for a buffered 200. Each
   * is the value read or the text of the exception the read raised.
   */
  datatype Upstream =
    | Unreachable(error: string)
    | Answered(status: int, text: Result<string, string>, json: Result<Json, string>)

  /** The handler's return value. */
  datatype Response =
    | NoContent                  // `create_options_response`
    | ErrorText(error: Error)    // `web.Response(text=str(e), status=500)`
    | UpstreamAsIs(status: int)  // the upstream response object itself
    | JsonReply(body: Json)      // `create_response`
    | EventStream                // `stream_response`, before its chunks are copied

  const CorsHeaders: map<string, string> :=
    map["Access-Control-Allow-Origin" := "*", "Access-Control-Allow-Headers" := "*"]

  /**
   * The status of each reply: fixed for the replies the handler builds,
   * the upstream's own for the upstream response handed back.
   */
  function Status(r: Response): int {
    match r
    case NoContent => 204
    case ErrorText(_) => 500
    case UpstreamAsIs(s) => s
    case JsonReply(_) => 200
    case EventStream => 200
  }

  /**
   * The headers the handler sets explicitly on each reply: the two `*` CORS
   * headers, plus the content type for the JSON and event-stream replies.
   */
  function ReplyHeaders(r: Response): map<string, string> {
    match r
    case NoContent => CorsHeaders
    case ErrorText(_) => map[]
    case UpstreamAsIs(_) => map[]
    case JsonReply(_) => CorsHeaders["Content-Type" := "application/json"]
    case EventStream => CorsHeaders["Content-Type" := "text/event-stream; charset=UTF-8"]
  }

  /**
   * The string bodies the model carries: empty for OPTIONS and the error's
   * message for errors. The JSON reply's text is the re-serialised upstream
   * JSON, which is carried as a `Json` value instead.
   */
  function ReplyText(r: Response): Option<string> {
    match r
    case NoContent => Some("")
    case ErrorText(e) => Some(Message(e))
    case _ => None
  }

  /**
   * How status, headers and text fit together: the CORS pair is on every
   * reply the handler builds for a successful exchange and on OPTIONS; a
   * content type only where a JSON or event-stream body follows; a 500 with
   * a text body exactly for the handler's errors.
   */
  lemma ReplyShape(r: Response)
    ensures CorsHeaders.Items <= ReplyHeaders(r).Items <==> r.NoContent? || r.JsonReply? || r.EventStream?
    ensures "Content-Type" in ReplyHeaders(r) <==> r.JsonReply? || r.EventStream?
    ensures r.ErrorText? <==> ReplyText(r).Some? && Status(r) == 500
    ensures r.NoContent? <==> ReplyText(r) == Some("") && Status(r) == 204
  {
    assert ("Access-Control-Allow-Origin", "*") in CorsHeaders.Items;
  }

  /** Relaying an upstream answer to a forwarded `payload` (which is a JSON object). */
  function Relay(payload: map<string, Json>, upstream: Upstream): (r: Response)
    ensures upstream.Unreachable? ==> r == ErrorText(Raised(upstream.error))
    ensures upstream.Answered? && upstream.status != 200 && upstream.text.Success? ==>
              r == UpstreamAsIs(upstream.status)
    ensures upstream.Answered? && upstream.status != 200 && upstream.text.Failure? ==>
              r == ErrorText(Raised(upstream.text.error))
    ensures r.EventStream? <==> upstream.Answered? && SelectMode(upstream.status, payload) == Streaming
    ensures r.JsonReply? <==>
              upstream.Answered? && SelectMode(upstream.status, payload) == Buffered && upstream.json.Success?
    ensures r.JsonReply? ==> r.body == upstream.json.value
    ensures upstream.Answered? && SelectMode(upstream.status, payload) == Buffered && upstream.json.Failure? ==>
              r == ErrorText(Raised(upstream.json.error))
  {
    match upstream
    case Unreachable(error) => ErrorText(Raised(error))
    case Answered(status, text, json) =>
      match SelectMode(status, payload)
      case PassUpstream =>
        (match text
         case Failure(error) => ErrorText(Raised(error))
         case Success(_) => UpstreamAsIs(status))
      case Streaming => EventStream
      case Buffered =>
        match json
        case Failure(text) => ErrorText(Raised(text))
        case Success(j) => JsonReply(j)
  }

  /**
   * The whole handler: `fetch`, then, only when it forwards, the upstream
   * call's answer relayed to the caller. `upstream` is what the network would
   * answer to the forwarded request.
   */
  function Serve(config: Config, req: Request, upstream: Upstream): (r: Response)
    ensures req.verb == "OPTIONS" ==> r == NoContent
    ensures Fetch(config, req).Error500? ==> r == ErrorText(Fetch(config, req).error)
    ensures Fetch(config, req).Forward? ==> r == Relay(Fetch(config, req).payload.fields, upstream)
  {
    match Fetch(config, req)
    case Options204 => NoContent
    case Error500(e) => ErrorText(e)
    case Forward(_, _, payload) => Relay(payload.fields, upstream)
  }

  /** OPTIONS: 204, empty body, the two `*` CORS headers, whatever the config, body or upstream. */
  lemma OptionsIsFixed(config: Config, req: Request, upstream: Upstream)
    requires req.verb == "OPTIONS"
    ensures var r := Serve(config, req, upstream);
            Status(r) == 204 && ReplyText(r) == Some("") && ReplyHeaders(r) == CorsHeaders
  {
  }

  /** A missing or empty URL: status 500 whose body is the configured error message. */
  lemma MissingUrlIs500(config: Config, req: Request, upstream: Upstream)
    requires req.verb != "OPTIONS" && req.body.Success? && req.body.value.Obj?
    requires var r := ResolveField(config, Get(req.body.value.fields, "model"), "url");
             r.Success? && !HasUrl(r.value)
    ensures Status(Serve(config, req, upstream)) == 500
    ensures ReplyText(Serve(config, req, upstream)) == Some(MissingUrlMessage)
  {
  }

  /** Every request that is not forwarded never reaches the upstream: its reply does not depend on it. */
  lemma NoForwardNoUpstream(config: Config, req: Request, upstream: Upstream, other: Upstream)
    requires !Fetch(config, req).Forward?
    ensures Serve(config, req, upstream) == Serve(config, req, other)
  {
  }

  /** A non-200 upstream status whose body reads as text is handed back as is. */
  lemma UpstreamErrorPassesThrough(config: Config, req: Request, status: int, body: string, json: Result<Json, string>)
    requires Fetch(config, req).Forward? && status != 200
    ensures Serve(config, req, Answered(status, Success(body), json)) == UpstreamAsIs(status)
  {
  }

  /** A non-200 upstream status whose body cannot be read: a 500 carrying the read's error text. */
  lemma UnreadableErrorBodyIs500(config: Config, req: Request, status: int, error: string, json: Result<Json, string>)
    requires Fetch(config, req).Forward? && status != 200
    ensures var r := Serve(config, req, Answered(status, Failure(error), json));
            Status(r) == 500 && ReplyText(r) == Some(error)
  {
  }

  /** A 200 with a truthy `stream`: an event stream with CORS headers. */
  lemma TruthyStreamStreams(config: Config, req: Request, body: Result<string, string>, json: Result<Json, string>)
    requires Fetch(config, req).Forward?
    requires Truthy(Get(Fetch(config, req).payload.fields, "stream"))
    ensures var r := Serve(config, req, Answered(200, body, json));
            r == EventStream && Status(r) == 200
            && ReplyHeaders(r) == CorsHeaders["Content-Type" := "text/event-stream; charset=UTF-8"]
  {
  }

  /** A 200 with an absent or falsy `stream`: the upstream JSON, unchanged, as `application/json` with CORS headers. */
  lemma FalsyStreamBuffers(config: Config, req: Request, body: Result<string, string>, j: Json)
    requires Fetch(config, req).Forward?
    requires !Truthy(Get(Fetch(config, req).payload.fields, "stream"))
    ensures var r := Serve(config, req, Answered(200, body, Success(j)));
            r == JsonReply(j) && Status(r) == 200
            && ReplyHeaders(r) == CorsHeaders["Content-Type" := "application/json"]
  {
  }

  /** A 200 to be buffered whose upstream body does not decode as JSON: a 500 carrying the decoder's text. */
  lemma UndecodableBufferedBodyIs500(config: Config, req: Request, body: Result<string, string>, error: string)
    requires Fetch(config, req).Forward?
    requires !Truthy(Get(Fetch(config, req).payload.fields, "stream"))
    ensures var r := Serve(config, req, Answered(200, body, Failure(error)));
            Status(r) == 500 && ReplyText(r) == Some(error)
  {
  }
}
