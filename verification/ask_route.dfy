/**
 * The ask relay (`POST /api/ai/ask`): a chain of early returns that checks
 * the session cookie, parses the JSON body, forwards the question to the
 * backend and either relays its event stream untouched or reports its
 * failure with the same status.
 *
 * The request body is kept as its JSON text: `Some(json)` when `req.json()`
 * parses, `None` when it throws. The backend's answer is a parameter; it is
 * only used when the relay actually calls the backend.
 */
module AskRoute {
  import opened Wrappers
  import StreamDecoder

  const MissingSession := "Missing session"
  const InvalidJson := "Invalid JSON"
  const UpstreamError := "Upstream error"
  const DefaultApiUrl := "http://localhost:8080"

  /** A status the Fetch standard calls ok: 200 to 299. */
  predicate Ok(status: int)
  {
    200 <= status <= 299
  }

  /** A header name and value, in the order the code writes them. */
  datatype Header = Header(name: string, value: string)

  /** The body of a reply: plain text, or a relayed stream of chunks. */
  datatype Body = TextBody(text: string) | StreamBody(chunks: seq<string>)

  datatype Reply = Reply(status: int, body: Body, headers: seq<Header>)

  /** The backend call the relay issues. */
  datatype UpstreamCall = UpstreamCall(url: string, headers: seq<Header>, json: string)

  /**
   * The backend's answer: its status, its text when read as text (`None`
   * when reading it fails), and its body as a stream of chunks.
   */
  datatype UpstreamReply = UpstreamReply(status: int, text: Option<string>, chunks: seq<string>)

  /** What one request does: the backend call it issued, if any, and the reply. */
  datatype Outcome = Outcome(call: Option<UpstreamCall>, reply: Reply)

  /** `process.env.API_URL || "http://localhost:8080"`. */
  function ApiUrl(env: Option<string>): string
  {
    if env.Some? && env.value != "" then env.value else DefaultApiUrl
  }

  /** The headers of the backend call. */
  function UpstreamHeaders(token: string): seq<Header>
  {
    [ Header("Content-Type", "application/json"),
      Header("Authorization", "Bearer " + token),
      Header("Accept", "text/event-stream") ]
  }

  /** The headers of a relayed stream. */
  function StreamHeaders(): seq<Header>
  {
    [ Header("Content-Type", "text/event-stream; charset=utf-8"),
      Header("Cache-Control", "no-cache, no-transform"),
      Header("Connection", "keep-alive") ]
  }

  /**
   * `POST`: `token` is the `session` cookie, `json` the parsed body,
   * `env` the `API_URL` variable and `upstream` the backend's answer.
   */
  function AskPost(token: Option<string>, json: Option<string>, env: Option<string>, upstream: UpstreamReply)
    : (r: Outcome)
    ensures token.None? || token.value == "" ==>
      r == Outcome(None, Reply(401, TextBody(MissingSession), []))
    ensures token.Some? && token.value != "" && json.None? ==>
      r == Outcome(None, Reply(400, TextBody(InvalidJson), []))
    ensures r.call.Some? <==> token.Some? && token.value != "" && json.Some?
    ensures r.call.Some? ==>
      r.call.value == UpstreamCall(ApiUrl(env) + "/api/ai/ask", UpstreamHeaders(token.value), json.value)
    ensures r.call.Some? && !Ok(upstream.status) ==>
      && r.reply.status == upstream.status && r.reply.headers == []
      && r.reply.body == TextBody(if upstream.text.Some? && upstream.text.value != "" then upstream.text.value
                                  else UpstreamError)
    ensures r.call.Some? && Ok(upstream.status) ==>
      r.reply == Reply(200, StreamBody(upstream.chunks), StreamHeaders())
  {
    if token.None? || token.value == "" then
      Outcome(None, Reply(401, TextBody(MissingSession), []))
    else if json.None? then
      Outcome(None, Reply(400, TextBody(InvalidJson), []))
    else
      var call := UpstreamCall(ApiUrl(env) + "/api/ai/ask", UpstreamHeaders(token.value), json.value);
      if !Ok(upstream.status) then
        var text := if upstream.text.Some? then upstream.text.value else "";
        Outcome(Some(call), Reply(upstream.status, TextBody(if text != "" then text else UpstreamError), []))
      else
        Outcome(Some(call), Reply(200, StreamBody(upstream.chunks), StreamHeaders()))
  }

  /** Every reply the relay writes itself carries a non-empty text. */
  lemma ErrorRepliesExplain(token: Option<string>, json: Option<string>, env: Option<string>, upstream: UpstreamReply)
    ensures var r := AskPost(token, json, env, upstream).reply;
      r.body.TextBody? ==> r.body.text != [] && !Ok(r.status)
  {
  }

  /** What the browser's reader receives from a reply. */
  function ToClient(r: Reply): StreamDecoder.StreamResponse
  {
    StreamDecoder.StreamResponse(
      Ok(r.status),
      match r.body
      case StreamBody(chunks) => Some(chunks)
      case TextBody(text) => Some([text]))
  }

  /**
   * End to end: the browser sees an ok stream exactly when the relay called
   * the backend and the backend answered ok, and the stream is then the
   * backend's chunks, untouched; in every other case the browser's reader
   * fails before any delta.
   */
  lemma RelayReachesClient(token: Option<string>, json: Option<string>, env: Option<string>,
                           upstream: UpstreamReply)
    ensures var o := AskPost(token, json, env, upstream);
      ToClient(o.reply).ok <==> o.call.Some? && Ok(upstream.status)
    ensures var o := AskPost(token, json, env, upstream);
      o.call.Some? && Ok(upstream.status) ==> ToClient(o.reply).body == Some(upstream.chunks)
  {
  }
}
