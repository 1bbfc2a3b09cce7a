/** The HTTP client as seen by the data-access layer: an oracle that answers each
    `post`/`get` with the next scripted reply and records every call it was given.
    A server error reply is turned into an exception by `ParseErrorResponse`, with the
    posted `command` as the query, as the synchronous client does for a status >= 400. */
module Transport {
  import opened Wrappers
  import opened Strings
  import opened JsonValue
  import opened Exceptions

  /** The endpoint constants of `arcadedb_python/api/config.py`. */
  const BaseEndpoint := "/api/v1"
  const ServerEndpoint := BaseEndpoint + "/server"
  const ExistsEndpoint := BaseEndpoint + "/exists"
  const CommandEndpoint := BaseEndpoint + "/command"
  const ListDatabasesEndpoint := BaseEndpoint + "/databases"
  const QueryEndpoint := BaseEndpoint + "/query"
  const BeginEndpoint := BaseEndpoint + "/begin"
  const CommitEndpoint := BaseEndpoint + "/commit"
  const RollbackEndpoint := BaseEndpoint + "/rollback"

  /** The header that carries a transaction's session id. */
  const SessionHeader := "arcadedb-session-id"

  /** The `params` entry of a query payload: the caller's value, or the parameters the
      Cypher formatter kept back. */
  datatype Params = Given(value: Json) | Kept(entries: map<string, Json>)

  /** The posted dicts. A query payload has "command" and "language", and "limit",
      "params" and "serializer" exactly when they are present here. */
  datatype Body =
    | QueryBody(command: string, language: string, limit: Option<Json>, params: Option<Params>, serializer: Option<string>)
    | IsolationBody(isolationLevel: string)
    | EmptyBody
    | ServerCommand(command: string)

  /** One request handed to the client: `extra` holds the headers added to the client's
      own, `wantHeaders` is `return_headers=True`. */
  datatype Call =
    | PostCall(endpoint: string, payload: Body, extra: map<string, string>, wantHeaders: bool)
    | GetCall(endpoint: string)

  /** What the server does with one request: answer (a decoded `result` and the response
      headers), reject it with an error dict, or fail below HTTP (connection refused,
      timeout), which the caller sees as a foreign exception. */
  datatype Reply =
    | Answer(result: Json, headers: map<string, string>)
    | ServerError(data: map<string, string>)
    | Broken(name: string, text: string)

  /** The replies still to come and the calls made so far, oldest first. */
  datatype Net = Net(script: seq<Reply>, sent: seq<Call>)

  /** The exception raised when the server stops answering. */
  const Unreachable := Foreign("ConnectionError", "no reply")

  /** `payload.get('command')`. */
  function CommandOf(payload: Body): (q: Option<string>)
    ensures q.Some? <==> payload.QueryBody? || payload.ServerCommand?
    ensures q.Some? ==> q.value == payload.command
  {
    match payload
    case QueryBody(c, _, _, _, _) => Some(c)
    case ServerCommand(c) => Some(c)
    case _ => None
  }

  /** Hands `call` to the server: the next reply is consumed and the call is logged. */
  function Exchange(net: Net, call: Call): (r: (Option<Reply>, Net))
    ensures r.1.sent == net.sent + [call]
    ensures net.script == [] ==> r.0 == None && r.1.script == []
    ensures net.script != [] ==> r.0 == Some(net.script[0]) && r.1.script == net.script[1..]
  {
    if net.script == [] then (None, Net([], net.sent + [call]))
    else (Some(net.script[0]), Net(net.script[1..], net.sent + [call]))
  }

  /** The exception the client raises for a reply that is not an answer. */
  function Raised(reply: Option<Reply>, query: Option<string>): (e: Exc)
    requires reply.None? || !reply.value.Answer?
    ensures reply.Some? && reply.value.ServerError? ==> e == ParseErrorResponse(reply.value.data, query)
    ensures !e.Validation?
  {
    match reply
    case None => Unreachable
    case Some(ServerError(data)) => ParseErrorResponse(data, query)
    case Some(Broken(name, text)) => Foreign(name, text)
  }

  /** `client.post(endpoint, payload, extra_headers=extra)`: the decoded result. */
  function Post(net: Net, endpoint: string, payload: Body, extra: map<string, string>): (r: (Result<Json, Exc>, Net))
    ensures r.1.sent == net.sent + [PostCall(endpoint, payload, extra, false)]
    ensures |r.1.script| == if net.script == [] then 0 else |net.script| - 1
    ensures r.0.Ok? <==> net.script != [] && net.script[0].Answer?
    ensures r.0.Ok? ==> r.0.value == net.script[0].result
    ensures r.0.Err? ==> !r.0.error.Validation?
  {
    var (reply, net') := Exchange(net, PostCall(endpoint, payload, extra, false));
    if reply.Some? && reply.value.Answer? then (Ok(reply.value.result), net')
    else (Err(Raised(reply, CommandOf(payload))), net')
  }

  /** `client.post(endpoint, payload, return_headers=True)`: the response headers. */
  function PostForHeaders(net: Net, endpoint: string, payload: Body): (r: (Result<map<string, string>, Exc>, Net))
    ensures r.1.sent == net.sent + [PostCall(endpoint, payload, map[], true)]
    ensures |r.1.script| == if net.script == [] then 0 else |net.script| - 1
    ensures r.0.Ok? <==> net.script != [] && net.script[0].Answer?
    ensures r.0.Ok? ==> r.0.value == net.script[0].headers
  {
    var (reply, net') := Exchange(net, PostCall(endpoint, payload, map[], true));
    if reply.Some? && reply.value.Answer? then (Ok(reply.value.headers), net')
    else (Err(Raised(reply, CommandOf(payload))), net')
  }

  /** `client.get(endpoint)`: the decoded result; a get carries no query. */
  function Get(net: Net, endpoint: string): (r: (Result<Json, Exc>, Net))
    ensures r.1.sent == net.sent + [GetCall(endpoint)]
    ensures |r.1.script| == if net.script == [] then 0 else |net.script| - 1
    ensures r.0.Ok? <==> net.script != [] && net.script[0].Answer?
    ensures r.0.Ok? ==> r.0.value == net.script[0].result
  {
    var (reply, net') := Exchange(net, GetCall(endpoint));
    if reply.Some? && reply.value.Answer? then (Ok(reply.value.result), net')
    else (Err(Raised(reply, None)), net')
  }

  /** A server error reply to a post surfaces as the classified exception, carrying the
      posted command when it is a parsing error. */
  lemma ServerErrorIsClassified(net: Net, endpoint: string, payload: Body, extra: map<string, string>,
                                 data: map<string, string>)
    requires net.script != [] && net.script[0] == ServerError(data)
    ensures var r := Post(net, endpoint, payload, extra);
      && r.0 == Err(ParseErrorResponse(data, CommandOf(payload)))
      && (r.0.error.QueryParsing? && payload.QueryBody? ==> r.0.error.query == Some(payload.command))
  {
  }
}
