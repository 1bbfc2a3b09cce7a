/** `DatabaseDao.query` on the HTTP driver: argument validation, the payload and the
    session header, the choice between the query and the command endpoint, and the one
    retry as a command after an idempotency rejection. */
module DaoQuery {
  import opened Wrappers
  import opened Strings
  import opened JsonValue
  import opened Exceptions
  import opened Transport
  import opened Cypher

  /** A `DatabaseDao` on the HTTP driver: the database it works on and the lexer the
      Cypher formatter uses when one is installed. */
  datatype Dao = Dao(databaseName: string, lexer: Option<Lexer>)

  /** `config.AVAILABLE_LANGUAGES`. */
  const Languages: seq<string> := ["sql", "sqlscript", "graphql", "cypher", "gremlin", "mongo"]

  /** The arguments of `query`; `isCommand` is `Optional[bool]`. `limit` and `params`
      take any value, Python's `None` being `JNull`. */
  datatype QueryArgs = QueryArgs(
    language: string,
    command: string,
    limit: Json,
    params: Json,
    serializer: Option<string>,
    sessionId: Option<string>,
    isCommand: Option<bool>,
    retryOnIdempotentError: bool)

  /** `self.query("sql", command, session_id=…, is_command=…, retry_on_idempotent_error=…)`,
      the form in which the other operations call it. */
  function Sql(command: string, sessionId: Option<string>, isCommand: bool, retry: bool): QueryArgs
  {
    QueryArgs("sql", command, JNull, JNull, None, sessionId, Some(isCommand), retry)
  }

  /** `serializer.lower() if serializer else serializer`. */
  function NormalSerializer(s: Option<string>): Option<string>
  {
    if s.Some? && s.value != "" then Some(Lower(s.value)) else s
  }

  /** `isinstance(limit, int)`; a Python bool is an int. */
  predicate IsInt(v: Json)
  {
    v.JInt? || v.JBool?
  }

  predicate KnownSerializer(s: Option<string>)
  {
    s.None? || s.value == "graph" || s.value == "record"
  }

  /** The three checks `query` makes before anything else. */
  predicate Valid(a: QueryArgs)
  {
    && Lower(a.language) in Languages
    && (a.limit.JNull? || IsInt(a.limit))
    && KnownSerializer(NormalSerializer(a.serializer))
  }

  /** The first check that fails, in the order `query` makes them. */
  function ValidationError(a: QueryArgs): (e: Option<Exc>)
    ensures e.None? <==> Valid(a)
    ensures e.Some? ==> e.value.Validation?
  {
    var language := Lower(a.language);
    if language !in Languages then
      Some(Validation(Plain("Language " + language + " not supported. Available languages: " + Join(", ", Languages))))
    else if !a.limit.JNull? && !IsInt(a.limit) then
      Some(Validation(Plain("Limit must be an integer")))
    else if !KnownSerializer(NormalSerializer(a.serializer)) then
      Some(Validation(Plain("Serializer must be None, 'graph' or 'record'")))
    else None
  }

  /** The payload's `limit` entry: present exactly when `limit is not None`. */
  function Limit(a: QueryArgs): Option<Json>
  {
    if a.limit.JNull? then None else Some(a.limit)
  }

  /** Whether `query` hands the command to `cypher_formater` first. */
  predicate Formats(a: QueryArgs)
  {
    Lower(a.language) == "cypher" && Truthy(a.params)
  }

  /** The command and the `params` entry after the Cypher formatter: the kept-back
      parameters when there are any, else none; other languages keep theirs. Parameters
      that are not a dict are handed to the formatter too, which then inlines nothing. */
  function Formatted(dao: Dao, a: QueryArgs): (r: Result<(string, Option<Params>), Exc>)
    ensures !Formats(a) ==> r == Ok((a.command, if a.params.JNull? then None else Some(Given(a.params))))
    ensures r.Err? ==> r.error.Foreign? && r.error.name in {MissingVariable, "TypeError"}
    ensures Formats(a) && !a.params.JObject? && r.Ok? ==>
      r.value == (if dao.lexer.None? then a.command else Texts(dao.lexer.value(a.command)), None)
  {
    if Formats(a) then
      match FormatSpec(dao.lexer, a.command, a.params)
      case Err(e) => FormatFailures(dao.lexer, a.command, a.params); Err(e)
      case Ok((command, kept)) =>
        if !a.params.JObject? then FormatNonDict(dao.lexer, a.command, a.params); Ok((command, None))
        else Ok((command, if |kept| > 0 then Some(Kept(kept)) else None))
    else Ok((a.command, if a.params.JNull? then None else Some(Given(a.params))))
  }

  /** The payload `query` posts, or the error raised before posting. */
  function Prepare(dao: Dao, a: QueryArgs): (r: Result<Body, Exc>)
    ensures r.Err? ==> (r.error.Validation? <==> !Valid(a))
    ensures r.Ok? ==> Valid(a) && r.value.QueryBody?
    ensures r.Ok? ==> r.value.language == Lower(a.language) && r.value.language in Languages
    ensures r.Ok? ==> (r.value.limit.None? <==> a.limit.JNull?) && (r.value.limit.Some? ==> r.value.limit.value == a.limit)
    ensures r.Ok? ==> r.value.serializer == NormalSerializer(a.serializer)
    ensures r.Ok? && !Formats(a) ==>
      r.value.command == a.command && (r.value.params.Some? <==> !a.params.JNull?)
  {
    match ValidationError(a)
    case Some(e) => Err(e)
    case None =>
      match Formatted(dao, a)
      case Err(e) => Err(e)
      case Ok((command, params)) =>
        Ok(QueryBody(command, Lower(a.language), Limit(a), params, NormalSerializer(a.serializer)))
  }

  /** `extra_headers`: the session id under `arcadedb-session-id`, if one is given. */
  function SessionHeaders(sessionId: Option<string>): (h: map<string, string>)
    ensures sessionId.None? <==> h == map[]
    ensures sessionId.Some? ==> h.Keys == {SessionHeader} && h[SessionHeader] == sessionId.value
  {
    if sessionId.Some? then
      var h := map[SessionHeader := sessionId.value];
      assert SessionHeader in h;
      h
    else map[]
  }

  /** The query endpoint only when `is_command is False`. */
  function FirstEndpoint(isCommand: Option<bool>): (ep: string)
    ensures ep == QueryEndpoint <==> isCommand == Some(false)
    ensures ep == QueryEndpoint || ep == CommandEndpoint
  {
    if isCommand == Some(false) then QueryEndpoint else CommandEndpoint
  }

  /** The escalation condition: an idempotency rejection, retry enabled, `not is_command`. */
  predicate Retryable(a: QueryArgs, e: Exc)
  {
    e.Transaction? && e.isIdempotentError && a.retryOnIdempotentError && a.isCommand != Some(true)
  }

  /** The exception raised when the retry fails as well. */
  function RetryFailed(first: Exc, second: Exc, sessionId: Option<string>): (e: Exc)
    ensures e.Transaction? && e.isIdempotentError && e.sessionId == sessionId
  {
    Transaction(Plain("Query failed as both regular query and command. Original error: " + ExcToString(first)
                      + ". Retry error: " + ExcToString(second)), sessionId, true)
  }

  /** The posts of `query` once the payload is built. */
  function Send(dao: Dao, net: Net, a: QueryArgs, body: Body): (Result<Json, Exc>, Net)
  {
    var headers := SessionHeaders(a.sessionId);
    var (first, net1) := Post(net, FirstEndpoint(a.isCommand) + "/" + dao.databaseName, body, headers);
    if first.Ok? || !Retryable(a, first.error) then (first, net1)
    else
      var (second, net2) := Post(net1, CommandEndpoint + "/" + dao.databaseName, body, headers);
      if second.Ok? then (second, net2) else (Err(RetryFailed(first.error, second.error, a.sessionId)), net2)
  }

  /** Reference definition of `query`: what it returns and the calls it makes. */
  function Dispatch(dao: Dao, net: Net, a: QueryArgs): (Result<Json, Exc>, Net)
  {
    match Prepare(dao, a)
    case Err(e) => (Err(e), net)
    case Ok(body) => Send(dao, net, a, body)
  }

  /** `query(...)` as written: validate, format, build the payload, post, and retry once. */
  method Query(dao: Dao, net: Net, a: QueryArgs) returns (r: Result<Json, Exc>, net': Net)
    ensures (r, net') == Dispatch(dao, net, a)
  {
    var invalid := ValidationError(a);
    if invalid.Some? {
      return Err(invalid.value), net;
    }
    var command := a.command;
    var params: Option<Params> := if a.params.JNull? then None else Some(Given(a.params));
    if Formats(a) {
      var formatted := CypherFormater(dao.lexer, a.command, a.params);
      if formatted.Ok? && !a.params.JObject? {
        FormatNonDict(dao.lexer, a.command, a.params);
      }
      if formatted.Err? {
        return Err(formatted.error), net;
      }
      command := formatted.value.0;
      params := if |formatted.value.1| > 0 then Some(Kept(formatted.value.1)) else None;
    }
    var payload := QueryBody(command, Lower(a.language), Limit(a), params, NormalSerializer(a.serializer));
    r, net' := PostWithRetry(dao, net, a, payload);
  }

  /** The `try`/`except` around `client.post` in `query`. */
  method PostWithRetry(dao: Dao, net: Net, a: QueryArgs, payload: Body) returns (r: Result<Json, Exc>, net': Net)
    ensures (r, net') == Send(dao, net, a, payload)
  {
    var headers := SessionHeaders(a.sessionId);
    var (first, net1) := Post(net, FirstEndpoint(a.isCommand) + "/" + dao.databaseName, payload, headers);
    if first.Ok? || !Retryable(a, first.error) {
      return first, net1;
    }
    var (second, net2) := Post(net1, CommandEndpoint + "/" + dao.databaseName, payload, headers);
    if second.Ok? {
      return second, net2;
    }
    return Err(RetryFailed(first.error, second.error, a.sessionId)), net2;
  }

  // ---------------------------------------------------------------------------
  // Properties of the dispatcher
  // ---------------------------------------------------------------------------

  /** The calls `query` made: the new net extends the old log by these. */
  function NewCalls(net: Net, net': Net): seq<Call>
    requires |net.sent| <= |net'.sent|
  {
    net'.sent[|net.sent|..]
  }

  /** Validation comes first: invalid arguments raise ValidationException with no call at
      all, and valid ones never raise it. */
  lemma ValidationBeforeAnyPost(dao: Dao, net: Net, a: QueryArgs)
    ensures var (r, net') := Dispatch(dao, net, a);
      && (r.Err? && r.error.Validation? <==> !Valid(a))
      && (!Valid(a) ==> net' == net)
  {
    var (r, net') := Dispatch(dao, net, a);
    match Prepare(dao, a)
    case Err(e) =>
    case Ok(body) =>
      var headers := SessionHeaders(a.sessionId);
      var (first, net1) := Post(net, FirstEndpoint(a.isCommand) + "/" + dao.databaseName, body, headers);
      if !first.Ok? && Retryable(a, first.error) {
        var (second, net2) := Post(net1, CommandEndpoint + "/" + dao.databaseName, body, headers);
      }
  }

  /** There are never more than two posts, and the log only grows at its end. */
  lemma AtMostTwoPosts(dao: Dao, net: Net, a: QueryArgs)
    ensures var net' := Dispatch(dao, net, a).1;
      && |net.sent| <= |net'.sent| <= |net.sent| + 2
      && net'.sent[..|net.sent|] == net.sent
  {
    match Prepare(dao, a)
    case Err(e) =>
    case Ok(body) =>
      var headers := SessionHeaders(a.sessionId);
      var (first, net1) := Post(net, FirstEndpoint(a.isCommand) + "/" + dao.databaseName, body, headers);
      if !first.Ok? && Retryable(a, first.error) {
        var (second, net2) := Post(net1, CommandEndpoint + "/" + dao.databaseName, body, headers);
        assert net2.sent == net.sent + [net1.sent[|net.sent|], net2.sent[|net.sent| + 1]];
      }
  }

  /** The first post goes to the query endpoint exactly when `is_command is False`, with
      the prepared payload and the session id as the only extra header. */
  lemma Routing(dao: Dao, net: Net, a: QueryArgs)
    requires Prepare(dao, a).Ok?
    ensures var net' := Dispatch(dao, net, a).1;
      && |net'.sent| > |net.sent|
      && var call := net'.sent[|net.sent|];
      && call.PostCall?
      && call == PostCall(FirstEndpoint(a.isCommand) + "/" + dao.databaseName, Prepare(dao, a).value,
                          SessionHeaders(a.sessionId), false)
  {
    var body := Prepare(dao, a).value;
    var headers := SessionHeaders(a.sessionId);
    var ep := FirstEndpoint(a.isCommand);
    var (first, net1) := Post(net, ep + "/" + dao.databaseName, body, headers);
    assert net1.sent[|net.sent|] == PostCall(ep + "/" + dao.databaseName, body, headers, false);
    if !first.Ok? && Retryable(a, first.error) {
      var (second, net2) := Post(net1, CommandEndpoint + "/" + dao.databaseName, body, headers);
      assert net2.sent[|net.sent|] == net1.sent[|net.sent|];
    }
  }

  /** A second post happens exactly when the first one failed with an idempotency
      TransactionException, retrying is on and `is_command` is not True; it goes to the
      command endpoint with the same payload and headers. */
  lemma RetryOnlyOnIdempotentRejection(dao: Dao, net: Net, a: QueryArgs)
    requires Prepare(dao, a).Ok?
    ensures var body := Prepare(dao, a).value;
      var headers := SessionHeaders(a.sessionId);
      var first := Post(net, FirstEndpoint(a.isCommand) + "/" + dao.databaseName, body, headers);
      var net' := Dispatch(dao, net, a).1;
      && (|net'.sent| == |net.sent| + 2 <==> first.0.Err? && Retryable(a, first.0.error))
      && (|net'.sent| == |net.sent| + 2 ==>
            net'.sent[|net.sent| + 1] == PostCall(CommandEndpoint + "/" + dao.databaseName, body, headers, false))
  {
    var body := Prepare(dao, a).value;
    var headers := SessionHeaders(a.sessionId);
    var (first, net1) := Post(net, FirstEndpoint(a.isCommand) + "/" + dao.databaseName, body, headers);
    if !first.Ok? && Retryable(a, first.error) {
      var (second, net2) := Post(net1, CommandEndpoint + "/" + dao.databaseName, body, headers);
    }
  }

  /** The outcome: the first answer wins; a rejection that is not retried is re-raised
      unchanged; a failed retry raises TransactionException(is_idempotent_error=True). */
  lemma RetryOutcome(dao: Dao, net: Net, a: QueryArgs)
    requires Prepare(dao, a).Ok?
    ensures var body := Prepare(dao, a).value;
      var headers := SessionHeaders(a.sessionId);
      var (first, net1) := Post(net, FirstEndpoint(a.isCommand) + "/" + dao.databaseName, body, headers);
      var r := Dispatch(dao, net, a).0;
      && (first.Ok? ==> r == first)
      && (first.Err? && !Retryable(a, first.error) ==> r == first)
      && (first.Err? && Retryable(a, first.error) ==>
            var second := Post(net1, CommandEndpoint + "/" + dao.databaseName, body, headers).0;
            r == if second.Ok? then second else Err(RetryFailed(first.error, second.error, a.sessionId)))
  {
  }

  /** A command (`is_command=True`) is posted once, to the command endpoint, whatever happens. */
  lemma CommandPostsOnce(dao: Dao, net: Net, a: QueryArgs)
    requires a.isCommand == Some(true) && Prepare(dao, a).Ok?
    ensures var net' := Dispatch(dao, net, a).1;
      && |net'.sent| == |net.sent| + 1
      && net'.sent[|net.sent|].endpoint == CommandEndpoint + "/" + dao.databaseName
  {
    RetryOnlyOnIdempotentRejection(dao, net, a);
    Routing(dao, net, a);
  }

  /** Cypher with parameters: the posted command is the formatter's, and "params" is
      sent only when the formatter kept some back. */
  lemma CypherParamsOnlyWhenKept(dao: Dao, a: QueryArgs)
    requires Formats(a) && Valid(a)
    requires FormatSpec(dao.lexer, a.command, a.params).Ok?
    ensures var (command, kept) := FormatSpec(dao.lexer, a.command, a.params).value;
      && Prepare(dao, a).Ok?
      && Prepare(dao, a).value.command == command
      && (Prepare(dao, a).value.params.None? <==> |kept| == 0)
      && (|kept| > 0 ==> Prepare(dao, a).value.params == Some(Kept(kept)))
  {
    if !a.params.JObject? {
      FormatNonDict(dao.lexer, a.command, a.params);
    }
  }

  /** Without a lexer the scan runs on a dict, never raises, keeps nothing back, and
      "params" is dropped. */
  lemma ScanPathDropsParams(dao: Dao, a: QueryArgs)
    requires dao.lexer.None? && Formats(a) && a.params.JObject? && Valid(a)
    ensures && Substitute(a.command, a.params).Ok?
            && Prepare(dao, a) == Ok(QueryBody(Substitute(a.command, a.params).value, Lower(a.language),
                                               Limit(a), None, NormalSerializer(a.serializer)))
  {
    SubstituteDict(a.command, a.params);
  }

  /** Cypher parameters that are not a dict reach the formatter: it raises a TypeError
      for a name they refuse, the assertion for a variable they lack on the token path,
      and otherwise the command is posted without "params". */
  lemma NonDictParamsDropped(dao: Dao, a: QueryArgs)
    requires Formats(a) && !a.params.JObject? && Valid(a)
    ensures Prepare(dao, a).Err? ==>
      Prepare(dao, a).error.Foreign? && Prepare(dao, a).error.name in {MissingVariable, "TypeError"}
    ensures Prepare(dao, a).Ok? ==>
      && Prepare(dao, a).value.params.None?
      && Prepare(dao, a).value.command
         == if dao.lexer.None? then a.command else Texts(dao.lexer.value(a.command))
  {
  }

  /** The post `query("sql", q, session_id=…, is_command=True)` makes for a string `q`. */
  function SqlCommandCall(dao: Dao, q: Json, sessionId: Option<string>): Call
  {
    PostCall(CommandEndpoint + "/" + dao.databaseName,
             QueryBody(if q.JStr? then q.s else "", "sql", None, None, None),
             SessionHeaders(sessionId), false)
  }

  /** `query("sql", q, session_id=…, is_command=True)`, the form the bulk, batch and
      vector helpers use: one post to the command endpoint, whose reply is the outcome. */
  function SqlCommand(dao: Dao, net: Net, q: string, sessionId: Option<string>): (r: (Result<Json, Exc>, Net))
    ensures r.1.sent == net.sent + [SqlCommandCall(dao, JStr(q), sessionId)]
    ensures r.1.script == if net.script == [] then [] else net.script[1..]
    ensures r.0.Ok? <==> net.script != [] && net.script[0].Answer?
    ensures r.0.Ok? ==> r.0.value == net.script[0].result
    ensures r.0.Err? ==> !r.0.error.Validation?
  {
    Post(net, CommandEndpoint + "/" + dao.databaseName, QueryBody(q, "sql", None, None, None), SessionHeaders(sessionId))
  }

  /** A SQL command never fails validation and is never retried, whatever the retry flag. */
  lemma SqlCommandIsQuery(dao: Dao, net: Net, q: string, sessionId: Option<string>, retry: bool)
    ensures Dispatch(dao, net, Sql(q, sessionId, true, retry)) == SqlCommand(dao, net, q, sessionId)
  {
    var a := Sql(q, sessionId, true, retry);
    assert Lower("sql") == "sql";
    assert Prepare(dao, a) == Ok(QueryBody(q, "sql", None, None, None));
  }

  /** The call of `query` for a SQL command. */
  method Command(dao: Dao, net: Net, q: string, sessionId: Option<string>) returns (r: Result<Json, Exc>, net': Net)
    ensures (r, net') == SqlCommand(dao, net, q, sessionId)
  {
    r, net' := Query(dao, net, Sql(q, sessionId, true, true));
    SqlCommandIsQuery(dao, net, q, sessionId, true);
  }

  /** `query("sql", q, session_id=…)` with `is_command` and the retry flag left at their
      defaults (`False` and `True`), the form the delete loop and the readers use. */
  function SqlSelect(q: string, sessionId: Option<string>): QueryArgs
  {
    QueryArgs("sql", q, JNull, JNull, None, sessionId, Some(false), true)
  }

  /** The post such a query makes first: the query endpoint, since `is_command is False`. */
  function SqlQueryCall(dao: Dao, q: Json, sessionId: Option<string>): Call
  {
    PostCall(QueryEndpoint + "/" + dao.databaseName,
             QueryBody(if q.JStr? then q.s else "", "sql", None, None, None),
             SessionHeaders(sessionId), false)
  }

  /** A reply that makes such a query retry as a command: a server error classified as an
      idempotency TransactionException. */
  predicate IdempotentRejection(reply: Reply, q: string)
  {
    reply.ServerError? && var e := ParseErrorResponse(reply.data, Some(q)); e.Transaction? && e.isIdempotentError
  }

  /** The posts of such a query: to the query endpoint, and once more to the command
      endpoint after an idempotency rejection. Each post takes one reply, so the script
      shrinks whenever it is not already exhausted, and an exhausted script is an error. */
  function SqlQuery(dao: Dao, net: Net, q: string, sessionId: Option<string>): (r: (Result<Json, Exc>, Net))
    ensures r.1.sent == net.sent + [SqlQueryCall(dao, JStr(q), sessionId)]
                        + (if net.script != [] && IdempotentRejection(net.script[0], q)
                           then [SqlCommandCall(dao, JStr(q), sessionId)] else [])
    ensures net.script == [] ==> r.0.Err? && r.1.script == []
    ensures net.script != [] ==> |r.1.script| < |net.script|
    ensures net.script != [] && net.script[0].Answer? ==>
      r == (Ok(net.script[0].result), Net(net.script[1..], net.sent + [SqlQueryCall(dao, JStr(q), sessionId)]))
    ensures r.0.Err? && r.0.error.QueryParsing? ==>
      r.1 == Net(if net.script == [] then [] else net.script[1..], net.sent + [SqlQueryCall(dao, JStr(q), sessionId)])
    ensures r.0.Err? ==> !r.0.error.Validation?
    ensures r.0.Ok? ==> |r.1.sent| - |net.sent| == |net.script| - |r.1.script|
    ensures |net.sent| < |r.1.sent| <= |net.sent| + (|net.script| - |r.1.script|) + 1
  {
    Send(dao, net, SqlSelect(q, sessionId), QueryBody(q, "sql", None, None, None))
  }

  /** A SQL query with the defaults never fails validation, and is the posts above. */
  lemma SqlQueryIsQuery(dao: Dao, net: Net, q: string, sessionId: Option<string>)
    ensures Dispatch(dao, net, SqlSelect(q, sessionId)) == SqlQuery(dao, net, q, sessionId)
  {
    var a := SqlSelect(q, sessionId);
    assert Lower("sql") == "sql";
    assert Prepare(dao, a) == Ok(QueryBody(q, "sql", None, None, None));
  }

  /** However a SQL query ends, the first call it adds is the post of that query to the
      query endpoint; nothing sent before is touched. */
  lemma SqlQueryFirstCall(dao: Dao, net: Net, q: string, sessionId: Option<string>)
    ensures var net' := SqlQuery(dao, net, q, sessionId).1;
      && |net'.sent| > |net.sent|
      && net'.sent[..|net.sent|] == net.sent
      && net'.sent[|net.sent|] == SqlQueryCall(dao, JStr(q), sessionId)
  {
    var net' := SqlQuery(dao, net, q, sessionId).1;
    var tail := if net.script != [] && IdempotentRejection(net.script[0], q)
                then [SqlCommandCall(dao, JStr(q), sessionId)] else [];
    assert net'.sent == net.sent + ([SqlQueryCall(dao, JStr(q), sessionId)] + tail);
  }

  /** After an idempotency rejection the query is posted again as a command: its answer
      is the result, and its failure raises the combined TransactionException. */
  lemma SqlQueryRetriesAsCommand(dao: Dao, net: Net, q: string, sessionId: Option<string>)
    requires net.script != [] && IdempotentRejection(net.script[0], q)
    ensures var (r, net') := SqlQuery(dao, net, q, sessionId);
      var first := ParseErrorResponse(net.script[0].data, Some(q));
      var rest := net.script[1..];
      && net'.script == (if rest == [] then [] else rest[1..])
      && (rest != [] && rest[0].Answer? ==> r == Ok(rest[0].result))
      && (!(rest != [] && rest[0].Answer?) ==>
            r == Err(RetryFailed(first, Raised(if rest == [] then None else Some(rest[0]), Some(q)), sessionId)))
  {
  }

  /** The call of `query` for a SQL query. */
  method Select(dao: Dao, net: Net, q: string, sessionId: Option<string>) returns (r: Result<Json, Exc>, net': Net)
    ensures (r, net') == SqlQuery(dao, net, q, sessionId)
  {
    r, net' := Query(dao, net, SqlSelect(q, sessionId));
    SqlQueryIsQuery(dao, net, q, sessionId);
  }
}
