/** `get_records` and `get_triplets`: reads that try one query shape and fall back to
    simpler ones when the server cannot parse it. Every query goes through
    `query("sql", q, session_id=...)`, so each is a `DaoQuery.SqlQuery`. */
module DaoReads {
  import opened Wrappers
  import opened Strings
  import opened JsonValue
  import opened Exceptions
  import opened Transport
  import opened DaoQuery

  // ---------------------------------------------------------------------------
  // Python's own formatting of the optional arguments
  // ---------------------------------------------------------------------------

  /** `if where_clause:` */
  predicate HasWhere(where: Option<string>)
  {
    where.Some? && where.value != ""
  }

  /** `if limit:` */
  predicate HasLimit(limit: Option<int>)
  {
    limit.Some? && limit.value != 0
  }

  /** `f" LIMIT {limit}"` when a limit is given. */
  function LimitClause(limit: Option<int>): string
  {
    if HasLimit(limit) then " LIMIT " + IntToString(limit.value) else ""
  }

  /** `str(where_clause)`. */
  function ShowWhere(where: Option<string>): string
  {
    if where.Some? then where.value else "None"
  }

  /** `str(limit)`. */
  function ShowLimit(limit: Option<int>): string
  {
    if limit.Some? then IntToString(limit.value) else "None"
  }

  /** `repr` of a list of strings. */
  function ReprNames(names: seq<string>): string
  {
    Repr(JList(seq(|names|, k requires 0 <= k < |names| => JStr(names[k]))))
  }

  /** `str()` of an optional list of type names. */
  function ShowTypes(types: Option<seq<string>>): string
  {
    if types.Some? then ReprNames(types.value) else "None"
  }

  // ---------------------------------------------------------------------------
  // get_records
  // ---------------------------------------------------------------------------

  /** The `type_names` argument: one name, or a list whose items should be names. */
  datatype TypeNames = OneName(name: string) | Names(items: seq<Json>)

  /** `type_names` after `if isinstance(type_names, str): type_names = [type_names]`. */
  function NameList(typeNames: TypeNames): seq<Json>
  {
    match typeNames
    case OneName(name) => [JStr(name)]
    case Names(items) => items
  }

  predicate AllStrings(xs: seq<Json>)
  {
    forall k | 0 <= k < |xs| :: xs[k].JStr?
  }

  function NamesOf(xs: seq<Json>): (r: seq<string>)
    requires AllStrings(xs)
    ensures |r| == |xs|
    ensures forall k | 0 <= k < |xs| :: xs[k] == JStr(r[k])
  {
    seq(|xs|, k requires 0 <= k < |xs| => xs[k].s)
  }

  const BadTypeNames := "Type names must be a string or list of strings"

  /** `f"SELECT * FROM {type_name}"` with the optional WHERE clause. */
  function SelectFrom(typeName: string, where: Option<string>): string
  {
    "SELECT * FROM " + typeName + (if HasWhere(where) then " WHERE " + where.value else "")
  }

  /** The query for a single type. */
  function SingleQuery(typeName: string, where: Option<string>, limit: Option<int>): string
  {
    SelectFrom(typeName, where) + LimitClause(limit)
  }

  /** The UNION of the per-type selects, wrapped in a limited select when a limit is given. */
  function UnionQuery(types: seq<string>, where: Option<string>, limit: Option<int>): string
  {
    var union := Join(" UNION ", seq(|types|, k requires 0 <= k < |types| => SelectFrom(types[k], where)));
    if HasLimit(limit) then "SELECT * FROM (" + union + ") LIMIT " + IntToString(limit.value) else union
  }

  /** `max(1, limit // n)`: the limit spread over `n` types, never below one. Python's
      `//` rounds down, as Dafny's `/` does for a positive divisor. */
  function PerTypeLimit(limit: int, n: nat): (r: int)
    requires n > 0
    ensures r >= 1
    ensures limit >= n ==> r * n <= limit < (r + 1) * n
    ensures limit < n ==> r == 1
  {
    if limit / n < 1 then 1 else limit / n
  }

  /** The query the fallback sends for one of `n` types. */
  function PerTypeQuery(typeName: string, where: Option<string>, limit: Option<int>, n: nat): string
    requires n > 0
  {
    SelectFrom(typeName, where) + (if HasLimit(limit) then " LIMIT " + IntToString(PerTypeLimit(limit.value, n)) else "")
  }

  /** The fallback's queries, one per type and in the order of the types. */
  function PerTypeQueries(types: seq<string>, where: Option<string>, limit: Option<int>): (qs: seq<string>)
    requires types != []
    ensures |qs| == |types|
    ensures forall k | 0 <= k < |types| :: qs[k] == PerTypeQuery(types[k], where, limit, |types|)
  {
    seq(|types|, k requires 0 <= k < |types| => PerTypeQuery(types[k], where, limit, |types|))
  }

  /** `query("sql", q, session_id=session_id)` as a function of the client and the query. */
  function Asker(dao: Dao, sessionId: Option<string>): (ask: (Net, string) -> (Result<Json, Exc>, Net))
    ensures forall n: Net, q: string {:trigger SqlQuery(dao, n, q, sessionId)} :: ask(n, q) == SqlQuery(dao, n, q, sessionId)
  {
    (n, q) => SqlQuery(dao, n, q, sessionId)
  }

  /** The fallback loop: each query's normalised result is appended to `merged`, and a
      query that fails is skipped. */
  function Gather(ask: (Net, string) -> (Result<Json, Exc>, Net), net: Net, queries: seq<string>, merged: seq<Json>): (seq<Json>, Net)
    decreases |queries|
  {
    if queries == [] then (merged, net)
    else
      var (r, net1) := ask(net, queries[0]);
      Gather(ask, net1, queries[1..], if r.Ok? then merged + AsList(r.value) else merged)
  }

  /** `xs[:limit]`, a negative limit counting from the end as a Python slice does. */
  function Head(xs: seq<Json>, limit: int): (r: seq<Json>)
    ensures 0 <= limit <= |xs| ==> r == xs[..limit]
    ensures limit > |xs| ==> r == xs
    ensures limit < 0 ==> r == xs[..if |xs| + limit < 0 then 0 else |xs| + limit]
  {
    if limit >= 0 then (if limit <= |xs| then xs[..limit] else xs)
    else if |xs| + limit < 0 then [] else xs[..|xs| + limit]
  }

  /** `if limit and len(all_results) > limit: all_results = all_results[:limit]`. */
  function Truncated(xs: seq<Json>, limit: Option<int>): seq<Json>
  {
    if HasLimit(limit) && |xs| > limit.value then Head(xs, limit.value) else xs
  }

  /** The exception every failure inside the `try` block becomes. */
  function RecordsFailed(types: seq<string>, where: Option<string>, limit: Option<int>): Exc
  {
    QueryParsing(Plain("Failed to get records from types " + ReprNames(types)),
                 Some("get_records(" + ReprNames(types) + ", where=" + ShowWhere(where) + ", limit=" + ShowLimit(limit) + ")"))
  }

  /** The multi-type branch once the UNION has failed to parse: one query per type. */
  function Fallback(dao: Dao, net: Net, types: seq<string>, where: Option<string>, limit: Option<int>,
                    sessionId: Option<string>): (Result<seq<Json>, Exc>, Net)
    requires types != []
  {
    var (merged, net') := Gather(Asker(dao, sessionId), net, PerTypeQueries(types, where, limit), []);
    (Ok(Truncated(merged, limit)), net')
  }

  /** The single-type branch: one query, and any failure wrapped. */
  function OneType(dao: Dao, net: Net, typeName: string, where: Option<string>, limit: Option<int>,
                   sessionId: Option<string>): (Result<seq<Json>, Exc>, Net)
  {
    var (r, net1) := SqlQuery(dao, net, SingleQuery(typeName, where, limit), sessionId);
    if r.Ok? then (Ok(AsList(r.value)), net1) else (Err(RecordsFailed([typeName], where, limit)), net1)
  }

  /** The multi-type branch: the UNION, then the fallback when it does not parse. */
  function SeveralTypes(dao: Dao, net: Net, types: seq<string>, where: Option<string>, limit: Option<int>,
                        sessionId: Option<string>): (Result<seq<Json>, Exc>, Net)
    requires types != []
  {
    var (r, net1) := SqlQuery(dao, net, UnionQuery(types, where, limit), sessionId);
    if r.Ok? then (Ok(AsList(r.value)), net1)
    else if !r.error.QueryParsing? then (Err(RecordsFailed(types, where, limit)), net1)
    else Fallback(dao, net1, types, where, limit, sessionId)
  }

  /** Reference definition of `get_records(type_names, where_clause, limit, session_id)`. */
  function RecordsSpec(dao: Dao, net: Net, typeNames: TypeNames, where: Option<string>, limit: Option<int>,
                       sessionId: Option<string>): (Result<seq<Json>, Exc>, Net)
  {
    var xs := NameList(typeNames);
    if xs == [] || !AllStrings(xs) then (Err(Validation(Plain(BadTypeNames))), net)
    else
      var types := NamesOf(xs);
      if |types| == 1 then OneType(dao, net, types[0], where, limit, sessionId)
      else SeveralTypes(dao, net, types, where, limit, sessionId)
  }

  /** The names as the list of strings a caller passes. */
  function Listed(types: seq<string>): (xs: seq<Json>)
    ensures |xs| == |types|
    ensures AllStrings(xs) && NamesOf(xs) == types
  {
    seq(|types|, k requires 0 <= k < |types| => JStr(types[k]))
  }

  /** A plain string and a list of one name both take the single-type branch. */
  lemma OneNameRead(dao: Dao, net: Net, typeName: string, where: Option<string>, limit: Option<int>,
                    sessionId: Option<string>)
    ensures RecordsSpec(dao, net, OneName(typeName), where, limit, sessionId) == OneType(dao, net, typeName, where, limit, sessionId)
    ensures RecordsSpec(dao, net, Names([JStr(typeName)]), where, limit, sessionId) == OneType(dao, net, typeName, where, limit, sessionId)
  {
    assert NamesOf([JStr(typeName)]) == [typeName];
  }

  /** A list of two or more names takes the multi-type branch. */
  lemma SeveralNamesRead(dao: Dao, net: Net, types: seq<string>, where: Option<string>, limit: Option<int>,
                         sessionId: Option<string>)
    requires |types| > 1
    ensures RecordsSpec(dao, net, Names(Listed(types)), where, limit, sessionId) == SeveralTypes(dao, net, types, where, limit, sessionId)
  {
  }

  /** `Gather` with its first query taken. */
  lemma GatherStep(ask: (Net, string) -> (Result<Json, Exc>, Net), net: Net, queries: seq<string>, i: int, merged: seq<Json>)
    requires 0 <= i < |queries|
    ensures var (r, net1) := ask(net, queries[i]);
      Gather(ask, net, queries[i..], merged)
        == Gather(ask, net1, queries[i + 1..], if r.Ok? then merged + AsList(r.value) else merged)
  {
    assert queries[i..][0] == queries[i] && queries[i..][1..] == queries[i + 1..];
  }

  /** The body of the fallback loop that builds one type's query. */
  method TypeQuery(typeName: string, where: Option<string>, limit: Option<int>, n: nat) returns (q: string)
    requires n > 0
    ensures q == PerTypeQuery(typeName, where, limit, n)
  {
    q := SelectFrom(typeName, where);
    if HasLimit(limit) {
      var perType := if limit.value / n < 1 then 1 else limit.value / n;
      q := q + " LIMIT " + IntToString(perType);
    }
  }

  /** The loop of the fallback, extending `all_results`; `ask` stands for the queries it
      makes. */
  method QueryEach(dao: Dao, net: Net, types: seq<string>, where: Option<string>, limit: Option<int>,
                   sessionId: Option<string>, ghost ask: (Net, string) -> (Result<Json, Exc>, Net))
    returns (merged: seq<Json>, net': Net)
    requires types != []
    requires forall n: Net, q: string {:trigger SqlQuery(dao, n, q, sessionId)} :: ask(n, q) == SqlQuery(dao, n, q, sessionId)
    ensures (merged, net') == Gather(ask, net, PerTypeQueries(types, where, limit), [])
  {
    ghost var queries := PerTypeQueries(types, where, limit);
    merged, net' := [], net;
    assert queries[0..] == queries;
    for i := 0 to |types|
      invariant Gather(ask, net, queries, []) == Gather(ask, net', queries[i..], merged)
    {
      var q := TypeQuery(types[i], where, limit, |types|);
      GatherStep(ask, net', queries, i, merged);
      var result;
      result, net' := Select(dao, net', q, sessionId);
      if result.Ok? {
        merged := merged + AsList(result.value);
      }
    }
    assert queries[|queries|..] == [];
  }

  /** The single-type branch of `get_records`. */
  method ReadOneType(dao: Dao, net: Net, typeName: string, where: Option<string>, limit: Option<int>,
                     sessionId: Option<string>)
    returns (r: Result<seq<Json>, Exc>, net': Net)
    ensures (r, net') == OneType(dao, net, typeName, where, limit, sessionId)
  {
    var query := SelectFrom(typeName, where) + LimitClause(limit);
    var result;
    result, net' := Select(dao, net, query, sessionId);
    if result.Ok? {
      return Ok(AsList(result.value)), net';
    }
    return Err(RecordsFailed([typeName], where, limit)), net';
  }

  /** The multi-type branch of `get_records`. */
  method ReadSeveralTypes(dao: Dao, net: Net, types: seq<string>, where: Option<string>, limit: Option<int>,
                          sessionId: Option<string>)
    returns (r: Result<seq<Json>, Exc>, net': Net)
    requires types != []
    ensures (r, net') == SeveralTypes(dao, net, types, where, limit, sessionId)
  {
    var result, net1 := Select(dao, net, UnionQuery(types, where, limit), sessionId);
    if result.Ok? {
      return Ok(AsList(result.value)), net1;
    }
    if !result.error.QueryParsing? {
      return Err(RecordsFailed(types, where, limit)), net1;
    }
    var merged;
    merged, net' := QueryEach(dao, net1, types, where, limit, sessionId, Asker(dao, sessionId));
    r := Ok(Truncated(merged, limit));
  }

  /** `get_records(type_names, where_clause, limit, session_id)`. */
  method GetRecords(dao: Dao, net: Net, typeNames: TypeNames, where: Option<string>, limit: Option<int>,
                    sessionId: Option<string>)
    returns (r: Result<seq<Json>, Exc>, net': Net)
    ensures (r, net') == RecordsSpec(dao, net, typeNames, where, limit, sessionId)
  {
    var xs := NameList(typeNames);
    if xs == [] || !AllStrings(xs) {
      return Err(Validation(Plain(BadTypeNames))), net;
    }
    var types := NamesOf(xs);
    if |types| == 1 {
      r, net' := ReadOneType(dao, net, types[0], where, limit, sessionId);
    } else {
      r, net' := ReadSeveralTypes(dao, net, types, where, limit, sessionId);
    }
  }

  // ---------------------------------------------------------------------------
  // Properties of get_records
  // ---------------------------------------------------------------------------

  /** An empty list or one holding a non-string is refused before any query. */
  lemma RecordsValidateFirst(dao: Dao, net: Net, typeNames: TypeNames, where: Option<string>, limit: Option<int>,
                             sessionId: Option<string>)
    requires NameList(typeNames) == [] || !AllStrings(NameList(typeNames))
    ensures RecordsSpec(dao, net, typeNames, where, limit, sessionId) == (Err(Validation(Plain(BadTypeNames))), net)
  {
  }

  /** A single type is read with one query, its first call; any failure of that query
      becomes the wrapping QueryParsingException. */
  lemma SingleTypeOneQuery(dao: Dao, net: Net, typeName: string, where: Option<string>, limit: Option<int>,
                           sessionId: Option<string>)
    ensures var (r, net') := OneType(dao, net, typeName, where, limit, sessionId);
      var (q, netq) := SqlQuery(dao, net, SingleQuery(typeName, where, limit), sessionId);
      && net' == netq
      && net'.sent[..|net.sent|] == net.sent
      && net'.sent[|net.sent|] == SqlQueryCall(dao, JStr(SingleQuery(typeName, where, limit)), sessionId)
      && (q.Ok? ==> r == Ok(AsList(q.value)))
      && (q.Err? ==> r == Err(RecordsFailed([typeName], where, limit)))
  {
    SqlQueryFirstCall(dao, net, SingleQuery(typeName, where, limit), sessionId);
  }

  /** Several types are tried first as one UNION: it is the first call, whatever follows. */
  lemma UnionTriedFirst(dao: Dao, net: Net, types: seq<string>, where: Option<string>, limit: Option<int>,
                        sessionId: Option<string>)
    requires types != []
    ensures var net' := SeveralTypes(dao, net, types, where, limit, sessionId).1;
      && |net'.sent| > |net.sent|
      && net'.sent[..|net.sent|] == net.sent
      && net'.sent[|net.sent|] == SqlQueryCall(dao, JStr(UnionQuery(types, where, limit)), sessionId)
  {
    var u := UnionQuery(types, where, limit);
    SqlQueryFirstCall(dao, net, u, sessionId);
    var (q, net1) := SqlQuery(dao, net, u, sessionId);
    if q.Err? && q.error.QueryParsing? {
      var net2 := Fallback(dao, net1, types, where, limit, sessionId).1;
      FallbackKeepsSent(dao, net1, types, where, limit, sessionId);
      assert net2.sent[..|net.sent|] == net2.sent[..|net1.sent|][..|net.sent|];
      assert net2.sent[|net.sent|] == net2.sent[..|net1.sent|][|net.sent|];
    }
  }

  /** An answered UNION is the result, normalised, and the only call. */
  lemma UnionAnswered(dao: Dao, net: Net, types: seq<string>, where: Option<string>, limit: Option<int>,
                      sessionId: Option<string>)
    requires types != []
    requires net.script != [] && net.script[0].Answer?
    ensures SeveralTypes(dao, net, types, where, limit, sessionId)
         == (Ok(AsList(net.script[0].result)),
             Net(net.script[1..], net.sent + [SqlQueryCall(dao, JStr(UnionQuery(types, where, limit)), sessionId)]))
  {
  }

  /** Only a parsing failure of the UNION leads to the per-type queries: any other failure
      is reported at once as the wrapping exception, with no further call, and a parsing
      failure hands over to the fallback. */
  lemma UnionFailure(dao: Dao, net: Net, types: seq<string>, where: Option<string>, limit: Option<int>,
                     sessionId: Option<string>)
    requires types != []
    requires SqlQuery(dao, net, UnionQuery(types, where, limit), sessionId).0.Err?
    ensures var (q, net1) := SqlQuery(dao, net, UnionQuery(types, where, limit), sessionId);
      SeveralTypes(dao, net, types, where, limit, sessionId)
        == if q.error.QueryParsing? then Fallback(dao, net1, types, where, limit, sessionId)
           else (Err(RecordsFailed(types, where, limit)), net1)
  {
  }

  /** The per-type fallback never fails, and a positive limit bounds what it returns. */
  lemma FallbackBounded(dao: Dao, net: Net, types: seq<string>, where: Option<string>, limit: Option<int>,
                        sessionId: Option<string>)
    requires types != []
    ensures var r := Fallback(dao, net, types, where, limit, sessionId).0;
      r.Ok? && (HasLimit(limit) && limit.value > 0 ==> |r.value| <= limit.value)
  {
  }

  /** The fallback keeps the calls already sent and adds at least one per type. */
  lemma FallbackKeepsSent(dao: Dao, net: Net, types: seq<string>, where: Option<string>, limit: Option<int>,
                          sessionId: Option<string>)
    requires types != []
    ensures var net' := Fallback(dao, net, types, where, limit, sessionId).1;
      |net'.sent| >= |net.sent| + |types| && net'.sent[..|net.sent|] == net.sent
  {
    GatherKeepsSent(dao, net, PerTypeQueries(types, where, limit), sessionId, []);
  }

  /** The fallback loop only appends: it keeps the calls already sent and adds at least
      one per query. */
  lemma {:induction false} GatherKeepsSent(dao: Dao, net: Net, queries: seq<string>, sessionId: Option<string>,
                                           merged: seq<Json>)
    ensures var net' := Gather(Asker(dao, sessionId), net, queries, merged).1;
      |net'.sent| >= |net.sent| + |queries| && net'.sent[..|net.sent|] == net.sent
    decreases |queries|
  {
    if queries != [] {
      var (r, net1) := SqlQuery(dao, net, queries[0], sessionId);
      var m := if r.Ok? then merged + AsList(r.value) else merged;
      assert Gather(Asker(dao, sessionId), net, queries, merged) == Gather(Asker(dao, sessionId), net1, queries[1..], m);
      GatherKeepsSent(dao, net1, queries[1..], sessionId, m);
      var net2 := Gather(Asker(dao, sessionId), net1, queries[1..], m).1;
      assert net2.sent[..|net.sent|] == net2.sent[..|net1.sent|][..|net.sent|];
    }
  }

  /** The records the answers among `replies` carry, in order. */
  function Merged(replies: seq<Reply>): seq<Json>
  {
    if replies == [] then [] else (if replies[0].Answer? then AsList(replies[0].result) else []) + Merged(replies[1..])
  }

  /** `Merged` of a prefix, its first reply taken. */
  lemma MergedStep(script: seq<Reply>, n: int)
    requires 0 < n <= |script|
    ensures Merged(script[..n]) == (if script[0].Answer? then AsList(script[0].result) else []) + Merged(script[1..][..n - 1])
  {
    assert script[..n][1..] == script[1..][..n - 1];
  }

  /** A query function that, when the next reply is an answer, returns that answer and
      makes the single call `call(q)`. */
  ghost predicate AnswersInTurn(ask: (Net, string) -> (Result<Json, Exc>, Net), call: string -> Call)
  {
    forall n: Net, q: string {:trigger ask(n, q), call(q)} | n.script != [] && n.script[0].Answer? ::
      ask(n, q) == (Ok(n.script[0].result), Net(n.script[1..], n.sent + [call(q)]))
  }

  /** The call of each query, in order. */
  function Calls(call: string -> Call, queries: seq<string>): (calls: seq<Call>)
    ensures |calls| == |queries|
  {
    if queries == [] then [] else [call(queries[0])] + Calls(call, queries[1..])
  }

  /** The post `query` makes for a SQL query. */
  function SqlCall(dao: Dao, sessionId: Option<string>): string -> Call
  {
    q => SqlQueryCall(dao, JStr(q), sessionId)
  }

  /** When the server answers every query of the fallback loop, it sends exactly one call
      per query, in order, and merges the answers in that order. */
  lemma {:induction false} GatherAnswered(ask: (Net, string) -> (Result<Json, Exc>, Net), call: string -> Call,
                                          net: Net, queries: seq<string>, merged: seq<Json>)
    requires AnswersInTurn(ask, call)
    requires |net.script| >= |queries|
    requires forall k | 0 <= k < |queries| :: net.script[k].Answer?
    ensures Gather(ask, net, queries, merged)
         == (merged + Merged(net.script[..|queries|]), Net(net.script[|queries|..], net.sent + Calls(call, queries)))
    decreases |queries|
  {
    if queries == [] {
      assert net.script[..0] == [] && Merged([]) == [] && merged + [] == merged;
      assert net.script[0..] == net.script && Calls(call, []) == [] && net.sent + [] == net.sent;
    } else {
      var n := |queries|;
      var net1 := Net(net.script[1..], net.sent + [call(queries[0])]);
      var m := merged + AsList(net.script[0].result);
      assert Gather(ask, net, queries, merged) == Gather(ask, net1, queries[1..], m) by {
        assert ask(net, queries[0]) == (Ok(net.script[0].result), net1);
      }
      assert forall k | 0 <= k < n - 1 :: net1.script[k].Answer? by {
        forall k | 0 <= k < n - 1 ensures net1.script[k].Answer? {
          assert net1.script[k] == net.script[k + 1];
        }
      }
      GatherAnswered(ask, call, net1, queries[1..], m);
      var rest := Gather(ask, net1, queries[1..], m);
      assert rest.0 == merged + Merged(net.script[..n]) by {
        MergedStep(net.script, n);
        assert (merged + AsList(net.script[0].result)) + Merged(net1.script[..n - 1])
            == merged + (AsList(net.script[0].result) + Merged(net1.script[..n - 1]));
      }
      assert rest.1.script == net.script[n..] by {
        assert net1.script[n - 1..] == net.script[n..];
      }
      assert rest.1.sent == net.sent + Calls(call, queries) by {
        var tail := Calls(call, queries[1..]);
        assert Calls(call, queries) == [call(queries[0])] + tail;
        assert (net.sent + [call(queries[0])]) + tail == net.sent + ([call(queries[0])] + tail);
      }
    }
  }

  /** The fallback as a whole when every type's query is answered: one call per type and
      the answers merged in the order of the types, then cut to the limit. */
  lemma FallbackAnswered(dao: Dao, net: Net, types: seq<string>, where: Option<string>, limit: Option<int>,
                         sessionId: Option<string>)
    requires types != []
    requires |net.script| >= |types|
    requires forall k | 0 <= k < |types| :: net.script[k].Answer?
    ensures Fallback(dao, net, types, where, limit, sessionId)
         == (Ok(Truncated(Merged(net.script[..|types|]), limit)),
             Net(net.script[|types|..], net.sent + Calls(SqlCall(dao, sessionId), PerTypeQueries(types, where, limit))))
  {
    var ask := Asker(dao, sessionId);
    var call := SqlCall(dao, sessionId);
    forall n: Net, q: string | n.script != [] && n.script[0].Answer?
      ensures ask(n, q) == (Ok(n.script[0].result), Net(n.script[1..], n.sent + [call(q)]))
    {
      assert ask(n, q) == SqlQuery(dao, n, q, sessionId);
    }
    GatherAnswered(ask, call, net, PerTypeQueries(types, where, limit), []);
    assert [] + Merged(net.script[..|types|]) == Merged(net.script[..|types|]);
  }

  // ---------------------------------------------------------------------------
  // get_triplets
  // ---------------------------------------------------------------------------

  /** The type filter lists as `if subject_types:` reads them: an absent list is empty. */
  function TypesOf(types: Option<seq<string>>): seq<string>
  {
    if types.Some? then types.value else []
  }

  /** `" OR ".join([f"{prefix}@class = '{t}'" for t in types])`. */
  function ClassFilter(prefix: string, types: seq<string>): string
  {
    Join(" OR ", seq(|types|, k requires 0 <= k < |types| => prefix + "@class = '" + types[k] + "'"))
  }

  /** The parenthesised condition for one role, when its list is not empty. */
  function RoleCondition(role: string, types: seq<string>): seq<string>
  {
    if types != [] then ["(" + ClassFilter(role + ".", types) + ")"] else []
  }

  const MatchPattern := "MATCH {class: V, as: subject}-{class: E, as: relation}-{class: V, as: object}"

  /** The MATCH query of the first approach. */
  function MatchQuery(subjects: seq<string>, relations: seq<string>, objects: seq<string>, limit: Option<int>): string
  {
    var conditions := RoleCondition("subject", subjects) + RoleCondition("relation", relations) + RoleCondition("object", objects);
    MatchPattern + (if conditions != [] then " WHERE " + Join(" AND ", conditions) else "")
      + " RETURN subject, relation, object" + LimitClause(limit)
  }

  /** The edge-class condition of the second and third approaches. */
  function EdgeFilter(relations: seq<string>): string
  {
    if relations != [] then " WHERE (" + ClassFilter("", relations) + ")" else ""
  }

  /** The edge traversal query of the second approach. */
  function TraversalQuery(relations: seq<string>, limit: Option<int>): string
  {
    "SELECT *, in() as subject, out() as object FROM E" + EdgeFilter(relations) + LimitClause(limit)
  }

  /** The plain edge listing of the third approach. */
  function ListingQuery(relations: seq<string>, limit: Option<int>): string
  {
    "SELECT * FROM E" + EdgeFilter(relations) + LimitClause(limit)
  }

  /** `edges if isinstance(edges, list) else [edges]`. */
  function Items(v: Json): seq<Json>
  {
    if v.JList? then v.items else [v]
  }

  /** `{'subject': s, 'relation': r, 'object': o}`. */
  function Triplet(subject: Json, relation: Json, obj: Json): Json
  {
    JObject([("subject", subject), ("relation", relation), ("object", obj)])
  }

  /** Whether `v.get('@class')` is one of `types`. */
  predicate ClassIn(v: Json, types: seq<string>)
    requires v.JObject?
  {
    var c := Lookup(v.fields, "@class");
    c.Some? && c.value.JStr? && c.value.s in types
  }

  /** `types and v and v.get('@class') not in types`: Some(true) skips the edge, Some(false)
      keeps it, and None is the AttributeError of `.get` on a truthy value that is not a
      dict. */
  function Skips(types: seq<string>, v: Json): (r: Option<bool>)
    ensures r == None <==> types != [] && Truthy(v) && !v.JObject?
    ensures r == Some(true) <==> types != [] && Truthy(v) && v.JObject? && !ClassIn(v, types)
  {
    if types == [] || !Truthy(v) then Some(false)
    else if !v.JObject? then None
    else Some(!ClassIn(v, types))
  }

  /** The loop of the second approach over `edges`, appending to `triplets`; None when
      the loop raises. */
  function Traverse(edges: seq<Json>, subjects: seq<string>, objects: seq<string>, triplets: seq<Json>): Option<seq<Json>>
    decreases |edges|
  {
    if edges == [] then Some(triplets)
    else
      var edge := edges[0];
      if !edge.JObject? then Traverse(edges[1..], subjects, objects, triplets)
      else
        var subject := GetOr(edge.fields, "subject", JNull);
        var obj := GetOr(edge.fields, "object", JNull);
        match Skips(subjects, subject)
        case None => None
        case Some(true) => Traverse(edges[1..], subjects, objects, triplets)
        case Some(false) =>
          match Skips(objects, obj)
          case None => None
          case Some(true) => Traverse(edges[1..], subjects, objects, triplets)
          case Some(false) =>
            var relation := JObject(Without(edge.fields, ["subject", "object"]));
            Traverse(edges[1..], subjects, objects, triplets + [Triplet(subject, relation, obj)])
  }

  /** What the second approach makes of the reply to its query: no triplets for a falsy
      reply, and None when the loop raises. */
  function Traversed(edges: Json, subjects: seq<string>, objects: seq<string>): Option<seq<Json>>
  {
    if !Truthy(edges) then Some([]) else Traverse(Items(edges), subjects, objects, [])
  }

  /** The triplet the third approach makes of an edge: its endpoints' rids and the edge. */
  function RawTriplet(fields: seq<(string, Json)>): Json
  {
    Triplet(JObject([("@rid", GetOr(fields, "in", GetOr(fields, "@in", JNull)))]),
            JObject(fields),
            JObject([("@rid", GetOr(fields, "out", GetOr(fields, "@out", JNull)))]))
  }

  /** The loop of the third approach: one triplet per dict edge, in order. */
  function Listing(edges: seq<Json>): seq<Json>
  {
    if edges == [] then []
    else (if edges[0].JObject? then [RawTriplet(edges[0].fields)] else []) + Listing(edges[1..])
  }

  /** The exception every failure of the outer `try` becomes. */
  function TripletsFailed(subjects: Option<seq<string>>, relations: Option<seq<string>>, objects: Option<seq<string>>): Exc
  {
    QueryParsing(Plain("Failed to get triplets"),
                 Some("get_triplets(subjects=" + ShowTypes(subjects) + ", relations=" + ShowTypes(relations)
                      + ", objects=" + ShowTypes(objects) + ")"))
  }

  /** The second approach: the traversal query and its loop; None when either fails. */
  function Traversal(dao: Dao, net: Net, subjects: Option<seq<string>>, relations: Option<seq<string>>,
                     objects: Option<seq<string>>, limit: Option<int>, sessionId: Option<string>)
    : (Option<seq<Json>>, Net)
  {
    var (edges, net1) := SqlQuery(dao, net, TraversalQuery(TypesOf(relations), limit), sessionId);
    (if edges.Err? then None else Traversed(edges.value, TypesOf(subjects), TypesOf(objects)), net1)
  }

  /** The third approach: the plain listing, whose failure is reported. */
  function ListingApproach(dao: Dao, net: Net, subjects: Option<seq<string>>, relations: Option<seq<string>>,
                           objects: Option<seq<string>>, limit: Option<int>, sessionId: Option<string>)
    : (Result<seq<Json>, Exc>, Net)
  {
    var (raw, net1) := SqlQuery(dao, net, ListingQuery(TypesOf(relations), limit), sessionId);
    if raw.Err? then (Err(TripletsFailed(subjects, relations, objects)), net1)
    else (Ok(Listing(Items(raw.value))), net1)
  }

  /** The second and third approaches, after the MATCH query failed to parse. */
  function EdgeApproaches(dao: Dao, net: Net, subjects: Option<seq<string>>, relations: Option<seq<string>>,
                          objects: Option<seq<string>>, limit: Option<int>, sessionId: Option<string>)
    : (Result<seq<Json>, Exc>, Net)
  {
    var (traversed, net1) := Traversal(dao, net, subjects, relations, objects, limit, sessionId);
    if traversed.Some? then (Ok(traversed.value), net1)
    else ListingApproach(dao, net1, subjects, relations, objects, limit, sessionId)
  }

  /** Reference definition of `get_triplets(subject_types, relation_types, object_types, limit, session_id)`. */
  function TripletsSpec(dao: Dao, net: Net, subjects: Option<seq<string>>, relations: Option<seq<string>>,
                        objects: Option<seq<string>>, limit: Option<int>, sessionId: Option<string>)
    : (Result<seq<Json>, Exc>, Net)
  {
    var (matched, net1) := SqlQuery(dao, net, MatchQuery(TypesOf(subjects), TypesOf(relations), TypesOf(objects), limit), sessionId);
    if matched.Ok? then (Ok(AsList(matched.value)), net1)
    else if !matched.error.QueryParsing? then (Err(TripletsFailed(subjects, relations, objects)), net1)
    else EdgeApproaches(dao, net1, subjects, relations, objects, limit, sessionId)
  }

  /** `Traverse` with one more edge taken. */
  lemma TraverseStep(edges: seq<Json>, i: int, subjects: seq<string>, objects: seq<string>, triplets: seq<Json>)
    requires 0 <= i < |edges|
    ensures Traverse(edges[i..], subjects, objects, triplets)
         == if !edges[i].JObject? then Traverse(edges[i + 1..], subjects, objects, triplets)
            else
              var subject := GetOr(edges[i].fields, "subject", JNull);
              var obj := GetOr(edges[i].fields, "object", JNull);
              match Skips(subjects, subject)
              case None => None
              case Some(true) => Traverse(edges[i + 1..], subjects, objects, triplets)
              case Some(false) =>
                match Skips(objects, obj)
                case None => None
                case Some(true) => Traverse(edges[i + 1..], subjects, objects, triplets)
                case Some(false) =>
                  Traverse(edges[i + 1..], subjects, objects,
                           triplets + [Triplet(subject, JObject(Without(edges[i].fields, ["subject", "object"])), obj)])
  {
    assert edges[i..][0] == edges[i] && edges[i..][1..] == edges[i + 1..];
  }

  /** The loop of the second approach as written; None stands for the exception that
      ends it. */
  method TraverseEdges(edges: seq<Json>, subjects: seq<string>, objects: seq<string>) returns (r: Option<seq<Json>>)
    ensures r == Traverse(edges, subjects, objects, [])
  {
    var triplets: seq<Json> := [];
    assert edges[0..] == edges;
    for i := 0 to |edges|
      invariant Traverse(edges, subjects, objects, []) == Traverse(edges[i..], subjects, objects, triplets)
    {
      TraverseStep(edges, i, subjects, objects, triplets);
      var edge := edges[i];
      if !edge.JObject? {
        continue;
      }
      var subject := GetOr(edge.fields, "subject", JNull);
      var relation := JObject(Without(edge.fields, ["subject", "object"]));
      var obj := GetOr(edge.fields, "object", JNull);
      if subjects != [] && Truthy(subject) {
        if !subject.JObject? {
          return None;
        }
        if !ClassIn(subject, subjects) {
          continue;
        }
      }
      if objects != [] && Truthy(obj) {
        if !obj.JObject? {
          return None;
        }
        if !ClassIn(obj, objects) {
          continue;
        }
      }
      triplets := triplets + [Triplet(subject, relation, obj)];
    }
    assert edges[|edges|..] == [];
    return Some(triplets);
  }

  /** `Listing` with one more edge taken. */
  lemma ListingStep(edges: seq<Json>, i: int)
    requires 0 <= i < |edges|
    ensures Listing(edges[i..]) == (if edges[i].JObject? then [RawTriplet(edges[i].fields)] else []) + Listing(edges[i + 1..])
  {
    assert edges[i..][0] == edges[i] && edges[i..][1..] == edges[i + 1..];
  }

  lemma Associates<T>(a: seq<T>, b: seq<T>, c: seq<T>)
    ensures a + b + c == a + (b + c)
  {
  }

  /** The listing so far, one more edge taken. */
  lemma ListingAdvance(edges: seq<Json>, i: int, triplets: seq<Json>)
    requires 0 <= i < |edges|
    requires Listing(edges) == triplets + Listing(edges[i..])
    ensures Listing(edges) == triplets + (if edges[i].JObject? then [RawTriplet(edges[i].fields)] else []) + Listing(edges[i + 1..])
  {
    ListingStep(edges, i);
    Associates(triplets, if edges[i].JObject? then [RawTriplet(edges[i].fields)] else [], Listing(edges[i + 1..]));
  }

  /** The loop of the third approach as written. */
  method ListEdges(edges: seq<Json>) returns (triplets: seq<Json>)
    ensures triplets == Listing(edges)
  {
    triplets := [];
    assert edges[0..] == edges;
    for i := 0 to |edges|
      invariant Listing(edges) == triplets + Listing(edges[i..])
    {
      ListingAdvance(edges, i, triplets);
      var edge := edges[i];
      if edge.JObject? {
        var subject := JObject([("@rid", GetOr(edge.fields, "in", GetOr(edge.fields, "@in", JNull)))]);
        var obj := JObject([("@rid", GetOr(edge.fields, "out", GetOr(edge.fields, "@out", JNull)))]);
        assert Triplet(subject, edge, obj) == RawTriplet(edge.fields);
        triplets := triplets + [Triplet(subject, edge, obj)];
      } else {
        assert triplets + [] == triplets;
      }
    }
    assert edges[|edges|..] == [];
  }

  /** The second approach as written. */
  method TraverseStage(dao: Dao, net: Net, subjects: Option<seq<string>>, relations: Option<seq<string>>,
                       objects: Option<seq<string>>, limit: Option<int>, sessionId: Option<string>)
    returns (traversed: Option<seq<Json>>, net': Net)
    ensures (traversed, net') == Traversal(dao, net, subjects, relations, objects, limit, sessionId)
  {
    var edges;
    edges, net' := Select(dao, net, TraversalQuery(TypesOf(relations), limit), sessionId);
    if edges.Err? {
      return None, net';
    }
    if !Truthy(edges.value) {
      return Some([]), net';
    }
    traversed := TraverseEdges(Items(edges.value), TypesOf(subjects), TypesOf(objects));
  }

  /** The third approach as written. */
  method ListStage(dao: Dao, net: Net, subjects: Option<seq<string>>, relations: Option<seq<string>>,
                   objects: Option<seq<string>>, limit: Option<int>, sessionId: Option<string>)
    returns (r: Result<seq<Json>, Exc>, net': Net)
    ensures (r, net') == ListingApproach(dao, net, subjects, relations, objects, limit, sessionId)
  {
    var raw;
    raw, net' := Select(dao, net, ListingQuery(TypesOf(relations), limit), sessionId);
    if raw.Err? {
      return Err(TripletsFailed(subjects, relations, objects)), net';
    }
    var triplets := ListEdges(Items(raw.value));
    r := Ok(triplets);
  }

  /** The second and third approaches as written. */
  method TryEdges(dao: Dao, net: Net, subjects: Option<seq<string>>, relations: Option<seq<string>>,
                  objects: Option<seq<string>>, limit: Option<int>, sessionId: Option<string>)
    returns (r: Result<seq<Json>, Exc>, net': Net)
    ensures (r, net') == EdgeApproaches(dao, net, subjects, relations, objects, limit, sessionId)
  {
    var traversed, net1 := TraverseStage(dao, net, subjects, relations, objects, limit, sessionId);
    if traversed.Some? {
      return Ok(traversed.value), net1;
    }
    r, net' := ListStage(dao, net1, subjects, relations, objects, limit, sessionId);
  }

  /** `get_triplets(subject_types, relation_types, object_types, limit, session_id)`. */
  method GetTriplets(dao: Dao, net: Net, subjects: Option<seq<string>>, relations: Option<seq<string>>,
                     objects: Option<seq<string>>, limit: Option<int>, sessionId: Option<string>)
    returns (r: Result<seq<Json>, Exc>, net': Net)
    ensures (r, net') == TripletsSpec(dao, net, subjects, relations, objects, limit, sessionId)
  {
    var query := MatchQuery(TypesOf(subjects), TypesOf(relations), TypesOf(objects), limit);
    var matched, net1 := Select(dao, net, query, sessionId);
    if matched.Ok? {
      return Ok(AsList(matched.value)), net1;
    }
    if !matched.error.QueryParsing? {
      return Err(TripletsFailed(subjects, relations, objects)), net1;
    }
    r, net' := TryEdges(dao, net1, subjects, relations, objects, limit, sessionId);
  }

  // ---------------------------------------------------------------------------
  // Properties of get_triplets
  // ---------------------------------------------------------------------------

  /** The MATCH query is the first call; an answer to it is the result, normalised, and
      the only call; and a failure that is not a parsing failure is reported at once as
      the wrapping exception. */
  lemma MatchTriedFirst(dao: Dao, net: Net, subjects: Option<seq<string>>, relations: Option<seq<string>>,
                        objects: Option<seq<string>>, limit: Option<int>, sessionId: Option<string>)
    ensures var q := MatchQuery(TypesOf(subjects), TypesOf(relations), TypesOf(objects), limit);
      var (matched, net1) := SqlQuery(dao, net, q, sessionId);
      var (r, net') := TripletsSpec(dao, net, subjects, relations, objects, limit, sessionId);
      && |net'.sent| > |net.sent|
      && net'.sent[..|net.sent|] == net.sent
      && net'.sent[|net.sent|] == SqlQueryCall(dao, JStr(q), sessionId)
      && (matched.Ok? ==> r == Ok(AsList(matched.value)) && net' == net1)
      && (matched.Err? && !matched.error.QueryParsing? ==> r == Err(TripletsFailed(subjects, relations, objects)) && net' == net1)
  {
    TripletsKeepSent(dao, net, subjects, relations, objects, limit, sessionId);
  }

  /** `get_triplets` keeps the calls already sent, and the MATCH query is the first it adds. */
  lemma TripletsKeepSent(dao: Dao, net: Net, subjects: Option<seq<string>>, relations: Option<seq<string>>,
                         objects: Option<seq<string>>, limit: Option<int>, sessionId: Option<string>)
    ensures var net' := TripletsSpec(dao, net, subjects, relations, objects, limit, sessionId).1;
      && |net'.sent| > |net.sent|
      && net'.sent[..|net.sent|] == net.sent
      && net'.sent[|net.sent|] == SqlQueryCall(dao, JStr(MatchQuery(TypesOf(subjects), TypesOf(relations), TypesOf(objects), limit)), sessionId)
  {
    var q := MatchQuery(TypesOf(subjects), TypesOf(relations), TypesOf(objects), limit);
    SqlQueryFirstCall(dao, net, q, sessionId);
    var (matched, net1) := SqlQuery(dao, net, q, sessionId);
    if matched.Err? && matched.error.QueryParsing? {
      EdgesKeepSent(dao, net1, subjects, relations, objects, limit, sessionId);
      var net2 := EdgeApproaches(dao, net1, subjects, relations, objects, limit, sessionId).1;
      assert net2.sent[..|net.sent|] == net2.sent[..|net1.sent|][..|net.sent|];
      assert net2.sent[|net.sent|] == net2.sent[..|net1.sent|][|net.sent|];
    }
  }

  /** The edge approaches keep the calls already sent, and the traversal query is the
      first they add. */
  lemma EdgesKeepSent(dao: Dao, net: Net, subjects: Option<seq<string>>, relations: Option<seq<string>>,
                      objects: Option<seq<string>>, limit: Option<int>, sessionId: Option<string>)
    ensures var net' := EdgeApproaches(dao, net, subjects, relations, objects, limit, sessionId).1;
      && |net'.sent| > |net.sent|
      && net'.sent[..|net.sent|] == net.sent
      && net'.sent[|net.sent|] == SqlQueryCall(dao, JStr(TraversalQuery(TypesOf(relations), limit)), sessionId)
  {
    var q := TraversalQuery(TypesOf(relations), limit);
    SqlQueryFirstCall(dao, net, q, sessionId);
    var net1 := Traversal(dao, net, subjects, relations, objects, limit, sessionId).1;
    assert net1 == SqlQuery(dao, net, q, sessionId).1;
    var l := ListingQuery(TypesOf(relations), limit);
    SqlQueryFirstCall(dao, net1, l, sessionId);
    var net2 := ListingApproach(dao, net1, subjects, relations, objects, limit, sessionId).1;
    assert net2 == SqlQuery(dao, net1, l, sessionId).1;
    assert net2.sent[..|net.sent|] == net2.sent[..|net1.sent|][..|net.sent|];
    assert net2.sent[|net.sent|] == net2.sent[..|net1.sent|][|net.sent|];
  }

  /** Any failure of the traversal, of its query or of its loop, hands over to the plain
      edge listing; only a failure of the listing query is reported. */
  lemma TraversalFailureLists(dao: Dao, net: Net, subjects: Option<seq<string>>, relations: Option<seq<string>>,
                              objects: Option<seq<string>>, limit: Option<int>, sessionId: Option<string>)
    requires var (edges, _) := SqlQuery(dao, net, TraversalQuery(TypesOf(relations), limit), sessionId);
      edges.Err? || Traversed(edges.value, TypesOf(subjects), TypesOf(objects)) == None
    ensures var net1 := SqlQuery(dao, net, TraversalQuery(TypesOf(relations), limit), sessionId).1;
      var (raw, net2) := SqlQuery(dao, net1, ListingQuery(TypesOf(relations), limit), sessionId);
      EdgeApproaches(dao, net, subjects, relations, objects, limit, sessionId)
        == (if raw.Err? then Err(TripletsFailed(subjects, relations, objects)) else Ok(Listing(Items(raw.value))), net2)
  {
  }

  /** The traversal returns no triplets, and sends nothing more, for a falsy answer. */
  lemma FalsyEdgesNoTriplets(dao: Dao, net: Net, subjects: Option<seq<string>>, relations: Option<seq<string>>,
                             objects: Option<seq<string>>, limit: Option<int>, sessionId: Option<string>)
    requires net.script != [] && net.script[0].Answer? && !Truthy(net.script[0].result)
    ensures EdgeApproaches(dao, net, subjects, relations, objects, limit, sessionId)
         == (Ok([]), Net(net.script[1..], net.sent + [SqlQueryCall(dao, JStr(TraversalQuery(TypesOf(relations), limit)), sessionId)]))
  {
  }

  /** A value that passes the filter of one role: no filter, a falsy value, or a dict whose
      `@class` is listed. */
  predicate Admitted(types: seq<string>, v: Json)
  {
    types == [] || !Truthy(v) || (v.JObject? && ClassIn(v, types))
  }

  /** What a traversal triplet is: a dict of the three roles, in that order, whose subject
      and object pass their filters and whose relation is a dict without those two keys. */
  predicate Admissible(t: Json, subjects: seq<string>, objects: seq<string>)
  {
    && t.JObject? && |t.fields| == 3
    && t.fields[0].0 == "subject" && t.fields[1].0 == "relation" && t.fields[2].0 == "object"
    && Admitted(subjects, t.fields[0].1) && Admitted(objects, t.fields[2].1)
    && t.fields[1].1.JObject?
    && forall i | 0 <= i < |t.fields[1].1.fields| :: t.fields[1].1.fields[i].0 !in ["subject", "object"]
  }

  /** Every triplet the traversal keeps passes the client-side filters, and it keeps at
      most one per edge. */
  lemma {:induction false} TraversalFiltered(edges: seq<Json>, subjects: seq<string>, objects: seq<string>, triplets: seq<Json>)
    requires forall k | 0 <= k < |triplets| :: Admissible(triplets[k], subjects, objects)
    ensures var r := Traverse(edges, subjects, objects, triplets);
      r.Some? ==> |triplets| <= |r.value| <= |triplets| + |edges|
                  && forall k | 0 <= k < |r.value| :: Admissible(r.value[k], subjects, objects)
    decreases |edges|
  {
    if edges != [] {
      var edge := edges[0];
      if edge.JObject? {
        var subject := GetOr(edge.fields, "subject", JNull);
        var obj := GetOr(edge.fields, "object", JNull);
        if Skips(subjects, subject) == Some(false) && Skips(objects, obj) == Some(false) {
          var t := Triplet(subject, JObject(Without(edge.fields, ["subject", "object"])), obj);
          assert Admissible(t, subjects, objects);
          var more := triplets + [t];
          assert forall k | 0 <= k < |more| :: Admissible(more[k], subjects, objects);
          TraversalFiltered(edges[1..], subjects, objects, more);
        } else {
          TraversalFiltered(edges[1..], subjects, objects, triplets);
        }
      } else {
        TraversalFiltered(edges[1..], subjects, objects, triplets);
      }
    }
  }

  /** The number of dicts in `edges`. */
  function DictCount(edges: seq<Json>): nat
  {
    if edges == [] then 0 else (if edges[0].JObject? then 1 else 0) + DictCount(edges[1..])
  }

  /** Without type filters the traversal never raises and makes one triplet of each dict
      edge. */
  lemma {:induction false} UnfilteredTraversal(edges: seq<Json>, triplets: seq<Json>)
    ensures var r := Traverse(edges, [], [], triplets);
      r.Some? && |r.value| == |triplets| + DictCount(edges)
    decreases |edges|
  {
    if edges != [] {
      if edges[0].JObject? {
        var subject := GetOr(edges[0].fields, "subject", JNull);
        var obj := GetOr(edges[0].fields, "object", JNull);
        UnfilteredTraversal(edges[1..], triplets + [Triplet(subject, JObject(Without(edges[0].fields, ["subject", "object"])), obj)]);
      } else {
        UnfilteredTraversal(edges[1..], triplets);
      }
    }
  }

  /** The listing makes exactly one triplet of each dict edge. */
  lemma {:induction false} ListingCount(edges: seq<Json>)
    ensures |Listing(edges)| == DictCount(edges)
    decreases |edges|
  {
    if edges != [] {
      ListingCount(edges[1..]);
    }
  }

  /** Each listed triplet has a dict edge of the reply as its relation, and that edge's
      `in` and `out` rids as its subject and object. */
  predicate ListedFrom(t: Json, edges: seq<Json>)
  {
    t.JObject? && |t.fields| == 3 && t.fields[1].1 in edges && t.fields[1].1.JObject?
    && t == RawTriplet(t.fields[1].1.fields)
  }

  lemma {:induction false} ListingFromEdges(edges: seq<Json>)
    ensures forall k | 0 <= k < |Listing(edges)| :: ListedFrom(Listing(edges)[k], edges)
    decreases |edges|
  {
    if edges != [] {
      ListingFromEdges(edges[1..]);
      var head := if edges[0].JObject? then [RawTriplet(edges[0].fields)] else [];
      var rest := Listing(edges[1..]);
      assert Listing(edges) == head + rest;
      forall k | 0 <= k < |head + rest| ensures ListedFrom((head + rest)[k], edges)
      {
        if k >= |head| {
          assert (head + rest)[k] == rest[k - |head|];
          assert ListedFrom(rest[k - |head|], edges[1..]);
        }
      }
    }
  }

  /** A reply that is not a list is one edge: a dict gives one triplet, anything else,
      such as null, none. */
  lemma ListingOfReply(v: Json)
    requires !v.JList?
    ensures Listing(Items(v)) == if v.JObject? then [RawTriplet(v.fields)] else []
  {
    assert Items(v)[1..] == [];
  }

  /** The listing drops exactly the edges that are not dicts: it keeps them all exactly
      when every edge is a dict. */
  lemma {:induction false} ListingKeepsEveryDict(edges: seq<Json>)
    ensures |Listing(edges)| <= |edges|
    ensures |Listing(edges)| == |edges| <==> forall k | 0 <= k < |edges| :: edges[k].JObject?
    decreases |edges|
  {
    if edges != [] {
      ListingKeepsEveryDict(edges[1..]);
      assert forall k | 0 <= k < |edges[1..]| :: edges[1..][k] == edges[k + 1];
    }
  }
}
