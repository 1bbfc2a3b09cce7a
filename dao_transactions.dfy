/** Transactions on the HTTP driver: the begin/commit/rollback calls, `execute_batch`
    (the queries of a list run one after the other as commands) and
    `execute_transaction` (begin, batch, commit, and a rollback on any failure). */
module DaoTransactions {
  import opened Wrappers
  import opened Strings
  import opened JsonValue
  import opened Exceptions
  import opened Transport
  import opened DaoQuery

  /** `DatabaseDao.IsolationLevel`. */
  datatype IsolationLevel = ReadCommitted | RepeatableRead
  {
    function Value(): string
    {
      match this
      case ReadCommitted => "READ_COMMITTED"
      case RepeatableRead => "REPEATABLE_READ"
    }
  }

  /** The message for an empty or non-list `queries`. */
  const NotAList := "Queries must be a non-empty list of strings"

  /** The message for an element of `queries` that is not a string. */
  const NotAString := "All queries must be strings"

  /** `headers["arcadedb-session-id"]` on headers without it: `str()` of a KeyError is
      the quoted key. */
  const NoSessionHeader := Foreign("KeyError", "'" + SessionHeader + "'")

  /** `begin_transaction(level)`: the session id from the response headers; a response
      without it raises KeyError. */
  function Begin(dao: Dao, net: Net, level: IsolationLevel): (r: (Result<string, Exc>, Net))
    ensures r.1.sent == net.sent + [PostCall(BeginEndpoint + "/" + dao.databaseName, IsolationBody(level.Value()), map[], true)]
    ensures r.0.Ok? <==> net.script != [] && net.script[0].Answer? && SessionHeader in net.script[0].headers
    ensures r.0.Ok? ==> r.0.value == net.script[0].headers[SessionHeader]
    ensures net.script != [] && net.script[0].Answer? && SessionHeader !in net.script[0].headers ==>
      r.0 == Err(NoSessionHeader)
  {
    var (headers, net1) := PostForHeaders(net, BeginEndpoint + "/" + dao.databaseName, IsolationBody(level.Value()));
    if headers.Err? then (Err(headers.error), net1)
    else if SessionHeader !in headers.value then (Err(NoSessionHeader), net1)
    else (Ok(headers.value[SessionHeader]), net1)
  }

  /** `commit_transaction(session_id)`: an empty payload and the session header. */
  function Commit(dao: Dao, net: Net, sessionId: string): (r: (Result<(), Exc>, Net))
    ensures r.1.sent == net.sent + [PostCall(CommitEndpoint + "/" + dao.databaseName, EmptyBody, map[SessionHeader := sessionId], false)]
    ensures r.0.Ok? <==> net.script != [] && net.script[0].Answer?
  {
    var (reply, net1) := Post(net, CommitEndpoint + "/" + dao.databaseName, EmptyBody, map[SessionHeader := sessionId]);
    (if reply.Ok? then Ok(()) else Err(reply.error), net1)
  }

  /** `rollback_transaction(session_id)`. */
  function Rollback(dao: Dao, net: Net, sessionId: string): (r: (Result<(), Exc>, Net))
    ensures r.1.sent == net.sent + [RollbackCall(dao, sessionId)]
    ensures r.0.Ok? <==> net.script != [] && net.script[0].Answer?
  {
    var (reply, net1) := Post(net, RollbackEndpoint + "/" + dao.databaseName, EmptyBody, map[SessionHeader := sessionId]);
    (if reply.Ok? then Ok(()) else Err(reply.error), net1)
  }

  /** The call `rollback_transaction(session_id)` makes. */
  function RollbackCall(dao: Dao, sessionId: string): Call
  {
    PostCall(RollbackEndpoint + "/" + dao.databaseName, EmptyBody, map[SessionHeader := sessionId], false)
  }

  /** `e.query = query` for an exception that has a `query` attribute. */
  function Tagged(e: Exc, query: string): (t: Exc)
    ensures e.QueryParsing? ==> t == QueryParsing(e.base, Some(query))
    ensures !e.QueryParsing? ==> t == e
  {
    if e.QueryParsing? then QueryParsing(e.base, Some(query)) else e
  }

  /** One turn of the loop of `execute_batch`. */
  function BatchStep(dao: Dao, net: Net, q: Json, sessionId: Option<string>): (Result<Json, Exc>, Net)
  {
    if !q.JStr? then (Err(Validation(Plain(NotAString))), net)
    else
      var (r, net1) := SqlCommand(dao, net, q.s, sessionId);
      (if r.Err? then Err(Tagged(r.error, q.s)) else r, net1)
  }

  /** The loop of `execute_batch` over `qs`: the results in order, or the first error. */
  function Batch(dao: Dao, net: Net, qs: seq<Json>, sessionId: Option<string>): (Result<seq<Json>, Exc>, Net)
    decreases |qs|
  {
    if qs == [] then (Ok([]), net)
    else
      var (r, net1) := BatchStep(dao, net, qs[0], sessionId);
      if r.Err? then (Err(r.error), net1)
      else Then([r.value], Batch(dao, net1, qs[1..], sessionId))
  }

  /** Results gathered so far, followed by the outcome of the rest of the loop. */
  function Then(done: seq<Json>, rest: (Result<seq<Json>, Exc>, Net)): (Result<seq<Json>, Exc>, Net)
  {
    (if rest.0.Ok? then Ok(done + rest.0.value) else rest.0, rest.1)
  }

  /** What `execute_batch(queries, session_id)` returns and the calls it makes. */
  function ExecuteBatchSpec(dao: Dao, net: Net, queries: Json, sessionId: Option<string>): (Result<seq<Json>, Exc>, Net)
  {
    if !queries.JList? || queries.items == [] then (Err(Validation(Plain(NotAList))), net)
    else Batch(dao, net, queries.items, sessionId)
  }

  /** `execute_batch(queries, session_id)` as written. */
  method ExecuteBatch(dao: Dao, net: Net, queries: Json, sessionId: Option<string>)
    returns (r: Result<seq<Json>, Exc>, net': Net)
    ensures (r, net') == ExecuteBatchSpec(dao, net, queries, sessionId)
  {
    if !queries.JList? || queries.items == [] {
      return Err(Validation(Plain(NotAList))), net;
    }
    var qs := queries.items;
    var results: seq<Json> := [];
    net' := net;
    var i := 0;
    assert qs[0..] == qs;
    assert Then([], Batch(dao, net, qs, sessionId)) == Batch(dao, net, qs, sessionId) by {
      var b := Batch(dao, net, qs, sessionId);
      if b.0.Ok? {
        assert [] + b.0.value == b.0.value;
      }
    }
    while i < |qs|
      invariant 0 <= i <= |qs|
      invariant Batch(dao, net, qs, sessionId) == Then(results, Batch(dao, net', qs[i..], sessionId))
    {
      BatchUnfold(dao, net', qs, i, sessionId, results);
      var q := qs[i];
      if !q.JStr? {
        return Err(Validation(Plain(NotAString))), net';
      }
      var result;
      result, net' := Command(dao, net', q.s, sessionId);
      if result.Err? {
        return Err(Tagged(result.error, q.s)), net';
      }
      results := results + [result.value];
      i := i + 1;
    }
    assert qs[i..] == [];
    assert results + [] == results;
    return Ok(results), net';
  }

  /** `Batch` on a suffix, one element unfolded, after the results `done`. */
  lemma BatchUnfold(dao: Dao, net: Net, qs: seq<Json>, i: int, sessionId: Option<string>, done: seq<Json>)
    requires 0 <= i < |qs|
    ensures var (r, net1) := BatchStep(dao, net, qs[i], sessionId);
      Then(done, Batch(dao, net, qs[i..], sessionId))
        == if r.Err? then (Err(r.error), net1) else Then(done + [r.value], Batch(dao, net1, qs[i + 1..], sessionId))
  {
    assert qs[i..][0] == qs[i] && qs[i..][1..] == qs[i + 1..];
    var (r, net1) := BatchStep(dao, net, qs[i], sessionId);
    if r.Ok? {
      var rest := Batch(dao, net1, qs[i + 1..], sessionId);
      if rest.0.Ok? {
        assert done + ([r.value] + rest.0.value) == (done + [r.value]) + rest.0.value;
      }
    }
  }

  /** The calls `execute_batch` makes are posts to the command endpoint carrying the
      session header, one per query and in the order of the list, each with that query;
      it stops at the first failure and otherwise returns one result per query. */
  lemma {:induction false} BatchSendsInOrder(dao: Dao, net: Net, qs: seq<Json>, sessionId: Option<string>)
    ensures var (r, net') := Batch(dao, net, qs, sessionId);
      && |net.sent| <= |net'.sent| <= |net.sent| + |qs|
      && net'.sent[..|net.sent|] == net.sent
      && (forall j | |net.sent| <= j < |net'.sent| ::
            net'.sent[j] == SqlCommandCall(dao, qs[j - |net.sent|], sessionId))
      && (r.Ok? ==> |r.value| == |qs| && |net'.sent| == |net.sent| + |qs|)
    decreases |qs|
  {
    if qs != [] {
      var q := qs[0];
      var (r, net1) := BatchStep(dao, net, q, sessionId);
      if q.JStr? {
        BatchSendsInOrder(dao, net1, qs[1..], sessionId);
        var (rest, net2) := Batch(dao, net1, qs[1..], sessionId);
        if r.Ok? {
          forall j | |net.sent| <= j < |net2.sent|
            ensures net2.sent[j] == SqlCommandCall(dao, qs[j - |net.sent|], sessionId)
          {
            if j > |net.sent| {
              assert qs[1..][j - |net1.sent|] == qs[j - |net.sent|];
            } else {
              assert net2.sent[j] == net2.sent[..|net1.sent|][j];
            }
          }
          assert net2.sent[..|net.sent|] == net2.sent[..|net1.sent|][..|net.sent|];
        }
      }
    }
  }

  // ---------------------------------------------------------------------------
  // execute_transaction
  // ---------------------------------------------------------------------------

  /** The `try` block of `execute_transaction`: the result, the session id as it stands
      when the block ends, and the net. */
  function Attempt(dao: Dao, net: Net, qs: seq<Json>, level: IsolationLevel): (Result<seq<Json>, Exc>, Option<string>, Net)
  {
    var (sid, net1) := Begin(dao, net, level);
    if sid.Err? then (Err(sid.error), None, net1)
    else
      var (results, net2) := ExecuteBatchSpec(dao, net1, JList(qs), Some(sid.value));
      if results.Err? then (Err(results.error), Some(sid.value), net2)
      else
        var (done, net3) := Commit(dao, net2, sid.value);
        if done.Err? then (Err(done.error), Some(sid.value), net3)
        else (Ok(results.value), Some(sid.value), net3)
  }

  /** The exception `execute_transaction` raises for a failure `e` of its `try` block. */
  function TransactionFailed(e: Exc, sessionId: Option<string>): Exc
  {
    Transaction(Plain("Transaction failed: " + ExcToString(e)), sessionId, false)
  }

  /** What `execute_transaction(queries, level)` returns and the calls it makes. */
  function TransactionSpec(dao: Dao, net: Net, queries: Json, level: IsolationLevel): (Result<seq<Json>, Exc>, Net)
  {
    if !queries.JList? || queries.items == [] then (Err(Validation(Plain(NotAList))), net)
    else
      var (r, sid, net1) := Attempt(dao, net, queries.items, level);
      if r.Ok? then (r, net1)
      else if sid.Some? && sid.value != "" then
        (Err(TransactionFailed(r.error, sid)), Rollback(dao, net1, sid.value).1)
      else (Err(TransactionFailed(r.error, sid)), net1)
  }

  /** `execute_transaction(queries, level)` as written. */
  method ExecuteTransaction(dao: Dao, net: Net, queries: Json, level: IsolationLevel)
    returns (r: Result<seq<Json>, Exc>, net': Net)
    ensures (r, net') == TransactionSpec(dao, net, queries, level)
  {
    if !queries.JList? || queries.items == [] {
      return Err(Validation(Plain(NotAList))), net;
    }
    var sessionId: Option<string> := None;
    var failure: Exc;
    var (sid, net1) := Begin(dao, net, level);
    net' := net1;
    if sid.Ok? {
      sessionId := Some(sid.value);
      var results;
      results, net' := ExecuteBatch(dao, net', queries, sessionId);
      if results.Ok? {
        var (done, net3) := Commit(dao, net', sid.value);
        net' := net3;
        if done.Ok? {
          return Ok(results.value), net';
        }
        failure := done.error;
      } else {
        failure := results.error;
      }
    } else {
      failure := sid.error;
    }
    if sessionId.Some? && sessionId.value != "" {
      var (_, net4) := Rollback(dao, net', sessionId.value);
      net' := net4;
    }
    return Err(TransactionFailed(failure, sessionId)), net';
  }

  /** An empty or non-list `queries` is refused before `begin` with no call at all. */
  lemma TransactionValidatesFirst(dao: Dao, net: Net, queries: Json, level: IsolationLevel)
    ensures var (r, net') := TransactionSpec(dao, net, queries, level);
      && (r == Err(Validation(Plain(NotAList))) <==> !queries.JList? || queries.items == [])
      && (!queries.JList? || queries.items == [] ==> net' == net)
  {
    if queries.JList? && queries.items != [] {
      var (r, sid, net1) := Attempt(dao, net, queries.items, level);
    }
  }

  /** A call to the rollback endpoint. */
  predicate IsRollback(dao: Dao, c: Call)
  {
    c.PostCall? && c.endpoint == RollbackEndpoint + "/" + dao.databaseName
  }

  /** The endpoints a transaction posts to differ from the rollback endpoint. */
  lemma OtherEndpointsAreNotRollback(dao: Dao)
    ensures BeginEndpoint + "/" + dao.databaseName != RollbackEndpoint + "/" + dao.databaseName
    ensures CommandEndpoint + "/" + dao.databaseName != RollbackEndpoint + "/" + dao.databaseName
    ensures CommitEndpoint + "/" + dao.databaseName != RollbackEndpoint + "/" + dao.databaseName
  {
    var i := |BaseEndpoint| + 1;
    assert (RollbackEndpoint + "/" + dao.databaseName)[i] == 'r';
    assert (BeginEndpoint + "/" + dao.databaseName)[i] == 'b';
    assert (CommandEndpoint + "/" + dao.databaseName)[i] == 'c';
    assert (CommitEndpoint + "/" + dao.databaseName)[i] == 'c';
  }

  /** The calls of the `try` block: begin, then the batch's queries in order, then a
      commit when the batch succeeded; none of them is a rollback. */
  lemma {:induction false} AttemptCalls(dao: Dao, net: Net, qs: seq<Json>, level: IsolationLevel)
    requires qs != []
    ensures var (r, sid, net1) := Attempt(dao, net, qs, level);
      && |net.sent| < |net1.sent|
      && net1.sent[..|net.sent|] == net.sent
      && net1.sent[|net.sent|] == PostCall(BeginEndpoint + "/" + dao.databaseName, IsolationBody(level.Value()), map[], true)
      && (forall k | |net.sent| <= k < |net1.sent| :: !IsRollback(dao, net1.sent[k]))
  {
    OtherEndpointsAreNotRollback(dao);
    var (b, n1) := Begin(dao, net, level);
    if b.Ok? {
      BatchSendsInOrder(dao, n1, qs, Some(b.value));
      var (rs, n2) := Batch(dao, n1, qs, Some(b.value));
      assert n2.sent[..|net.sent|] == n2.sent[..|n1.sent|][..|net.sent|];
      assert n2.sent[|net.sent|] == n2.sent[..|n1.sent|][|net.sent|];
      if rs.Ok? {
        var (c, n3) := Commit(dao, n2, b.value);
        assert Attempt(dao, net, qs, level).2 == n3;
        assert n3.sent[..|net.sent|] == n2.sent[..|net.sent|];
      } else {
        assert Attempt(dao, net, qs, level).2 == n2;
      }
    }
  }

  /** On success the calls are begin, the queries in order with the session id begin
      issued, and commit with that same id, and the results are the batch's. */
  lemma TransactionCommitsWithBeginToken(dao: Dao, net: Net, qs: seq<Json>, level: IsolationLevel)
    requires qs != []
    requires TransactionSpec(dao, net, JList(qs), level).0.Ok?
    ensures var net' := TransactionSpec(dao, net, JList(qs), level).1;
      var sid := net.script[0].headers[SessionHeader];
      && |net'.sent| == |net.sent| + |qs| + 2
      && net'.sent[|net.sent|] == PostCall(BeginEndpoint + "/" + dao.databaseName, IsolationBody(level.Value()), map[], true)
      && (forall k | 0 <= k < |qs| :: net'.sent[|net.sent| + 1 + k] == SqlCommandCall(dao, qs[k], Some(sid)))
      && net'.sent[|net'.sent| - 1] == PostCall(CommitEndpoint + "/" + dao.databaseName, EmptyBody, map[SessionHeader := sid], false)
      && TransactionSpec(dao, net, JList(qs), level).0.value == Batch(dao, Begin(dao, net, level).1, qs, Some(sid)).0.value
  {
    var (b, n1) := Begin(dao, net, level);
    assert b.Ok?;
    BatchSendsInOrder(dao, n1, qs, Some(b.value));
    var (rs, n2) := Batch(dao, n1, qs, Some(b.value));
    assert rs.Ok?;
    var (c, n3) := Commit(dao, n2, b.value);
    assert TransactionSpec(dao, net, JList(qs), level) == (Ok(rs.value), n3);
    forall k | 0 <= k < |qs|
      ensures n3.sent[|net.sent| + 1 + k] == SqlCommandCall(dao, qs[k], Some(b.value))
    {
      assert n3.sent[|net.sent| + 1 + k] == n2.sent[|n1.sent| + k];
    }
  }

  /** A failure after begin issued a non-empty token rolls back exactly once, as the very
      last call, with that token; the raised exception wraps the original failure and
      does not depend on how the rollback went. */
  lemma TransactionRollsBackOnce(dao: Dao, net: Net, qs: seq<Json>, level: IsolationLevel)
    requires qs != []
    ensures var (r, net') := TransactionSpec(dao, net, JList(qs), level);
      var (r0, sid, net1) := Attempt(dao, net, qs, level);
      && (r.Err? <==> r0.Err?)
      && (r.Err? ==> r.error == TransactionFailed(r0.error, sid))
      && (r.Err? && sid.Some? && sid.value != "" ==> net'.sent == net1.sent + [RollbackCall(dao, sid.value)])
      && (r.Err? && (sid.None? || sid.value == "") ==> net' == net1)
      && |net.sent| < |net1.sent|
      && (forall k | |net.sent| <= k < |net1.sent| :: !IsRollback(dao, net1.sent[k]))
  {
    AttemptCalls(dao, net, qs, level);
  }

  /** An empty token from begin counts as no session: a later failure issues no rollback. */
  lemma EmptyTokenSkipsRollback(dao: Dao, net: Net, qs: seq<Json>, level: IsolationLevel)
    requires qs != [] && net.script != [] && net.script[0].Answer?
    requires net.script[0].headers == map[SessionHeader := ""]
    requires TransactionSpec(dao, net, JList(qs), level).0.Err?
    ensures var net' := TransactionSpec(dao, net, JList(qs), level).1;
      && |net.sent| < |net'.sent|
      && forall k | |net.sent| <= k < |net'.sent| :: !IsRollback(dao, net'.sent[k])
  {
    AttemptCalls(dao, net, qs, level);
    var (b, n1) := Begin(dao, net, level);
    assert b == Ok("");
    assert Attempt(dao, net, qs, level).1 == Some("");
  }

  /** Begin answered without a session header: the transaction makes that one call and
      raises "Transaction failed: 'arcadedb-session-id'" with no session id. */
  lemma MissingSessionHeaderFails(dao: Dao, net: Net, qs: seq<Json>, level: IsolationLevel)
    requires qs != [] && net.script != [] && net.script[0].Answer? && SessionHeader !in net.script[0].headers
    ensures var (r, net') := TransactionSpec(dao, net, JList(qs), level);
      && r == Err(Transaction(Plain("Transaction failed: 'arcadedb-session-id'"), None, false))
      && net'.sent == Begin(dao, net, level).1.sent
  {
    assert "Transaction failed: " + ("'" + SessionHeader + "'") == "Transaction failed: 'arcadedb-session-id'";
  }
}
