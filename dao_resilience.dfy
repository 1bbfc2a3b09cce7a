/** The recovery helpers of `DatabaseDao`: `safe_delete_all`, which truncates a type or
    else deletes its records batch by batch, and `safe_bulk_operation`, which reruns an
    operation after a transient failure. */
module DaoResilience {
  import opened Wrappers
  import opened Strings
  import opened JsonValue
  import opened Exceptions
  import opened Transport
  import opened DaoQuery

  // ---------------------------------------------------------------------------
  // safe_delete_all
  // ---------------------------------------------------------------------------

  function TruncateUnsafe(typeName: string): string
  {
    "TRUNCATE TYPE " + typeName + " UNSAFE"
  }

  function SelectRids(typeName: string, batchSize: int): string
  {
    "SELECT @rid FROM " + typeName + " LIMIT " + IntToString(batchSize)
  }

  function DeleteRids(typeName: string, rids: seq<string>): string
  {
    "DELETE FROM " + typeName + " WHERE @rid IN ['" + Join("', '", rids) + "']"
  }

  /** What `record.get('@rid') for record in records if '@rid' in record` takes from one
      record: `Some(Some(v))` keeps `v`, `Some(None)` skips the record, and `None` means
      the test or the `get` raises (a string or list has no `get`; `in` on a number, a
      bool or None raises TypeError). */
  function RidOf(record: Json): Option<Option<Json>>
  {
    match record
    case JObject(fs) => Some(Lookup(fs, "@rid"))
    case JStr(s) => if Contains(s, "@rid") then None else Some(None)
    case JList(xs) => if JStr("@rid") in xs then None else Some(None)
    case _ => None
  }

  /** The rids `[record.get('@rid') for record in records if '@rid' in record]` collects,
      when neither it nor the `"', '".join(rids)` that follows raises (the join raises
      unless every rid is a string). */
  function RidNames(records: seq<Json>): (r: Option<seq<string>>)
    ensures r.Some? ==> |r.value| <= |records|
  {
    if records == [] then Some([])
    else
      var first := RidOf(records[0]);
      var rest := RidNames(records[1..]);
      if first.None? || rest.None? || (first.value.Some? && !first.value.value.JStr?) then None
      else if first.value.None? then rest
      else Some([first.value.value.s] + rest.value)
  }

  /** What one pass of the loop does after its select: stop, select again, or delete. */
  datatype Round = Finish | Again | Remove(rids: seq<string>)

  function RoundOf(records: Json): Round
  {
    if !Truthy(records) then Finish
    else if IsNumber(records) then Finish
    else if !records.JList? then Again
    else match RidNames(records.items)
      case None => Finish
      case Some(rids) => if rids == [] then Again else Remove(rids)
  }

  /** The end of one pass of the loop: stop, or go round again having deleted `deleted`
      records. */
  datatype PassEnd = Stop(net: Net) | Continue(deleted: nat, net: Net)

  /** What a pass may do to the client: never add replies, consume one reply per call
      when it goes on, and make at most one call that gets no reply. */
  predicate Accounted(net: Net, p: PassEnd)
  {
    && |p.net.script| <= |net.script|
    && (p.Continue? ==> |p.net.script| < |net.script| && |p.net.sent| - |net.sent| == |net.script| - |p.net.script|)
    && |net.sent| < |p.net.sent| <= |net.sent| + (|net.script| - |p.net.script|) + 1
  }

  /** One pass: the select, and the delete when the batch names rids; any failure ends
      the loop. */
  function OnePass(dao: Dao, net: Net, typeName: string, batchSize: int, sessionId: Option<string>): (p: PassEnd)
    ensures Accounted(net, p)
  {
    var (records, net1) := SqlQuery(dao, net, SelectRids(typeName, batchSize), sessionId);
    if records.Err? then Stop(net1)
    else match RoundOf(records.value)
      case Finish => Stop(net1)
      case Again => Continue(0, net1)
      case Remove(rids) =>
        var (done, net2) := SqlCommand(dao, net1, DeleteRids(typeName, rids), sessionId);
        if done.Err? then Stop(net2) else Continue(|rids|, net2)
  }

  /** The passes of `safe_delete_all` on one type. */
  function Passes(dao: Dao, typeName: string, batchSize: int, sessionId: Option<string>): (pass: Net -> PassEnd)
    ensures forall n: Net :: Accounted(n, pass(n))
    ensures forall n: Net {:trigger OnePass(dao, n, typeName, batchSize, sessionId)} ::
      pass(n) == OnePass(dao, n, typeName, batchSize, sessionId)
  {
    n => OnePass(dao, n, typeName, batchSize, sessionId)
  }

  /** Reference definition of a `while True` loop of passes: run them until one stops,
      adding up what each deleted. */
  function Loop(pass: Net -> PassEnd, net: Net, total: nat): (nat, Net)
    requires forall n: Net :: Accounted(n, pass(n))
    decreases |net.script|
  {
    var p := pass(net);
    if p.Stop? then (total, p.net) else Loop(pass, p.net, total + p.deleted)
  }

  /** One unfolding of `Loop`. */
  lemma LoopStep(pass: Net -> PassEnd, net: Net, total: nat)
    requires forall n: Net :: Accounted(n, pass(n))
    ensures pass(net).Stop? ==> Loop(pass, net, total) == (total, pass(net).net)
    ensures pass(net).Continue? ==> Loop(pass, net, total) == Loop(pass, pass(net).net, total + pass(net).deleted)
  {
  }

  /** Reference definition of `safe_delete_all`: a truncate, and the loop only when it fails. */
  function DeleteAllSpec(dao: Dao, net: Net, typeName: string, batchSize: int, sessionId: Option<string>): (nat, Net)
  {
    var (truncated, net1) := SqlCommand(dao, net, TruncateUnsafe(typeName), sessionId);
    if truncated.Ok? then (0, net1) else Loop(Passes(dao, typeName, batchSize, sessionId), net1, 0)
  }

  /** The body of the `while True` loop. */
  method DeletePass(dao: Dao, net: Net, typeName: string, batchSize: int, sessionId: Option<string>) returns (p: PassEnd)
    ensures p == OnePass(dao, net, typeName, batchSize, sessionId)
  {
    var records, net1 := Select(dao, net, SelectRids(typeName, batchSize), sessionId);
    if records.Err? {
      return Stop(net1);
    }
    var round := RoundOf(records.value);
    if round.Finish? {
      return Stop(net1);
    }
    if round.Again? {
      return Continue(0, net1);
    }
    var done, net2 := Query(dao, net1, Sql(DeleteRids(typeName, round.rids), sessionId, true, false));
    SqlCommandIsQuery(dao, net1, DeleteRids(typeName, round.rids), sessionId, false);
    if done.Err? {
      return Stop(net2);
    }
    return Continue(|round.rids|, net2);
  }

  /** The `while True` loop of `safe_delete_all`, counting from 0; `pass` stands for the
      passes it makes. */
  method DeleteLoop(dao: Dao, net: Net, typeName: string, batchSize: int, sessionId: Option<string>,
                    ghost pass: Net -> PassEnd)
    returns (total: nat, net': Net)
    requires forall n: Net :: Accounted(n, pass(n))
    requires forall n: Net {:trigger OnePass(dao, n, typeName, batchSize, sessionId)} ::
      pass(n) == OnePass(dao, n, typeName, batchSize, sessionId)
    ensures (total, net') == Loop(pass, net, 0)
  {
    total, net' := 0, net;
    while true
      invariant Loop(pass, net, 0) == Loop(pass, net', total)
      decreases |net'.script|
    {
      var p := DeletePass(dao, net', typeName, batchSize, sessionId);
      LoopStep(pass, net', total);
      if p.Stop? {
        return total, p.net;
      }
      total, net' := total + p.deleted, p.net;
    }
  }

  /** `safe_delete_all(type_name, batch_size, session_id)`. */
  method SafeDeleteAll(dao: Dao, net: Net, typeName: string, batchSize: int, sessionId: Option<string>)
    returns (total: nat, net': Net)
    ensures (total, net') == DeleteAllSpec(dao, net, typeName, batchSize, sessionId)
  {
    var truncated, net1 := Query(dao, net, Sql(TruncateUnsafe(typeName), sessionId, true, false));
    SqlCommandIsQuery(dao, net, TruncateUnsafe(typeName), sessionId, false);
    if truncated.Ok? {
      return 0, net1;
    }
    total, net' := DeleteLoop(dao, net1, typeName, batchSize, sessionId, Passes(dao, typeName, batchSize, sessionId));
  }

  // ---------------------------------------------------------------------------
  // Properties of safe_delete_all
  // ---------------------------------------------------------------------------

  /** A successful truncate is the only call, and the reported count is 0. */
  lemma TruncateEndsAtOnce(dao: Dao, net: Net, typeName: string, batchSize: int, sessionId: Option<string>)
    requires net.script != [] && net.script[0].Answer?
    ensures DeleteAllSpec(dao, net, typeName, batchSize, sessionId)
         == (0, Net(net.script[1..], net.sent + [SqlCommandCall(dao, JStr(TruncateUnsafe(typeName)), sessionId)]))
  {
  }

  /** The records `{"@rid": x}` for the strings `xs`. */
  function RidRecords(xs: seq<string>): (r: seq<Json>)
    ensures |r| == |xs|
  {
    seq(|xs|, k requires 0 <= k < |xs| => JObject([("@rid", JStr(xs[k]))]))
  }

  lemma {:induction false} RidRecordsNamed(xs: seq<string>)
    ensures RidNames(RidRecords(xs)) == Some(xs)
    decreases |xs|
  {
    if xs != [] {
      RidRecordsNamed(xs[1..]);
      assert RidRecords(xs)[1..] == RidRecords(xs[1..]);
      assert RidOf(RidRecords(xs)[0]) == Some(Some(JStr(xs[0])));
      assert [xs[0]] + xs[1..] == xs;
    }
  }

  /** A batch of records each holding a string `@rid` is deleted by one command naming
      exactly those rids, in the order the server listed them. */
  lemma RidBatchIsRemoved(xs: seq<string>)
    requires xs != []
    ensures RoundOf(JList(RidRecords(xs))) == Remove(xs)
  {
    RidRecordsNamed(xs);
  }

  /** A record given as a number stops the loop, whatever the other records are. */
  lemma {:induction false} NumberRecordStops(records: seq<Json>, i: int)
    requires 0 <= i < |records| && IsNumber(records[i])
    ensures RidNames(records) == None
    decreases |records|
  {
    if i > 0 {
      NumberRecordStops(records[1..], i - 1);
    }
  }

  /** The count the loop reports is the running total plus what it deleted itself. */
  lemma {:induction false} TotalAccumulates(pass: Net -> PassEnd, net: Net, total: nat)
    requires forall n: Net :: Accounted(n, pass(n))
    ensures Loop(pass, net, total) == (total + Loop(pass, net, 0).0, Loop(pass, net, 0).1)
    decreases |net.script|
  {
    var p := pass(net);
    if p.Continue? {
      TotalAccumulates(pass, p.net, total + p.deleted);
      TotalAccumulates(pass, p.net, p.deleted);
    }
  }

  /** The loop stops at the first call the server does not answer: it never makes more
      than one call beyond the replies it consumes. */
  lemma {:induction false} AtMostOneUnanswered(pass: Net -> PassEnd, net: Net, total: nat)
    requires forall n: Net :: Accounted(n, pass(n))
    ensures var net' := Loop(pass, net, total).1;
      |net'.script| <= |net.script| && |net.sent| < |net'.sent| <= |net.sent| + (|net.script| - |net'.script|) + 1
    decreases |net.script|
  {
    var p := pass(net);
    if p.Continue? {
      AtMostOneUnanswered(pass, p.net, total + p.deleted);
    }
  }

  // ---------------------------------------------------------------------------
  // safe_bulk_operation
  // ---------------------------------------------------------------------------

  /** A failure worth another attempt: an idempotency rejection, or a bulk failure in
      which some records went through. */
  predicate Transient(e: Exc)
  {
    || (e.Transaction? && e.isIdempotentError)
    || (e.BulkOperation? && e.failedRecords.Some? && e.totalRecords.Some?
        && e.failedRecords.value < e.totalRecords.value)
  }

  function TypeName(n: Option<int>): string
  {
    if n.None? then "NoneType" else "int"
  }

  /** `failed_records < total_records` with a count that is None raises TypeError. */
  function Unordered(failed: Option<int>, total: Option<int>): Exc
  {
    Foreign("TypeError", "'<' not supported between instances of '" + TypeName(failed) + "' and '"
                         + TypeName(total) + "'")
  }

  /** `raise last_exception` with no attempt made. */
  const RaiseNone := Foreign("TypeError", "exceptions must derive from BaseException")

  /** Reference definition of the attempts from `attempt` on; `outcome(i)` is what the
      operation returns or raises when it is called for the `i`-th time. */
  function Attempts<T>(outcome: nat -> Result<T, Exc>, maxRetries: int, attempt: nat): Result<T, Exc>
    requires attempt <= maxRetries
    decreases maxRetries - attempt
  {
    var r := outcome(attempt);
    if r.Ok? || !(r.error.Transaction? || r.error.BulkOperation?) || attempt == maxRetries then r
    else if r.error.BulkOperation? && (r.error.failedRecords.None? || r.error.totalRecords.None?) then
      Err(Unordered(r.error.failedRecords, r.error.totalRecords))
    else if Transient(r.error) then Attempts(outcome, maxRetries, attempt + 1)
    else r
  }

  /** Reference definition of `safe_bulk_operation(operation_func, max_retries=…)`. */
  function Rerun<T>(outcome: nat -> Result<T, Exc>, maxRetries: int): Result<T, Exc>
  {
    if maxRetries < 0 then Err(RaiseNone) else Attempts(outcome, maxRetries, 0)
  }

  /** `safe_bulk_operation`: the attempt loop, with the pause between attempts left out. */
  method SafeBulkOperation<T>(outcome: nat -> Result<T, Exc>, maxRetries: int) returns (r: Result<T, Exc>)
    ensures r == Rerun(outcome, maxRetries)
  {
    var last: Option<Exc> := None;
    var attempt: nat := 0;
    while attempt < maxRetries + 1
      invariant attempt == 0 || attempt <= maxRetries
      invariant last.None? <==> attempt == 0
      invariant attempt <= maxRetries ==> Rerun(outcome, maxRetries) == Attempts(outcome, maxRetries, attempt)
      decreases maxRetries + 1 - attempt
    {
      var result := outcome(attempt);
      if result.Ok? {
        return result;
      }
      var e := result.error;
      last := Some(e);
      if !(e.Transaction? || e.BulkOperation?) {
        break;
      }
      if attempt < maxRetries {
        if e.Transaction? && e.isIdempotentError {
          attempt := attempt + 1;
          continue;
        }
        if e.BulkOperation? {
          if e.failedRecords.None? || e.totalRecords.None? {
            return Err(Unordered(e.failedRecords, e.totalRecords));
          }
          if e.failedRecords.value < e.totalRecords.value {
            attempt := attempt + 1;
            continue;
          }
        }
      }
      break;
    }
    if last.None? {
      return Err(RaiseNone);
    }
    return Err(last.value);
  }

  // ---------------------------------------------------------------------------
  // Properties of safe_bulk_operation
  // ---------------------------------------------------------------------------

  /** At most `max_retries + 1` attempts: outcomes after that one cannot matter. */
  lemma {:induction false} AttemptsBounded<T>(f: nat -> Result<T, Exc>, g: nat -> Result<T, Exc>,
                                              maxRetries: int, attempt: nat)
    requires attempt <= maxRetries
    requires forall i: nat :: attempt <= i <= maxRetries ==> f(i) == g(i)
    ensures Attempts(f, maxRetries, attempt) == Attempts(g, maxRetries, attempt)
    decreases maxRetries - attempt
  {
    if attempt < maxRetries {
      AttemptsBounded(f, g, maxRetries, attempt + 1);
    }
  }

  lemma AtMostMaxRetriesPlusOne<T>(f: nat -> Result<T, Exc>, g: nat -> Result<T, Exc>, maxRetries: int)
    requires forall i: nat :: i <= maxRetries ==> f(i) == g(i)
    ensures Rerun(f, maxRetries) == Rerun(g, maxRetries)
  {
    if maxRetries >= 0 {
      AttemptsBounded(f, g, maxRetries, 0);
    }
  }

  /** Transient failures are retried until the first success within the budget. */
  lemma {:induction false} SucceedsAfterTransient<T>(f: nat -> Result<T, Exc>, maxRetries: int,
                                                     attempt: nat, k: nat)
    requires attempt <= k <= maxRetries && f(k).Ok?
    requires forall i: nat :: attempt <= i < k ==> f(i).Err? && Transient(f(i).error)
    ensures Attempts(f, maxRetries, attempt) == f(k)
    decreases k - attempt
  {
    if attempt < k {
      SucceedsAfterTransient(f, maxRetries, attempt + 1, k);
    }
  }

  lemma RetriedUntilSuccess<T>(f: nat -> Result<T, Exc>, maxRetries: int, k: nat)
    requires k <= maxRetries && f(k).Ok?
    requires forall i: nat :: i < k ==> f(i).Err? && Transient(f(i).error)
    ensures Rerun(f, maxRetries) == f(k)
  {
    SucceedsAfterTransient(f, maxRetries, 0, k);
  }

  /** When every attempt fails transiently, the last attempt's exception is raised. */
  lemma {:induction false} LastFailureRaised<T>(f: nat -> Result<T, Exc>, maxRetries: int, attempt: nat)
    requires attempt <= maxRetries
    requires forall i: nat :: attempt <= i <= maxRetries ==> f(i).Err? && Transient(f(i).error)
    ensures Attempts(f, maxRetries, attempt) == f(maxRetries)
    decreases maxRetries - attempt
  {
    if attempt < maxRetries {
      LastFailureRaised(f, maxRetries, attempt + 1);
    }
  }

  lemma ExhaustedRaisesLast<T>(f: nat -> Result<T, Exc>, maxRetries: int)
    requires 0 <= maxRetries
    requires forall i: nat :: i <= maxRetries ==> f(i).Err? && Transient(f(i).error)
    ensures Rerun(f, maxRetries) == f(maxRetries)
  {
    LastFailureRaised(f, maxRetries, 0);
  }

  /** Any other failure of the first attempt is raised unchanged with no retry, except a
      bulk failure whose counts cannot be compared. */
  lemma PermanentNotRetried<T>(f: nat -> Result<T, Exc>, maxRetries: int)
    requires 0 <= maxRetries && f(0).Err? && !Transient(f(0).error)
    requires f(0).error.BulkOperation? && 0 < maxRetries ==> f(0).error.failedRecords.Some? && f(0).error.totalRecords.Some?
    ensures Rerun(f, maxRetries) == f(0)
  {
  }
}
