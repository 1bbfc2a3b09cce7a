/** `bulk_insert`, `bulk_upsert` and `bulk_delete`: the records are cut into chunks of
    `batch_size`, each chunk becomes one `"; "`-joined command, and the failure counter
    runs across chunks. The three share one chunk loop, parameterised by the kind. */
module DaoBulk {
  import opened Wrappers
  import opened Strings
  import opened JsonValue
  import opened Exceptions
  import opened Transport
  import opened DaoQuery

  /** Which of the three operations runs; `bulk_delete` carries its `safe_mode`. */
  datatype BulkKind = Insert | Upsert(keyField: string) | Delete(safeMode: bool)
  {
    /** The word the exception messages use. */
    function Verb(): string
    {
      match this
      case Insert => "insert"
      case Upsert(_) => "upsert"
      case Delete(_) => "delete"
    }
  }

  function Min(a: int, b: int): int
  {
    if a <= b then a else b
  }

  // ---------------------------------------------------------------------------
  // Statements
  // ---------------------------------------------------------------------------

  /** How a property value is written into a statement: a string single-quoted with its
      quotes escaped, a list or dict as its quoted JSON text, anything else as `str()`. */
  function Literal(v: Json): string
  {
    if v.JStr? then "'" + EscapeQuoteOnly(v.s) + "'"
    else if v.JList? || v.JObject? then "'" + EscapeQuoteOnly(Dumps(v)) + "'"
    else Str(v)
  }

  /** How the upsert key value is written into the WHERE clause: a string as above,
      anything else (lists and dicts included) as `str()`. */
  function KeyLiteral(v: Json): string
  {
    if v.JStr? then "'" + EscapeQuoteOnly(v.s) + "'" else Str(v)
  }

  /** One `key = literal` assignment. */
  function Assignment(field: (string, Json)): string
  {
    field.0 + " = " + Literal(field.1)
  }

  /** The assignments of a record, in its key order. */
  function Assignments(fields: seq<(string, Json)>): (r: seq<string>)
    ensures |r| == |fields|
    ensures forall k :: 0 <= k < |fields| ==> r[k] == Assignment(fields[k])
  {
    seq(|fields|, k requires 0 <= k < |fields| => Assignment(fields[k]))
  }

  /** The loop over `record.items()` that builds the property list. */
  method Properties(fields: seq<(string, Json)>) returns (properties: seq<string>)
    ensures properties == Assignments(fields)
  {
    properties := [];
    for j := 0 to |fields|
      invariant |properties| == j
      invariant forall k :: 0 <= k < j ==> properties[k] == Assignment(fields[k])
    {
      properties := properties + [Assignment(fields[j])];
    }
  }

  /** A record that is counted as failed and never sent: not a dict (not a string
      condition for delete), or an upsert record without the key field. */
  predicate Rejected(kind: BulkKind, record: Json)
  {
    match kind
    case Insert => !record.JObject?
    case Upsert(key) => !record.JObject? || !HasKey(record.fields, key)
    case Delete(_) => !record.JStr?
  }

  /** The statement a record contributes, if any: an accepted record always gives one,
      except an empty dict given to insert, which gives none and is not counted. */
  function StatementOf(kind: BulkKind, typeName: string, record: Json): (s: Option<string>)
    ensures Rejected(kind, record) ==> s.None?
    ensures s.None? && !Rejected(kind, record) ==> kind.Insert? && record == JObject([])
  {
    if Rejected(kind, record) then None
    else
      match kind
      case Insert =>
        if record.fields == [] then None
        else Some("INSERT INTO " + typeName + " SET " + Join(", ", Assignments(record.fields)))
      case Upsert(key) =>
        Some("UPDATE " + typeName + " SET " + Join(", ", Assignments(record.fields))
             + " UPSERT WHERE " + key + " = " + KeyLiteral(Lookup(record.fields, key).value))
      case Delete(_) =>
        Some("DELETE FROM " + typeName + " WHERE " + record.s)
  }

  /** The statements of a chunk, in record order. */
  function ChunkStatements(kind: BulkKind, typeName: string, batch: seq<Json>): seq<string>
  {
    if batch == [] then []
    else
      var last := StatementOf(kind, typeName, batch[|batch| - 1]);
      ChunkStatements(kind, typeName, batch[..|batch| - 1]) + (if last.Some? then [last.value] else [])
  }

  /** The rejected records of a chunk. */
  function ChunkRejected(kind: BulkKind, batch: seq<Json>): nat
  {
    if batch == [] then 0
    else ChunkRejected(kind, batch[..|batch| - 1]) + (if Rejected(kind, batch[|batch| - 1]) then 1 else 0)
  }

  /** The statement the loop body builds for an accepted record. */
  method RecordStatement(kind: BulkKind, typeName: string, record: Json) returns (s: Option<string>)
    requires !Rejected(kind, record)
    ensures s == StatementOf(kind, typeName, record)
  {
    match kind {
      case Insert =>
        var properties := Properties(record.fields);
        if |properties| == 0 {
          return None;
        }
        return Some("INSERT INTO " + typeName + " SET " + Join(", ", properties));
      case Upsert(key) =>
        var properties := Properties(record.fields);
        return Some("UPDATE " + typeName + " SET " + Join(", ", properties)
                    + " UPSERT WHERE " + key + " = " + KeyLiteral(Lookup(record.fields, key).value));
      case Delete(_) =>
        return Some("DELETE FROM " + typeName + " WHERE " + record.s);
    }
  }

  /** The loop over a chunk that builds its statements and counts its rejected records. */
  method BuildStatements(kind: BulkKind, typeName: string, batch: seq<Json>) returns (statements: seq<string>, rejected: nat)
    ensures statements == ChunkStatements(kind, typeName, batch)
    ensures rejected == ChunkRejected(kind, batch)
  {
    statements := [];
    rejected := 0;
    for j := 0 to |batch|
      invariant statements == ChunkStatements(kind, typeName, batch[..j])
      invariant rejected == ChunkRejected(kind, batch[..j])
    {
      ChunkGrows(kind, typeName, batch, j);
      var record := batch[j];
      if Rejected(kind, record) {
        rejected := rejected + 1;
        continue;
      }
      var statement := RecordStatement(kind, typeName, record);
      if statement.Some? {
        statements := statements + [statement.value];
      }
    }
    assert batch[..|batch|] == batch;
  }

  /** The chunk functions on one more record. */
  lemma ChunkGrows(kind: BulkKind, typeName: string, batch: seq<Json>, j: int)
    requires 0 <= j < |batch|
    ensures var s := StatementOf(kind, typeName, batch[j]);
      ChunkStatements(kind, typeName, batch[..j + 1]) == ChunkStatements(kind, typeName, batch[..j]) + (if s.Some? then [s.value] else [])
    ensures ChunkRejected(kind, batch[..j + 1]) == ChunkRejected(kind, batch[..j]) + (if Rejected(kind, batch[j]) then 1 else 0)
  {
    assert batch[..j + 1][..j] == batch[..j];
  }

  /** Every record of a chunk is either rejected or gives at most one statement, so the
      two together never exceed the chunk; for upsert and delete they add up exactly. */
  lemma {:induction false} ChunkAccounting(kind: BulkKind, typeName: string, batch: seq<Json>)
    ensures |ChunkStatements(kind, typeName, batch)| + ChunkRejected(kind, batch) <= |batch|
    ensures !kind.Insert? ==> |ChunkStatements(kind, typeName, batch)| + ChunkRejected(kind, batch) == |batch|
    ensures ChunkRejected(kind, batch) == 0 <==> forall k :: 0 <= k < |batch| ==> !Rejected(kind, batch[k])
  {
    if batch != [] {
      var init := batch[..|batch| - 1];
      ChunkAccounting(kind, typeName, init);
      assert forall k :: 0 <= k < |init| ==> init[k] == batch[k];
    }
  }

  /** A string value written as a literal reads back as itself, provided it holds no
      backslash (only the quote is escaped, so a backslash would change what follows). */
  lemma LiteralReadsBack(s: string)
    requires '\\' !in s
    ensures var lit := Literal(JStr(s));
      && |lit| >= 2 && lit[0] == '\'' && lit[|lit| - 1] == '\''
      && Unescape(lit[1..|lit| - 1]) == s
  {
    var lit := Literal(JStr(s));
    assert lit[1..|lit| - 1] == EscapeQuoteOnly(s);
    UnescapeEscapeQuoteOnly(s);
  }

  // ---------------------------------------------------------------------------
  // The chunk loop
  // ---------------------------------------------------------------------------

  /** What the loop body works out for one chunk before sending it: its statements, how
      many of its records were rejected, and its length. */
  datatype Plan = Plan(statements: seq<string>, rejected: nat, size: nat)

  function PlanOf(kind: BulkKind, typeName: string, batch: seq<Json>): Plan
  {
    Plan(ChunkStatements(kind, typeName, batch), ChunkRejected(kind, batch), |batch|)
  }

  /** The plans of the chunks `records[i:i + batch_size]` from offset `i` on. */
  function Plans(kind: BulkKind, typeName: string, items: seq<Json>, batchSize: nat, i: nat): seq<Plan>
    requires batchSize > 0
    decreases |items| - i
  {
    if i >= |items| then []
    else [PlanOf(kind, typeName, items[i..Min(i + batchSize, |items|)])] + Plans(kind, typeName, items, batchSize, i + batchSize)
  }

  /** The exception raised at once when the failure count reaches the record count. */
  function AllFailed(kind: BulkKind, typeName: string, failed: int, total: int): Exc
  {
    BulkOperation(Plain("Bulk " + kind.Verb() + " failed for type " + typeName), Some(failed), Some(total))
  }

  /** The exception raised after the loop when anything failed. */
  function PartlyFailed(kind: BulkKind, typeName: string, failed: int, total: int): Exc
  {
    BulkOperation(Plain("Bulk " + kind.Verb() + " partially failed for type " + typeName), Some(failed), Some(total))
  }

  /** The counters between chunks, or the result when the loop stops early. */
  datatype Progress = Going(total: int, failed: nat) | Stopped(result: Result<int, Exc>)

  /** The counters after a chunk was sent; `batch_success` subtracts the cumulative
      `failed`, as written. */
  function AfterSend(sent: Result<Json, Exc>, kind: BulkKind, typeName: string, batchLength: nat, count: nat,
                     total: int, failed: nat): Progress
  {
    if sent.Ok? then Going(total + batchLength - failed, failed)
    else if failed + batchLength == count then Stopped(Err(AllFailed(kind, typeName, failed + batchLength, count)))
    else Going(total, failed + batchLength)
  }

  /** The command a chunk's statements are sent as. */
  function ChunkCall(dao: Dao, plan: Plan, sessionId: Option<string>): Call
  {
    SqlCommandCall(dao, JStr(Join("; ", plan.statements)), sessionId)
  }

  /** One turn of the chunk loop: the rejected records are counted, and the statements,
      if any, are sent as one command. */
  function ChunkStep(dao: Dao, net: Net, kind: BulkKind, typeName: string, plan: Plan, count: nat,
                     sessionId: Option<string>, total: int, failed: nat): (Progress, Net)
  {
    var failed1 := failed + plan.rejected;
    if plan.statements == [] then (Going(total, failed1), net)
    else SendChunk(dao, net, kind, typeName, plan.statements, plan.size, count, sessionId, total, failed1)
  }

  /** A chunk's statements sent as one command, and the counters after it. */
  function SendChunk(dao: Dao, net: Net, kind: BulkKind, typeName: string, statements: seq<string>,
                     batchLength: nat, count: nat, sessionId: Option<string>, total: int, failed: nat): (Progress, Net)
  {
    var sent := SqlCommand(dao, net, Join("; ", statements), sessionId);
    (AfterSend(sent.0, kind, typeName, batchLength, count, total, failed), sent.1)
  }

  /** The chunk loop over the remaining plans, then the final check of the counter. */
  function Chunks(dao: Dao, net: Net, kind: BulkKind, typeName: string, plans: seq<Plan>, count: nat,
                  sessionId: Option<string>, total: int, failed: nat): (Result<int, Exc>, Net)
    decreases |plans|
  {
    if plans == [] then
      (if failed > 0 then Err(PartlyFailed(kind, typeName, failed, count)) else Ok(total), net)
    else
      var (p, net1) := ChunkStep(dao, net, kind, typeName, plans[0], count, sessionId, total, failed);
      if p.Stopped? then (p.result, net1)
      else Chunks(dao, net1, kind, typeName, plans[1..], count, sessionId, p.total, p.failed)
  }

  /** The body of the chunk loop as written: the statements of `records[i:i + batch_size]`
      are built, then sent. */
  method ProcessChunk(dao: Dao, net: Net, kind: BulkKind, typeName: string, items: seq<Json>, batchSize: nat,
                      sessionId: Option<string>, i: nat, total: int, failed: nat) returns (p: Progress, net': Net)
    requires i < |items|
    ensures (p, net') == ChunkStep(dao, net, kind, typeName, PlanOf(kind, typeName, items[i..Min(i + batchSize, |items|)]),
                                   |items|, sessionId, total, failed)
  {
    var batch := items[i..Min(i + batchSize, |items|)];
    var statements, rejected := BuildStatements(kind, typeName, batch);
    if statements == [] {
      return Going(total, failed + rejected), net;
    }
    p, net' := Send(dao, net, kind, typeName, statements, |batch|, |items|, sessionId, total, failed + rejected);
  }

  /** `self.query("sql", "; ".join(statements), …, is_command=True)` and what follows it. */
  method Send(dao: Dao, net: Net, kind: BulkKind, typeName: string, statements: seq<string>,
              batchLength: nat, count: nat, sessionId: Option<string>, total: int, failed: nat) returns (p: Progress, net': Net)
    ensures (p, net') == SendChunk(dao, net, kind, typeName, statements, batchLength, count, sessionId, total, failed)
  {
    var result;
    result, net' := Command(dao, net, Join("; ", statements), sessionId);
    p := Count(result, kind, typeName, batchLength, count, total, failed);
  }

  /** The counter updates after `self.query(...)` returned or raised. */
  method Count(sent: Result<Json, Exc>, kind: BulkKind, typeName: string, batchLength: nat, count: nat,
               total: int, failed: nat) returns (p: Progress)
    ensures p == AfterSend(sent, kind, typeName, batchLength, count, total, failed)
  {
    var totalDone, failedNow := total, failed;
    if sent.Ok? {
      var batchSuccess := batchLength - failedNow;
      totalDone := totalDone + batchSuccess;
    } else {
      failedNow := failedNow + batchLength;
      if failedNow == count {
        return Stopped(Err(AllFailed(kind, typeName, failedNow, count)));
      }
    }
    return Going(totalDone, failedNow);
  }

  /** `Chunks` over the plans from offset `i`, its first chunk taken. */
  lemma ChunksStep(dao: Dao, net: Net, kind: BulkKind, typeName: string, items: seq<Json>, batchSize: nat,
                   sessionId: Option<string>, i: nat, total: int, failed: nat)
    requires batchSize > 0 && i < |items|
    ensures var (p, net1) := ChunkStep(dao, net, kind, typeName, PlanOf(kind, typeName, items[i..Min(i + batchSize, |items|)]),
                                       |items|, sessionId, total, failed);
      Chunks(dao, net, kind, typeName, Plans(kind, typeName, items, batchSize, i), |items|, sessionId, total, failed)
        == if p.Stopped? then (p.result, net1)
           else Chunks(dao, net1, kind, typeName, Plans(kind, typeName, items, batchSize, i + batchSize), |items|, sessionId, p.total, p.failed)
  {
    PlansHead(kind, typeName, items, batchSize, i);
  }

  /** The chunk loop as written: `for i in range(0, len(records), batch_size)`. */
  method RunChunks(dao: Dao, net: Net, kind: BulkKind, typeName: string, items: seq<Json>, batchSize: nat,
                   sessionId: Option<string>) returns (r: Result<int, Exc>, net': Net)
    requires batchSize > 0
    ensures (r, net') == Chunks(dao, net, kind, typeName, Plans(kind, typeName, items, batchSize, 0), |items|, sessionId, 0, 0)
  {
    var total: int := 0;
    var failed: nat := 0;
    var i: nat := 0;
    net' := net;
    while i < |items|
      invariant Chunks(dao, net, kind, typeName, Plans(kind, typeName, items, batchSize, 0), |items|, sessionId, 0, 0)
             == Chunks(dao, net', kind, typeName, Plans(kind, typeName, items, batchSize, i), |items|, sessionId, total, failed)
      decreases |items| - i
    {
      ChunksStep(dao, net', kind, typeName, items, batchSize, sessionId, i, total, failed);
      var p;
      p, net' := ProcessChunk(dao, net', kind, typeName, items, batchSize, sessionId, i, total, failed);
      if p.Stopped? {
        return p.result, net';
      }
      total, failed := p.total, p.failed;
      i := i + batchSize;
    }
    if failed > 0 {
      return Err(PartlyFailed(kind, typeName, failed, |items|)), net';
    }
    return Ok(total), net';
  }

  // ---------------------------------------------------------------------------
  // The three operations
  // ---------------------------------------------------------------------------

  /** The validation message for a truthy `records` that is not a list. */
  function NotAListMessage(kind: BulkKind): string
  {
    if kind.Delete? then "Conditions must be a list of strings" else "Records must be a list of dictionaries"
  }

  const SafeModeMessage := "Bulk delete without conditions is not allowed in safe mode. Set safe_mode=False to delete all records."

  /** `bulk_delete` without conditions: refused in safe mode; otherwise TRUNCATE, and
      `DELETE FROM` only if that raised, whose own error propagates. */
  function ClearSpec(dao: Dao, net: Net, typeName: string, sessionId: Option<string>, safeMode: bool): (Result<int, Exc>, Net)
  {
    if safeMode then (Err(Validation(Plain(SafeModeMessage))), net)
    else
      var (t, net1) := SqlCommand(dao, net, "TRUNCATE TYPE " + typeName + " UNSAFE", sessionId);
      if t.Ok? then (Ok(0), net1)
      else
        var (d, net2) := SqlCommand(dao, net1, "DELETE FROM " + typeName, sessionId);
        (if d.Ok? then Ok(0) else Err(d.error), net2)
  }

  /** The empty-conditions branch of `bulk_delete` as written. */
  method Clear(dao: Dao, net: Net, typeName: string, sessionId: Option<string>, safeMode: bool)
    returns (r: Result<int, Exc>, net': Net)
    ensures (r, net') == ClearSpec(dao, net, typeName, sessionId, safeMode)
  {
    if safeMode {
      return Err(Validation(Plain(SafeModeMessage))), net;
    }
    var t;
    t, net' := Command(dao, net, "TRUNCATE TYPE " + typeName + " UNSAFE", sessionId);
    if t.Ok? {
      return Ok(0), net';
    }
    var d;
    d, net' := Command(dao, net', "DELETE FROM " + typeName, sessionId);
    if d.Err? {
      return Err(d.error), net';
    }
    return Ok(0), net';
  }

  /** What the bulk operation of kind `kind` returns and the calls it makes. */
  function BulkSpec(dao: Dao, net: Net, kind: BulkKind, typeName: string, records: Json, batchSize: int,
                    sessionId: Option<string>): (Result<int, Exc>, Net)
  {
    if !Truthy(records) then
      if kind.Delete? then ClearSpec(dao, net, typeName, sessionId, kind.safeMode) else (Ok(0), net)
    else if !records.JList? then (Err(Validation(Plain(NotAListMessage(kind)))), net)
    else if kind.Upsert? && kind.keyField == "" then
      (Err(Validation(Plain("Key field is required for upsert operations"))), net)
    else if batchSize == 0 then (Err(Foreign("ValueError", "range() arg 3 must not be zero")), net)
    else if batchSize < 0 then (Ok(0), net)
    else Chunks(dao, net, kind, typeName, Plans(kind, typeName, records.items, batchSize, 0), |records.items|, sessionId, 0, 0)
  }

  /** The shared body of the three methods. */
  method Bulk(dao: Dao, net: Net, kind: BulkKind, typeName: string, records: Json, batchSize: int,
              sessionId: Option<string>) returns (r: Result<int, Exc>, net': Net)
    ensures (r, net') == BulkSpec(dao, net, kind, typeName, records, batchSize, sessionId)
  {
    if !Truthy(records) {
      if kind.Delete? {
        r, net' := Clear(dao, net, typeName, sessionId, kind.safeMode);
        return;
      }
      return Ok(0), net;
    }
    if !records.JList? {
      return Err(Validation(Plain(NotAListMessage(kind)))), net;
    }
    if kind.Upsert? && kind.keyField == "" {
      return Err(Validation(Plain("Key field is required for upsert operations"))), net;
    }
    if batchSize == 0 {
      return Err(Foreign("ValueError", "range() arg 3 must not be zero")), net;
    }
    if batchSize < 0 {
      return Ok(0), net;
    }
    r, net' := RunChunks(dao, net, kind, typeName, records.items, batchSize, sessionId);
  }

  /** `bulk_insert(type_name, records, batch_size, session_id)`. */
  method BulkInsert(dao: Dao, net: Net, typeName: string, records: Json, batchSize: int, sessionId: Option<string>)
    returns (r: Result<int, Exc>, net': Net)
    ensures (r, net') == BulkSpec(dao, net, Insert, typeName, records, batchSize, sessionId)
  {
    r, net' := Bulk(dao, net, Insert, typeName, records, batchSize, sessionId);
  }

  /** `bulk_upsert(type_name, records, key_field, batch_size, session_id)`. */
  method BulkUpsert(dao: Dao, net: Net, typeName: string, records: Json, keyField: string, batchSize: int,
                    sessionId: Option<string>) returns (r: Result<int, Exc>, net': Net)
    ensures (r, net') == BulkSpec(dao, net, Upsert(keyField), typeName, records, batchSize, sessionId)
  {
    r, net' := Bulk(dao, net, Upsert(keyField), typeName, records, batchSize, sessionId);
  }

  /** `bulk_delete(type_name, conditions, batch_size, session_id, safe_mode)`. */
  method BulkDelete(dao: Dao, net: Net, typeName: string, conditions: Json, batchSize: int,
                    sessionId: Option<string>, safeMode: bool) returns (r: Result<int, Exc>, net': Net)
    ensures (r, net') == BulkSpec(dao, net, Delete(safeMode), typeName, conditions, batchSize, sessionId)
  {
    r, net' := Bulk(dao, net, Delete(safeMode), typeName, conditions, batchSize, sessionId);
  }

  // ---------------------------------------------------------------------------
  // Properties
  // ---------------------------------------------------------------------------

  /** Empty `records` give 0 with no query; empty delete conditions are refused in safe
      mode before any query. */
  lemma EmptyInputSendsNothing(dao: Dao, net: Net, kind: BulkKind, typeName: string, records: Json, batchSize: int,
                               sessionId: Option<string>)
    requires !Truthy(records)
    ensures !kind.Delete? ==> BulkSpec(dao, net, kind, typeName, records, batchSize, sessionId) == (Ok(0), net)
    ensures kind == Delete(true) ==>
      BulkSpec(dao, net, kind, typeName, records, batchSize, sessionId) == (Err(Validation(Plain(SafeModeMessage))), net)
  {
  }

  /** Without safe mode, clearing a type tries TRUNCATE first and falls back to
      `DELETE FROM` only if that raised; it returns 0 or the fallback's error. */
  lemma ClearTruncatesFirst(dao: Dao, net: Net, typeName: string, sessionId: Option<string>)
    ensures var (r, net') := ClearSpec(dao, net, typeName, sessionId, false);
      var truncate := SqlCommandCall(dao, JStr("TRUNCATE TYPE " + typeName + " UNSAFE"), sessionId);
      var delete := SqlCommandCall(dao, JStr("DELETE FROM " + typeName), sessionId);
      && (net.script != [] && net.script[0].Answer? ==> r == Ok(0) && net'.sent == net.sent + [truncate])
      && (!(net.script != [] && net.script[0].Answer?) ==> net'.sent == net.sent + [truncate, delete])
      && (r.Ok? ==> r.value == 0)
  {
  }

  /** A zero `batch_size` raises from `range` and a negative one runs no chunk, both
      before any query. */
  lemma BatchSizeEdges(dao: Dao, net: Net, kind: BulkKind, typeName: string, items: seq<Json>, batchSize: int,
                       sessionId: Option<string>)
    requires items != [] && batchSize <= 0
    requires !kind.Upsert? || kind.keyField != ""
    ensures var (r, net') := BulkSpec(dao, net, kind, typeName, JList(items), batchSize, sessionId);
      && net' == net
      && (batchSize == 0 <==> r.Err?)
      && (batchSize < 0 ==> r == Ok(0))
  {
  }

  /** A record that can be sent: accepted, and (for insert) not an empty dict. */
  predicate Sendable(kind: BulkKind, record: Json)
  {
    !Rejected(kind, record) && !(kind.Insert? && record == JObject([]))
  }

  /** A chunk of sendable records has no rejected record and one statement each. */
  lemma {:induction false} SendableChunk(kind: BulkKind, typeName: string, batch: seq<Json>)
    requires forall k :: 0 <= k < |batch| ==> Sendable(kind, batch[k])
    ensures ChunkRejected(kind, batch) == 0
    ensures |ChunkStatements(kind, typeName, batch)| == |batch|
  {
    if batch != [] {
      var init := batch[..|batch| - 1];
      assert forall k :: 0 <= k < |init| ==> init[k] == batch[k];
      SendableChunk(kind, typeName, init);
    }
  }

  /** The records the plans cover. */
  function Size(plans: seq<Plan>): nat
  {
    if plans == [] then 0 else plans[0].size + Size(plans[1..])
  }

  /** The commands the loop sends over the plans when every command is answered: one
      per chunk that has statements, in chunk order. */
  function Commands(dao: Dao, plans: seq<Plan>, sessionId: Option<string>): seq<Call>
  {
    if plans == [] then []
    else (if plans[0].statements == [] then [] else [ChunkCall(dao, plans[0], sessionId)])
         + Commands(dao, plans[1..], sessionId)
  }

  /** A plan with nothing rejected and something to send. */
  predicate Clean(plan: Plan)
  {
    plan.rejected == 0 && plan.statements != []
  }

  /** Every plan is clean. */
  predicate AllClean(plans: seq<Plan>)
  {
    plans == [] || (Clean(plans[0]) && AllClean(plans[1..]))
  }

  /** Every record from offset `i` on can be sent. */
  predicate SendableFrom(kind: BulkKind, items: seq<Json>, i: nat)
  {
    forall k :: i <= k < |items| ==> Sendable(kind, items[k])
  }

  /** Every record can be sent. */
  predicate AllSendable(kind: BulkKind, items: seq<Json>)
  {
    items == [] || (Sendable(kind, items[0]) && AllSendable(kind, items[1..]))
  }

  /** `AllSendable` says that each record is sendable. */
  lemma {:induction false} AllSendableFrom(kind: BulkKind, items: seq<Json>)
    ensures AllSendable(kind, items) ==> SendableFrom(kind, items, 0)
  {
    if items != [] && AllSendable(kind, items) {
      AllSendableFrom(kind, items[1..]);
      forall k | 0 <= k < |items|
        ensures Sendable(kind, items[k])
      {
        if k > 0 {
          assert items[k] == items[1..][k - 1];
        }
      }
    }
  }

  /** Over sendable records the plans from the start are clean. */
  lemma SendableClean(kind: BulkKind, typeName: string, items: seq<Json>, batchSize: nat)
    requires batchSize > 0
    ensures AllSendable(kind, items) ==> AllClean(Plans(kind, typeName, items, batchSize, 0))
  {
    AllSendableFrom(kind, items);
    if AllSendable(kind, items) {
      SendablePlans(kind, typeName, items, batchSize, 0);
    }
  }

  /** Over sendable records every chunk's plan is clean. */
  lemma {:induction false} SendablePlans(kind: BulkKind, typeName: string, items: seq<Json>, batchSize: nat, i: nat)
    requires batchSize > 0
    requires SendableFrom(kind, items, i)
    ensures AllClean(Plans(kind, typeName, items, batchSize, i))
    decreases |items| - i
  {
    if i < |items| {
      HeadClean(kind, typeName, items, batchSize, i);
      SendableLater(kind, items, i, i + batchSize);
      SendablePlans(kind, typeName, items, batchSize, i + batchSize);
      AllCleanStep(kind, typeName, items, batchSize, i);
    }
  }

  /** A clean first plan before clean plans. */
  lemma AllCleanStep(kind: BulkKind, typeName: string, items: seq<Json>, batchSize: nat, i: nat)
    requires batchSize > 0 && i < |items|
    ensures Clean(PlanOf(kind, typeName, items[i..Min(i + batchSize, |items|)]))
            && AllClean(Plans(kind, typeName, items, batchSize, i + batchSize))
            ==> AllClean(Plans(kind, typeName, items, batchSize, i))
  {
    var head := PlanOf(kind, typeName, items[i..Min(i + batchSize, |items|)]);
    var rest := Plans(kind, typeName, items, batchSize, i + batchSize);
    assert Plans(kind, typeName, items, batchSize, i) == [head] + rest;
    if Clean(head) && AllClean(rest) {
      CleanCons(head, rest);
    }
  }

  /** The plans cover the records from `i` on, one chunk of at least one record each. */
  lemma {:induction false} PlansCover(kind: BulkKind, typeName: string, items: seq<Json>, batchSize: nat, i: nat)
    requires batchSize > 0
    ensures Size(Plans(kind, typeName, items, batchSize, i)) == |items| - Min(i, |items|)
    ensures |Plans(kind, typeName, items, batchSize, i)| <= |items| - Min(i, |items|)
    decreases |items| - i
  {
    if i < |items| {
      var end := Min(i + batchSize, |items|);
      var head := PlanOf(kind, typeName, items[i..end]);
      assert head.size == end - i;
      var rest := Plans(kind, typeName, items, batchSize, i + batchSize);
      PlansCover(kind, typeName, items, batchSize, i + batchSize);
      var plans := Plans(kind, typeName, items, batchSize, i);
      assert plans == [head] + rest;
      assert plans[1..] == rest;
      assert Size(plans) == head.size + Size(rest);
      assert |items| - Min(i + batchSize, |items|) == |items| - end;
    }
  }

  /** Over sendable records the first chunk's plan is clean. */
  lemma HeadClean(kind: BulkKind, typeName: string, items: seq<Json>, batchSize: nat, i: nat)
    requires batchSize > 0 && i < |items|
    ensures SendableFrom(kind, items, i) ==> Clean(PlanOf(kind, typeName, items[i..Min(i + batchSize, |items|)]))
  {
    var batch := items[i..Min(i + batchSize, |items|)];
    if SendableFrom(kind, items, i) {
      assert forall k :: 0 <= k < |batch| ==> Sendable(kind, batch[k]) by {
        forall k | 0 <= k < |batch| ensures Sendable(kind, batch[k]) {
          assert batch[k] == items[i + k];
        }
      }
      SendableChunk(kind, typeName, batch);
    }
  }

  /** Sendable from `i` on, so sendable from any later offset. */
  lemma SendableLater(kind: BulkKind, items: seq<Json>, i: nat, j: nat)
    requires i <= j
    ensures SendableFrom(kind, items, i) ==> SendableFrom(kind, items, j)
  {
  }

  /** A clean plan before clean plans. */
  lemma CleanCons(head: Plan, rest: seq<Plan>)
    requires Clean(head) && AllClean(rest)
    ensures AllClean([head] + rest)
  {
    assert ([head] + rest)[1..] == rest;
  }

  /** An answered turn over a clean plan sends its one command and counts the chunk. */
  lemma AnsweredStep(dao: Dao, net: Net, kind: BulkKind, typeName: string, plan: Plan, count: nat,
                     sessionId: Option<string>, total: int)
    requires Clean(plan)
    requires net.script != [] && net.script[0].Answer?
    ensures ChunkStep(dao, net, kind, typeName, plan, count, sessionId, total, 0)
         == (Going(total + plan.size, 0), Net(net.script[1..], net.sent + [ChunkCall(dao, plan, sessionId)]))
  {
  }

  /** When every plan is clean and the server answers every command, the loop counts
      every record it covers. */
  lemma {:induction false} AnsweredCount(dao: Dao, net: Net, kind: BulkKind, typeName: string, plans: seq<Plan>,
                                         count: nat, sessionId: Option<string>, total: int)
    requires AllClean(plans)
    requires |net.script| >= |plans| && forall k :: 0 <= k < |net.script| ==> net.script[k].Answer?
    ensures Chunks(dao, net, kind, typeName, plans, count, sessionId, total, 0).0 == Ok(total + Size(plans))
    decreases |plans|
  {
    if plans != [] {
      AnsweredStep(dao, net, kind, typeName, plans[0], count, sessionId, total);
      var net1 := Net(net.script[1..], net.sent + [ChunkCall(dao, plans[0], sessionId)]);
      assert forall k :: 0 <= k < |net1.script| ==> net1.script[k] == net.script[k + 1];
      AnsweredCount(dao, net1, kind, typeName, plans[1..], count, sessionId, total + plans[0].size);
    }
  }

  /** ... and sends one command per chunk, in chunk order. */
  lemma {:induction false} AnsweredCalls(dao: Dao, net: Net, kind: BulkKind, typeName: string, plans: seq<Plan>,
                                         count: nat, sessionId: Option<string>, total: int)
    requires AllClean(plans)
    requires |net.script| >= |plans| && forall k :: 0 <= k < |net.script| ==> net.script[k].Answer?
    ensures Chunks(dao, net, kind, typeName, plans, count, sessionId, total, 0).1.sent
         == net.sent + Commands(dao, plans, sessionId)
    decreases |plans|
  {
    if plans != [] {
      AnsweredStep(dao, net, kind, typeName, plans[0], count, sessionId, total);
      var call := ChunkCall(dao, plans[0], sessionId);
      var net1 := Net(net.script[1..], net.sent + [call]);
      assert forall k :: 0 <= k < |net1.script| ==> net1.script[k] == net.script[k + 1];
      AnsweredCalls(dao, net1, kind, typeName, plans[1..], count, sessionId, total + plans[0].size);
      var rest := Commands(dao, plans[1..], sessionId);
      assert (net.sent + [call]) + rest == net.sent + ([call] + rest);
    }
  }

  /** So `bulk_insert`/`bulk_upsert`/`bulk_delete` of sendable records, all answered,
      return the number of records, after one command per chunk in input order. */
  lemma AllSucceedReturnsCount(dao: Dao, net: Net, kind: BulkKind, typeName: string, items: seq<Json>,
                               batchSize: nat, sessionId: Option<string>)
    requires batchSize > 0 && items != []
    requires !kind.Upsert? || kind.keyField != ""
    requires AllSendable(kind, items)
    requires |net.script| >= |items| && forall k :: 0 <= k < |net.script| ==> net.script[k].Answer?
    ensures var (r, net') := BulkSpec(dao, net, kind, typeName, JList(items), batchSize, sessionId);
      && r == Ok(|items|)
      && net'.sent == net.sent + Commands(dao, Plans(kind, typeName, items, batchSize, 0), sessionId)
  {
    var plans := Plans(kind, typeName, items, batchSize, 0);
    SendableClean(kind, typeName, items, batchSize);
    PlansCover(kind, typeName, items, batchSize, 0);
    AnsweredRun(dao, net, kind, typeName, plans, |items|, sessionId);
    BulkOfList(dao, net, kind, typeName, items, batchSize, sessionId);
  }

  /** The loop from its start over clean plans, every command answered. */
  lemma AnsweredRun(dao: Dao, net: Net, kind: BulkKind, typeName: string, plans: seq<Plan>,
                    count: nat, sessionId: Option<string>)
    requires AllClean(plans)
    requires |net.script| >= |plans| && forall k :: 0 <= k < |net.script| ==> net.script[k].Answer?
    ensures var c := Chunks(dao, net, kind, typeName, plans, count, sessionId, 0, 0);
      c.0 == Ok(Size(plans)) && c.1.sent == net.sent + Commands(dao, plans, sessionId)
  {
    AnsweredCount(dao, net, kind, typeName, plans, count, sessionId, 0);
    AnsweredCalls(dao, net, kind, typeName, plans, count, sessionId, 0);
  }

  /** A non-empty list with a positive batch size goes to the chunk loop. */
  lemma BulkOfList(dao: Dao, net: Net, kind: BulkKind, typeName: string, items: seq<Json>,
                   batchSize: nat, sessionId: Option<string>)
    requires batchSize > 0 && items != []
    requires !kind.Upsert? || kind.keyField != ""
    ensures BulkSpec(dao, net, kind, typeName, JList(items), batchSize, sessionId)
         == Chunks(dao, net, kind, typeName, Plans(kind, typeName, items, batchSize, 0), |items|, sessionId, 0, 0)
  {
  }

  /** The loop ends normally only when nothing failed: the failure counter is still 0
      and no plan had a rejected record. */
  lemma {:induction false} OkMeansNothingFailed(dao: Dao, net: Net, kind: BulkKind, typeName: string, plans: seq<Plan>,
                                                count: nat, sessionId: Option<string>, total: int, failed: nat)
    requires Chunks(dao, net, kind, typeName, plans, count, sessionId, total, failed).0.Ok?
    ensures failed == 0
    ensures NoneRejected(plans)
    decreases |plans|
  {
    if plans != [] {
      var (p, net1) := ChunkStep(dao, net, kind, typeName, plans[0], count, sessionId, total, failed);
      assert p.Going? && p.failed >= failed + plans[0].rejected;
      OkMeansNothingFailed(dao, net1, kind, typeName, plans[1..], count, sessionId, p.total, p.failed);
      assert forall j :: 1 <= j < |plans| ==> plans[j] == plans[1..][j - 1];
    }
  }

  predicate NoneRejected(plans: seq<Plan>)
  {
    forall j :: 0 <= j < |plans| ==> plans[j].rejected == 0
  }

  /** Plans with nothing rejected come from records that are all accepted. */
  lemma {:induction false} AcceptedRecords(kind: BulkKind, typeName: string, items: seq<Json>, batchSize: nat, i: nat)
    requires batchSize > 0
    requires NoneRejected(Plans(kind, typeName, items, batchSize, i))
    ensures forall k :: i <= k < |items| ==> !Rejected(kind, items[k])
    decreases |items| - i
  {
    if i < |items| {
      var end := Min(i + batchSize, |items|);
      var plans := Plans(kind, typeName, items, batchSize, i);
      PlansHead(kind, typeName, items, batchSize, i);
      NoneRejectedTail(plans);
      assert ChunkRejected(kind, items[i..end]) == plans[0].rejected == 0;
      AcceptedRecords(kind, typeName, items, batchSize, i + batchSize);
      AcceptedBatch(kind, typeName, items, i, end);
      assert end == i + batchSize || end == |items|;
    }
  }

  /** The plans from `i` on: the plan of the chunk at `i`, then the plans after it. */
  lemma PlansHead(kind: BulkKind, typeName: string, items: seq<Json>, batchSize: nat, i: nat)
    requires batchSize > 0 && i < |items|
    ensures var plans := Plans(kind, typeName, items, batchSize, i);
      && plans != []
      && plans[0] == PlanOf(kind, typeName, items[i..Min(i + batchSize, |items|)])
      && plans[1..] == Plans(kind, typeName, items, batchSize, i + batchSize)
  {
    var plans := Plans(kind, typeName, items, batchSize, i);
    assert plans[1..] == Plans(kind, typeName, items, batchSize, i + batchSize);
  }

  /** Nothing rejected in the plans: nothing in the first, nothing in the rest. */
  lemma NoneRejectedTail(plans: seq<Plan>)
    ensures NoneRejected(plans) && plans != [] ==> plans[0].rejected == 0 && NoneRejected(plans[1..])
  {
    if NoneRejected(plans) && plans != [] {
      assert forall j :: 0 <= j < |plans[1..]| ==> plans[1..][j] == plans[j + 1];
    }
  }

  /** A chunk with no rejected record holds only accepted records. */
  lemma AcceptedBatch(kind: BulkKind, typeName: string, items: seq<Json>, i: nat, end: nat)
    requires i <= end <= |items|
    ensures ChunkRejected(kind, items[i..end]) == 0 ==> forall k :: i <= k < end ==> !Rejected(kind, items[k])
  {
    var batch := items[i..end];
    ChunkAccounting(kind, typeName, batch);
    if ChunkRejected(kind, batch) == 0 {
      forall k | i <= k < end
        ensures !Rejected(kind, items[k])
      {
        assert items[k] == batch[k - i];
      }
    }
  }

  /** So a bulk operation over a list that returns normally rejected no record. */
  lemma OkMeansNothingRejected(dao: Dao, net: Net, kind: BulkKind, typeName: string, items: seq<Json>,
                               batchSize: int, sessionId: Option<string>)
    requires batchSize > 0 && items != []
    requires BulkSpec(dao, net, kind, typeName, JList(items), batchSize, sessionId).0.Ok?
    ensures forall k :: 0 <= k < |items| ==> !Rejected(kind, items[k])
  {
    if !(kind.Upsert? && kind.keyField == "") {
      OkMeansNothingFailed(dao, net, kind, typeName, Plans(kind, typeName, items, batchSize, 0), |items|, sessionId, 0, 0);
      AcceptedRecords(kind, typeName, items, batchSize, 0);
    }
  }

  /** A BulkOperationException always reports the full record count and a positive
      failure count; the failure count can exceed the record count (see below). */
  lemma {:induction false} FailureReportsTotal(dao: Dao, net: Net, kind: BulkKind, typeName: string, plans: seq<Plan>,
                                               count: nat, sessionId: Option<string>, total: int, failed: nat)
    requires count > 0
    ensures var r := Chunks(dao, net, kind, typeName, plans, count, sessionId, total, failed).0;
      r.Err? ==> && r.error.BulkOperation? && r.error.totalRecords == Some(count)
                 && r.error.failedRecords.Some? && r.error.failedRecords.value > 0
    decreases |plans|
  {
    if plans != [] {
      var (p, net1) := ChunkStep(dao, net, kind, typeName, plans[0], count, sessionId, total, failed);
      if p.Going? {
        FailureReportsTotal(dao, net1, kind, typeName, plans[1..], count, sessionId, p.total, p.failed);
      }
    }
  }

  /** As written, a non-dict record in a chunk whose command fails is counted twice, so
      `[1, {"a": 1}]` in one chunk whose command fails reports 3 of 2 records failed
      (and, being past 2, is not the immediate "failed" exception). */
  lemma DoubleCountedFailure(dao: Dao, net: Net, typeName: string, sessionId: Option<string>)
    requires net.script != [] && !net.script[0].Answer?
    ensures var items := [JInt(1), JObject([("a", JInt(1))])];
      BulkSpec(dao, net, Insert, typeName, JList(items), 2, sessionId).0
        == Err(PartlyFailed(Insert, typeName, 3, 2))
  {
    var items := [JInt(1), JObject([("a", JInt(1))])];
    assert items[0..Min(2, 2)] == items;
    assert items[..1] == [JInt(1)];
    assert [JInt(1)][..0] == [];
    assert ChunkStatements(Insert, typeName, [JInt(1)]) == [];
    assert StatementOf(Insert, typeName, items[1]).Some?;
    var plan := PlanOf(Insert, typeName, items);
    assert plan.rejected == 1 && |plan.statements| == 1 && plan.size == 2;
    assert Plans(Insert, typeName, items, 2, 0) == [plan];
    var (p, net1) := ChunkStep(dao, net, Insert, typeName, plan, 2, sessionId, 0, 0);
    assert p == Going(0, 3);
    assert [plan][1..] == [];
    assert Chunks(dao, net1, Insert, typeName, [], 2, sessionId, 0, 3).0 == Err(PartlyFailed(Insert, typeName, 3, 2));
    assert Chunks(dao, net, Insert, typeName, [plan], 2, sessionId, 0, 0).0 == Err(PartlyFailed(Insert, typeName, 3, 2));
  }

  /** A single chunk of sendable records whose command fails raises the immediate
      "failed" exception with every record counted, after exactly one call. */
  lemma ImmediateFailure(dao: Dao, net: Net, kind: BulkKind, typeName: string, items: seq<Json>,
                         batchSize: nat, sessionId: Option<string>)
    requires items != [] && batchSize >= |items|
    requires !kind.Upsert? || kind.keyField != ""
    requires forall k :: 0 <= k < |items| ==> Sendable(kind, items[k])
    requires net.script == [] || !net.script[0].Answer?
    ensures var (r, net') := BulkSpec(dao, net, kind, typeName, JList(items), batchSize, sessionId);
      && r == Err(AllFailed(kind, typeName, |items|, |items|))
      && |net'.sent| == |net.sent| + 1
  {
    assert items[0..Min(batchSize, |items|)] == items;
    SendableChunk(kind, typeName, items);
    assert Plans(kind, typeName, items, batchSize, 0) == [PlanOf(kind, typeName, items)];
  }
}
