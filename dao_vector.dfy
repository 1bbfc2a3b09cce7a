/** The vector helpers of `DatabaseDao`: `vector_search`, `create_vector_index`,
    `get_vector_similarity` and `batch_vector_search`. Each validates its arguments
    before any call and wraps what fails afterwards in a VectorOperationException. */
module DaoVector {
  import opened Wrappers
  import opened Strings
  import opened JsonValue
  import opened Exceptions
  import opened Transport
  import opened DaoQuery
  import DaoReads

  /** The indentation inside the triple-quoted query templates. */
  const Indent := "            "

  const NotAnEmbedding := "Query embedding must be a non-empty list of floats"
  const NotNumeric := "Query embedding must contain only numeric values"
  const BadTopK := "top_k must be a positive integer"

  /** `all(isinstance(x, (int, float)) for x in xs)`. */
  predicate AllNumbers(xs: seq<Json>)
  {
    forall k | 0 <= k < |xs| :: IsNumber(xs[k])
  }

  /** The checks of the query vector, in their order: a non-empty list, then numbers only. */
  function EmbeddingProblem(embedding: Json): (r: Option<Exc>)
    ensures r.None? <==> embedding.JList? && embedding.items != [] && AllNumbers(embedding.items)
    ensures r.Some? ==> r.value.Validation?
  {
    if !embedding.JList? || embedding.items == [] then Some(Validation(Plain(NotAnEmbedding)))
    else if !AllNumbers(embedding.items) then Some(Validation(Plain(NotNumeric)))
    else None
  }

  /** `len(query_embedding)` once the vector is known to be a list. */
  function Dimensions(embedding: Json): int
  {
    if embedding.JList? then |embedding.items| else 0
  }

  // ---------------------------------------------------------------------------
  // vector_search
  // ---------------------------------------------------------------------------

  /** The similarity query of `vector_search`. */
  function SearchQuery(typeName: string, field: string, embedding: Json, topK: int, where: Option<string>): string
  {
    "\n" + Indent + "SELECT *, cosine_similarity(" + field + ", " + Dumps(embedding) + ") as similarity_score\n"
      + Indent + "FROM " + typeName + "\n" + Indent
      + (if DaoReads.HasWhere(where) then " WHERE " + where.value else "")
      + " ORDER BY similarity_score DESC LIMIT " + IntToString(topK)
  }

  function SearchFailed(typeName: string, embedding: Json): Exc
  {
    VectorOperation(Plain("Vector search failed for type " + typeName), Some(Dimensions(embedding)))
  }

  /** Reference definition of `vector_search(type_name, embedding_field, query_embedding,
      top_k, where_clause, session_id)`. */
  function SearchSpec(dao: Dao, net: Net, typeName: string, field: string, embedding: Json, topK: int,
                      where: Option<string>, sessionId: Option<string>): (Result<seq<Json>, Exc>, Net)
  {
    var problem := EmbeddingProblem(embedding);
    if problem.Some? then (Err(problem.value), net)
    else if topK <= 0 then (Err(Validation(Plain(BadTopK))), net)
    else
      var (r, net1) := SqlQuery(dao, net, SearchQuery(typeName, field, embedding, topK, where), sessionId);
      if r.Ok? then (Ok(AsList(r.value)), net1) else (Err(SearchFailed(typeName, embedding)), net1)
  }

  /** `vector_search(...)` as written. */
  method VectorSearch(dao: Dao, net: Net, typeName: string, field: string, embedding: Json, topK: int,
                      where: Option<string>, sessionId: Option<string>)
    returns (r: Result<seq<Json>, Exc>, net': Net)
    ensures (r, net') == SearchSpec(dao, net, typeName, field, embedding, topK, where, sessionId)
  {
    if !embedding.JList? || embedding.items == [] {
      return Err(Validation(Plain(NotAnEmbedding))), net;
    }
    if !AllNumbers(embedding.items) {
      return Err(Validation(Plain(NotNumeric))), net;
    }
    if topK <= 0 {
      return Err(Validation(Plain(BadTopK))), net;
    }
    var result;
    result, net' := Select(dao, net, SearchQuery(typeName, field, embedding, topK, where), sessionId);
    if result.Ok? {
      return Ok(AsList(result.value)), net';
    }
    r := Err(SearchFailed(typeName, embedding));
  }

  /** `vector_search` raises ValidationException exactly for a bad vector or a top_k that
      is not positive, and then sends nothing; otherwise its first call is the similarity
      query, and any failure is a VectorOperationException carrying the vector's length. */
  lemma SearchValidatesFirst(dao: Dao, net: Net, typeName: string, field: string, embedding: Json, topK: int,
                             where: Option<string>, sessionId: Option<string>)
    ensures var (r, net') := SearchSpec(dao, net, typeName, field, embedding, topK, where, sessionId);
      var invalid := EmbeddingProblem(embedding).Some? || topK <= 0;
      && (r.Err? && r.error.Validation? <==> invalid)
      && (invalid ==> net' == net)
      && (!invalid ==>
            && |net'.sent| > |net.sent| && net'.sent[..|net.sent|] == net.sent
            && net'.sent[|net.sent|] == SqlQueryCall(dao, JStr(SearchQuery(typeName, field, embedding, topK, where)), sessionId)
            && (r.Err? ==> r.error == SearchFailed(typeName, embedding) && r.error.dimensions == Some(|embedding.items|)))
  {
    if EmbeddingProblem(embedding).None? && topK > 0 {
      SqlQueryFirstCall(dao, net, SearchQuery(typeName, field, embedding, topK, where), sessionId);
    }
  }

  // ---------------------------------------------------------------------------
  // create_vector_index
  // ---------------------------------------------------------------------------

  function IndexName(typeName: string, propertyName: string): string
  {
    typeName + "_" + propertyName + "_vector_idx"
  }

  /** The three statements `create_vector_index` tries, in order. */
  function IndexCandidates(typeName: string, propertyName: string, dimensions: int, indexType: string): (qs: seq<string>)
    ensures |qs| == 3
  {
    var head := "CREATE INDEX " + IndexName(typeName, propertyName) + " ON " + typeName + " (" + propertyName + ")";
    [head + " VECTOR " + indexType + " DIMENSIONS " + IntToString(dimensions),
     head + " VECTOR(" + IntToString(dimensions) + ")",
     head]
  }

  /** Try the statements in order through `command` and stop at the first that succeeds. */
  function TryEach(command: (Net, string) -> (Result<Json, Exc>, Net), net: Net, statements: seq<string>): (bool, Net)
    decreases |statements|
  {
    if statements == [] then (false, net)
    else
      var (r, net1) := command(net, statements[0]);
      if r.Ok? then (true, net1) else TryEach(command, net1, statements[1..])
  }

  /** `SqlCommand` as a function of the connection and the statement. */
  function Committer(dao: Dao, sessionId: Option<string>): (command: (Net, string) -> (Result<Json, Exc>, Net))
    ensures forall n: Net, q: string {:trigger SqlCommand(dao, n, q, sessionId)} ::
      command(n, q) == SqlCommand(dao, n, q, sessionId)
  {
    (n, q) => SqlCommand(dao, n, q, sessionId)
  }

  const BadDimensions := "Dimensions must be a positive integer"
  const BadPropertyName := "Property name must be a non-empty string"

  function IndexFailed(typeName: string, propertyName: string, dimensions: int): Exc
  {
    VectorOperation(Plain("Failed to create vector index on " + typeName + "." + propertyName), Some(dimensions))
  }

  /** Reference definition of `create_vector_index(type_name, property_name, dimensions,
      index_type, session_id)`. */
  function IndexSpec(dao: Dao, net: Net, typeName: string, propertyName: string, dimensions: int, indexType: string,
                     sessionId: Option<string>): (Result<bool, Exc>, Net)
  {
    if dimensions <= 0 then (Err(Validation(Plain(BadDimensions))), net)
    else if propertyName == "" then (Err(Validation(Plain(BadPropertyName))), net)
    else
      var (created, net1) := TryEach(Committer(dao, sessionId), net, IndexCandidates(typeName, propertyName, dimensions, indexType));
      if created then (Ok(true), net1) else (Err(IndexFailed(typeName, propertyName, dimensions)), net1)
  }

  /** `TryEach` on a suffix, one statement taken. */
  lemma TryEachStep(command: (Net, string) -> (Result<Json, Exc>, Net), net: Net, statements: seq<string>, i: int)
    requires 0 <= i < |statements|
    ensures var (r, net1) := command(net, statements[i]);
      TryEach(command, net, statements[i..]) == if r.Ok? then (true, net1) else TryEach(command, net1, statements[i + 1..])
  {
    assert statements[i..][0] == statements[i] && statements[i..][1..] == statements[i + 1..];
  }

  /** The loop of `create_vector_index`; `command` stands for the commands it sends. */
  method TryCandidates(dao: Dao, net: Net, candidates: seq<string>, sessionId: Option<string>,
                       ghost command: (Net, string) -> (Result<Json, Exc>, Net))
    returns (created: bool, net': Net)
    requires forall n: Net, q: string {:trigger SqlCommand(dao, n, q, sessionId)} ::
      command(n, q) == SqlCommand(dao, n, q, sessionId)
    ensures (created, net') == TryEach(command, net, candidates)
  {
    net' := net;
    assert candidates[0..] == candidates;
    for i := 0 to |candidates|
      invariant TryEach(command, net, candidates) == TryEach(command, net', candidates[i..])
    {
      TryEachStep(command, net', candidates, i);
      var result;
      result, net' := Command(dao, net', candidates[i], sessionId);
      if result.Ok? {
        return true, net';
      }
    }
    assert candidates[|candidates|..] == [];
    created := false;
  }

  /** `create_vector_index(...)` as written: its loop over the candidates. */
  method CreateVectorIndex(dao: Dao, net: Net, typeName: string, propertyName: string, dimensions: int,
                           indexType: string, sessionId: Option<string>)
    returns (r: Result<bool, Exc>, net': Net)
    ensures (r, net') == IndexSpec(dao, net, typeName, propertyName, dimensions, indexType, sessionId)
  {
    if dimensions <= 0 {
      return Err(Validation(Plain(BadDimensions))), net;
    }
    if propertyName == "" {
      return Err(Validation(Plain(BadPropertyName))), net;
    }
    var created;
    created, net' := TryCandidates(dao, net, IndexCandidates(typeName, propertyName, dimensions, indexType), sessionId,
                                   Committer(dao, sessionId));
    if created {
      return Ok(true), net';
    }
    r := Err(IndexFailed(typeName, propertyName, dimensions));
  }

  /** How many replies, from the start of `script` and at most `n`, are not answers: the
      position of the first answer among the first `n`, or `n`. */
  function FirstAnswer(script: seq<Reply>, n: nat): (k: nat)
    ensures k <= n
  {
    if n == 0 then 0
    else if script != [] && script[0].Answer? then 0
    else 1 + FirstAnswer(if script == [] then [] else script[1..], n - 1)
  }

  /** The commands of `statements`, in order. */
  function CommandCalls(dao: Dao, statements: seq<string>, sessionId: Option<string>): (calls: seq<Call>)
    ensures |calls| == |statements|
  {
    if statements == [] then [] else [SqlCommandCall(dao, JStr(statements[0]), sessionId)] + CommandCalls(dao, statements[1..], sessionId)
  }

  /** What `TryEach` relies on of `command`: each call sends one SQL command, consumes one
      reply, and succeeds exactly on an answer. */
  ghost predicate CommandLike(dao: Dao, command: (Net, string) -> (Result<Json, Exc>, Net), sessionId: Option<string>)
  {
    forall n: Net, q: string {:trigger command(n, q)} ::
      && command(n, q).1.sent == n.sent + [SqlCommandCall(dao, JStr(q), sessionId)]
      && command(n, q).1.script == (if n.script == [] then [] else n.script[1..])
      && (command(n, q).0.Ok? <==> n.script != [] && n.script[0].Answer?)
  }

  /** `SqlCommand` behaves like a command. */
  lemma CommitterIsCommandLike(dao: Dao, sessionId: Option<string>)
    ensures CommandLike(dao, Committer(dao, sessionId), sessionId)
  {
    var command := Committer(dao, sessionId);
    forall n: Net, q: string
      ensures && command(n, q).1.sent == n.sent + [SqlCommandCall(dao, JStr(q), sessionId)]
              && command(n, q).1.script == (if n.script == [] then [] else n.script[1..])
              && (command(n, q).0.Ok? <==> n.script != [] && n.script[0].Answer?)
    {
      assert command(n, q) == SqlCommand(dao, n, q, sessionId);
    }
  }

  /** `CommandCalls` of a non-empty prefix, its first call taken. */
  lemma CommandCallsPrefix(dao: Dao, statements: seq<string>, m: int, sessionId: Option<string>)
    requires 1 <= m <= |statements|
    ensures CommandCalls(dao, statements[..m], sessionId)
         == [SqlCommandCall(dao, JStr(statements[0]), sessionId)] + CommandCalls(dao, statements[1..][..m - 1], sessionId)
  {
    var taken := statements[..m];
    assert taken[0] == statements[0] && taken[1..] == statements[1..][..m - 1];
  }

  /** The statements are tried in order up to the first one the server answers: the
      result is true exactly when one of them was answered. */
  lemma {:induction false} TryEachAnswered(dao: Dao, command: (Net, string) -> (Result<Json, Exc>, Net), net: Net,
                                           statements: seq<string>, sessionId: Option<string>)
    requires CommandLike(dao, command, sessionId)
    ensures TryEach(command, net, statements).0 <==> FirstAnswer(net.script, |statements|) < |statements|
    decreases |statements|
  {
    if statements != [] && !command(net, statements[0]).0.Ok? {
      TryEachAnswered(dao, command, command(net, statements[0]).1, statements[1..], sessionId);
    }
  }

  /** How many of `n` statements `TryEach` sends against `script`: up to and including
      the first one answered. */
  function Tried(script: seq<Reply>, n: nat): (m: nat)
    ensures m <= n
    decreases n
  {
    if n == 0 then 0
    else if script != [] && script[0].Answer? then 1
    else 1 + Tried(if script == [] then [] else script[1..], n - 1)
  }

  /** The count of statements sent, in terms of the first answer. */
  lemma {:induction false} TriedCount(script: seq<Reply>, n: nat)
    ensures var k := FirstAnswer(script, n);
      Tried(script, n) == if k < n then k + 1 else k
    decreases n
  {
    if n > 0 && !(script != [] && script[0].Answer?) {
      TriedCount(if script == [] then [] else script[1..], n - 1);
    }
  }

  /** The first command followed by the next `j`, after the calls already made. */
  lemma CommandCallsCons(dao: Dao, statements: seq<string>, j: nat, sessionId: Option<string>, before: seq<Call>)
    requires j < |statements|
    ensures before + [SqlCommandCall(dao, JStr(statements[0]), sessionId)] + CommandCalls(dao, statements[1..][..j], sessionId)
         == before + CommandCalls(dao, statements[..j + 1], sessionId)
  {
    CommandCallsPrefix(dao, statements, j + 1, sessionId);
    DaoReads.Associates(before, [SqlCommandCall(dao, JStr(statements[0]), sessionId)],
                        CommandCalls(dao, statements[1..][..j], sessionId));
  }

  /** `TryEach` sends the first `Tried` statements, in order. */
  lemma {:induction false} TryEachSendsTried(dao: Dao, command: (Net, string) -> (Result<Json, Exc>, Net), net: Net,
                                             statements: seq<string>, sessionId: Option<string>)
    requires CommandLike(dao, command, sessionId)
    ensures TryEach(command, net, statements).1.sent
         == net.sent + CommandCalls(dao, statements[..Tried(net.script, |statements|)], sessionId)
    decreases |statements|
  {
    if statements != [] {
      var net1 := command(net, statements[0]).1;
      if command(net, statements[0]).0.Ok? {
        CommandCallsCons(dao, statements, 0, sessionId, net.sent);
      } else {
        TryEachSendsTried(dao, command, net1, statements[1..], sessionId);
        CommandCallsCons(dao, statements, Tried(net1.script, |statements| - 1), sessionId, net.sent);
      }
    }
  }

  /** ... and no statement after the answered one is sent. */
  lemma {:induction false} TryEachSends(dao: Dao, command: (Net, string) -> (Result<Json, Exc>, Net), net: Net,
                                        statements: seq<string>, sessionId: Option<string>)
    requires CommandLike(dao, command, sessionId)
    ensures var k := FirstAnswer(net.script, |statements|);
      TryEach(command, net, statements).1.sent
        == net.sent + CommandCalls(dao, statements[..if k < |statements| then k + 1 else k], sessionId)
  {
    TryEachSendsTried(dao, command, net, statements, sessionId);
    TriedCount(net.script, |statements|);
  }

  /** `create_vector_index` sends at most the three candidates, in order, stops at the
      first the server answers and then returns True; when all three fail it raises a
      VectorOperationException carrying `dimensions`. */
  lemma IndexTriesInOrder(dao: Dao, net: Net, typeName: string, propertyName: string, dimensions: int,
                          indexType: string, sessionId: Option<string>)
    requires dimensions > 0 && propertyName != ""
    ensures var (r, net') := IndexSpec(dao, net, typeName, propertyName, dimensions, indexType, sessionId);
      var k := FirstAnswer(net.script, 3);
      var qs := IndexCandidates(typeName, propertyName, dimensions, indexType);
      && (r == Ok(true) <==> k < 3)
      && (k == 3 ==> r == Err(IndexFailed(typeName, propertyName, dimensions)) && r.error.dimensions == Some(dimensions))
      && net'.sent == net.sent + CommandCalls(dao, qs[..if k < 3 then k + 1 else 3], sessionId)
  {
    CommitterIsCommandLike(dao, sessionId);
    var qs := IndexCandidates(typeName, propertyName, dimensions, indexType);
    TryEachAnswered(dao, Committer(dao, sessionId), net, qs, sessionId);
    TryEachSends(dao, Committer(dao, sessionId), net, qs, sessionId);
  }

  // ---------------------------------------------------------------------------
  // get_vector_similarity
  // ---------------------------------------------------------------------------

  /** The similarity query of `get_vector_similarity`. */
  function SimilarityQuery(function_: string, field: string, embedding: Json, typeName: string, recordId: string): string
  {
    "\n" + Indent + "SELECT " + function_ + "(" + field + ", " + Dumps(embedding) + ") as similarity\n"
      + Indent + "FROM " + typeName + "\n"
      + Indent + "WHERE @rid = '" + recordId + "'\n" + Indent
  }

  function SimilarityFailed(recordId: string, embedding: Json): Exc
  {
    VectorOperation(Plain("Failed to calculate vector similarity for record " + recordId), Some(Dimensions(embedding)))
  }

  /** What `float(...)` accepts without raising: numbers, and strings, whose parsing is
      not modelled. */
  predicate FloatArgument(v: Json)
  {
    IsNumber(v) || v.JStr?
  }

  /** The score read from the reply: the first row's `similarity` (0.0 when absent), or 0.0
      when the reply is not a non-empty list; None for the exceptions of `.get` on a row
      that is not a dict and of `float()` on a value it refuses. */
  function Score(result: Json): Option<Json>
  {
    if Truthy(result) && result.JList? && |result.items| > 0 then
      var row := result.items[0];
      if !row.JObject? then None
      else
        var v := GetOr(row.fields, "similarity", JFloat("0.0"));
        if FloatArgument(v) then Some(v) else None
    else Some(JFloat("0.0"))
  }

  /** Reference definition of `get_vector_similarity(type_name, embedding_field, record_id,
      query_embedding, similarity_function, session_id)`. */
  function SimilaritySpec(dao: Dao, net: Net, typeName: string, field: string, recordId: string, embedding: Json,
                          function_: string, sessionId: Option<string>): (Result<Json, Exc>, Net)
  {
    var problem := EmbeddingProblem(embedding);
    if problem.Some? then (Err(problem.value), net)
    else
      var (r, net1) := SqlQuery(dao, net, SimilarityQuery(function_, field, embedding, typeName, recordId), sessionId);
      var score := if r.Ok? then Score(r.value) else None;
      if score.Some? then (Ok(score.value), net1) else (Err(SimilarityFailed(recordId, embedding)), net1)
  }

  /** `get_vector_similarity(...)` as written. */
  method GetVectorSimilarity(dao: Dao, net: Net, typeName: string, field: string, recordId: string, embedding: Json,
                             function_: string, sessionId: Option<string>)
    returns (r: Result<Json, Exc>, net': Net)
    ensures (r, net') == SimilaritySpec(dao, net, typeName, field, recordId, embedding, function_, sessionId)
  {
    if !embedding.JList? || embedding.items == [] {
      return Err(Validation(Plain(NotAnEmbedding))), net;
    }
    if !AllNumbers(embedding.items) {
      return Err(Validation(Plain(NotNumeric))), net;
    }
    var result;
    result, net' := Select(dao, net, SimilarityQuery(function_, field, embedding, typeName, recordId), sessionId);
    if result.Err? {
      return Err(SimilarityFailed(recordId, embedding)), net';
    }
    var reply := result.value;
    if Truthy(reply) && reply.JList? && |reply.items| > 0 {
      var row := reply.items[0];
      if !row.JObject? {
        return Err(SimilarityFailed(recordId, embedding)), net';
      }
      var v := GetOr(row.fields, "similarity", JFloat("0.0"));
      if !FloatArgument(v) {
        return Err(SimilarityFailed(recordId, embedding)), net';
      }
      return Ok(v), net';
    }
    r := Ok(JFloat("0.0"));
  }

  /** `get_vector_similarity` refuses exactly a bad vector before any call; a reply that
      is not a non-empty list scores 0.0, and the first row's `similarity` is the score
      otherwise. */
  lemma SimilarityOutcomes(dao: Dao, net: Net, typeName: string, field: string, recordId: string, embedding: Json,
                           function_: string, sessionId: Option<string>)
    ensures var (r, net') := SimilaritySpec(dao, net, typeName, field, recordId, embedding, function_, sessionId);
      && (r.Err? && r.error.Validation? <==> EmbeddingProblem(embedding).Some?)
      && (EmbeddingProblem(embedding).Some? ==> net' == net)
      && (EmbeddingProblem(embedding).None? && net.script != [] && net.script[0].Answer? ==>
            var reply := net.script[0].result;
            && (!(reply.JList? && reply.items != []) ==> r == Ok(JFloat("0.0")))
            && (reply.JList? && reply.items != [] && reply.items[0].JObject? && IsNumber(GetOr(reply.items[0].fields, "similarity", JNull)) ==>
                  r == Ok(GetOr(reply.items[0].fields, "similarity", JNull))))
  {
  }

  // ---------------------------------------------------------------------------
  // batch_vector_search
  // ---------------------------------------------------------------------------

  const BadSearches := "Searches must be a non-empty list of search configurations"
  const AllSearchesFailed := "All vector searches in batch failed"

  /** The fields a search configuration must hold, in the order they are checked. */
  const Required: seq<string> := ["type_name", "embedding_field", "query_embedding"]

  /** The first of `required` that `fields` lacks. */
  function FirstMissing(fields: seq<(string, Json)>, required: seq<string>): (r: Option<string>)
    ensures r.None? <==> forall k | 0 <= k < |required| :: HasKey(fields, required[k])
    ensures r.Some? ==> r.value in required && !HasKey(fields, r.value)
  {
    if required == [] then None
    else if !HasKey(fields, required[0]) then Some(required[0])
    else FirstMissing(fields, required[1..])
  }

  /** The ValidationException that aborts the batch at configuration `i`, if any. */
  function ConfigProblem(config: Json, i: nat): Option<Exc>
  {
    if !config.JObject? then Some(Validation(Plain("Search configuration " + NatToString(i) + " must be a dictionary")))
    else
      var missing := FirstMissing(config.fields, Required);
      if missing.Some? then
        Some(Validation(Plain("Search configuration " + NatToString(i) + " missing required field: " + missing.value)))
      else None
  }

  /** Python's name for the type of a value. */
  function TypeOf(v: Json): string
  {
    match v
    case JNull => "NoneType"
    case JBool(_) => "bool"
    case JInt(_) => "int"
    case JFloat(_) => "float"
    case JStr(_) => "str"
    case JList(_) => "list"
    case JObject(_) => "dict"
  }

  /** One search of the batch: `vector_search` on the configuration's fields, `top_k`
      defaulting to 10 and a falsy `where_clause` meaning none. Once the vector has passed
      its checks, a `top_k` that is not an int makes the comparison `top_k <= 0` raise. */
  function ConfigSearch(dao: Dao, net: Net, fields: seq<(string, Json)>, sessionId: Option<string>): (Result<seq<Json>, Exc>, Net)
  {
    var topK := GetOr(fields, "top_k", JInt(10));
    var where := GetOr(fields, "where_clause", JNull);
    var problem := EmbeddingProblem(GetOr(fields, "query_embedding", JNull));
    if problem.Some? then (Err(problem.value), net)
    else if !topK.JInt? then
      (Err(Foreign("TypeError", "'<=' not supported between instances of '" + TypeOf(topK) + "' and 'int'")), net)
    else
      SearchSpec(dao, net, Str(GetOr(fields, "type_name", JNull)), Str(GetOr(fields, "embedding_field", JNull)),
                 GetOr(fields, "query_embedding", JNull), topK.i, if Truthy(where) then Some(Str(where)) else None, sessionId)
  }

  /** In a batch search the vector is checked before `top_k` is compared: a bad vector
      raises its ValidationException with nothing sent, whatever `top_k` holds, and only a
      good vector with a `top_k` that is not an int meets the comparison's TypeError. */
  lemma ConfigSearchChecksVectorFirst(dao: Dao, net: Net, fields: seq<(string, Json)>, sessionId: Option<string>)
    ensures var problem := EmbeddingProblem(GetOr(fields, "query_embedding", JNull));
      var (r, net') := ConfigSearch(dao, net, fields, sessionId);
      && (problem.Some? ==> r == Err(problem.value) && r.error.Validation? && net' == net)
      && (problem.None? && !GetOr(fields, "top_k", JInt(10)).JInt? ==>
            r.Err? && r.error.Foreign? && r.error.name == "TypeError" && net' == net)
      && (r.Err? && r.error.Foreign? ==> problem.None?)
  {
  }

  /** `ConfigSearch` as a function of the client and the configuration. */
  function Searcher(dao: Dao, sessionId: Option<string>): (search: (Net, seq<(string, Json)>) -> (Result<seq<Json>, Exc>, Net))
    ensures forall n: Net, fields: seq<(string, Json)> {:trigger ConfigSearch(dao, n, fields, sessionId)} ::
      search(n, fields) == ConfigSearch(dao, n, fields, sessionId)
  {
    (n, fields) => ConfigSearch(dao, n, fields, sessionId)
  }

  /** The loop over the configurations from `i`: a bad configuration aborts it, a failed
      search adds an empty result and counts as failed, and a search that succeeds adds its
      result. The outcome is the results and the failure count. */
  function Sweep(search: (Net, seq<(string, Json)>) -> (Result<seq<Json>, Exc>, Net), net: Net, configs: seq<Json>,
                 i: nat, results: seq<seq<Json>>, failed: nat): (Result<(seq<seq<Json>>, nat), Exc>, Net)
    requires i <= |configs|
    decreases |configs| - i
  {
    if i == |configs| then (Ok((results, failed)), net)
    else
      var problem := ConfigProblem(configs[i], i);
      if problem.Some? then (Err(problem.value), net)
      else
        var (r, net1) := search(net, configs[i].fields);
        if r.Ok? then Sweep(search, net1, configs, i + 1, results + [r.value], failed)
        else Sweep(search, net1, configs, i + 1, results + [[]], failed + 1)
  }

  /** Reference definition of `batch_vector_search(searches, session_id)`. */
  function BatchSpec(dao: Dao, net: Net, searches: Json, sessionId: Option<string>): (Result<seq<seq<Json>>, Exc>, Net)
  {
    if !searches.JList? || searches.items == [] then (Err(Validation(Plain(BadSearches))), net)
    else
      var (swept, net1) := Sweep(Searcher(dao, sessionId), net, searches.items, 0, [], 0);
      if swept.Err? then (Err(swept.error), net1)
      else if swept.value.1 == |searches.items| then (Err(VectorOperation(Plain(AllSearchesFailed), None)), net1)
      else (Ok(swept.value.0), net1)
  }

  /** One search of the batch as written: the arguments read from the configuration. */
  method RunSearch(dao: Dao, net: Net, fields: seq<(string, Json)>, sessionId: Option<string>)
    returns (r: Result<seq<Json>, Exc>, net': Net)
    ensures (r, net') == ConfigSearch(dao, net, fields, sessionId)
  {
    var topK := GetOr(fields, "top_k", JInt(10));
    var problem := EmbeddingProblem(GetOr(fields, "query_embedding", JNull));
    if problem.Some? {
      return Err(problem.value), net;
    }
    if !topK.JInt? {
      return Err(Foreign("TypeError", "'<=' not supported between instances of '" + TypeOf(topK) + "' and 'int'")), net;
    }
    var where := GetOr(fields, "where_clause", JNull);
    r, net' := VectorSearch(dao, net, Str(GetOr(fields, "type_name", JNull)), Str(GetOr(fields, "embedding_field", JNull)),
                            GetOr(fields, "query_embedding", JNull), topK.i, if Truthy(where) then Some(Str(where)) else None,
                            sessionId);
  }

  /** `Sweep` with configuration `i` taken. */
  lemma SweepStep(search: (Net, seq<(string, Json)>) -> (Result<seq<Json>, Exc>, Net), net: Net, configs: seq<Json>,
                  i: nat, results: seq<seq<Json>>, failed: nat)
    requires i < |configs|
    ensures Sweep(search, net, configs, i, results, failed)
         == if ConfigProblem(configs[i], i).Some? then (Err(ConfigProblem(configs[i], i).value), net)
            else
              var (r, net1) := search(net, configs[i].fields);
              if r.Ok? then Sweep(search, net1, configs, i + 1, results + [r.value], failed)
              else Sweep(search, net1, configs, i + 1, results + [[]], failed + 1)
  {
  }

  /** The loop of `batch_vector_search`; `search` stands for the searches it runs. */
  method SweepConfigs(dao: Dao, net: Net, configs: seq<Json>, sessionId: Option<string>,
                      ghost search: (Net, seq<(string, Json)>) -> (Result<seq<Json>, Exc>, Net))
    returns (r: Result<(seq<seq<Json>>, nat), Exc>, net': Net)
    requires forall n: Net, fields: seq<(string, Json)> {:trigger ConfigSearch(dao, n, fields, sessionId)} ::
      search(n, fields) == ConfigSearch(dao, n, fields, sessionId)
    ensures (r, net') == Sweep(search, net, configs, 0, [], 0)
  {
    var results: seq<seq<Json>> := [];
    var failed: nat := 0;
    net' := net;
    for i := 0 to |configs|
      invariant Sweep(search, net, configs, 0, [], 0) == Sweep(search, net', configs, i, results, failed)
    {
      SweepStep(search, net', configs, i, results, failed);
      var config := configs[i];
      if !config.JObject? {
        return Err(Validation(Plain("Search configuration " + NatToString(i) + " must be a dictionary"))), net';
      }
      var missing := FirstMissing(config.fields, Required);
      if missing.Some? {
        return Err(Validation(Plain("Search configuration " + NatToString(i) + " missing required field: " + missing.value))), net';
      }
      var result;
      result, net' := RunSearch(dao, net', config.fields, sessionId);
      if result.Ok? {
        results := results + [result.value];
      } else {
        failed := failed + 1;
        results := results + [[]];
      }
    }
    r := Ok((results, failed));
  }

  /** `batch_vector_search(searches, session_id)` as written. */
  method BatchVectorSearch(dao: Dao, net: Net, searches: Json, sessionId: Option<string>)
    returns (r: Result<seq<seq<Json>>, Exc>, net': Net)
    ensures (r, net') == BatchSpec(dao, net, searches, sessionId)
  {
    if !searches.JList? || searches.items == [] {
      return Err(Validation(Plain(BadSearches))), net;
    }
    var swept;
    swept, net' := SweepConfigs(dao, net, searches.items, sessionId, Searcher(dao, sessionId));
    if swept.Err? {
      return Err(swept.error), net';
    }
    if swept.value.1 == |searches.items| {
      return Err(VectorOperation(Plain(AllSearchesFailed), None)), net';
    }
    r := Ok(swept.value.0);
  }

  /** The loop adds exactly one result per remaining configuration, keeps the results it
      started with, and counts at most one failure per configuration. */
  lemma {:induction false} SweepAligned(search: (Net, seq<(string, Json)>) -> (Result<seq<Json>, Exc>, Net), net: Net,
                                        configs: seq<Json>, i: nat, results: seq<seq<Json>>, failed: nat)
    requires i <= |configs|
    ensures var r := Sweep(search, net, configs, i, results, failed).0;
      && (r.Err? ==> r.error.Validation?)
      && (r.Ok? ==> && |r.value.0| == |results| + (|configs| - i)
                    && r.value.0[..|results|] == results
                    && failed <= r.value.1 <= failed + (|configs| - i))
    decreases |configs| - i
  {
    if i < |configs| && ConfigProblem(configs[i], i).None? {
      var (r, net1) := search(net, configs[i].fields);
      var more := results + [if r.Ok? then r.value else []];
      SweepAligned(search, net1, configs, i + 1, more, if r.Ok? then failed else failed + 1);
      var rest := Sweep(search, net1, configs, i + 1, more, if r.Ok? then failed else failed + 1).0;
      if rest.Ok? {
        assert rest.value.0[..|results|] == rest.value.0[..|more|][..|results|];
      }
    }
  }

  /** A successful batch has one result per configuration, in order; the batch fails with
      "All vector searches in batch failed" only when every search failed. */
  lemma BatchAligned(dao: Dao, net: Net, searches: Json, sessionId: Option<string>)
    ensures var (r, _) := BatchSpec(dao, net, searches, sessionId);
      && (r.Ok? ==> searches.JList? && |r.value| == |searches.items|)
      && (r.Err? && r.error == VectorOperation(Plain(AllSearchesFailed), None) ==>
            && searches.JList? && searches.items != []
            && var swept := Sweep(Searcher(dao, sessionId), net, searches.items, 0, [], 0).0;
               swept.Ok? && swept.value.1 == |searches.items|)
  {
    if searches.JList? && searches.items != [] {
      SweepAligned(Searcher(dao, sessionId), net, searches.items, 0, [], 0);
    }
  }

  /** A configuration whose vector or `top_k` `vector_search` refuses does not abort the
      batch: its ValidationException is caught, it sends nothing, and it adds an empty
      result and one failure. */
  lemma RefusedSearchCounted(dao: Dao, net: Net, configs: seq<Json>, i: nat, results: seq<seq<Json>>, failed: nat,
                             sessionId: Option<string>)
    requires i < |configs| && ConfigProblem(configs[i], i).None?
    requires EmbeddingProblem(GetOr(configs[i].fields, "query_embedding", JNull)).Some?
    ensures Sweep(Searcher(dao, sessionId), net, configs, i, results, failed)
         == Sweep(Searcher(dao, sessionId), net, configs, i + 1, results + [[]], failed + 1)
  {
    assert ConfigSearch(dao, net, configs[i].fields, sessionId).0.Err?;
    assert ConfigSearch(dao, net, configs[i].fields, sessionId).1 == net;
  }

  /** A configuration that is not a dict, or lacks a required field, aborts the batch with
      a ValidationException naming its position, after the searches before it have run. */
  lemma BadConfigAborts(search: (Net, seq<(string, Json)>) -> (Result<seq<Json>, Exc>, Net), net: Net,
                        configs: seq<Json>, i: nat, results: seq<seq<Json>>, failed: nat)
    requires i < |configs|
    requires !configs[i].JObject? || !HasKey(configs[i].fields, "query_embedding")
    ensures var (r, net') := Sweep(search, net, configs, i, results, failed);
      r.Err? && r.error.Validation? && net' == net
  {
    if configs[i].JObject? {
      assert !(forall k | 0 <= k < |Required| :: HasKey(configs[i].fields, Required[k])) by {
        assert Required[2] == "query_embedding";
      }
    }
  }
}
