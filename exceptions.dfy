/** The typed exception hierarchy of `arcadedb_python/exceptions.py` and the
    classifier that turns a server error dict into one of its members. */
module Exceptions {
  import opened Wrappers
  import opened Strings

  /** The fields every `ArcadeDBException` carries. */
  datatype Base = Base(
    message: string,
    javaErrorCode: Option<string>,
    detail: Option<string>,
    responseData: map<string, string>)

  /** One constructor per exception class, with the class's extra fields; `Foreign`
      stands for a Python exception outside the hierarchy (KeyError, ValueError,
      TypeError, AssertionError, a transport failure), with its `str()` text. */
  datatype Exc =
    | ArcadeDB(base: Base)
    | LoginFailed(base: Base)
    | QueryParsing(base: Base, query: Option<string>)
    | Transaction(base: Base, sessionId: Option<string>, isIdempotentError: bool)
    | Schema(base: Base, typeName: Option<string>)
    | Database(base: Base, databaseName: Option<string>)
    | Connection(base: Base)
    | Validation(base: Base)
    | BulkOperation(base: Base, failedRecords: Option<int>, totalRecords: Option<int>)
    | VectorOperation(base: Base, dimensions: Option<int>)
    | Foreign(name: string, text: string)

  /** `SomeException(message)` with every optional argument left at its default. */
  function Plain(message: string): Base
  {
    Base(message, None, None, map[])
  }

  /** `ArcadeDBException.__str__`. */
  function BaseStr(b: Base): (s: string)
    ensures StartsWith(s, b.message)
    ensures b.detail.Some? && b.detail.value != "" <==> s != b.message
  {
    if b.detail.Some? && b.detail.value != "" then b.message + ": " + b.detail.value else b.message
  }

  /** `str(e)`, dispatching to the overriding `__str__` of QueryParsingException and
      BulkOperationException. */
  function ExcToString(e: Exc): (s: string)
    ensures !e.Foreign? ==> StartsWith(s, BaseStr(e.base))
  {
    match e
    case QueryParsing(b, q) =>
      if q.Some? && q.value != "" then BaseStr(b) + "\nQuery: " + q.value else BaseStr(b)
    case BulkOperation(b, f, t) =>
      if f.Some? && t.Some? then
        BaseStr(b) + " (" + IntToString(f.value) + "/" + IntToString(t.value) + " records failed)"
      else BaseStr(b)
    case Foreign(_, text) => text
    case _ => BaseStr(e.base)
  }

  /** The base `__str__` shows the detail after the message exactly when the detail is non-empty. */
  lemma BaseStrShowsDetail(message: string, detail: string)
    ensures ExcToString(ArcadeDB(Base(message, None, Some(detail), map[])))
         == if detail != "" then message + ": " + detail else message
  {
  }

  /** QueryParsingException's `str()` contains the offending query whenever one is set. */
  lemma QueryShownInStr(b: Base, q: string)
    requires q != ""
    ensures Contains(ExcToString(QueryParsing(b, Some(q))), q)
  {
    ContainsSuffix(BaseStr(b) + "\nQuery: ", q);
  }

  /** BulkOperationException's `str()` contains "failed/total" whenever both counts are set. */
  lemma CountsShownInStr(b: Base, f: int, t: int)
    ensures Contains(ExcToString(BulkOperation(b, Some(f), Some(t))), IntToString(f) + "/" + IntToString(t))
  {
    var mid := IntToString(f) + "/" + IntToString(t);
    assert ExcToString(BulkOperation(b, Some(f), Some(t))) == BaseStr(b) + " (" + mid + " records failed)";
    ContainsInfix(BaseStr(b) + " (", mid, " records failed)");
  }

  /** Without both counts the bulk exception prints as the base one. */
  lemma CountsHiddenWhenMissing(b: Base, f: Option<int>, t: Option<int>)
    requires f.None? || t.None?
    ensures ExcToString(BulkOperation(b, f, t)) == BaseStr(b)
  {
  }

  const SecurityExceptionName := "com.arcadedb.server.security.ServerSecurityException"
  const ParsingExceptionMarker := "CommandSQLParsingException"

  /** `d.get(key, default)` on a string-valued dict. */
  function Field(d: map<string, string>, key: string, default: string): string
  {
    if key in d then d[key] else default
  }

  /** `parse_error_response(response_data, query)`: absent fields take their defaults,
      then the ordered rules of `Classify` pick the class. */
  function ParseErrorResponse(response: map<string, string>, query: Option<string>): (e: Exc)
    ensures e.ArcadeDB? || e.LoginFailed? || e.QueryParsing? || e.Transaction? || e.Schema? || e.Database?
    ensures e.base.message == Field(response, "error", "Unknown error")
    ensures e.base.detail == Some(Field(response, "detail", ""))
    ensures e.base.javaErrorCode == Some(Field(response, "exception", ""))
    ensures e.base.responseData == response
    ensures e.QueryParsing? ==> e.query == query
  {
    Classify(Field(response, "error", "Unknown error"), Field(response, "detail", ""),
             Field(response, "exception", ""), response, query)
  }

  /** The rule chain of `parse_error_response`, on the three fields once defaulted. */
  function Classify(errorMsg: string, detail: string, exceptionType: string,
                    response: map<string, string>, query: Option<string>): (e: Exc)
    ensures e.ArcadeDB? || e.LoginFailed? || e.QueryParsing? || e.Transaction? || e.Schema? || e.Database?
    ensures e.base == Base(errorMsg, Some(exceptionType), Some(detail), response)
    ensures e.QueryParsing? ==> e.query == query
  {
    var b := Base(errorMsg, Some(exceptionType), Some(detail), response);
    var lower := Lower(errorMsg);
    if exceptionType == SecurityExceptionName then
      LoginFailed(b)
    else if Contains(exceptionType, ParsingExceptionMarker) || Contains(lower, "parsing") then
      QueryParsing(b, query)
    else if Contains(lower, "transaction") || Contains(lower, "idempotent") then
      Transaction(b, None, Contains(lower, "idempotent"))
    else if Contains(lower, "schema") || (Contains(lower, "type") && Contains(lower, "not found")) then
      Schema(b, None)
    else if Contains(lower, "database") then
      Database(b, None)
    else
      ArcadeDB(b)
  }

  /** The classifier's rules, each tested on its own. */
  datatype Rule = Authentication | Parsing | TransactionRule | SchemaRule | DatabaseRule

  predicate RuleApplies(r: Rule, errorMsg: string, exceptionType: string)
  {
    var lower := Lower(errorMsg);
    match r
    case Authentication => exceptionType == SecurityExceptionName
    case Parsing => Contains(exceptionType, ParsingExceptionMarker) || Contains(lower, "parsing")
    case TransactionRule => Contains(lower, "transaction") || Contains(lower, "idempotent")
    case SchemaRule => Contains(lower, "schema") || (Contains(lower, "type") && Contains(lower, "not found"))
    case DatabaseRule => Contains(lower, "database")
  }

  /** The rule order, most specific first. */
  const RuleOrder: seq<Rule> := [Authentication, Parsing, TransactionRule, SchemaRule, DatabaseRule]

  /** Reference definition: the first rule of `rules` that applies, or `None`. */
  function FirstMatch(rules: seq<Rule>, errorMsg: string, exceptionType: string): (r: Option<Rule>)
    ensures r.Some? ==> r.value in rules && RuleApplies(r.value, errorMsg, exceptionType)
    ensures r.None? ==> forall k :: 0 <= k < |rules| ==> !RuleApplies(rules[k], errorMsg, exceptionType)
  {
    if rules == [] then None
    else if RuleApplies(rules[0], errorMsg, exceptionType) then Some(rules[0])
    else FirstMatch(rules[1..], errorMsg, exceptionType)
  }

  /** The exception class a rule produces. */
  function RuleOf(e: Exc): Option<Rule>
  {
    match e
    case LoginFailed(_) => Some(Authentication)
    case QueryParsing(_, _) => Some(Parsing)
    case Transaction(_, _, _) => Some(TransactionRule)
    case Schema(_, _) => Some(SchemaRule)
    case Database(_, _) => Some(DatabaseRule)
    case _ => None
  }

  /** The five rules tried in order, as one chain of tests. */
  function RuleChain(m: string, x: string): Option<Rule>
  {
    if RuleApplies(Authentication, m, x) then Some(Authentication)
    else if RuleApplies(Parsing, m, x) then Some(Parsing)
    else if RuleApplies(TransactionRule, m, x) then Some(TransactionRule)
    else if RuleApplies(SchemaRule, m, x) then Some(SchemaRule)
    else if RuleApplies(DatabaseRule, m, x) then Some(DatabaseRule)
    else None
  }

  /** `Classify` picks the class of the chain's rule. */
  lemma ClassifyChain(m: string, d: string, x: string, response: map<string, string>, query: Option<string>)
    ensures RuleOf(Classify(m, d, x, response, query)) == RuleChain(m, x)
  {
  }

  /** `FirstMatch` over `RuleOrder`, unrolled. */
  lemma FirstMatchChain(m: string, x: string)
    ensures FirstMatch(RuleOrder, m, x) == RuleChain(m, x)
  {
    var r1 := [Parsing, TransactionRule, SchemaRule, DatabaseRule];
    var r2 := [TransactionRule, SchemaRule, DatabaseRule];
    var r3 := [SchemaRule, DatabaseRule];
    var r4 := [DatabaseRule];
    assert RuleOrder[1..] == r1 && r1[1..] == r2 && r2[1..] == r3 && r3[1..] == r4 && r4[1..] == [];
    assert FirstMatch(r4, m, x) == if RuleApplies(DatabaseRule, m, x) then Some(DatabaseRule) else None;
    assert FirstMatch(r3, m, x) == if RuleApplies(SchemaRule, m, x) then Some(SchemaRule) else FirstMatch(r4, m, x);
    assert FirstMatch(r2, m, x) == if RuleApplies(TransactionRule, m, x) then Some(TransactionRule) else FirstMatch(r3, m, x);
    assert FirstMatch(r1, m, x) == if RuleApplies(Parsing, m, x) then Some(Parsing) else FirstMatch(r2, m, x);
  }

  /** The classifier is exactly first-match-wins over `RuleOrder`; when no rule
      applies it returns the base ArcadeDBException. */
  lemma ClassifierIsFirstMatch(m: string, d: string, x: string, response: map<string, string>, query: Option<string>)
    ensures RuleOf(Classify(m, d, x, response, query)) == FirstMatch(RuleOrder, m, x)
  {
    ClassifyChain(m, d, x, response, query);
    FirstMatchChain(m, x);
  }

  /** Authentication is decided first and by exact equality of the exception name. */
  lemma AuthenticationRule(m: string, d: string, x: string, response: map<string, string>, query: Option<string>)
    ensures Classify(m, d, x, response, query).LoginFailed? <==> x == SecurityExceptionName
  {
  }

  /** The parsing rule: marker in the exception name (case-sensitive) or "parsing" in
      the lowered message, and the caller's query is attached. */
  lemma ParsingRule(msg: string, d: string, x: string, response: map<string, string>, query: Option<string>)
    ensures var e := Classify(msg, d, x, response, query);
      var m := Lower(msg);
      && (e.QueryParsing? <==> x != SecurityExceptionName && (Contains(x, ParsingExceptionMarker) || Contains(m, "parsing")))
      && (e.QueryParsing? ==> e.query == query)
  {
  }

  /** The transaction rule, and the idempotency flag it sets. */
  lemma TransactionClassRule(msg: string, d: string, x: string, response: map<string, string>, query: Option<string>)
    ensures var e := Classify(msg, d, x, response, query);
      var m := Lower(msg);
      && (e.Transaction? <==>
            && x != SecurityExceptionName
            && !(Contains(x, ParsingExceptionMarker) || Contains(m, "parsing"))
            && (Contains(m, "transaction") || Contains(m, "idempotent")))
      && (e.Transaction? ==> (e.isIdempotentError <==> Contains(m, "idempotent")) && e.sessionId == None)
  {
  }

  /** The schema, database and default rules (Python's `and` binds tighter than `or`). */
  lemma SchemaDatabaseDefaultRules(msg: string, d: string, x: string, response: map<string, string>, query: Option<string>)
    ensures var e := Classify(msg, d, x, response, query);
      var m := Lower(msg);
      var earlier := x == SecurityExceptionName || Contains(x, ParsingExceptionMarker) || Contains(m, "parsing")
                     || Contains(m, "transaction") || Contains(m, "idempotent");
      var schema := Contains(m, "schema") || (Contains(m, "type") && Contains(m, "not found"));
      && (e.Schema? <==> !earlier && schema)
      && (e.Database? <==> !earlier && !schema && Contains(m, "database"))
      && (e.ArcadeDB? <==> !earlier && !schema && !Contains(m, "database"))
  {
  }

  /** A dict without an "error" entry is reported as "Unknown error", which no rule on
      the message matches: it is classified by its exception name alone. */
  lemma MissingErrorField(response: map<string, string>, query: Option<string>)
    requires "error" !in response && "exception" !in response
    ensures ParseErrorResponse(response, query) ==
      ArcadeDB(Base("Unknown error", Some(""), Some(Field(response, "detail", "")), response))
  {
    var m := "unknown error";
    assert Lower("Unknown error") == m;
    NotContainsFirstChar(m, "parsing");
    NotContainsFirstChar(m, "transaction");
    NotContainsFirstChar(m, "idempotent");
    NotContainsFirstChar(m, "schema");
    NotContainsFirstChar(m, "type");
    NotContainsFirstChar(m, "database");
    assert !OccursAt("", ParsingExceptionMarker, 0);
  }
}
