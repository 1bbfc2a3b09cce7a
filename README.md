# ArcadeDB Python client — the data-access core, modelled in Dafny

This project models the decision logic of the `arcadedb-python` client library:

- the `DatabaseDao` data-access layer (HTTP driver): query dispatch with validation, routing and the idempotency retry; the Cypher parameter inliner; the transaction helpers with `execute_batch` / `execute_transaction`; the bulk insert, upsert and delete executors; `safe_delete_all` and `safe_bulk_operation`; the fallback readers `get_records` and `get_triplets`; the vector helpers; and the database existence helpers;
- the exception hierarchy, its `__str__` methods, and the `parse_error_response` classifier;
- the pure helpers of `Client` (endpoint joining, url, credentials, headers, repr) and `RequestData.payload()`.

The HTTP client is an oracle passed by value. `Transport.Net(script, sent)` holds:

- `script`: the server's replies still to come. Each one is an answer (a result and response headers), a server error dict, or a broken connection.
- `sent`: the calls made so far, each with its endpoint, payload and headers.

A `post` or `get` consumes the next reply and appends its call. A server error dict is turned into an exception by `Exceptions.ParseErrorResponse`, as the synchronous client does. An exhausted script behaves as a broken connection. No state lives on a heap: every DAO operation takes a `Net` and returns its result together with the new `Net`.

For every operation:
- a reference function (`...Spec`, or a named function) states what it does;
- the imperative code is a method whose `ensures` ties it to that function;
- the properties are lemmas about the function.

The loops of the source have the same shape in the methods:
- the chunk loop of the bulk executors;
- the `while True` loop of `safe_delete_all`;
- the attempt loop of `safe_bulk_operation`;
- the token loop of `cypher_formater`, which writes and pops in place;
- the per-type loop of `get_records`;
- the edge loops of `get_triplets`;
- the candidate loop of `create_vector_index`;
- the loops of `execute_batch` and `batch_vector_search`.

JSON values are the datatype `JsonValue.Json`, Python's string and integer conversions are written out in `Strings`, and `Wrappers` holds `Option` and `Result`.

Files, one module each:
- `wrappers.dfy`, `strings.dfy`, `json.dfy`: the value layer.
- `exceptions.dfy`: exceptions and the classifier.
- `transport.dfy`: the oracle.
- `client.dfy`, `request.dfy`: the pure helpers.
- `cypher.dfy`: the Cypher formatter.
- `dao_query.dfy`: `query`.
- `dao_admin.dfy`: exists / create / delete / list.
- `dao_transactions.dfy`: begin / commit / rollback, batch and transaction.
- `dao_bulk.dfy`: bulk executors.
- `dao_resilience.dfy`: `safe_delete_all`, `safe_bulk_operation`.
- `dao_reads.dfy`: `get_records`, `get_triplets`.
- `dao_vector.dfy`: the vector helpers.

## Model

| member | source | states |
|---|---|---|
| `Strings.Lower` | arcadedb_python/dao/database.py:252 | lowering keeps the length, leaves no upper-case ASCII letter, maps each one to its lower-case letter and keeps every other character |
| `Strings.LowerIdempotent` | arcadedb_python/exceptions.py:127-144 | lowering an already lowered message changes nothing, so every rule sees the same text |
| `Strings.UnescapeEscapeQuoted` | arcadedb_python/dao/database.py:190-191 | escaping backslash first and then the quote is lossless: the server's unescaping gives back the original text |
| `Strings.UnescapeEscapeQuoteOnly` | arcadedb_python/dao/database.py:764-766 | quote-only escaping is lossless for text without a backslash |
| `Strings.QuoteOnlyLosesTrailingBackslash` | arcadedb_python/dao/database.py:765 | quote-only escaping of `a\` yields a literal whose closing quote reads as escaped, so the text is not recovered |
| `Strings.NatToString` | arcadedb_python/dao/database.py:1265 | `str(i)` of a natural number is a non-empty run of digits |
| `Strings.NatToStringRoundTrip` | arcadedb_python/dao/database.py:1265 | the digits of `str(n)` read back as `n` |
| `Strings.IntToStringRoundTrip` | arcadedb_python/api/client.py:20 | `int(str(i)) == i` for every integer |
| `JsonValue.Lookup` | arcadedb_python/exceptions.py:117-119 | `d.get(key)` is present exactly when the key is, and is the value of the first field with that key |
| `JsonValue.Without` | arcadedb_python/dao/database.py:675 | the dict comprehension keeps no dropped key and never grows; it keeps every field exactly when no key is dropped, and then the fields are unchanged |
| `JsonValue.WithoutMembers` | arcadedb_python/dao/database.py:675 | a field is kept exactly when it is a field whose key is not dropped |
| `JsonValue.WithoutConcat` | arcadedb_python/dao/database.py:675 | the comprehension distributes over concatenation, so the kept fields keep their order |
| `JsonValue.AsList` | arcadedb_python/dao/database.py:534 | a list result is returned as is; any other result gives `[result]` when truthy and `[]` when falsy |
| `JsonValue.Str` | arcadedb_python/dao/database.py:96 | `str()` of a string is the string itself; None, a bool, an int and a float print as `None`, `True`/`False`, the decimal digits (which read back as the int) and the float's own text |
| `Exceptions.BaseStr` | arcadedb_python/exceptions.py:21-24 | the base `__str__` starts with the message and differs from it exactly when the detail is non-empty |
| `Exceptions.ExcToString` | arcadedb_python/exceptions.py:21-95 | the `str()` of every exception of the hierarchy, overrides included, starts with the base `__str__` |
| `Exceptions.BaseStrShowsDetail` | arcadedb_python/exceptions.py:21-24 | `str()` is `message: detail` for a non-empty detail, else the message |
| `Exceptions.QueryShownInStr` | arcadedb_python/exceptions.py:39-43 | a QueryParsingException with a query set shows that query in its `str()` |
| `Exceptions.CountsShownInStr` | arcadedb_python/exceptions.py:91-95 | a BulkOperationException with both counts shows `failed/total` |
| `Exceptions.CountsHiddenWhenMissing` | arcadedb_python/exceptions.py:91-95 | with either count missing it prints as the base exception |
| `Exceptions.ParseErrorResponse` | arcadedb_python/exceptions.py:106-150 | exactly one of the six classes comes out; defaults `Unknown error`/empty/empty for absent fields; carries the whole dict; the query only on a parsing error |
| `Exceptions.Classify` | arcadedb_python/exceptions.py:121-150 | the rule chain yields one class whose base holds the three fields and the dict |
| `Exceptions.FirstMatch` | arcadedb_python/exceptions.py:121-150 | reference first-match-wins: the rule returned applies and is listed; with none, no rule applies |
| `Exceptions.ClassifierIsFirstMatch` | arcadedb_python/exceptions.py:121-150 | the classifier's class is exactly the first applicable rule in source order, else the base class |
| `Exceptions.AuthenticationRule` | arcadedb_python/exceptions.py:122-124 | LoginFailedException exactly when the exception name equals the security exception name |
| `Exceptions.ParsingRule` | arcadedb_python/exceptions.py:127-129 | QueryParsingException exactly when not authentication and the marker is in the name or `parsing` in the lowered message; the query is attached |
| `Exceptions.TransactionClassRule` | arcadedb_python/exceptions.py:132-136 | TransactionException exactly when no earlier rule applies and `transaction` or `idempotent` occurs; idempotent flag iff `idempotent` occurs |
| `Exceptions.SchemaDatabaseDefaultRules` | arcadedb_python/exceptions.py:139-150 | schema iff `schema` or (`type` and `not found`); database after that; the base class otherwise |
| `Exceptions.MissingErrorField` | arcadedb_python/exceptions.py:117-119 | a dict without `error` or `exception` becomes the base exception "Unknown error" |
| `Transport.CommandOf` | arcadedb_python/api/sync.py:103 | `payload.get('command')` is present exactly for payloads with a command |
| `Transport.Exchange` | arcadedb_python/api/sync.py:92-104 | one call consumes one reply and is appended to the log |
| `Transport.Raised` | arcadedb_python/api/sync.py:61-77 | an error reply raises the classified exception, never a ValidationException |
| `Transport.Post` | arcadedb_python/api/sync.py:92-104 | a post logs its call, consumes a reply, and returns the answer's result exactly when answered |
| `Transport.PostForHeaders` | arcadedb_python/api/sync.py:81-90 | with `return_headers=True` the response headers come back |
| `Transport.Get` | arcadedb_python/api/sync.py:106-114 | a get logs its call and returns the answer's result exactly when answered |
| `Transport.ServerErrorIsClassified` | arcadedb_python/api/sync.py:62-77 | a server error dict surfaces as `parse_error_response` of it, with the posted command as the query |
| `Client.NewClient` | arcadedb_python/api/client.py:18-29 | construction succeeds exactly for a non-empty host and a port that parses to a non-zero integer; otherwise ValueError |
| `Client.JoinEndpoint` | arcadedb_python/api/client.py:46-52 | the result starts with the url, ends with the endpoint less at most one leading `/`, with exactly one `/` between unless the url ends in one |
| `Client.UrlNeverEndsWithSlash` | arcadedb_python/api/client.py:64-65 | a client's url ends with a digit of the port, never `/` |
| `Client.EndpointSlashOptional` | arcadedb_python/api/client.py:46-52 | `/x` and `x` give the same endpoint, `url/x` |
| `Client.UrlShowsParsedPort` | arcadedb_python/api/client.py:64-65 | the url is `protocol://host:port` and shows the parsed port |
| `Client.EitherKey` | arcadedb_python/api/client.py:68-73 | the first key when its value is truthy, else the second key's value, else None |
| `Client.Headers` | arcadedb_python/api/client.py:55-61 | exactly `Content-Type`, from `content_type` or `application/json` |
| `Client.Repr` | arcadedb_python/api/client.py:75-79 | `<host=H port=P user=U>`: it starts with the host, ends with the user, and the text between `port=` and ` user=` is the port's decimal text, which parses back to the port |
| `Client.CredentialKeysIndependent` | arcadedb_python/api/client.py:68-73 | the username depends only on `username`/`user`, the password only on `password`/`pw` |
| `Request.RequestData.Payload` | arcadedb_python/model/request.py:12-16 | `command` always; `language` iff truthy, and then exactly the two keys; otherwise exactly `{command}` |
| `Request.DefaultLanguageIsSql` | arcadedb_python/model/request.py:10 | the default language is `sql` and is posted |
| `Cypher.Fetch` | arcadedb_python/dao/database.py:187-206 | `name in params` then `params[name]`: a dict answers by key and never raises; any other type yields no value, and what it refuses is a TypeError |
| `Cypher.SubstituteNoParams` | arcadedb_python/dao/database.py:185-195 | with an empty dict the scan leaves the text unchanged |
| `Cypher.SubstituteNoDollar` | arcadedb_python/dao/database.py:195 | text without `$` is unchanged, whatever the parameters |
| `Cypher.SubstituteDict` | arcadedb_python/dao/database.py:185-195 | with a dict the scan never raises |
| `Cypher.SubstituteNonDict` | arcadedb_python/dao/database.py:185-195 | with anything but a dict nothing is inlined: the text comes back unchanged or the scan raises a TypeError |
| `Cypher.SubstitutePlain` | arcadedb_python/dao/database.py:195 | a stretch without `$` passes through unchanged before the scan of the rest |
| `Cypher.SubstituteVariable` | arcadedb_python/dao/database.py:185-195 | `$name` ended by a non-identifier character: a known value is inlined, an absent name kept, a refused one raises, and the scan goes on after it |
| `Cypher.SubstituteOne` | arcadedb_python/dao/database.py:185-192 | a lone known `$name` becomes its inlined value |
| `Cypher.ScanInlineRoundTrip` | arcadedb_python/dao/database.py:189-191 | an inlined string is single-quoted and unescapes to the original |
| `Cypher.Walk` | arcadedb_python/dao/database.py:198-221 | the token walk never lengthens the token list |
| `Cypher.WalkFailsAtVariable` | arcadedb_python/dao/database.py:204-206 | the walk fails only at the first `$` variable whose value it cannot get, with the assertion naming it or the TypeError; every earlier variable has a value |
| `Cypher.WalkSkipsOnlySkippable` | arcadedb_python/dao/database.py:206-213 | every kept-back parameter is a list or a `$`-string, with its own value |
| `Cypher.WalkSkipsEverySkippable` | arcadedb_python/dao/database.py:206-213 | every variable whose value is a list or a `$`-string is kept back |
| `Cypher.WalkWithoutVariables` | arcadedb_python/dao/database.py:202-221 | tokens with no `$` variable come back unchanged and nothing is skipped |
| `Cypher.WalkNonDict` | arcadedb_python/dao/database.py:202-221 | with anything but a dict the walk succeeds only on tokens without variables, returned unchanged |
| `Cypher.WalkConcat` | arcadedb_python/dao/database.py:202-221 | cut where no variable pair is split, the walk of a list is the walk of the first part followed by that of the second |
| `Cypher.WalkInlinesVariable` | arcadedb_python/dao/database.py:215-218 | a variable anywhere whose value is not skippable becomes one literal `TokenInline(value)` in place, the rest walked after it |
| `Cypher.WalkKeepsSkippedVariable` | arcadedb_python/dao/database.py:206-213 | a variable anywhere whose value is skippable keeps both tokens in place and is recorded with its value |
| `Cypher.TextsConcat` | arcadedb_python/dao/database.py:221 | joining the token texts distributes over concatenation |
| `Cypher.FormatTokens` | arcadedb_python/dao/database.py:198-221 | the in-place loop (replace `tokens[i]`, pop `tokens[i+1]`, move `i` and the length) computes the reference walk |
| `Cypher.FormatFailures` | arcadedb_python/dao/database.py:185-221 | the formatter fails only by the missing-variable assertion or a TypeError; with a dict only by the assertion of the token walk |
| `Cypher.FormatNonDict` | arcadedb_python/dao/database.py:180-221 | with anything but a dict, a formatter that does not raise returns the query (the joined tokens) and keeps nothing back |
| `Cypher.CypherFormater` | arcadedb_python/dao/database.py:180-221 | the lexer path when a lexer is available, the regex scan otherwise, which keeps nothing back |
| `Cypher.PathsAgreeOnStrings` | arcadedb_python/dao/database.py:189-216 | for a lone string variable both paths produce the same quoted literal |
| `DaoQuery.ValidationError` | arcadedb_python/dao/database.py:252-259 | the first failing check, always a ValidationException; none exactly when the arguments are valid |
| `DaoQuery.Formatted` | arcadedb_python/dao/database.py:261-263 | outside Cypher-with-params the command and params are unchanged; the formatter's assertion or TypeError are the only errors; non-dict params are formatted and then dropped |
| `DaoQuery.Prepare` | arcadedb_python/dao/database.py:252-275 | a ValidationException exactly for invalid arguments; otherwise the lowered language, a `limit` entry holding `limit` exactly when it is not None, and the normalised serializer |
| `DaoQuery.SessionHeaders` | arcadedb_python/dao/database.py:276-280 | `arcadedb-session-id` holds the session id exactly when one is given |
| `DaoQuery.FirstEndpoint` | arcadedb_python/dao/database.py:284 | the query endpoint exactly when `is_command is False` |
| `DaoQuery.RetryFailed` | arcadedb_python/dao/database.py:303-307 | a failed retry raises TransactionException with the idempotent flag and the session id |
| `DaoQuery.Query` | arcadedb_python/dao/database.py:225-310 | the method computes the reference dispatch |
| `DaoQuery.PostWithRetry` | arcadedb_python/dao/database.py:281-310 | the `try`/`except` around the post computes the reference send |
| `DaoQuery.ValidationBeforeAnyPost` | arcadedb_python/dao/database.py:252-259 | invalid arguments raise ValidationException with nothing sent; valid ones never raise it |
| `DaoQuery.AtMostTwoPosts` | arcadedb_python/dao/database.py:281-310 | never more than two posts, appended after the earlier calls |
| `DaoQuery.Routing` | arcadedb_python/dao/database.py:264-285 | the first post goes to the endpoint chosen by `is_command`, with the prepared payload and the session header |
| `DaoQuery.RetryOnlyOnIdempotentRejection` | arcadedb_python/dao/database.py:288-300 | a second post happens exactly on a retryable rejection, to the command endpoint with the same payload and headers |
| `DaoQuery.RetryOutcome` | arcadedb_python/dao/database.py:285-310 | an answer wins; a non-retryable rejection is re-raised unchanged; a failed retry raises the combined TransactionException |
| `DaoQuery.CommandPostsOnce` | arcadedb_python/dao/database.py:284-292 | a command is posted once, to the command endpoint |
| `DaoQuery.CypherParamsOnlyWhenKept` | arcadedb_python/dao/database.py:261-271 | Cypher with params posts the formatted command; `params` only when some were kept back |
| `DaoQuery.ScanPathDropsParams` | arcadedb_python/dao/database.py:261-271 | without a lexer, a dict is scanned without raising and the scanned command is posted without params |
| `DaoQuery.NonDictParamsDropped` | arcadedb_python/dao/database.py:230-271 | truthy Cypher params that are not a dict still reach the formatter: it raises its assertion or a TypeError, or the command (the joined tokens, with a lexer) is posted without params |
| `DaoQuery.SqlCommand` | arcadedb_python/dao/database.py:225-286 | a SQL command is one post to the command endpoint, whose reply is the outcome |
| `DaoQuery.SqlCommandIsQuery` | arcadedb_python/dao/database.py:252-292 | `query("sql", q, is_command=True)` is exactly that post, whatever the retry flag |
| `DaoQuery.Command` | arcadedb_python/dao/database.py:225-310 | the method computes `SqlCommand` |
| `DaoQuery.SqlQuery` | arcadedb_python/dao/database.py:281-310 | the calls are exactly the post to the query endpoint, followed by the same post to the command endpoint when the first reply is an idempotency rejection; an answered first reply is the result; a parsing error comes after the one query call; never a ValidationException; an exhausted script is an error |
| `DaoQuery.SqlQueryRetriesAsCommand` | arcadedb_python/dao/database.py:288-310 | after an idempotency rejection the command endpoint's answer is the result, and its failure raises the TransactionException combining both errors |
| `DaoQuery.SqlQueryIsQuery` | arcadedb_python/dao/database.py:225-310 | `query("sql", q, session_id=…)` with `is_command=False` and retrying on (the defaults) is exactly `SqlQuery` |
| `DaoQuery.SqlQueryFirstCall` | arcadedb_python/dao/database.py:284-285 | the first call a SQL query adds is its post to the query endpoint; earlier calls are untouched |
| `DaoQuery.Select` | arcadedb_python/dao/database.py:225-310 | the method computes `SqlQuery` |
| `DaoAdmin.Exists` | arcadedb_python/dao/database.py:59-71 | one get to the exists endpoint; its decoded reply |
| `DaoAdmin.ListDatabases` | arcadedb_python/dao/database.py:123-133 | one get to the list endpoint; its decoded reply |
| `DaoAdmin.Open` | arcadedb_python/dao/database.py:135-173 | the constructor succeeds exactly when the existence check says present; "does not exist, call create()" otherwise |
| `DaoAdmin.CreateRefusesExisting` | arcadedb_python/dao/database.py:89-90 | an existing database is refused after the existence check only |
| `DaoAdmin.CreateSucceedsExactly` | arcadedb_python/dao/database.py:89-94 | success exactly for absent, then `ok`, then present; the three calls in order |
| `DaoAdmin.CreateReportsUnexpectedReply` | arcadedb_python/dao/database.py:92-96 | a reply other than `ok` raises "Could not create database" with the reply |
| `DaoAdmin.DeleteSucceedsExactly` | arcadedb_python/dao/database.py:114-120 | True exactly for present then `ok`, after two calls; a missing database is refused after one |
| `DaoTransactions.Begin` | arcadedb_python/dao/database.py:319-331 | one header post with the isolation level; succeeds exactly when answered with a session id header, and returns it; an answer without one raises the KeyError whose text is the quoted header name |
| `DaoTransactions.Commit` | arcadedb_python/dao/database.py:333-340 | one post with an empty payload and the session header |
| `DaoTransactions.Rollback` | arcadedb_python/dao/database.py:342-349 | one post to the rollback endpoint with the session header |
| `DaoTransactions.Tagged` | arcadedb_python/dao/database.py:1013-1017 | the failing query is attached only to an exception with a `query` attribute |
| `DaoTransactions.ExecuteBatch` | arcadedb_python/dao/database.py:988-1019 | the loop computes the reference batch |
| `DaoTransactions.BatchSendsInOrder` | arcadedb_python/dao/database.py:1005-1019 | the queries are sent in order as commands, stopping at the first failure; one result per query on success |
| `DaoTransactions.ExecuteTransaction` | arcadedb_python/dao/database.py:1021-1065 | the method computes the reference transaction |
| `DaoTransactions.TransactionValidatesFirst` | arcadedb_python/dao/database.py:1037-1038 | an empty or non-list input is refused before begin |
| `DaoTransactions.OtherEndpointsAreNotRollback` | arcadedb_python/dao/database.py:319-349 | begin, command and commit endpoints differ from rollback's |
| `DaoTransactions.AttemptCalls` | arcadedb_python/dao/database.py:1041-1051 | the `try` block starts with begin and never rolls back |
| `DaoTransactions.TransactionCommitsWithBeginToken` | arcadedb_python/dao/database.py:1041-1051 | on success: begin, the queries with begin's token, commit with that token; the batch's results |
| `DaoTransactions.TransactionRollsBackOnce` | arcadedb_python/dao/database.py:1053-1065 | the transaction fails exactly when its `try` block fails; it then raises TransactionException with the session id, after exactly one rollback when that id is non-empty and none otherwise, whatever the rollback did |
| `DaoTransactions.MissingSessionHeaderFails` | arcadedb_python/dao/database.py:1041-1065 | begin answered without a session header: one call, and "Transaction failed: 'arcadedb-session-id'" with no session id |
| `DaoTransactions.EmptyTokenSkipsRollback` | arcadedb_python/dao/database.py:1055 | an empty token means no rollback call |
| `DaoBulk.Assignments` | arcadedb_python/dao/database.py:762-772 | one assignment per field, in key order |
| `DaoBulk.Properties` | arcadedb_python/dao/database.py:762-772 | the property loop computes `Assignments` |
| `DaoBulk.StatementOf` | arcadedb_python/dao/database.py:756-776 | a rejected record gives no statement; an accepted one gives one, except an empty dict on insert |
| `DaoBulk.RecordStatement` | arcadedb_python/dao/database.py:761-776 | the loop body computes `StatementOf` |
| `DaoBulk.BuildStatements` | arcadedb_python/dao/database.py:755-776 | the chunk loop computes the statements and the rejected count |
| `DaoBulk.ChunkAccounting` | arcadedb_python/dao/database.py:756-776 | statements plus rejected never exceed the chunk, exactly for upsert and delete; none rejected iff all accepted |
| `DaoBulk.LiteralReadsBack` | arcadedb_python/dao/database.py:764-766 | a string literal without a backslash reads back as the value |
| `DaoBulk.ProcessChunk` | arcadedb_python/dao/database.py:750-795 | one chunk computes the reference chunk step |
| `DaoBulk.Send` | arcadedb_python/dao/database.py:778-795 | the send of a chunk computes the reference |
| `DaoBulk.Count` | arcadedb_python/dao/database.py:784-795 | the success and failure counters after the send returned or raised, as the reference step defines them |
| `DaoBulk.RunChunks` | arcadedb_python/dao/database.py:750-804 | the chunk loop computes the reference over the chunk plans |
| `DaoBulk.Clear` | arcadedb_python/dao/database.py:922-938 | the empty-conditions branch computes the reference |
| `DaoBulk.Bulk` | arcadedb_python/dao/database.py:740-804 | the shared body computes `BulkSpec` |
| `DaoBulk.BulkInsert` | arcadedb_python/dao/database.py:723-804 | `bulk_insert` is `BulkSpec` on insert |
| `DaoBulk.BulkUpsert` | arcadedb_python/dao/database.py:806-900 | `bulk_upsert` is `BulkSpec` on upsert |
| `DaoBulk.BulkDelete` | arcadedb_python/dao/database.py:902-986 | `bulk_delete` is `BulkSpec` on delete |
| `DaoBulk.EmptyInputSendsNothing` | arcadedb_python/dao/database.py:740-741 | empty input gives 0 with no call; empty conditions in safe mode are refused with no call |
| `DaoBulk.ClearTruncatesFirst` | arcadedb_python/dao/database.py:929-938 | TRUNCATE first; DELETE FROM only if it failed; result 0 |
| `DaoBulk.BatchSizeEdges` | arcadedb_python/dao/database.py:750 | batch size 0 raises and a negative one runs no chunk, both with no call |
| `DaoBulk.SendableChunk` | arcadedb_python/dao/database.py:756-776 | a chunk of sendable records has one statement each and nothing rejected |
| `DaoBulk.SendablePlans` | arcadedb_python/dao/database.py:750-751 | over sendable records every chunk's plan has no rejected record and at least one statement |
| `DaoBulk.PlansCover` | arcadedb_python/dao/database.py:750-751 | the chunks `records[i:i + batch_size]` cover exactly the records from `i` on, with at most one chunk per record |
| `DaoBulk.AnsweredStep` | arcadedb_python/dao/database.py:778-785 | an answered clean chunk sends its one command and adds its size |
| `DaoBulk.AnsweredCount` | arcadedb_python/dao/database.py:750-804 | all answered: the total is the records covered |
| `DaoBulk.AnsweredCalls` | arcadedb_python/dao/database.py:778-781 | all answered: one joined command per chunk, in chunk order |
| `DaoBulk.AllSucceedReturnsCount` | arcadedb_python/dao/database.py:740-804 | sendable records all answered: `len(records)`, after one command per chunk in input order |
| `DaoBulk.OkMeansNothingFailed` | arcadedb_python/dao/database.py:797-804 | a normal return means the failure counter stayed 0 |
| `DaoBulk.AcceptedRecords` | arcadedb_python/dao/database.py:756-759 | chunk plans with nothing rejected come only from records that are all accepted |
| `DaoBulk.OkMeansNothingRejected` | arcadedb_python/dao/database.py:797-804 | a normal return means no record was rejected |
| `DaoBulk.FailureReportsTotal` | arcadedb_python/dao/database.py:787-802 | a BulkOperationException reports `len(records)` and a positive failure count |
| `DaoBulk.DoubleCountedFailure` | arcadedb_python/dao/database.py:758-788 | a non-dict record in a failing chunk is counted twice: 3 failures of 2 records |
| `DaoBulk.ImmediateFailure` | arcadedb_python/dao/database.py:787-795 | one failing chunk of all records raises the immediate exception after one call |
| `DaoResilience.RidNames` | arcadedb_python/dao/database.py:394-397 | the rids named are at most the records |
| `DaoResilience.OnePass` | arcadedb_python/dao/database.py:385-406 | a pass consumes a reply per call, never more than one unanswered |
| `DaoResilience.DeletePass` | arcadedb_python/dao/database.py:385-406 | the loop body computes `OnePass` |
| `DaoResilience.DeleteLoop` | arcadedb_python/dao/database.py:384-408 | the `while True` loop computes the reference loop |
| `DaoResilience.SafeDeleteAll` | arcadedb_python/dao/database.py:351-414 | the method computes the reference |
| `DaoResilience.TruncateEndsAtOnce` | arcadedb_python/dao/database.py:374-379 | a successful truncate is the only call and the count is 0 |
| `DaoResilience.RidRecordsNamed` | arcadedb_python/dao/database.py:395 | records with string rids name exactly those rids |
| `DaoResilience.RidBatchIsRemoved` | arcadedb_python/dao/database.py:394-401 | such a batch is deleted by one command naming those rids in order |
| `DaoResilience.NumberRecordStops` | arcadedb_python/dao/database.py:395 | a numeric record makes `'@rid' in record` raise, which ends the loop |
| `DaoResilience.TotalAccumulates` | arcadedb_python/dao/database.py:401-408 | the count is the running total plus what the loop deletes |
| `DaoResilience.AtMostOneUnanswered` | arcadedb_python/dao/database.py:384-406 | the loop stops at the first unanswered call |
| `DaoResilience.SafeBulkOperation` | arcadedb_python/dao/database.py:436-464 | the attempt loop computes the reference |
| `DaoResilience.AttemptsBounded` | arcadedb_python/dao/database.py:438 | attempts after `max_retries` cannot matter |
| `DaoResilience.AtMostMaxRetriesPlusOne` | arcadedb_python/dao/database.py:438 | at most `max_retries + 1` attempts |
| `DaoResilience.SucceedsAfterTransient` | arcadedb_python/dao/database.py:439-453 | transient failures are retried until the first success |
| `DaoResilience.RetriedUntilSuccess` | arcadedb_python/dao/database.py:438-453 | a success within the budget after transient failures is returned |
| `DaoResilience.LastFailureRaised` | arcadedb_python/dao/database.py:442-464 | all transient: the last exception is raised |
| `DaoResilience.ExhaustedRaisesLast` | arcadedb_python/dao/database.py:442-464 | exhaustion raises the last attempt's exception |
| `DaoResilience.PermanentNotRetried` | arcadedb_python/dao/database.py:455-461 | any other failure is raised after one attempt |
| `DaoReads.PerTypeLimit` | arcadedb_python/dao/database.py:567 | `max(1, limit // n)`: at least 1, the floor of `limit/n` when `limit >= n`, 1 otherwise |
| `DaoReads.PerTypeQueries` | arcadedb_python/dao/database.py:560-568 | one query per type, in order |
| `DaoReads.Head` | arcadedb_python/dao/database.py:583 | `xs[:limit]` as a Python slice, negative limits included |
| `DaoReads.OneNameRead` | arcadedb_python/dao/database.py:518-531 | a string and a one-name list both take the single-type branch |
| `DaoReads.SeveralNamesRead` | arcadedb_python/dao/database.py:525-536 | two or more names take the multi-type branch |
| `DaoReads.TypeQuery` | arcadedb_python/dao/database.py:562-568 | the loop body builds the per-type query |
| `DaoReads.QueryEach` | arcadedb_python/dao/database.py:560-579 | the fallback loop computes the reference gather |
| `DaoReads.ReadOneType` | arcadedb_python/dao/database.py:525-534 | the single-type branch computes its reference |
| `DaoReads.ReadSeveralTypes` | arcadedb_python/dao/database.py:536-585 | the multi-type branch computes its reference |
| `DaoReads.GetRecords` | arcadedb_python/dao/database.py:495-591 | the method computes `RecordsSpec` |
| `DaoReads.RecordsValidateFirst` | arcadedb_python/dao/database.py:521-522 | an empty list or a non-string name is refused with no call |
| `DaoReads.SingleTypeOneQuery` | arcadedb_python/dao/database.py:525-534 | one query, the first call, posted to the query endpoint; any failure becomes the wrapping QueryParsingException |
| `DaoReads.UnionTriedFirst` | arcadedb_python/dao/database.py:541-553 | the UNION query is the first call, posted to the query endpoint |
| `DaoReads.UnionAnswered` | arcadedb_python/dao/database.py:553-554 | an answered UNION is the normalised result and the only call |
| `DaoReads.UnionFailure` | arcadedb_python/dao/database.py:556-591 | only a parsing error moves to the fallback; others raise the wrapper |
| `DaoReads.FallbackBounded` | arcadedb_python/dao/database.py:559-585 | the fallback never fails and a positive limit bounds its result |
| `DaoReads.FallbackKeepsSent` | arcadedb_python/dao/database.py:560-579 | at least one call per type, appended |
| `DaoReads.GatherKeepsSent` | arcadedb_python/dao/database.py:560-579 | the loop appends at least one call per query |
| `DaoReads.GatherAnswered` | arcadedb_python/dao/database.py:560-579 | all answered: one call per query, in order, answers merged in order |
| `DaoReads.FallbackAnswered` | arcadedb_python/dao/database.py:559-585 | all answered: one call per type, answers merged in type order then cut to the limit |
| `DaoReads.Skips` | arcadedb_python/dao/database.py:679-682 | the filter raises for a truthy non-dict, skips a dict whose class is not listed |
| `DaoReads.TraverseEdges` | arcadedb_python/dao/database.py:669-690 | the edge loop computes the reference traversal |
| `DaoReads.ListEdges` | arcadedb_python/dao/database.py:706-715 | the listing loop computes the reference listing |
| `DaoReads.TraverseStage` | arcadedb_python/dao/database.py:651-693 | the second approach computes its reference |
| `DaoReads.ListStage` | arcadedb_python/dao/database.py:695-715 | the third approach computes its reference |
| `DaoReads.TryEdges` | arcadedb_python/dao/database.py:650-715 | approaches two and three compute their reference |
| `DaoReads.GetTriplets` | arcadedb_python/dao/database.py:593-721 | the method computes `TripletsSpec` |
| `DaoReads.MatchTriedFirst` | arcadedb_python/dao/database.py:617-648 | MATCH first; its answer wins; a non-parsing failure raises the wrapper |
| `DaoReads.EdgesKeepSent` | arcadedb_python/dao/database.py:653-663 | the traversal query, posted to the query endpoint, is the first call of stages two and three |
| `DaoReads.TraversalFailureLists` | arcadedb_python/dao/database.py:692-715 | any traversal failure moves to the listing; only its query's failure is reported |
| `DaoReads.FalsyEdgesNoTriplets` | arcadedb_python/dao/database.py:665-666 | a falsy traversal answer gives `[]` with one call |
| `DaoReads.TraversalFiltered` | arcadedb_python/dao/database.py:670-688 | every kept triplet passes the filters; at most one per edge |
| `DaoReads.UnfilteredTraversal` | arcadedb_python/dao/database.py:670-688 | without filters, one triplet per dict edge |
| `DaoReads.ListingCount` | arcadedb_python/dao/database.py:706-713 | one triplet per dict edge |
| `DaoReads.ListingFromEdges` | arcadedb_python/dao/database.py:708-713 | each listed triplet is built from an edge with its in/out rids |
| `DaoReads.ListingOfReply` | arcadedb_python/dao/database.py:707-714 | a reply that is not a list is one edge: a dict gives one triplet, null or a scalar none |
| `DaoReads.ListingKeepsEveryDict` | arcadedb_python/dao/database.py:707-714 | at most one triplet per edge, and one for every edge exactly when all edges are dicts |
| `DaoVector.EmbeddingProblem` | arcadedb_python/dao/database.py:1089-1093 | no problem exactly for a non-empty list of numbers; otherwise a ValidationException |
| `DaoVector.VectorSearch` | arcadedb_python/dao/database.py:1089-1122 | the method computes `SearchSpec` |
| `DaoVector.SearchValidatesFirst` | arcadedb_python/dao/database.py:1089-1122 | ValidationException exactly for a bad vector or `top_k <= 0`, with no call; otherwise the search query first, to the query endpoint, and a VectorOperationException with the dimension |
| `DaoVector.IndexCandidates` | arcadedb_python/dao/database.py:1155-1162 | three candidate statements |
| `DaoVector.TryCandidates` | arcadedb_python/dao/database.py:1164-1176 | the candidate loop computes the reference |
| `DaoVector.CreateVectorIndex` | arcadedb_python/dao/database.py:1144-1182 | the method computes `IndexSpec` |
| `DaoVector.FirstAnswer` | arcadedb_python/dao/database.py:1165-1169 | the number of unanswered replies before the first answer |
| `DaoVector.TryEachAnswered` | arcadedb_python/dao/database.py:1165-1173 | the loop succeeds exactly when a statement is answered |
| `DaoVector.TryEachSends` | arcadedb_python/dao/database.py:1165-1173 | the statements are sent in order, up to the answered one |
| `DaoVector.IndexTriesInOrder` | arcadedb_python/dao/database.py:1150-1182 | at most three commands in order; True at the first answered; all failed raises VectorOperationException with the dimensions |
| `DaoVector.GetVectorSimilarity` | arcadedb_python/dao/database.py:1206-1234 | the method computes `SimilaritySpec` |
| `DaoVector.SimilarityOutcomes` | arcadedb_python/dao/database.py:1206-1228 | ValidationException exactly for a bad vector, with no call; 0.0 for an empty or non-list reply; a numeric `similarity` of the first row is returned as is |
| `DaoVector.FirstMissing` | arcadedb_python/dao/database.py:1267-1270 | the first required field absent, none exactly when all are present |
| `DaoVector.RunSearch` | arcadedb_python/dao/database.py:1272-1280 | one search of the batch computes `ConfigSearch`: the vector checks of `vector_search` first, then the `top_k` comparison, then the search |
| `DaoVector.ConfigSearchChecksVectorFirst` | arcadedb_python/dao/database.py:1089-1095 | a bad vector raises its ValidationException with nothing sent whatever `top_k` holds; a non-int `top_k` raises the comparison's TypeError only after the vector passed |
| `DaoVector.SweepConfigs` | arcadedb_python/dao/database.py:1263-1286 | the batch loop computes the reference |
| `DaoVector.BatchVectorSearch` | arcadedb_python/dao/database.py:1236-1291 | the method computes `BatchSpec` |
| `DaoVector.SweepAligned` | arcadedb_python/dao/database.py:1263-1286 | one result per configuration, earlier results kept; failures bounded |
| `DaoVector.BatchAligned` | arcadedb_python/dao/database.py:1257-1291 | success has one result per search; `All vector searches in batch failed` only when all failed |
| `DaoVector.RefusedSearchCounted` | arcadedb_python/dao/database.py:1272-1286 | an invalid vector adds an empty result and a failure, with no call |
| `DaoVector.BadConfigAborts` | arcadedb_python/dao/database.py:1264-1270 | a non-dict or incomplete configuration aborts with a ValidationException |

## Left out

- The HTTP transport (`requests`, JSON decoding, status codes) is the `Net` oracle; the `@retry` decorator of `Client.post`/`get` and its backoff constants are not modelled.
- The connectivity probe in `Client._validate` and the client module's own `LoginFailedException`: network calls.
- The PSYCOPG driver branch and its serializer and session-id checks: a foreign database connection. The model is the HTTP driver.
- The pygments lexer setup: the lexer is an input function from text to tokens.
- `Cypher.Fetch`: the TypeError texts are those of CPython 3.11 to 3.13; other Python versions word them differently.
- `logging`, `print`, `time.sleep` and the `retry_delay *= 1.5` backoff in `safe_bulk_operation`: side effects with no bearing on results.
- Log redaction in `_filter_payload_for_log`: log-only.
- `__repr__` of `DatabaseDao` and the package re-exports in `__init__.py`.
- `get_transaction_status`: it is not among the operations modelled.
- Exception chaining (`raise ... from e`) and `last_error` in `create_vector_index`: the chained cause is not observable in any result.
- `json.dumps` and `repr` are concrete simplified encoders: only the backslash and quote are escaped, and floats are kept as their text.
- Floating point: a float is its decimal text, and `float()` in `get_vector_similarity` is not evaluated.
- `Strings.Lower`: lowers ASCII letters only.
- Dicts with duplicate keys: a JSON object is a list of pairs, and lookups take the first.
- Response headers are a `map<string, string>` looked up case-sensitively. The `requests` headers object that `return_headers=True` hands back (database.py:331) is case-insensitive, so a server that sends `Arcadedb-Session-Id` is not modelled.
- A server error body is a `map<string, string>`: `parse_error_response` applying `.lower()` and `in` to a non-string `error`, `exception` or `detail` value (exceptions.py:117-136) is not modelled.
- The language set `config.AVAILABLE_LANGUAGES` is a sequence; Python iterates a set in an unspecified order in the error message.
- `int(port)` parses optional sign and digits only, without surrounding whitespace or underscores.
- The outer `except` of `safe_delete_all` raises only if logging fails, which cannot happen in the model; it is left out.
- `DaoResilience.DeleteLoop`: ends when the script of replies is exhausted. Python loops forever when the server keeps answering records without `@rid`; the model stops with the script.
- `get_records` accepts only a string or a list for `type_names`; other iterables are not modelled.
- `create_vector_index` assumes `property_name` is a string; the `isinstance` check on other types is not modelled.
- `DaoVector.ConfigSearch`: a `top_k` that is not an int is modelled as the `TypeError` of `top_k <= 0`, raised after the vector checks. That is exact for None, strings, lists and dicts. A bool or float `top_k` is compared as a number in Python; the model counts it as a failed search.
- `DaoVector.Score`: `float()` of a string is the string, unparsed; `float()` of None, a list or a dict raises, as in Python.
