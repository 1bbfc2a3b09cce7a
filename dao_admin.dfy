/** The server-level helpers of `DatabaseDao`: `exists`, `create`, `delete`,
    `list_databases`, and the existence check of the constructor. */
module DaoAdmin {
  import opened Wrappers
  import opened JsonValue
  import opened Exceptions
  import opened Transport
  import opened Cypher
  import opened DaoQuery

  /** `DatabaseDao.exists(client, name)`: one get, the decoded reply as is. */
  function Exists(net: Net, name: string): (r: (Result<Json, Exc>, Net))
    ensures r.1.sent == net.sent + [GetCall(ExistsEndpoint + "/" + name)]
    ensures r.0.Ok? <==> net.script != [] && net.script[0].Answer?
    ensures r.0.Ok? ==> r.0.value == net.script[0].result
  {
    Get(net, ExistsEndpoint + "/" + name)
  }

  /** `DatabaseDao.list_databases(client)`. */
  function ListDatabases(net: Net): (r: (Result<Json, Exc>, Net))
    ensures r.1.sent == net.sent + [GetCall(ListDatabasesEndpoint)]
    ensures r.0.Ok? <==> net.script != [] && net.script[0].Answer?
    ensures r.0.Ok? ==> r.0.value == net.script[0].result
  {
    Get(net, ListDatabasesEndpoint)
  }

  /** A reply that makes `if exists(...)` true. */
  predicate Present(reply: Reply)
  {
    reply.Answer? && Truthy(reply.result)
  }

  /** A reply that makes `if exists(...)` false. */
  predicate Absent(reply: Reply)
  {
    reply.Answer? && !Truthy(reply.result)
  }

  /** A reply whose decoded result is the string "ok". */
  predicate AnswersOk(reply: Reply)
  {
    reply.Answer? && reply.result == JStr("ok")
  }

  /** `DatabaseDao(client, name)` on the HTTP driver: the database must exist.
      `lexer` is the Cypher lexer available to the process, if any. */
  function Open(net: Net, name: string, lexer: Option<Lexer>): (r: (Result<Dao, Exc>, Net))
    ensures r.1.sent == net.sent + [GetCall(ExistsEndpoint + "/" + name)]
    ensures r.0.Ok? <==> net.script != [] && Present(net.script[0])
    ensures r.0.Ok? ==> r.0.value == Dao(name, lexer)
    ensures net.script != [] && Absent(net.script[0]) ==>
      r.0 == Err(Database(Plain("Database " + name + " does not exist, call create()"), Some(name)))
  {
    var (there, net1) := Exists(net, name);
    if there.Err? then (Err(there.error), net1)
    else if !Truthy(there.value) then
      (Err(Database(Plain("Database " + name + " does not exist, call create()"), Some(name))), net1)
    else (Ok(Dao(name, lexer)), net1)
  }

  /** `DatabaseDao.create(client, name)`, returning the opened DAO. */
  function Create(net: Net, name: string, lexer: Option<Lexer>): (Result<Dao, Exc>, Net)
  {
    var (there, net1) := Exists(net, name);
    if there.Err? then (Err(there.error), net1)
    else if Truthy(there.value) then
      (Err(Database(Plain("Database " + name + " already exists"), Some(name))), net1)
    else
      var (ret, net2) := Post(net1, ServerEndpoint, ServerCommand("create database " + name), map[]);
      if ret.Err? then (Err(ret.error), net2)
      else if ret.value != JStr("ok") then
        (Err(Database(Plain("Could not create database " + name + ": " + Str(ret.value)), Some(name))), net2)
      else Open(net2, name, lexer)
  }

  /** `DatabaseDao.delete(client, name)`. */
  function Delete(net: Net, name: string): (Result<bool, Exc>, Net)
  {
    var (there, net1) := Exists(net, name);
    if there.Err? then (Err(there.error), net1)
    else if !Truthy(there.value) then
      (Err(Database(Plain("Database " + name + " does not exist"), Some(name))), net1)
    else
      var (ret, net2) := Post(net1, ServerEndpoint, ServerCommand("drop database " + name), map[]);
      if ret.Err? then (Err(ret.error), net2)
      else if ret.value != JStr("ok") then
        (Err(Database(Plain("Could not drop database " + name + ": " + Str(ret.value)), Some(name))), net2)
      else (Ok(true), net2)
  }

  /** `create` refuses an existing database with only the existence check sent. */
  lemma CreateRefusesExisting(net: Net, name: string, lexer: Option<Lexer>)
    requires net.script != [] && Present(net.script[0])
    ensures Create(net, name, lexer).0 == Err(Database(Plain("Database " + name + " already exists"), Some(name)))
    ensures Create(net, name, lexer).1.sent == net.sent + [GetCall(ExistsEndpoint + "/" + name)]
  {
  }

  /** `create` succeeds exactly when the database is absent, the server answers "ok" to
      the create command and the database is then found; the calls are the check, the
      command and the constructor's check. */
  lemma CreateSucceedsExactly(net: Net, name: string, lexer: Option<Lexer>)
    ensures var (r, net') := Create(net, name, lexer);
      && (r.Ok? <==> |net.script| >= 3 && Absent(net.script[0])
                       && AnswersOk(net.script[1])
                       && Present(net.script[2]))
      && (r.Ok? ==> r.value == Dao(name, lexer)
                    && net'.sent == net.sent + [GetCall(ExistsEndpoint + "/" + name),
                                                PostCall(ServerEndpoint, ServerCommand("create database " + name), map[], false),
                                                GetCall(ExistsEndpoint + "/" + name)])
  {
    var (there, net1) := Exists(net, name);
    if there.Ok? && !Truthy(there.value) {
      var (ret, net2) := Post(net1, ServerEndpoint, ServerCommand("create database " + name), map[]);
      assert net1.script == net.script[1..];
      if ret.Ok? && ret.value == JStr("ok") {
        assert net2.script == net.script[2..];
      }
    }
  }

  /** A reply other than "ok" to the create command is reported with the reply's text. */
  lemma CreateReportsUnexpectedReply(net: Net, name: string, lexer: Option<Lexer>, ret: Json)
    requires |net.script| >= 2 && Absent(net.script[0])
    requires net.script[1].Answer? && net.script[1].result == ret && ret != JStr("ok")
    ensures Create(net, name, lexer).0
         == Err(Database(Plain("Could not create database " + name + ": " + Str(ret)), Some(name)))
  {
    assert Exists(net, name).1.script == net.script[1..];
  }

  /** `delete` returns True exactly when the database is found and the server answers
      "ok" to the drop command; it never returns False. */
  lemma DeleteSucceedsExactly(net: Net, name: string)
    ensures var (r, net') := Delete(net, name);
      && (r.Ok? <==> |net.script| >= 2 && Present(net.script[0])
                       && AnswersOk(net.script[1]))
      && (r.Ok? ==> r.value && net'.sent == net.sent + [GetCall(ExistsEndpoint + "/" + name),
                                     PostCall(ServerEndpoint, ServerCommand("drop database " + name), map[], false)])
      && (net.script != [] && Absent(net.script[0]) ==>
            r == Err(Database(Plain("Database " + name + " does not exist"), Some(name)))
            && |net'.sent| == |net.sent| + 1)
  {
    var (there, net1) := Exists(net, name);
    if there.Ok? && Truthy(there.value) {
      assert net1.script == net.script[1..];
    }
  }
}
