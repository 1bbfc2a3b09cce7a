/** `RequestData` of `arcadedb_python/model/request.py`. */
module Request {
  import opened Wrappers

  /** A request; the language defaults to "sql" and may be None. */
  datatype RequestData = RequestData(endpoint: string, command: Option<string>, language: Option<string> := Some("sql"))
  {
    /** `payload()`: the command always, the language only when it is truthy. */
    function Payload(): (p: map<string, Option<string>>)
      ensures "command" in p && p["command"] == command
      ensures "language" in p <==> language.Some? && language.value != ""
      ensures "language" in p ==> p["language"] == language && p.Keys == {"command", "language"}
      ensures "language" !in p ==> p == map["command" := command]
    {
      if language.None? || language.value == "" then map["command" := command]
      else map["command" := command, "language" := language]
    }
  }

  /** The default language is "sql", so a request built without one posts it. */
  lemma DefaultLanguageIsSql(endpoint: string, command: string)
    ensures RequestData(endpoint, Some(command)).language == Some("sql")
    ensures RequestData(endpoint, Some(command)).Payload()
         == map["command" := Some(command), "language" := Some("sql")]
  {
  }
}
