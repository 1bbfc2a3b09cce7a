/** The pure part of `Client` in `arcadedb_python/api/client.py`: construction with its
    host and port checks, the derived `url`, endpoint joining, credentials, headers and
    the printed form. */
module Client {
  import opened Wrappers
  import opened Strings
  import opened Exceptions

  /** A constructed client: `port` is already `int(port)`; `kwargs` are the keyword
      arguments given to the constructor. */
  datatype Client = Client(host: string, port: int, protocol: string, kwargs: map<string, string>)

  /** `Client(host, port, protocol, **kwargs)` up to the connectivity probe: `int(port)`,
      then "Host is required" for an empty host and "Port is required" for port 0. */
  function NewClient(host: string, port: string, protocol: string, kwargs: map<string, string>): (r: Result<Client, Exc>)
    ensures r.Ok? <==> host != "" && ParseInt(port).Some? && ParseInt(port).value != 0
    ensures r.Ok? ==> r.value == Client(host, ParseInt(port).value, protocol, kwargs)
    ensures r.Err? ==> r.error.Foreign? && r.error.name == "ValueError"
  {
    match ParseInt(port)
    case None => Err(Foreign("ValueError", "invalid literal for int() with base 10: '" + port + "'"))
    case Some(p) =>
      if host == "" then Err(Foreign("ValueError", "Host is required"))
      else if p == 0 then Err(Foreign("ValueError", "Port is required"))
      else Ok(Client(host, p, protocol, kwargs))
  }

  /** The `url` property. */
  function Url(c: Client): string
  {
    c.protocol + "://" + c.host + ":" + IntToString(c.port)
  }

  /** `_get_endpoint` with the url given: at most one leading `/` of the endpoint is
      dropped, and a `/` is put between the two unless the url already ends with one. */
  function JoinEndpoint(url: string, endpoint: string): (r: string)
    ensures StartsWith(r, url)
    ensures var rest := if StartsWith(endpoint, "/") then endpoint[1..] else endpoint;
      && EndsWith(r, rest)
      && |r| == |url| + |rest| + (if EndsWith(url, "/") then 0 else 1)
      && (!EndsWith(url, "/") ==> r[|url|] == '/')
  {
    var rest := if StartsWith(endpoint, "/") then endpoint[1..] else endpoint;
    if EndsWith(url, "/") then url + rest else url + "/" + rest
  }

  /** `client._get_endpoint(endpoint)`. */
  function GetEndpoint(c: Client, endpoint: string): string
  {
    JoinEndpoint(Url(c), endpoint)
  }

  /** A client's url ends in the last digit of its port, never in `/`. */
  lemma UrlNeverEndsWithSlash(c: Client)
    ensures !EndsWith(Url(c), "/")
  {
    var digits := IntToString(c.port);
    IntToStringEndsWithDigit(c.port);
    assert Url(c)[|Url(c)| - 1] == digits[|digits| - 1];
  }

  /** So the endpoint is always joined with exactly one `/`, whether or not it has one. */
  lemma EndpointSlashOptional(c: Client, endpoint: string)
    requires !StartsWith(endpoint, "/")
    ensures GetEndpoint(c, "/" + endpoint) == GetEndpoint(c, endpoint) == Url(c) + "/" + endpoint
  {
    UrlNeverEndsWithSlash(c);
    assert ("/" + endpoint)[1..] == endpoint;
  }

  /** The decimal text of an integer ends in a digit. */
  lemma IntToStringEndsWithDigit(i: int)
    ensures var s := IntToString(i); |s| > 0 && IsDigit(s[|s| - 1])
  {
    var n: nat := if i < 0 then -i else i;
    var digits := NatToString(n);
    assert digits[|digits| - 1] == IntToString(i)[|IntToString(i)| - 1];
  }

  /** The url is built from the parsed port, whose text it shows back. */
  lemma UrlShowsParsedPort(host: string, port: string, protocol: string, kwargs: map<string, string>)
    requires NewClient(host, port, protocol, kwargs).Ok?
    ensures var c := NewClient(host, port, protocol, kwargs).value;
      && Url(c) == protocol + "://" + host + ":" + IntToString(c.port)
      && ParseInt(IntToString(c.port)) == ParseInt(port)
  {
    IntToStringRoundTrip(NewClient(host, port, protocol, kwargs).value.port);
  }

  /** `kwargs.get(first) or kwargs.get(second)`: the first key when its value is
      truthy, else the second key's value, else None. */
  function EitherKey(kwargs: map<string, string>, first: string, second: string): (r: Option<string>)
    ensures first in kwargs && kwargs[first] != "" ==> r == Some(kwargs[first])
    ensures !(first in kwargs && kwargs[first] != "") ==> r == (if second in kwargs then Some(kwargs[second]) else None)
  {
    if first in kwargs && kwargs[first] != "" then Some(kwargs[first])
    else if second in kwargs then Some(kwargs[second])
    else None
  }

  /** The `username` property. */
  function Username(c: Client): Option<string>
  {
    EitherKey(c.kwargs, "username", "user")
  }

  /** The `password` property. */
  function Password(c: Client): Option<string>
  {
    EitherKey(c.kwargs, "password", "pw")
  }

  /** The `headers` property: only the content type, defaulting to JSON. */
  function Headers(c: Client): (h: map<string, string>)
    ensures h.Keys == {"Content-Type"}
    ensures h["Content-Type"] == if "content_type" in c.kwargs then c.kwargs["content_type"] else "application/json"
  {
    map["Content-Type" := if "content_type" in c.kwargs then c.kwargs["content_type"] else "application/json"]
  }

  /** `str()` of an optional string: `None` prints as "None". */
  function OptionStr(o: Option<string>): string
  {
    if o.Some? then o.value else "None"
  }

  /** `__repr__`, which `__str__` returns unchanged: the port's decimal text stands
      between the host and the user, and reads back as the port. */
  function Repr(c: Client): (s: string)
    ensures StartsWith(s, "<host=" + c.host + " port=")
    ensures EndsWith(s, " user=" + OptionStr(Username(c)) + ">")
    ensures var head := "<host=" + c.host + " port=";
      var tail := " user=" + OptionStr(Username(c)) + ">";
      && |head| + |tail| <= |s|
      && s[|head|..|s| - |tail|] == IntToString(c.port)
      && ParseInt(s[|head|..|s| - |tail|]) == Some(c.port)
  {
    var head := "<host=" + c.host + " port=";
    var tail := " user=" + OptionStr(Username(c)) + ">";
    var s := head + IntToString(c.port) + tail;
    assert s[|head|..|s| - |tail|] == IntToString(c.port);
    IntToStringRoundTrip(c.port);
    s
  }

  /** Each credential depends on its own two keys only: no other keyword changes it. */
  lemma CredentialKeysIndependent(c: Client, key: string, value: string)
    ensures key != "username" && key != "user" ==>
      Username(c.(kwargs := c.kwargs[key := value])) == Username(c)
    ensures key != "password" && key != "pw" ==>
      Password(c.(kwargs := c.kwargs[key := value])) == Password(c)
  {
  }
}
