/** The values that travel between the client and the server: what `json` decodes a
    result into, the records passed to the bulk operations and the query parameters.
    A JSON object keeps its keys in insertion order, as a Python dict does. */
module JsonValue {
  import opened Wrappers
  import opened Strings

  datatype Json =
    | JNull
    | JBool(b: bool)
    | JInt(i: int)
    /** A float, carried as Python's own `repr` of it (floating point is not modelled). */
    | JFloat(text: string)
    | JStr(s: string)
    | JList(items: seq<Json>)
    | JObject(fields: seq<(string, Json)>)

  /** Python truthiness (`bool(v)`). */
  predicate Truthy(v: Json)
  {
    match v
    case JNull => false
    case JBool(b) => b
    case JInt(i) => i != 0
    case JFloat(t) => t != "0.0" && t != "-0.0"
    case JStr(s) => s != ""
    case JList(xs) => xs != []
    case JObject(fs) => fs != []
  }

  /** `isinstance(v, (int, float))`; a Python bool is an int. */
  predicate IsNumber(v: Json)
  {
    v.JInt? || v.JFloat? || v.JBool?
  }

  /** `key in d` for a dict. */
  predicate HasKey(fields: seq<(string, Json)>, key: string)
  {
    exists i :: 0 <= i < |fields| && fields[i].0 == key
  }

  /** `d.get(key)`: the value stored under `key`, if any; with repeated keys, the first. */
  function Lookup(fields: seq<(string, Json)>, key: string): (r: Option<Json>)
    ensures r.Some? <==> HasKey(fields, key)
    ensures r.Some? ==> exists i :: 0 <= i < |fields| && fields[i] == (key, r.value)
                                    && forall j :: 0 <= j < i ==> fields[j].0 != key
  {
    if fields == [] then None
    else if fields[0].0 == key then
      assert fields[0] == (key, fields[0].1);
      Some(fields[0].1)
    else
      var r := Lookup(fields[1..], key);
      assert HasKey(fields[1..], key) ==> HasKey(fields, key) by {
        if HasKey(fields[1..], key) {
          var i :| 0 <= i < |fields[1..]| && fields[1..][i].0 == key;
          assert fields[i + 1].0 == key;
        }
      }
      assert r.Some? ==> exists i :: 0 <= i < |fields| && fields[i] == (key, r.value)
                                     && forall j :: 0 <= j < i ==> fields[j].0 != key by {
        if r.Some? {
          var i :| 0 <= i < |fields[1..]| && fields[1..][i] == (key, r.value)
                   && forall j :: 0 <= j < i ==> fields[1..][j].0 != key;
          assert fields[i + 1] == (key, r.value);
          forall j | 0 <= j < i + 1 ensures fields[j].0 != key {
            if j > 0 {
              assert fields[j] == fields[1..][j - 1];
            }
          }
        }
      }
      r
  }

  /** `d.get(key, default)`. */
  function GetOr(fields: seq<(string, Json)>, key: string, default: Json): Json
  {
    match Lookup(fields, key)
    case Some(v) => v
    case None => default
  }

  /** `{k: v for k, v in d.items() if k not in drop}`. */
  function Without(fields: seq<(string, Json)>, drop: seq<string>): (r: seq<(string, Json)>)
    ensures forall i :: 0 <= i < |r| ==> r[i].0 !in drop
    ensures |r| <= |fields|
    ensures |r| == |fields| <==> forall i :: 0 <= i < |fields| ==> fields[i].0 !in drop
    ensures (forall i :: 0 <= i < |fields| ==> fields[i].0 !in drop) ==> r == fields
  {
    if fields == [] then []
    else
      assert forall i :: 0 <= i < |fields[1..]| ==> fields[1..][i] == fields[i + 1];
      (if fields[0].0 in drop then [] else [fields[0]]) + Without(fields[1..], drop)
  }

  /** The comprehension keeps exactly the fields whose key is not dropped. */
  lemma {:induction false} WithoutMembers(fields: seq<(string, Json)>, drop: seq<string>)
    ensures forall p :: p in Without(fields, drop) <==> p in fields && p.0 !in drop
    decreases |fields|
  {
    if fields != [] {
      WithoutMembers(fields[1..], drop);
      assert fields == [fields[0]] + fields[1..];
    }
  }

  /** The comprehension keeps the kept fields in their order: it distributes over
      concatenation. */
  lemma {:induction false} WithoutConcat(a: seq<(string, Json)>, b: seq<(string, Json)>, drop: seq<string>)
    ensures Without(a + b, drop) == Without(a, drop) + Without(b, drop)
    decreases |a|
  {
    if a == [] {
      assert a + b == b;
    } else {
      assert (a + b)[0] == a[0] && (a + b)[1..] == a[1..] + b;
      WithoutConcat(a[1..], b, drop);
    }
  }

  /** `result if isinstance(result, list) else [result] if result else []`, the
      normalisation every query helper applies to what `query` returned. */
  function AsList(v: Json): (r: seq<Json>)
    ensures v.JList? ==> r == v.items
    ensures !v.JList? ==> (r == [] <==> !Truthy(v))
    ensures !v.JList? && Truthy(v) ==> r == [v]
  {
    if v.JList? then v.items else if Truthy(v) then [v] else []
  }

  /** `repr(v)`. Strings are single-quoted with backslash and quote escaped (Python's
      choice between quote characters and its escapes of unprintable characters are not modelled). */
  function Repr(v: Json): string
    decreases v
  {
    match v
    case JNull => "None"
    case JBool(b) => if b then "True" else "False"
    case JInt(i) => IntToString(i)
    case JFloat(t) => t
    case JStr(s) => ReprStr(s)
    case JList(xs) => "[" + Join(", ", seq(|xs|, k requires 0 <= k < |xs| => Repr(xs[k]))) + "]"
    case JObject(fs) =>
      "{" + Join(", ", seq(|fs|, k requires 0 <= k < |fs| => ReprStr(fs[k].0) + ": " + Repr(fs[k].1))) + "}"
  }

  function ReprStr(s: string): string
  {
    "'" + EscapeEach(s) + "'"
  }

  function DumpsStr(s: string): string
  {
    "\"" + ReplaceChar(ReplaceChar(s, '\\', "\\\\"), '"', "\\\"") + "\""
  }

  /** `str(v)`: a string is itself, anything else its `repr`. */
  function Str(v: Json): (r: string)
    ensures v.JStr? ==> r == v.s
    ensures v.JNull? ==> r == "None"
    ensures v.JBool? ==> r == (if v.b then "True" else "False")
    ensures v.JInt? ==> r == IntToString(v.i)
    ensures v.JFloat? ==> r == v.text
  {
    if v.JStr? then v.s else Repr(v)
  }

  /** `json.dumps(v)` with the default separators. Strings are double-quoted with
      backslash and double quote escaped (the escapes of control and non-ASCII
      characters are not modelled). */
  function Dumps(v: Json): string
    decreases v
  {
    match v
    case JNull => "null"
    case JBool(b) => if b then "true" else "false"
    case JInt(i) => IntToString(i)
    case JFloat(t) => t
    case JStr(s) => DumpsStr(s)
    case JList(xs) => "[" + Join(", ", seq(|xs|, k requires 0 <= k < |xs| => Dumps(xs[k]))) + "]"
    case JObject(fs) =>
      "{" + Join(", ", seq(|fs|, k requires 0 <= k < |fs| => DumpsStr(fs[k].0) + ": " + Dumps(fs[k].1))) + "}"
  }
}
