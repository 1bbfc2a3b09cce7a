/** `DatabaseDao.cypher_formater`: inlining query parameters into Cypher text, either by
    a scan for `$identifier` (when no lexer is available) or by a walk over the lexer's
    tokens that rewrites the token list in place. */
module Cypher {
  import opened Wrappers
  import opened Strings
  import opened JsonValue
  import opened Exceptions

  /** The token kinds the walk distinguishes; everything else the lexer emits is `OtherKind`. */
  datatype TokenKind = Punctuation | GlobalVariable | LiteralString | OtherKind(name: string)

  /** A lexer token: its kind and its text. */
  datatype Token = Token(kind: TokenKind, text: string)

  /** The lexer, when one is available: query text to its token sequence. */
  type Lexer = string -> seq<Token>

  // ---------------------------------------------------------------------------
  // Parameter access: `name in params`, then `params[name]`
  // ---------------------------------------------------------------------------

  /** What the formatter gets for a name: the value under it, no such entry, or the
      TypeError the parameters raise. */
  datatype Access = Found(value: Json) | Absent | Refused(error: Exc)

  /** `in` on a value that is not a container. */
  function NotIterable(typeName: string): Exc
  {
    Foreign("TypeError", "argument of type '" + typeName + "' is not iterable")
  }

  /** `name in params` followed by `params[name]`, for parameters of any type. A dict
      answers by key. A list holding the string `name`, or a string containing it, passes
      the `in` test but refuses a string index; without it the name is absent. A scalar
      refuses the `in` test itself. */
  function Fetch(params: Json, name: string): (r: Access)
    ensures params.JObject? ==> !r.Refused? && (r.Found? <==> HasKey(params.fields, name))
    ensures params.JObject? && r.Found? ==> Lookup(params.fields, name) == Some(r.value)
    ensures !params.JObject? ==> !r.Found?
    ensures r.Refused? ==> r.error.Foreign? && r.error.name == "TypeError"
  {
    match params
    case JObject(fs) => if HasKey(fs, name) then Found(Lookup(fs, name).value) else Absent
    case JList(xs) =>
      if JStr(name) in xs then Refused(Foreign("TypeError", "list indices must be integers or slices, not str"))
      else Absent
    case JStr(text) =>
      if Contains(text, name) then Refused(Foreign("TypeError", "string indices must be integers, not 'str'"))
      else Absent
    case JNull => Refused(NotIterable("NoneType"))
    case JBool(_) => Refused(NotIterable("bool"))
    case JInt(_) => Refused(NotIterable("int"))
    case JFloat(_) => Refused(NotIterable("float"))
  }

  // ---------------------------------------------------------------------------
  // Scan path: re.sub(r'\$([a-zA-Z_][a-zA-Z0-9_]*)', replace_param, query)
  // ---------------------------------------------------------------------------

  predicate IdentStart(c: char)
  {
    ('a' <= c <= 'z') || ('A' <= c <= 'Z') || c == '_'
  }

  predicate IdentChar(c: char)
  {
    IdentStart(c) || ('0' <= c <= '9')
  }

  /** A name the pattern matches as a whole. */
  predicate IsIdentifier(name: string)
  {
    |name| > 0 && IdentStart(name[0]) && forall k :: 0 <= k < |name| ==> IdentChar(name[k])
  }

  /** Length of the longest prefix of `s` made of identifier characters (the greedy `*`). */
  function IdentLength(s: string): (n: nat)
    ensures n <= |s|
    ensures forall k :: 0 <= k < n ==> IdentChar(s[k])
    ensures n < |s| ==> !IdentChar(s[n])
  {
    if s != [] && IdentChar(s[0]) then 1 + IdentLength(s[1..]) else 0
  }

  /** `replace_param` for a known name: a string is escaped (backslash first, then
      quote) and single-quoted, anything else is `str(value)` unquoted. */
  function ScanInline(v: Json): string
  {
    if v.JStr? then "'" + EscapeQuoted(v.s) + "'" else Str(v)
  }

  /** Text produced before the rest of the scan. */
  function Prepend(p: string, r: Result<string, Exc>): Result<string, Exc>
  {
    if r.Ok? then Ok(p + r.value) else r
  }

  /** The scan, left to right: a known `$name` is inlined, an absent one left as it was,
      and the first refusal is raised out of `re.sub`. */
  function Substitute(s: string, params: Json): Result<string, Exc>
    decreases |s|
  {
    if s == [] then Ok([])
    else if s[0] == '$' && |s| > 1 && IdentStart(s[1]) then
      var n := 1 + IdentLength(s[2..]);
      var name := s[1..1 + n];
      match Fetch(params, name)
      case Refused(e) => Err(e)
      case Found(v) => Prepend(ScanInline(v), Substitute(s[1 + n..], params))
      case Absent => Prepend("$" + name, Substitute(s[1 + n..], params))
    else Prepend([s[0]], Substitute(s[1..], params))
  }

  /** The greedy match of an identifier stops where the identifier does. */
  lemma {:induction false} IdentPrefix(t: string, rest: string)
    requires forall k :: 0 <= k < |t| ==> IdentChar(t[k])
    requires rest == [] || !IdentChar(rest[0])
    ensures IdentLength(t + rest) == |t|
    decreases |t|
  {
    if t == [] {
      assert t + rest == rest;
    } else {
      assert (t + rest)[1..] == t[1..] + rest;
      IdentPrefix(t[1..], rest);
    }
  }

  /** With an empty dict the scan changes nothing: every `$name` is absent. */
  lemma {:induction false} SubstituteNoParams(s: string)
    ensures Substitute(s, JObject([])) == Ok(s)
    decreases |s|
  {
    if s == [] {
    } else if s[0] == '$' && |s| > 1 && IdentStart(s[1]) {
      var n := 1 + IdentLength(s[2..]);
      assert Fetch(JObject([]), s[1..1 + n]) == Absent;
      SubstituteNoParams(s[1 + n..]);
      assert "$" + s[1..1 + n] + s[1 + n..] == s;
    } else {
      SubstituteNoParams(s[1..]);
      assert [s[0]] + s[1..] == s;
    }
  }

  /** Text without `$` has nothing to substitute, whatever the parameters. */
  lemma {:induction false} SubstituteNoDollar(s: string, params: Json)
    requires forall k :: 0 <= k < |s| ==> s[k] != '$'
    ensures Substitute(s, params) == Ok(s)
    decreases |s|
  {
    if s != [] {
      SubstituteNoDollar(s[1..], params);
      assert [s[0]] + s[1..] == s;
    }
  }

  /** With a dict the scan never raises. */
  lemma {:induction false} SubstituteDict(s: string, params: Json)
    requires params.JObject?
    ensures Substitute(s, params).Ok?
    decreases |s|
  {
    if s == [] {
    } else if s[0] == '$' && |s| > 1 && IdentStart(s[1]) {
      SubstituteDict(s[1 + (1 + IdentLength(s[2..]))..], params);
    } else {
      SubstituteDict(s[1..], params);
    }
  }

  /** The outcome of a scan that inlined nothing: the text back, or a TypeError. */
  predicate Untouched(s: string, r: Result<string, Exc>)
  {
    (r.Ok? ==> r.value == s) && (r.Err? ==> r.error.Foreign? && r.error.name == "TypeError")
  }

  /** An untouched rest stays untouched behind a prefix that is given back as it was. */
  lemma UntouchedPrepend(p: string, t: string, r: Result<string, Exc>)
    requires Untouched(t, r)
    ensures Untouched(p + t, Prepend(p, r))
  {
  }

  /** A text that starts with `$` is the `$`, the name after it and the rest. */
  lemma DollarSplit(s: string, n: nat)
    requires 1 + n <= |s| && s[0] == '$'
    ensures "$" + s[1..1 + n] + s[1 + n..] == s
  {
    assert "$" + s[1..1 + n] == s[..1 + n];
  }

  /** The step of `SubstituteNonDict` at a `$name` match. */
  lemma NonDictMatch(s: string, params: Json)
    requires !params.JObject? && |s| > 1 && s[0] == '$' && IdentStart(s[1])
    requires Untouched(s[1 + (1 + IdentLength(s[2..]))..], Substitute(s[1 + (1 + IdentLength(s[2..]))..], params))
    ensures Untouched(s, Substitute(s, params))
  {
    var n := 1 + IdentLength(s[2..]);
    var name := s[1..1 + n];
    var rest := Substitute(s[1 + n..], params);
    if Fetch(params, name).Absent? {
      assert Substitute(s, params) == Prepend("$" + name, rest);
      UntouchedPrepend("$" + name, s[1 + n..], rest);
      DollarSplit(s, n);
    }
  }

  /** The step of `SubstituteNonDict` at any other character. */
  lemma NonDictPass(s: string, params: Json)
    requires s != [] && !(s[0] == '$' && |s| > 1 && IdentStart(s[1]))
    requires Untouched(s[1..], Substitute(s[1..], params))
    ensures Untouched(s, Substitute(s, params))
  {
    UntouchedPrepend([s[0]], s[1..], Substitute(s[1..], params));
    assert [s[0]] + s[1..] == s;
  }

  /** With anything but a dict nothing is ever inlined: the scan either returns the text
      unchanged or raises the TypeError of the first name the parameters refuse. */
  lemma {:induction false} SubstituteNonDict(s: string, params: Json)
    requires !params.JObject?
    ensures Substitute(s, params).Ok? ==> Substitute(s, params).value == s
    ensures Substitute(s, params).Err? ==>
      Substitute(s, params).error.Foreign? && Substitute(s, params).error.name == "TypeError"
    decreases |s|
  {
    if s == [] {
    } else if s[0] == '$' && |s| > 1 && IdentStart(s[1]) {
      SubstituteNonDict(s[1 + (1 + IdentLength(s[2..]))..], params);
      NonDictMatch(s, params);
    } else {
      SubstituteNonDict(s[1..], params);
      NonDictPass(s, params);
    }
  }

  /** Prefixing twice is prefixing once with both texts. */
  lemma PrependAssoc(p: string, q: string, r: Result<string, Exc>)
    ensures Prepend(p, Prepend(q, r)) == Prepend(p + q, r)
  {
    if r.Ok? {
      assert p + (q + r.value) == (p + q) + r.value;
    }
  }

  /** A stretch without `$` passes through the scan unchanged, before the rest. */
  lemma {:induction false} SubstitutePlain(plain: string, s: string, params: Json)
    requires forall k :: 0 <= k < |plain| ==> plain[k] != '$'
    ensures Substitute(plain + s, params) == Prepend(plain, Substitute(s, params))
    decreases |plain|
  {
    var r := Substitute(s, params);
    if plain == [] {
      assert plain + s == s;
      if r.Ok? {
        assert plain + r.value == r.value;
      }
    } else {
      var t := plain + s;
      assert t[0] == plain[0] && t[0] != '$';
      assert t[1..] == plain[1..] + s;
      assert Substitute(t, params) == Prepend([plain[0]], Substitute(t[1..], params));
      SubstitutePlain(plain[1..], s, params);
      PrependAssoc([plain[0]], plain[1..], r);
      assert [plain[0]] + plain[1..] == plain;
    }
  }

  /** `$name` followed by a character that cannot continue the name: a known name is
      inlined, an absent one kept, a refused one raises, and the scan goes on after it. */
  lemma SubstituteVariable(name: string, rest: string, params: Json)
    requires IsIdentifier(name) && (rest == [] || !IdentChar(rest[0]))
    ensures var access := Fetch(params, name);
      Substitute("$" + name + rest, params)
      == if access.Refused? then Err(access.error)
         else if access.Found? then Prepend(ScanInline(access.value), Substitute(rest, params))
         else Prepend("$" + name, Substitute(rest, params))
  {
    var s := "$" + name + rest;
    assert s[2..] == name[1..] + rest;
    IdentPrefix(name[1..], rest);
    assert s[1..1 + |name|] == name;
    assert s[1 + |name|..] == rest;
  }

  /** A lone `$name` the parameters hold is replaced by its inlined value. */
  lemma SubstituteOne(name: string, params: Json)
    requires IsIdentifier(name) && Fetch(params, name).Found?
    ensures Substitute("$" + name, params) == Ok(ScanInline(Fetch(params, name).value))
  {
    SubstituteVariable(name, "", params);
    assert "$" + name + "" == "$" + name;
    assert ScanInline(Fetch(params, name).value) + "" == ScanInline(Fetch(params, name).value);
  }

  /** A string inlined by the scan reads back, between its quotes, as the original value. */
  lemma ScanInlineRoundTrip(v: string)
    ensures var t := ScanInline(JStr(v));
      |t| >= 2 && t[0] == '\'' && t[|t| - 1] == '\'' && Unescape(t[1..|t| - 1]) == v
  {
    var t := ScanInline(JStr(v));
    assert t[1..|t| - 1] == EscapeQuoted(v);
    UnescapeEscapeQuoted(v);
  }

  // ---------------------------------------------------------------------------
  // Token path: the in-place walk over the lexer output
  // ---------------------------------------------------------------------------

  /** A value the walk leaves in place for the server: a list, or a string containing `$`. */
  predicate Skippable(v: Json)
  {
    (v.JStr? && '$' in v.s) || v.JList?
  }

  /** The literal token that replaces `$name`: `str(value)`, escaped and single-quoted. */
  function TokenInline(v: Json): Token
  {
    Token(LiteralString, "'" + EscapeQuoted(Str(v)) + "'")
  }

  const MissingVariable := "AssertionError"

  /** The failed `assert var_name in params`. */
  function Missing(name: string): Exc
  {
    Foreign(MissingVariable, "Variable " + name + " not found in the parameters")
  }

  /** What the walk raises for a name whose value it cannot get: the TypeError of the
      parameters, or the failed assertion when the name is absent. */
  function Unusable(access: Access, name: string): Exc
  {
    if access.Refused? then access.error else Missing(name)
  }

  /** `tokens[i]` is punctuation and `tokens[i + 1]` a global variable. */
  predicate VariableAt(ts: seq<Token>, i: int)
  {
    0 <= i < |ts| - 1 && ts[i].kind == Punctuation && ts[i + 1].kind == GlobalVariable
  }

  /** Reference definition of the walk, on what is left of the token list: the final
      tokens and the skipped parameters, or the exception raised. */
  function Walk(ts: seq<Token>, params: Json): (r: Result<(seq<Token>, map<string, Json>), Exc>)
    decreases |ts|
    ensures r.Ok? ==> |r.value.0| <= |ts|
  {
    if |ts| < 2 then Ok((ts, map[]))
    else if ts[0].kind == Punctuation && ts[1].kind == GlobalVariable then
      var name := ts[1].text;
      var access := Fetch(params, name);
      if !access.Found? then Err(Unusable(access, name))
      else
        var v := access.value;
        var rest := Walk(ts[2..], params);
        if rest.Err? then rest
        else if Skippable(v) then Ok((ts[..2] + rest.value.0, map[name := v] + rest.value.1))
        else Ok(([TokenInline(v)] + rest.value.0, rest.value.1))
    else
      var rest := Walk(ts[1..], params);
      if rest.Err? then rest
      else Ok(([ts[0]] + rest.value.0, rest.value.1))
  }

  /** A variable pair starting at `i + 1` of `ts` starts at `i` of `ts[1..]`. */
  lemma VariableAtTail(ts: seq<Token>, d: nat)
    requires d <= |ts|
    ensures forall i :: VariableAt(ts, i) && i >= d ==> VariableAt(ts[d..], i - d)
  {
  }

  /** The walk fails at the first variable whose value it cannot get, raising what
      `Unusable` says for it; every variable before it has a value. */
  lemma {:induction false} WalkFailsAtVariable(ts: seq<Token>, params: Json)
    requires Walk(ts, params).Err?
    ensures exists i :: && VariableAt(ts, i) && !Fetch(params, ts[i + 1].text).Found?
                        && Walk(ts, params).error == Unusable(Fetch(params, ts[i + 1].text), ts[i + 1].text)
                        && forall j :: VariableAt(ts, j) && j < i ==> Fetch(params, ts[j + 1].text).Found?
    decreases |ts|
  {
    if ts[0].kind == Punctuation && ts[1].kind == GlobalVariable {
      assert VariableAt(ts, 0);
      if Fetch(params, ts[1].text).Found? {
        WalkFailsAtVariable(ts[2..], params);
        var i :| && VariableAt(ts[2..], i) && !Fetch(params, ts[2..][i + 1].text).Found?
                 && Walk(ts[2..], params).error == Unusable(Fetch(params, ts[2..][i + 1].text), ts[2..][i + 1].text)
                 && forall j :: VariableAt(ts[2..], j) && j < i ==> Fetch(params, ts[2..][j + 1].text).Found?;
        assert VariableAt(ts, i + 2);
        VariableAtTail(ts, 2);
        assert forall j :: VariableAt(ts, j) && j < i + 2 ==> Fetch(params, ts[j + 1].text).Found? by {
          forall j | VariableAt(ts, j) && j < i + 2
            ensures Fetch(params, ts[j + 1].text).Found?
          {
            if j >= 2 {
              assert VariableAt(ts[2..], j - 2);
            }
          }
        }
      }
    } else {
      WalkFailsAtVariable(ts[1..], params);
      var i :| && VariableAt(ts[1..], i) && !Fetch(params, ts[1..][i + 1].text).Found?
               && Walk(ts[1..], params).error == Unusable(Fetch(params, ts[1..][i + 1].text), ts[1..][i + 1].text)
               && forall j :: VariableAt(ts[1..], j) && j < i ==> Fetch(params, ts[1..][j + 1].text).Found?;
      assert VariableAt(ts, i + 1);
      VariableAtTail(ts, 1);
      assert forall j :: VariableAt(ts, j) && j < i + 1 ==> Fetch(params, ts[j + 1].text).Found? by {
        forall j | VariableAt(ts, j) && j < i + 1
          ensures Fetch(params, ts[j + 1].text).Found?
        {
          assert j != 0;
          assert VariableAt(ts[1..], j - 1);
        }
      }
    }
  }

  /** Every parameter the walk keeps back is a list or a `$`-string, with its own value. */
  lemma {:induction false} WalkSkipsOnlySkippable(ts: seq<Token>, params: Json)
    requires Walk(ts, params).Ok?
    ensures var skipped := Walk(ts, params).value.1;
      forall k :: k in skipped ==> Fetch(params, k) == Found(skipped[k]) && Skippable(skipped[k])
    decreases |ts|
  {
    if |ts| >= 2 {
      if ts[0].kind == Punctuation && ts[1].kind == GlobalVariable {
        WalkSkipsOnlySkippable(ts[2..], params);
      } else {
        WalkSkipsOnlySkippable(ts[1..], params);
      }
    }
  }

  /** Conversely, every variable of the token list whose value is a list or a `$`-string
      is kept back. */
  lemma {:induction false} WalkSkipsEverySkippable(ts: seq<Token>, params: Json, i: int)
    requires Walk(ts, params).Ok? && VariableAt(ts, i)
    requires Fetch(params, ts[i + 1].text).Found? && Skippable(Fetch(params, ts[i + 1].text).value)
    ensures ts[i + 1].text in Walk(ts, params).value.1
    decreases |ts|
  {
    if ts[0].kind == Punctuation && ts[1].kind == GlobalVariable {
      if i > 0 {
        assert i != 1;
        assert VariableAt(ts[2..], i - 2);
        WalkSkipsEverySkippable(ts[2..], params, i - 2);
      }
    } else {
      assert VariableAt(ts[1..], i - 1);
      WalkSkipsEverySkippable(ts[1..], params, i - 1);
    }
  }

  /** Tokens without a `$`-variable pair come back unchanged, and nothing is skipped. */
  lemma {:induction false} WalkWithoutVariables(ts: seq<Token>, params: Json)
    requires forall i :: !VariableAt(ts, i)
    ensures Walk(ts, params) == Ok((ts, map[]))
    decreases |ts|
  {
    if |ts| >= 2 {
      assert !VariableAt(ts, 0);
      assert forall i :: VariableAt(ts[1..], i) ==> VariableAt(ts, i + 1);
      WalkWithoutVariables(ts[1..], params);
      assert [ts[0]] + ts[1..] == ts;
    }
  }

  /** With anything but a dict the walk only succeeds on a token list without variables,
      which it returns unchanged. */
  lemma {:induction false} WalkNonDict(ts: seq<Token>, params: Json)
    requires !params.JObject? && Walk(ts, params).Ok?
    ensures Walk(ts, params) == Ok((ts, map[]))
    decreases |ts|
  {
    if |ts| >= 2 {
      WalkNonDict(ts[1..], params);
      assert [ts[0]] + ts[1..] == ts;
    }
  }

  /** Glues what the loop has finished (`done`, `skipped`) to the walk of the rest. */
  function Prefixed(done: seq<Token>, skipped: map<string, Json>,
                    rest: Result<(seq<Token>, map<string, Json>), Exc>): Result<(seq<Token>, map<string, Json>), Exc>
  {
    match rest
    case Err(e) => Err(e)
    case Ok((t, s)) => Ok((done + t, skipped + s))
  }

  /** The walk of the first part, then of the second. */
  function Then(first: Result<(seq<Token>, map<string, Json>), Exc>,
                second: Result<(seq<Token>, map<string, Json>), Exc>): Result<(seq<Token>, map<string, Json>), Exc>
  {
    if first.Err? then first else Prefixed(first.value.0, first.value.1, second)
  }

  /** The loop starts with nothing done. */
  lemma PrefixedNothing(r: Result<(seq<Token>, map<string, Json>), Exc>)
    ensures Prefixed([], map[], r) == r
  {
    if r.Ok? {
      assert [] + r.value.0 == r.value.0;
      assert map[] + r.value.1 == r.value.1;
    }
  }

  /** `a` and `b` meet without splitting a variable pair. */
  predicate CleanCut(a: seq<Token>, b: seq<Token>)
  {
    !(a != [] && b != [] && a[|a| - 1].kind == Punctuation && b[0].kind == GlobalVariable)
  }

  /** Gluing a finished prefix in front of a step of the walk. */
  lemma PrefixedAssoc(done: seq<Token>, skipped: map<string, Json>, t: seq<Token>, s: map<string, Json>,
                      rest: Result<(seq<Token>, map<string, Json>), Exc>)
    ensures Prefixed(done, skipped, Prefixed(t, s, rest)) == Prefixed(done + t, skipped + s, rest)
  {
    if rest.Ok? {
      assert done + (t + rest.value.0) == (done + t) + rest.value.0;
      assert skipped + (s + rest.value.1) == (skipped + s) + rest.value.1;
    }
  }

  /** Gluing a finished prefix commutes with walking a second part. */
  lemma PrefixedThen(done: seq<Token>, skipped: map<string, Json>,
                     x: Result<(seq<Token>, map<string, Json>), Exc>, y: Result<(seq<Token>, map<string, Json>), Exc>)
    ensures Prefixed(done, skipped, Then(x, y)) == Then(Prefixed(done, skipped, x), y)
  {
    if x.Ok? {
      PrefixedAssoc(done, skipped, x.value.0, x.value.1, y);
    }
  }

  /** A first part too short to hold a variable pair. */
  lemma WalkConcatShort(a: seq<Token>, b: seq<Token>, params: Json)
    requires |a| < 2 && CleanCut(a, b)
    ensures Walk(a + b, params) == Then(Walk(a, params), Walk(b, params))
  {
    if a == [] {
      assert a + b == b;
      PrefixedNothing(Walk(b, params));
    } else if b == [] {
      assert a + b == a;
      var none: map<string, Json> := map[];
      assert none + none == none;
    } else {
      assert !VariableAt(a + b, 0) && (a + b)[0] == a[0] && (a + b)[1..] == b;
      StepPass([], map[], a + b, params);
      PrefixedNothing(Walk(a + b, params));
      assert [] + [a[0]] == a;
    }
  }

  /** The walk over a first token that starts no pair keeps it and walks the rest. */
  lemma WalkPassStep(u: seq<Token>, params: Json)
    requires |u| >= 2 && !VariableAt(u, 0)
    ensures Walk(u, params) == Prefixed([u[0]], map[], Walk(u[1..], params))
  {
    var rest := Walk(u[1..], params);
    if rest.Ok? {
      assert map[] + rest.value.1 == rest.value.1;
    }
  }

  /** The walk over a variable pair whose value is kept back. */
  lemma WalkSkipStep(u: seq<Token>, params: Json, v: Json)
    requires VariableAt(u, 0) && Fetch(params, u[1].text) == Found(v) && Skippable(v)
    ensures Walk(u, params) == Prefixed([u[0], u[1]], map[u[1].text := v], Walk(u[2..], params))
  {
    assert u[..2] == [u[0], u[1]];
  }

  /** The walk over a variable pair whose value is inlined. */
  lemma WalkInlineStep(u: seq<Token>, params: Json, v: Json)
    requires VariableAt(u, 0) && Fetch(params, u[1].text) == Found(v) && !Skippable(v)
    ensures Walk(u, params) == Prefixed([TokenInline(v)], map[], Walk(u[2..], params))
  {
    var rest := Walk(u[2..], params);
    if rest.Ok? {
      assert map[] + rest.value.1 == rest.value.1;
    }
  }

  /** The induction step of `WalkConcat` over a first token that starts no pair. */
  lemma WalkConcatPass(a: seq<Token>, b: seq<Token>, params: Json)
    requires |a| >= 2 && !VariableAt(a, 0)
    requires Walk(a[1..] + b, params) == Then(Walk(a[1..], params), Walk(b, params))
    ensures Walk(a + b, params) == Then(Walk(a, params), Walk(b, params))
  {
    var u := a + b;
    assert u[0] == a[0] && u[1] == a[1] && u[1..] == a[1..] + b;
    WalkPassStep(u, params);
    WalkPassStep(a, params);
    PrefixedThen([a[0]], map[], Walk(a[1..], params), Walk(b, params));
  }

  /** The induction step of `WalkConcat` over a variable pair whose value is kept back. */
  lemma WalkConcatSkip(a: seq<Token>, b: seq<Token>, params: Json, v: Json)
    requires |a| >= 2 && VariableAt(a, 0) && Fetch(params, a[1].text) == Found(v) && Skippable(v)
    requires Walk(a[2..] + b, params) == Then(Walk(a[2..], params), Walk(b, params))
    ensures Walk(a + b, params) == Then(Walk(a, params), Walk(b, params))
  {
    var u := a + b;
    assert u[0] == a[0] && u[1] == a[1] && u[2..] == a[2..] + b;
    WalkSkipStep(u, params, v);
    WalkSkipStep(a, params, v);
    PrefixedThen([a[0], a[1]], map[a[1].text := v], Walk(a[2..], params), Walk(b, params));
  }

  /** The induction step of `WalkConcat` over a variable pair whose value is inlined. */
  lemma WalkConcatInline(a: seq<Token>, b: seq<Token>, params: Json, v: Json)
    requires |a| >= 2 && VariableAt(a, 0) && Fetch(params, a[1].text) == Found(v) && !Skippable(v)
    requires Walk(a[2..] + b, params) == Then(Walk(a[2..], params), Walk(b, params))
    ensures Walk(a + b, params) == Then(Walk(a, params), Walk(b, params))
  {
    var u := a + b;
    assert u[0] == a[0] && u[1] == a[1] && u[2..] == a[2..] + b;
    WalkInlineStep(u, params, v);
    WalkInlineStep(a, params, v);
    PrefixedThen([TokenInline(v)], map[], Walk(a[2..], params), Walk(b, params));
  }

  /** Cut where no variable pair is split, the walk of a token list is the walk of its
      first part followed by the walk of the second. */
  lemma {:induction false} WalkConcat(a: seq<Token>, b: seq<Token>, params: Json)
    requires CleanCut(a, b)
    ensures Walk(a + b, params) == Then(Walk(a, params), Walk(b, params))
    decreases |a|
  {
    if |a| < 2 {
      WalkConcatShort(a, b, params);
    } else if !VariableAt(a, 0) {
      assert a[1..][|a[1..]| - 1] == a[|a| - 1];
      WalkConcat(a[1..], b, params);
      WalkConcatPass(a, b, params);
    } else if Fetch(params, a[1].text).Found? {
      assert a[2..] == [] || a[2..][|a[2..]| - 1] == a[|a| - 1];
      WalkConcat(a[2..], b, params);
      var v := Fetch(params, a[1].text).value;
      if Skippable(v) {
        WalkConcatSkip(a, b, params, v);
      } else {
        WalkConcatInline(a, b, params, v);
      }
    } else {
      var u := a + b;
      assert u[0] == a[0] && u[1] == a[1];
      StepFail([], map[], u, params);
      StepFail([], map[], a, params);
    }
  }

  /** A `$name` pair anywhere in the token list whose value is neither a list nor a
      `$`-string becomes one literal holding the value, and the walk goes on after it. */
  lemma WalkInlinesVariable(a: seq<Token>, dollar: string, name: string, b: seq<Token>, params: Json)
    requires Walk(a, params).Ok?
    requires Fetch(params, name).Found? && !Skippable(Fetch(params, name).value)
    ensures var ra := Walk(a, params).value;
      Walk(a + [Token(Punctuation, dollar), Token(GlobalVariable, name)] + b, params)
      == Prefixed(ra.0 + [TokenInline(Fetch(params, name).value)], ra.1, Walk(b, params))
  {
    var u := [Token(Punctuation, dollar), Token(GlobalVariable, name)] + b;
    assert a + [Token(Punctuation, dollar), Token(GlobalVariable, name)] + b == a + u;
    WalkConcat(a, u, params);
    assert VariableAt(u, 0) && u[1].text == name && u[2..] == b;
    StepInline(Walk(a, params).value.0, Walk(a, params).value.1, u, params, Fetch(params, name).value);
  }

  /** A `$name` pair whose value is a list or a `$`-string keeps both tokens, so the
      server still sees `$name`, and the value is kept back. */
  lemma WalkKeepsSkippedVariable(a: seq<Token>, dollar: string, name: string, b: seq<Token>, params: Json)
    requires Walk(a, params).Ok?
    requires Fetch(params, name).Found? && Skippable(Fetch(params, name).value)
    ensures var ra := Walk(a, params).value;
      Walk(a + [Token(Punctuation, dollar), Token(GlobalVariable, name)] + b, params)
      == Prefixed(ra.0 + [Token(Punctuation, dollar), Token(GlobalVariable, name)],
                  ra.1[name := Fetch(params, name).value], Walk(b, params))
  {
    var u := [Token(Punctuation, dollar), Token(GlobalVariable, name)] + b;
    assert a + [Token(Punctuation, dollar), Token(GlobalVariable, name)] + b == a + u;
    WalkConcat(a, u, params);
    assert VariableAt(u, 0) && u[1].text == name && u[2..] == b;
    assert u[..2] == [Token(Punctuation, dollar), Token(GlobalVariable, name)];
    StepSkip(Walk(a, params).value.0, Walk(a, params).value.1, u, params, Fetch(params, name).value);
  }

  /** The text of a token list: `"".join(x[1] for x in tokens)`. */
  function Texts(ts: seq<Token>): string
  {
    if ts == [] then "" else ts[0].text + Texts(ts[1..])
  }

  /** Joining distributes over concatenation. */
  lemma {:induction false} TextsConcat(a: seq<Token>, b: seq<Token>)
    ensures Texts(a + b) == Texts(a) + Texts(b)
    decreases |a|
  {
    if a == [] {
      assert a + b == b;
    } else {
      assert (a + b)[1..] == a[1..] + b;
      TextsConcat(a[1..], b);
    }
  }

  /** One loop step over a skipped variable: both tokens are kept and the value recorded. */
  lemma StepSkip(done: seq<Token>, skipped: map<string, Json>, u: seq<Token>, params: Json, v: Json)
    requires VariableAt(u, 0) && Fetch(params, u[1].text) == Found(v) && Skippable(v)
    ensures Prefixed(done, skipped, Walk(u, params))
         == Prefixed(done + u[..2], skipped[u[1].text := v], Walk(u[2..], params))
  {
    var rest := Walk(u[2..], params);
    if rest.Ok? {
      assert done + (u[..2] + rest.value.0) == (done + u[..2]) + rest.value.0;
      assert skipped + (map[u[1].text := v] + rest.value.1) == skipped[u[1].text := v] + rest.value.1;
    }
  }

  /** One loop step over an inlined variable: the two tokens become one literal. */
  lemma StepInline(done: seq<Token>, skipped: map<string, Json>, u: seq<Token>, params: Json, v: Json)
    requires VariableAt(u, 0) && Fetch(params, u[1].text) == Found(v) && !Skippable(v)
    ensures Prefixed(done, skipped, Walk(u, params))
         == Prefixed(done + [TokenInline(v)], skipped, Walk(u[2..], params))
  {
    var rest := Walk(u[2..], params);
    if rest.Ok? {
      assert done + ([TokenInline(v)] + rest.value.0) == (done + [TokenInline(v)]) + rest.value.0;
    }
  }

  /** One loop step over any other token: it is kept as it is. */
  lemma StepPass(done: seq<Token>, skipped: map<string, Json>, u: seq<Token>, params: Json)
    requires |u| >= 2 && !VariableAt(u, 0)
    ensures Prefixed(done, skipped, Walk(u, params))
         == Prefixed(done + [u[0]], skipped, Walk(u[1..], params))
  {
    var rest := Walk(u[1..], params);
    if rest.Ok? {
      assert done + ([u[0]] + rest.value.0) == (done + [u[0]]) + rest.value.0;
    }
  }

  /** The loop meets a variable whose value it cannot get. */
  lemma StepFail(done: seq<Token>, skipped: map<string, Json>, u: seq<Token>, params: Json)
    requires VariableAt(u, 0) && !Fetch(params, u[1].text).Found?
    ensures Prefixed(done, skipped, Walk(u, params)) == Err(Unusable(Fetch(params, u[1].text), u[1].text))
  {
  }

  /** The loop ends with fewer than two tokens to look at, which stay as they are. */
  lemma StepEnd(done: seq<Token>, skipped: map<string, Json>, u: seq<Token>, params: Json)
    requires |u| < 2
    ensures Prefixed(done, skipped, Walk(u, params)) == Ok((done + u, skipped))
  {
    assert skipped + map[] == skipped;
  }

  /** What the token path returns: the joined token texts and the skipped parameters. */
  function TokenFormat(tokens: seq<Token>, params: Json): Result<(string, map<string, Json>), Exc>
  {
    match Walk(tokens, params)
    case Err(e) => Err(e)
    case Ok((t, s)) => Ok((Texts(t), s))
  }

  /** The loop passes the token at `i`. */
  lemma AdvancePass(ts: seq<Token>, i: nat, skipped: map<string, Json>, params: Json)
    requires i + 1 < |ts| && !(ts[i].kind == Punctuation && ts[i + 1].kind == GlobalVariable)
    ensures Prefixed(ts[..i], skipped, Walk(ts[i..], params))
         == Prefixed(ts[..i + 1], skipped, Walk(ts[i + 1..], params))
  {
    StepPass(ts[..i], skipped, ts[i..], params);
    assert ts[..i] + [ts[i..][0]] == ts[..i + 1];
    assert ts[i..][1..] == ts[i + 1..];
  }

  /** The loop keeps the variable at `i` back, with its value `v`. */
  lemma AdvanceSkip(ts: seq<Token>, i: nat, skipped: map<string, Json>, params: Json, v: Json)
    requires i + 1 < |ts| && ts[i].kind == Punctuation && ts[i + 1].kind == GlobalVariable
    requires Fetch(params, ts[i + 1].text) == Found(v) && Skippable(v)
    ensures Prefixed(ts[..i], skipped, Walk(ts[i..], params))
         == Prefixed(ts[..i + 2], skipped[ts[i + 1].text := v], Walk(ts[i + 2..], params))
  {
    assert VariableAt(ts[i..], 0);
    StepSkip(ts[..i], skipped, ts[i..], params, v);
    assert ts[..i] + ts[i..][..2] == ts[..i + 2];
    assert ts[i..][2..] == ts[i + 2..];
  }

  /** The loop inlines the value `v` of the variable at `i`, giving `ts`. */
  lemma AdvanceInline(before: seq<Token>, i: nat, skipped: map<string, Json>, params: Json, v: Json,
                      ts: seq<Token>)
    requires i + 1 < |before| && before[i].kind == Punctuation && before[i + 1].kind == GlobalVariable
    requires Fetch(params, before[i + 1].text) == Found(v) && !Skippable(v)
    requires ts == before[..i] + [TokenInline(v)] + before[i + 2..]
    ensures |ts| == |before| - 1
    ensures Prefixed(before[..i], skipped, Walk(before[i..], params))
         == Prefixed(ts[..i + 1], skipped, Walk(ts[i + 1..], params))
  {
    assert VariableAt(before[i..], 0);
    StepInline(before[..i], skipped, before[i..], params, v);
    assert ts[..i + 1] == before[..i] + [TokenInline(v)];
    assert ts[i + 1..] == before[i..][2..];
  }

  /** The loop meets a variable whose value it cannot get. */
  lemma AdvanceFail(ts: seq<Token>, i: nat, skipped: map<string, Json>, params: Json)
    requires i + 1 < |ts| && ts[i].kind == Punctuation && ts[i + 1].kind == GlobalVariable
    requires !Fetch(params, ts[i + 1].text).Found?
    ensures Prefixed(ts[..i], skipped, Walk(ts[i..], params))
         == Err(Unusable(Fetch(params, ts[i + 1].text), ts[i + 1].text))
  {
    assert VariableAt(ts[i..], 0);
    StepFail(ts[..i], skipped, ts[i..], params);
  }

  /** The loop ends at `i`. */
  lemma AdvanceEnd(ts: seq<Token>, i: nat, skipped: map<string, Json>, params: Json)
    requires i <= |ts| < i + 2
    ensures Prefixed(ts[..i], skipped, Walk(ts[i..], params)) == Ok((ts, skipped))
  {
    StepEnd(ts[..i], skipped, ts[i..], params);
    assert ts[..i] + ts[i..] == ts;
  }

  /** The token path of `cypher_formater`, as written: `tokens[i]` is overwritten with the
      literal and `tokens[i + 1]` popped, with the index and length moving along. */
  method FormatTokens(tokens: seq<Token>, params: Json)
    returns (r: Result<(string, map<string, Json>), Exc>)
    ensures r == TokenFormat(tokens, params)
  {
    ghost var w := Walk(tokens, params);
    var ts := tokens;
    var skipped: map<string, Json> := map[];
    var i := 0;
    var lenTokens := |ts|;
    PrefixedNothing(w);
    assert ts[..0] == [] && ts[0..] == ts;
    while i < lenTokens - 1
      invariant lenTokens == |ts|
      invariant 0 <= i <= |ts|
      invariant w == Prefixed(ts[..i], skipped, Walk(ts[i..], params))
      decreases |ts| - i
    {
      if ts[i].kind == Punctuation && ts[i + 1].kind == GlobalVariable {
        var varName := ts[i + 1].text;
        var access := Fetch(params, varName);
        if !access.Found? {
          AdvanceFail(ts, i, skipped, params);
          return Err(Unusable(access, varName));
        }
        var value := access.value;
        if Skippable(value) {
          AdvanceSkip(ts, i, skipped, params, value);
          skipped := skipped[varName := value];
          i := i + 2;
          continue;
        }
        ghost var before := ts;
        ts := ts[..i] + [TokenInline(value)] + ts[i + 2..];
        lenTokens := lenTokens - 1;
        AdvanceInline(before, i, skipped, params, value, ts);
      } else {
        AdvancePass(ts, i, skipped, params);
      }
      i := i + 1;
    }
    AdvanceEnd(ts, i, skipped, params);
    return Ok((Texts(ts), skipped));
  }

  /** What `cypher_formater` returns: the scan without a lexer, the token walk with one. */
  function FormatSpec(lexer: Option<Lexer>, query: string, params: Json): Result<(string, map<string, Json>), Exc>
  {
    if lexer.None? then
      match Substitute(query, params)
      case Err(e) => Err(e)
      case Ok(text) => Ok((text, map[]))
    else TokenFormat(lexer.value(query), params)
  }

  /** The formatter fails only by the missing-variable assertion or by a TypeError of
      the parameters, and with a dict only by the assertion of the token walk. */
  lemma FormatFailures(lexer: Option<Lexer>, query: string, params: Json)
    requires FormatSpec(lexer, query, params).Err?
    ensures FormatSpec(lexer, query, params).error.Foreign?
    ensures FormatSpec(lexer, query, params).error.name in {MissingVariable, "TypeError"}
    ensures params.JObject? ==> lexer.Some? && FormatSpec(lexer, query, params).error.name == MissingVariable
  {
    if lexer.None? {
      if params.JObject? {
        SubstituteDict(query, params);
      } else {
        SubstituteNonDict(query, params);
      }
    } else {
      WalkFailsAtVariable(lexer.value(query), params);
    }
  }

  /** With anything but a dict nothing is inlined or kept back: when the formatter does
      not raise, it returns the query (the joined tokens, with a lexer) and no parameters. */
  lemma FormatNonDict(lexer: Option<Lexer>, query: string, params: Json)
    requires !params.JObject? && FormatSpec(lexer, query, params).Ok?
    ensures FormatSpec(lexer, query, params)
         == Ok((if lexer.None? then query else Texts(lexer.value(query)), map[]))
  {
    if lexer.None? {
      SubstituteNonDict(query, params);
    } else {
      WalkNonDict(lexer.value(query), params);
    }
  }

  /** `cypher_formater(query, params)`: the rewritten text and the parameters still to be
      sent. Without a lexer the scan runs and nothing is kept back. */
  method CypherFormater(lexer: Option<Lexer>, query: string, params: Json)
    returns (r: Result<(string, map<string, Json>), Exc>)
    ensures r == FormatSpec(lexer, query, params)
    ensures lexer.None? && r.Ok? ==> r.value.1 == map[]
  {
    if lexer.None? {
      var text := Substitute(query, params);
      if text.Err? {
        return Err(text.error);
      }
      return Ok((text.value, map[]));
    }
    r := FormatTokens(lexer.value(query), params);
  }

  /** A lone `$name` with an inlinable string value becomes one quoted literal, the same
      text the scan path produces for it. */
  lemma PathsAgreeOnStrings(name: string, value: string, params: Json)
    requires IsIdentifier(name) && Fetch(params, name) == Found(JStr(value)) && '$' !in value
    ensures var ts := [Token(Punctuation, "$"), Token(GlobalVariable, name)];
      && Walk(ts, params) == Ok(([TokenInline(JStr(value))], map[]))
      && Ok(Texts(Walk(ts, params).value.0)) == Substitute("$" + name, params)
  {
    var ts := [Token(Punctuation, "$"), Token(GlobalVariable, name)];
    assert ts[2..] == [];
    assert VariableAt(ts, 0);
    assert !Skippable(JStr(value));
    assert Walk(ts[2..], params) == Ok(([], map[]));
    assert [TokenInline(JStr(value))] + [] == [TokenInline(JStr(value))];
    var none: map<string, Json> := map[];
    assert none + none == none;
    SubstituteOne(name, params);
  }
}
