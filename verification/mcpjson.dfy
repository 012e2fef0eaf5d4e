/** The JSON-over-HTTP endpoint (run_jira_json.py): `handle_mcp` reads
    `{"tool": ..., "args": ...}`, looks the tool up, calls its function
    with the arguments as keywords and answers with exactly one of
    `{"result": ...}` or `{"error": ...}`. */
module McpJson {

  import opened Values
  import Decimal
  import Jira
  import Http

  /** A parameter of a tool's function; `default` is None when the
      argument is required. */
  datatype Param = Param(name: string, default: Option<Json>)

  /** A registered tool: the module its function is defined in, the
      function's parameters, in order, and what calling the function with
      those parameters bound does. */
  datatype Tool = Tool(moduleName: string, params: seq<Param>, run: seq<Json> -> Invocation)

  /** The endpoint's answer: a JSON response, or the framework's plain
      500 page when an exception escapes `handle_mcp`. */
  datatype Reply = JsonReply(status: int, body: Json) | ServerError

  function ErrorBody(msg: string): Json
  {
    JObject([("error", JString(msg))])
  }

  function ResultBody(j: Json): Json
  {
    JObject([("result", j)])
  }

  /** A response body of the form the endpoint promises: one member,
      `result` exactly when the status is 200, `error` otherwise. */
  predicate WellFormed(r: Reply)
  {
    r.JsonReply? ==>
      && r.status in {200, 404, 500}
      && r.body.JObject? && |r.body.members| == 1
      && (r.body.members[0].0 == "result" || r.body.members[0].0 == "error")
      && (r.status == 200 <==> r.body.members[0].0 == "result")
  }

  // ---------------------------------------------------------------------
  // Python values appearing in messages

  /** Values usable as a dict key; a list or an object is not. */
  predicate Hashable(j: Json)
  {
    !j.JArray? && !j.JObject?
  }

  /** `str(v)` for a scalar JSON value. */
  function PyStr(j: Json): string
    requires Hashable(j)
  {
    match j
    case JNull => "None"
    case JBool(b) => if b then "True" else "False"
    case JInt(i) => Decimal.IntToString(i)
    case JString(s) => s
  }

  /** `type(v).__name__` for a decoded JSON value. */
  function TypeName(j: Json): string
  {
    match j
    case JNull => "NoneType"
    case JBool(_) => "bool"
    case JInt(_) => "int"
    case JString(_) => "str"
    case JArray(_) => "list"
    case JObject(_) => "dict"
  }

  function NotFoundMessage(name: Json): string
    requires Hashable(name)
  {
    "Tool '" + PyStr(name) + "' not found"
  }

  // ---------------------------------------------------------------------
  // Binding keyword arguments to parameters, as a Python call does

  function ParamNames(params: seq<Param>): (ns: seq<string>)
    ensures |ns| == |params|
    ensures forall j :: 0 <= j < |params| ==> ns[j] == params[j].name
  {
    seq(|params|, j requires 0 <= j < |params| => params[j].name)
  }

  /** The first keyword, in the order the arguments were given, that
      names no parameter. */
  function FirstUnexpected(names: seq<string>, args: seq<(string, Json)>): (r: Option<string>)
    ensures r.None? <==> forall i :: 0 <= i < |args| ==> args[i].0 in names
    ensures r.Some? ==> r.value !in names
    ensures r.Some? ==> exists i :: (0 <= i < |args| && args[i].0 == r.value
      && forall k :: 0 <= k < i ==> args[k].0 in names)
  {
    if |args| == 0 then None
    else if args[0].0 !in names then Some(args[0].0)
    else
      var r := FirstUnexpected(names, args[1..]);
      if r.Some? then
        var i :| 0 <= i < |args[1..]| && args[1..][i].0 == r.value
          && forall k :: 0 <= k < i ==> args[1..][k].0 in names;
        assert args[i + 1].0 == r.value;
        assert forall k :: 0 <= k < i + 1 ==> args[k].0 in names by {
          forall k | 0 <= k < i + 1 ensures args[k].0 in names {
            if k > 0 { assert args[k] == args[1..][k - 1]; }
          }
        }
        r
      else
        r
  }

  /** Parameter `j` is required and no argument was given for it. */
  predicate Absent(params: seq<Param>, args: seq<(string, Json)>, j: int)
    requires 0 <= j < |params|
  {
    params[j].default.None? && Lookup(args, params[j].name).None?
  }

  /** The required parameters no argument was given for, in parameter order. */
  function Missing(params: seq<Param>, args: seq<(string, Json)>): (ms: seq<string>)
    ensures ms == [] <==> forall j :: 0 <= j < |params| && params[j].default.None? ==> Lookup(args, params[j].name).Some?
    ensures forall m :: m in ms <==>
      (exists j :: 0 <= j < |params| && params[j].name == m && Absent(params, args, j))
    ensures |ms| <= |params|
  {
    if |params| == 0 then []
    else
      var rest := Missing(params[1..], args);
      assert forall j :: 1 <= j < |params| ==> params[j] == params[1..][j - 1];
      if params[0].default.None? && Lookup(args, params[0].name).None? then [params[0].name] + rest
      else rest
  }

  /** Positions one past each of `idx`. */
  function Shift(idx: seq<nat>): (s: seq<nat>)
    ensures |s| == |idx| && forall k :: 0 <= k < |idx| ==> s[k] == idx[k] + 1
  {
    seq(|idx|, k requires 0 <= k < |idx| => idx[k] + 1)
  }

  /** `ms` names exactly the absent required parameters, each once, in
      parameter order: `idx` gives the position of each in turn. */
  predicate NamesAbsentInOrder(params: seq<Param>, args: seq<(string, Json)>, ms: seq<string>, idx: seq<nat>)
  {
    && |idx| == |ms|
    && (forall k :: 0 <= k < |idx| ==>
         (idx[k] < |params| && ms[k] == params[idx[k]].name && Absent(params, args, idx[k])))
    && (forall k, l :: 0 <= k < l < |idx| ==> idx[k] < idx[l])
    && (forall j :: 0 <= j < |params| && Absent(params, args, j) ==> j in idx)
  }

  /** Missing reports the absent required parameters, all of them, each
      once and in parameter order. */
  lemma {:induction false} MissingInOrder(params: seq<Param>, args: seq<(string, Json)>) returns (idx: seq<nat>)
    ensures NamesAbsentInOrder(params, args, Missing(params, args), idx)
  {
    if |params| == 0 {
      idx := [];
    } else {
      var rest := MissingInOrder(params[1..], args);
      var mt := Missing(params[1..], args);
      idx := ShiftPositions(params, args, mt, rest);
      if Absent(params, args, 0) {
        idx := ConsPosition(params, args, mt, idx);
      }
    }
  }

  /** The positions found in the tail of the list, one further on, are
      the absent parameters of the whole list after its first. */
  lemma ShiftPositions(params: seq<Param>, args: seq<(string, Json)>, mt: seq<string>, rest: seq<nat>) returns (idx: seq<nat>)
    requires |params| > 0 && NamesAbsentInOrder(params[1..], args, mt, rest)
    ensures idx == Shift(rest) && |idx| == |mt|
    ensures forall k :: 0 <= k < |idx| ==>
      (1 <= idx[k] < |params| && mt[k] == params[idx[k]].name && Absent(params, args, idx[k]))
    ensures forall k, l :: 0 <= k < l < |idx| ==> idx[k] < idx[l]
    ensures forall j :: 1 <= j < |params| && Absent(params, args, j) ==> j in idx
  {
    var tail := params[1..];
    idx := Shift(rest);
    assert forall j :: 1 <= j < |params| ==> params[j] == tail[j - 1];
    forall j | 1 <= j < |params| && Absent(params, args, j)
      ensures j in idx
    {
      assert Absent(tail, args, j - 1);
      var k :| 0 <= k < |rest| && rest[k] == j - 1;
      assert idx[k] == j;
    }
  }

  /** An absent first parameter goes in front of the rest. */
  lemma ConsPosition(params: seq<Param>, args: seq<(string, Json)>, mt: seq<string>, shifted: seq<nat>) returns (idx: seq<nat>)
    requires |params| > 0 && Absent(params, args, 0) && |shifted| == |mt|
    requires forall k :: 0 <= k < |shifted| ==>
      (1 <= shifted[k] < |params| && mt[k] == params[shifted[k]].name && Absent(params, args, shifted[k]))
    requires forall k, l :: 0 <= k < l < |shifted| ==> shifted[k] < shifted[l]
    requires forall j :: 1 <= j < |params| && Absent(params, args, j) ==> j in shifted
    ensures idx == [0] + shifted
    ensures NamesAbsentInOrder(params, args, [params[0].name] + mt, idx)
  {
    idx := [0] + shifted;
    var ms := [params[0].name] + mt;
    forall k | 1 <= k < |idx|
      ensures idx[k] < |params| && ms[k] == params[idx[k]].name && Absent(params, args, idx[k])
    {
      assert idx[k] == shifted[k - 1] && ms[k] == mt[k - 1];
    }
  }

  function Quoted(name: string): string
  {
    "'" + name + "'"
  }

  /** The message of the `TypeError` for two missing arguments. */
  lemma TwoMissingMessage(fn: string, a: string, b: string)
    ensures MissingMessage(fn, [a, b])
         == fn + "() missing " + "2" + " required positional arguments: " + Quoted(a) + " and " + Quoted(b)
  {
    assert Decimal.IntToString(2) == "2" by { assert Decimal.DigitChar(2) == '2'; }
  }

  /** The list of missing names in a `TypeError`: `'a'`, `'a' and 'b'`,
      `'a', 'b', and 'c'`. */
  function NameList(names: seq<string>): string
    requires |names| >= 1
  {
    if |names| == 1 then Quoted(names[0])
    else if |names| == 2 then Quoted(names[0]) + " and " + Quoted(names[1])
    else CommaList(names[..|names| - 1]) + ", and " + Quoted(names[|names| - 1])
  }

  function CommaList(names: seq<string>): string
    requires |names| >= 1
  {
    if |names| == 1 then Quoted(names[0])
    else CommaList(names[..|names| - 1]) + ", " + Quoted(names[|names| - 1])
  }

  function UnexpectedMessage(fn: string, key: string): string
  {
    fn + "() got an unexpected keyword argument " + Quoted(key)
  }

  function MissingMessage(fn: string, missing: seq<string>): string
    requires |missing| >= 1
  {
    fn + "() missing " + Decimal.IntToString(|missing|)
    + (if |missing| == 1 then " required positional argument: " else " required positional arguments: ")
    + NameList(missing)
  }

  /** The value a parameter receives: its argument, else its default. */
  function BoundValue(p: Param, args: seq<(string, Json)>): Json
    requires Lookup(args, p.name).Some? || p.default.Some?
  {
    match Lookup(args, p.name)
    case Some(v) => v
    case None => p.default.value
  }

  /** Every parameter bound to its argument, else to its default. */
  function BoundValues(params: seq<Param>, args: seq<(string, Json)>): (vs: seq<Json>)
    requires forall j :: 0 <= j < |params| && params[j].default.None? ==> Lookup(args, params[j].name).Some?
    ensures |vs| == |params|
    ensures forall j :: 0 <= j < |params| ==>
      && (Lookup(args, params[j].name).Some? ==> vs[j] == Lookup(args, params[j].name).value)
      && (Lookup(args, params[j].name).None? ==> params[j].default.Some? && vs[j] == params[j].default.value)
  {
    seq(|params|, j requires 0 <= j < |params| => BoundValue(params[j], args))
  }

  /** The unexpected-keyword message starts with the function's name and `() `. */
  lemma UnexpectedPrefix(fn: string, key: string)
    ensures var m := UnexpectedMessage(fn, key); |m| > |fn| + 3 && m[..|fn| + 3] == fn + "() "
  {
    var a := fn + "() got an unexpected keyword argument ";
    PrefixOfConcat(a, Quoted(key), |fn| + 3);
    CallPrefix(fn, "() got an unexpected keyword argument ");
  }

  /** The missing-arguments message starts with the function's name and `() `. */
  lemma MissingPrefix(fn: string, missing: seq<string>)
    requires |missing| >= 1
    ensures var m := MissingMessage(fn, missing); |m| > |fn| + 3 && m[..|fn| + 3] == fn + "() "
  {
    var a := fn + "() missing ";
    var b := a + Decimal.IntToString(|missing|);
    var c := b + (if |missing| == 1 then " required positional argument: " else " required positional arguments: ");
    PrefixOfConcat(c, NameList(missing), |fn| + 3);
    PrefixOfConcat(b, c[|b|..], |fn| + 3);
    PrefixOfConcat(a, b[|a|..], |fn| + 3);
    CallPrefix(fn, "() missing ");
  }

  /** The function name followed by a literal that starts with `() `. */
  lemma CallPrefix(fn: string, lit: string)
    requires |lit| > 3 && lit[0] == '(' && lit[1] == ')' && lit[2] == ' '
    ensures |fn + lit| > |fn| + 3 && (fn + lit)[..|fn| + 3] == fn + "() "
  {
    assert lit[..3] == "() ";
    assert (fn + lit)[..|fn| + 3] == fn + lit[..3];
  }

  /** Extending a text leaves its first `n` characters alone. */
  lemma PrefixOfConcat(a: string, b: string, n: nat)
    requires n <= |a|
    ensures (a + b)[..n] == a[..n]
  {
    assert forall i :: 0 <= i < n ==> (a + b)[..n][i] == a[..n][i];
  }

  /** Calling `fn(**args)` on a function with parameters `params`: an
      unknown keyword is reported first, then every missing required
      argument; otherwise each parameter gets its argument or default. */
  function Bind(fn: string, params: seq<Param>, args: seq<(string, Json)>): (r: Result<seq<Json>, string>)
    ensures r.Success? <==>
      && (forall i :: 0 <= i < |args| ==> args[i].0 in ParamNames(params))
      && (forall j :: 0 <= j < |params| && params[j].default.None? ==> Lookup(args, params[j].name).Some?)
    ensures r.Success? ==> r.value == BoundValues(params, args)
    ensures r.Failure? ==> |r.error| > |fn| + 3 && r.error[..|fn| + 3] == fn + "() "
    ensures FirstUnexpected(ParamNames(params), args).Some? ==>
      r == Failure(UnexpectedMessage(fn, FirstUnexpected(ParamNames(params), args).value))
    ensures FirstUnexpected(ParamNames(params), args).None? && r.Failure? ==>
      Missing(params, args) != [] && r == Failure(MissingMessage(fn, Missing(params, args)))
  {
    match FirstUnexpected(ParamNames(params), args)
    case Some(k) =>
      UnexpectedPrefix(fn, k);
      Failure(UnexpectedMessage(fn, k))
    case None =>
      var missing := Missing(params, args);
      if missing != [] then
        MissingPrefix(fn, missing);
        Failure(MissingMessage(fn, missing))
      else
        Success(BoundValues(params, args))
  }

  // ---------------------------------------------------------------------
  // The endpoint

  /** `data.get('args', {}) or {}`: a missing or falsy value is `{}`. */
  function ArgsOf(data: seq<(string, Json)>): (a: Json)
    ensures Truthy(a) || a == JObject([])
    ensures !(Lookup(data, "args").Some? && Truthy(Lookup(data, "args").value)) ==> a == JObject([])
    ensures Lookup(data, "args").Some? && Truthy(Lookup(data, "args").value) ==> a == Lookup(data, "args").value
  {
    match Lookup(data, "args")
    case Some(a) => if Truthy(a) then a else JObject([])
    case None => JObject([])
  }

  /** The `TypeError` for `**` applied to a non-mapping; unlike the
      binding errors it names the function with its module. */
  function NotMappingMessage(moduleName: string, fn: string, args: Json): string
  {
    moduleName + "." + fn + "() argument after ** must be a mapping, not " + TypeName(args)
  }

  /** `tool.fn(**args)`. */
  function Invoke(fn: string, tool: Tool, args: Json): (r: Invocation)
    ensures !args.JObject? ==> r == Raised(NotMappingMessage(tool.moduleName, fn, args))
    ensures args.JObject? && Bind(fn, tool.params, args.members).Failure? ==> r == Raised(Bind(fn, tool.params, args.members).error)
    ensures args.JObject? && Bind(fn, tool.params, args.members).Success? ==> r == tool.run(Bind(fn, tool.params, args.members).value)
  {
    match args
    case JObject(members) =>
      (match Bind(fn, tool.params, members)
       case Success(vs) => tool.run(vs)
       case Failure(msg) => Raised(msg))
    case _ => Raised(NotMappingMessage(tool.moduleName, fn, args))
  }

  /** The answer to a finished call: a raise is a 500; a result is
      returned as is when `json.dumps` accepts it, as `str(result)` when
      it raises `TypeError`, and a `ValueError` falls through to the 500. */
  function Answer(inv: Invocation): (r: Reply)
    ensures WellFormed(r) && r.JsonReply?
    ensures inv.Raised? ==> r == JsonReply(500, ErrorBody(inv.msg))
    ensures inv.Returned? && inv.value.PyJson? ==> r == JsonReply(200, ResultBody(inv.value.json))
    ensures inv.Returned? && inv.value.PyObject? && inv.value.dumpsError.DumpsTypeError? ==>
      r == JsonReply(200, ResultBody(JString(inv.value.repr)))
    ensures inv.Returned? && inv.value.PyObject? && inv.value.dumpsError.DumpsValueError? ==>
      r == JsonReply(500, ErrorBody(inv.value.dumpsError.msg))
  {
    match inv
    case Raised(msg) => JsonReply(500, ErrorBody(msg))
    case Returned(PyJson(j)) => JsonReply(200, ResultBody(j))
    case Returned(PyObject(repr, DumpsTypeError)) => JsonReply(200, ResultBody(JString(repr)))
    case Returned(PyObject(_, DumpsValueError(msg))) => JsonReply(500, ErrorBody(msg))
  }

  /** `data.get('tool')`. */
  function ToolName(data: seq<(string, Json)>): Json
  {
    match Lookup(data, "tool")
    case Some(n) => n
    case None => JNull
  }

  /** `handle_mcp` on a request body: `body` is the outcome of decoding it. */
  function Dispatch(registry: map<string, Tool>, body: Result<Json, string>): (r: Reply)
    ensures WellFormed(r)
    ensures r.ServerError? <==>
      body.Failure? || !body.value.JObject? || !Hashable(ToolName(body.value.members))
    ensures r.JsonReply? && r.status == 404 <==>
      && body.Success? && body.value.JObject?
      && var name := ToolName(body.value.members);
         Hashable(name) && !(name.JString? && name.s in registry)
  {
    match body
    case Failure(_) => ServerError
    case Success(data) =>
      if !data.JObject? then ServerError
      else
        var name := ToolName(data.members);
        if !Hashable(name) then ServerError
        else if !(name.JString? && name.s in registry) then
          JsonReply(404, ErrorBody(NotFoundMessage(name)))
        else
          Answer(Invoke(name.s, registry[name.s], ArgsOf(data.members)))
  }

  // ---------------------------------------------------------------------
  // Properties of the endpoint

  /** A body naming a registered tool runs that tool on its arguments. */
  lemma DispatchRegistered(registry: map<string, Tool>, data: seq<(string, Json)>, name: string)
    requires ToolName(data) == JString(name) && name in registry
    ensures Dispatch(registry, Success(JObject(data))) == Answer(Invoke(name, registry[name], ArgsOf(data)))
  {
  }

  /** An unknown tool gets a 404 naming it, and no tool runs: the reply
      is the one an empty registry would give. */
  lemma NotFoundInvokesNothing(registry: map<string, Tool>, data: seq<(string, Json)>)
    requires Hashable(ToolName(data))
    requires !(ToolName(data).JString? && ToolName(data).s in registry)
    ensures Dispatch(registry, Success(JObject(data))) == JsonReply(404, ErrorBody(NotFoundMessage(ToolName(data))))
    ensures Dispatch(registry, Success(JObject(data))) == Dispatch(map[], Success(JObject(data)))
  {
  }

  /** A missing, null or otherwise falsy `args` is the empty mapping. */
  lemma FalsyArgsAreEmpty(registry: map<string, Tool>, data: seq<(string, Json)>)
    requires Lookup(data, "args").None? || !Truthy(Lookup(data, "args").value)
    ensures Dispatch(registry, Success(JObject(data)))
         == Dispatch(registry, Success(JObject(data + [("args", JObject([]))])))
  {
    var data' := data + [("args", JObject([]))];
    LookupAppend(data, "args", JObject([]), "tool");
    LookupAppend(data, "args", JObject([]), "args");
    assert ToolName(data') == ToolName(data);
    assert ArgsOf(data') == ArgsOf(data);
  }

  /** Whatever a registered tool raises becomes a 500 carrying its message;
      nothing escapes. */
  lemma RaisedIsServerFailure(registry: map<string, Tool>, data: seq<(string, Json)>, msg: string)
    requires ToolName(data).JString? && ToolName(data).s in registry
    requires var name := ToolName(data).s;
      Invoke(name, registry[name], ArgsOf(data)) == Raised(msg)
    ensures Dispatch(registry, Success(JObject(data))) == JsonReply(500, ErrorBody(msg))
  {
  }

  /** A result `json.dumps` accepts is returned unchanged with 200. */
  lemma SerialisableIsReturned(registry: map<string, Tool>, data: seq<(string, Json)>, j: Json)
    requires ToolName(data).JString? && ToolName(data).s in registry
    requires var name := ToolName(data).s;
      Invoke(name, registry[name], ArgsOf(data)) == Returned(PyJson(j))
    ensures Dispatch(registry, Success(JObject(data))) == JsonReply(200, ResultBody(j))
  {
  }

  /** A result `json.dumps` rejects with `TypeError` is still a success:
      its `str()` is returned with 200. */
  lemma UnserialisableIsStringified(registry: map<string, Tool>, data: seq<(string, Json)>, repr: string)
    requires ToolName(data).JString? && ToolName(data).s in registry
    requires var name := ToolName(data).s;
      Invoke(name, registry[name], ArgsOf(data)) == Returned(PyObject(repr, DumpsTypeError))
    ensures Dispatch(registry, Success(JObject(data))) == JsonReply(200, ResultBody(JString(repr)))
  {
  }

  /** Arguments are not checked against the tool: a missing required one
      surfaces as Python's `TypeError`, hence as a 500. */
  lemma MissingArgumentIsServerFailure(registry: map<string, Tool>, data: seq<(string, Json)>, j: int)
    requires ToolName(data).JString? && ToolName(data).s in registry
    requires ArgsOf(data).JObject?
    requires var tool := registry[ToolName(data).s];
      0 <= j < |tool.params| && tool.params[j].default.None?
      && Lookup(ArgsOf(data).members, tool.params[j].name).None?
    ensures Dispatch(registry, Success(JObject(data))).JsonReply?
    ensures Dispatch(registry, Success(JObject(data))).status == 500
    ensures Dispatch(registry, Success(JObject(data))).body.members[0].0 == "error"
  {
    var name := ToolName(data).s;
    DispatchRegistered(registry, data, name);
    MissingFails(name, registry[name].params, ArgsOf(data).members, j);
  }

  /** A required parameter without an argument makes binding fail. */
  lemma MissingFails(fn: string, params: seq<Param>, args: seq<(string, Json)>, j: int)
    requires 0 <= j < |params| && params[j].default.None? && Lookup(args, params[j].name).None?
    ensures Bind(fn, params, args).Failure?
  {
  }

  /** An argument the function has no parameter for is a 500 as well. */
  lemma UnexpectedArgumentIsServerFailure(registry: map<string, Tool>, data: seq<(string, Json)>, i: int)
    requires ToolName(data).JString? && ToolName(data).s in registry
    requires ArgsOf(data).JObject?
    requires 0 <= i < |ArgsOf(data).members|
    requires ArgsOf(data).members[i].0 !in ParamNames(registry[ToolName(data).s].params)
    ensures Dispatch(registry, Success(JObject(data))).JsonReply?
    ensures Dispatch(registry, Success(JObject(data))).status == 500
    ensures Dispatch(registry, Success(JObject(data))).body.members[0].0 == "error"
  {
    var name := ToolName(data).s;
    DispatchRegistered(registry, data, name);
    UnexpectedFails(name, registry[name].params, ArgsOf(data).members, i);
  }

  /** A keyword that names no parameter makes binding fail. */
  lemma UnexpectedFails(fn: string, params: seq<Param>, args: seq<(string, Json)>, i: int)
    requires 0 <= i < |args| && args[i].0 !in ParamNames(params)
    ensures Bind(fn, params, args).Failure?
  {
  }

  // ---------------------------------------------------------------------
  // The registry served: the tools of jira_mcp.py

  /** Raised when a string parameter receives another JSON value. */
  const NonStringArgument := "argument is not a string"

  function RunSearchIssues(cfg: Jira.Config, send: Http.Request -> Http.Transport, vs: seq<Json>): Invocation
  {
    if |vs| == 1 && vs[0].JString? then Jira.SearchIssues(cfg, send, vs[0].s)
    else Raised(NonStringArgument)
  }

  function RunCreateIssue(cfg: Jira.Config, send: Http.Request -> Http.Transport, vs: seq<Json>): Invocation
  {
    if |vs| == 4 && vs[0].JString? && vs[1].JString? && vs[2].JString? && vs[3].JString? then
      Jira.CreateIssue(cfg, send, vs[0].s, vs[1].s, vs[2].s, Some(vs[3].s))
    else Raised(NonStringArgument)
  }

  function RunGetIssue(cfg: Jira.Config, send: Http.Request -> Http.Transport, vs: seq<Json>): Invocation
  {
    if |vs| == 1 && vs[0].JString? then Jira.GetIssue(cfg, send, vs[0].s)
    else Raised(NonStringArgument)
  }

  const SearchIssuesParams := [Param("jql", None)]
  const CreateIssueParams := [Param("project_key", None), Param("summary", None), Param("description", None),
                              Param("issue_type", Some(JString(Jira.DefaultIssueType)))]
  const GetIssueParams := [Param("issue_key", None)]

  /** The module the Jira tools are defined in. */
  const JiraModule := "jira_mcp"

  /** The FastMCP server of jira_mcp.py: three tools under their
      function names, with `issue_type` defaulting to `"Task"`. */
  function JiraRegistry(cfg: Jira.Config, send: Http.Request -> Http.Transport): map<string, Tool>
  {
    map[
      "search_issues" := Tool(JiraModule, SearchIssuesParams, vs => RunSearchIssues(cfg, send, vs)),
      "create_issue" := Tool(JiraModule, CreateIssueParams, vs => RunCreateIssue(cfg, send, vs)),
      "get_issue" := Tool(JiraModule, GetIssueParams, vs => RunGetIssue(cfg, send, vs))]
  }

  /** The registry serves exactly the three Jira tools, each defined in
      jira_mcp.py, with the parameters of its function. */
  lemma JiraRegistryTools(cfg: Jira.Config, send: Http.Request -> Http.Transport)
    ensures var r := JiraRegistry(cfg, send);
      && r.Keys == {"search_issues", "create_issue", "get_issue"}
      && (forall name :: name in r ==> r[name].moduleName == JiraModule)
      && r["search_issues"].params == [Param("jql", None)]
      && r["get_issue"].params == [Param("issue_key", None)]
      && ParamNames(r["create_issue"].params) == ["project_key", "summary", "description", "issue_type"]
      && (forall j :: 0 <= j < 3 ==> r["create_issue"].params[j].default.None?)
      && r["create_issue"].params[3].default == Some(JString("Task"))
  {
    var r := JiraRegistry(cfg, send);
    assert ParamNames(r["create_issue"].params) == ["project_key", "summary", "description", "issue_type"];
  }

  /** The registered `search_issues` runs the adapter's search on its JQL. */
  lemma SearchIssuesRuns(cfg: Jira.Config, send: Http.Request -> Http.Transport, jql: string)
    ensures JiraRegistry(cfg, send)["search_issues"].run([JString(jql)]) == Jira.SearchIssues(cfg, send, jql)
  {
    var vs := [JString(jql)];
    assert JiraRegistry(cfg, send)["search_issues"].run(vs) == RunSearchIssues(cfg, send, vs);
  }

  /** The registered `create_issue` runs the adapter's create with the
      issue type it was given (a bound default arrives as `"Task"`). */
  lemma CreateIssueRuns(cfg: Jira.Config, send: Http.Request -> Http.Transport,
                        project: string, summary: string, description: string, issueType: string)
    ensures JiraRegistry(cfg, send)["create_issue"].run([JString(project), JString(summary), JString(description), JString(issueType)])
         == Jira.CreateIssue(cfg, send, project, summary, description, Some(issueType))
  {
    var vs := [JString(project), JString(summary), JString(description), JString(issueType)];
    assert JiraRegistry(cfg, send)["create_issue"].run(vs) == RunCreateIssue(cfg, send, vs);
  }

  /** The registered `get_issue` runs the adapter's lookup of the key. */
  lemma GetIssueRuns(cfg: Jira.Config, send: Http.Request -> Http.Transport, key: string)
    ensures JiraRegistry(cfg, send)["get_issue"].run([JString(key)]) == Jira.GetIssue(cfg, send, key)
  {
    var vs := [JString(key)];
    assert JiraRegistry(cfg, send)["get_issue"].run(vs) == RunGetIssue(cfg, send, vs);
  }

  /** The body `{"tool": name, "args": args}`. */
  function CallBody(name: string, args: seq<(string, Json)>): (j: Json)
    ensures j.JObject? && ToolName(j.members) == JString(name)
    ensures ArgsOf(j.members) == if args == [] then JObject([]) else JObject(args)
  {
    var data := [("tool", JString(name)), ("args", JObject(args))];
    LookupAt(data, 0);
    LookupAt(data, 1);
    JObject(data)
  }

  lemma BindIssueKey(key: string)
    ensures Bind("get_issue", GetIssueParams, [("issue_key", JString(key))]) == Success([JString(key)])
  {
    var args := [("issue_key", JString(key))];
    LookupAt(args, 0);
    assert ParamNames(GetIssueParams) == ["issue_key"];
    var b := Bind("get_issue", GetIssueParams, args);
    assert b.Success?;
    assert b.value == [JString(key)];
  }

  /** `{"tool": "get_issue", "args": {"issue_key": k}}` runs `get_issue(k)`;
      a rejected lookup comes back as a 200 result holding the adapter's
      error string, not as an error response, while a credential the
      helper cannot encode gives a 500 carrying its error. */
  lemma GetIssueThroughEndpoint(cfg: Jira.Config, send: Http.Request -> Http.Transport, key: string)
    ensures Dispatch(JiraRegistry(cfg, send), Success(CallBody("get_issue", [("issue_key", JString(key))])))
         == Answer(Jira.GetIssue(cfg, send, key))
    ensures var q := Jira.GetIssueRequest(cfg, key);
      q.Success? && send(q.value).Delivered? && send(q.value).response.status != 200 ==>
        Dispatch(JiraRegistry(cfg, send), Success(CallBody("get_issue", [("issue_key", JString(key))])))
          == JsonReply(200, ResultBody(JString(Http.ErrorMessage(send(q.value).response.status, send(q.value).response.text))))
    ensures cfg.basicAuth.Failure? ==>
      Dispatch(JiraRegistry(cfg, send), Success(CallBody("get_issue", [("issue_key", JString(key))])))
        == JsonReply(500, ErrorBody(cfg.basicAuth.error))
  {
    var body := CallBody("get_issue", [("issue_key", JString(key))]);
    DispatchRegistered(JiraRegistry(cfg, send), body.members, "get_issue");
    BindIssueKey(key);
  }

  lemma MissingProjectOnly(project: string)
    ensures Missing(CreateIssueParams, [("project_key", JString(project))]) == ["summary", "description"]
  {
    var args := [("project_key", JString(project))];
    var params := CreateIssueParams;
    assert Lookup(args, "summary").None?;
    assert Lookup(args, "description").None?;
    assert Lookup(args, "project_key").Some? by { LookupAt(args, 0); }
    assert Missing(params[4..], args) == [];
    assert Missing(params[3..], args) == [];
    assert Missing(params[2..], args) == ["description"];
    assert Missing(params[1..], args) == ["summary", "description"];
  }

  lemma BindProjectOnly(project: string)
    ensures Bind("create_issue", CreateIssueParams, [("project_key", JString(project))])
         == Failure(MissingMessage("create_issue", ["summary", "description"]))
  {
    var args := [("project_key", JString(project))];
    assert ParamNames(CreateIssueParams)[0] == "project_key";
    assert FirstUnexpected(ParamNames(CreateIssueParams), args).None?;
    MissingProjectOnly(project);
  }


  /** `create_issue` called with only a project key fails before any
      request is made, naming the two missing arguments. */
  lemma CreateIssueMissingArguments(cfg: Jira.Config, send: Http.Request -> Http.Transport, project: string)
    ensures Dispatch(JiraRegistry(cfg, send), Success(CallBody("create_issue", [("project_key", JString(project))])))
         == JsonReply(500, ErrorBody(MissingMessage("create_issue", ["summary", "description"])))
  {
    var body := CallBody("create_issue", [("project_key", JString(project))]);
    DispatchRegistered(JiraRegistry(cfg, send), body.members, "create_issue");
    BindProjectOnly(project);
  }
}
