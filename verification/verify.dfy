/** The connector self-check (verify_connectors.py): each `verify_*`
    function imports one tool, calls it once against the live service
    and reports `(ok, message)`; `short` bounds the message and `main`
    labels each outcome SKIPPED, OK or ERROR. */
module VerifyConnectors {

  import opened Values
  import Http
  import Jira
  import Confluence
  import Cal
  import Resend

  /** The default bound of `short`. */
  const DefaultLimit := 500

  const Ellipsis := "..."

  const ImportError := "Import error: "

  /** `(s[:n] + '...') if len(s) > n else s`, for a bound `n >= 0`. */
  function Truncate(s: string, n: nat): (t: string)
    ensures |s| <= n ==> t == s
    ensures |s| > n ==> |t| == n + 3 && t[..n] == s[..n] && t[n..] == Ellipsis
  {
    if |s| > n then s[..n] + Ellipsis else s
  }

  /** The result never exceeds the bound by more than the ellipsis, and
      whatever it keeps of the input is a prefix of the input. */
  lemma TruncateBound(s: string, n: nat)
    ensures |Truncate(s, n)| <= n + 3
    ensures |Truncate(s, n)| <= |s| + 3
    ensures var t := Truncate(s, n); var k := if |t| <= n then |t| else n;
      k <= |s| && t[..k] == s[..k]
  {
  }

  /** Shortening twice changes nothing more. */
  lemma TruncateIdempotent(s: string, n: nat)
    ensures Truncate(Truncate(s, n), n) == Truncate(s, n)
  {
    var t := Truncate(s, n);
    if |s| > n {
      assert t[..n] + Ellipsis == t;
    }
  }

  /** A text comes back unchanged exactly when it fits, or when it is
      already `n` characters followed by the ellipsis. */
  lemma TruncateFixedPoints(s: string, n: nat)
    ensures Truncate(s, n) == s <==> |s| <= n || (|s| == n + 3 && s[n..] == Ellipsis)
  {
    if |s| == n + 3 && s[n..] == Ellipsis {
      assert s[..n] + Ellipsis == s;
    }
  }

  /** The text `short` starts from: a string as it is, any other JSON
      value as `json.dumps(x, indent=2)`, and `str(x)` for an object the
      rendering rejects (either exception is caught). `dumps` stands for
      the rendering, which accepts every JSON value. */
  function Render(x: PyValue, dumps: Json -> string): (s: string)
    ensures x.PyJson? && x.json.JString? ==> s == x.json.s
    ensures x.PyJson? && !x.json.JString? ==> s == dumps(x.json)
    ensures x.PyObject? ==> s == x.repr
  {
    match x
    case PyJson(JString(s)) => s
    case PyJson(j) => dumps(j)
    case PyObject(repr, _) => repr
  }

  /** `short(x, n)`: the rendering of `x`, truncated to `n` characters
      plus the ellipsis when it is longer. */
  function Short(x: PyValue, n: nat, dumps: Json -> string): (t: string)
    ensures |t| <= n + 3
    ensures t == Truncate(Render(x, dumps), n)
    ensures |Render(x, dumps)| <= n ==> t == Render(x, dumps)
    ensures |Render(x, dumps)| > n ==> t == Render(x, dumps)[..n] + Ellipsis
  {
    var s := Render(x, dumps);
    TruncateBound(s, n);
    Truncate(s, n)
  }

  /** A message `short` produced comes back unchanged when shortened
      again with the same bound. */
  lemma ShortIdempotent(x: PyValue, n: nat, dumps: Json -> string)
    ensures var t := Short(x, n, dumps); Short(PyJson(JString(t)), n, dumps) == t
  {
    TruncateIdempotent(Render(x, dumps), n);
  }

  /** What a `verify_*` function returns: `ok` is None for a skipped
      check, true when the call returned and false when anything failed. */
  datatype Verdict = Verdict(ok: Option<bool>, msg: string)

  /** How far a check got: the import failed, the tool's callable could
      not be found, or the call was made with this outcome. */
  datatype Probe = ImportFailed(error: string) | Unresolved | Ran(outcome: Invocation)

  /** The shared body of `verify_jira`, `verify_confluence`, `verify_cal`
      and (as written) `verify_resend`. */
  function VerifyTool(tool: string, probe: Probe, dumps: Json -> string): (v: Verdict)
    ensures v.ok.Some?
    ensures v.ok == Some(true) <==> probe.Ran? && probe.outcome.Returned?
    ensures v.ok == Some(true) ==> |v.msg| <= DefaultLimit + 3
    ensures probe.Ran? && probe.outcome.Raised? ==> v.msg == probe.outcome.msg
    ensures probe.Ran? && probe.outcome.Returned? ==> v.msg == Short(probe.outcome.value, DefaultLimit, dumps)
    ensures probe.ImportFailed? ==> v.msg == ImportError + probe.error
  {
    match probe
    case ImportFailed(e) => Verdict(Some(false), ImportError + e)
    case Unresolved => Verdict(Some(false), "Cannot resolve callable for " + tool)
    case Ran(Raised(m)) => Verdict(Some(false), m)
    case Ran(Returned(x)) => Verdict(Some(true), Short(x, DefaultLimit, dumps))
  }

  /** `verify_jira`: `search_issues("project = TEST")`. */
  function VerifyJira(imported: Result<Jira.Config, string>, send: Http.Request -> Http.Transport, dumps: Json -> string): (v: Verdict)
    ensures imported.Failure? ==> v == Verdict(Some(false), ImportError + imported.error)
    ensures imported.Success? ==>
      var res := Jira.SearchIssues(imported.value, send, "project = TEST");
      && (v.ok == Some(true) <==> res.Returned?)
      && (res.Returned? ==> v.msg == Short(res.value, DefaultLimit, dumps))
      && (res.Raised? ==> v == Verdict(Some(false), res.msg))
    ensures imported.Success? && imported.value.basicAuth.Failure? ==>
      v == Verdict(Some(false), imported.value.basicAuth.error)
  {
    match imported
    case Failure(e) => VerifyTool("search_issues", ImportFailed(e), dumps)
    case Success(cfg) => VerifyTool("search_issues", Ran(Jira.SearchIssues(cfg, send, "project = TEST")), dumps)
  }

  /** `verify_confluence`: `search_pages("test")`. */
  function VerifyConfluence(imported: Result<Confluence.Config, string>, send: Http.Request -> Http.Transport, dumps: Json -> string): (v: Verdict)
    ensures imported.Failure? ==> v == Verdict(Some(false), ImportError + imported.error)
    ensures imported.Success? ==>
      var res := Confluence.SearchPages(imported.value, send, "test", None);
      && (v.ok == Some(true) <==> res.Returned?)
      && (res.Returned? ==> v.msg == Short(res.value, DefaultLimit, dumps))
      && (res.Raised? ==> v == Verdict(Some(false), res.msg))
    ensures imported.Success? && (imported.value.username == "" || imported.value.apiToken == "") ==>
      v == Verdict(Some(false), Confluence.AuthRequired)
  {
    match imported
    case Failure(e) => VerifyTool("search_pages", ImportFailed(e), dumps)
    case Success(cfg) => VerifyTool("search_pages", Ran(Confluence.SearchPages(cfg, send, "test", None)), dumps)
  }

  /** `verify_cal`: `get_event_types()`. */
  function VerifyCal(imported: Result<Cal.Config, string>, send: Http.Request -> Http.Transport, dumps: Json -> string): (v: Verdict)
    ensures imported.Failure? ==> v == Verdict(Some(false), ImportError + imported.error)
    ensures imported.Success? ==>
      var res := Cal.GetEventTypes(imported.value, send);
      && (v.ok == Some(true) <==> res.Returned?)
      && (res.Returned? ==> v.msg == Short(res.value, DefaultLimit, dumps))
      && (res.Raised? ==> v == Verdict(Some(false), res.msg))
  {
    match imported
    case Failure(e) => VerifyTool("get_event_types", ImportFailed(e), dumps)
    case Success(cfg) => VerifyTool("get_event_types", Ran(Cal.GetEventTypes(cfg, send)), dumps)
  }

  /** `verify_resend(send_email=False)` as written: the import rebinds
      `send_email` to the tool object, which is truthy, so the skip branch
      is never taken and the test email is sent. */
  function VerifyResend(imported: Result<Resend.Config, string>, send: Http.Request -> Http.Transport, recipient: string, dumps: Json -> string): (v: Verdict)
    ensures imported.Failure? ==> v == Verdict(Some(false), ImportError + imported.error)
    ensures imported.Success? ==>
      var res := Resend.SendEmail(imported.value, send, recipient, "Test from verify_connectors", "<p>Test</p>", None);
      && (v.ok == Some(true) <==> res.Returned?)
      && (res.Returned? ==> v.msg == Short(res.value, DefaultLimit, dumps))
      && (res.Raised? ==> v == Verdict(Some(false), res.msg))
  {
    match imported
    case Failure(e) => VerifyTool("send_email", ImportFailed(e), dumps)
    case Success(cfg) =>
      VerifyTool("send_email", Ran(Resend.SendEmail(cfg, send, recipient, "Test from verify_connectors", "<p>Test</p>", None)), dumps)
  }

  /** A check that reaches its service is OK whenever the adapter returns,
      including when it returns the adapter's error string: the label
      reports that the call completed, not that the service accepted it. */
  lemma RejectedSearchIsOk(cfg: Jira.Config, send: Http.Request -> Http.Transport, dumps: Json -> string)
    requires var q := Jira.SearchIssuesRequest(cfg, "project = TEST");
      q.Success? && send(q.value).Delivered? && send(q.value).response.status != 200
    ensures VerifyJira(Success(cfg), send, dumps).ok == Some(true)
  {
    Http.NonSuccessIsReturned(Jira.SearchIssuesRequest(cfg, "project = TEST"), send, 200);
  }

  /** The Resend check never reports SKIPPED. */
  lemma ResendNeverSkipped(imported: Result<Resend.Config, string>, send: Http.Request -> Http.Transport, recipient: string, dumps: Json -> string)
    ensures VerifyResend(imported, send, recipient, dumps).ok.Some?
    ensures Label(VerifyResend(imported, send, recipient, dumps).ok) != "SKIPPED"
  {
  }

  /** `'SKIPPED' if ok is None else ('OK' if ok else 'ERROR')`. */
  function Label(ok: Option<bool>): (state: string)
    ensures state == "SKIPPED" <==> ok.None?
    ensures state == "OK" <==> ok == Some(true)
    ensures state == "ERROR" <==> ok == Some(false)
  {
    if ok.None? then "SKIPPED" else if ok.value then "OK" else "ERROR"
  }

  /** `d[k] = v` on a dict kept as its items in insertion order: a new
      key goes last, an existing key keeps its place. */
  function Put<V>(d: seq<(string, V)>, k: string, v: V): (d': seq<(string, V)>)
    ensures Lookup(d, k).None? ==> d' == d + [(k, v)]
    ensures |d'| == |d| + (if Lookup(d, k).None? then 1 else 0)
  {
    if Lookup(d, k).None? then d + [(k, v)] else Replace(d, k, v)
  }

  /** The in-place half of `Put`: the pair holding `k` gets the value `v`. */
  function Replace<V>(d: seq<(string, V)>, k: string, v: V): (d': seq<(string, V)>)
    requires Lookup(d, k).Some?
    ensures |d'| == |d|
    decreases |d|
  {
    var init := d[..|d| - 1];
    var last := d[|d| - 1];
    if last.0 == k then init + [(k, v)] else Replace(init, k, v) + [last]
  }

  lemma {:induction false} ReplaceKeys<V>(d: seq<(string, V)>, k: string, v: V)
    requires Lookup(d, k).Some?
    ensures Keys(Replace(d, k, v)) == Keys(d)
    decreases |d|
  {
    var init := d[..|d| - 1];
    var last := d[|d| - 1];
    assert d == init + [last];
    assert Keys(d) == Keys(init) + [last.0];
    if last.0 == k {
      assert Keys(Replace(d, k, v)) == Keys(init) + [k];
    } else {
      ReplaceKeys(init, k, v);
      assert Keys(Replace(d, k, v)) == Keys(Replace(init, k, v)) + [last.0];
    }
  }

  lemma {:induction false} ReplaceLookup<V>(d: seq<(string, V)>, k: string, v: V, key: string)
    requires Lookup(d, k).Some?
    ensures Lookup(Replace(d, k, v), key) == if key == k then Some(v) else Lookup(d, key)
    decreases |d|
  {
    var init := d[..|d| - 1];
    var last := d[|d| - 1];
    assert d == init + [last];
    LookupAppend(init, last.0, last.1, key);
    if last.0 == k {
      LookupAppend(init, k, v, key);
    } else {
      LookupAppend(init, last.0, last.1, k);
      ReplaceLookup(init, k, v, key);
      LookupAppend(Replace(init, k, v), last.0, last.1, key);
    }
  }

  /** After `d[k] = v`, `d[k]` is `v`, every other key reads as before,
      and the keys keep their order, a new one going last. */
  lemma PutSemantics<V>(d: seq<(string, V)>, k: string, v: V, key: string)
    ensures Lookup(Put(d, k, v), key) == if key == k then Some(v) else Lookup(d, key)
    ensures Keys(Put(d, k, v)) == Keys(d) + (if Lookup(d, k).None? then [k] else [])
  {
    if Lookup(d, k).None? {
      LookupAppend(d, k, v, key);
      assert Keys(d + [(k, v)]) == Keys(d) + [k];
    } else {
      ReplaceLookup(d, k, v, key);
      ReplaceKeys(d, k, v);
    }
  }

  /** Four assignments of distinct keys into an empty dict keep them in
      assignment order. */
  lemma PutFour<V>(k1: string, v1: V, k2: string, v2: V, k3: string, v3: V, k4: string, v4: V)
    requires k1 != k2 && k1 != k3 && k1 != k4 && k2 != k3 && k2 != k4 && k3 != k4
    ensures Put(Put(Put(Put([], k1, v1), k2, v2), k3, v3), k4, v4) == [(k1, v1), (k2, v2), (k3, v3), (k4, v4)]
  {
    var d1 := Put([], k1, v1);
    assert d1 == [(k1, v1)];
    assert Lookup(d1, k2).None?;
    var d2 := Put(d1, k2, v2);
    assert d2 == [(k1, v1), (k2, v2)];
    assert Lookup(d2, k3).None?;
    var d3 := Put(d2, k3, v3);
    assert d3 == [(k1, v1), (k2, v2), (k3, v3)];
    assert Lookup(d3, k4).None?;
  }

  lemma CheckKeys<V>(jira: V, confluence: V, cal: V, resend: V)
    ensures var d := [("jira", jira), ("confluence", confluence), ("cal", cal), ("resend", resend)];
      && Keys(d) == ["jira", "confluence", "cal", "resend"]
      && Lookup(d, "jira") == Some(jira) && Lookup(d, "confluence") == Some(confluence)
      && Lookup(d, "cal") == Some(cal) && Lookup(d, "resend") == Some(resend)
  {
    var d := [("jira", jira), ("confluence", confluence), ("cal", cal), ("resend", resend)];
    LookupAt(d, 0);
    LookupAt(d, 1);
    LookupAt(d, 2);
    LookupAt(d, 3);
  }

  /** The loop of `main` without its printing: the label of each entry,
      in the dict's order. */
  method Labels(results: seq<(string, Verdict)>) returns (states: seq<string>)
    ensures |states| == |results|
    ensures forall i :: 0 <= i < |results| ==> states[i] == Label(results[i].1.ok)
  {
    states := [];
    var i := 0;
    while i < |results|
      invariant 0 <= i <= |results|
      invariant |states| == i
      invariant forall k :: 0 <= k < i ==> states[k] == Label(results[k].1.ok)
    {
      states := states + [Label(results[i].1.ok)];
      i := i + 1;
    }
  }

  /** The body of `main` up to its output: the four verdicts are stored
      under their service names, then each gets its label, in the order
      the dict yields them. */
  method RunChecks(jira: Verdict, confluence: Verdict, cal: Verdict, resend: Verdict)
    returns (results: seq<(string, Verdict)>, states: seq<string>)
    ensures Keys(results) == ["jira", "confluence", "cal", "resend"]
    ensures Lookup(results, "jira") == Some(jira) && Lookup(results, "confluence") == Some(confluence)
    ensures Lookup(results, "cal") == Some(cal) && Lookup(results, "resend") == Some(resend)
    ensures |states| == |results|
    ensures forall i :: 0 <= i < |results| ==> states[i] == Label(results[i].1.ok)
  {
    results := [];
    results := Put(results, "jira", jira);
    results := Put(results, "confluence", confluence);
    results := Put(results, "cal", cal);
    results := Put(results, "resend", resend);
    PutFour("jira", jira, "confluence", confluence, "cal", cal, "resend", resend);
    CheckKeys(jira, confluence, cal, resend);
    states := Labels(results);
  }
}
