/** The shape every adapter tool shares: build one request, hand it to
    the HTTP client, and turn the response into the tool's result, which
    is the decoded body when the status is the operation's success code
    and the string `Error: <status> - <text>` otherwise. */
module Http {

  import opened Values
  import Decimal

  datatype Method = Get | Post

  /** What an adapter passes to `requests.get` / `requests.post`: the
      URL, the headers, the query parameters and the `json=` payload. */
  datatype Request = Request(
    verb: Method,
    url: string,
    headers: seq<(string, string)>,
    params: seq<(string, string)>,
    payload: Option<Json>)

  /** A response: `status_code`, `text`, and what `json()` gives, which
      is the decoded body or the message of the exception it raises. */
  datatype Response = Response(status: int, text: string, json: Result<Json, string>)

  /** The HTTP client either delivers a response or raises. */
  datatype Transport = Delivered(response: Response) | TransportFailed(msg: string)

  function Header(r: Request, name: string): Option<string>
  {
    Lookup(r.headers, name)
  }

  const ErrorPrefix := "Error: "
  const ErrorSeparator := " - "

  /** The f-string `f"Error: {response.status_code} - {response.text}"`. */
  function ErrorMessage(status: int, text: string): string
  {
    ErrorPrefix + Decimal.IntToString(status) + ErrorSeparator + text
  }

  /** Reads an error string back into its status and text; the inverse
      of ErrorMessage. */
  function ParseErrorMessage(m: string): Option<(int, string)>
  {
    if |m| < |ErrorPrefix| || m[..|ErrorPrefix|] != ErrorPrefix then None
    else
      var rest := m[|ErrorPrefix|..];
      var k := IndexOf(rest, ' ');
      if k + |ErrorSeparator| > |rest| || rest[k..k + |ErrorSeparator|] != ErrorSeparator then None
      else match Decimal.ParseInt(rest[..k])
        case None => None
        case Some(status) => Some((status, rest[k + |ErrorSeparator|..]))
  }

  /** The error string carries both the status code and the whole
      response text, and nothing can be confused between them. */
  lemma {:induction false} ErrorMessageRoundTrip(status: int, text: string)
    ensures ParseErrorMessage(ErrorMessage(status, text)) == Some((status, text))
  {
    var digits := Decimal.IntToString(status);
    var m := ErrorMessage(status, text);
    var rest := digits + ErrorSeparator + text;
    assert m[..|ErrorPrefix|] == ErrorPrefix;
    assert m[|ErrorPrefix|..] == rest;
    assert rest[|digits|] == ' ';
    assert forall i :: 0 <= i < |digits| ==> rest[i] == digits[i] != ' ';
    assert IndexOf(rest, ' ') == |digits|;
    assert rest[..|digits|] == digits;
    assert rest[|digits|..|digits| + |ErrorSeparator|] == ErrorSeparator;
    assert rest[|digits| + |ErrorSeparator|..] == text;
    Decimal.IntToStringRoundTrip(status);
  }

  /** Whatever ParseErrorMessage accepts is exactly the error string of
      the status and text it reads, so IsErrorResult pins the string. */
  lemma ParseErrorMessageInverse(m: string)
    requires ParseErrorMessage(m).Some?
    ensures m == ErrorMessage(ParseErrorMessage(m).value.0, ParseErrorMessage(m).value.1)
  {
    var rest := m[|ErrorPrefix|..];
    var k := IndexOf(rest, ' ');
    var digits := rest[..k];
    Decimal.ParseIntRoundTrip(digits);
    assert rest == digits + ErrorSeparator + rest[k + |ErrorSeparator|..];
    assert m == m[..|ErrorPrefix|] + rest;
  }

  /** An error result starts with `Error: `, so it is never mistaken for
      a shorter or differently prefixed string. */
  lemma ErrorMessageStartsWithPrefix(status: int, text: string)
    ensures |ErrorMessage(status, text)| > |ErrorPrefix|
    ensures ErrorMessage(status, text)[..|ErrorPrefix|] == ErrorPrefix
  {
  }

  /** The result of a tool is the Python string `Error: <status> - <text>`. */
  predicate IsErrorResult(r: Invocation, status: int, text: string)
  {
    r.Returned? && r.value.PyJson? && r.value.json.JString?
    && ParseErrorMessage(r.value.json.s) == Some((status, text))
  }

  /** The status branch of every tool: on the success code the decoded
      body is returned unchanged (or the decoding error propagates);
      on any other code the error string is returned, not raised. */
  function Classify(resp: Response, success: int): (r: Invocation)
    ensures resp.status == success && resp.json.Success? ==> r == Returned(PyJson(resp.json.value))
    ensures resp.status == success && resp.json.Failure? ==> r == Raised(resp.json.error)
    ensures resp.status != success ==> IsErrorResult(r, resp.status, resp.text)
  {
    if resp.status == success then
      match resp.json
      case Success(body) => Returned(PyJson(body))
      case Failure(msg) => Raised(msg)
    else
      ErrorMessageRoundTrip(resp.status, resp.text);
      StringResult(ErrorMessage(resp.status, resp.text))
  }

  /** The contract of one adapter tool: the request is built (or its
      construction raises before anything is sent), sent once, and the
      response is classified against the operation's success code. */
  predicate Normalised(req: Result<Request, string>, send: Request -> Transport, success: int, r: Invocation)
  {
    match req
    case Failure(msg) => r == Raised(msg)
    case Success(q) =>
      match send(q)
      case TransportFailed(msg) => r == Raised(msg)
      case Delivered(resp) =>
        if resp.status == success then
          && (resp.json.Success? ==> r == Returned(PyJson(resp.json.value)))
          && (resp.json.Failure? ==> r == Raised(resp.json.error))
        else IsErrorResult(r, resp.status, resp.text)
  }

  /** One tool call: build, send, classify. */
  function Perform(req: Result<Request, string>, send: Request -> Transport, success: int): (r: Invocation)
    ensures Normalised(req, send, success, r)
  {
    match req
    case Failure(msg) => Raised(msg)
    case Success(q) =>
      match send(q)
      case TransportFailed(msg) => Raised(msg)
      case Delivered(resp) => Classify(resp, success)
  }

  /** A tool never raises because of the status code: whenever the
      request is built and delivered, a non-success status gives a
      returned string. */
  lemma NonSuccessIsReturned(req: Result<Request, string>, send: Request -> Transport, success: int)
    requires req.Success? && send(req.value).Delivered?
    requires send(req.value).response.status != success
    ensures Perform(req, send, success).Returned?
    ensures var resp := send(req.value).response;
      Perform(req, send, success) == StringResult(ErrorMessage(resp.status, resp.text))
  {
  }
}
