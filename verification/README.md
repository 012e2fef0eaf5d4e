# MCP connectors: a verified model

This project models a small set of Model Context Protocol servers. Each one
wraps a SaaS REST API as a handful of tools:

- Jira: `search_issues`, `create_issue`, `get_issue`;
- Confluence: `search_pages`, `create_page`, `get_page`;
- Cal.com: `get_event_types`, `create_booking`, `get_availability`;
- Resend: `send_email`.

It also models the JSON-over-HTTP endpoint that serves the Jira tools
(`handle_mcp`), and the connector self-check (`short`, the `verify_*`
functions and the labelling in `main`).

Every tool does the same three things:

1. It builds one HTTP request (URL, headers, query parameters, JSON body).
2. It sends the request.
3. It turns the response into a result. On the operation's own success code
   (200, or 201 for `create_issue` and `create_booking`) the decoded body is
   returned unchanged. On any other code the result is the string
   `Error: <status> - <text>`.

The network is a function parameter `send: Request -> Transport`. A response
carries its status, its text and the outcome of decoding its body as JSON.

Modules:

- `Values`: JSON values, Python dict lookup (last key wins), Python truthiness,
  and the outcome of a call, which either returns or raises.
- `Decimal`: `str(int)` and its inverse.
- `Http`: requests and responses, the error string and its parser, and the
  status branch shared by every tool (`Classify`, `Perform`, `Normalised`).
- `Base64`: RFC 4648 section 4 encoding with strict decoding. Both round trips
  are proved.
- `Utf8`: `str.encode()` with a strict decoder. Both round trips are proved.
- `Confluence`, `Jira`, `Cal`, `Resend`: the request builders and the tools.
- `McpJson`: `handle_mcp`. It covers the tool lookup, Python's
  keyword-argument binding, the serialise-or-stringify rule and the status
  codes. It also holds the Jira registry the endpoint serves.
- `VerifyConnectors`: `short`, the `verify_*` verdicts, the SKIPPED/OK/ERROR
  label, and `main`'s dict of results.

`handle_mcp` does not check arguments itself and has no 400 path. It calls
`tool.fn(**args)`, and Python's call binding decides:

- A missing required argument raises `TypeError`, which becomes a 500. The
  message names every missing argument, in parameter order.
- An unexpected keyword argument also raises `TypeError`, so it gives a 500
  too. It is not passed through to the tool.

## Model

| member | source | states |
|---|---|---|
| Values.Lookup | run_jira_json.py:21-22 | reading a key of a decoded JSON object (or of a dict) finds nothing exactly when no pair carries the key, and otherwise yields a value bound to that key |
| Values.LookupAt | run_jira_json.py:21-22 | a key bound by a pair and by no later pair reads back that pair's value |
| Values.LookupAppend | run_jira_json.py:21-22 | a pair appended last decides its own key and leaves every other key as it was |
| Values.AtObject | jira_mcp.py:36-43 | following a path through a dict literal descends into the member with the first key |
| Decimal.IntToString | jira_mcp.py:25 | `str(status)` is a non-empty text of digits with an optional minus sign |
| Decimal.IntToStringRoundTrip | jira_mcp.py:25 | the decimal text of an integer parses back to the same integer |
| Decimal.ParseIntRoundTrip | jira_mcp.py:25 | every text the parser accepts is exactly the decimal text of the number it yields |
| Decimal.IntToStringInjective | cal_mcp.py:49 | distinct integers have distinct decimal texts |
| Values.IndexOf | jira_mcp.py:25 | the first occurrence of a character in a text is located, with no occurrence before it; it is where the separator after the status code and the colon of decoded credentials are found |
| Http.ErrorMessageRoundTrip | jira_mcp.py:25 | `Error: <status> - <text>` parses back to the same status and text, so it carries both unchanged |
| Http.ParseErrorMessageInverse | jira_mcp.py:25 | every text the error parser accepts is the error string of what it yields |
| Http.ErrorMessageStartsWithPrefix | jira_mcp.py:25 | every error string starts with `Error: ` |
| Http.Classify | jira_mcp.py:22-25 | on the success code the decoded body is returned unchanged, or the decoding error is raised; on any other code the error string for that status and text is returned, not raised |
| Http.Perform | jira_mcp.py:21-25 | a tool call raises if building the request or sending it fails, and otherwise classifies the one response against the operation's success code |
| Http.NonSuccessIsReturned | confluence_mcp.py:31-34 | a delivered response with any code other than the success code yields exactly the error string |
| Base64.CharOf | confluence_mcp.py:16 | each sextet maps to a character of the RFC 4648 alphabet |
| Base64.ValueOf | confluence_mcp.py:16 | each alphabet character maps back to the sextet that encodes to it |
| Base64.ValueOfCharOf | confluence_mcp.py:16 | sextet to character to sextet is the identity |
| Base64.Encode | confluence_mcp.py:16 | `b64encode` of n octets has 4 * ceil(n / 3) characters |
| Base64.EncodeAlphabet | confluence_mcp.py:16 | encoded text uses only the alphabet, with `=` only in the last two places |
| Base64.DecodeEncode | confluence_mcp.py:16 | decoding the encoding of any octets gives those octets back |
| Base64.EncodeDecode | confluence_mcp.py:16 | every text the strict decoder accepts is the encoding of what it decodes to |
| Utf8.EncodeChar | confluence_mcp.py:16 | `str.encode()` writes one to four octets per character, one exactly for ASCII |
| Utf8.Encode | confluence_mcp.py:16 | the encoding has at least one octet per character |
| Utf8.DecodeChar | confluence_mcp.py:16 | decoding one character consumes between one and four octets, and what it accepts is exactly the encoding of the character it yields (so no overlong or surrogate form) |
| Utf8.DecodeEncodeChar | confluence_mcp.py:16 | decoding the octets of one character gives that character and its length |
| Utf8.DecodeEncode | confluence_mcp.py:15-16 | the octets of any text decode back to the text |
| Utf8.EncodeDecode | confluence_mcp.py:15-16 | octets that decode are the encoding of what they decode to, so each text has one accepted form |
| Utf8.EncodeAsciiLength | confluence_mcp.py:15-16 | an ASCII text encodes to as many octets as it has characters |
| Confluence.BasicAuthHeader | confluence_mcp.py:11-17 | fails with `Username and token are required for authentication` exactly when the username or the token is None or empty; otherwise returns a value longer than 6 that starts with `Basic ` |
| Confluence.BasicAuthHeaderDecodes | confluence_mcp.py:15-17 | the part after `Basic ` has 4 * ceil(n / 3) characters, uses only the Base64 alphabet and `=`, and decodes to the UTF-8 octets of `username:token`, which decode back to that text |
| Confluence.SplitCredentialsRecovers | confluence_mcp.py:15 | splitting `username:token` at its first colon, as RFC 7617 section 2 prescribes, recovers both parts when the username holds no colon |
| Confluence.Cql | confluence_mcp.py:29 | the query is `text ~ '<query>'` with the query inserted verbatim, followed by ` and space = <key>` exactly when a non-empty space key is given |
| Confluence.CqlNotEscaped | confluence_mcp.py:29 | because the query is not escaped, a query holding a quote yields the same CQL as a different query with a space key |
| Confluence.HeadersLookup | confluence_mcp.py:25-28 | the headers carry `Accept: application/json`, the Basic authorization value and any extra header unchanged, and no content type when there is no extra header |
| Confluence.SearchPagesRequest | confluence_mcp.py:22-30 | raises the authentication error before sending exactly when a credential is empty; otherwise a GET to base + `/rest/api/content/search` with the single parameter `cql`, the JSON Accept header, no content type and Basic authorization |
| Confluence.PagePayloadFields | confluence_mcp.py:45-55 | the page body has type `page`, the title, `space.key`, `body.storage.value` as the content verbatim, and representation `storage` |
| Confluence.CreatePageRequest | confluence_mcp.py:37-56 | raises the authentication error before sending exactly when a credential is empty; otherwise a POST of the page body to base + `/rest/api/content` with the JSON Accept and Content-Type headers and Basic authorization |
| Confluence.GetPageRequest | confluence_mcp.py:63-70 | raises the authentication error before sending exactly when a credential is empty; otherwise a GET of base + `/rest/api/content/` + page id + `?expand=body.storage` with the JSON Accept header, no content type and Basic authorization |
| Confluence.GetPageUrlDeterminesId | confluence_mcp.py:65 | different page ids give different URLs |
| Confluence.SearchPages | confluence_mcp.py:22-34 | the search succeeds only on 200, returning the body unchanged, and otherwise returns the error string |
| Confluence.CreatePage | confluence_mcp.py:37-60 | page creation succeeds only on 200, returning the body unchanged, and otherwise returns the error string |
| Confluence.GetPage | confluence_mcp.py:63-74 | fetching a page succeeds only on 200, returning the body unchanged, and otherwise returns the error string |
| Confluence.MissingCredentialRaises | confluence_mcp.py:13-14 | with an empty credential each of `search_pages`, `create_page` and `get_page` raises the authentication error, whatever the network would answer |
| Jira.ReadHeaders | jira_mcp.py:16-19 | the read headers hold `Accept: application/json` and the Basic authorization, and no content type |
| Jira.WriteHeaders | jira_mcp.py:31-35 | the write headers hold `Accept` and `Content-Type`, both `application/json`, and the Basic authorization |
| Jira.SearchIssuesRequest | jira_mcp.py:15-21 | raises the credential helper's error before sending when it fails; otherwise a GET to base + `/rest/api/3/search` whose only query parameter is `jql`, set to the input, with the read headers (JSON Accept, no content type, Basic authorization) |
| Jira.IssuePayloadFields | jira_mcp.py:28-43 | the issue body carries the project key, summary and description verbatim, and the issue type, `Task` by default |
| Jira.CreateIssueRequest | jira_mcp.py:30-44 | raises the credential helper's error before sending when it fails; otherwise a POST of the issue body to base + `/rest/api/3/issue` with the write headers (JSON Accept and Content-Type, Basic authorization) |
| Jira.GetIssueRequest | jira_mcp.py:53-58 | raises the credential helper's error before sending when it fails; otherwise a GET of base + `/rest/api/3/issue/` followed by the issue key, with the read headers (JSON Accept, no content type, Basic authorization) |
| Jira.SearchIssues | jira_mcp.py:13-25 | the search succeeds only on 200, returning the body unchanged, and otherwise returns the error string |
| Jira.CreateIssue | jira_mcp.py:28-48 | issue creation succeeds only on 201, returning the body unchanged, and otherwise returns the error string |
| Jira.GetIssue | jira_mcp.py:51-62 | fetching an issue succeeds only on 200, returning the body unchanged, and otherwise returns the error string |
| Jira.CreateIssueRejects200 | jira_mcp.py:45-48 | a 200 answer to `create_issue` is reported as the error string |
| Jira.AuthFailureRaises | jira_mcp.py:18 | when the credential helper raises, each of `search_issues`, `create_issue` and `get_issue` raises that error, whatever the network would answer |
| Cal.CalHeaders | cal_mcp.py:14-17 | every request carries `Authorization: Bearer <key>` and `Content-Type: application/json` |
| Cal.GetEventTypesRequest | cal_mcp.py:13-18 | a GET to `https://api.cal.com/v1/event-types` with no query parameters |
| Cal.BookingPayloadFields | cal_mcp.py:32-39 | the booking body maps `eventTypeId`, `start`, `responses.email` and `responses.name` to the inputs |
| Cal.CreateBookingRequest | cal_mcp.py:27-40 | a POST of the booking body to `https://api.cal.com/v1/bookings` |
| Cal.GetAvailabilityRequest | cal_mcp.py:49-55 | a GET to the availability URL whose parameters are exactly `dateFrom` and `dateTo`, with the Bearer authorization and the JSON Content-Type header |
| Cal.AvailabilityUrlDeterminesId | cal_mcp.py:49 | the text between `/event-types/` and `/availability` parses back to the event type id |
| Cal.GetEventTypes | cal_mcp.py:11-22 | listing event types succeeds only on 200, returning the body unchanged, and otherwise returns the error string |
| Cal.CreateBooking | cal_mcp.py:25-44 | booking succeeds only on 201, returning the body unchanged, and otherwise returns the error string |
| Cal.GetAvailability | cal_mcp.py:47-59 | the availability query succeeds only on 200, returning the body unchanged, and otherwise returns the error string |
| Resend.EmailPayloadFields | resend_mcp.py:11-23 | `from` is the sender, by default `onboarding@resend.dev`; `to` is a one-element list; subject and html are verbatim |
| Resend.SendEmailRequest | resend_mcp.py:13-24 | a POST of the email body to `https://api.resend.com/emails` with `Authorization: Bearer <key>` |
| Resend.SendEmail | resend_mcp.py:11-28 | sending succeeds only on 200, returning the body unchanged, and otherwise returns the error string |
| Resend.SendEmailRejection | resend_mcp.py:27-28 | 400, 401, 429 and every other code other than 200 yield the error string |
| McpJson.FirstUnexpected | run_jira_json.py:28 | finds the first given keyword that names no parameter, and finds none exactly when every keyword names one |
| McpJson.Missing | run_jira_json.py:28 | a name is listed exactly when it is the name of a required parameter that was not given; the list is empty exactly when all were given |
| McpJson.MissingInOrder | run_jira_json.py:28 | the list names every absent required parameter, each once, in parameter order |
| McpJson.TwoMissingMessage | run_jira_json.py:28-36 | the `TypeError` text for two missing arguments names both |
| McpJson.Bind | run_jira_json.py:28 | `fn(**args)` binds exactly when every keyword names a parameter and every required one is given; the bound values are then `BoundValues`. Otherwise a `TypeError` naming the function is raised: for the first unexpected keyword when there is one, else listing the missing arguments |
| McpJson.BoundValues | run_jira_json.py:28 | each parameter receives the value of its keyword argument (the last one, as a decoded dict keeps), or its default when none was given |
| McpJson.ArgsOf | run_jira_json.py:22 | a missing or falsy `args` is the empty mapping; a truthy one is used as given |
| McpJson.Invoke | run_jira_json.py:28 | arguments that are not a mapping raise the `TypeError` naming the module-qualified function and the argument's type; failed binding raises its `TypeError`; otherwise the tool runs on the bound values |
| McpJson.Answer | run_jira_json.py:26-36 | a raise gives 500 with its message; a serialisable result gives 200 with it unchanged; a `TypeError` from `json.dumps` gives 200 with `str(result)`; a `ValueError` gives 500 |
| McpJson.Dispatch | run_jira_json.py:13-36 | every JSON reply holds exactly one of `result` (status 200) or `error` (404 or 500); 404 exactly when the name is not registered; an uncaught error only for an unreadable body or a non-object body or an unhashable name |
| McpJson.NotFoundInvokesNothing | run_jira_json.py:23-25 | an unregistered name gives 404 with `Tool '<name>' not found`, the same reply as an empty registry, so no tool runs |
| McpJson.FalsyArgsAreEmpty | run_jira_json.py:22 | a missing, null or empty `args` gives the same reply as `{}` |
| McpJson.RaisedIsServerFailure | run_jira_json.py:35-36 | whatever a tool raises becomes 500 with its message |
| McpJson.SerialisableIsReturned | run_jira_json.py:30-32 | a serialisable result is returned unchanged with 200 |
| McpJson.UnserialisableIsStringified | run_jira_json.py:33-34 | a result that `json.dumps` rejects with `TypeError` is still a 200, carrying `str(result)` |
| McpJson.MissingArgumentIsServerFailure | run_jira_json.py:28-36 | a missing required argument gives a 500 error reply |
| McpJson.UnexpectedArgumentIsServerFailure | run_jira_json.py:28-36 | an argument naming no parameter gives a 500 error reply |
| McpJson.CallBody | run_jira_json.py:21-22 | a request body `{"tool": name, "args": args}` yields that name and those arguments |
| McpJson.BindIssueKey | jira_mcp.py:51 | `get_issue(issue_key=k)` binds `k` |
| McpJson.GetIssueThroughEndpoint | run_jira_json.py:28-36 | a `get_issue` call through the endpoint answers with the tool's own result; a rejected lookup arrives as a 200 result holding the adapter's error string, and a failing credential helper as a 500 carrying its error |
| McpJson.JiraRegistryTools | jira_mcp.py:10-13 | the endpoint serves exactly `search_issues`, `create_issue` and `get_issue`, defined in `jira_mcp`, with parameters `jql`; `project_key`, `summary`, `description` and `issue_type` defaulting to `Task`; and `issue_key` |
| McpJson.SearchIssuesRuns | jira_mcp.py:12-13 | the registered `search_issues` runs the Jira search on its string argument |
| McpJson.CreateIssueRuns | jira_mcp.py:27-28 | the registered `create_issue` runs the Jira create on its four string arguments |
| McpJson.GetIssueRuns | jira_mcp.py:50-51 | the registered `get_issue` runs the Jira lookup on its string argument |
| McpJson.MissingProjectOnly | jira_mcp.py:28 | with only `project_key`, `summary` and `description` are missing |
| McpJson.BindProjectOnly | jira_mcp.py:28 | `create_issue(project_key=...)` raises the `TypeError` naming `summary` and `description` |
| McpJson.CreateIssueMissingArguments | run_jira_json.py:28-36 | `create_issue` with only a project key gives a 500 naming both missing arguments |
| VerifyConnectors.Truncate | verify_connectors.py:15 | a text of length at most n is returned unchanged; a longer one becomes its first n characters and `...`, of length n + 3 |
| VerifyConnectors.TruncateBound | verify_connectors.py:15 | the result is at most n + 3 long, and what it keeps is a prefix of the input |
| VerifyConnectors.TruncateIdempotent | verify_connectors.py:15 | shortening twice gives the same as shortening once |
| VerifyConnectors.TruncateFixedPoints | verify_connectors.py:15 | a text comes back unchanged exactly when it fits, or when it is n characters followed by `...` |
| VerifyConnectors.Render | verify_connectors.py:11-14 | a string is used as it is, any other JSON value through `json.dumps`, and an object `json.dumps` rejects through its `str()` |
| VerifyConnectors.Short | verify_connectors.py:10-15 | the rendering is kept when it has at most n characters, and is otherwise cut to its first n characters followed by `...`; the result is at most n + 3 long |
| VerifyConnectors.ShortIdempotent | verify_connectors.py:10-15 | shortening a message `short` produced, with the same bound, leaves it unchanged |
| VerifyConnectors.VerifyTool | verify_connectors.py:17-33 | a check never reports None; it is OK exactly when the tool call returned; an OK message is at most 503 long; a raise is reported by its message |
| VerifyConnectors.VerifyJira | verify_connectors.py:17-33 | an import failure is reported as `Import error: ...`; otherwise the check calls `search_issues("project = TEST")`, is OK exactly when it returns, with the shortened result, and reports a raise (such as a failing credential helper) by its message |
| VerifyConnectors.VerifyConfluence | verify_connectors.py:35-51 | an import failure is reported as `Import error: ...`; otherwise the check calls `search_pages("test")`, is OK exactly when it returns, with the shortened result, and an empty credential gives ERROR with the authentication message |
| VerifyConnectors.VerifyCal | verify_connectors.py:53-69 | an import failure is reported as `Import error: ...`; otherwise the check calls `get_event_types()`, is OK exactly when it returns, with the shortened result, and reports a raise by its message |
| VerifyConnectors.VerifyResend | verify_connectors.py:71-89 | an import failure is reported as `Import error: ...`; otherwise the check sends the test email to the recipient, is OK exactly when the call returns, with the shortened result, and reports a raise by its message |
| VerifyConnectors.RejectedSearchIsOk | verify_connectors.py:30-31 | the Jira check is OK even when the service rejects the search, since the adapter returns its error string |
| VerifyConnectors.ResendNeverSkipped | verify_connectors.py:71-77 | as written, the Resend check never reports SKIPPED, because the imported tool shadows the flag |
| VerifyConnectors.Label | verify_connectors.py:106 | SKIPPED exactly for None, OK exactly for true, ERROR exactly for false |
| VerifyConnectors.Put | verify_connectors.py:93-102 | assigning a new key appends it, so the dict has one more entry |
| VerifyConnectors.PutSemantics | verify_connectors.py:93-102 | after `d[k] = v`, `d[k]` is v and every other key reads as before; a new key goes last and an existing key keeps its place |
| VerifyConnectors.PutFour | verify_connectors.py:93-102 | four assignments of distinct keys into an empty dict keep them in assignment order |
| VerifyConnectors.Labels | verify_connectors.py:105-106 | each entry gets its label, in the dict's order |
| VerifyConnectors.RunChecks | verify_connectors.py:91-106 | the results hold exactly `jira`, `confluence`, `cal` and `resend` in that order, each with its own verdict, and each is labelled |

## Left out

- Network I/O (`requests.get`, `requests.post`) is the `send` parameter. The
  decoding of the response body is a field of the response.
- Environment and credential loading (`os.getenv`, `load_dotenv`) is left out.
  Credentials and base URLs are `Config` values.
- FastMCP registration, `mcp.run`, Starlette, uvicorn and `run_jira_http.py`
  are left out. `mcp.get_tool` is a lookup in a map from names to tools.
- `requests.auth._basic_auth_str` is not part of this model. Jira's
  `Config.basicAuth` stands for its outcome: the text it returns, or the
  message of the exception it raises (a credential that does not encode as
  Latin-1). The model does not capture that the text already includes the
  `Basic ` scheme, nor which credentials make it raise.
- `json.dumps` is abstract. A non-JSON value carries its `str()` and the
  exception `json.dumps` would raise. In `short`, the indented rendering of a
  JSON value is a function parameter.
- JSON numbers are integers only. Floating point is left out.
- Utf8.Encode / Confluence.BasicAuthHeader: a Python `str` can hold lone
  surrogates (`os.getenv` yields them for undecodable environment bytes), and
  on such a credential `str.encode()` raises `UnicodeEncodeError`. A Dafny
  `string` cannot hold them, so this error path is not modelled.
- Python's `str()` of a list or dict used as a tool name is left out. Such a
  name is unhashable, and the lookup then fails outside the `try` block.
- McpJson.Bind: the `TypeError` texts are those of CPython 3.10 to 3.12. From
  3.13 on, the unexpected-keyword message can end with a "Did you mean"
  suggestion when the keyword is close to a parameter name; that suffix is
  not modelled.
- McpJson.JiraRegistry: the Jira tools are modelled on string arguments. A
  JSON argument of another type makes the model raise, where Python would
  format the value into the request.
- VerifyConnectors.Truncate: does not model a negative bound, where Python
  slices from the end. `short` is only called with its default of 500.
- VerifyConnectors.VerifyResend: an unset `RECIPIENT` (None) is not modelled;
  the recipient is a string.
- The `asyncio` branch of the `verify_*` functions is left out. Every tool
  here is synchronous.
- The printed report of `main` (`print`, `textwrap.indent`, `upper`,
  padding) is output only and is left out.
