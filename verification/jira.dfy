/** The issue-tracker adapter (jira_mcp.py): `search_issues` and
    `get_issue`, which succeed on status 200, and `create_issue`, which
    succeeds only on status 201. */
module Jira {

  import opened Values
  import opened Http

  /** The module-level settings. `basicAuth` stands for the outcome of
      requests' `_basic_auth_str(JIRA_USERNAME, JIRA_API_TOKEN)`, a helper
      whose body is not part of this model: the text it returns, or the
      message of the exception it raises (it encodes both credentials as
      Latin-1, which fails on other characters). Every tool calls it with
      the same module-level credentials, so every tool meets the same
      outcome. */
  datatype Config = Config(baseUrl: string, basicAuth: Result<string, string>)

  const SearchPath := "/rest/api/3/search"
  const IssuePath := "/rest/api/3/issue"
  const IssueKeyPath := "/rest/api/3/issue/"
  const DefaultIssueType := "Task"

  /** The Authorization value every tool sends, from the helper's text. */
  function Authorization(basicAuth: string): string
  {
    "Basic " + basicAuth
  }

  /** The headers of the two reads. */
  function ReadHeaders(basicAuth: string): (hs: seq<(string, string)>)
    ensures Lookup(hs, "Accept") == Some("application/json")
    ensures Lookup(hs, "Authorization") == Some(Authorization(basicAuth))
    ensures Lookup(hs, "Content-Type").None?
  {
    var hs := [("Accept", "application/json"), ("Authorization", Authorization(basicAuth))];
    LookupAt(hs, 0);
    LookupAt(hs, 1);
    hs
  }

  /** The headers of `create_issue`. */
  function WriteHeaders(basicAuth: string): (hs: seq<(string, string)>)
    ensures Lookup(hs, "Accept") == Some("application/json")
    ensures Lookup(hs, "Content-Type") == Some("application/json")
    ensures Lookup(hs, "Authorization") == Some(Authorization(basicAuth))
  {
    var hs := [("Accept", "application/json"), ("Content-Type", "application/json"), ("Authorization", Authorization(basicAuth))];
    LookupAt(hs, 0);
    LookupAt(hs, 1);
    LookupAt(hs, 2);
    hs
  }

  /** The request of `search_issues`: the JQL is the only query
      parameter. Building the header raises what the helper raises,
      before anything is sent. */
  function SearchIssuesRequest(cfg: Config, jql: string): (r: Result<Request, string>)
    ensures r.Failure? <==> cfg.basicAuth.Failure?
    ensures r.Failure? ==> r.error == cfg.basicAuth.error
    ensures r.Success? ==>
      && r.value.verb == Get && r.value.url == cfg.baseUrl + SearchPath
      && r.value.params == [("jql", jql)] && r.value.payload.None?
      && r.value.headers == ReadHeaders(cfg.basicAuth.value)
      && Header(r.value, "Accept") == Some("application/json")
      && Header(r.value, "Content-Type").None?
      && Header(r.value, "Authorization") == Some(Authorization(cfg.basicAuth.value))
  {
    match cfg.basicAuth
    case Failure(e) => Failure(e)
    case Success(auth) => Success(Request(Get, cfg.baseUrl + SearchPath, ReadHeaders(auth), [("jql", jql)], None))
  }

  /** The issue type sent: the argument, or `Task` when it is omitted. */
  function IssueType(issueType: Option<string>): string
  {
    match issueType
    case None => DefaultIssueType
    case Some(t) => t
  }

  /** The JSON body of `create_issue`. */
  function IssuePayload(projectKey: string, summary: string, description: string, issueType: Option<string>): Json
  {
    JObject([("fields", JObject([
      ("project", JObject([("key", JString(projectKey))])),
      ("summary", JString(summary)),
      ("description", JString(description)),
      ("issuetype", JObject([("name", JString(IssueType(issueType)))]))]))])
  }

  /** The `create_issue` body carries the project key, summary and
      description verbatim, and the issue type, `Task` by default. */
  lemma IssuePayloadFields(projectKey: string, summary: string, description: string, issueType: Option<string>)
    ensures var p := IssuePayload(projectKey, summary, description, issueType);
      && At(p, ["fields", "project", "key"]) == Some(JString(projectKey))
      && At(p, ["fields", "summary"]) == Some(JString(summary))
      && At(p, ["fields", "description"]) == Some(JString(description))
      && At(p, ["fields", "issuetype", "name"]) == Some(JString(if issueType.None? then "Task" else issueType.value))
  {
    IssueProjectKey(projectKey, summary, description, issueType);
    IssueText(projectKey, summary, description, issueType);
    IssueTypeName(projectKey, summary, description, issueType);
  }

  lemma IssueProjectKey(projectKey: string, summary: string, description: string, issueType: Option<string>)
    ensures At(IssuePayload(projectKey, summary, description, issueType), ["fields", "project", "key"]) == Some(JString(projectKey))
  {
    var p := IssuePayload(projectKey, summary, description, issueType);
    var fields := p.members[0].1.members;
    var project := [("key", JString(projectKey))];
    AtObject(p.members, 0, ["project", "key"]);
    assert ["fields", "project", "key"] == [p.members[0].0] + ["project", "key"];
    AtObject(fields, 0, ["key"]);
    assert ["project", "key"] == [fields[0].0] + ["key"];
    AtObject(project, 0, []);
    assert ["key"] == [project[0].0] + [];
  }

  lemma IssueText(projectKey: string, summary: string, description: string, issueType: Option<string>)
    ensures var p := IssuePayload(projectKey, summary, description, issueType);
      At(p, ["fields", "summary"]) == Some(JString(summary)) && At(p, ["fields", "description"]) == Some(JString(description))
  {
    var p := IssuePayload(projectKey, summary, description, issueType);
    var fields := p.members[0].1.members;
    AtObject(p.members, 0, ["summary"]);
    assert ["fields", "summary"] == [p.members[0].0] + ["summary"];
    AtObject(fields, 1, []);
    assert ["summary"] == [fields[1].0] + [];
    AtObject(p.members, 0, ["description"]);
    assert ["fields", "description"] == [p.members[0].0] + ["description"];
    AtObject(fields, 2, []);
    assert ["description"] == [fields[2].0] + [];
  }

  lemma IssueTypeName(projectKey: string, summary: string, description: string, issueType: Option<string>)
    ensures At(IssuePayload(projectKey, summary, description, issueType), ["fields", "issuetype", "name"])
         == Some(JString(if issueType.None? then "Task" else issueType.value))
  {
    var p := IssuePayload(projectKey, summary, description, issueType);
    var fields := p.members[0].1.members;
    var kind := [("name", JString(IssueType(issueType)))];
    AtObject(p.members, 0, ["issuetype", "name"]);
    assert ["fields", "issuetype", "name"] == [p.members[0].0] + ["issuetype", "name"];
    AtObject(fields, 3, ["name"]);
    assert ["issuetype", "name"] == [fields[3].0] + ["name"];
    AtObject(kind, 0, []);
    assert ["name"] == [kind[0].0] + [];
  }


  /** The request of `create_issue`. */
  function CreateIssueRequest(cfg: Config, projectKey: string, summary: string, description: string, issueType: Option<string>): (r: Result<Request, string>)
    ensures r.Failure? <==> cfg.basicAuth.Failure?
    ensures r.Failure? ==> r.error == cfg.basicAuth.error
    ensures r.Success? ==>
      && r.value.verb == Post && r.value.url == cfg.baseUrl + IssuePath && r.value.params == []
      && r.value.headers == WriteHeaders(cfg.basicAuth.value)
      && Header(r.value, "Accept") == Some("application/json")
      && Header(r.value, "Content-Type") == Some("application/json")
      && Header(r.value, "Authorization") == Some(Authorization(cfg.basicAuth.value))
      && r.value.payload == Some(IssuePayload(projectKey, summary, description, issueType))
  {
    match cfg.basicAuth
    case Failure(e) => Failure(e)
    case Success(auth) =>
      Success(Request(Post, cfg.baseUrl + IssuePath, WriteHeaders(auth), [], Some(IssuePayload(projectKey, summary, description, issueType))))
  }

  /** The request of `get_issue`: the issue key ends the URL. */
  function GetIssueRequest(cfg: Config, issueKey: string): (r: Result<Request, string>)
    ensures r.Failure? <==> cfg.basicAuth.Failure?
    ensures r.Failure? ==> r.error == cfg.basicAuth.error
    ensures r.Success? ==>
      && r.value.verb == Get && r.value.params == [] && r.value.payload.None?
      && |r.value.url| == |cfg.baseUrl + IssueKeyPath| + |issueKey|
      && r.value.url[..|cfg.baseUrl + IssueKeyPath|] == cfg.baseUrl + IssueKeyPath
      && r.value.url[|cfg.baseUrl + IssueKeyPath|..] == issueKey
      && r.value.headers == ReadHeaders(cfg.basicAuth.value)
      && Header(r.value, "Accept") == Some("application/json")
      && Header(r.value, "Content-Type").None?
      && Header(r.value, "Authorization") == Some(Authorization(cfg.basicAuth.value))
  {
    match cfg.basicAuth
    case Failure(e) => Failure(e)
    case Success(auth) => Success(Request(Get, cfg.baseUrl + IssueKeyPath + issueKey, ReadHeaders(auth), [], None))
  }

  function SearchIssues(cfg: Config, send: Request -> Transport, jql: string): (r: Invocation)
    ensures Normalised(SearchIssuesRequest(cfg, jql), send, 200, r)
  {
    Perform(SearchIssuesRequest(cfg, jql), send, 200)
  }

  function CreateIssue(cfg: Config, send: Request -> Transport, projectKey: string, summary: string, description: string, issueType: Option<string>): (r: Invocation)
    ensures Normalised(CreateIssueRequest(cfg, projectKey, summary, description, issueType), send, 201, r)
  {
    Perform(CreateIssueRequest(cfg, projectKey, summary, description, issueType), send, 201)
  }

  function GetIssue(cfg: Config, send: Request -> Transport, issueKey: string): (r: Invocation)
    ensures Normalised(GetIssueRequest(cfg, issueKey), send, 200, r)
  {
    Perform(GetIssueRequest(cfg, issueKey), send, 200)
  }

  /** `create_issue` treats a 200 as a failure: only 201 returns the body. */
  lemma CreateIssueRejects200(cfg: Config, send: Request -> Transport, projectKey: string, summary: string, description: string, issueType: Option<string>)
    requires var q := CreateIssueRequest(cfg, projectKey, summary, description, issueType);
      q.Success? && send(q.value).Delivered? && send(q.value).response.status == 200
    ensures var resp := send(CreateIssueRequest(cfg, projectKey, summary, description, issueType).value).response;
      CreateIssue(cfg, send, projectKey, summary, description, issueType) == StringResult(ErrorMessage(200, resp.text))
  {
  }

  /** When the credential helper raises, every tool raises its error
      before sending, whatever the network would have answered. */
  lemma AuthFailureRaises(cfg: Config, send: Request -> Transport, jql: string, projectKey: string,
                          summary: string, description: string, issueType: Option<string>, issueKey: string)
    requires cfg.basicAuth.Failure?
    ensures SearchIssues(cfg, send, jql) == Raised(cfg.basicAuth.error)
    ensures CreateIssue(cfg, send, projectKey, summary, description, issueType) == Raised(cfg.basicAuth.error)
    ensures GetIssue(cfg, send, issueKey) == Raised(cfg.basicAuth.error)
  {
  }
}
