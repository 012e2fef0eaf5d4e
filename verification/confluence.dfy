/** The wiki adapter (confluence_mcp.py): the Basic authentication
    header, and the three tools `search_pages`, `create_page` and
    `get_page`, each of which succeeds only on status 200. */
module Confluence {

  import opened Values
  import opened Http
  import Base64
  import Utf8

  /** The module-level settings, read once from the environment. */
  datatype Config = Config(baseUrl: string, username: string, apiToken: string)

  const AuthRequired := "Username and token are required for authentication"
  const BasicScheme := "Basic "

  /** Python truthiness of an optional string: neither None nor empty. */
  predicate Present(s: Option<string>)
  {
    s.Some? && s.value != ""
  }

  /** The octets that are Base64-encoded: `f"{username}:{token}".encode()`. */
  function Credentials(username: string, token: string): seq<Byte>
  {
    Utf8.Encode(username + ":" + token)
  }

  /** `get_basic_auth_header`: the Basic scheme of section 2 of RFC 7617,
      or the ValueError raised when either part is missing or empty. The
      UnicodeEncodeError of a credential holding a lone surrogate is not
      modelled: a Dafny string cannot hold one. */
  function BasicAuthHeader(username: Option<string>, token: Option<string>): (r: Result<string, string>)
    ensures r.Failure? <==> !Present(username) || !Present(token)
    ensures r.Failure? ==> r.error == AuthRequired
    ensures r.Success? ==> |r.value| > |BasicScheme| && r.value[..|BasicScheme|] == BasicScheme
  {
    if !Present(username) || !Present(token) then Failure(AuthRequired)
    else
      var encoded := Base64.Encode(Credentials(username.value, token.value));
      assert |Credentials(username.value, token.value)| >= 3;
      Success(BasicScheme + encoded)
  }

  /** The part after `Basic ` is the Base64 of the UTF-8 credentials: it
      has 4 * ceil(n / 3) characters for n octets, uses only the Base64
      alphabet and `=` padding, and decodes back to `username:token`. */
  lemma BasicAuthHeaderDecodes(username: string, token: string)
    requires username != "" && token != ""
    ensures var h := BasicAuthHeader(Some(username), Some(token)).value;
      var encoded := h[|BasicScheme|..];
      var n := |Credentials(username, token)|;
      && |encoded| == 4 * ((n + 2) / 3)
      && (forall i :: 0 <= i < |encoded| ==> Base64.IsAlphabetChar(encoded[i]) || encoded[i] == '=')
      && Base64.Decode(encoded) == Some(Credentials(username, token))
      && Utf8.Decode(Credentials(username, token)) == Some(username + ":" + token)
  {
    var bytes := Credentials(username, token);
    assert BasicAuthHeader(Some(username), Some(token)).value[|BasicScheme|..] == Base64.Encode(bytes);
    Base64.EncodeAlphabet(bytes);
    Base64.DecodeEncode(bytes);
    Utf8.DecodeEncode(username + ":" + token);
  }

  /** How a server reads decoded credentials: the user-id is everything
      before the first colon, the password everything after it. */
  function SplitCredentials(s: string): Option<(string, string)>
  {
    var k := IndexOf(s, ':');
    if k == |s| then None else Some((s[..k], s[k + 1..]))
  }

  /** When the user name holds no colon (which section 2 of RFC 7617
      demands of a user-id), the server recovers both parts exactly,
      even when the token holds colons. */
  lemma {:induction false} SplitCredentialsRecovers(username: string, token: string)
    requires forall i :: 0 <= i < |username| ==> username[i] != ':'
    ensures SplitCredentials(username + ":" + token) == Some((username, token))
  {
    var s := username + ":" + token;
    assert s[|username|] == ':';
    assert forall i :: 0 <= i < |username| ==> s[i] == username[i];
    assert IndexOf(s, ':') == |username|;
    assert s[..|username|] == username;
    assert s[|username| + 1..] == token;
  }

  /** The query `search_pages` sends: the search text inside single
      quotes, not escaped, and a space filter when a space key is given. */
  function Cql(query: string, spaceKey: Option<string>): (c: string)
    ensures |c| >= |query| + 9 && c[..|query| + 9] == "text ~ '" + query + "'"
    ensures Present(spaceKey) ==> c[|query| + 9..] == " and space = " + spaceKey.value
    ensures !Present(spaceKey) ==> |c| == |query| + 9
  {
    "text ~ '" + query + "'" + (if Present(spaceKey) then " and space = " + spaceKey.value else "")
  }

  /** Because the query is not escaped, a quote in it ends the string
      literal early: two different calls can send the same query. */
  lemma CqlNotEscaped()
    ensures Cql("a' and space = B", None) == Cql("a", Some("B'"))
  {
  }

  /** The headers of a Confluence tool: Accept, then the extra ones, then
      the Authorization value `h`. */
  function AuthHeaders(h: string, extra: seq<(string, string)>): seq<(string, string)>
  {
    [("Accept", "application/json")] + extra + [("Authorization", h)]
  }

  /** Each header reads back: Accept, Authorization and every extra one. */
  lemma HeadersLookup(h: string, extra: seq<(string, string)>)
    requires forall i :: 0 <= i < |extra| ==> extra[i].0 != "Accept" && extra[i].0 != "Authorization"
    ensures var hs := AuthHeaders(h, extra);
      && Lookup(hs, "Accept") == Some("application/json")
      && Lookup(hs, "Authorization") == Some(h)
      && (forall i :: 0 <= i < |extra| && (forall j :: i < j < |extra| ==> extra[j].0 != extra[i].0) ==>
            Lookup(hs, extra[i].0) == Some(extra[i].1))
    ensures extra == [] ==> Lookup(AuthHeaders(h, extra), "Content-Type").None?
  {
    var front := [("Accept", "application/json")] + extra;
    var hs := front + [("Authorization", h)];
    LookupAppend(front, "Authorization", h, "Authorization");
    LookupAppend(front, "Authorization", h, "Accept");
    LookupAt(front, 0);
    forall i | 0 <= i < |extra| && (forall j :: i < j < |extra| ==> extra[j].0 != extra[i].0)
      ensures Lookup(hs, extra[i].0) == Some(extra[i].1)
    {
      assert front[i + 1] == extra[i];
      LookupAt(front, i + 1);
      LookupAppend(front, "Authorization", h, extra[i].0);
    }
  }


  /** The request of `search_pages`. Building the header raises when a
      credential is empty, before anything is sent. */
  function SearchPagesRequest(cfg: Config, query: string, spaceKey: Option<string>): (r: Result<Request, string>)
    ensures r.Failure? <==> cfg.username == "" || cfg.apiToken == ""
    ensures r.Failure? ==> r.error == AuthRequired
    ensures r.Success? ==>
      && r.value.verb == Get
      && r.value.url == cfg.baseUrl + "/rest/api/content/search"
      && r.value.params == [("cql", Cql(query, spaceKey))]
      && Header(r.value, "Authorization") == Some(BasicAuthHeader(Some(cfg.username), Some(cfg.apiToken)).value)
      && Header(r.value, "Accept") == Some("application/json")
      && Header(r.value, "Content-Type").None?
      && r.value.payload.None?
  {
    match BasicAuthHeader(Some(cfg.username), Some(cfg.apiToken))
    case Failure(e) => Failure(e)
    case Success(h) =>
      var headers := AuthHeaders(h, []);
      HeadersLookup(h, []);
      Success(Request(Get, cfg.baseUrl + "/rest/api/content/search", headers, [("cql", Cql(query, spaceKey))], None))
  }

  /** The JSON body of `create_page`. */
  function PagePayload(spaceKey: string, title: string, content: string): Json
  {
    JObject([
      ("type", JString("page")),
      ("title", JString(title)),
      ("space", JObject([("key", JString(spaceKey))])),
      ("body", PageBody(content))])
  }

  /** The `body` member of the page: the content in storage representation. */
  function PageBody(content: string): Json
  {
    JObject([("storage", JObject([("value", JString(content)), ("representation", JString("storage"))]))])
  }

  /** The `create_page` body is a page whose title, space key and
      content are the arguments, verbatim, in storage representation. */
  lemma PagePayloadFields(spaceKey: string, title: string, content: string)
    ensures var p := PagePayload(spaceKey, title, content);
      && At(p, ["type"]) == Some(JString("page"))
      && At(p, ["title"]) == Some(JString(title))
      && At(p, ["space", "key"]) == Some(JString(spaceKey))
      && At(p, ["body", "storage", "value"]) == Some(JString(content))
      && At(p, ["body", "storage", "representation"]) == Some(JString("storage"))
  {
    PageTopFields(spaceKey, title, content);
    PageSpaceKey(spaceKey, title, content);
    PageStorage(spaceKey, title, content);
  }

  lemma PageTopFields(spaceKey: string, title: string, content: string)
    ensures var p := PagePayload(spaceKey, title, content);
      At(p, ["type"]) == Some(JString("page")) && At(p, ["title"]) == Some(JString(title))
  {
    var members := PagePayload(spaceKey, title, content).members;
    AtObject(members, 0, []);
    assert ["type"] == [members[0].0] + [];
    AtObject(members, 1, []);
    assert ["title"] == [members[1].0] + [];
  }

  lemma PageSpaceKey(spaceKey: string, title: string, content: string)
    ensures At(PagePayload(spaceKey, title, content), ["space", "key"]) == Some(JString(spaceKey))
  {
    var members := PagePayload(spaceKey, title, content).members;
    var space := [("key", JString(spaceKey))];
    AtObject(members, 2, ["key"]);
    assert ["space", "key"] == [members[2].0] + ["key"];
    AtObject(space, 0, []);
    assert ["key"] == [space[0].0] + [];
  }

  lemma PageStorage(spaceKey: string, title: string, content: string)
    ensures var p := PagePayload(spaceKey, title, content);
      && At(p, ["body", "storage", "value"]) == Some(JString(content))
      && At(p, ["body", "storage", "representation"]) == Some(JString("storage"))
  {
    var members := PagePayload(spaceKey, title, content).members;
    BodyFields(content);
    AtObject(members, 3, ["storage", "value"]);
    assert ["body", "storage", "value"] == [members[3].0] + ["storage", "value"];
    AtObject(members, 3, ["storage", "representation"]);
    assert ["body", "storage", "representation"] == [members[3].0] + ["storage", "representation"];
  }

  lemma BodyFields(content: string)
    ensures At(PageBody(content), ["storage", "value"]) == Some(JString(content))
    ensures At(PageBody(content), ["storage", "representation"]) == Some(JString("storage"))
  {
    var storage := [("value", JString(content)), ("representation", JString("storage"))];
    var body := [("storage", JObject(storage))];
    AtObject(body, 0, ["value"]);
    assert ["storage", "value"] == [body[0].0] + ["value"];
    AtObject(storage, 0, []);
    assert ["value"] == [storage[0].0] + [];
    AtObject(body, 0, ["representation"]);
    assert ["storage", "representation"] == [body[0].0] + ["representation"];
    AtObject(storage, 1, []);
    assert ["representation"] == [storage[1].0] + [];
  }

  /** The request of `create_page`. */
  function CreatePageRequest(cfg: Config, spaceKey: string, title: string, content: string): (r: Result<Request, string>)
    ensures r.Failure? <==> cfg.username == "" || cfg.apiToken == ""
    ensures r.Failure? ==> r.error == AuthRequired
    ensures r.Success? ==>
      && r.value.verb == Post
      && r.value.url == cfg.baseUrl + "/rest/api/content"
      && r.value.params == []
      && Header(r.value, "Accept") == Some("application/json")
      && Header(r.value, "Content-Type") == Some("application/json")
      && Header(r.value, "Authorization") == Some(BasicAuthHeader(Some(cfg.username), Some(cfg.apiToken)).value)
      && r.value.payload == Some(PagePayload(spaceKey, title, content))
  {
    match BasicAuthHeader(Some(cfg.username), Some(cfg.apiToken))
    case Failure(e) => Failure(e)
    case Success(h) =>
      var headers := AuthHeaders(h, [("Content-Type", "application/json")]);
      HeadersLookup(h, [("Content-Type", "application/json")]);
      Success(Request(Post, cfg.baseUrl + "/rest/api/content", headers, [], Some(PagePayload(spaceKey, title, content))))
  }

  const PagePath := "/rest/api/content/"
  const ExpandBody := "?expand=body.storage"

  /** The request of `get_page`: the page id sits between the content
      path and the `expand` query. */
  function GetPageRequest(cfg: Config, pageId: string): (r: Result<Request, string>)
    ensures r.Failure? <==> cfg.username == "" || cfg.apiToken == ""
    ensures r.Failure? ==> r.error == AuthRequired
    ensures r.Success? ==>
      && r.value.verb == Get
      && r.value.url == cfg.baseUrl + PagePath + pageId + ExpandBody
      && r.value.params == []
      && Header(r.value, "Accept") == Some("application/json")
      && Header(r.value, "Content-Type").None?
      && Header(r.value, "Authorization") == Some(BasicAuthHeader(Some(cfg.username), Some(cfg.apiToken)).value)
      && r.value.payload.None?
  {
    match BasicAuthHeader(Some(cfg.username), Some(cfg.apiToken))
    case Failure(e) => Failure(e)
    case Success(h) =>
      var headers := AuthHeaders(h, []);
      HeadersLookup(h, []);
      Success(Request(Get, cfg.baseUrl + PagePath + pageId + ExpandBody, headers, [], None))
  }

  /** The page id can be read back from the URL `get_page` requests. */
  lemma GetPageUrlDeterminesId(cfg: Config, id1: string, id2: string)
    requires cfg.username != "" && cfg.apiToken != ""
    requires GetPageRequest(cfg, id1).value.url == GetPageRequest(cfg, id2).value.url
    ensures id1 == id2
  {
    var prefix := cfg.baseUrl + PagePath;
    var u1, u2 := prefix + id1 + ExpandBody, prefix + id2 + ExpandBody;
    assert |id1| == |id2|;
    assert id1 == u1[|prefix|..|prefix| + |id1|];
    assert id2 == u2[|prefix|..|prefix| + |id2|];
  }

  function SearchPages(cfg: Config, send: Request -> Transport, query: string, spaceKey: Option<string>): (r: Invocation)
    ensures Normalised(SearchPagesRequest(cfg, query, spaceKey), send, 200, r)
  {
    Perform(SearchPagesRequest(cfg, query, spaceKey), send, 200)
  }

  function CreatePage(cfg: Config, send: Request -> Transport, spaceKey: string, title: string, content: string): (r: Invocation)
    ensures Normalised(CreatePageRequest(cfg, spaceKey, title, content), send, 200, r)
  {
    Perform(CreatePageRequest(cfg, spaceKey, title, content), send, 200)
  }

  function GetPage(cfg: Config, send: Request -> Transport, pageId: string): (r: Invocation)
    ensures Normalised(GetPageRequest(cfg, pageId), send, 200, r)
  {
    Perform(GetPageRequest(cfg, pageId), send, 200)
  }

  /** With an empty credential every tool raises the ValueError of
      `get_basic_auth_header`, whatever the network would have answered. */
  lemma MissingCredentialRaises(cfg: Config, send: Request -> Transport, query: string, spaceKey: Option<string>,
                                pageSpace: string, title: string, content: string, pageId: string)
    requires cfg.username == "" || cfg.apiToken == ""
    ensures SearchPages(cfg, send, query, spaceKey) == Raised(AuthRequired)
    ensures CreatePage(cfg, send, pageSpace, title, content) == Raised(AuthRequired)
    ensures GetPage(cfg, send, pageId) == Raised(AuthRequired)
  {
  }
}
