/** The email adapter (resend_mcp.py): `send_email`, which succeeds
    only on status 200. */
module Resend {

  import opened Values
  import opened Http

  /** `RESEND_API_KEY`, which has a placeholder default. */
  datatype Config = Config(apiKey: string)

  const EmailsUrl := "https://api.resend.com/emails"
  const DefaultFrom := "onboarding@resend.dev"

  /** The sender: the `from_email` argument, or the default when omitted. */
  function Sender(fromEmail: Option<string>): string
  {
    match fromEmail
    case None => DefaultFrom
    case Some(f) => f
  }

  /** The JSON body of `send_email`. */
  function EmailPayload(to: string, subject: string, html: string, fromEmail: Option<string>): Json
  {
    JObject([
      ("from", JString(Sender(fromEmail))),
      ("to", JArray([JString(to)])),
      ("subject", JString(subject)),
      ("html", JString(html))])
  }

  /** The email body: the sender (by default `onboarding@resend.dev`), a
      one-element recipient list, and subject and html verbatim. */
  lemma EmailPayloadFields(to: string, subject: string, html: string, fromEmail: Option<string>)
    ensures var p := EmailPayload(to, subject, html, fromEmail);
      && At(p, ["from"]) == Some(JString(if fromEmail.None? then "onboarding@resend.dev" else fromEmail.value))
      && At(p, ["to"]) == Some(JArray([JString(to)]))
      && At(p, ["subject"]) == Some(JString(subject))
      && At(p, ["html"]) == Some(JString(html))
  {
    var m := EmailPayload(to, subject, html, fromEmail).members;
    assert At(JObject(m), ["from"]) == Some(JString(Sender(fromEmail))) by {
      AtObject(m, 0, []);
      assert ["from"] == [m[0].0] + [];
    }
    assert At(JObject(m), ["to"]) == Some(JArray([JString(to)])) by {
      AtObject(m, 1, []);
      assert ["to"] == [m[1].0] + [];
    }
    assert At(JObject(m), ["subject"]) == Some(JString(subject)) by {
      AtObject(m, 2, []);
      assert ["subject"] == [m[2].0] + [];
    }
    assert At(JObject(m), ["html"]) == Some(JString(html)) by {
      AtObject(m, 3, []);
      assert ["html"] == [m[3].0] + [];
    }
  }

  /** The request of `send_email`. */
  function SendEmailRequest(cfg: Config, to: string, subject: string, html: string, fromEmail: Option<string>): (r: Request)
    ensures r.verb == Post && r.url == EmailsUrl && r.params == []
    ensures Header(r, "Authorization") == Some("Bearer " + cfg.apiKey)
    ensures Header(r, "Content-Type") == Some("application/json")
    ensures r.payload == Some(EmailPayload(to, subject, html, fromEmail))
  {
    var hs := [("Authorization", "Bearer " + cfg.apiKey), ("Content-Type", "application/json")];
    LookupAt(hs, 0);
    LookupAt(hs, 1);
    Request(Post, EmailsUrl, hs, [], Some(EmailPayload(to, subject, html, fromEmail)))
  }

  function SendEmail(cfg: Config, send: Request -> Transport, to: string, subject: string, html: string, fromEmail: Option<string>): (r: Invocation)
    ensures Normalised(Success(SendEmailRequest(cfg, to, subject, html, fromEmail)), send, 200, r)
  {
    Perform(Success(SendEmailRequest(cfg, to, subject, html, fromEmail)), send, 200)
  }

  /** Rejections such as 400, 401 and 429 are all returned as the error
      string; only 200 returns the decoded body. */
  lemma SendEmailRejection(cfg: Config, send: Request -> Transport, to: string, subject: string, html: string, fromEmail: Option<string>)
    requires var q := SendEmailRequest(cfg, to, subject, html, fromEmail);
      send(q).Delivered? && send(q).response.status != 200
    ensures var resp := send(SendEmailRequest(cfg, to, subject, html, fromEmail)).response;
      SendEmail(cfg, send, to, subject, html, fromEmail) == StringResult(ErrorMessage(resp.status, resp.text))
  {
  }
}
