/**
 The `send-confirmation-email` hook: verify the signed payload, build the
 confirm link, send one message to the user, and map the outcome to an HTTP
 response. Signature verification and the e-mail provider are inputs.
 */
module ConfirmationEmail {
  import opened Common
  import opened Http
  import VerifyLink

  datatype EmailData = EmailData(token: string, tokenHash: string, redirectTo: string,
                                 emailActionType: string)

  datatype HookPayload = HookPayload(userEmail: string, emailData: EmailData)

  /** The message handed to the provider; its HTML body is reduced to the
      link it carries. */
  datatype Email = Email(from: string, to: seq<string>, subject: string, link: string)

  datatype Outcome = Outcome(response: Response, sent: Option<Email>)

  const Sender: string := "FounderFlow <onboarding@resend.dev>"
  const Subject: string := "Confirm your email - FounderFlow"

  /** `Deno.env.get("SUPABASE_URL") ?? ""` */
  function BaseUrl(supabaseUrl: Option<string>): string {
    supabaseUrl.GetOr("")
  }

  /** The link for a payload: the verify endpoint of the base URL with the
      hash, action type and redirect pasted in. */
  function ConfirmLink(supabaseUrl: Option<string>, d: EmailData): (link: string)
    ensures supabaseUrl.None? ==> VerifyLink.VerifyPath <= link
    ensures '&' !in d.tokenHash && '&' !in d.emailActionType && '&' !in d.redirectTo ==>
              VerifyLink.Parse(BaseUrl(supabaseUrl), link)
                == Some(VerifyLink.LinkParams(d.tokenHash, d.emailActionType, d.redirectTo))
  {
    var p := VerifyLink.LinkParams(d.tokenHash, d.emailActionType, d.redirectTo);
    VerifyLink.BuildReadsBack(BaseUrl(supabaseUrl), p);
    VerifyLink.Build(BaseUrl(supabaseUrl), p)
  }

  /** The handler. `verified` is what `wh.verify(payload, headers)` returns
      or the message it throws; `sendError` is the provider's error. */
  function Handle(verb: string, verified: Result<HookPayload>, supabaseUrl: Option<string>,
                  sendError: Option<string>): (o: Outcome)
    ensures CarriesCors(o.response)
    ensures verb == OptionsMethod ==> o.response == Preflight() && o.sent.None?
    ensures verb != OptionsMethod && verified.Err? ==>
              o.sent.None? && o.response == JsonResponse(500, ErrorJson(verified.message))
    ensures o.sent.Some? <==> verb != OptionsMethod && verified.Ok?
    ensures o.sent.Some? ==>
              && o.sent.value.to == [verified.value.userEmail]
              && o.sent.value.link == ConfirmLink(supabaseUrl, verified.value.emailData)
    ensures o.sent.Some? && sendError.Some? ==> o.response == JsonResponse(500, ErrorJson(sendError.value))
    ensures o.sent.Some? && sendError.None? ==> o.response == JsonResponse(200, SuccessJson(None))
    ensures o.response.status == 200 <==> verb == OptionsMethod || (o.sent.Some? && sendError.None?)
  {
    if verb == OptionsMethod then Outcome(Preflight(), None)
    else match verified
      case Err(msg) => Outcome(JsonResponse(500, ErrorJson(msg)), None)
      case Ok(payload) =>
        var email := Email(Sender, [payload.userEmail], Subject,
                           ConfirmLink(supabaseUrl, payload.emailData));
        match sendError
        case Some(msg) => Outcome(JsonResponse(500, ErrorJson(msg)), Some(email))
        case None => Outcome(JsonResponse(200, SuccessJson(None)), Some(email))
  }
}
