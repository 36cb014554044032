/**
 The unsigned `send-email` variant: parse the JSON payload (no signature
 check), build the same confirm link, post one message to the provider's
 HTTP API, and map its reply to a response.
 */
module SendEmail {
  import opened Common
  import opened Http
  import VerifyLink
  import ConfirmationEmail

  /** The provider's reply: its `ok` flag and the `message` of its JSON body,
      or the message of an exception from `fetch` or `json()`. */
  datatype ProviderReply = Reply(ok: bool, message: Option<string>) | Failed(thrown: string)

  const SendFailed: string := "Failed to send email"

  /** `${Deno.env.get("SUPABASE_URL")}`: with no default, a missing variable
      prints as `undefined`. */
  function BaseUrl(supabaseUrl: Option<string>): string {
    supabaseUrl.GetOr("undefined")
  }

  /** The link, same template as the signed hook but a different base. */
  function ConfirmLink(supabaseUrl: Option<string>, d: ConfirmationEmail.EmailData): (link: string)
    ensures supabaseUrl.None? ==> "undefined" + VerifyLink.VerifyPath <= link
    ensures supabaseUrl.Some? ==> link == ConfirmationEmail.ConfirmLink(supabaseUrl, d)
  {
    VerifyLink.Build(BaseUrl(supabaseUrl),
                     VerifyLink.LinkParams(d.tokenHash, d.emailActionType, d.redirectTo))
  }

  /** The message of a non-ok reply: the provider's, or a fixed one when it
      is missing or empty. */
  function FailureMessage(message: Option<string>): (m: string)
    ensures Truthy(message) ==> m == message.value
    ensures !Truthy(message) ==> m == SendFailed
    ensures m != ""
  {
    OrElse(message, SendFailed)
  }

  /** The handler. `payload` is the parsed body, or the message of the
      exception parsing or destructuring it throws. */
  function Handle(verb: string, payload: Result<ConfirmationEmail.HookPayload>,
                  supabaseUrl: Option<string>, reply: ProviderReply): (o: ConfirmationEmail.Outcome)
    ensures CarriesCors(o.response)
    ensures verb == OptionsMethod ==> o.response == Preflight() && o.sent.None?
    ensures o.sent.Some? <==> verb != OptionsMethod && payload.Ok?
    ensures verb != OptionsMethod && payload.Err? ==>
              o.response == JsonResponse(500, ErrorJson(payload.message))
    ensures o.sent.Some? ==>
              && o.sent.value.to == [payload.value.userEmail]
              && o.sent.value.link == ConfirmLink(supabaseUrl, payload.value.emailData)
    ensures o.sent.Some? && reply.Reply? && !reply.ok ==>
              o.response == JsonResponse(500, ErrorJson(FailureMessage(reply.message)))
    ensures o.sent.Some? && reply.Failed? ==> o.response == JsonResponse(500, ErrorJson(reply.thrown))
    ensures o.response.status == 200 <==>
              verb == OptionsMethod || (o.sent.Some? && reply.Reply? && reply.ok)
    ensures o.response.status == 200 && verb != OptionsMethod ==> o.response.body == SuccessJson(None)
  {
    if verb == OptionsMethod then ConfirmationEmail.Outcome(Preflight(), None)
    else match payload
      case Err(msg) => ConfirmationEmail.Outcome(JsonResponse(500, ErrorJson(msg)), None)
      case Ok(p) =>
        var email := ConfirmationEmail.Email(ConfirmationEmail.Sender, [p.userEmail],
                                             ConfirmationEmail.Subject,
                                             ConfirmLink(supabaseUrl, p.emailData));
        var response :=
          match reply
          case Failed(msg) => JsonResponse(500, ErrorJson(msg))
          case Reply(ok, message) =>
            if ok then JsonResponse(200, SuccessJson(None))
            else JsonResponse(500, ErrorJson(FailureMessage(message)));
        ConfirmationEmail.Outcome(response, Some(email))
  }

  /** The two variants differ in the link only when `SUPABASE_URL` is unset:
      the signed hook then uses an empty base, this one the text `undefined`. */
  lemma UnsetBaseDiffers(d: ConfirmationEmail.EmailData)
    ensures ConfirmLink(None, d) != ConfirmationEmail.ConfirmLink(None, d)
    ensures ConfirmLink(None, d) == "undefined" + ConfirmationEmail.ConfirmLink(None, d)
  {
    var p := VerifyLink.LinkParams(d.tokenHash, d.emailActionType, d.redirectTo);
    VerifyLink.BuildPrefix("undefined", "", p);
    assert "undefined" + "" == "undefined";
  }
}
