/**
  The e-mail front end: `sendEmail` checks its options, picks the template, normalises the
  recipients into lists, hands the message to the provider and turns every outcome into a
  result value. The provider's answer, the configured environment and the clock are inputs.
 */
module Resend {
  import opened Wrappers
  import opened Strings
  import opened Js
  import T = EmailTemplates

  /** `string | string[]` */
  datatype Recipients = One(address: string) | Many(addresses: seq<string>)

  /** The React element sent: one built from a template, or one the caller made. */
  datatype Element = TemplateElement(email: T.Email) | CallerElement(handle: nat)

  /** The environment variables `sendEmail` reads; `None` is unset. */
  datatype Env = Env(fromEmail: Option<string>, fromName: Option<string>, replyTo: Option<string>)

  /** The options; `None` is a property left undefined. `attachments` and `tags` are passed
      on untouched. */
  datatype EmailOptions = EmailOptions(
    to: Option<Recipients>,
    subject: Option<string>,
    template: string,
    data: Option<map<string, Json>>,
    react: Option<Element>,
    cc: Option<Recipients>,
    bcc: Option<Recipients>,
    replyTo: Option<Recipients>,
    attachments: Option<Json>,
    tags: Option<Json>)

  /** What goes to the provider. */
  datatype ProviderRequest = ProviderRequest(
    from: string,
    to: seq<string>,
    subject: string,
    cc: Option<seq<string>>,
    bcc: Option<seq<string>>,
    replyTo: Option<seq<string>>,
    attachments: Option<Json>,
    tags: Option<Json>,
    react: Element)

  /** What the provider call did: answered with an error (whose message may be missing or
      empty) or with data (whose id may be missing), or threw (as it does when no API key is
      configured and the client is null). */
  datatype ProviderOutcome =
    | ProviderError(message: Option<string>)
    | ProviderData(id: Option<string>)
    | ProviderThrew(error: Thrown)

  /** `SendEmailResult`: `{data}` or `{error}`. */
  datatype SendResult =
    | Sent(id: string, from: string, to: Recipients, createdAt: string)
    | Failed(name: string, message: string)

  /** The result and the request handed to the provider, if one was. */
  datatype SendOutcome = SendOutcome(request: Option<ProviderRequest>, result: SendResult)

  const MissingFieldsMessage: string := "Email recipient (to) and subject are required"
  const MissingReactMessage: string := "Custom emails must provide an email template"

  function FromEmail(env: Env): string { OrElse(env.fromEmail, "noreply@example.com") }
  function FromName(env: Env): string { OrElse(env.fromName, "SaaS Platform") }

  /** `NAME <EMAIL>` */
  function FromHeader(env: Env): string
  {
    FromName(env) + " <" + FromEmail(env) + ">"
  }

  /** `RESEND_REPLY_TO || RESEND_FROM_EMAIL` */
  function DefaultReplyTo(env: Env): (r: Option<string>)
    ensures env.replyTo.Some? && env.replyTo.value != "" ==> r == env.replyTo
    ensures env.replyTo.None? || env.replyTo.value == "" ==> r == env.fromEmail
  {
    if env.replyTo.Some? && env.replyTo.value != "" then env.replyTo else env.fromEmail
  }

  /** Truthiness of a recipient value: a non-empty string, or any array (even an empty one). */
  predicate Present(r: Option<Recipients>)
  {
    r.Some? && (r.value.Many? || r.value.address != "")
  }

  /** `Array.isArray(r) ? r : [r]` */
  function ToList(r: Recipients): (list: seq<string>)
    ensures r.One? ==> list == [r.address]
    ensures r.Many? ==> list == r.addresses
  {
    match r
    case One(a) => [a]
    case Many(l) => l
  }

  /** `r ? (Array.isArray(r) ? r : [r]) : undefined` */
  function NormalizeOptional(r: Option<Recipients>): (list: Option<seq<string>>)
    ensures list.Some? <==> Present(r)
    ensures list.Some? ==> list.value == ToList(r.value)
  {
    if Present(r) then Some(ToList(r.value)) else None
  }

  /** The `catch`: an `Error` keeps its name and message; anything else is unknown. */
  function CaughtResult(e: Thrown): (r: SendResult)
    ensures r.Failed?
    ensures e.ErrorValue? ==> r == Failed(e.name, e.message)
    ensures !e.ErrorValue? ==> r == Failed("UnknownError", "Unknown error occurred")
  {
    if e.ErrorValue? then Failed(e.name, e.message) else Failed("UnknownError", "Unknown error occurred")
  }

  datatype Result<T> = Ok(value: T) | Err(error: Thrown)

  /** The element to send, or the `Error` thrown instead. */
  function ChooseElement(options: EmailOptions): (r: Result<Element>)
  {
    if options.template != T.TemplateId(T.Custom) then
      match T.GetEmailTemplate(options.template, if options.data.Some? then options.data.value else map[])
      case Rendered(email) => Ok(TemplateElement(email))
      case Unknown(error) => Err(error)
    else if options.react.None? then Err(NewError(MissingReactMessage))
    else Ok(options.react.value)
  }

  /** The request built from checked options. */
  function Request(options: EmailOptions, env: Env, react: Element): (req: ProviderRequest)
    requires Present(options.to) && options.subject.Some?
  {
    var replyTo := if options.replyTo.Some? then options.replyTo
                   else if DefaultReplyTo(env).Some? then Some(One(DefaultReplyTo(env).value)) else None;
    ProviderRequest(
      FromHeader(env),
      ToList(options.to.value),
      options.subject.value,
      NormalizeOptional(options.cc),
      NormalizeOptional(options.bcc),
      NormalizeOptional(replyTo),
      options.attachments,
      options.tags,
      react)
  }

  /** `sendEmail(options)`; `answer` is what the provider call gives for the request and `now`
      the ISO time stamp of the success reply. */
  function SendEmail(options: EmailOptions, env: Env, answer: ProviderOutcome, now: string): (r: SendOutcome)
    ensures r.request.None? ==> r.result.Failed?
    ensures r.result.Sent? ==> Present(options.to) && r.request.Some? && r.result.to == options.to.value && r.result.createdAt == now
  {
    if !Present(options.to) || options.subject.None? || options.subject.value == "" then
      SendOutcome(None, CaughtResult(NewError(MissingFieldsMessage)))
    else
      match ChooseElement(options)
      case Err(e) => SendOutcome(None, CaughtResult(e))
      case Ok(react) =>
        var req := Request(options, env, react);
        match answer
        case ProviderThrew(e) => SendOutcome(Some(req), CaughtResult(e))
        case ProviderError(message) => SendOutcome(Some(req), Failed("ResendError", OrElse(message, "Failed to send email")))
        case ProviderData(id) => SendOutcome(Some(req), Sent(OrElse(id, ""), FromHeader(env), options.to.value, now))
  }

  // ---------------------------------------------------------------------------------------
  // properties

  /** A missing or empty recipient or subject fails before anything is sent. */
  lemma MissingRecipientOrSubject(options: EmailOptions, env: Env, answer: ProviderOutcome, now: string)
    requires !Present(options.to) || options.subject.None? || options.subject.value == ""
    ensures SendEmail(options, env, answer, now) == SendOutcome(None, Failed("Error", MissingFieldsMessage))
  {
  }

  /** An empty array of recipients passes the check and is sent as it is. */
  lemma EmptyRecipientListPasses(options: EmailOptions, env: Env, answer: ProviderOutcome, now: string)
    requires options.to == Some(Many([])) && options.subject.Some? && options.subject.value != ""
    requires ChooseElement(options).Ok?
    ensures var r := SendEmail(options, env, answer, now);
      r.request.Some? && r.request.value.to == []
  {
  }

  /** For every template but "custom" the template's element is sent, whatever `react` the
      caller gave; an unknown template fails with its name in the message, before sending. */
  lemma TemplateReplacesReact(options: EmailOptions, env: Env, answer: ProviderOutcome, now: string)
    requires Present(options.to) && options.subject.Some? && options.subject.value != ""
    requires options.template != "custom"
    ensures var data := if options.data.Some? then options.data.value else map[];
      var r := SendEmail(options, env, answer, now);
      match T.GetEmailTemplate(options.template, data)
      case Rendered(email) => r.request.Some? && r.request.value.react == TemplateElement(email)
      case Unknown(_) => r == SendOutcome(None, Failed("Error", "Unknown email template: " + options.template))
  {
  }

  /** "subscription-cancelled" is a member of the enumeration but has no template. */
  lemma SubscriptionCancelledFails(options: EmailOptions, env: Env, answer: ProviderOutcome, now: string)
    requires Present(options.to) && options.subject.Some? && options.subject.value != ""
    requires options.template == T.TemplateId(T.SubscriptionCancelled)
    ensures SendEmail(options, env, answer, now)
         == SendOutcome(None, Failed("Error", "Unknown email template: subscription-cancelled"))
  {
    var data := if options.data.Some? then options.data.value else map[];
    T.UndispatchedMembers(data);
    assert |options.template| != |T.TemplateId(T.Custom)|;
    assert ChooseElement(options) == Err(NewError("Unknown email template: subscription-cancelled"));
  }

  /** A custom e-mail needs its own element. */
  lemma CustomNeedsReact(options: EmailOptions, env: Env, answer: ProviderOutcome, now: string)
    requires Present(options.to) && options.subject.Some? && options.subject.value != ""
    requires options.template == "custom"
    ensures options.react.None? ==>
      SendEmail(options, env, answer, now) == SendOutcome(None, Failed("Error", MissingReactMessage))
    ensures options.react.Some? ==>
      var r := SendEmail(options, env, answer, now);
      r.request.Some? && r.request.value.react == options.react.value
  {
  }

  /** The recipients reach the provider as lists: `to` always, `cc` and `bcc` when truthy,
      and `replyTo` falling back to the configured reply-to or sender address. */
  lemma RecipientsNormalised(options: EmailOptions, env: Env, answer: ProviderOutcome, now: string)
    requires SendEmail(options, env, answer, now).request.Some?
    ensures var req := SendEmail(options, env, answer, now).request.value;
      && req.to == ToList(options.to.value)
      && req.cc == NormalizeOptional(options.cc)
      && req.bcc == NormalizeOptional(options.bcc)
      && (options.replyTo.Some? ==> req.replyTo == NormalizeOptional(options.replyTo))
      && (options.replyTo.None? ==>
            req.replyTo == (if DefaultReplyTo(env).Some? && DefaultReplyTo(env).value != ""
                            then Some([DefaultReplyTo(env).value]) else None))
      && req.from == FromHeader(env)
  {
  }

  /** The provider's error comes back as a "ResendError" with its message, or the fixed text
      when it has none. */
  lemma ProviderErrorResult(options: EmailOptions, env: Env, message: Option<string>, now: string)
    requires SendEmail(options, env, ProviderError(message), now).request.Some?
    ensures SendEmail(options, env, ProviderError(message), now).result
         == Failed("ResendError", if message.Some? && message.value != "" then message.value else "Failed to send email")
  {
  }

  /** The request handed to the provider does not depend on its answer; when the provider
      call throws, an `Error` keeps its name and message and anything else is unknown. */
  lemma ProviderThrowCaught(options: EmailOptions, env: Env, e: Thrown, other: ProviderOutcome, now: string)
    requires SendEmail(options, env, ProviderThrew(e), now).request.Some?
    ensures SendEmail(options, env, ProviderThrew(e), now).request == SendEmail(options, env, other, now).request
    ensures e.ErrorValue? ==> SendEmail(options, env, ProviderThrew(e), now).result == Failed(e.name, e.message)
    ensures !e.ErrorValue? ==>
              SendEmail(options, env, ProviderThrew(e), now).result == Failed("UnknownError", "Unknown error occurred")
  {
  }

  /** On success the reply carries the provider's id (or ""), the sender header and the
      caller's own `to`, not the normalised list. */
  lemma SuccessResult(options: EmailOptions, env: Env, id: Option<string>, now: string)
    requires SendEmail(options, env, ProviderData(id), now).request.Some?
    ensures SendEmail(options, env, ProviderData(id), now).result
         == Sent(if id.Some? then id.value else "", FromHeader(env), options.to.value, now)
    ensures options.to.value.One? ==> SendEmail(options, env, ProviderData(id), now).result.to.One?
  {
  }

  /** With nothing configured the sender is the platform's placeholder address. */
  lemma DefaultSender(env: Env)
    requires env.fromEmail.None? && env.fromName.None?
    ensures FromHeader(env) == "SaaS Platform <noreply@example.com>"
  {
  }
}
