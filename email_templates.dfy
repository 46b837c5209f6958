/**
  The e-mail templates: the template names, the dispatch from a name to its template, and
  the parts of the templates that depend on the data (the welcome heading and login link,
  the receipt's card line, the call-to-action link of each template). The markup and styles
  are not modelled; a rendered e-mail is the template chosen plus the props it receives.
 */
module EmailTemplates {
  import opened Wrappers
  import opened Strings
  import opened Js

  /** The `EmailTemplate` enumeration. */
  datatype TemplateName =
    | Welcome
    | EmailVerification
    | PasswordReset
    | SubscriptionConfirmation
    | PaymentReceipt
    | SubscriptionCancelled
    | OrganizationInvite
    | Custom

  /** The string value of each enumeration member. */
  function TemplateId(t: TemplateName): string
  {
    match t
    case Welcome => "welcome"
    case EmailVerification => "email-verification"
    case PasswordReset => "password-reset"
    case SubscriptionConfirmation => "subscription-confirmation"
    case PaymentReceipt => "payment-receipt"
    case SubscriptionCancelled => "subscription-cancelled"
    case OrganizationInvite => "organization-invite"
    case Custom => "custom"
  }

  /** The template components. */
  datatype Component =
    | WelcomeEmail
    | VerificationEmail
    | PasswordResetEmail
    | SubscriptionConfirmationEmail
    | PaymentReceiptEmail
    | OrganizationInviteEmail

  /** A React element for one of the templates, with the props spread into it. */
  datatype Email = Email(component: Component, props: map<string, Json>)

  /** `getEmailTemplate` either returns an element or throws an `Error`. */
  datatype Dispatch = Rendered(email: Email) | Unknown(error: Thrown)

  const DefaultOrganization: string := "Our Platform"
  const LocalAppUrl: string := "http://localhost:3000"

  /** The component a template id selects, if any. */
  function ComponentFor(template: string): (c: Option<Component>)
    ensures c.Some? <==> template in {"welcome", "email-verification", "password-reset",
                                     "subscription-confirmation", "payment-receipt", "organization-invite"}
  {
    if template == "welcome" then Some(WelcomeEmail)
    else if template == "email-verification" then Some(VerificationEmail)
    else if template == "password-reset" then Some(PasswordResetEmail)
    else if template == "subscription-confirmation" then Some(SubscriptionConfirmationEmail)
    else if template == "payment-receipt" then Some(PaymentReceiptEmail)
    else if template == "organization-invite" then Some(OrganizationInviteEmail)
    else None
  }

  /** `getEmailTemplate(template, data)` */
  function GetEmailTemplate(template: string, data: map<string, Json>): (r: Dispatch)
    ensures r.Rendered? <==> ComponentFor(template).Some?
    ensures r.Rendered? ==> r.email == Email(ComponentFor(template).value, data)
    ensures r.Unknown? ==> r.error == NewError("Unknown email template: " + template)
  {
    match ComponentFor(template)
    case Some(c) => Rendered(Email(c, data))
    case None => Unknown(NewError("Unknown email template: " + template))
  }

  /** Each template name selects its own component; two different names never select the same
      one, and the data reaches it unchanged. */
  lemma DispatchInjective(a: TemplateName, b: TemplateName, data: map<string, Json>)
    requires a !in {SubscriptionCancelled, Custom} && b !in {SubscriptionCancelled, Custom}
    ensures GetEmailTemplate(TemplateId(a), data).Rendered?
    ensures GetEmailTemplate(TemplateId(a), data).email.props == data
    ensures a != b ==> GetEmailTemplate(TemplateId(a), data).email.component
                       != GetEmailTemplate(TemplateId(b), data).email.component
  {
  }

  /** Two members of the enumeration have no template: "subscription-cancelled" and "custom"
      are refused like any unknown name. */
  lemma UndispatchedMembers(data: map<string, Json>)
    ensures GetEmailTemplate(TemplateId(SubscriptionCancelled), data)
         == Unknown(NewError("Unknown email template: subscription-cancelled"))
    ensures GetEmailTemplate(TemplateId(Custom), data) == Unknown(NewError("Unknown email template: custom"))
  {
    NoComponentByLength(TemplateId(SubscriptionCancelled));
    NoComponentByLength(TemplateId(Custom));
  }

  /** The six dispatched names have lengths 7, 18, 14, 25, 15 and 19: a name of any other
      length selects no component. */
  lemma NoComponentByLength(template: string)
    requires |template| !in {7, 18, 14, 25, 15, 19}
    ensures ComponentFor(template).None?
  {
  }

  // ---------------------------------------------------------------------------------------
  // data-dependent parts of the templates

  /** What React renders for a prop used as text: strings as they are, numbers in decimal,
      and nothing for `undefined`, `null` and booleans. */
  function RenderText(v: Option<Json>): (s: string)
    ensures v.None? ==> s == ""
    ensures v.Some? && v.value.JStr? ==> s == v.value.s
  {
    match v
    case None => ""
    case Some(JStr(s)) => s
    case Some(JNum(n)) => NumberString(n)
    case Some(JNaN) => "NaN"
    case Some(_) => ""
  }

  /** `process.env.NEXT_PUBLIC_APP_URL || 'http://localhost:3000'` */
  function AppUrlOrLocal(appUrl: Option<string>): (url: string)
    ensures url != ""
  {
    OrElse(appUrl, LocalAppUrl)
  }

  /** The welcome heading: the organisation's name, or "Our Platform" when it is falsy. */
  function WelcomeHeading(props: map<string, Json>): (heading: string)
    ensures StartsWith(heading, "Welcome to ") && heading[|heading| - 1] == '!'
    ensures "organizationName" !in props ==> StartsWith(heading, "Welcome to " + DefaultOrganization + ", ")
  {
    var organization := if "organizationName" in props && Truthy(props["organizationName"])
                        then RenderText(Some(props["organizationName"])) else DefaultOrganization;
    var firstName := if "firstName" in props then RenderText(Some(props["firstName"])) else "";
    "Welcome to " + organization + ", " + firstName + "!"
  }

  /** The welcome e-mail's login link: the `loginUrl` prop unless it is undefined, then the
      application URL unless it is empty or unset, then the local development server. */
  function WelcomeLoginUrl(props: map<string, Json>, appUrl: Option<string>): (url: Json)
    ensures "loginUrl" in props ==> url == props["loginUrl"]
    ensures "loginUrl" !in props ==> url == JStr(AppUrlOrLocal(appUrl))
  {
    if "loginUrl" in props then props["loginUrl"] else JStr(AppUrlOrLocal(appUrl))
  }

  const CardLinePrefix: string := "Payment method: Card ending in "

  /** `{last4 && <p>…</p>}`: the card line when `last4` is truthy, otherwise whatever the
      falsy value itself renders as (nothing for "" or an absent `last4`). */
  function ReceiptCardLine(props: map<string, Json>): (line: string)
    ensures line != "" ==> "last4" in props
    ensures "last4" in props && Truthy(props["last4"]) ==> StartsWith(line, CardLinePrefix)
  {
    var last4 := if "last4" in props then Some(props["last4"]) else None;
    if TruthyOpt(last4) then CardLinePrefix + RenderText(last4) else RenderText(last4)
  }

  /** The subscription e-mail's billing link as written: a template literal on the application
      URL, so an unset URL is spelled "undefined". */
  function BillingUrlAsWritten(appUrl: Option<string>): (url: string)
    ensures |url| >= 18 && url[|url| - 18..] == "/dashboard/billing"
    ensures appUrl.None? ==> StartsWith(url, "undefined")
    ensures appUrl.Some? ==> StartsWith(url, appUrl.value)
  {
    (if appUrl.Some? then appUrl.value else "undefined") + "/dashboard/billing"
  }

  /** The billing link with the same fallback the welcome e-mail uses. */
  function BillingUrl(appUrl: Option<string>): (url: string)
    ensures StartsWith(url, AppUrlOrLocal(appUrl))
    ensures url[|AppUrlOrLocal(appUrl)|..] == "/dashboard/billing"
  {
    AppUrlOrLocal(appUrl) + "/dashboard/billing"
  }

  /** The call-to-action link of each template, as written: the subscription e-mail uses the
      unguarded template literal. */
  function ButtonHref(email: Email, appUrl: Option<string>): (href: Option<Json>)
    ensures email.component == WelcomeEmail ==> href.Some?
    ensures email.component == SubscriptionConfirmationEmail ==> href.Some? && href.value.JStr?
  {
    match email.component
    case WelcomeEmail => Some(WelcomeLoginUrl(email.props, appUrl))
    case VerificationEmail => Get(JObj(email.props), "verificationUrl")
    case PasswordResetEmail => Get(JObj(email.props), "resetUrl")
    case SubscriptionConfirmationEmail => Some(JStr(BillingUrlAsWritten(appUrl)))
    case PaymentReceiptEmail => Get(JObj(email.props), "receiptUrl")
    case OrganizationInviteEmail => Get(JObj(email.props), "inviteUrl")
  }

  /** Without an organisation name, or with a falsy one (the `||` at the heading), the welcome
      heading names "Our Platform"; with a non-empty one it names it. */
  lemma WelcomeHeadingFallback(props: map<string, Json>, firstName: string, organization: string)
    requires "firstName" in props && props["firstName"] == JStr(firstName)
    ensures "organizationName" !in props || !Truthy(props["organizationName"]) ==>
              WelcomeHeading(props) == "Welcome to Our Platform, " + firstName + "!"
    ensures organization != "" && "organizationName" in props && props["organizationName"] == JStr(organization) ==>
              WelcomeHeading(props) == "Welcome to " + organization + ", " + firstName + "!"
  {
  }

  /** With neither a login link nor an application URL the welcome link is the local server. */
  lemma WelcomeLoginDefault(props: map<string, Json>)
    requires "loginUrl" !in props
    ensures WelcomeLoginUrl(props, None) == JStr("http://localhost:3000")
    ensures WelcomeLoginUrl(props, Some("")) == JStr("http://localhost:3000")
  {
  }

  /** The receipt shows the card line exactly when `last4` is a non-empty string, and then it
      ends with those digits. */
  lemma CardLineOnlyWithLast4(props: map<string, Json>, last4: string)
    ensures "last4" !in props ==> ReceiptCardLine(props) == ""
    ensures "last4" in props && props["last4"] == JStr(last4) ==>
      && (last4 == "" ==> ReceiptCardLine(props) == "")
      && (last4 != "" ==> ReceiptCardLine(props) == CardLinePrefix + last4)
  {
  }

  /** The billing link as written is broken when the application URL is unset, and agrees with
      the corrected one whenever the URL is set and non-empty. */
  lemma BillingUrlUnset()
    ensures BillingUrlAsWritten(None) == "undefined/dashboard/billing"
    ensures BillingUrl(None) == "http://localhost:3000/dashboard/billing"
    ensures BillingUrlAsWritten(None) != BillingUrl(None)
  {
    assert BillingUrlAsWritten(None)[0] != BillingUrl(None)[0];
  }

  /** Which inputs each button depends on: the four link props are used as given, so those
      buttons ignore the application URL; the welcome button ignores it once `loginUrl` is
      given; the billing button ignores the props. */
  lemma ButtonHrefInputs(email: Email, props: map<string, Json>, a1: Option<string>, a2: Option<string>)
    ensures email.component !in {WelcomeEmail, SubscriptionConfirmationEmail} ==>
              ButtonHref(email, a1) == ButtonHref(email, a2)
    ensures email.component == WelcomeEmail && "loginUrl" in email.props ==>
              ButtonHref(email, a1) == ButtonHref(email, a2) == Some(email.props["loginUrl"])
    ensures email.component == SubscriptionConfirmationEmail ==>
              ButtonHref(email, a1) == ButtonHref(Email(email.component, props), a1)
  {
  }

  /** With the application URL unset, the welcome button falls back to the local server while
      the billing button points at "undefined/dashboard/billing". */
  lemma ButtonsDisagreeWhenUnset(props: map<string, Json>)
    requires "loginUrl" !in props
    ensures ButtonHref(Email(WelcomeEmail, props), None) == Some(JStr("http://localhost:3000"))
    ensures ButtonHref(Email(SubscriptionConfirmationEmail, props), None) == Some(JStr("undefined/dashboard/billing"))
  {
    WelcomeLoginDefault(props);
    BillingUrlUnset();
  }

  /** The corrected billing link shares its base with the welcome e-mail's default login link,
      whatever the application URL is. */
  lemma BillingUrlSameBaseAsWelcome(appUrl: Option<string>)
    ensures var login := WelcomeLoginUrl(map[], appUrl);
      login.JStr? && BillingUrl(appUrl) == login.s + "/dashboard/billing"
  {
  }

  lemma BillingUrlWhenSet(appUrl: string)
    requires appUrl != ""
    ensures BillingUrl(Some(appUrl)) == BillingUrlAsWritten(Some(appUrl))
  {
  }
}
