/**
  The closed set of API error kinds and the six tables that give each kind its category,
  severity, default message, user-facing message, recovery action and HTTP status.
  Every table is a total `match`, so a lookup can never miss.
 */
module ErrorKinds {
  import opened Wrappers

  datatype ErrorKind =
    | Unauthorized
    | Forbidden
    | NotFound
    | ValidationError
    | RateLimit
    | ServiceUnavailable
    | InternalServerError
    | SubscriptionRequired
    | BadRequest
    | AccountError
    | PaymentError
    | ResourceError
    | ApiError
    | OpenAiError
    | TwitterError
    | DatabaseError
    | SubscriptionError
    | ServerError

  datatype Severity = Error | Warning | Info

  datatype Category = Authentication | Authorization | Validation | System | External | Business | User

  /** The kind's name on the wire (the `type` field of an error envelope). */
  function KindName(k: ErrorKind): string
  {
    match k
    case Unauthorized => "UNAUTHORIZED"
    case Forbidden => "FORBIDDEN"
    case NotFound => "NOT_FOUND"
    case ValidationError => "VALIDATION_ERROR"
    case RateLimit => "RATE_LIMIT"
    case ServiceUnavailable => "SERVICE_UNAVAILABLE"
    case InternalServerError => "INTERNAL_SERVER_ERROR"
    case SubscriptionRequired => "SUBSCRIPTION_REQUIRED"
    case BadRequest => "BAD_REQUEST"
    case AccountError => "ACCOUNT_ERROR"
    case PaymentError => "PAYMENT_ERROR"
    case ResourceError => "RESOURCE_ERROR"
    case ApiError => "API_ERROR"
    case OpenAiError => "OPENAI_ERROR"
    case TwitterError => "TWITTER_ERROR"
    case DatabaseError => "DATABASE_ERROR"
    case SubscriptionError => "SUBSCRIPTION_ERROR"
    case ServerError => "SERVER_ERROR"
  }

  /** Reads a wire name back into a kind; `None` for any string outside the closed set. */
  function ParseKind(name: string): (r: Option<ErrorKind>)
    ensures r.Some? ==> KindName(r.value) == name
  {
    if name == "UNAUTHORIZED" then Some(Unauthorized)
    else if name == "FORBIDDEN" then Some(Forbidden)
    else if name == "NOT_FOUND" then Some(NotFound)
    else if name == "VALIDATION_ERROR" then Some(ValidationError)
    else if name == "RATE_LIMIT" then Some(RateLimit)
    else if name == "SERVICE_UNAVAILABLE" then Some(ServiceUnavailable)
    else if name == "INTERNAL_SERVER_ERROR" then Some(InternalServerError)
    else if name == "SUBSCRIPTION_REQUIRED" then Some(SubscriptionRequired)
    else if name == "BAD_REQUEST" then Some(BadRequest)
    else if name == "ACCOUNT_ERROR" then Some(AccountError)
    else if name == "PAYMENT_ERROR" then Some(PaymentError)
    else if name == "RESOURCE_ERROR" then Some(ResourceError)
    else if name == "API_ERROR" then Some(ApiError)
    else if name == "OPENAI_ERROR" then Some(OpenAiError)
    else if name == "TWITTER_ERROR" then Some(TwitterError)
    else if name == "DATABASE_ERROR" then Some(DatabaseError)
    else if name == "SUBSCRIPTION_ERROR" then Some(SubscriptionError)
    else if name == "SERVER_ERROR" then Some(ServerError)
    else None
  }

  /** Every kind survives the trip to the wire and back, so no two kinds share a name. */
  lemma KindNameRoundTrip(k: ErrorKind)
    ensures ParseKind(KindName(k)) == Some(k)
  {
    match k
    case Unauthorized | Forbidden | NotFound | ValidationError | RateLimit | ServiceUnavailable => RoundTripKinds1To6(k);
    case InternalServerError | SubscriptionRequired | BadRequest => RoundTripKinds7To9(k);
    case AccountError | PaymentError | ResourceError => RoundTripKinds10To12(k);
    case ApiError | OpenAiError | TwitterError => RoundTripKinds13To15(k);
    case DatabaseError | SubscriptionError | ServerError => RoundTripKinds16To18(k);
  }

  /** The round trip, a few kinds at a time, in the order `ParseKind` tries them. */
  lemma RoundTripKinds1To6(k: ErrorKind)
    requires k.Unauthorized? || k.Forbidden? || k.NotFound? || k.ValidationError? || k.RateLimit? || k.ServiceUnavailable?
    ensures ParseKind(KindName(k)) == Some(k)
  {
  }

  lemma RoundTripKinds7To9(k: ErrorKind)
    requires k.InternalServerError? || k.SubscriptionRequired? || k.BadRequest?
    ensures ParseKind(KindName(k)) == Some(k)
  {
  }

  lemma RoundTripKinds10To12(k: ErrorKind)
    requires k.AccountError? || k.PaymentError? || k.ResourceError?
    ensures ParseKind(KindName(k)) == Some(k)
  {
  }

  lemma RoundTripKinds13To15(k: ErrorKind)
    requires k.ApiError? || k.OpenAiError? || k.TwitterError?
    ensures ParseKind(KindName(k)) == Some(k)
  {
  }

  lemma RoundTripKinds16To18(k: ErrorKind)
    requires k.DatabaseError? || k.SubscriptionError? || k.ServerError?
    ensures ParseKind(KindName(k)) == Some(k)
  {
  }

  lemma KindNameInjective(k1: ErrorKind, k2: ErrorKind)
    requires KindName(k1) == KindName(k2)
    ensures k1 == k2
  {
    KindNameRoundTrip(k1);
    KindNameRoundTrip(k2);
  }

  function CategoryName(c: Category): string
  {
    match c
    case Authentication => "authentication"
    case Authorization => "authorization"
    case Validation => "validation"
    case System => "system"
    case External => "external"
    case Business => "business"
    case User => "user"
  }

  function SeverityName(s: Severity): string
  {
    match s
    case Error => "error"
    case Warning => "warning"
    case Info => "info"
  }

  /** ERROR_CATEGORIES */
  function CategoryOf(k: ErrorKind): Category
  {
    match k
    case Unauthorized => Authentication
    case Forbidden => Authorization
    case NotFound => System
    case ValidationError => Validation
    case RateLimit => System
    case ServiceUnavailable => System
    case InternalServerError => System
    case SubscriptionRequired => System
    case BadRequest => Validation
    case AccountError => User
    case PaymentError => Business
    case ResourceError => System
    case ApiError => System
    case OpenAiError => External
    case TwitterError => External
    case DatabaseError => System
    case SubscriptionError => Business
    case ServerError => System
  }

  /** ERROR_SEVERITY */
  function SeverityOf(k: ErrorKind): Severity
  {
    match k
    case Unauthorized => Warning
    case Forbidden => Warning
    case NotFound => Warning
    case ValidationError => Warning
    case RateLimit => Warning
    case ServiceUnavailable => Error
    case InternalServerError => Error
    case BadRequest => Warning
    case AccountError => Warning
    case PaymentError => Error
    case ResourceError => Warning
    case ApiError => Error
    case OpenAiError => Error
    case TwitterError => Error
    case DatabaseError => Error
    case SubscriptionError => Warning
    case ServerError => Error
    case SubscriptionRequired => Warning
  }

  /** ERROR_MESSAGES */
  function DefaultMessage(k: ErrorKind): string
  {
    match k
    case Unauthorized => "Please sign in to access this resource."
    case Forbidden => "You don't have permission to access this resource."
    case NotFound => "The requested resource was not found."
    case ValidationError => "Please check your input and try again."
    case RateLimit => "You've reached the rate limit. Please try again later."
    case ServiceUnavailable => "Service is temporarily unavailable. Please try again later."
    case InternalServerError => "Something went wrong on our end. Our team has been notified."
    case BadRequest => "Invalid request. Please check your input and try again."
    case AccountError => "There was an issue with your account. Please check your account settings."
    case PaymentError => "There was an issue processing your payment. Please check your payment method."
    case ResourceError => "The resource you're trying to access is unavailable."
    case ApiError => "There was an issue with the API. Please try again later."
    case OpenAiError => "There was an issue with the AI service. Please try again later."
    case TwitterError => "There was an issue connecting to X/Twitter. Please check your credentials."
    case DatabaseError => "There was an issue accessing the database. Please try again later."
    case SubscriptionError => "There was an issue with your subscription. Please check your subscription status."
    case SubscriptionRequired => "You need to be signed in to use this feature. Please sign in and try again."
    case ServerError => "An unexpected error occurred while processing your request."
  }

  /** USER_FRIENDLY_MESSAGES */
  function UserMessage(k: ErrorKind): string
  {
    match k
    case Unauthorized => "You need to be signed in to use this feature. Please sign in and try again."
    case Forbidden => "You don't have access to this feature. This might be due to your current subscription plan."
    case NotFound => "We couldn't find what you're looking for. It might have been moved or deleted."
    case ValidationError => "Some of the information you provided isn't valid. Please review your input and try again."
    case RateLimit => "You've reached your usage limit. Please try again later or upgrade your plan for higher limits."
    case ServiceUnavailable => "Our service is temporarily down for maintenance. Please try again in a few minutes."
    case InternalServerError => "We encountered an unexpected error. Our team has been notified and is working on it."
    case BadRequest => "Your request couldn't be processed. Please check your input and try again."
    case AccountError => "There's an issue with your account settings. Please update your profile information."
    case PaymentError => "We couldn't process your payment. Please check your payment method or try a different one."
    case ResourceError => "The resource you're trying to use is currently unavailable. Please try again later."
    case ApiError => "We're having trouble connecting to one of our services. Please try again in a few minutes."
    case OpenAiError => "Our AI service is experiencing issues. Your request is saved and we'll process it once service is restored."
    case TwitterError => "We couldn't connect to X/Twitter. Please check your API credentials in your profile settings."
    case DatabaseError => "We're having database connectivity issues. Your work has been saved and we'll complete your request soon."
    case SubscriptionError => "There's an issue with your subscription. Please check your subscription status in your profile."
    case SubscriptionRequired => "You need to be signed in to use this feature. Please sign in and try again."
    case ServerError => "An unexpected error occurred while processing your request. Please try again later or contact support."
  }

  /** RECOVERY_ACTIONS */
  function RecoveryAction(k: ErrorKind): string
  {
    match k
    case Unauthorized => "Sign in to continue"
    case Forbidden => "Check your subscription plan"
    case NotFound => "Go back to dashboard"
    case ValidationError => "Edit your input"
    case RateLimit => "Try again later or upgrade plan"
    case ServiceUnavailable => "Try again later"
    case InternalServerError => "Contact support if the issue persists"
    case BadRequest => "Review your request details"
    case AccountError => "Update your account settings"
    case PaymentError => "Update payment method"
    case ResourceError => "Try again later"
    case ApiError => "Try again later"
    case OpenAiError => "Try again later"
    case TwitterError => "Update X/Twitter credentials"
    case DatabaseError => "Try again later"
    case SubscriptionError => "Check subscription status"
    case ServerError => "Try again later or contact support"
    case SubscriptionRequired => "Sign in to continue"
  }

  /** STATUS_CODES */
  function StatusCode(k: ErrorKind): int
  {
    match k
    case Unauthorized => 401
    case Forbidden => 403
    case NotFound => 404
    case ValidationError => 422
    case RateLimit => 429
    case ServiceUnavailable => 503
    case InternalServerError => 500
    case BadRequest => 400
    case AccountError => 400
    case PaymentError => 400
    case ResourceError => 404
    case ApiError => 500
    case OpenAiError => 502
    case TwitterError => 502
    case DatabaseError => 500
    case SubscriptionError => 402
    case ServerError => 500
    case SubscriptionRequired => 402
  }

  /** The kinds `apiError` logs as server errors. */
  predicate IsLoggedServerError(k: ErrorKind)
  {
    k == InternalServerError || k == DatabaseError || k == OpenAiError || k == ApiError
  }

  /** RATE_LIMIT is the only kind answered with 429. */
  lemma OnlyRateLimitIs429(k: ErrorKind)
    ensures StatusCode(k) == 429 <==> k == RateLimit
  {
  }

  /** Every status in the table is an HTTP error status (4xx or 5xx), and every kind with a
      5xx status, the four kinds logged as server errors among them, has severity `error`. */
  lemma TablesWellFormed(k: ErrorKind)
    ensures 400 <= StatusCode(k) <= 599
    ensures IsLoggedServerError(k) ==> StatusCode(k) >= 500
    ensures StatusCode(k) >= 500 ==> SeverityOf(k) == Error
  {
  }
}
