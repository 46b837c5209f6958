# saas-starter-template core, in Dafny

This project models the parts of the saas-starter-template web application that are sequential logic rather than UI or SDK glue. Each part is modelled as plain values and functions over them, and properties are proved about the model.

- **Browser API client** (`Client`):
  - the module-level rate-limit observer list, a class whose methods append, remove and walk it;
  - one request attempt: rate-limit headers, HTTP 429 handling (section 4 of RFC 6585) with the `resetIn` write-back, envelope decoding, and exception normalisation;
  - the bounded exponential-backoff retry, modelled as a loop proved equal to the recursive definition.
- **Server response envelopes** (`ErrorKinds`, `Responses`):
  - the 18 error kinds and their six lookup tables;
  - `apiResponse`, `apiError` and `validationError`;
  - grouping of validation issues (`formatZodErrors`, a loop that fills a map);
  - the first-match classifier `mapErrorToType`;
  - the two fallback wrappers.
- **How client and server fit together** (`WireContract`): what the client makes of each envelope the server sends.
- **String helpers** (`Utils`): `getURL`, `estimateTokenCount`, `getInitials`.
- **Route guard** (`Middleware`): what the middleware does with a request, given the path, the session lookup and the headers.
- **SEO builders**:
  - `Metadata`: `absoluteUrl` and `generateMetadata`;
  - `JsonLd`: `createJsonLd`, including its spread-over-defaults semantics and its throws.
- **Product listing** (`Products`): the `GET /api/products` transform. Active prices are kept, sorted stably by amount and projected, and every failure maps to one 500 reply.
- **E-mail** (`Resend`, `EmailTemplates`):
  - `sendEmail`: validation, template choice, recipient normalisation, and results returned as values;
  - template dispatch;
  - the data-dependent fallbacks inside the templates.

JavaScript values are the datatype `Js.Json`, and `undefined` is `None` or an absent key. Thrown values are `Js.Thrown`.

Every foreign input becomes a parameter:
- `fetch` is an outcome per call;
- `Math.random()` jitter is a factor in [1, 2);
- trace ids are a parameter;
- the clock is a parameter;
- the database query result is a parameter;
- the Resend API's answer is a parameter;
- the session lookup is a parameter;
- environment variables are parameters.

## Model

| member | source | states |
|---|---|---|
| Client.RateLimitRegistry.constructor | src/lib/api/client.ts:21 | the observer list starts empty |
| Client.RateLimitRegistry.Subscribe | src/lib/api/client.ts:28-29 | `onRateLimit` appends the observer at the end and changes nothing else |
| Client.RateLimitRegistry.Unsubscribe | src/lib/api/client.ts:31-36 | the unsubscribe closure leaves exactly `RemoveFirst` of the old list: the first occurrence found by `indexOf` is cut out |
| Client.RemoveFirst | src/lib/api/client.ts:32-35 | removing shortens the list by one exactly when the observer is present |
| Client.RemoveFirstAt | src/lib/api/client.ts:32-35 | removing the first occurrence equals splicing out the first index holding it |
| Client.RemoveFirstAbsent | src/lib/api/client.ts:33 | unsubscribing an observer that is no longer registered changes nothing |
| Client.RemoveFirstKeepsOthers | src/lib/api/client.ts:34 | exactly one copy of the observer goes, and every other observer stays |
| Client.SubscribeThenUnsubscribe | src/lib/api/client.ts:28-37 | subscribe then unsubscribe restores the list when the observer was new; if it was already registered, the earliest copy goes and the new copy stays last |
| Client.IndexOf | src/lib/api/client.ts:32 | `indexOf` returns -1 iff the observer is absent, else the first index holding it |
| Client.RateLimitRegistry.Notify | src/lib/api/client.ts:43-51 | every registered observer is called once, in registration order, with the same event; a throwing observer is logged and the walk continues |
| Client.RateLimitRegistry.NotifyIfAny | src/lib/api/client.ts:169-176 | observers are notified only when the attempt produced an event |
| Client.BroadcastStep | src/lib/api/client.ts:169-176 | one more event adds exactly that event's calls at the end of all calls made |
| Client.RateLimitRegistry.Request | src/lib/api/client.ts:220-224 | a request settles exactly as `Run` says (retry or a single call), broadcasts the events of every attempt made, and delivers each to every observer |
| Client.RateLimitRegistry.Attempts | src/lib/api/client.ts:82-112 | the retry loop produces the settlement, call count and waits of the recursive `retryWithBackoff`, with every attempt's event broadcast |
| Client.ResetInDefault | src/lib/api/client.ts:183 | with no usable body value and no Retry-After, the reset time is 60 |
| Client.ResetInFromRetryAfter | src/lib/api/client.ts:183 | a delay-seconds Retry-After (section 10.2.3 of RFC 9110) is taken as the reset time |
| Client.RateLimitEventRoundTrip | src/lib/api/client.ts:163-176 | headers carrying the limit, remaining and reset counts as decimal numerals produce an event with exactly those counts for the endpoint |
| Client.WithResetIn | src/lib/api/client.ts:185-187 | `resetIn` is written into `error` only when `error` is truthy; the body is unchanged otherwise; the write throws exactly on a truthy primitive `error` |
| Client.EventIndependentOfStatus | src/lib/api/client.ts:163-178 | the event is emitted before the status is checked, so a failing response notifies exactly as a successful one does |
| Client.RateLimitedAttempt | src/lib/api/client.ts:181-196 | a 429 with an `error` object rejects with the body, its `error.resetIn` overwritten; the toast shows only without retry |
| Client.RateLimitTypeOn429Retried | src/lib/api/client.ts:94-97 | a 429 whose `error` object has `type` RATE_LIMIT is retried, whatever `resetIn` the write-back puts there |
| Client.FailedResponseKeepsBody | src/lib/api/client.ts:198 | a non-2xx, non-429 response rejects with the raw body, not with a normalised Error |
| Client.PrimitiveErrorOn429 | src/lib/api/client.ts:186 | a 429 whose `error` is a truthy primitive makes the write-back throw a TypeError, which is caught and normalised |
| Client.StringErrorOn429Retried | src/lib/api/client.ts:186 | if that primitive is a string mentioning "rate limit", the TypeError quotes it, so the attempt is still retried |
| Client.PrimitiveWriteQuotes | src/lib/api/client.ts:186 | the TypeError text for a string `error` contains every substring of that string |
| Client.RetryShape | src/lib/api/client.ts:82-112 | a run makes between 1 and retries+1 calls with one wait fewer; it ends with the last call's result unchanged; it stops early only on a non-retryable result |
| Client.RetryOnlyRateLimits | src/lib/api/client.ts:90-100 | every call before the last failed with a rate-limit failure |
| Client.RetryWaits | src/lib/api/client.ts:101-107 | the k-th wait is the initial delay doubled k times, times that wait's jitter |
| Client.WaitsCons | src/lib/api/client.ts:101-107 | putting the first wait in front of the waits of a run that starts at double the delay keeps every wait at its doubled delay times its jitter |
| Client.RequestBounds | src/lib/api/client.ts:8-11 | with retry, at most 4 calls, and the waits are 1000, 2000 and 4000 ms times jitter, each in [nominal, 2 × nominal) |
| Client.NonRateLimitFailureNotRetried | src/lib/api/client.ts:110 | a failure that is not a rate limit is passed on after exactly one call |
| Client.ThreeRateLimitsThenSuccess | src/lib/api/client.ts:82-112 | three rate-limit failures then a success resolve with the fourth call's result after three waits |
| Client.RetriesExhausted | src/lib/api/client.ts:110 | four rate-limit failures: the fourth failure propagates unchanged |
| Client.NetworkErrorNotRetried | src/lib/api/client.ts:124-127 | a failed fetch rejects with the network-error message, and it is never retried |
| Client.ThrownRateLimitRetried | src/lib/api/client.ts:119-138 | a thrown Error whose message mentions "rate limit" keeps its message through normalisation, so the attempt is retried |
| ErrorKinds.ParseKind | src/lib/api/responses.ts:3-21 | reading a wire name back gives a kind whose name is that string |
| ErrorKinds.KindNameRoundTrip | src/lib/api/responses.ts:3-21 | every kind survives the trip to its wire name and back |
| ErrorKinds.KindNameInjective | src/lib/api/responses.ts:3-21 | no two kinds share a wire name |
| ErrorKinds.TablesWellFormed | src/lib/api/responses.ts:161-180 | every status is 4xx or 5xx; the kinds logged as server errors have 5xx statuses; every 5xx kind has severity `error` |
| ErrorKinds.OnlyRateLimitIs429 | src/lib/api/responses.ts:161-180 | RATE_LIMIT is the only kind answered with 429 |
| Responses.FailureJsonShape | src/lib/api/responses.ts:248-260 | on the wire an error envelope has `success: false` and names its kind in `error.type` |
| Responses.ValidationErrorShape | src/lib/api/responses.ts:274-279 | a 422 VALIDATION_ERROR with the given (or standard) message, whose details hold exactly the errors |
| Responses.FormatZodErrors | src/lib/api/responses.ts:286-304 | throws iff some issue's joined path names an inherited `Object.prototype` member; otherwise the keys are exactly the joined paths, each holding its messages in input order; no `errors` gives an empty record |
| Responses.GroupStep | src/lib/api/responses.ts:292-300 | filing one more issue into a grouping of the earlier issues gives the grouping of all of them |
| Responses.FormatZodErrorsThrowsOnConstructor | src/lib/api/responses.ts:295-299 | an issue at path "constructor" makes the grouping throw, whatever the other issues are |
| Responses.MessagesFor | src/lib/api/responses.ts:296-300 | a key never holds more messages than there are issues |
| Responses.PathKeysAre | src/lib/api/responses.ts:293 | a key is grouped iff some issue's joined path equals it |
| Responses.MessagesForAbsent | src/lib/api/responses.ts:295-297 | a path no issue has gets no messages |
| Responses.PathKeysDistinct | src/lib/api/responses.ts:289 | each key appears once in the record |
| Responses.MessageCountPreserved | src/lib/api/responses.ts:286-304 | grouping neither loses nor invents messages: the groups hold as many messages as there were issues |
| Responses.FirstMatch | src/lib/api/responses.ts:311-352 | the result is the fallback or the kind of a rule that matches |
| Responses.MapErrorToTypeIsFirstMatch | src/lib/api/responses.ts:311-352 | the classifier is the ordered rule table read top to bottom; the first match wins; non-Errors and no match give INTERNAL_SERVER_ERROR |
| Responses.MapErrorToTypeRateLimit | src/lib/api/responses.ts:330-332 | RATE_LIMIT iff an Error's message contains "rate limit" and no earlier rule matches |
| Responses.HandleApiErrorFalsyFallback | src/lib/api/responses.ts:402-404 | a falsy fallback (null, 0, false, "") still wins over the error |
| Responses.EmptyMessageDiffers | src/lib/api/responses.ts:384 | on an Error with an empty message the handler wrapper uses the default message, while `handleApiError` keeps the empty one |
| Js.OnWire | src/lib/api/responses.ts:207-209 | after `JSON.stringify` and parsing, a value holds no NaN, and a value without NaN comes back unchanged |
| WireContract.SuccessEnvelopeResolves | src/lib/api/client.ts:201-214 | a success envelope sent with a 2xx status resolves to its payload as JSON text carries it (a NaN read back as null), exactly the payload when it holds no NaN |
| WireContract.ApiResponseResolves | src/lib/api/responses.ts:207-209 | `apiResponse` reaches the client as the bare payload after the JSON text step, unchanged when it holds no NaN |
| WireContract.FailureNaNOnlyInDetails | src/lib/api/responses.ts:247-259 | an error envelope holds a NaN iff its `details` do: every other field is a string or a boolean |
| WireContract.FailureOnWireShape | src/lib/api/responses.ts:247-264 | after the JSON text step an error envelope still has a false `success` and names its kind in `error.type` |
| WireContract.FailureEnvelopeRejectsAt2xx | src/lib/api/client.ts:203-207 | an error envelope sent with a 2xx status is rejected with the envelope as JSON text carries it; that is the envelope itself when its details hold no NaN |
| WireContract.ApiErrorRejectsWithEnvelope | src/lib/api/responses.ts:264 | every non-RATE_LIMIT `apiError` reply is rejected by the client with the envelope as JSON text carries it (unchanged when the details hold no NaN), whose `error.type` names the kind |
| WireContract.FailureEnvelopeRejectsAsError | src/lib/api/client.ts:198 | an error envelope sent with an error status other than 429 is rejected with the envelope as JSON text carries it (the envelope itself when its details hold no NaN), whose `error.type` names the kind |
| WireContract.RateLimitReplyRetried | src/lib/api/responses.ts:264 | a RATE_LIMIT `apiError` is a 429 that the client retries after writing back `resetIn` |
| WireContract.FailureEnvelopeRetriedOn429 | src/lib/api/client.ts:181-197 | an error envelope of kind RATE_LIMIT sent with 429 is retried |
| WireContract.HandlerThrowReachesClient | src/lib/api/responses.ts:359-388 | a throw inside `withErrorHandling` reaches the client through JSON text as the classified kind: RATE_LIMIT is retried, any other kind is rejected with the envelope it received, whose `error.type` names the kind |
| WireContract.ClassifiersAgree | src/lib/api/client.ts:92 | an Error the server classifies as RATE_LIMIT is one the client's retry test accepts |
| Strings.ParseIntDecimal | src/lib/api/client.ts:172-174 | `parseInt` of a decimal numeral followed by anything that is not a digit gives its value |
| Strings.ParseIntNoDigits | src/lib/api/client.ts:183 | `parseInt` of text that starts (after white space) with neither a sign nor a digit, such as an HTTP-date Retry-After, is NaN |
| Utils.StripTrailingSlashes | src/lib/utils.ts:66 | removes exactly the run of trailing "/", leaving a prefix that does not end in "/" |
| Utils.StripLeadingSlashes | src/lib/utils.ts:70 | removes exactly the run of leading "/", leaving a suffix that does not start with "/" |
| Utils.LeadingSlashesIrrelevant | src/lib/utils.ts:70 | `getURL("/x")` equals `getURL("x")`, so any number of leading slashes is irrelevant |
| Utils.BaseShape | src/lib/utils.ts:66-68 | the base always contains "http" and never ends in "/" (unless it is just "https://") |
| Utils.LocalDefault | src/lib/utils.ts:63 | with nothing configured the base is "http://localhost:3000" |
| Utils.ConfiguredSite | src/lib/utils.ts:73 | a configured http(s) site URL without a trailing slash is used verbatim, with the path after one "/" |
| Utils.DashboardExample | src/lib/utils.ts:47-52 | `getURL('dashboard')` gives "https://threadrize.com/dashboard" for that site URL |
| Utils.Utf16Length | src/lib/utils.ts:95 | `length` counts UTF-16 units: between one and two per character |
| Utils.EstimateTokenCount | src/lib/utils.ts:93-96 | the estimate r is the ceiling of length/4: 4r-3 ≤ length ≤ 4r, and r = 0 iff the text is empty |
| Utils.EstimateMonotone | src/lib/utils.ts:93-96 | a longer text never gets a smaller estimate |
| Utils.SplitSpaces | src/lib/utils.ts:100 | `split(' ')` gives at least one piece, none containing a space |
| Utils.SplitJoin | src/lib/utils.ts:100 | joining the pieces with single spaces gives the input back |
| Utils.FirstCharsAreWordStarts | src/lib/utils.ts:101-102 | the joined first characters of the pieces are exactly the characters that start words |
| Utils.InitialsOfWords | src/lib/utils.ts:98-105 | the initials are the first two upper-cased word starts; empty pieces contribute nothing |
| Utils.NoWordsNoInitials | src/lib/utils.ts:98-105 | the empty name, or spaces only, has no initials |
| Middleware.PublicPathsAre | middleware.ts:5-11 | a path is public iff it is "/" or starts with "//" |
| Middleware.BypassedPass | middleware.ts:14-19 | webhook and cron paths pass whatever the session and headers |
| Middleware.PublicPasses | middleware.ts:29 | a public path passes whatever the session lookup says |
| Middleware.UnauthenticatedApi | middleware.ts:35-38 | an unauthenticated protected API path gets 401 `{error: "Unauthorized"}` |
| Middleware.UnauthenticatedPage | middleware.ts:40-42 | an unauthenticated protected page redirects to /login with `redirectTo` set to the path |
| Middleware.AuthenticatedPasses | middleware.ts:55 | an authenticated request passes through |
| Middleware.CronCheckUnreachable | middleware.ts:46-53 | the cron bearer check (section 2.1 of RFC 6750) never fires, and every /api/cron/ request passes |
| Middleware.DecisionCases | middleware.ts:29-33 | the guard throws exactly when a protected path's session lookup throws |
| Metadata.GenerateMetadata | src/app/metadata.ts:64-124 | throws (no metadata) exactly when the text the URL parser reads, once trimmed, has no scheme, other parse failures aside; otherwise `metadataBase` is the site URL, canonical and Open Graph URL are the absolute path, the one image is the image URL sized 1200x630, and titles, template and description fall back to the site defaults |
| Metadata.UrlInputChars | src/app/metadata.ts:71 | the text `new URL` parses keeps only characters of the site URL, and no tab or line break |
| Metadata.UrlInputEnds | src/app/metadata.ts:71 | the text `new URL` parses starts and ends above U+0020 |
| Metadata.UrlInputClean | src/app/metadata.ts:71 | a site URL with no character at or below U+0020 is parsed as it is |
| Metadata.SurroundingWhitespaceIgnored | src/app/metadata.ts:71 | a leading space and a trailing line break around the site URL change nothing about whether metadata is produced |
| Metadata.RobotsFollowNoIndex | src/app/metadata.ts:90 | for a site URL `new URL` accepts, robots is "noindex, nofollow" iff noIndex, else "index, follow" |
| Metadata.ImageIsAbsolute | src/app/metadata.ts:71-72 | for a site URL `new URL` accepts, the image URL starts with "https" or with the site URL |
| Metadata.AllDefaults | src/app/metadata.ts:64-70 | for a site URL `new URL` accepts, with no arguments: the site root is canonical (site URL + "/"), robots is "index, follow", the title is empty, and the image is the site URL itself |
| Metadata.UnsetSiteThrows | src/app/metadata.ts:71 | with the app URL unset (the empty string), or any site URL without a colon, `new URL` throws and no metadata is produced |
| Metadata.SiteUrlOnlyPrefixesUrls | src/app/metadata.ts:64-124 | between two site URLs `new URL` accepts, changing the site URL changes no title, description, robots or template, and the canonical URL keeps the same path after it |
| JsonLd.Indexed | src/components/seo/JsonLd.tsx:44 | spreading an array yields at most one key per element |
| JsonLd.IndexedAt | src/components/seo/JsonLd.tsx:44 | spreading an array puts each element under its decimal index |
| JsonLd.CreateJsonLd | src/components/seo/JsonLd.tsx:26-115 | whatever throws is an Error |
| JsonLd.UnknownKindEmpty | src/components/seo/JsonLd.tsx:112-113 | an unknown type gives the empty object |
| JsonLd.BreadcrumbShape | src/components/seo/JsonLd.tsx:65-74 | throws iff `itemListElement` is falsy; otherwise exactly three keys, the caller's list among them |
| JsonLd.FaqShape | src/components/seo/JsonLd.tsx:76-85 | throws iff `mainEntity` is falsy; otherwise exactly three keys |
| JsonLd.ProductShape | src/components/seo/JsonLd.tsx:87-97 | throws iff name or description is falsy; otherwise it carries the caller's name and description |
| JsonLd.DataOverridesDefaults | src/components/seo/JsonLd.tsx:44 | for Organization, WebSite and Product, a key in the data overrides the default, other defaults stay, and no other key appears |
| JsonLd.OrganizationDefaults | src/components/seo/JsonLd.tsx:27-41 | without data: the default logo, no social links, an empty contact e-mail, and the site URL |
| JsonLd.EmptyLogoSurvives | src/components/seo/JsonLd.tsx:37 | a logo given as "" overrides the default logo through the spread |
| JsonLd.ProductDefaultOffer | src/components/seo/JsonLd.tsx:103-109 | the caller's `offers` when given; otherwise an in-stock Offer with exactly four keys, priced at the caller's truthy `price` (else "0") in the caller's truthy `currency` (else "USD") |
| JsonLd.ProductImageDefault | src/components/seo/JsonLd.tsx:98-109 | the caller's `image` when the data carries one, even a falsy one; otherwise the site's logo |
| JsonLd.OrganizationContactEmail | src/components/seo/JsonLd.tsx:38-44 | without a caller's `contactPoint`: a customer-service contact whose e-mail is the caller's truthy `email`, else "" |
| Products.Active | src/app/api/products/route.ts:32 | only active input prices are kept, each active price as often as in the input |
| Products.ActiveExactly | src/app/api/products/route.ts:32 | a price is kept iff it is in the input and `active` is truthy |
| Products.Insert | src/app/api/products/route.ts:33 | one insertion step adds exactly the one element |
| Products.SortByAmount | src/app/api/products/route.ts:33 | the sort is a permutation |
| Products.InsertSorted | src/app/api/products/route.ts:33 | inserting into a sorted list keeps it sorted |
| Products.InsertBounded | src/app/api/products/route.ts:33 | inserting keeps every amount under any bound the list and the new price respect |
| Products.InsertWithAmount | src/app/api/products/route.ts:33 | inserting puts the element last among those with its amount |
| Products.SortByAmountSorted | src/app/api/products/route.ts:33 | the sort orders prices by non-decreasing `unit_amount` |
| Products.SortByAmountStable | src/app/api/products/route.ts:33 | the sort is stable: prices with equal amounts keep their input order |
| Products.PriceJson | src/app/api/products/route.ts:34-44 | a listed price has exactly the nine keys of the source, each copied from the row (`unit_amount` as a number), and no `product_id` or `stripe_price_id` |
| Products.ProductJson | src/app/api/products/route.ts:30-56 | a product is listed iff its prices are an array; it has exactly the nine keys, copied from the row, and `prices` holds the listed prices in order |
| Products.FormatProducts | src/app/api/products/route.ts:30-57 | one listed product per row, same order and length; any product without a price array makes the whole map throw |
| Products.MapOrThrow | src/app/api/products/route.ts:30-57 | a map whose callback may throw succeeds iff every element succeeds, and then gives each element's result in place |
| Products.ListProducts | src/app/api/products/route.ts:12-64 | the reply is the fixed INTERNAL_SERVER_ERROR "Error fetching products" iff the query errs, returns null data (`data` is null) or a product without a price array; otherwise a 200 success with the formatted products |
| Products.ListedPricesSpec | src/app/api/products/route.ts:31-33 | each product's listed prices are exactly its active prices, sorted by amount and stable |
| Products.FailureReply | src/app/api/products/route.ts:25-62 | a 500 exactly on failure, and then the INTERNAL_SERVER_ERROR envelope with the fixed message and the generated trace id |
| Products.SuccessReply | src/app/api/products/route.ts:30-59 | a query with a falsy error and a price array for every product gives a 200 success holding one listed product per row, in row order |
| EmailTemplates.ComponentFor | src/lib/resend/templates.tsx:281-293 | a component exists iff the name is one of the six dispatched templates |
| EmailTemplates.DispatchInjective | src/lib/resend/templates.tsx:281-293 | distinct dispatched names select distinct templates, and the data is passed unchanged |
| EmailTemplates.UndispatchedMembers | src/lib/resend/types.ts:9-11 | "subscription-cancelled" and "custom" are enum members that are refused as unknown |
| EmailTemplates.AppUrlOrLocal | src/lib/resend/templates.tsx:67 | the app URL fallback is never empty |
| EmailTemplates.WelcomeHeading | src/lib/resend/templates.tsx:72 | the heading always reads "Welcome to …!", and names "Our Platform" when no organisation is given |
| EmailTemplates.WelcomeHeadingFallback | src/lib/resend/templates.tsx:72 | `WelcomeHeading` names "Our Platform" when the organisation is absent or falsy, else the organisation, followed by the first name |
| EmailTemplates.WelcomeLoginDefault | src/lib/resend/templates.tsx:67 | with no login link and an unset or empty app URL the link is the local server |
| EmailTemplates.ReceiptCardLine | src/lib/resend/templates.tsx:234-238 | the receipt prints something only when `last4` is given, and the card line whenever it is truthy |
| EmailTemplates.CardLineOnlyWithLast4 | src/lib/resend/templates.tsx:234-238 | `ReceiptCardLine` shows the card line exactly when `last4` is a non-empty string, and it ends with those digits |
| EmailTemplates.BillingUrlAsWritten | src/lib/resend/templates.tsx:195 | the written link always ends in "/dashboard/billing" after the app URL, or after "undefined" when it is unset |
| EmailTemplates.ButtonHref | src/lib/resend/templates.tsx:67-265 | the welcome and billing buttons always have a link, the billing link being a string |
| EmailTemplates.BillingUrlUnset | src/lib/resend/templates.tsx:195 | `BillingUrlAsWritten` gives "undefined/dashboard/billing" for an unset app URL, which differs from the corrected link |
| EmailTemplates.ButtonHrefInputs | src/lib/resend/templates.tsx:67-265 | `ButtonHref`: the verification, reset, receipt and invite buttons ignore the app URL; the welcome button ignores it once `loginUrl` is given and is that prop; the billing button ignores the props |
| EmailTemplates.ButtonsDisagreeWhenUnset | src/lib/resend/templates.tsx:67-195 | with the app URL unset and no `loginUrl`, the welcome button points at the local server while the billing button points at "undefined/dashboard/billing" |
| EmailTemplates.BillingUrlSameBaseAsWelcome | src/lib/resend/templates.tsx:67-195 | the corrected billing link is the welcome e-mail's default login link followed by "/dashboard/billing", for every app URL |
| EmailTemplates.BillingUrlWhenSet | src/lib/resend/templates.tsx:195 | with a non-empty app URL the corrected link equals the written one |
| Resend.SendEmail | src/lib/resend/index.ts:48-123 | nothing is sent without a failure result; success implies a truthy `to`, echoes it un-normalised, and stamps the clock |
| Resend.MissingRecipientOrSubject | src/lib/resend/index.ts:63-65 | a missing or empty `to` or subject fails with the fixed message, before sending |
| Resend.EmptyRecipientListPasses | src/lib/resend/index.ts:63 | an empty `to` array passes the check and is sent as is |
| Resend.TemplateReplacesReact | src/lib/resend/index.ts:67-68 | a non-custom template replaces the caller's element; an unknown one fails with its name |
| Resend.SubscriptionCancelledFails | src/lib/resend/index.ts:67-68 | "subscription-cancelled" fails as an unknown template |
| Resend.CustomNeedsReact | src/lib/resend/index.ts:69-71 | a custom e-mail without an element fails; with one, that element is sent |
| Resend.RecipientsNormalised | src/lib/resend/index.ts:73-83 | `to` is listed; cc and bcc are listed when truthy; replyTo falls back to the configured address; `from` is "NAME <EMAIL>" |
| Resend.ProviderErrorResult | src/lib/resend/index.ts:85-93 | a provider error becomes "ResendError" with its message, or "Failed to send email" |
| Resend.ProviderThrowCaught | src/lib/resend/index.ts:110-122 | the request handed to the provider does not depend on its answer; a thrown Error keeps its name and message, anything else is "UnknownError" |
| Resend.SuccessResult | src/lib/resend/index.ts:102-109 | success carries the provider's id (or ""), the sender header, and the caller's own `to` |
| Resend.DefaultSender | src/lib/resend/index.ts:8-9 | with nothing configured the sender is "SaaS Platform <noreply@example.com>" |

## Left out

- Toasts: the `toast` calls in the client are a boolean flag per attempt. Their texts, including the `Math.ceil(resetIn / 60)` minutes, are not modelled.
- Logging: `logger` calls in the client, the products route and the e-mail sender, and `console.error` in the envelope builders, are not modelled.
- Client.RateLimitRegistry.Notify: observers are effect-free functions, and the list is fixed for the walk. The source walks the live array with `for…of`. An observer that unsubscribes itself during the walk makes the next observer be skipped, and one subscribed during the walk is called in the same pass; neither is captured.
- Client.RateLimitRegistry.Request: the observer list is the same for every attempt of a request. Subscriptions and unsubscriptions made by other code during the `setTimeout` waits between retries are not captured.
- Timers: the client's `setTimeout` waits are returned as a list rather than slept.
- JSON parsing: the client's `response.json()` is either a parsed value or a syntax error with its message; JSON text is not parsed. Between the server's `NextResponse.json` and the client's `response.json()`, JSON text is modelled by `Js.OnWire` only, which turns every NaN into null; key order and number formatting are not modelled.
- Numbers: all numbers are integers, plus NaN where `parseInt` finds no digits. No floating point is modelled.
- Client.WithResetIn: a named `resetIn` property added to an array `error` cannot be represented in JSON and is dropped.
- Trace ids: `generateTraceId` (randomness and the clock) is the parameter `generatedTraceId`.
- `NextResponse`: it is the `Reply` value (status and envelope), not a response object.
- Utils.Upper: maps ASCII letters only; other case mappings, such as non-ASCII letters, are not modelled.
- Utils.GetInitials: takes the first UTF-16 unit of a word; a first character outside the Basic Multilingual Plane is taken whole.
- `cn`, `debounce` and `toDateTime` in utils.ts: class-name merging, timers and dates, outside this model.
- Middleware:
  - the first, exception-swallowing session lookup only refreshes the session and is not modelled;
  - the redirect URL object is modelled as the pair (pathname, `redirectTo`);
  - the matcher regex is not modelled.
- Metadata.GenerateMetadata: `new URL(siteConfig.url)` is modelled by its trimming of surrounding spaces and controls, its removal of tabs and line breaks, and its scheme test. Its other parse failures (an empty host after a special scheme, a bad port, a forbidden host character) are not modelled: such a URL yields metadata here although the source throws.
- Metadata: the other constant fields (authors, creator, publisher, locale, icons, manifest) are built but not proved about.
- JsonLd.Spread: a string is spread one Dafny character per key. JavaScript spreads it per UTF-16 unit, so a character outside the Basic Multilingual Plane gives two keys holding lone surrogates there; this is not captured.
- JsonLd:
  - the `<script>` wrapper and `JSON.stringify` are not modelled;
  - objects are maps, so key order is not modelled.
- Products:
  - the database query, its active-product filter and its order by name are the input;
  - `unit_amount` is an integer and null amounts are not modelled;
  - a rejected query call is not modelled separately; it would give the same reply as a truthy `error`. The throws from null data and from a product without a price array are modelled.
- EmailTemplates:
  - the JSX markup, styles and static text of every template are not modelled;
  - only the data-dependent links and lines are modelled.
- EmailTemplates.RenderText: objects and arrays render as "". React throws on an object child and renders an array's items.
- Resend:
  - attachments and tags pass through as opaque values;
  - `created_at` is the clock parameter `now`;
  - a missing API key shows up only as the provider call throwing.
- Other API routes, the auth providers, the SDK wrappers, the OpenAI wrapper, the sitemap and the React pages are not part of this model.

## Findings

| source | as written | input that shows it | evidently intended | confidence | as-written member | corrected member |
|---|---|---|---|---|---|---|
| src/lib/resend/templates.tsx:195 | the subscription e-mail's billing link is a template literal on `NEXT_PUBLIC_APP_URL` with no fallback | `NEXT_PUBLIC_APP_URL` unset gives the link "undefined/dashboard/billing" | the same fallback the welcome e-mail uses at line 67, giving "http://localhost:3000/dashboard/billing" | medium, not executed | EmailTemplates.BillingUrlUnset | EmailTemplates.BillingUrl |
