/**
  The contract between the server's envelope builders and the browser client that reads
  them: what the client makes of each kind of envelope the server sends.
 */
module WireContract {
  import opened Wrappers
  import opened Strings
  import opened Js
  import K = ErrorKinds
  import R = Responses
  import C = Client

  // Every body below reaches the client through JSON text: `NextResponse.json` writes it
  // with `JSON.stringify` and `response.json()` reads it back, which `OnWire` models.

  /** A success envelope sent with a 2xx status resolves to its payload as JSON text carries
      it: exactly the payload when it holds no NaN. */
  lemma SuccessEnvelopeResolves(verb: C.Verb, endpoint: string, useRetry: bool, status: int,
                                headers: map<string, string>, data: Json)
    requires 200 <= status <= 299
    ensures var settled := C.Attempt(verb, endpoint, useRetry,
              C.Responded(status, headers, C.Parsed(OnWire(R.EnvelopeJson(R.Success(data)))))).settled;
      && settled == C.Resolved(OnWire(data))
      && (NoNaN(data) ==> settled == C.Resolved(data))
  {
    var raw := R.EnvelopeJson(R.Success(data));
    OnWireField(raw.fields, "success");
    OnWireField(raw.fields, "data");
    var body := OnWire(raw);
    assert Has(body, "success") && Truthy(body.fields["success"]) && Has(body, "data");
    assert C.DecodeEnvelope(body) == C.Resolved(OnWire(data));
  }

  /** `apiResponse` with its default status reaches the caller as the bare payload, a NaN
      in it turned into `null` by the JSON text. */
  lemma ApiResponseResolves(verb: C.Verb, endpoint: string, useRetry: bool, headers: map<string, string>, data: Json)
    ensures var reply := R.ApiResponse(data, None);
      var settled := C.Attempt(verb, endpoint, useRetry,
        C.Responded(reply.status, headers, C.Parsed(OnWire(R.EnvelopeJson(reply.envelope))))).settled;
      && settled == C.Resolved(OnWire(data))
      && (NoNaN(data) ==> settled == C.Resolved(data))
  {
    SuccessEnvelopeResolves(verb, endpoint, useRetry, 200, headers, data);
  }

  /** An error envelope holds a NaN only inside its `details`: every other field is a string
      or a boolean. */
  lemma FailureNaNOnlyInDetails(e: R.ErrorDetails)
    ensures NoNaN(R.EnvelopeJson(R.Failure(e))) <==> e.details.None? || NoNaN(JObj(e.details.value))
  {
    var body := R.EnvelopeJson(R.Failure(e));
    var error := R.ErrorDetailsJson(e);
    assert body.fields["error"] == error;
    if e.details.None? || NoNaN(JObj(e.details.value)) {
      forall k | k in error.fields
        ensures NoNaN(error.fields[k])
      {
        if k != "details" {
          assert error.fields[k].JStr?;
        }
      }
      assert NoNaN(error);
      assert NoNaN(body);
    } else {
      assert error.fields["details"] == JObj(e.details.value);
      assert !NoNaN(error);
    }
  }

  /** What an error envelope carries on the wire: `success` is false and `error.type` still
      names the kind. */
  lemma FailureOnWireShape(e: R.ErrorDetails)
    ensures var body := OnWire(R.EnvelopeJson(R.Failure(e)));
      && body.JObj? && "error" in body.fields && body.fields["error"].JObj?
      && Get(body, "success") == Some(JBool(false))
      && "type" in body.fields["error"].fields
      && body.fields["error"].fields["type"] == JStr(K.KindName(e.kind))
  {
    var raw := R.EnvelopeJson(R.Failure(e));
    R.FailureJsonShape(e);
    var error := raw.fields["error"];
    OnWireField(raw.fields, "success");
    OnWireField(raw.fields, "error");
    OnWireField(error.fields, "type");
  }

  /** An error envelope sent with a 2xx status (as `handleApiError`'s result may be) is
      rejected with the envelope as JSON text carries it: the envelope itself when its
      details hold no NaN. */
  lemma FailureEnvelopeRejectsAt2xx(verb: C.Verb, endpoint: string, useRetry: bool, status: int,
                                    headers: map<string, string>, e: R.ErrorDetails)
    requires 200 <= status <= 299
    ensures var body := R.EnvelopeJson(R.Failure(e));
      var settled := C.Attempt(verb, endpoint, useRetry, C.Responded(status, headers, C.Parsed(OnWire(body)))).settled;
      && settled == C.Rejected(C.RawBody(OnWire(body)))
      && (e.details.None? || NoNaN(JObj(e.details.value)) ==> settled == C.Rejected(C.RawBody(body)))
  {
    FailureOnWireShape(e);
    FailureNaNOnlyInDetails(e);
  }

  /** An `apiError` reply of any kind but RATE_LIMIT is an HTTP error, and the client rejects
      with the envelope as JSON text carries it (unchanged when the details hold no NaN),
      whose `error.type` names the kind. */
  lemma ApiErrorRejectsWithEnvelope(verb: C.Verb, endpoint: string, useRetry: bool, headers: map<string, string>,
                                    kind: K.ErrorKind, message: Option<string>, details: Option<map<string, Json>>,
                                    traceId: Option<string>, generated: string)
    requires kind != K.RateLimit
    ensures var reply := R.ApiError(kind, message, details, traceId, generated);
      var body := R.EnvelopeJson(reply.envelope);
      var settled := C.Attempt(verb, endpoint, useRetry, C.Responded(reply.status, headers, C.Parsed(OnWire(body)))).settled;
      && settled == C.Rejected(C.RawBody(OnWire(body)))
      && (details.None? || NoNaN(JObj(details.value)) ==> settled == C.Rejected(C.RawBody(body)))
      && GetOpt(Get(OnWire(body), "error"), "type") == Some(JStr(K.KindName(kind)))
  {
    var reply := R.ApiError(kind, message, details, traceId, generated);
    K.TablesWellFormed(kind);
    K.OnlyRateLimitIs429(kind);
    FailureEnvelopeRejectsAsError(verb, endpoint, useRetry, reply.status, headers, reply.envelope.error);
  }

  /** An error envelope sent with an error status other than 429 is rejected with the
      envelope as JSON text carries it (the envelope itself when its details hold no NaN),
      whose `error.type` names the kind. */
  lemma FailureEnvelopeRejectsAsError(verb: C.Verb, endpoint: string, useRetry: bool, status: int,
                                      headers: map<string, string>, e: R.ErrorDetails)
    requires status >= 400 && status != 429
    ensures var body := R.EnvelopeJson(R.Failure(e));
      var settled := C.Attempt(verb, endpoint, useRetry, C.Responded(status, headers, C.Parsed(OnWire(body)))).settled;
      && settled == C.Rejected(C.RawBody(OnWire(body)))
      && (e.details.None? || NoNaN(JObj(e.details.value)) ==> settled == C.Rejected(C.RawBody(body)))
      && GetOpt(Get(OnWire(body), "error"), "type") == Some(JStr(K.KindName(e.kind)))
  {
    var body := R.EnvelopeJson(R.Failure(e));
    FailureOnWireShape(e);
    FailureNaNOnlyInDetails(e);
    C.FailedResponseKeepsBody(verb, endpoint, useRetry, status, headers, OnWire(body));
  }

  /** A RATE_LIMIT reply from `apiError` is a 429, and what the client rejects with after
      writing back `resetIn` is still classified as a rate limit, so it is retried. */
  lemma RateLimitReplyRetried(verb: C.Verb, endpoint: string, useRetry: bool, headers: map<string, string>,
                              message: Option<string>, details: Option<map<string, Json>>,
                              traceId: Option<string>, generated: string)
    ensures var reply := R.ApiError(K.RateLimit, message, details, traceId, generated);
      && reply.status == 429
      && C.Retryable(C.Attempt(verb, endpoint, useRetry,
           C.Responded(reply.status, headers, C.Parsed(OnWire(R.EnvelopeJson(reply.envelope))))).settled)
  {
    var reply := R.ApiError(K.RateLimit, message, details, traceId, generated);
    FailureEnvelopeRetriedOn429(verb, endpoint, useRetry, headers, reply.envelope.error);
  }

  /** An error envelope of kind RATE_LIMIT sent with 429 is retried. */
  lemma FailureEnvelopeRetriedOn429(verb: C.Verb, endpoint: string, useRetry: bool, headers: map<string, string>,
                                    e: R.ErrorDetails)
    requires e.kind == K.RateLimit
    ensures C.Retryable(C.Attempt(verb, endpoint, useRetry,
              C.Responded(429, headers, C.Parsed(OnWire(R.EnvelopeJson(R.Failure(e)))))).settled)
  {
    var body := OnWire(R.EnvelopeJson(R.Failure(e)));
    FailureOnWireShape(e);
    var error := body.fields["error"].fields;
    assert body.fields["error"] == JObj(error);
    assert body == JObj(body.fields);
    C.RateLimitTypeOn429Retried(verb, endpoint, useRetry, headers, body.fields, error);
  }

  /** A route handler that throws reaches the client through `withErrorHandling` as an error
      envelope of the classified kind: a RATE_LIMIT is retried, any other kind is rejected with
      the envelope as JSON text carries it, whose `error.type` names that kind. */
  lemma HandlerThrowReachesClient(verb: C.Verb, endpoint: string, useRetry: bool, headers: map<string, string>,
                                  e: Thrown, development: bool, generated: string)
    ensures var reply := R.WithErrorHandling(R.Threw(e), development, generated);
      var body := OnWire(R.EnvelopeJson(reply.envelope));
      var settled := C.Attempt(verb, endpoint, useRetry, C.Responded(reply.status, headers, C.Parsed(body))).settled;
      && (R.MapErrorToType(e) == K.RateLimit ==> C.Retryable(settled))
      && (R.MapErrorToType(e) != K.RateLimit ==>
            settled == C.Rejected(C.RawBody(body)) && GetOpt(Get(body, "error"), "type") == Some(JStr(K.KindName(R.MapErrorToType(e)))))
  {
    var kind := R.MapErrorToType(e);
    var reply := R.WithErrorHandling(R.Threw(e), development, generated);
    assert reply.envelope.error.kind == kind;
    K.TablesWellFormed(kind);
    K.OnlyRateLimitIs429(kind);
    if kind == K.RateLimit {
      FailureEnvelopeRetriedOn429(verb, endpoint, useRetry, headers, reply.envelope.error);
    } else {
      FailureEnvelopeRejectsAsError(verb, endpoint, useRetry, reply.status, headers, reply.envelope.error);
    }
  }

  /** The server and the client agree on rate limits: a thrown `Error` the server classifies
      as RATE_LIMIT carries a message the client's retry test accepts. */
  lemma ClassifiersAgree(name: string, message: string, stack: Option<string>)
    requires R.MapErrorToType(ErrorValue(name, message, stack)) == K.RateLimit
    ensures C.IsRateLimitFailure(C.ErrorMessage(message))
  {
    R.MapErrorToTypeRateLimit(ErrorValue(name, message, stack));
  }
}
