/**
  The browser-side API client: the rate-limit observer registry, the handling of one
  request attempt (rate-limit headers, HTTP 429, the response envelope, exception
  normalisation) and the bounded exponential-backoff retry around it.

  `fetch` is replaced by an abstract outcome per attempt (`fetched(k)` for the k-th call):
  a response with status, headers and body, or a thrown value. `Math.random()` jitter is an
  abstract factor in [1, 2) per wait, and waits are returned rather than slept. Toasts are
  reported as a flag only.
 */
module Client {
  import opened Wrappers
  import opened Strings
  import opened Js

  /** RATE_LIMIT_RETRY */
  const MaxRetries: nat := 3
  const BaseDelay: real := 1000.0

  /** A rate-limit notification. `None` stands for the NaN that `parseInt` yields on a header
      without digits. */
  datatype RateLimitEvent = RateLimitEvent(
    endpoint: string,
    limitRemaining: Option<int>,
    limitTotal: Option<int>,
    resetIn: Option<int>)

  // ---------------------------------------------------------------------------------------
  // The observer registry

  /** `array.indexOf(x) === -1 ? array : array without its first x`: what the unsubscribe
      closure leaves behind. */
  function RemoveFirst<T(==)>(s: seq<T>, x: T): (r: seq<T>)
    ensures |r| == if x in s then |s| - 1 else |s|
  {
    if s == [] then []
    else if s[0] == x then s[1..]
    else [s[0]] + RemoveFirst(s[1..], x)
  }

  /** Removing the first occurrence is cutting out the first index that holds it. */
  lemma {:induction false} RemoveFirstAt<T>(s: seq<T>, x: T, i: nat)
    requires i < |s| && s[i] == x && x !in s[..i]
    ensures RemoveFirst(s, x) == s[..i] + s[i + 1..]
  {
    if i > 0 {
      assert s[1..][..i - 1] == s[..i][1..];
      RemoveFirstAt(s[1..], x, i - 1);
    }
  }

  /** Unsubscribing an observer that is no longer registered changes nothing. */
  lemma {:induction false} RemoveFirstAbsent<T>(s: seq<T>, x: T)
    requires x !in s
    ensures RemoveFirst(s, x) == s
  {
    if s != [] {
      RemoveFirstAbsent(s[1..], x);
    }
  }

  /** Exactly one copy of `x` goes (none when there is none); every other observer stays. */
  lemma {:induction false} RemoveFirstKeepsOthers<T>(s: seq<T>, x: T)
    ensures multiset(RemoveFirst(s, x)) == multiset(s) - multiset{x}
  {
    if s != [] {
      RemoveFirstKeepsOthers(s[1..], x);
      assert s == [s[0]] + s[1..];
      assert multiset(s) == multiset{s[0]} + multiset(s[1..]);
      if s[0] != x {
        assert RemoveFirst(s, x) == [s[0]] + RemoveFirst(s[1..], x);
        assert multiset(RemoveFirst(s, x)) == multiset{s[0]} + multiset(RemoveFirst(s[1..], x));
      }
    }
  }

  /** Subscribing and then calling the returned unsubscribe restores the registry when the
      observer was not registered before; when it was, the earliest copy goes instead, so the
      newly appended copy stays at the end. */
  lemma {:induction false} SubscribeThenUnsubscribe<T>(s: seq<T>, x: T)
    ensures x !in s ==> RemoveFirst(s + [x], x) == s
    ensures x in s ==> RemoveFirst(s + [x], x) == RemoveFirst(s, x) + [x]
  {
    var t := s + [x];
    if x !in s {
      assert t[..|s|] == s;
      RemoveFirstAt(t, x, |s|);
      assert t[|s| + 1..] == [];
    } else {
      var i := FirstIndexOf(s, x);
      RemoveFirstAt(s, x, i);
      assert t[..i] == s[..i];
      RemoveFirstAt(t, x, i);
      assert t[i + 1..] == s[i + 1..] + [x];
      assert s[..i] + (s[i + 1..] + [x]) == (s[..i] + s[i + 1..]) + [x];
    }
  }

  /** The index `indexOf` finds (a ghost view used by the lemmas). */
  ghost function FirstIndexOf<T>(s: seq<T>, x: T): (i: nat)
    requires x in s
    ensures i < |s| && s[i] == x && x !in s[..i]
  {
    if s[0] == x then 0
    else
      var j := FirstIndexOf(s[1..], x);
      assert s[..j + 1] == [s[0]] + s[1..][..j];
      j + 1
  }

  /** `s.indexOf(x)`: the first index holding `x`, or -1. */
  method IndexOf<T(==)>(s: seq<T>, x: T) returns (i: int)
    ensures -1 <= i < |s|
    ensures i == -1 <==> x !in s
    ensures i >= 0 ==> s[i] == x && x !in s[..i]
  {
    i := 0;
    while i < |s|
      invariant 0 <= i <= |s|
      invariant x !in s[..i]
    {
      if s[i] == x {
        return;
      }
      assert s[..i + 1] == s[..i] + [s[i]];
      i := i + 1;
    }
    assert s[..i] == s;
    i := -1;
  }

  /** The observers an event reaches whose call throws (each such failure is logged). */
  function Throwing<Observer>(observers: seq<Observer>, event: RateLimitEvent,
                              throws: (Observer, RateLimitEvent) -> bool): seq<Observer>
  {
    if observers == [] then []
    else
      var init := observers[..|observers| - 1];
      var last := observers[|observers| - 1];
      Throwing(init, event, throws) + (if throws(last, event) then [last] else [])
  }

  /** Every (observer, event) call one notification makes, in registration order. */
  function Calls<Observer>(observers: seq<Observer>, event: RateLimitEvent): (r: seq<(Observer, RateLimitEvent)>)
    ensures |r| == |observers|
    ensures forall i :: 0 <= i < |r| ==> r[i] == (observers[i], event)
  {
    seq(|observers|, i requires 0 <= i < |observers| => (observers[i], event))
  }

  /** The calls a sequence of notifications makes, one after the other. */
  function Broadcast<Observer>(observers: seq<Observer>, events: seq<RateLimitEvent>): seq<(Observer, RateLimitEvent)>
  {
    if events == [] then []
    else Broadcast(observers, events[..|events| - 1]) + Calls(observers, events[|events| - 1])
  }

  /** The module-level observer list `rateLimitObservers`, with `onRateLimit`, the
      unsubscribe closure it returns, and `notifyRateLimitObservers`. */
  class RateLimitRegistry<Observer(==)> {
    var observers: seq<Observer>

    constructor ()
      ensures observers == []
    {
      observers := [];
    }

    /** `onRateLimit(observer)`: appends. */
    method Subscribe(observer: Observer)
      modifies this
      ensures observers == old(observers) + [observer]
    {
      observers := observers + [observer];
    }

    /** The closure `onRateLimit` returns: removes the first occurrence of `observer`, if any. */
    method Unsubscribe(observer: Observer)
      modifies this
      ensures observers == RemoveFirst(old(observers), observer)
    {
      var index := IndexOf(observers, observer);
      if index != -1 {
        RemoveFirstAt(observers, observer, index);
        observers := observers[..index] + observers[index + 1..];
      } else {
        RemoveFirstAbsent(observers, observer);
      }
    }

    /** `notifyRateLimitObservers(event)`: calls every observer once, in order, with the same
        event; `throws` says which calls throw. A throwing observer is logged and the walk
        goes on. */
    method Notify(event: RateLimitEvent, throws: (Observer, RateLimitEvent) -> bool)
      returns (calls: seq<(Observer, RateLimitEvent)>, logged: seq<Observer>)
      ensures |calls| == |observers|
      ensures forall i :: 0 <= i < |calls| ==> calls[i] == (observers[i], event)
      ensures logged == Throwing(observers, event, throws)
    {
      calls, logged := [], [];
      var i := 0;
      while i < |observers|
        invariant 0 <= i <= |observers|
        invariant |calls| == i
        invariant forall j :: 0 <= j < i ==> calls[j] == (observers[j], event)
        invariant logged == Throwing(observers[..i], event, throws)
      {
        var observer := observers[i];
        calls := calls + [(observer, event)];
        assert observers[..i + 1][..i] == observers[..i];
        if throws(observer, event) {
          logged := logged + [observer];
        }
        i := i + 1;
      }
      assert observers[..i] == observers;
    }

    /** One request: each attempt, the notification of its rate-limit event, and, with
        `useRetry`, `retryWithBackoff` around them. Returns how the request settles, how many
        attempts ran, the waits between them, the events broadcast and every observer call
        made. */
    method Request(verb: Verb, endpoint: string, useRetry: bool, fetched: nat -> FetchOutcome,
                   jitter: nat -> Jitter, throws: (Observer, RateLimitEvent) -> bool)
      returns (settled: Settled, calls: nat, waits: seq<real>, events: seq<RateLimitEvent>,
               deliveries: seq<(Observer, RateLimitEvent)>)
      ensures Run(verb, endpoint, useRetry, fetched, jitter) == RunResult(settled, calls, waits)
      ensures events == Events(EventOf(verb, endpoint, useRetry, fetched), calls)
      ensures deliveries == Broadcast(observers, events)
    {
      settled, calls, waits, events, deliveries :=
        Attempts(Outcomes(verb, endpoint, useRetry, fetched), EventOf(verb, endpoint, useRetry, fetched),
                 jitter, if useRetry then MaxRetries else 0, throws);
    }

    /** The loop of `retryWithBackoff(fn, retries)` with `fn` the k-th attempt: it settles with
        `outcomes(k)` after broadcasting `eventOf(k)`. */
    method Attempts(outcomes: nat -> Settled, eventOf: nat -> Option<RateLimitEvent>, jitter: nat -> Jitter,
                    retries: nat, throws: (Observer, RateLimitEvent) -> bool)
      returns (settled: Settled, calls: nat, waits: seq<real>, events: seq<RateLimitEvent>,
               deliveries: seq<(Observer, RateLimitEvent)>)
      ensures Retry(outcomes, jitter, 0, retries, BaseDelay) == RunResult(settled, calls, waits)
      ensures events == Events(eventOf, calls)
      ensures deliveries == Broadcast(observers, events)
    {
      ghost var whole := Retry(outcomes, jitter, 0, retries, BaseDelay);
      var left: nat := retries;
      var delay := BaseDelay;
      var i := 0;
      waits, events, deliveries := [], [], [];
      while true
        invariant i + left == retries
        invariant var rest := Retry(outcomes, jitter, i, left, delay);
          whole.settled == rest.settled && whole.calls == i + rest.calls && whole.waits == waits + rest.waits
        invariant events == Events(eventOf, i)
        invariant deliveries == Broadcast(observers, events)
        decreases left
      {
        var result, event := outcomes(i), eventOf(i);
        var made := NotifyIfAny(event, throws);
        BroadcastStep(observers, events, event);
        events := events + (if event.Some? then [event.value] else []);
        deliveries := deliveries + made;
        if left > 0 && Retryable(result) {
          RetryStep(outcomes, jitter, i, left, delay);
          ghost var later := Retry(outcomes, jitter, i + 1, left - 1, delay * 2.0);
          assert waits + ([delay * jitter(i)] + later.waits) == (waits + [delay * jitter(i)]) + later.waits;
          waits := waits + [delay * jitter(i)];
          i, left, delay := i + 1, left - 1, delay * 2.0;
        } else {
          RetryStop(outcomes, jitter, i, left, delay);
          settled, calls := result, i + 1;
          return;
        }
      }
    }

    /** `if (event) notifyRateLimitObservers(event)`: the calls made (which observer threw
        is only logged, so it does not matter here). */
    method NotifyIfAny(event: Option<RateLimitEvent>, throws: (Observer, RateLimitEvent) -> bool)
      returns (made: seq<(Observer, RateLimitEvent)>)
      ensures made == if event.Some? then Calls(observers, event.value) else []
    {
      made := [];
      if event.Some? {
        var logged;
        made, logged := Notify(event.value, throws);
        assert made == Calls(observers, event.value);
      }
    }
  }

  /** Broadcasting one more (optional) event adds that event's calls at the end. */
  lemma BroadcastStep<Observer>(observers: seq<Observer>, events: seq<RateLimitEvent>, e: Option<RateLimitEvent>)
    ensures Broadcast(observers, events + (if e.Some? then [e.value] else []))
         == Broadcast(observers, events) + (if e.Some? then Calls(observers, e.value) else [])
  {
    if e.Some? {
      assert (events + [e.value])[..|events|] == events;
    } else {
      assert events + [] == events;
    }
  }

  // ---------------------------------------------------------------------------------------
  // One attempt

  /** The request verbs; `Post` carries its `options.toast` flag, the only verb with one. */
  datatype Verb = HttpGet | HttpPost(toastOption: bool) | HttpPut | HttpDelete | HttpPatch

  /** The body as `response.json()` sees it: parsed, or a syntax error with its message. */
  datatype Body = Parsed(value: Json) | Unparsable(syntaxError: string)

  /** What `fetch` did: a response (status, headers keyed by lower-case name, body), or a throw. */
  datatype FetchOutcome =
    | Responded(status: int, headers: map<string, string>, body: Body)
    | FetchThrew(error: Thrown)

  /** Why a request rejected: with a raw body (`Promise.reject(errorData)`), or with the
      `Error` that `handleApiError` made, known by its message. */
  datatype Reason = RawBody(body: Json) | ErrorMessage(message: string)

  datatype Settled = Resolved(value: Json) | Rejected(reason: Reason)

  /** The event one attempt broadcasts, whether it showed a toast, and how it settled. */
  datatype AttemptResult = AttemptResult(event: Option<RateLimitEvent>, toast: bool, settled: Settled)

  /** Written as a concatenation of short pieces, which keeps facts about its letters cheap to prove. */
  const NetworkErrorMessage: string :=
    "Network error. " + "Please check " + "your internet " + "connection " + "and try again."
  const UnexpectedErrorMessage: string := "An unexpected error occurred"
  /** The engine's TypeError for reading `.error` of a `null` body. */
  const NullBodyReadMessage: string := "Cannot read properties of null (reading 'error')"

  /** The engine's TypeError (module code is strict) for assigning `resetIn` on a truthy
      primitive `error`: the primitive's type and its string form are part of the text. */
  function PrimitiveWriteMessage(v: Json): string
  {
    var described := match v
      case JStr(s) => "string '" + s + "'"
      case JNum(n) => "number '" + NumberString(n) + "'"
      case JBool(b) => "boolean '" + (if b then "true" else "false") + "'"
      case _ => "object 'null'";
    "Cannot create property 'resetIn' on " + described
  }

  /** The client's `handleApiError`: the message of the `Error` a caught exception becomes. */
  function NormalizeThrown(e: Thrown): (message: string)
    ensures e.ErrorValue? && e.name == "TypeError" && e.message == "Failed to fetch" ==> message == NetworkErrorMessage
    ensures e.ErrorValue? && !(e.name == "TypeError" && e.message == "Failed to fetch") ==> message == e.message
    ensures e.ResponseValue? ==> message == "API Error: " + DecimalString(e.status) + " " + e.statusText
    ensures e.OtherValue? ==> message == UnexpectedErrorMessage
  {
    match e
    case ErrorValue(name, message, _) =>
      if name == "TypeError" && message == "Failed to fetch" then NetworkErrorMessage else message
    case ResponseValue(status, statusText) => "API Error: " + DecimalString(status) + " " + statusText
    case OtherValue(_) => UnexpectedErrorMessage
  }

  /** `response.headers.get(name)` is a non-empty string. */
  predicate HeaderSet(headers: map<string, string>, name: string)
  {
    name in headers && headers[name] != ""
  }

  /** The event a response produces: only when all three rate-limit headers are set. */
  function RateLimitEventOf(endpoint: string, headers: map<string, string>): (r: Option<RateLimitEvent>)
    ensures r.Some? <==> HeaderSet(headers, "x-ratelimit-limit") && HeaderSet(headers, "x-ratelimit-remaining")
                         && HeaderSet(headers, "x-ratelimit-reset")
    ensures r.Some? ==> r.value == RateLimitEvent(endpoint, ParseInt(headers["x-ratelimit-remaining"]),
                                    ParseInt(headers["x-ratelimit-limit"]), ParseInt(headers["x-ratelimit-reset"]))
  {
    if HeaderSet(headers, "x-ratelimit-limit") && HeaderSet(headers, "x-ratelimit-remaining")
       && HeaderSet(headers, "x-ratelimit-reset")
    then Some(RateLimitEvent(endpoint, ParseInt(headers["x-ratelimit-remaining"]),
                             ParseInt(headers["x-ratelimit-limit"]), ParseInt(headers["x-ratelimit-reset"])))
    else None
  }

  /** Headers carrying the three counts as decimal numerals give back exactly those counts. */
  lemma RateLimitEventRoundTrip(endpoint: string, headers: map<string, string>, limit: nat, remaining: nat, reset: nat)
    requires "x-ratelimit-limit" in headers && headers["x-ratelimit-limit"] == DecimalString(limit)
    requires "x-ratelimit-remaining" in headers && headers["x-ratelimit-remaining"] == DecimalString(remaining)
    requires "x-ratelimit-reset" in headers && headers["x-ratelimit-reset"] == DecimalString(reset)
    ensures RateLimitEventOf(endpoint, headers) == Some(RateLimitEvent(endpoint, Some(remaining), Some(limit), Some(reset)))
  {
    ParseDecimalAlone(limit);
    ParseDecimalAlone(remaining);
    ParseDecimalAlone(reset);
  }

  lemma ParseDecimalAlone(n: nat)
    ensures ParseInt(DecimalString(n)) == Some(n)
  {
    ParseIntDecimal(n, "");
    assert DecimalString(n) + "" == DecimalString(n);
  }

  function RetryAfter(headers: map<string, string>): Option<string>
  {
    if "retry-after" in headers then Some(headers["retry-after"]) else None
  }

  /** The reset time a 429 reports: `errorData.error?.resetIn` if truthy, else
      `parseInt(Retry-After || '60', 10)` (NaN when the header has no leading digits). */
  function ResetIn(errorData: Json, retryAfter: Option<string>): (r: Json)
    ensures TruthyOpt(GetOpt(Get(errorData, "error"), "resetIn")) ==>
              Some(r) == GetOpt(Get(errorData, "error"), "resetIn")
    ensures !TruthyOpt(GetOpt(Get(errorData, "error"), "resetIn")) ==>
              r == match ParseInt(OrElse(retryAfter, "60")) case Some(n) => JNum(n) case None => JNaN
  {
    var fromBody := GetOpt(Get(errorData, "error"), "resetIn");
    if TruthyOpt(fromBody) then fromBody.value
    else match ParseInt(OrElse(retryAfter, "60"))
      case Some(n) => JNum(n)
      case None => JNaN
  }

  lemma ParseSixty()
    ensures ParseInt("60") == Some(60)
  {
    assert DecimalString(60) == "60";
    ParseIntDecimal(60, "");
    assert DecimalString(60) + "" == "60";
  }

  /** With no usable value in the body and no `Retry-After` header, the reset time is 60. */
  lemma ResetInDefault(errorData: Json)
    requires !TruthyOpt(GetOpt(Get(errorData, "error"), "resetIn"))
    ensures ResetIn(errorData, None) == JNum(60)
  {
    assert OrElse(None, "60") == "60";
    ParseSixty();
  }

  /** A delay-seconds `Retry-After` (digits only) is taken as the reset time. */
  lemma ResetInFromRetryAfter(errorData: Json, seconds: nat)
    requires !TruthyOpt(GetOpt(Get(errorData, "error"), "resetIn"))
    ensures ResetIn(errorData, Some(DecimalString(seconds))) == JNum(seconds)
  {
    var digits := DecimalString(seconds);
    assert OrElse(Some(digits), "60") == digits;
    ParseIntDecimal(seconds, "");
    assert digits + "" == digits;
    assert ParseInt(digits) == Some(seconds);
  }

  /** `if (errorData.error) errorData.error.resetIn = resetIn`. `None` when the assignment
      throws (a truthy primitive `error`). A named property added to an array `error` is not
      representable in JSON and is dropped. */
  function WithResetIn(errorData: Json, resetIn: Json): (r: Option<Json>)
    ensures !TruthyOpt(Get(errorData, "error")) ==> r == Some(errorData)
    ensures TruthyOpt(Get(errorData, "error")) && errorData.fields["error"].JObj? ==>
      r == Some(JObj(errorData.fields["error" := JObj(errorData.fields["error"].fields["resetIn" := resetIn])]))
    ensures r.None? <==> TruthyOpt(Get(errorData, "error")) && !IsObject(errorData.fields["error"])
  {
    var err := Get(errorData, "error");
    if !TruthyOpt(err) then Some(errorData)
    else match err.value
      case JObj(fields) => Some(JObj(errorData.fields["error" := JObj(fields["resetIn" := resetIn])]))
      case JArr(_) => Some(errorData)
      case _ => None
  }

  /** Whether a failed (non-429) response or an unsuccessful envelope evaluates the toast
      line `toast.error(errorData.error?.message || ...)`. */
  predicate ToastsOnFailure(verb: Verb)
  {
    match verb
    case HttpGet => false
    case HttpPost(t) => t
    case _ => true
  }

  /** Whether a 429 shows the "Rate limit exceeded" toast. */
  predicate ToastsOnRateLimit(verb: Verb, useRetry: bool)
  {
    match verb
    case HttpPost(t) => !useRetry && t
    case _ => !useRetry
  }

  /** The envelope decoding of a 2xx body. An object with a `success` key is an envelope:
      a falsy `success` rejects with the body, otherwise `data` if present, otherwise the whole
      body; any other body comes back unchanged. */
  function DecodeEnvelope(data: Json): (r: Settled)
    ensures !Has(data, "success") ==> r == Resolved(data)
    ensures Has(data, "success") && !Truthy(data.fields["success"]) ==> r == Rejected(RawBody(data))
    ensures Has(data, "success") && Truthy(data.fields["success"]) && Has(data, "data") ==> r == Resolved(data.fields["data"])
    ensures Has(data, "success") && Truthy(data.fields["success"]) && !Has(data, "data") ==> r == Resolved(data)
  {
    if data.JObj? && "success" in data.fields then
      if !Truthy(data.fields["success"]) then Rejected(RawBody(data))
      else if "data" in data.fields then Resolved(data.fields["data"])
      else Resolved(data)
    else Resolved(data)
  }

  /** Everything after the headers: status check, 429 handling, body decoding, and the
      normalisation of anything thrown on the way. Returns the toast flag and the settlement. */
  function Settle(verb: Verb, useRetry: bool, status: int, headers: map<string, string>, body: Body): (bool, Settled)
  {
    match body
    case Unparsable(message) => Caught(ErrorValue("SyntaxError", message, None))
    case Parsed(value) =>
      if 200 <= status <= 299 then
        var r := DecodeEnvelope(value);
        (r.Rejected? && ToastsOnFailure(verb), r)
      else if status == 429 then
        if value.JNull? then Caught(ErrorValue("TypeError", NullBodyReadMessage, None))
        else
          match WithResetIn(value, ResetIn(value, RetryAfter(headers)))
          case None => Caught(ErrorValue("TypeError", PrimitiveWriteMessage(value.fields["error"]), None))
          case Some(updated) => (ToastsOnRateLimit(verb, useRetry), Rejected(RawBody(updated)))
      else if ToastsOnFailure(verb) && value.JNull? then Caught(ErrorValue("TypeError", NullBodyReadMessage, None))
      else (ToastsOnFailure(verb), Rejected(RawBody(value)))
  }

  /** The `catch` around the attempt: no toast, and a rejection with the normalised `Error`. */
  function Caught(e: Thrown): (bool, Settled)
  {
    (false, Rejected(ErrorMessage(NormalizeThrown(e))))
  }

  /** The body of `fetchFn` for one verb: one call of `fetch` and what follows. */
  function Attempt(verb: Verb, endpoint: string, useRetry: bool, fetched: FetchOutcome): (a: AttemptResult)
    ensures fetched.FetchThrew? ==> a == AttemptResult(None, false, Rejected(ErrorMessage(NormalizeThrown(fetched.error))))
    ensures fetched.Responded? ==> a.event == RateLimitEventOf(endpoint, fetched.headers)
  {
    match fetched
    case FetchThrew(e) => AttemptResult(None, false, Rejected(ErrorMessage(NormalizeThrown(e))))
    case Responded(status, headers, body) =>
      var (toast, settled) := Settle(verb, useRetry, status, headers, body);
      AttemptResult(RateLimitEventOf(endpoint, headers), toast, settled)
  }

  /** The rate-limit event is emitted before the status is looked at: a failing response with
      the three headers notifies exactly as a successful one does. */
  lemma EventIndependentOfStatus(verb: Verb, endpoint: string, useRetry: bool,
                                 s1: int, s2: int, headers: map<string, string>, b1: Body, b2: Body)
    ensures Attempt(verb, endpoint, useRetry, Responded(s1, headers, b1)).event
         == Attempt(verb, endpoint, useRetry, Responded(s2, headers, b2)).event
  {
  }

  /** A 429 whose body has an `error` object rejects with that body, its `error.resetIn`
      overwritten with the chosen reset time; the toast shows only without retry. */
  lemma RateLimitedAttempt(verb: Verb, endpoint: string, useRetry: bool, headers: map<string, string>,
                           body: map<string, Json>, error: map<string, Json>)
    requires "error" in body && body["error"] == JObj(error)
    ensures var a := Attempt(verb, endpoint, useRetry, Responded(429, headers, Parsed(JObj(body))));
      && a.settled == Rejected(RawBody(JObj(body["error" := JObj(error["resetIn" := ResetIn(JObj(body), RetryAfter(headers))])])))
      && (a.toast ==> !useRetry)
  {
    var resetIn := ResetIn(JObj(body), RetryAfter(headers));
    assert WithResetIn(JObj(body), resetIn) == Some(JObj(body["error" := JObj(error["resetIn" := resetIn])]));
  }

  /** Rejections the request makes with `Promise.reject(errorData)` keep the body as it is;
      only thrown values are turned into `Error`s. */
  lemma FailedResponseKeepsBody(verb: Verb, endpoint: string, useRetry: bool, status: int,
                                headers: map<string, string>, body: Json)
    requires !(200 <= status <= 299) && status != 429 && !body.JNull?
    ensures Attempt(verb, endpoint, useRetry, Responded(status, headers, Parsed(body))).settled == Rejected(RawBody(body))
  {
  }

  // ---------------------------------------------------------------------------------------
  // Retry with backoff

  /** A `Math.random()`-based jitter factor `1 + Math.random()`. */
  type Jitter = r: real | 1.0 <= r < 2.0 witness 1.0

  /** `retryWithBackoff`'s test: an `Error` whose message contains "rate limit", or an object
      whose truthy `error` has `type` "RATE_LIMIT" or a string `message` containing "rate limit". */
  predicate IsRateLimitFailure(reason: Reason)
  {
    match reason
    case ErrorMessage(message) => Contains(message, "rate limit")
    case RawBody(v) =>
      v.JObj? && "error" in v.fields && Truthy(v.fields["error"])
      && (Get(v.fields["error"], "type") == Some(JStr("RATE_LIMIT"))
          || (GetString(v.fields["error"], "message").Some?
              && Contains(GetString(v.fields["error"], "message").value, "rate limit")))
  }

  predicate Retryable(s: Settled)
  {
    s.Rejected? && IsRateLimitFailure(s.reason)
  }

  /** A rejection whose `error` object has `type` "RATE_LIMIT" is retried, whatever else the
      body and the error hold. */
  lemma RateLimitTypeRetryable(body: map<string, Json>, error: map<string, Json>)
    requires "type" in error && error["type"] == JStr("RATE_LIMIT")
    ensures Retryable(Rejected(RawBody(JObj(body["error" := JObj(error)]))))
  {
    var v := JObj(body["error" := JObj(error)]);
    assert v.fields["error"] == JObj(error);
    assert Get(JObj(error), "type") == Some(JStr("RATE_LIMIT"));
  }

  /** A 429 whose body's `error` object has `type` "RATE_LIMIT" is retried. */
  lemma RateLimitTypeOn429Retried(verb: Verb, endpoint: string, useRetry: bool, headers: map<string, string>,
                                  body: map<string, Json>, error: map<string, Json>)
    requires "error" in body && body["error"] == JObj(error)
    requires "type" in error && error["type"] == JStr("RATE_LIMIT")
    ensures Retryable(Attempt(verb, endpoint, useRetry, Responded(429, headers, Parsed(JObj(body)))).settled)
  {
    RateLimitedAttempt(verb, endpoint, useRetry, headers, body, error);
    var updated := error["resetIn" := ResetIn(JObj(body), RetryAfter(headers))];
    RateLimitTypeRetryable(body, updated);
  }

  /** How a run of attempts ends: the settlement, the number of calls, and the waits between them. */
  datatype RunResult = RunResult(settled: Settled, calls: nat, waits: seq<real>)

  /** `retryWithBackoff(fn, retries, delay)`, with `outcomes(k)` the settlement of the k-th call
      of `fn`; the wait before the retry that follows call `start` uses `jitter(start)`. */
  function Retry(outcomes: nat -> Settled, jitter: nat -> Jitter, start: nat, retries: nat, delay: real): RunResult
    decreases retries
  {
    var r := outcomes(start);
    if retries > 0 && Retryable(r) then
      var rest := Retry(outcomes, jitter, start + 1, retries - 1, delay * 2.0);
      RunResult(rest.settled, rest.calls + 1, [delay * jitter(start)] + rest.waits)
    else RunResult(r, 1, [])
  }

  function Outcomes(verb: Verb, endpoint: string, useRetry: bool, fetched: nat -> FetchOutcome): nat -> Settled
  {
    (k: nat) => Attempt(verb, endpoint, useRetry, fetched(k)).settled
  }

  /** One retry: the call at `start` failed with a rate limit and budget remains. */
  lemma RetryStep(outcomes: nat -> Settled, jitter: nat -> Jitter, start: nat, retries: nat, delay: real)
    requires retries > 0 && Retryable(outcomes(start))
    ensures var run := Retry(outcomes, jitter, start, retries, delay);
      var rest := Retry(outcomes, jitter, start + 1, retries - 1, delay * 2.0);
      run.settled == rest.settled && run.calls == rest.calls + 1 && run.waits == [delay * jitter(start)] + rest.waits
  {
  }

  /** No retry: the call at `start` settled otherwise, or the budget is spent. */
  lemma RetryStop(outcomes: nat -> Settled, jitter: nat -> Jitter, start: nat, retries: nat, delay: real)
    requires !(retries > 0 && Retryable(outcomes(start)))
    ensures Retry(outcomes, jitter, start, retries, delay) == RunResult(outcomes(start), 1, [])
  {
  }

  /** A whole request: with `useRetry`, `retryWithBackoff(fetchFn)`; otherwise one call. */
  function Run(verb: Verb, endpoint: string, useRetry: bool, fetched: nat -> FetchOutcome, jitter: nat -> Jitter): RunResult
  {
    var outcomes := Outcomes(verb, endpoint, useRetry, fetched);
    if useRetry then Retry(outcomes, jitter, 0, MaxRetries, BaseDelay) else RunResult(outcomes(0), 1, [])
  }

  /** The rate-limit event of each attempt. */
  function EventOf(verb: Verb, endpoint: string, useRetry: bool, fetched: nat -> FetchOutcome): nat -> Option<RateLimitEvent>
  {
    (k: nat) => Attempt(verb, endpoint, useRetry, fetched(k)).event
  }

  /** The events the first `n` attempts broadcast, in order. */
  function Events(eventOf: nat -> Option<RateLimitEvent>, n: nat): seq<RateLimitEvent>
  {
    if n == 0 then []
    else Events(eventOf, n - 1) + (if eventOf(n - 1).Some? then [eventOf(n - 1).value] else [])
  }

  /** The shape of every run: between 1 and `retries + 1` calls, one wait fewer than calls,
      and the result is that of the last call, unchanged; the run stops before its retry
      budget is spent only on a result that is not retryable. */
  lemma {:induction false} RetryShape(outcomes: nat -> Settled, jitter: nat -> Jitter, start: nat, retries: nat, delay: real)
    ensures var run := Retry(outcomes, jitter, start, retries, delay);
      && 1 <= run.calls <= retries + 1
      && |run.waits| == run.calls - 1
      && run.settled == outcomes(start + run.calls - 1)
      && (run.calls <= retries ==> !Retryable(run.settled))
    decreases retries
  {
    if retries > 0 && Retryable(outcomes(start)) {
      RetryShape(outcomes, jitter, start + 1, retries - 1, delay * 2.0);
    }
  }

  /** Every call before the last one failed with a rate limit: only those are retried. */
  lemma {:induction false} RetryOnlyRateLimits(outcomes: nat -> Settled, jitter: nat -> Jitter, start: nat, retries: nat, delay: real)
    ensures var run := Retry(outcomes, jitter, start, retries, delay);
      forall k :: start <= k < start + run.calls - 1 ==> Retryable(outcomes(k))
    decreases retries
  {
    if retries > 0 && Retryable(outcomes(start)) {
      RetryOnlyRateLimits(outcomes, jitter, start + 1, retries - 1, delay * 2.0);
    }
  }

  /** The nominal wait before retry `k + 1` when the first wait is `delay`: doubled `k` times. */
  function Nominal(delay: real, k: nat): real
    decreases k
  {
    if k == 0 then delay else Nominal(delay * 2.0, k - 1)
  }

  /** The k-th wait is the nominal delay, doubled once per earlier retry, times the jitter
      drawn for it. */
  lemma RetryWaits(outcomes: nat -> Settled, jitter: nat -> Jitter, start: nat, retries: nat, delay: real)
    ensures var run := Retry(outcomes, jitter, start, retries, delay);
      forall k :: 0 <= k < |run.waits| ==> run.waits[k] == Nominal(delay, k) * jitter(start + k)
  {
    RetryWaitsNominal(outcomes, jitter, start, retries, delay);
  }

  /** Every wait is its nominal delay times the jitter of the call it follows. */
  ghost predicate NominalWaits(waits: seq<real>, jitter: nat -> Jitter, start: nat, delay: real)
  {
    forall k :: 0 <= k < |waits| ==> waits[k] == Nominal(delay, k) * jitter(start + k)
  }

  lemma {:induction false} RetryWaitsNominal(outcomes: nat -> Settled, jitter: nat -> Jitter, start: nat, retries: nat,
                                             delay: real)
    ensures NominalWaits(Retry(outcomes, jitter, start, retries, delay).waits, jitter, start, delay)
    decreases retries
  {
    var run := Retry(outcomes, jitter, start, retries, delay);
    RetryFirstWait(outcomes, jitter, start, retries, delay);
    if run.waits != [] {
      var rest := Retry(outcomes, jitter, start + 1, retries - 1, delay * 2.0);
      RetryWaitsNominal(outcomes, jitter, start + 1, retries - 1, delay * 2.0);
      WaitsCons(run.waits, rest.waits, jitter, start, delay);
    }
  }

  /** A run that waits at all waits first `delay` times the jitter of its first call, then as
      the run of the remaining retries does. */
  lemma RetryFirstWait(outcomes: nat -> Settled, jitter: nat -> Jitter, start: nat, retries: nat, delay: real)
    ensures var run := Retry(outcomes, jitter, start, retries, delay);
      run.waits != [] ==>
        && retries > 0
        && run.waits == [delay * jitter(start)] + Retry(outcomes, jitter, start + 1, retries - 1, delay * 2.0).waits
  {
  }

  /** Prepending the first wait to the waits of the retries that follow, whose nominal delay
      starts doubled, keeps every wait at its nominal delay times its jitter. */
  lemma WaitsCons(waits: seq<real>, later: seq<real>, jitter: nat -> Jitter, start: nat, delay: real)
    requires waits == [delay * jitter(start)] + later
    requires NominalWaits(later, jitter, start + 1, delay * 2.0)
    ensures NominalWaits(waits, jitter, start, delay)
  {
    forall k | 0 <= k < |waits| ensures waits[k] == Nominal(delay, k) * jitter(start + k) {
      if k > 0 {
        assert waits[k] == later[k - 1];
        assert start + k == start + 1 + (k - 1);
      }
    }
  }

  /** With retry enabled, `fn` runs at most four times, and the waits between its calls are
      1000, 2000 and 4000 ms, each times its jitter, so each lies in [nominal, 2 * nominal). */
  lemma RequestBounds(verb: Verb, endpoint: string, fetched: nat -> FetchOutcome, jitter: nat -> Jitter)
    ensures var run := Run(verb, endpoint, true, fetched, jitter);
      && 1 <= run.calls <= 4
      && |run.waits| == run.calls - 1
      && (forall k :: 0 <= k < |run.waits| ==> run.waits[k] == [1000.0, 2000.0, 4000.0][k] * jitter(k))
      && (forall k :: 0 <= k < |run.waits| ==>
            [1000.0, 2000.0, 4000.0][k] <= run.waits[k] < 2.0 * [1000.0, 2000.0, 4000.0][k])
  {
    DefaultRetryBounds(Outcomes(verb, endpoint, true, fetched), jitter, MaxRetries, BaseDelay);
  }

  /** The bounds of a run with the default retries and delay, stated over parameters so that
      the recursive definitions are not unrolled on the constants. */
  lemma DefaultRetryBounds(outcomes: nat -> Settled, jitter: nat -> Jitter, retries: nat, delay: real)
    requires retries == MaxRetries && delay == BaseDelay
    ensures var run := Retry(outcomes, jitter, 0, retries, delay);
      && 1 <= run.calls <= 4
      && |run.waits| == run.calls - 1
      && (forall k :: 0 <= k < |run.waits| ==> run.waits[k] == [1000.0, 2000.0, 4000.0][k] * jitter(k))
      && (forall k :: 0 <= k < |run.waits| ==>
            [1000.0, 2000.0, 4000.0][k] <= run.waits[k] < 2.0 * [1000.0, 2000.0, 4000.0][k])
  {
    var run := Retry(outcomes, jitter, 0, retries, delay);
    RetryShape(outcomes, jitter, 0, retries, delay);
    RetryWaits(outcomes, jitter, 0, retries, delay);
    forall k | 0 <= k < |run.waits|
      ensures run.waits[k] == [1000.0, 2000.0, 4000.0][k] * jitter(k)
      ensures [1000.0, 2000.0, 4000.0][k] <= run.waits[k] < 2.0 * [1000.0, 2000.0, 4000.0][k]
    {
      NominalTable(k);
      JitterBounds([1000.0, 2000.0, 4000.0][k], jitter(k));
    }
  }

  /** A positive delay times a jitter in [1, 2) lies in [delay, 2 * delay). */
  lemma JitterBounds(delay: real, j: Jitter)
    requires delay > 0.0
    ensures delay <= delay * j < 2.0 * delay
  {
  }

  /** The first three nominal waits from the base delay of 1000 ms. */
  lemma NominalTable(k: nat)
    requires k < 3
    ensures Nominal(BaseDelay, k) == [1000.0, 2000.0, 4000.0][k]
  {
    assert Nominal(1000.0, 1) == 2000.0;
    assert Nominal(1000.0, 2) == Nominal(2000.0, 1) == 4000.0;
  }

  /** A failure that is not a rate limit is passed on after exactly one call, retry or not. */
  lemma NonRateLimitFailureNotRetried(verb: Verb, endpoint: string, useRetry: bool,
                                      fetched: nat -> FetchOutcome, jitter: nat -> Jitter)
    requires !Retryable(Attempt(verb, endpoint, useRetry, fetched(0)).settled)
    ensures var run := Run(verb, endpoint, useRetry, fetched, jitter);
      run.calls == 1 && run.waits == [] && run.settled == Attempt(verb, endpoint, useRetry, fetched(0)).settled
  {
  }

  /** Three rate-limit failures and then a success: the request resolves with the fourth
      call's payload after exactly three waits. */
  lemma ThreeRateLimitsThenSuccess(verb: Verb, endpoint: string, fetched: nat -> FetchOutcome, jitter: nat -> Jitter)
    requires forall k :: 0 <= k < 3 ==> Retryable(Attempt(verb, endpoint, true, fetched(k)).settled)
    requires Attempt(verb, endpoint, true, fetched(3)).settled.Resolved?
    ensures var run := Run(verb, endpoint, true, fetched, jitter);
      run.calls == 4 && |run.waits| == 3 && run.settled == Attempt(verb, endpoint, true, fetched(3)).settled
  {
    var outcomes := Outcomes(verb, endpoint, true, fetched);
    assert Retryable(outcomes(0)) && Retryable(outcomes(1)) && Retryable(outcomes(2));
  }

  /** Four rate-limit failures: the fourth error propagates unchanged after three waits. */
  lemma RetriesExhausted(verb: Verb, endpoint: string, fetched: nat -> FetchOutcome, jitter: nat -> Jitter)
    requires forall k :: 0 <= k < 4 ==> Retryable(Attempt(verb, endpoint, true, fetched(k)).settled)
    ensures var run := Run(verb, endpoint, true, fetched, jitter);
      run.calls == 4 && |run.waits| == 3 && run.settled == Attempt(verb, endpoint, true, fetched(3)).settled
  {
    var outcomes := Outcomes(verb, endpoint, true, fetched);
    assert Retryable(outcomes(0)) && Retryable(outcomes(1)) && Retryable(outcomes(2));
  }

  /** A failed `fetch` (TypeError "Failed to fetch") rejects with the network-error message
      and, that message not mentioning a rate limit, is never retried. */
  lemma NetworkErrorNotRetried(verb: Verb, endpoint: string, useRetry: bool, stack: Option<string>)
    ensures var a := Attempt(verb, endpoint, useRetry, FetchThrew(ErrorValue("TypeError", "Failed to fetch", stack)));
      a.settled == Rejected(ErrorMessage(NetworkErrorMessage)) && a.event.None? && !Retryable(a.settled)
  {
    assert 'm' in "rate limit";
    assert 'm' !in NetworkErrorMessage;
    ContainsChar(NetworkErrorMessage, "rate limit", 'm');
  }

  /** Any thrown `Error` whose message mentions a rate limit keeps that message through the
      client's normalisation, so the attempt is retried. */
  lemma ThrownRateLimitRetried(verb: Verb, endpoint: string, useRetry: bool, name: string, message: string,
                               stack: Option<string>)
    requires Contains(message, "rate limit")
    ensures var a := Attempt(verb, endpoint, useRetry, FetchThrew(ErrorValue(name, message, stack)));
      a.settled == Rejected(ErrorMessage(message)) && Retryable(a.settled)
  {
    assert 'r' in "rate limit";
    ContainsChar(message, "rate limit", 'r');
    assert 'r' !in "Failed to fetch";
  }

  /** A 429 whose `error` is a string mentioning a rate limit makes the write-back throw, and
      the resulting TypeError quotes that string, so the attempt is still retried. */
  lemma StringErrorOn429Retried(verb: Verb, endpoint: string, useRetry: bool, headers: map<string, string>,
                                body: map<string, Json>, text: string)
    requires "error" in body && body["error"] == JStr(text) && Contains(text, "rate limit")
    ensures var a := Attempt(verb, endpoint, useRetry, Responded(429, headers, Parsed(JObj(body))));
      a.settled == Rejected(ErrorMessage(PrimitiveWriteMessage(JStr(text)))) && Retryable(a.settled)
  {
    PrimitiveErrorOn429(verb, useRetry, headers, body);
    PrimitiveWriteQuotes(text, "rate limit");
  }

  /** A 429 whose `error` is a truthy primitive: writing `resetIn` on it throws. */
  lemma PrimitiveErrorOn429(verb: Verb, useRetry: bool, headers: map<string, string>, body: map<string, Json>)
    requires "error" in body && Truthy(body["error"]) && !IsObject(body["error"])
    ensures Settle(verb, useRetry, 429, headers, Parsed(JObj(body)))
         == Caught(ErrorValue("TypeError", PrimitiveWriteMessage(body["error"]), None))
  {
    assert WithResetIn(JObj(body), ResetIn(JObj(body), RetryAfter(headers))).None?;
  }

  /** The TypeError text for a string `error` contains whatever the string contains. */
  lemma PrimitiveWriteQuotes(text: string, sub: string)
    requires Contains(text, sub)
    ensures Contains(PrimitiveWriteMessage(JStr(text)), sub)
  {
    var described := "string '" + text + "'";
    ContainsWithin("string '", text, "'", sub);
    ContainsWithin("Cannot create property 'resetIn' on ", described, "", sub);
    assert "Cannot create property 'resetIn' on " + described + "" == PrimitiveWriteMessage(JStr(text));
  }
}
