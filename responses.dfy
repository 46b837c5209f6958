/**
  The server side of the response envelope: success and error envelopes, validation errors,
  grouping of schema-validation issues, the heuristic classifier from a thrown value to an
  error kind, and the two fallback wrappers around handlers and failed requests.
  Trace-id generation (randomness and the clock) is a parameter, `generatedTraceId`.
 */
module Responses {
  import opened Wrappers
  import opened Strings
  import opened Js
  import K = ErrorKinds

  /** The `error` object of an error envelope. */
  datatype ErrorDetails = ErrorDetails(
    kind: K.ErrorKind,
    category: K.Category,
    severity: K.Severity,
    message: string,
    userMessage: string,
    recoveryAction: string,
    traceId: string,
    details: Option<map<string, Json>>)

  /** `{success: true, data}` or `{success: false, error}` */
  datatype Envelope = Success(data: Json) | Failure(error: ErrorDetails)

  /** A JSON response: HTTP status and envelope. */
  datatype Reply = Reply(status: int, envelope: Envelope)

  /** The envelope as it goes on the wire. */
  function ErrorDetailsJson(e: ErrorDetails): Json
  {
    var base := map[
      "type" := JStr(K.KindName(e.kind)),
      "category" := JStr(K.CategoryName(e.category)),
      "severity" := JStr(K.SeverityName(e.severity)),
      "message" := JStr(e.message),
      "userMessage" := JStr(e.userMessage),
      "recoveryAction" := JStr(e.recoveryAction),
      "traceId" := JStr(e.traceId)];
    JObj(if e.details.Some? then base["details" := JObj(e.details.value)] else base)
  }

  function EnvelopeJson(env: Envelope): Json
  {
    match env
    case Success(data) => JObj(map["success" := JBool(true), "data" := data])
    case Failure(e) => JObj(map["success" := JBool(false), "error" := ErrorDetailsJson(e)])
  }

  /** On the wire, an error envelope has a falsy `success` and names its kind in `error.type`. */
  lemma FailureJsonShape(e: ErrorDetails)
    ensures var body := EnvelopeJson(Failure(e));
      && Get(body, "success") == Some(JBool(false))
      && GetOpt(Get(body, "error"), "type") == Some(JStr(K.KindName(e.kind)))
      && GetOpt(Get(body, "error"), "message") == Some(JStr(e.message))
  {
    var base := map[
      "type" := JStr(K.KindName(e.kind)),
      "category" := JStr(K.CategoryName(e.category)),
      "severity" := JStr(K.SeverityName(e.severity)),
      "message" := JStr(e.message),
      "userMessage" := JStr(e.userMessage),
      "recoveryAction" := JStr(e.recoveryAction),
      "traceId" := JStr(e.traceId)];
    assert base["type"] == JStr(K.KindName(e.kind));
    assert base["message"] == JStr(e.message);
  }

  /** The error details `apiError` and `handleApiError` build: everything but the message,
      the trace id and the details comes from the tables. */
  function Details(kind: K.ErrorKind, message: string, traceId: string, details: Option<map<string, Json>>): (e: ErrorDetails)
    ensures e.kind == kind && e.message == message && e.traceId == traceId && e.details == details
    ensures e.category == K.CategoryOf(kind) && e.severity == K.SeverityOf(kind)
    ensures e.userMessage == K.UserMessage(kind) && e.recoveryAction == K.RecoveryAction(kind)
  {
    ErrorDetails(kind, K.CategoryOf(kind), K.SeverityOf(kind), message, K.UserMessage(kind),
      K.RecoveryAction(kind), traceId, details)
  }

  /** `apiResponse(data, status = 200)` */
  function ApiResponse(data: Json, status: Option<int>): (r: Reply)
    ensures r.envelope == Success(data)
    ensures status.None? ==> r.status == 200
    ensures status.Some? ==> r.status == status.value
  {
    Reply(if status.Some? then status.value else 200, Success(data))
  }

  /** `apiError(type, message?, details?, traceId?)`; `generatedTraceId` is what
      `generateTraceId()` would return. */
  function ApiError(kind: K.ErrorKind, message: Option<string>, details: Option<map<string, Json>>,
                    traceId: Option<string>, generatedTraceId: string): (r: Reply)
    ensures r.status == K.StatusCode(kind)
    ensures r.envelope.Failure? && r.envelope.error.kind == kind
    ensures r.envelope.error.category == K.CategoryOf(kind)
    ensures r.envelope.error.severity == K.SeverityOf(kind)
    ensures r.envelope.error.userMessage == K.UserMessage(kind)
    ensures r.envelope.error.recoveryAction == K.RecoveryAction(kind)
    ensures message.Some? && message.value != "" ==> r.envelope.error.message == message.value
    ensures message.None? || message.value == "" ==> r.envelope.error.message == K.DefaultMessage(kind)
    ensures traceId.Some? && traceId.value != "" ==> r.envelope.error.traceId == traceId.value
    ensures traceId.None? || traceId.value == "" ==> r.envelope.error.traceId == generatedTraceId
    ensures r.envelope.error.details == details
  {
    Reply(K.StatusCode(kind),
      Failure(Details(kind, OrElse(message, K.DefaultMessage(kind)), OrElse(traceId, generatedTraceId), details)))
  }

  /** `{errors}`: a field-to-messages record as JSON. */
  function ErrorsJson(errors: map<string, seq<string>>): Json
  {
    JObj(map k | k in errors :: JArr(seq(|errors[k]|, i requires 0 <= i < |errors[k]| => JStr(errors[k][i]))))
  }

  /** `validationError(errors, message = ERROR_MESSAGES.VALIDATION_ERROR)` */
  function ValidationError(errors: map<string, seq<string>>, message: Option<string>, generatedTraceId: string): Reply
  {
    ApiError(K.ValidationError, Some(if message.Some? then message.value else K.DefaultMessage(K.ValidationError)),
      Some(map["errors" := ErrorsJson(errors)]), None, generatedTraceId)
  }

  /** A validation error is a 422 with the supplied message, or the standard validation
      message when none (or an empty one) is given, and its details hold exactly the errors. */
  lemma ValidationErrorShape(errors: map<string, seq<string>>, message: Option<string>, generatedTraceId: string)
    ensures var r := ValidationError(errors, message, generatedTraceId);
      && r.status == 422
      && r.envelope.Failure?
      && r.envelope.error.kind == K.ValidationError
      && r.envelope.error.message == (if message.Some? && message.value != "" then message.value else K.DefaultMessage(K.ValidationError))
      && r.envelope.error.details == Some(map["errors" := ErrorsJson(errors)])
      && r.envelope.error.traceId == generatedTraceId
  {
  }

  // ---------------------------------------------------------------------------------------
  // formatZodErrors

  /** One schema-validation issue: the path to the offending field and the message. */
  datatype Issue = Issue(path: seq<string>, message: string)

  /** The record key of an issue: its path joined with ".". */
  function PathKey(issue: Issue): string
  {
    Join(issue.path, ".")
  }

  /** The messages of the issues filed under `key`, in input order. */
  function MessagesFor(issues: seq<Issue>, key: string): (r: seq<string>)
    ensures |r| <= |issues|
  {
    if issues == [] then []
    else
      var last := issues[|issues| - 1];
      MessagesFor(issues[..|issues| - 1], key) + (if PathKey(last) == key then [last.message] else [])
  }

  /** The distinct keys of the issues, in order of first appearance. */
  function PathKeys(issues: seq<Issue>): (r: seq<string>)
  {
    if issues == [] then []
    else
      var keys := PathKeys(issues[..|issues| - 1]);
      var k := PathKey(issues[|issues| - 1]);
      if k in keys then keys else keys + [k]
  }

  /** The issues' keys in `PathKeys` are exactly the keys of the issues. */
  lemma {:induction false} PathKeysAre(issues: seq<Issue>, key: string)
    ensures key in PathKeys(issues) <==> exists i :: 0 <= i < |issues| && PathKey(issues[i]) == key
  {
    if issues != [] {
      var init := issues[..|issues| - 1];
      PathKeysAre(init, key);
      if exists i :: 0 <= i < |init| && PathKey(init[i]) == key {
        var i :| 0 <= i < |init| && PathKey(init[i]) == key;
        assert issues[i] == init[i];
      }
      if exists i :: 0 <= i < |issues| && PathKey(issues[i]) == key {
        var i :| 0 <= i < |issues| && PathKey(issues[i]) == key;
        if i < |init| { assert init[i] == issues[i]; }
      }
    }
  }

  /** The keys a plain `{}` inherits from `Object.prototype`. Reading one gives a truthy
      function or object, so the `= []` is skipped and the `.push` that follows is not a
      function: the call throws a TypeError. */
  predicate IsInheritedKey(key: string)
  {
    key in {"constructor", "hasOwnProperty", "isPrototypeOf", "propertyIsEnumerable", "toLocaleString",
            "toString", "valueOf", "__proto__", "__defineGetter__", "__defineSetter__",
            "__lookupGetter__", "__lookupSetter__"}
  }

  /** Some issue's joined path names an inherited key. */
  predicate HitsInheritedKey(issues: seq<Issue>)
  {
    exists i :: 0 <= i < |issues| && IsInheritedKey(PathKey(issues[i]))
  }

  /** `formatZodErrors(zodErrors)`: `issues` is `None` when `errors` is missing or not an array,
      and the result is `None` when the call throws. It throws exactly when some joined path is
      an inherited key; otherwise it files every message under its joined path, in input order,
      and has no other key. */
  method FormatZodErrors(issues: Option<seq<Issue>>) returns (formatted: Option<map<string, seq<string>>>)
    ensures formatted.None? <==> issues.Some? && HitsInheritedKey(issues.value)
    ensures issues.None? ==> formatted == Some(map[])
    ensures issues.Some? && formatted.Some? ==>
      forall key :: key in formatted.value <==> key in PathKeys(issues.value)
    ensures issues.Some? && formatted.Some? ==>
      forall key :: key in formatted.value ==> formatted.value[key] == MessagesFor(issues.value, key)
  {
    var grouped: map<string, seq<string>> := map[];
    if issues.Some? {
      var all := issues.value;
      var i := 0;
      while i < |all|
        invariant 0 <= i <= |all|
        invariant forall j :: 0 <= j < i ==> !IsInheritedKey(PathKey(all[j]))
        invariant GroupsOf(grouped, all[..i])
      {
        var issue := all[i];
        var path := PathKey(issue);
        if IsInheritedKey(path) {
          formatted := None;
          return;
        }
        GroupStep(all[..i], issue, grouped);
        // `if (!formattedErrors[path]) formattedErrors[path] = []` followed by the push
        grouped := grouped[path := (if path in grouped then grouped[path] else []) + [issue.message]];
        assert all[..i + 1] == all[..i] + [issue];
        i := i + 1;
      }
      assert all[..|all|] == all;
    }
    formatted := Some(grouped);
  }

  /** `grouped` files the messages of `issues` under their joined paths and has no other key. */
  ghost predicate GroupsOf(grouped: map<string, seq<string>>, issues: seq<Issue>)
  {
    && (forall key :: key in grouped <==> key in PathKeys(issues))
    && (forall key :: key in grouped ==> grouped[key] == MessagesFor(issues, key))
  }

  /** Filing one more issue into a grouping of the earlier ones gives the grouping of all. */
  lemma GroupStep(done: seq<Issue>, issue: Issue, grouped: map<string, seq<string>>)
    requires GroupsOf(grouped, done)
    ensures var path := PathKey(issue);
      GroupsOf(grouped[path := (if path in grouped then grouped[path] else []) + [issue.message]], done + [issue])
  {
    var all := done + [issue];
    assert all[..|all| - 1] == done;
    var path := PathKey(issue);
    if path !in grouped {
      MessagesForAbsent(done, path);
    }
  }

  /** A path naming a method of `Object.prototype` makes the grouping throw, whatever the
      other issues are. */
  method FormatZodErrorsThrowsOnConstructor(before: seq<Issue>, message: string, after: seq<Issue>)
    returns (formatted: Option<map<string, seq<string>>>)
    ensures formatted.None?
  {
    var issues := before + [Issue(["constructor"], message)] + after;
    assert Join(["constructor"], ".") == "constructor";
    assert issues[|before|] == Issue(["constructor"], message);
    formatted := FormatZodErrors(Some(issues));
  }

  /** A key that no issue has gets no messages. */
  lemma {:induction false} MessagesForAbsent(issues: seq<Issue>, key: string)
    requires key !in PathKeys(issues)
    ensures MessagesFor(issues, key) == []
  {
    if issues != [] {
      MessagesForAbsent(issues[..|issues| - 1], key);
    }
  }

  lemma {:induction false} PathKeysDistinct(issues: seq<Issue>)
    ensures forall i, j :: 0 <= i < j < |PathKeys(issues)| ==> PathKeys(issues)[i] != PathKeys(issues)[j]
  {
    if issues != [] {
      PathKeysDistinct(issues[..|issues| - 1]);
    }
  }

  /** Total number of messages filed under the given keys. */
  function MessageCount(issues: seq<Issue>, keys: seq<string>): nat
  {
    if keys == [] then 0
    else MessageCount(issues, keys[..|keys| - 1]) + |MessagesFor(issues, keys[|keys| - 1])|
  }

  /** Adding one issue adds one message under its key and none under any other. */
  lemma {:induction false} MessageCountStep(issues: seq<Issue>, issue: Issue, keys: seq<string>)
    requires forall i, j :: 0 <= i < j < |keys| ==> keys[i] != keys[j]
    ensures MessageCount(issues + [issue], keys) == MessageCount(issues, keys) + (if PathKey(issue) in keys then 1 else 0)
  {
    var s := issues + [issue];
    assert s[..|s| - 1] == issues;
    if keys != [] {
      var init := keys[..|keys| - 1];
      MessageCountStep(issues, issue, init);
      assert PathKey(issue) in keys <==> PathKey(issue) in init || PathKey(issue) == keys[|keys| - 1];
      if PathKey(issue) == keys[|keys| - 1] {
        assert PathKey(issue) !in init;
      }
    }
  }

  /** Grouping neither loses nor invents messages: the groups hold exactly as many messages
      as there were issues. */
  lemma {:induction false} MessageCountPreserved(issues: seq<Issue>)
    ensures MessageCount(issues, PathKeys(issues)) == |issues|
  {
    if issues != [] {
      var init := issues[..|issues| - 1];
      var last := issues[|issues| - 1];
      assert issues == init + [last];
      MessageCountPreserved(init);
      PathKeysDistinct(init);
      MessageCountStep(init, last, PathKeys(init));
      var k := PathKey(last);
      if k !in PathKeys(init) {
        MessagesForAbsent(init, k);
        assert MessagesFor(issues, k) == [last.message];
        assert PathKeys(issues) == PathKeys(init) + [k];
        assert PathKeys(issues)[..|PathKeys(issues)| - 1] == PathKeys(init);
      }
    }
  }

  // ---------------------------------------------------------------------------------------
  // mapErrorToType

  /** `mapErrorToType(error)`: first match wins, substring tests are case-sensitive, and
      anything that is not an `Error` is an internal server error. */
  function MapErrorToType(e: Thrown): K.ErrorKind
  {
    if !e.ErrorValue? then K.InternalServerError
    else
      var name, msg := e.name, e.message;
      if name == "PostgrestError" then K.DatabaseError
      else if name == "AuthError" || Contains(msg, "authentication") then K.Unauthorized
      else if Contains(msg, "permission") || Contains(msg, "forbidden") then K.Forbidden
      else if Contains(msg, "not found") || Contains(msg, "404") then K.NotFound
      else if Contains(msg, "rate limit") then K.RateLimit
      else if Contains(msg, "openai") || Contains(msg, "gpt") then K.OpenAiError
      else if Contains(msg, "twitter") || Contains(msg, "x.com") then K.TwitterError
      else if Contains(msg, "stripe") || Contains(msg, "payment") then K.PaymentError
      else if Contains(msg, "subscription") then K.SubscriptionError
      else K.InternalServerError
  }

  /** One classification rule: an error matches when its name is one of `names` or its
      message contains one of `fragments`. */
  datatype Rule = Rule(names: seq<string>, fragments: seq<string>, kind: K.ErrorKind)

  predicate RuleMatches(rule: Rule, name: string, message: string)
  {
    name in rule.names || exists f :: f in rule.fragments && Contains(message, f)
  }

  /** The classification rules as a table, in the order they are tried. */
  const Rules: seq<Rule> := [
    Rule(["PostgrestError"], [], K.DatabaseError),
    Rule(["AuthError"], ["authentication"], K.Unauthorized),
    Rule([], ["permission", "forbidden"], K.Forbidden),
    Rule([], ["not found", "404"], K.NotFound),
    Rule([], ["rate limit"], K.RateLimit),
    Rule([], ["openai", "gpt"], K.OpenAiError),
    Rule([], ["twitter", "x.com"], K.TwitterError),
    Rule([], ["stripe", "payment"], K.PaymentError),
    Rule([], ["subscription"], K.SubscriptionError)]

  /** The kind of the first rule that matches, or `fallback`. */
  function FirstMatch(rules: seq<Rule>, name: string, message: string, fallback: K.ErrorKind): (k: K.ErrorKind)
    ensures k == fallback || exists i :: 0 <= i < |rules| && rules[i].kind == k && RuleMatches(rules[i], name, message)
  {
    if rules == [] then fallback
    else if RuleMatches(rules[0], name, message) then rules[0].kind
    else FirstMatch(rules[1..], name, message, fallback)
  }

  lemma FirstMatchAt(rules: seq<Rule>, name: string, message: string, fallback: K.ErrorKind, i: nat)
    requires i < |rules| && RuleMatches(rules[i], name, message)
    requires forall j :: 0 <= j < i ==> !RuleMatches(rules[j], name, message)
    ensures FirstMatch(rules, name, message, fallback) == rules[i].kind
  {
    if i > 0 {
      FirstMatchAt(rules[1..], name, message, fallback, i - 1);
    }
  }

  lemma FirstMatchNone(rules: seq<Rule>, name: string, message: string, fallback: K.ErrorKind)
    requires forall j :: 0 <= j < |rules| ==> !RuleMatches(rules[j], name, message)
    ensures FirstMatch(rules, name, message, fallback) == fallback
  {
    if rules != [] {
      FirstMatchNone(rules[1..], name, message, fallback);
    }
  }

  /** The if-chain agrees with the rule table read top to bottom. */
  lemma MapErrorToTypeIsFirstMatch(e: Thrown)
    ensures MapErrorToType(e) == if e.ErrorValue? then FirstMatch(Rules, e.name, e.message, K.InternalServerError)
                                 else K.InternalServerError
  {
    if e.ErrorValue? {
      if MapErrorToType(e) == K.InternalServerError {
        NoRuleMatched(e);
      } else {
        RuleAtIndexMatched(e);
      }
    }
  }

  lemma NoRuleMatched(e: Thrown)
    requires e.ErrorValue? && MapErrorToType(e) == K.InternalServerError
    ensures FirstMatch(Rules, e.name, e.message, K.InternalServerError) == K.InternalServerError
  {
    var n, m := e.name, e.message;
    forall j | 0 <= j < |Rules| ensures !RuleMatches(Rules[j], n, m) {
      RuleNotMatched(j, n, m);
    }
    FirstMatchNone(Rules, n, m, K.InternalServerError);
  }

  lemma RuleAtIndexMatched(e: Thrown)
    requires e.ErrorValue? && MapErrorToType(e) != K.InternalServerError
    ensures FirstMatch(Rules, e.name, e.message, K.InternalServerError) == MapErrorToType(e)
  {
    var n, m := e.name, e.message;
    var k := MapErrorToType(e);
    var i := RuleIndex(k);
    assert RuleMatches(Rules[i], n, m) by { RuleMatched(i, n, m); }
    forall j | 0 <= j < i ensures !RuleMatches(Rules[j], n, m) {
      RuleNotMatched(j, n, m);
    }
    FirstMatchAt(Rules, n, m, K.InternalServerError, i);
  }

  /** Position of a kind's rule in `Rules` (only the nine kinds the classifier produces besides the fallback). */
  function RuleIndex(k: K.ErrorKind): nat
  {
    match k
    case DatabaseError => 0
    case Unauthorized => 1
    case Forbidden => 2
    case NotFound => 3
    case RateLimit => 4
    case OpenAiError => 5
    case TwitterError => 6
    case PaymentError => 7
    case SubscriptionError => 8
    case _ => 9
  }

  /** Rule `j` matches exactly when the test at step `j` of the chain succeeds. */
  lemma RuleMatchesStep(j: nat, n: string, m: string)
    requires j < |Rules|
    ensures RuleMatches(Rules[j], n, m) <==> StepMatches(j, n, m)
  {
    var r := Rules[j];
    if j == 0 {
      assert r.names == ["PostgrestError"] && r.fragments == [];
    } else if j == 1 {
      assert r.names == ["AuthError"] && r.fragments == ["authentication"];
    } else {
      assert r.names == [];
      assert j == 2 ==> r.fragments == ["permission", "forbidden"];
      assert j == 3 ==> r.fragments == ["not found", "404"];
      assert j == 4 ==> r.fragments == ["rate limit"];
      assert j == 5 ==> r.fragments == ["openai", "gpt"];
      assert j == 6 ==> r.fragments == ["twitter", "x.com"];
      assert j == 7 ==> r.fragments == ["stripe", "payment"];
      assert j == 8 ==> r.fragments == ["subscription"];
    }
  }

  /** The test at step `j` of the if-chain. */
  predicate StepMatches(j: nat, n: string, m: string)
  {
    if j == 0 then n == "PostgrestError"
    else if j == 1 then n == "AuthError" || Contains(m, "authentication")
    else if j == 2 then Contains(m, "permission") || Contains(m, "forbidden")
    else if j == 3 then Contains(m, "not found") || Contains(m, "404")
    else if j == 4 then Contains(m, "rate limit")
    else if j == 5 then Contains(m, "openai") || Contains(m, "gpt")
    else if j == 6 then Contains(m, "twitter") || Contains(m, "x.com")
    else if j == 7 then Contains(m, "stripe") || Contains(m, "payment")
    else if j == 8 then Contains(m, "subscription")
    else false
  }

  lemma RuleMatched(i: nat, n: string, m: string)
    requires i < |Rules| && StepMatches(i, n, m)
    ensures RuleMatches(Rules[i], n, m)
  {
    RuleMatchesStep(i, n, m);
  }

  lemma RuleNotMatched(j: nat, n: string, m: string)
    requires j < |Rules| && !StepMatches(j, n, m)
    ensures !RuleMatches(Rules[j], n, m)
  {
    RuleMatchesStep(j, n, m);
  }

  /** A thrown value is classified as a rate limit exactly when it is an `Error` whose message
      contains "rate limit" and that no earlier rule claims. */
  lemma MapErrorToTypeRateLimit(e: Thrown)
    ensures MapErrorToType(e) == K.RateLimit <==>
      e.ErrorValue? && Contains(e.message, "rate limit")
      && !StepMatches(0, e.name, e.message) && !StepMatches(1, e.name, e.message)
      && !StepMatches(2, e.name, e.message) && !StepMatches(3, e.name, e.message)
  {
  }

  // ---------------------------------------------------------------------------------------
  // withErrorHandling and handleApiError

  /** What the wrapped handler did: returned a response, or threw. */
  datatype HandlerOutcome = Returned(reply: Reply) | Threw(error: Thrown)

  const UnexpectedHandlerMessage: string := "An unexpected error occurred while processing your request."

  /** The development-only `details` record: stack, message and type of the thrown value.
      A stack the engine left undefined is dropped when the response is serialised. */
  function DevelopmentDetails(e: Thrown): map<string, Json>
  {
    var base := map[
      "message" := JStr(if e.ErrorValue? then e.message else ThrownToString(e)),
      "type" := JStr(if e.ErrorValue? then e.name else "UnknownError")];
    if e.ErrorValue? && e.stack.Some? then base["stack" := JStr(e.stack.value)] else base
  }

  /** `withErrorHandling(handler)` applied to one call. */
  function WithErrorHandling(outcome: HandlerOutcome, development: bool, generatedTraceId: string): (r: Reply)
    ensures outcome.Returned? ==> r == outcome.reply
    ensures outcome.Threw? ==>
      var e := outcome.error;
      var kind := MapErrorToType(e);
      && r.status == K.StatusCode(kind)
      && r.envelope.Failure?
      && r.envelope.error == Details(kind,
           (if e.ErrorValue? && e.message != "" then e.message
            else if e.ErrorValue? then K.DefaultMessage(kind)
            else UnexpectedHandlerMessage),
           generatedTraceId,
           if development then Some(DevelopmentDetails(e)) else None)
  {
    match outcome
    case Returned(reply) => reply
    case Threw(e) =>
      var details := if development then Some(DevelopmentDetails(e)) else None;
      var message := if e.ErrorValue? then e.message else UnexpectedHandlerMessage;
      ApiError(MapErrorToType(e), Some(message), details, Some(generatedTraceId), generatedTraceId)
  }

  /** `handleApiError(error, fallbackData)`: `fallback` is `None` when `fallbackData` is undefined. */
  function HandleApiError(e: Thrown, fallback: Option<Json>, generatedTraceId: string): (r: Envelope)
    ensures fallback.Some? ==> r == Success(fallback.value)
    ensures fallback.None? ==>
      var kind := MapErrorToType(e);
      r == Failure(Details(kind, if e.ErrorValue? then e.message else K.DefaultMessage(kind), generatedTraceId, None))
  {
    if fallback.Some? then Success(fallback.value)
    else
      var kind := MapErrorToType(e);
      Failure(Details(kind, if e.ErrorValue? then e.message else K.DefaultMessage(kind), generatedTraceId, None))
  }

  /** Any fallback, even `null`, `0`, `false` or `""`, wins over the error. */
  lemma HandleApiErrorFalsyFallback(e: Thrown, v: Json, id: string)
    requires !Truthy(v)
    ensures HandleApiError(e, Some(v), id) == Success(v)
  {
  }

  /** The two wrappers differ on an `Error` with an empty message: the handler wrapper
      substitutes the kind's default message, `handleApiError` keeps the empty one. */
  lemma EmptyMessageDiffers(name: string, stack: Option<string>, id: string)
    ensures var e := ErrorValue(name, "", stack);
      var kind := MapErrorToType(e);
      && WithErrorHandling(Threw(e), false, id).envelope.error.message == K.DefaultMessage(kind)
      && HandleApiError(e, None, id).error.message == ""
  {
  }
}
