/**
 * The `log-usage` function: takes one client event, strips the identifiers out of its payload,
 * stores it as a `usage_events` row, forwards it to Logflare when that is configured, and asks
 * for the trending statistics to be rebuilt when a video was opened.
 */
module UsageLog {
  import opened Wrappers
  import opened JsValue
  import opened Text

  // ---------------------------------------------------------------- `toString`

  /** `String(n)` for an integer. */
  function IntText(n: int): string {
    if n < 0 then "-" + NatText(-n) else NatText(n)
  }

  /** `parts.join(',')`. */
  function JoinComma(parts: seq<string>): string {
    if parts == [] then "" else if |parts| == 1 then parts[0] else parts[0] + "," + JoinComma(parts[1..])
  }

  /**
   * Whether `v.toString()` throws. JSON holds no functions, so an object's own `toString` key is
   * never callable; an array converts each non-null element to text, and such an object among them
   * throws there too (its inherited `valueOf` gives back the object, not a primitive).
   */
  predicate ToStringThrows(v: Value)
    decreases v
  {
    match v
    case Obj(fields) => "toString" in fields
    case Arr(items) => exists i :: 0 <= i < |items| && ToStringThrows(items[i])
    case _ => false
  }

  /**
   * `v.toString()` for a JSON value on which it does not throw: arrays join their elements with commas (a `null` element
   * becoming the empty text), objects print as `[object Object]`.
   */
  function ToText(v: Value): string
    decreases v
  {
    match v
    case Null => "null"
    case Bool(b) => if b then "true" else "false"
    case Num(n) => IntText(n)
    case Str(s) => s
    case Arr(items) => JoinComma(seq(|items|, i requires 0 <= i < |items| => if items[i] == Null then "" else ToText(items[i])))
    case Obj(_) => "[object Object]"
  }

  /** A number prints as its digits: the text of a numeric event type is never blank. */
  lemma NumberTextNotBlank(n: int)
    ensures Trim(ToText(Num(n))) != ""
  {
    var r := ToText(Num(n));
    assert !IsSpace(r[|r| - 1]);
  }

  // ---------------------------------------------------------------- the request

  datatype Body = Malformed | Parsed(json: Value)
  datatype UsageRequest = UsageRequest(httpMethod: string, body: Body)

  /** The function's environment; an unset variable is the empty text. */
  datatype UsageEnv = UsageEnv(supabaseUrl: string, serviceRoleKey: string, logflareSource: string, logflareApiKey: string)

  /** What a request leads to: the status code, the inserted row, the Logflare body and whether the trending rebuild runs. */
  datatype UsageReply = UsageReply(code: int, row: Option<Value>, logflare: Option<Value>, refreshTrending: bool)

  /** `payload.eventType?.toString()` throws: the event type is present and its conversion fails. */
  predicate EventTypeThrows(body: Value) {
    Field(body, "eventType").Some? && ToStringThrows(Field(body, "eventType").value)
  }

  /** A reply that stores, forwards and triggers nothing. */
  function Refused(code: int): UsageReply {
    UsageReply(code, None, None, false)
  }

  /** `payload.eventType?.toString().trim()`; `None` for a missing or `null` event type. */
  function EventTypeOf(body: Value): Option<string>
    requires body != Null
  {
    match Field(body, "eventType")
    case None => None
    case Some(Null) => None
    case Some(t) => Some(Trim(ToText(t)))
  }

  /** `sanitizePayload`: an object or array passes through the JSON round trip unchanged; anything else is dropped. */
  function SanitizePayload(input: Option<Value>): (r: Option<Value>)
    ensures r.Some? <==> input.Some? && (input.value.Obj? || input.value.Arr?)
    ensures r.Some? ==> r == input
  {
    if input.Some? && Truthy(input.value) && (input.value.Obj? || input.value.Arr?) then input else None
  }

  /** `delete payload[key]` when the key holds a truthy value. */
  function DropIfTruthy(payload: Option<Value>, key: string): (r: Option<Value>)
    ensures r.Some? <==> payload.Some?
  {
    if payload.Some? && payload.value.Obj? && key in payload.value.fields && Truthy(payload.value.fields[key])
    then Some(Obj(payload.value.fields - {key}))
    else payload
  }

  /** `typeof payload.user_id === 'string' ? payload.user_id : undefined`. */
  function UserIdOf(payload: Option<Value>): Option<string> {
    match FieldOf(payload, "user_id")
    case Some(Str(s)) => Some(s)
    case _ => None
  }

  /** `x ?? null`. */
  function OrNull(v: Option<Value>): (r: Value)
    ensures v.Some? ==> r == v.value
    ensures v.None? ==> r == Null
  {
    if v.Some? then v.value else Null
  }

  /** `persistEvent`'s row: exactly the four columns, an absent value stored as `null`. */
  function RowFor(eventType: string, payload: Option<Value>, sessionId: Option<Value>, userId: Option<string>): Value {
    Obj(map[
      "event_type" := Str(eventType),
      "event_payload" := OrNull(payload),
      "session_id" := OrNull(sessionId),
      "user_id" := if userId.Some? then Str(userId.value) else Null])
  }

  /** `{ event_type, ...payload }`: the payload's own keys are spread after `event_type` and so override it. */
  function LogEntry(eventType: string, payload: Option<Value>): map<string, Value> {
    if payload.Some? && payload.value.Obj? then map["event_type" := Str(eventType)] + payload.value.fields
    else map["event_type" := Str(eventType)]
  }

  /** `forwardToLogflare`'s body, or `None` when the source token or the API key is unset. */
  function LogflareBody(env: UsageEnv, eventType: string, payload: Option<Value>): Option<Value> {
    if env.logflareSource == "" || env.logflareApiKey == "" then None
    else
      var body := map["source" := Str(env.logflareSource), "log_entry" := Obj(LogEntry(eventType, payload))];
      Some(Obj(if payload.Some? then body["metadata" := payload.value] else body))
  }

  /** `maybeRefreshTrending`'s gate. */
  predicate RefreshesTrending(eventType: string) {
    eventType == "feed.video_opened"
  }

  /** The reply the handler gives, step by step as the source takes them. */
  function ExpectedUsage(req: UsageRequest, env: UsageEnv): UsageReply {
    if req.httpMethod != "POST" then Refused(405)
    else if env.supabaseUrl == "" || env.serviceRoleKey == "" then Refused(500)
    else if req.body.Malformed? then Refused(400)
    else if req.body.json == Null then Refused(500)
    else if EventTypeThrows(req.body.json) then Refused(500)
    else
      var body := req.body.json;
      match EventTypeOf(body)
      case None => Refused(400)
      case Some(eventType) =>
        if eventType == "" then Refused(400)
        else
          Accepted(body, eventType, env)
  }

  /** The reply to an accepted event: the row stored, the Logflare body and the trending gate. */
  function Accepted(body: Value, eventType: string, env: UsageEnv): UsageReply {
    var cleaned := DropIfTruthy(SanitizePayload(Field(body, "payload")), "session_id");
    var userId := UserIdOf(cleaned);
    var stored := DropIfTruthy(cleaned, "user_id");
    UsageReply(200, Some(RowFor(eventType, stored, Field(body, "sessionId"), userId)),
               LogflareBody(env, eventType, stored), RefreshesTrending(eventType))
  }

  /**
   * The `Deno.serve` handler. The payload is cleaned in place: a truthy `session_id` is deleted,
   * the string `user_id` (if any) is kept aside, then a truthy `user_id` is deleted.
   */
  method Handle(req: UsageRequest, env: UsageEnv) returns (reply: UsageReply)
    ensures reply == ExpectedUsage(req, env)
  {
    if req.httpMethod != "POST" {
      return Refused(405);
    }
    if env.supabaseUrl == "" || env.serviceRoleKey == "" {
      return Refused(500);
    }
    if req.body.Malformed? {
      return Refused(400);
    }
    var body := req.body.json;
    if body == Null {
      // reading `eventType` of `null` throws, and the runtime answers 500
      return Refused(500);
    }
    if EventTypeThrows(body) {
      // the conversion throws, and the runtime answers 500
      return Refused(500);
    }
    var eventType := EventTypeOf(body);
    if eventType.None? || eventType.value == "" {
      return Refused(400);
    }
    var payload := SanitizePayload(Field(body, "payload"));
    if payload.Some? && payload.value.Obj? && "session_id" in payload.value.fields
       && Truthy(payload.value.fields["session_id"]) {
      payload := Some(Obj(payload.value.fields - {"session_id"}));
    }
    var userId := UserIdOf(payload);
    if payload.Some? && payload.value.Obj? && "user_id" in payload.value.fields
       && Truthy(payload.value.fields["user_id"]) {
      payload := Some(Obj(payload.value.fields - {"user_id"}));
    }
    var row := RowFor(eventType.value, payload, Field(body, "sessionId"), userId);
    var forwarded := LogflareBody(env, eventType.value, payload);
    reply := UsageReply(200, Some(row), forwarded, RefreshesTrending(eventType.value));
  }

  // ---------------------------------------------------------------- properties

  /**
   * Only a POST with a configured project, a parseable body and a non-blank event type is
   * accepted; every refused request stores, forwards and triggers nothing.
   */
  lemma RefusedRequestsDoNothing(req: UsageRequest, env: UsageEnv)
    ensures var r := ExpectedUsage(req, env);
      && r.code in {200, 400, 405, 500}
      && (r.code != 200 ==> r.row == None && r.logflare == None && !r.refreshTrending)
      && (r.code == 405 <==> req.httpMethod != "POST")
      && (r.code == 200 ==> r.row.Some?)
      && (r.code == 200 <==>
        && req.httpMethod == "POST" && env.supabaseUrl != "" && env.serviceRoleKey != ""
        && req.body.Parsed? && req.body.json != Null && !EventTypeThrows(req.body.json)
        && EventTypeOf(req.body.json).Some? && EventTypeOf(req.body.json).value != "")
  {
  }

  /**
   * An event type whose conversion to text throws (an object with its own `toString` key, or an
   * array holding one) makes the handler fail with 500, storing nothing.
   */
  lemma OwnToStringRefused(env: UsageEnv)
    requires env.supabaseUrl != "" && env.serviceRoleKey != ""
    ensures var bad := Obj(map["toString" := Num(1)]);
      && ExpectedUsage(UsageRequest("POST", Parsed(Obj(map["eventType" := bad]))), env) == Refused(500)
      && ExpectedUsage(UsageRequest("POST", Parsed(Obj(map["eventType" := Arr([Str("a"), bad])]))), env) == Refused(500)
  {
    var bad := Obj(map["toString" := Num(1)]);
    assert ToStringThrows(Arr([Str("a"), bad])) by {
      assert Arr([Str("a"), bad]).items[1] == bad;
    }
  }

  /** An event type that is missing, `null` or only whitespace is refused with 400. */
  lemma BlankEventTypeRefused(req: UsageRequest, env: UsageEnv)
    requires req.httpMethod == "POST" && env.supabaseUrl != "" && env.serviceRoleKey != ""
    requires req.body.Parsed? && req.body.json.Obj?
    requires "eventType" !in req.body.json.fields || req.body.json.fields["eventType"] == Null
      || (req.body.json.fields["eventType"].Str? && AllSpace(req.body.json.fields["eventType"].s))
    ensures ExpectedUsage(req, env) == Refused(400)
  {
  }

  /**
   * The stored payload is the sanitised one without a truthy `session_id` or `user_id`; every other
   * key, and a falsy `session_id` or `user_id`, is kept with its value.
   */
  lemma StrippedPayload(payload: map<string, Value>)
    ensures var stored := DropIfTruthy(DropIfTruthy(Some(Obj(payload)), "session_id"), "user_id").value;
      && stored.Obj?
      && (forall k :: k in stored.fields ==> k in payload && stored.fields[k] == payload[k])
      && (forall k :: k in payload && k != "session_id" && k != "user_id" ==> k in stored.fields)
      && ("session_id" in stored.fields <==> "session_id" in payload && !Truthy(payload["session_id"]))
      && ("user_id" in stored.fields <==> "user_id" in payload && !Truthy(payload["user_id"]))
  {
  }

  /**
   * The row's `user_id` is the payload's `user_id` exactly when that was a string (the empty string
   * included), and `null` otherwise; it is read before `user_id` is deleted.
   */
  lemma UserIdColumn(payload: map<string, Value>, s: string)
    ensures var cleaned := DropIfTruthy(Some(Obj(payload)), "session_id");
      UserIdOf(cleaned) == Some(s) <==> "user_id" in payload && payload["user_id"] == Str(s)
  {
  }

  /**
   * An accepted event is stored as a row with exactly the four columns; `event_payload` is `null`
   * only without an object or array payload, and `session_id` is `null` exactly when the body's
   * `sessionId` is missing or `null`.
   */
  lemma RowShape(req: UsageRequest, env: UsageEnv)
    requires ExpectedUsage(req, env).code == 200
    ensures var row := ExpectedUsage(req, env).row.value;
      var body := req.body.json;
      && row.Obj? && row.fields.Keys == {"event_type", "event_payload", "session_id", "user_id"}
      && row.fields["event_type"] == Str(EventTypeOf(body).value)
      && (row.fields["event_payload"] == Null <==> SanitizePayload(Field(body, "payload")).None?)
      && (row.fields["session_id"] == Null <==> Field(body, "sessionId").None? || Field(body, "sessionId") == Some(Null))
  {
    var body := req.body.json;
    AcceptedReply(req, env);
    var cleaned := DropIfTruthy(SanitizePayload(Field(body, "payload")), "session_id");
    var stored := DropIfTruthy(cleaned, "user_id");
    assert stored.Some? ==> stored.value != Null;
    RowColumns(EventTypeOf(body).value, stored, Field(body, "sessionId"), UserIdOf(cleaned));
  }

  /** The row has exactly the four columns, each `null` exactly when its value is absent or `null`. */
  lemma RowColumns(eventType: string, payload: Option<Value>, sessionId: Option<Value>, userId: Option<string>)
    ensures var row := RowFor(eventType, payload, sessionId, userId);
      && row.Obj? && row.fields.Keys == {"event_type", "event_payload", "session_id", "user_id"}
      && row.fields["event_type"] == Str(eventType)
      && (row.fields["event_payload"] == Null <==> payload.None? || payload == Some(Null))
      && (row.fields["session_id"] == Null <==> sessionId.None? || sessionId == Some(Null))
      && (row.fields["user_id"] == Null <==> userId.None?)
  {
  }

  /** Whether the handler accepts the request: POST, configured, a JSON body and a non-blank event type. */
  predicate IsAccepted(req: UsageRequest, env: UsageEnv) {
    && req.httpMethod == "POST" && env.supabaseUrl != "" && env.serviceRoleKey != ""
    && req.body.Parsed? && req.body.json != Null && !EventTypeThrows(req.body.json)
    && EventTypeOf(req.body.json).Some? && EventTypeOf(req.body.json).value != ""
  }

  /** An accepted request gets the accepted reply; any other a refusal. */
  lemma AcceptedReply(req: UsageRequest, env: UsageEnv)
    ensures IsAccepted(req, env) ==> ExpectedUsage(req, env) == Accepted(req.body.json, EventTypeOf(req.body.json).value, env)
    ensures !IsAccepted(req, env) ==> ExpectedUsage(req, env).code != 200 && ExpectedUsage(req, env) == Refused(ExpectedUsage(req, env).code)
  {
  }

  /** The trending rebuild runs exactly for an accepted `feed.video_opened` event (after trimming). */
  lemma TrendingGate(req: UsageRequest, env: UsageEnv)
    ensures var r := ExpectedUsage(req, env);
      r.refreshTrending <==> r.code == 200 && RefreshesTrending(EventTypeOf(req.body.json).value)
  {
    AcceptedReply(req, env);
  }

  /**
   * An accepted event is forwarded exactly when both Logflare variables are set; the log entry's
   * `event_type` is the event's own unless the payload has an `event_type` key, which wins.
   */
  lemma LogflareGate(req: UsageRequest, env: UsageEnv)
    ensures var r := ExpectedUsage(req, env);
      r.logflare.Some? <==> r.code == 200 && env.logflareSource != "" && env.logflareApiKey != ""
  {
    AcceptedReply(req, env);
  }

  lemma PayloadOverridesEventType(eventType: string, payload: map<string, Value>)
    ensures "event_type" in payload ==> LogEntry(eventType, Some(Obj(payload)))["event_type"] == payload["event_type"]
    ensures "event_type" !in payload ==> LogEntry(eventType, Some(Obj(payload)))["event_type"] == Str(eventType)
    ensures LogEntry(eventType, Some(Obj(payload))).Keys == payload.Keys + {"event_type"}
  {
  }
}
