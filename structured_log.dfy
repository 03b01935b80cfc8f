/**
 * The pure part of the structured-logging API service: how a log entry is
 * built, how a status code is graded, how an order payload is redacted, and
 * what each route logs and answers. The request lifecycle that appends these
 * entries to the shared logger is in module RequestLifecycle.
 */
module StructuredLog {
  import opened Json
  import K = LogKeys

  /** One JSON log line, as the dictionary handed to `json.dumps`. */
  type Entry = map<K.Key, Value>

  /** The three level names the service logs with. */
  datatype Level = INFO | WARN | ERROR

  function LevelName(l: Level): string
  {
    match l
    case INFO => "INFO"
    case WARN => "WARN"
    case ERROR => "ERROR"
  }

  /** Ordinal of a level, lowest first, as the `logging` module orders them. */
  function Rank(l: Level): nat
  {
    match l
    case INFO => 0
    case WARN => 1
    case ERROR => 2
  }

  const ServiceName := "api-service"
  const UnknownRequestId := "unknown"
  const UnknownUserAgent := "unknown"
  const RedactionToken := "***REDACTED***"
  const RequestIdHeader := "X-Request-ID"
  const UserAgentHeader := "User-Agent"

  // The messages the service logs.
  const StartedMessage := "Request started"
  const CompletedMessage := "Request completed"
  const FetchingUserMessage := "Fetching user"
  const UserFetchedMessage := "User fetched successfully"
  const DatabaseFailedMessage := "Database connection failed"
  const UnexpectedErrorMessage := "Unexpected error"
  const CreatingOrderMessage := "Creating order"
  const OrderCreatedMessage := "Order created successfully"
  const SlowStartedMessage := "Processing slow request"
  const SlowCompletedMessage := "Slow operation completed"
  const NotFoundMessage := "Resource not found"
  const InternalServerError := "Internal server error"

  // Error texts, exception type names and the fields of response bodies.
  const ConnectionTimeoutMessage := "Database connection timeout"
  const ServiceUnavailable := "Service temporarily unavailable"
  const NotFoundText := "Not found"
  const ConnectionError := "ConnectionError"
  const AttributeError := "AttributeError"
  const TypeError := "TypeError"
  const SlowOperationName := "data_processing"
  const ItemsField := "items"
  const TotalField := "total"
  const StatusField := "status"
  const OrderIdField := "order_id"
  const Healthy := "healthy"
  const Ready := "ready"
  const Completed := "completed"
  const SensitiveFields: set<string> := {"credit_card", "password", "ssn"}
  const MandatoryFields: set<K.Key> := {K.Timestamp, K.Level, K.Message, K.Service, K.RequestId}

  // ---------------------------------------------------------------------
  // log_json
  // ---------------------------------------------------------------------

  /** `datetime.utcnow().isoformat() + 'Z'`, the clock reading being a parameter. */
  function Timestamp(isoNow: string): (t: string)
    ensures |t| == |isoNow| + 1 && t[|isoNow|] == 'Z'
    ensures t[..|isoNow|] == isoNow
  {
    isoNow + "Z"
  }

  /** `g.get('request_id', 'unknown')`. */
  function RequestIdOrUnknown(requestId: Option<string>): string
  {
    requestId.GetOr(UnknownRequestId)
  }

  /** The entry has field `key` and its value is `v`. */
  predicate Field(e: Entry, key: K.Key, v: Value)
  {
    key in e && e[key] == v
  }

  /** The entry is logged at level `l`. */
  predicate AtLevel(e: Entry, l: Level)
  {
    Field(e, K.Level, Str(LevelName(l)))
  }

  /**
   * The dictionary display of `log_json`: five mandatory fields, then the
   * caller's keyword arguments. As in Python, a later key wins, so an extra
   * named `timestamp`, `service` or `request_id` replaces the mandatory value.
   * Extras named `level` or `message` cannot occur: Python rejects such a
   * call because they collide with the positional parameters.
   */
  function BuildEntry(isoNow: string, level: Level, message: string,
                      requestId: Option<string>, extras: map<K.Key, Value>): (e: Entry)
    requires K.Level !in extras && K.Message !in extras
    ensures AtLevel(e, level) && Field(e, K.Message, Str(message))
    ensures forall k :: k in extras ==> Field(e, k, extras[k])
    ensures K.Timestamp !in extras ==> Field(e, K.Timestamp, Str(Timestamp(isoNow)))
    ensures K.Service !in extras ==> Field(e, K.Service, Str(ServiceName))
    ensures K.RequestId !in extras ==> Field(e, K.RequestId, Str(RequestIdOrUnknown(requestId)))
  {
    map[
      K.Timestamp := Str(Timestamp(isoNow)),
      K.Level := Str(LevelName(level)),
      K.Message := Str(message),
      K.Service := Str(ServiceName),
      K.RequestId := Str(RequestIdOrUnknown(requestId))
    ] + extras
  }

  /** An entry has the five mandatory fields and the caller's extras, and nothing else. */
  lemma EntryKeys(isoNow: string, level: Level, message: string,
                  requestId: Option<string>, extras: map<K.Key, Value>)
    requires K.Level !in extras && K.Message !in extras
    ensures BuildEntry(isoNow, level, message, requestId, extras).Keys == MandatoryFields + extras.Keys
  {
  }

  /** True of an entry whose service and correlation id are the given ones. */
  predicate Correlated(e: Entry, requestId: string)
  {
    Field(e, K.Service, Str(ServiceName)) && Field(e, K.RequestId, Str(requestId))
  }

  /** With no colliding extra, every entry names the service and the current request. */
  lemma EntryCorrelated(isoNow: string, level: Level, message: string,
                        requestId: Option<string>, extras: map<K.Key, Value>)
    requires K.Level !in extras && K.Message !in extras
    requires extras.Keys !! MandatoryFields
    ensures Correlated(BuildEntry(isoNow, level, message, requestId, extras), RequestIdOrUnknown(requestId))
    ensures Field(BuildEntry(isoNow, level, message, requestId, extras), K.Timestamp, Str(Timestamp(isoNow)))
  {
    assert K.Service !in extras && K.RequestId !in extras && K.Timestamp !in extras;
  }

  /** A caller's `request_id=` or `service=` keyword overrides the mandatory value. */
  lemma ExtrasOverrideMandatory(isoNow: string, level: Level, message: string,
                                requestId: Option<string>, spoofed: string)
    ensures var e := BuildEntry(isoNow, level, message, requestId,
                                map[K.RequestId := Str(spoofed), K.Service := Str(spoofed)]);
            Field(e, K.RequestId, Str(spoofed)) && Field(e, K.Service, Str(spoofed))
  {
  }

  // ---------------------------------------------------------------------
  // Severity of a completed request
  // ---------------------------------------------------------------------

  /** The `if/elif/else` of `after_request`, total over every integer. */
  function Severity(status: int): (l: Level)
    ensures l == ERROR <==> status >= 500
    ensures l == WARN <==> 400 <= status < 500
    ensures l == INFO <==> status < 400
  {
    if status >= 500 then ERROR
    else if status >= 400 then WARN
    else INFO
  }

  /** A larger status code is never graded less severe. */
  lemma SeverityMonotone(s: int, t: int)
    requires s <= t
    ensures Rank(Severity(s)) <= Rank(Severity(t))
  {
  }

  // ---------------------------------------------------------------------
  // Redaction of an order payload (create_order)
  // ---------------------------------------------------------------------

  /**
   * The dictionary comprehension of `create_order`: a new mapping with the
   * same keys in which `credit_card`, `password` and `ssn` are masked. Only
   * the top level is inspected; nested objects pass through unchanged.
   */
  function Redact(data: map<string, Value>): (r: map<string, Value>)
    ensures r.Keys == data.Keys
    ensures forall k :: k in r && k in SensitiveFields ==> r[k] == Str(RedactionToken)
    ensures forall k :: k in r && k !in SensitiveFields ==> r[k] == data[k]
  {
    map k | k in data :: if k in SensitiveFields then Str(RedactionToken) else data[k]
  }

  /** Redacting twice is redacting once. */
  lemma RedactIdempotent(data: map<string, Value>)
    ensures Redact(Redact(data)) == Redact(data)
  {
    var once := Redact(data);
    var twice := Redact(once);
    assert forall k :: k in twice ==> twice[k] == once[k];
    assert twice.Keys == once.Keys;
  }

  /** Redaction forgets sensitive values: payloads differing only there redact alike. */
  lemma RedactHidesSensitive(d1: map<string, Value>, d2: map<string, Value>)
    requires d1.Keys == d2.Keys
    requires forall k :: k in d1 && k !in SensitiveFields ==> d1[k] == d2[k]
    ensures Redact(d1) == Redact(d2)
  {
    var r1, r2 := Redact(d1), Redact(d2);
    assert forall k :: k in r1 ==> r1[k] == r2[k];
    assert r1.Keys == r2.Keys;
  }

  /** Only the top level is masked: a password nested inside an object survives. */
  lemma RedactIsShallow(secret: string)
    ensures var nested := Obj(map["password" := Str(secret)]);
            Redact(map["customer" := nested])["customer"] == nested
  {
  }

  // ---------------------------------------------------------------------
  // Request start and completion entries
  // ---------------------------------------------------------------------

  /**
   * What the routing layer tells the hooks about the incoming request. The
   * headers are those of the WSGI environ, keyed as the server stores them:
   * `HTTP_` and the header name upper-cased with `-` written as `_`
   * (EnvironKey). A header sent as `x-request-id` and one sent as
   * `X-Request-ID` land under the same key.
   */
  datatype Request = Request(httpMethod: string, path: string, remoteAddr: Option<string>,
                             headers: map<string, string>)

  /** ASCII upper-casing of one character; every other character is kept. */
  function UpperChar(c: char): (u: char)
    ensures 'a' <= c <= 'z' ==> u as int == c as int - 32
    ensures !('a' <= c <= 'z') ==> u == c
  {
    if 'a' <= c <= 'z' then (c as int - 32) as char else c
  }

  /** The header name with every ASCII letter upper-cased. */
  function Upper(name: string): (u: string)
    ensures |u| == |name| && forall i :: 0 <= i < |name| ==> u[i] == UpperChar(name[i])
  {
    seq(|name|, i requires 0 <= i < |name| => UpperChar(name[i]))
  }

  /** One character of an environ key: upper-cased, with `-` as `_`. */
  function EnvironChar(c: char): char
  {
    if UpperChar(c) == '-' then '_' else UpperChar(c)
  }

  /** The environ key of a header name: `X-Request-ID` is stored as `HTTP_X_REQUEST_ID`. */
  function EnvironKey(name: string): (k: string)
    ensures |k| == |name| + 5 && k[..5] == "HTTP_"
    ensures forall i :: 0 <= i < |name| ==> k[i + 5] == EnvironChar(name[i])
  {
    "HTTP_" + seq(|name|, i requires 0 <= i < |name| => EnvironChar(name[i]))
  }

  /** Two spellings of one header name that differ only in letter case share a key. */
  lemma EnvironKeyIgnoresCase(a: string, b: string)
    requires Upper(a) == Upper(b)
    ensures EnvironKey(a) == EnvironKey(b)
  {
    var ka, kb := EnvironKey(a), EnvironKey(b);
    forall i | 0 <= i < |ka| ensures ka[i] == kb[i] {
      if i >= 5 {
        assert Upper(a)[i - 5] == Upper(b)[i - 5];
      } else {
        assert ka[..5][i] == kb[..5][i];
      }
    }
  }

  /** `request.headers.get(name)`: the value under the name's environ key, if any. */
  function Header(req: Request, name: string): (v: Option<string>)
    ensures v.Some? <==> EnvironKey(name) in req.headers
    ensures v.Some? ==> v.value == req.headers[EnvironKey(name)]
  {
    var key := EnvironKey(name);
    if key in req.headers then Some(req.headers[key]) else None
  }

  /**
   * `request.headers.get('X-Request-ID', str(uuid.uuid4()))`: the header
   * verbatim when present (even if empty), otherwise the fresh id.
   */
  function CorrelationId(req: Request, freshId: string): (id: string)
    ensures Header(req, RequestIdHeader).Some? ==> id == Header(req, RequestIdHeader).value
    ensures Header(req, RequestIdHeader).None? ==> id == freshId
  {
    Header(req, RequestIdHeader).GetOr(freshId)
  }

  /**
   * The correlation id is the header value exactly when the header is
   * present, under whatever capitalisation the client sent its name.
   */
  lemma CorrelationIdSource(req: Request, freshId: string, spelling: string)
    requires Upper(spelling) == Upper(RequestIdHeader)
    ensures Header(req, spelling).Some? ==> CorrelationId(req, freshId) == Header(req, spelling).value
    ensures Header(req, spelling).None? ==> CorrelationId(req, freshId) == freshId
  {
    EnvironKeyIgnoresCase(spelling, RequestIdHeader);
  }

  /** A lower-case `x-request-id` header is the correlation id. */
  lemma LowerCaseRequestIdHeader()
    ensures CorrelationId(Request("GET", "/", None, map[EnvironKey("x-request-id") := "abc"]), "fresh") == "abc"
  {
    assert Upper("x-request-id") == Upper(RequestIdHeader);
    CorrelationIdSource(Request("GET", "/", None, map[EnvironKey("x-request-id") := "abc"]), "fresh", "x-request-id");
  }

  /** `request.headers.get('User-Agent', 'unknown')`. */
  function UserAgent(req: Request): (ua: string)
    ensures Header(req, UserAgentHeader).Some? ==> ua == Header(req, UserAgentHeader).value
    ensures Header(req, UserAgentHeader).None? ==> ua == UnknownUserAgent
  {
    Header(req, UserAgentHeader).GetOr(UnknownUserAgent)
  }

  /** The keyword arguments of the StartedMessage call. */
  function StartedExtras(req: Request): map<K.Key, Value>
  {
    map[
      K.Method := Str(req.httpMethod),
      K.Path := Str(req.path),
      K.RemoteAddr := StrOrNull(req.remoteAddr),
      K.UserAgent := Str(UserAgent(req))
    ]
  }

  /** The entry `before_request` writes once `g.request_id` holds `requestId`. */
  function StartedEntry(req: Request, requestId: string, isoNow: string): (e: Entry)
    ensures AtLevel(e, INFO) && Field(e, K.Message, Str(StartedMessage))
    ensures Correlated(e, requestId)
    ensures Field(e, K.Method, Str(req.httpMethod)) && Field(e, K.Path, Str(req.path))
    ensures Field(e, K.RemoteAddr, StrOrNull(req.remoteAddr))
    ensures Field(e, K.UserAgent, Str(Header(req, UserAgentHeader).GetOr(UnknownUserAgent)))
  {
    EntryCorrelated(isoNow, INFO, StartedMessage, Some(requestId), StartedExtras(req));
    BuildEntry(isoNow, INFO, StartedMessage, Some(requestId), StartedExtras(req))
  }

  /**
   * `(time.time() - g.get('start_time', time.time())) * 1000` with time in
   * whole milliseconds; without a recorded start the two readings coincide.
   */
  function DurationMs(startMs: Option<int>, nowMs: int): (d: int)
    ensures startMs.Some? ==> d == nowMs - startMs.value
    ensures startMs.None? ==> d == 0
  {
    nowMs - startMs.GetOr(nowMs)
  }

  /** The entry `after_request` writes for a response with status `status`. */
  function CompletedEntry(requestId: Option<string>, status: int, durationMs: int, isoNow: string): (e: Entry)
    ensures Field(e, K.Level, Str(LevelName(Severity(status)))) && Field(e, K.Message, Str(CompletedMessage))
    ensures Correlated(e, RequestIdOrUnknown(requestId))
    ensures Field(e, K.StatusCode, Int(status)) && Field(e, K.DurationMs, Int(durationMs))
  {
    var extras := map[K.StatusCode := Int(status), K.DurationMs := Int(durationMs)];
    EntryCorrelated(isoNow, Severity(status), CompletedMessage, requestId, extras);
    BuildEntry(isoNow, Severity(status), CompletedMessage, requestId, extras)
  }

  // ---------------------------------------------------------------------
  // Route handlers
  // ---------------------------------------------------------------------

  /** How a view ends: it returns a response, or an exception escapes it. */
  datatype Outcome = Returned(response: Response) | Raised(exceptionType: string)

  /** The entries a view logged, in order, and how it ended. */
  datatype Handled = Handled(log: seq<Entry>, outcome: Outcome)

  /** The messages a view or error handler may log. */
  const ViewMessages: set<string> := {
    FetchingUserMessage, UserFetchedMessage, DatabaseFailedMessage,
    UnexpectedErrorMessage, CreatingOrderMessage, OrderCreatedMessage,
    SlowStartedMessage, SlowCompletedMessage, NotFoundMessage,
    InternalServerError
  }

  predicate MessageIn(e: Entry, messages: set<string>)
  {
    K.Message in e && e[K.Message].Str? && e[K.Message].s in messages
  }

  /** Every entry a view logged is correlated and carries one of the view messages. */
  predicate ViewLog(log: seq<Entry>, requestId: string)
  {
    forall e :: e in log ==> Correlated(e, requestId) && MessageIn(e, ViewMessages)
  }

  /** An entry written through `log_json` by a view, with non-colliding extras. */
  function ViewEntry(isoNow: string, level: Level, message: string,
                     requestId: Option<string>, extras: map<K.Key, Value>): (e: Entry)
    requires message in ViewMessages
    requires extras.Keys !! MandatoryFields
    ensures Correlated(e, RequestIdOrUnknown(requestId)) && MessageIn(e, ViewMessages)
    ensures AtLevel(e, level) && Field(e, K.Message, Str(message))
    ensures forall k :: k in extras ==> Field(e, k, extras[k])
  {
    EntryCorrelated(isoNow, level, message, requestId, extras);
    BuildEntry(isoNow, level, message, requestId, extras)
  }

  /** What the simulated database call does (the service draws it at random). */
  datatype Lookup =
    | Found
    | ConnectionTimeout
    | Unexpected(errorType: string, message: string, trace: string)

  /** The record `get_user` answers with on success. */
  function UserRecord(userId: string): (r: map<string, Value>)
    ensures r.Keys == {"id", "name", "email"} && r["id"] == Str(userId)
  {
    map["id" := Str(userId), "name" := Str("John Doe"), "email" := Str("john@example.com")]
  }

  /** The second entry of `get_user`, which says how the lookup went. */
  function LookupEntry(userId: string, lookup: Lookup, requestId: Option<string>, isoNow: string): (e: Entry)
    ensures Correlated(e, RequestIdOrUnknown(requestId)) && MessageIn(e, ViewMessages)
    ensures Field(e, K.UserId, Str(userId))
    ensures lookup.Found? ==>
              && AtLevel(e, INFO) && Field(e, K.Message, Str(UserFetchedMessage))
              && Field(e, K.Found, Bool(true))
    ensures lookup.ConnectionTimeout? ==>
              && AtLevel(e, ERROR) && Field(e, K.Message, Str(DatabaseFailedMessage))
              && Field(e, K.Error, Str(ConnectionTimeoutMessage))
              && Field(e, K.ErrorType, Str(ConnectionError))
              && Field(e, K.RetryCount, Int(0))
    ensures lookup.Unexpected? ==>
              && AtLevel(e, ERROR) && Field(e, K.Message, Str(UnexpectedErrorMessage))
              && Field(e, K.Error, Str(lookup.message))
              && Field(e, K.ErrorType, Str(lookup.errorType))
              && Field(e, K.Traceback, Str(lookup.trace))
  {
    match lookup
    case Found =>
      ViewEntry(isoNow, INFO, UserFetchedMessage, requestId,
                map[K.UserId := Str(userId), K.Found := Bool(true)])
    case ConnectionTimeout =>
      ViewEntry(isoNow, ERROR, DatabaseFailedMessage, requestId,
                map[K.UserId := Str(userId), K.Error := Str(ConnectionTimeoutMessage),
                    K.ErrorType := Str(ConnectionError), K.RetryCount := Int(0)])
    case Unexpected(errorType, message, trace) =>
      ViewEntry(isoNow, ERROR, UnexpectedErrorMessage, requestId,
                map[K.UserId := Str(userId), K.Error := Str(message),
                    K.ErrorType := Str(errorType), K.Traceback := Str(trace)])
  }

  /** The answer of `get_user`: the user record, or a generic 503 or 500 body. */
  function LookupResponse(userId: string, lookup: Lookup): (r: Response)
    ensures lookup.Found? ==> r == Response(200, UserRecord(userId))
    ensures lookup.ConnectionTimeout? ==> r == Response(503, ErrorBody(ServiceUnavailable))
    ensures lookup.Unexpected? ==> r == Response(500, ErrorBody(InternalServerError))
  {
    match lookup
    case Found => Response(200, UserRecord(userId))
    case ConnectionTimeout => Response(503, ErrorBody(ServiceUnavailable))
    case Unexpected(_, _, _) => Response(500, ErrorBody(InternalServerError))
  }

  /** `get_user`: FetchingUserMessage, then the lookup entry; every exception is caught. */
  function GetUser(userId: string, lookup: Lookup, requestId: Option<string>, isoNow: string): (h: Handled)
    ensures h.outcome == Returned(LookupResponse(userId, lookup))
    ensures |h.log| == 2 && h.log[1] == LookupEntry(userId, lookup, requestId, isoNow)
    ensures AtLevel(h.log[0], INFO) && Field(h.log[0], K.Message, Str(FetchingUserMessage))
    ensures Field(h.log[0], K.UserId, Str(userId))
    ensures ViewLog(h.log, RequestIdOrUnknown(requestId))
  {
    var fetching := ViewEntry(isoNow, INFO, FetchingUserMessage, requestId, map[K.UserId := Str(userId)]);
    Handled([fetching, LookupEntry(userId, lookup, requestId, isoNow)], Returned(LookupResponse(userId, lookup)))
  }

  /** The client never sees the exception: every unexpected failure answers alike. */
  lemma GetUserHidesDiagnostics(userId: string, a: Lookup, b: Lookup, rid: Option<string>, isoNow: string)
    requires a.Unexpected? && b.Unexpected?
    ensures GetUser(userId, a, rid, isoNow).outcome == GetUser(userId, b, rid, isoNow).outcome
  {
  }

  /** A lookup that fails is logged at ERROR and answered with a 5xx status. */
  lemma GetUserFailureIsError(userId: string, lookup: Lookup, rid: Option<string>, isoNow: string)
    ensures var h := GetUser(userId, lookup, rid, isoNow);
            !lookup.Found? <==> AtLevel(h.log[1], ERROR)
    ensures var h := GetUser(userId, lookup, rid, isoNow);
            !lookup.Found? <==> Severity(h.outcome.response.status) == ERROR
  {
  }

  /**
   * `len(data.get('items', []))`: 0 when absent, the length of a list,
   * string or object, and no value (a TypeError) for null, booleans and numbers.
   */
  function ItemCount(data: map<string, Value>): (n: Option<nat>)
    ensures ItemsField !in data ==> n == Some(0)
    ensures ItemsField in data && data[ItemsField].List? ==> n == Some(|data[ItemsField].items|)
    ensures ItemsField in data && data[ItemsField].Str? ==> n == Some(|data[ItemsField].s|)
    ensures ItemsField in data && data[ItemsField].Obj? ==> n == Some(|data[ItemsField].fields|)
    ensures n.None? <==> ItemsField in data && (data[ItemsField].Null? || data[ItemsField].Bool? || data[ItemsField].Int?)
  {
    if ItemsField !in data then Some(0)
    else match data[ItemsField]
      case List(xs) => Some(|xs|)
      case Str(s) => Some(|s|)
      case Obj(m) => Some(|m|)
      case _ => None
  }

  /** `data.get('total', 0)`. */
  function TotalAmount(data: map<string, Value>): (v: Value)
    ensures TotalField in data ==> v == data[TotalField]
    ensures TotalField !in data ==> v == Int(0)
  {
    if TotalField in data then data[TotalField] else Int(0)
  }

  /**
   * `create_order` on the parsed request body: a non-object body has no
   * `.items()` (AttributeError), an unmeasurable `items` fails `len`
   * (TypeError); otherwise CreatingOrderMessage with the redacted payload,
   * OrderCreatedMessage, and status 201.
   */
  function CreateOrder(body: Value, orderId: string, requestId: Option<string>, isoNow: string): (h: Handled)
    ensures !body.Obj? ==> h == Handled([], Raised(AttributeError))
    ensures body.Obj? && ItemCount(body.fields).None? ==> h == Handled([], Raised(TypeError))
    ensures body.Obj? && ItemCount(body.fields).Some? ==>
              && |h.log| == 2
              && h.outcome == Returned(Response(201, map[OrderIdField := Str(orderId)]))
              && Field(h.log[0], K.Message, Str(CreatingOrderMessage))
              && Field(h.log[0], K.OrderData, Obj(Redact(body.fields)))
              && Field(h.log[0], K.ItemCount, Int(ItemCount(body.fields).value))
              && Field(h.log[1], K.Message, Str(OrderCreatedMessage))
              && Field(h.log[1], K.OrderId, Str(orderId))
              && Field(h.log[1], K.TotalAmount, TotalAmount(body.fields))
    ensures ViewLog(h.log, RequestIdOrUnknown(requestId))
    ensures forall e :: e in h.log ==> AtLevel(e, INFO)
  {
    match body
    case Obj(data) =>
      var safeData := Redact(data);
      (match ItemCount(data)
       case None => Handled([], Raised(TypeError))
       case Some(count) =>
         var creating := ViewEntry(isoNow, INFO, CreatingOrderMessage, requestId,
                                   map[K.OrderData := Obj(safeData), K.ItemCount := Int(count)]);
         var created := ViewEntry(isoNow, INFO, OrderCreatedMessage, requestId,
                                  map[K.OrderId := Str(orderId), K.TotalAmount := TotalAmount(data)]);
         Handled([creating, created], Returned(Response(201, map[OrderIdField := Str(orderId)]))))
    case _ => Handled([], Raised(AttributeError))
  }

  /**
   * Redact-then-log: two order payloads that differ only in the values of
   * sensitive fields produce the same log entries and the same answer.
   */
  lemma CreateOrderHidesSensitive(d1: map<string, Value>, d2: map<string, Value>,
                                  orderId: string, rid: Option<string>, isoNow: string)
    requires d1.Keys == d2.Keys
    requires forall k :: k in d1 && k !in SensitiveFields ==> d1[k] == d2[k]
    ensures CreateOrder(Obj(d1), orderId, rid, isoNow) == CreateOrder(Obj(d2), orderId, rid, isoNow)
  {
    RedactHidesSensitive(d1, d2);
    assert ItemsField !in SensitiveFields && TotalField !in SensitiveFields;
    assert ItemCount(d1) == ItemCount(d2);
    assert TotalAmount(d1) == TotalAmount(d2);
  }

  /** `slow_endpoint`: the two-second sleep itself is outside the model. */
  function SlowEndpoint(requestId: Option<string>, isoNow: string): (h: Handled)
    ensures |h.log| == 2 && h.outcome == Returned(Response(200, map[StatusField := Str(Completed)]))
    ensures AtLevel(h.log[0], INFO) && Field(h.log[0], K.Message, Str(SlowStartedMessage))
    ensures AtLevel(h.log[1], WARN) && Field(h.log[1], K.Message, Str(SlowCompletedMessage))
    ensures Field(h.log[1], K.DurationMs, Int(2000))
    ensures ViewLog(h.log, RequestIdOrUnknown(requestId))
  {
    Handled([ViewEntry(isoNow, INFO, SlowStartedMessage, requestId, map[]),
             ViewEntry(isoNow, WARN, SlowCompletedMessage, requestId,
                       map[K.DurationMs := Int(2000), K.Operation := Str(SlowOperationName)])],
            Returned(Response(200, map[StatusField := Str(Completed)])))
  }

  /** The 404 handler: one WARN entry with the path and method, a generic body. */
  function NotFound(req: Request, requestId: Option<string>, isoNow: string): (h: Handled)
    ensures h.outcome == Returned(Response(404, ErrorBody(NotFoundText)))
    ensures |h.log| == 1 && AtLevel(h.log[0], WARN) && Field(h.log[0], K.Message, Str(NotFoundMessage))
    ensures Field(h.log[0], K.Path, Str(req.path)) && Field(h.log[0], K.Method, Str(req.httpMethod))
    ensures ViewLog(h.log, RequestIdOrUnknown(requestId))
  {
    Handled([ViewEntry(isoNow, WARN, NotFoundMessage, requestId,
                       map[K.Path := Str(req.path), K.Method := Str(req.httpMethod)])],
            Returned(Response(404, ErrorBody(NotFoundText))))
  }

  /**
   * The 500 handler: one ERROR entry with the error text and traceback (both
   * opaque strings), and a body that carries neither.
   */
  function InternalError(errorText: string, trace: string, requestId: Option<string>, isoNow: string): (h: Handled)
    ensures h.outcome == Returned(Response(500, ErrorBody(InternalServerError)))
    ensures |h.log| == 1 && AtLevel(h.log[0], ERROR) && Field(h.log[0], K.Message, Str(InternalServerError))
    ensures Field(h.log[0], K.Error, Str(errorText)) && Field(h.log[0], K.Traceback, Str(trace))
    ensures ViewLog(h.log, RequestIdOrUnknown(requestId))
  {
    Handled([ViewEntry(isoNow, ERROR, InternalServerError, requestId,
                       map[K.Error := Str(errorText), K.Traceback := Str(trace)])],
            Returned(Response(500, ErrorBody(InternalServerError))))
  }

  // ---------------------------------------------------------------------
  // One whole request
  // ---------------------------------------------------------------------

  /** Which view Flask dispatches to, with the view's own nondeterministic inputs. */
  datatype Route =
    | UserLookup(userId: string, lookup: Lookup)
    | OrderCreation(body: Value, orderId: string)
    | SlowWork
    | HealthCheck
    | ReadinessCheck
    | NoRoute

  /**
   * Everything one request reads from outside the program: the fresh uuid,
   * the clock at start and at end (milliseconds and ISO text), the clock
   * while the view runs, and the text and traceback of the error object the
   * 500 handler receives.
   */
  datatype Ambient = Ambient(freshId: string, startMs: int, endMs: int,
                             startIso: string, viewIso: string, endIso: string,
                             errorText: string, trace: string)

  /** The view for `route`, after `before_request` has set `g.request_id`. */
  function View(req: Request, route: Route, requestId: Option<string>, isoNow: string): (h: Handled)
    ensures h.outcome.Raised? ==> h.log == [] && route.OrderCreation?
    ensures ViewLog(h.log, RequestIdOrUnknown(requestId))
  {
    match route
    case UserLookup(userId, lookup) => GetUser(userId, lookup, requestId, isoNow)
    case OrderCreation(body, orderId) => CreateOrder(body, orderId, requestId, isoNow)
    case SlowWork => SlowEndpoint(requestId, isoNow)
    case HealthCheck => Handled([], Returned(Response(200, map[StatusField := Str(Healthy)])))
    case ReadinessCheck => Handled([], Returned(Response(200, map[StatusField := Str(Ready)])))
    case NoRoute => NotFound(req, requestId, isoNow)
  }

  /** The view, followed by the 500 handler when an exception escaped the view. */
  function Dispatch(req: Request, route: Route, amb: Ambient): (h: Handled)
    ensures h.outcome.Returned?
    ensures ViewLog(h.log, CorrelationId(req, amb.freshId))
  {
    var rid := CorrelationId(req, amb.freshId);
    var view := View(req, route, Some(rid), amb.viewIso);
    match view.outcome
    case Returned(_) => view
    case Raised(_) =>
      var handler := InternalError(amb.errorText, amb.trace, Some(rid), amb.viewIso);
      Handled(view.log + handler.log, handler.outcome)
  }

  /** The response the client receives. */
  function FinalResponse(req: Request, route: Route, amb: Ambient): (r: Response)
    ensures r.status in {200, 201, 404, 500, 503}
  {
    Dispatch(req, route, amb).outcome.response
  }

  /**
   * The entries of one request in order: the start entry, what the view and
   * error handlers logged, and the completion entry graded by the final status.
   */
  function Lifecycle(req: Request, requestId: string, handled: Handled, amb: Ambient): (log: seq<Entry>)
    requires handled.outcome.Returned?
    ensures |log| == |handled.log| + 2
  {
    [StartedEntry(req, requestId, amb.startIso)]
    + handled.log
    + [CompletedEntry(Some(requestId), handled.outcome.response.status,
                      DurationMs(Some(amb.startMs), amb.endMs), amb.endIso)]
  }

  /** Everything one request appends to the log. */
  function RequestLog(req: Request, route: Route, amb: Ambient): (log: seq<Entry>)
    ensures |log| == |Dispatch(req, route, amb).log| + 2
  {
    Lifecycle(req, CorrelationId(req, amb.freshId), Dispatch(req, route, amb), amb)
  }

  /** The three parts of a request's log, by the hook or view that writes them. */
  lemma RequestLogParts(req: Request, route: Route, amb: Ambient)
    ensures var rid := CorrelationId(req, amb.freshId);
            RequestLog(req, route, amb)
            == [StartedEntry(req, rid, amb.startIso)]
               + Dispatch(req, route, amb).log
               + [CompletedEntry(Some(rid), FinalResponse(req, route, amb).status,
                                 DurationMs(Some(amb.startMs), amb.endMs), amb.endIso)]
  {
  }

  /** Number of entries whose message is `message`. */
  function CountMessage(log: seq<Entry>, message: string): nat
  {
    if log == [] then 0
    else (if Field(log[0], K.Message, Str(message)) then 1 else 0) + CountMessage(log[1..], message)
  }

  lemma {:induction false} CountMessageAppend(a: seq<Entry>, b: seq<Entry>, message: string)
    ensures CountMessage(a + b, message) == CountMessage(a, message) + CountMessage(b, message)
  {
    if a == [] {
      assert a + b == b;
    } else {
      assert (a + b)[0] == a[0];
      assert (a + b)[1..] == a[1..] + b;
      CountMessageAppend(a[1..], b, message);
    }
  }

  lemma {:induction false} CountMessageNone(log: seq<Entry>, requestId: string, message: string)
    requires ViewLog(log, requestId)
    requires message !in ViewMessages
    ensures CountMessage(log, message) == 0
  {
    if log != [] {
      assert log[0] in log;
      assert ViewLog(log[1..], requestId) by {
        forall e | e in log[1..] ensures e in log { }
      }
      CountMessageNone(log[1..], requestId, message);
    }
  }

  /**
   * Exactly one StartedMessage entry, first, and exactly one "Request
   * completed" entry, last, whatever the views logged in between.
   */
  lemma FramedExactlyOnce(start: Entry, middle: seq<Entry>, done: Entry, requestId: string)
    requires Field(start, K.Message, Str(StartedMessage))
    requires Field(done, K.Message, Str(CompletedMessage))
    requires ViewLog(middle, requestId)
    ensures CountMessage([start] + middle + [done], StartedMessage) == 1
    ensures CountMessage([start] + middle + [done], CompletedMessage) == 1
  {
    CountMessageAppend([start] + middle, [done], StartedMessage);
    CountMessageAppend([start], middle, StartedMessage);
    CountMessageAppend([start] + middle, [done], CompletedMessage);
    CountMessageAppend([start], middle, CompletedMessage);
    CountMessageNone(middle, requestId, StartedMessage);
    CountMessageNone(middle, requestId, CompletedMessage);
  }

  /** If the two ends and the middle are correlated, so is the whole. */
  lemma FramedCorrelated(start: Entry, middle: seq<Entry>, done: Entry, requestId: string)
    requires Correlated(start, requestId) && Correlated(done, requestId)
    requires ViewLog(middle, requestId)
    ensures forall e :: e in [start] + middle + [done] ==> Correlated(e, requestId)
  {
    forall e | e in [start] + middle + [done] ensures Correlated(e, requestId) {
      if e !in middle {
        assert e == start || e == done;
      }
    }
  }

  /** The last entry of the lifecycle is the completion entry. */
  lemma LifecycleLast(req: Request, requestId: string, handled: Handled, amb: Ambient)
    requires handled.outcome.Returned?
    ensures var log := Lifecycle(req, requestId, handled, amb);
            && log[0] == StartedEntry(req, requestId, amb.startIso)
            && log[1..|log| - 1] == handled.log
            && log[|log| - 1] == CompletedEntry(Some(requestId), handled.outcome.response.status,
                                                DurationMs(Some(amb.startMs), amb.endMs), amb.endIso)
  {
  }

  /**
   * For every request: exactly one start entry, first; exactly one completion
   * entry, last; and every entry in between carries the same correlation id,
   * which is the `X-Request-ID` header when sent and the fresh id otherwise.
   */
  lemma RequestLifecycle(req: Request, route: Route, amb: Ambient)
    ensures var log := RequestLog(req, route, amb);
            && Field(log[0], K.Message, Str(StartedMessage))
            && Field(log[|log| - 1], K.Message, Str(CompletedMessage))
            && CountMessage(log, StartedMessage) == 1
            && CountMessage(log, CompletedMessage) == 1
    ensures forall e :: e in RequestLog(req, route, amb) ==> Correlated(e, CorrelationId(req, amb.freshId))
    ensures Header(req, RequestIdHeader).Some? ==>
              forall e :: e in RequestLog(req, route, amb) ==> Field(e, K.RequestId, Str(Header(req, RequestIdHeader).value))
    ensures Header(req, RequestIdHeader).None? ==>
              forall e :: e in RequestLog(req, route, amb) ==> Field(e, K.RequestId, Str(amb.freshId))
  {
    var rid := CorrelationId(req, amb.freshId);
    var handled := Dispatch(req, route, amb);
    LifecycleFramed(req, rid, handled, amb);
    LifecycleCorrelated(req, rid, handled, amb);
  }

  /** The start and completion entries frame a lifecycle, once each. */
  lemma LifecycleFramed(req: Request, requestId: string, handled: Handled, amb: Ambient)
    requires handled.outcome.Returned? && ViewLog(handled.log, requestId)
    ensures var log := Lifecycle(req, requestId, handled, amb);
            && Field(log[0], K.Message, Str(StartedMessage))
            && Field(log[|log| - 1], K.Message, Str(CompletedMessage))
            && CountMessage(log, StartedMessage) == 1
            && CountMessage(log, CompletedMessage) == 1
  {
    LifecycleLast(req, requestId, handled, amb);
    var start := StartedEntry(req, requestId, amb.startIso);
    var done := CompletedEntry(Some(requestId), handled.outcome.response.status,
                               DurationMs(Some(amb.startMs), amb.endMs), amb.endIso);
    FramedExactlyOnce(start, handled.log, done, requestId);
  }

  /** Every entry of a lifecycle carries its correlation id. */
  lemma LifecycleCorrelated(req: Request, requestId: string, handled: Handled, amb: Ambient)
    requires handled.outcome.Returned? && ViewLog(handled.log, requestId)
    ensures forall e :: e in Lifecycle(req, requestId, handled, amb) ==> Correlated(e, requestId)
  {
    var start := StartedEntry(req, requestId, amb.startIso);
    var done := CompletedEntry(Some(requestId), handled.outcome.response.status,
                               DurationMs(Some(amb.startMs), amb.endMs), amb.endIso);
    FramedCorrelated(start, handled.log, done, requestId);
  }

  /**
   * The completion entry is graded by the status of the handled outcome, and
   * carries that status and the elapsed milliseconds.
   */
  lemma LifecycleGraded(req: Request, requestId: string, handled: Handled, amb: Ambient)
    requires handled.outcome.Returned?
    ensures var log := Lifecycle(req, requestId, handled, amb);
            var status := handled.outcome.response.status;
            && Field(log[|log| - 1], K.Level, Str(LevelName(Severity(status))))
            && Field(log[|log| - 1], K.StatusCode, Int(status))
            && Field(log[|log| - 1], K.DurationMs, Int(amb.endMs - amb.startMs))
  {
    FramedCompletion(StartedEntry(req, requestId, amb.startIso), handled.log, requestId,
                     handled.outcome.response.status, DurationMs(Some(amb.startMs), amb.endMs), amb.endIso);
  }

  /** The last entry of a framed log is the completion entry, with its grade and fields. */
  lemma FramedCompletion(start: Entry, middle: seq<Entry>, requestId: string,
                         status: int, durationMs: int, isoNow: string)
    ensures var log := [start] + middle + [CompletedEntry(Some(requestId), status, durationMs, isoNow)];
            && Field(log[|log| - 1], K.Level, Str(LevelName(Severity(status))))
            && Field(log[|log| - 1], K.StatusCode, Int(status))
            && Field(log[|log| - 1], K.DurationMs, Int(durationMs))
  {
    Framed(start, middle, CompletedEntry(Some(requestId), status, durationMs, isoNow));
  }

  /** The last two elements of a sequence framed by `first` and `last`. */
  lemma Framed<T>(first: T, middle: seq<T>, last: T)
    ensures var s := [first] + middle + [last];
            && |s| == |middle| + 2
            && s[|s| - 1] == last
            && (|middle| >= 1 ==> s[|s| - 2] == middle[|middle| - 1])
  {
  }

  /**
   * The completion entry of a request is graded by the status the client
   * receives, and carries that status and the elapsed milliseconds.
   */
  lemma CompletionGradedByStatus(req: Request, route: Route, amb: Ambient)
    ensures var log := RequestLog(req, route, amb);
            var status := FinalResponse(req, route, amb).status;
            && Field(log[|log| - 1], K.Level, Str(LevelName(Severity(status))))
            && Field(log[|log| - 1], K.StatusCode, Int(status))
            && Field(log[|log| - 1], K.DurationMs, Int(amb.endMs - amb.startMs))
  {
    LifecycleGraded(req, CorrelationId(req, amb.freshId), Dispatch(req, route, amb), amb);
  }

  /** A handled request whose last entry is at ERROR and whose answer is a 5xx. */
  predicate EndsInError(h: Handled)
  {
    && h.outcome.Returned? && h.outcome.response.status >= 500
    && |h.log| >= 1 && AtLevel(h.log[|h.log| - 1], ERROR)
  }

  /** A log whose last two entries are at ERROR. */
  predicate LastTwoAtError(log: seq<Entry>)
  {
    |log| >= 2 && AtLevel(log[|log| - 2], ERROR) && AtLevel(log[|log| - 1], ERROR)
  }

  /** Dispatching a failed lookup, or an order body that is not an object or whose `items` has no length. */
  lemma DispatchFailure(req: Request, route: Route, amb: Ambient)
    requires || (route.UserLookup? && !route.lookup.Found?)
             || (route.OrderCreation? && (!route.body.Obj? || ItemCount(route.body.fields).None?))
    ensures EndsInError(Dispatch(req, route, amb))
  {
    var rid := CorrelationId(req, amb.freshId);
    if route.UserLookup? {
      assert View(req, route, Some(rid), amb.viewIso) == GetUser(route.userId, route.lookup, Some(rid), amb.viewIso);
    } else if !route.body.Obj? {
      assert View(req, route, Some(rid), amb.viewIso) == Handled([], Raised(AttributeError));
    } else {
      assert View(req, route, Some(rid), amb.viewIso) == Handled([], Raised(TypeError));
    }
  }

  /**
   * A failed lookup, and an order body that is not an object or whose
   * `items` has no length, end in a 5xx answer whose last view entry is at
   * ERROR, as is the completion entry.
   */
  lemma FailuresGradedError(req: Request, route: Route, amb: Ambient)
    requires || (route.UserLookup? && !route.lookup.Found?)
             || (route.OrderCreation? && (!route.body.Obj? || ItemCount(route.body.fields).None?))
    ensures LastTwoAtError(RequestLog(req, route, amb)) && FinalResponse(req, route, amb).status >= 500
  {
    DispatchFailure(req, route, amb);
    GradedFromDispatch(req, route, amb);
  }

  /** A dispatch that ends at ERROR with a 5xx status ends its request the same way. */
  lemma GradedFromDispatch(req: Request, route: Route, amb: Ambient)
    requires EndsInError(Dispatch(req, route, amb))
    ensures LastTwoAtError(RequestLog(req, route, amb)) && FinalResponse(req, route, amb).status >= 500
  {
    LifecycleFailure(req, CorrelationId(req, amb.freshId), Dispatch(req, route, amb), amb);
  }

  /** A handled outcome that ends at ERROR with a 5xx status ends its lifecycle the same way. */
  lemma LifecycleFailure(req: Request, requestId: string, handled: Handled, amb: Ambient)
    requires EndsInError(handled)
    ensures LastTwoAtError(Lifecycle(req, requestId, handled, amb))
  {
    FramedFailure(StartedEntry(req, requestId, amb.startIso), handled.log, requestId,
                  handled.outcome.response.status, DurationMs(Some(amb.startMs), amb.endMs), amb.endIso);
  }

  /** View entries ending at ERROR, followed by the completion entry of a 5xx. */
  lemma FramedFailure(start: Entry, middle: seq<Entry>, requestId: string,
                      status: int, durationMs: int, isoNow: string)
    requires |middle| >= 1 && AtLevel(middle[|middle| - 1], ERROR) && status >= 500
    ensures LastTwoAtError([start] + middle + [CompletedEntry(Some(requestId), status, durationMs, isoNow)])
  {
    var done := CompletedEntry(Some(requestId), status, durationMs, isoNow);
    assert Severity(status) == ERROR;
    Framed(start, middle, done);
  }
}
