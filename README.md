# Structured request logging and a fail-fast configuration gate, in Dafny

This project models two small Flask services and proves properties of the model.

The first is an API service that writes one JSON log entry per event. `log_json` builds each entry
from five mandatory fields (`timestamp`, `level`, `message`, `service`, `request_id`) and the
caller's keyword arguments. The `before_request` hook takes the correlation id from the
`X-Request-ID` header, or else from a fresh uuid. It records the start time and logs
"Request started". The `after_request` hook grades the response status as ERROR, WARN or INFO
and logs "Request completed" with the status and the elapsed milliseconds. The views log what
they do: `create_order` first masks `credit_card`, `password` and `ssn` in the order payload.
The 404 and 500 handlers log and answer with a generic body.

The second is a notification service that checks seven required environment variables at
startup. If any is unset or empty, it logs the missing names in declaration order and exits
with status 1. Otherwise it logs the five non-secret values and keeps the configuration.
Its `ready`, `send_notification` and `config_info` routes read that configuration or the live
environment.

Files:

- `json.dfy` (module `Json`): JSON values, `Option`, and the `(status, body)` pair a view returns.
- `log_keys.dfy` (module `LogKeys`): the closed set of field names a log entry can have.
- `structured_log.dfy` (module `StructuredLog`): the pure logic of the API service. It covers
  entry construction, severity, redaction, and what each view and handler logs and answers.
  It also holds the log of one whole request and the lemmas about it.
- `request_lifecycle.dfy` (module `RequestLifecycle`): the stateful side. The shared logger is a
  class holding a sequence of entries. Flask's `g` is a class with `requestId` and `startMs`.
  The hooks and views are methods that append to the logger. Each method is proved to append
  exactly what the matching `StructuredLog` function describes.
- `config_gate.dfy` (module `ConfigGate`): the configuration gate. The environment is a
  `map<string, string>`. `validate_config` is a method that returns its outcome and the lines it
  logged. The routes are functions of the environment or of the configuration.

Modelling choices:

- A log entry is a map from field name to JSON value, and the sink is a sequence of entries.
  The configuration service's log is a sequence of (level, message) lines.
- Time is whole milliseconds. A timestamp is an opaque ISO string with `Z` appended. The fresh
  uuid, the clock readings, the random failure of the user lookup, the text of the error object
  the 500 handler receives and its traceback are all parameters (`Ambient`, `Lookup`, `Fault`).
- Python dict-display semantics are kept: `{..., **kwargs}` lets a keyword argument named
  `timestamp`, `service` or `request_id` replace the mandatory value (`ExtrasOverrideMandatory`).
  A design in which the mandatory fields win on a collision would differ here; the model
  follows the code. An extra named `level` or `message` cannot occur, because Python rejects
  such a call; `BuildEntry` requires its absence.
- The severity rule follows the code: every status from 500 upward is ERROR, 600 and above
  included. 400 to 499 is WARN. Anything else is INFO.
- Secrecy of configuration values is an explicit tag on each required variable (`Logged` with a
  caption, or `Secret`). `RequiredValueLines` proves that the tags give back exactly the five
  lines the code writes. That secrets never reach the log is stated as non-interference: two
  environments that differ only in the secret values produce the same lines
  (`StartupHidesSecrets`). A secret's value is not claimed never to occur as a substring,
  since an arbitrary value could coincide with other logged text.
- `sys.exit(1)` is an outcome value. It raises `SystemExit`, which the startup `except Exception`
  does not catch, so the missing-variable path adds no "Configuration validation failed" line.
  Any other exception inside `validate_config` is modelled as a `Fault`: the logging call with a
  given index raises. Startup then logs the failure and also exits with status 1.

## Model

| member | source | states |
|---|---|---|
| `StructuredLog.Timestamp` | examples/chapter-02/sample-app-good-logging.py:30 | the timestamp is the clock's ISO text followed by one `Z` |
| `LogKeys.NameInjective` | examples/chapter-02/sample-app-good-logging.py:29-36 | no two keys are written under the same JSON member name, so right-biased map union over keys is the dict display over names |
| `StructuredLog.BuildEntry` | examples/chapter-02/sample-app-good-logging.py:27-37 | an entry has the given level and message and every extra field with its value. Where no extra of that name is given, it has the timestamp, `service = api-service` and `request_id` = `g.request_id` or `unknown` |
| `StructuredLog.EntryKeys` | examples/chapter-02/sample-app-good-logging.py:29-36 | the keys of an entry are exactly the five mandatory ones plus the keys of the extras |
| `StructuredLog.EntryCorrelated` | examples/chapter-02/sample-app-good-logging.py:33-34 | with no colliding extra, an entry names the service and the current request id (or `unknown`) and carries the timestamp |
| `StructuredLog.ExtrasOverrideMandatory` | examples/chapter-02/sample-app-good-logging.py:29-35 | a keyword argument named `request_id` or `service` replaces the mandatory value |
| `StructuredLog.Severity` | examples/chapter-02/sample-app-good-logging.py:56-62 | for every integer status: ERROR iff status >= 500, WARN iff 400 <= status < 500, INFO iff status < 400 |
| `StructuredLog.SeverityMonotone` | examples/chapter-02/sample-app-good-logging.py:57-62 | a larger status is never graded less severe |
| `StructuredLog.Redact` | examples/chapter-02/sample-app-good-logging.py:114-117 | the result has exactly the payload's keys. Each of `credit_card`, `password`, `ssn` maps to `***REDACTED***`. Every other key keeps its value. The input is a value, so it is unchanged |
| `StructuredLog.RedactIdempotent` | examples/chapter-02/sample-app-good-logging.py:114-117 | redacting a redacted payload changes nothing |
| `StructuredLog.RedactHidesSensitive` | examples/chapter-02/sample-app-good-logging.py:114-117 | payloads that differ only in sensitive values redact to the same mapping |
| `StructuredLog.RedactIsShallow` | examples/chapter-02/sample-app-good-logging.py:114-117 | only top-level keys are masked: a `password` nested in an object passes through |
| `StructuredLog.CorrelationId` | examples/chapter-02/sample-app-good-logging.py:42 | the id is the `X-Request-ID` header's value when the request carries it (even if empty), and the fresh id otherwise |
| `StructuredLog.EnvironKeyIgnoresCase` | examples/chapter-02/sample-app-good-logging.py:42 | header names that differ only in letter case are stored under one environ key, so a lookup by either spelling finds the same header |
| `StructuredLog.CorrelationIdSource` | examples/chapter-02/sample-app-good-logging.py:42 | for every capitalisation of `X-Request-ID` the client may have sent: the correlation id is that header's value verbatim when present, and the fresh id otherwise |
| `StructuredLog.LowerCaseRequestIdHeader` | examples/chapter-02/sample-app-good-logging.py:42 | a request sending `x-request-id: abc` is correlated as `abc`, not with the fresh id |
| `StructuredLog.UserAgent` | examples/chapter-02/sample-app-good-logging.py:49 | the user agent is the `User-Agent` header (looked up ignoring case) when present, and `unknown` otherwise |
| `StructuredLog.StartedEntry` | examples/chapter-02/sample-app-good-logging.py:45-49 | the start entry is INFO "Request started" with the request id, method, path, remote address, and the `User-Agent` header, looked up ignoring case (default `unknown`) |
| `StructuredLog.DurationMs` | examples/chapter-02/sample-app-good-logging.py:54 | the duration is end minus start, and 0 when no start time was recorded |
| `StructuredLog.CompletedEntry` | examples/chapter-02/sample-app-good-logging.py:64-66 | the completion entry is "Request completed" at severity(status) with `status_code`, `duration_ms` and the request id |
| `StructuredLog.LookupEntry` | examples/chapter-02/sample-app-good-logging.py:86-105 | after the lookup: success logs INFO "User fetched successfully" with `found=True`. A connection timeout logs ERROR "Database connection failed" with `error_type=ConnectionError` and `retry_count=0`. Any other exception logs ERROR "Unexpected error" with its type, message and traceback |
| `StructuredLog.LookupResponse` | examples/chapter-02/sample-app-good-logging.py:90-106 | success answers 200 with the user record, a timeout 503, anything else 500, each error with a generic body |
| `StructuredLog.UserRecord` | examples/chapter-02/sample-app-good-logging.py:80-84 | the user record has exactly the keys `id`, `name`, `email`, with `id` the requested user id |
| `StructuredLog.GetUser` | examples/chapter-02/sample-app-good-logging.py:70-106 | `get_user` logs exactly two correlated entries ("Fetching user" with the user id, then the lookup entry) and always returns a response |
| `StructuredLog.GetUserHidesDiagnostics` | examples/chapter-02/sample-app-good-logging.py:100-106 | the client's answer is the same for every unexpected exception, whatever its type, message or trace |
| `StructuredLog.GetUserFailureIsError` | examples/chapter-02/sample-app-good-logging.py:92-106 | the lookup failed iff its entry is at ERROR, iff the status is graded ERROR |
| `StructuredLog.ItemCount` | examples/chapter-02/sample-app-good-logging.py:121 | `item_count` is 0 when `items` is absent, and the length of a list, a string or an object otherwise. `len` fails exactly for null, booleans and numbers |
| `StructuredLog.TotalAmount` | examples/chapter-02/sample-app-good-logging.py:128 | `total_amount` is the payload's `total` as given, and 0 when absent |
| `StructuredLog.CreateOrder` | examples/chapter-02/sample-app-good-logging.py:108-130 | a non-object body raises AttributeError and an unmeasurable `items` raises TypeError, both before logging. Otherwise two INFO entries are logged: "Creating order" with the redacted payload and `item_count`, then "Order created successfully" with the order id and `total_amount` (default 0). The answer is 201 |
| `StructuredLog.CreateOrderHidesSensitive` | examples/chapter-02/sample-app-good-logging.py:113-128 | redact-then-log: payloads differing only in sensitive values produce identical log entries and answer |
| `StructuredLog.SlowEndpoint` | examples/chapter-02/sample-app-good-logging.py:132-144 | two correlated entries, INFO "Processing slow request" then WARN "Slow operation completed" with `duration_ms=2000`, and status 200 |
| `StructuredLog.NotFound` | examples/chapter-02/sample-app-good-logging.py:157-163 | one WARN "Resource not found" entry with path and method, and a 404 with a generic body |
| `StructuredLog.InternalError` | examples/chapter-02/sample-app-good-logging.py:165-171 | one ERROR "Internal server error" entry with the error text and traceback, and a 500 body carrying neither |
| `StructuredLog.ViewEntry` | examples/chapter-02/sample-app-good-logging.py:27-37 | an entry written by a view carries its level, message and every extra, names the service and the current request id (or `unknown`), and has one of the view messages |
| `StructuredLog.View` | examples/chapter-02/sample-app-good-logging.py:70-163 | each route's view logs only correlated view entries. Only order creation can raise, and then it has logged nothing |
| `StructuredLog.Dispatch` | examples/chapter-02/sample-app-good-logging.py:165-171 | after the 500 handler takes an escaped exception, every request ends in a response, and every entry logged is correlated |
| `StructuredLog.FinalResponse` | examples/chapter-02/sample-app-good-logging.py:70-171 | every request to a modelled route is answered with one of the statuses its views and handlers produce: 200, 201, 404, 500 or 503 |
| `StructuredLog.Lifecycle` | examples/chapter-02/sample-app-good-logging.py:39-68 | one request's log is the start entry, the view's entries and the completion entry |
| `StructuredLog.RequestLog` | examples/chapter-02/sample-app-good-logging.py:39-68 | a request logs exactly two entries more than its view and error handlers: the start and the completion entry |
| `StructuredLog.RequestLogParts` | examples/chapter-02/sample-app-good-logging.py:39-68 | a request's log splits into the start entry, what dispatch logged, and the completion entry for the status the client receives |
| `StructuredLog.FramedExactlyOnce` | examples/chapter-02/sample-app-good-logging.py:45-66 | a start entry, view entries and a completion entry contain exactly one "Request started" and one "Request completed" |
| `StructuredLog.FramedCorrelated` | examples/chapter-02/sample-app-good-logging.py:34 | if both ends and the middle carry one request id, so does the whole log |
| `StructuredLog.LifecycleLast` | examples/chapter-02/sample-app-good-logging.py:39-68 | the start entry is first, the view's entries are in the middle, and the completion entry is last |
| `StructuredLog.RequestLifecycle` | examples/chapter-02/sample-app-good-logging.py:34-68 | every request logs exactly one start entry, first, and exactly one completion entry, last. All its entries share one request id: the `X-Request-ID` header (under any capitalisation of its name) when sent, the fresh id otherwise |
| `StructuredLog.LifecycleGraded` | examples/chapter-02/sample-app-good-logging.py:54-66 | the last entry is graded by the handled status and carries that status and end minus start |
| `StructuredLog.CompletionGradedByStatus` | examples/chapter-02/sample-app-good-logging.py:51-68 | the completion entry is graded by the status the client receives, and carries it and the elapsed milliseconds |
| `StructuredLog.DispatchFailure` | examples/chapter-02/sample-app-good-logging.py:92-130 | a failed lookup, or an order body that is not an object or whose `items` has no length, makes dispatch's last entry ERROR with a status >= 500 |
| `StructuredLog.FailuresGradedError` | examples/chapter-02/sample-app-good-logging.py:92-130 | in that case both the last view entry and the completion entry are ERROR |
| `RequestLifecycle.Logger.constructor` | examples/chapter-02/sample-app-good-logging.py:25 | a new logger has no entries |
| `RequestLifecycle.Logger.Log` | examples/chapter-02/sample-app-good-logging.py:37 | `logger.log` appends exactly one entry after all earlier ones |
| `RequestLifecycle.RequestScope.constructor` | examples/chapter-02/sample-app-good-logging.py:34 | a fresh `g` has neither `request_id` nor `start_time` |
| `RequestLifecycle.RequestScope.LogJson` | examples/chapter-02/sample-app-good-logging.py:27-37 | `log_json` appends exactly `BuildEntry` for the current `g` |
| `RequestLifecycle.RequestScope.BeforeRequest` | examples/chapter-02/sample-app-good-logging.py:39-49 | sets `g.request_id` to the correlation id and `g.start_time` to now, and appends exactly the start entry |
| `RequestLifecycle.RequestScope.AfterRequest` | examples/chapter-02/sample-app-good-logging.py:51-68 | appends exactly the completion entry for the response status and the elapsed time, and returns the response unchanged |
| `RequestLifecycle.RequestScope.GetUser` | examples/chapter-02/sample-app-good-logging.py:70-106 | appends exactly the entries of `StructuredLog.GetUser` and returns its response |
| `RequestLifecycle.RequestScope.CreateOrder` | examples/chapter-02/sample-app-good-logging.py:108-130 | appends exactly the entries of `StructuredLog.CreateOrder` and ends as it does |
| `RequestLifecycle.RequestScope.SlowEndpoint` | examples/chapter-02/sample-app-good-logging.py:132-144 | appends exactly the entries of `StructuredLog.SlowEndpoint` |
| `RequestLifecycle.RequestScope.NotFound` | examples/chapter-02/sample-app-good-logging.py:157-163 | appends exactly the 404 handler's entry and returns 404 |
| `RequestLifecycle.RequestScope.InternalError` | examples/chapter-02/sample-app-good-logging.py:165-171 | appends exactly the 500 handler's entry and returns 500 |
| `RequestLifecycle.RequestScope.View` | examples/chapter-02/sample-app-good-logging.py:70-163 | dispatches to the route's view and appends what `StructuredLog.View` describes |
| `RequestLifecycle.RequestScope.DispatchRequest` | examples/chapter-02/sample-app-good-logging.py:165-171 | the view, then the 500 handler when it raised, appends `Dispatch`'s entries and returns its response |
| `RequestLifecycle.HandleRequest` | examples/chapter-02/sample-app-good-logging.py:39-68 | a whole request appends exactly `RequestLog`, so `RequestLifecycle` and `CompletionGradedByStatus` hold of what it writes |
| `ConfigGate.Missing` | examples/chapter-03/sample-app-with-config-validation.py:42 | the list has at most one entry per declared variable; which names it holds is stated by `MissingMembers`, and their order by `MissingAppend` and `MissingRequired` |
| `ConfigGate.MissingMembers` | examples/chapter-03/sample-app-with-config-validation.py:41-42 | a name is in the missing list iff it is declared and unset or empty |
| `ConfigGate.MissingOne` | examples/chapter-03/sample-app-with-config-validation.py:42 | one variable is listed iff it is unset or empty |
| `ConfigGate.MissingAppend` | examples/chapter-03/sample-app-with-config-validation.py:31-42 | declaration order: names missing among earlier declarations come before those among later ones |
| `ConfigGate.NoneMissing` | examples/chapter-03/sample-app-with-config-validation.py:42-44 | the missing list is empty iff every declared variable is set and non-empty |
| `ConfigGate.RequiredNamesListed` | examples/chapter-03/sample-app-with-config-validation.py:31-39 | the required variables are SMTP_HOST, SMTP_PORT, SMTP_USER, SMTP_PASS, PUSH_API_KEY, REDIS_URL, USER_SERVICE_URL, in that order |
| `ConfigGate.MissingRequired` | examples/chapter-03/sample-app-with-config-validation.py:31-42 | the missing list is each of the seven variables that is unset or empty, in that order |
| `ConfigGate.ValueLinesReadOnlyLogged` | examples/chapter-03/sample-app-with-config-validation.py:49-56 | the value lines depend only on the values of variables tagged `Logged` |
| `ConfigGate.RequiredValueLines` | examples/chapter-03/sample-app-with-config-validation.py:51-55 | the secrecy tags give back the five lines for SMTP host, port, user, Redis URL and user-service URL, in that order |
| `ConfigGate.ConfigOf` | examples/chapter-03/sample-app-with-config-validation.py:31-39 | the configuration has each declared variable that is set, with its environment value |
| `ConfigGate.Validate` | examples/chapter-03/sample-app-with-config-validation.py:24-58 | it exits iff some required variable is unset or empty, then with status 1 and the non-empty missing list. Otherwise it returns a configuration of exactly the seven names, each mapped to its non-empty environment value |
| `ConfigGate.PyListRepr` | examples/chapter-03/sample-app-with-config-validation.py:45 | a list is written between `[` and `]`, and as `[]` exactly when it is empty; `JoinQuotedOne`, `JoinQuotedSnoc` and `PyListReprInjective` fix which names appear and in what order |
| `ConfigGate.JoinQuotedOne` | examples/chapter-03/sample-app-with-config-validation.py:45 | a one-name list shows that name between single quotes |
| `ConfigGate.JoinQuotedSnoc` | examples/chapter-03/sample-app-with-config-validation.py:45 | each further name follows the earlier ones after `, `, quoted, so every listed name appears in list order |
| `ConfigGate.PyListReprInjective` | examples/chapter-03/sample-app-with-config-validation.py:45 | two lists of names without quotes print the same only when they are the same list |
| `ConfigGate.ValidationLines` | examples/chapter-03/sample-app-with-config-validation.py:29-55 | the log opens with "Validating configuration..."; with a variable missing it is three lines ending in "cannot start", otherwise seven lines whose second is the confirmation, which appears exactly when nothing is missing |
| `ConfigGate.SuccessLines` | examples/chapter-03/sample-app-with-config-validation.py:29-55 | on success the log is the opening line, the confirmation and the five non-secret values |
| `ConfigGate.Emit` | examples/chapter-03/sample-app-with-config-validation.py:29-55 | one logging call of `validate_config`: it raises exactly when the fault names this call, and otherwise appends its line, keeping the lines written a prefix of the full log |
| `ConfigGate.ReportMissing` | examples/chapter-03/sample-app-with-config-validation.py:45-47 | the two error lines of the missing path are written in order, and a raising call stops there |
| `ConfigGate.ReportConfiguration` | examples/chapter-03/sample-app-with-config-validation.py:50-55 | the confirmation and the five value lines are written in order, and a raising call stops there |
| `ConfigGate.ValidateConfig` | examples/chapter-03/sample-app-with-config-validation.py:24-58 | the method's outcome and lines are `Attempted` and `WrittenLines`: all lines and `Validate`'s outcome, or, when a logging call raises, the lines before it and that exception |
| `ConfigGate.Startup` | examples/chapter-03/sample-app-with-config-validation.py:60-65 | the process exits iff a variable is missing or an exception escaped, always with status 1. The missing path writes only the opening line, the missing list and "cannot start". An escaped exception adds one "Configuration validation failed" line. Otherwise it serves with `Validate`'s configuration |
| `ConfigGate.StartupLines` | examples/chapter-03/sample-app-with-config-validation.py:60-65 | without a raising log call the startup log is the validation log; with one, it is the lines before the raising call followed by "Configuration validation failed" |
| `ConfigGate.ExitLogsOnlyMissingNames` | examples/chapter-03/sample-app-with-config-validation.py:44-47 | on the exit path two environments log the same lines exactly when they miss the same names in the same order, and no value and no confirmation is logged |
| `ConfigGate.StartupHidesSecrets` | examples/chapter-03/sample-app-with-config-validation.py:49-65 | environments that differ only in the values of SMTP_PASS and PUSH_API_KEY produce identical startup logs |
| `ConfigGate.StartupConfig` | examples/chapter-03/sample-app-with-config-validation.py:31-58 | with all seven set and non-empty, the returned configuration maps each to its environment value |
| `ConfigGate.MissingExample` | examples/chapter-03/sample-app-with-config-validation.py:42-47 | with SMTP_PASS unset and REDIS_URL empty, it exits 1 listing `SMTP_PASS`, `REDIS_URL` in that order |
| `ConfigGate.MissingLineExample` | examples/chapter-03/sample-app-with-config-validation.py:45 | the list is written as Python prints it: `['SMTP_PASS', 'REDIS_URL']` |
| `ConfigGate.Ready` | examples/chapter-03/sample-app-with-config-validation.py:72-94 | 503 `not ready` with reason `Configuration missing` iff SMTP_HOST or REDIS_URL is unset or empty in the live environment. Otherwise 200 `ready` with `config_loaded = true` |
| `ConfigGate.ReadyAfterStartup` | examples/chapter-03/sample-app-with-config-validation.py:80-89 | an environment that passed the startup check is ready |
| `ConfigGate.ReadyFollowsDrift` | examples/chapter-03/sample-app-with-config-validation.py:79-84 | after a successful startup, unsetting REDIS_URL makes `ready` answer 503 although the cached configuration still holds it |
| `ConfigGate.ReadyReadsTwoVariables` | examples/chapter-03/sample-app-with-config-validation.py:80 | `ready` depends only on whether SMTP_HOST and REDIS_URL are set and non-empty |
| `ConfigGate.SendNotification` | examples/chapter-03/sample-app-with-config-validation.py:96-111 | logs one line naming the configured SMTP host and answers 200 with that host unchanged |
| `ConfigGate.SendNotificationUsesStartupHost` | examples/chapter-03/sample-app-with-config-validation.py:101-111 | the host it answers with is SMTP_HOST's value at startup |
| `ConfigGate.ConfigInfo` | examples/chapter-03/sample-app-with-config-validation.py:113-125 | the three `*_configured` flags are true iff the variable is set and non-empty. `log_level` defaults to `INFO` and `environment` to `unknown` only when unset |
| `ConfigGate.ConfigInfoHidesSecrets` | examples/chapter-03/sample-app-with-config-validation.py:119-125 | `config_info` depends on PUSH_API_KEY only through whether it is set, and not on SMTP_PASS |

## Left out

- Flask routing, `request`, `jsonify` and the thread-local `g`: a route is a `Route` value, and `g` is one `RequestScope` object per request. Concurrent requests are not modelled. A request whose method the matched route does not allow (a GET to `/api/orders`, which Flask answers with 405 after both hooks ran) has no `Route` value and is not modelled.
- Python `logging` record formatting (the `%(asctime)s - ...` prefix) and `json.dumps` serialisation: an entry is a map and a line is a level and a message. Every modelled value is JSON-serialisable, so no serialisation failure arises.
- `datetime.utcnow()`, `time.time()` and `round(duration_ms, 2)`: clock readings are parameters in whole milliseconds, and rounding is not modelled. Without a recorded start time the two readings in `after_request` are taken to coincide.
- `uuid.uuid4()`, `random.random()` and `traceback.format_exc()`: parameters. Uniqueness of generated ids is not stated.
- `time.sleep(2)` in `slow_endpoint` is dropped: no member waits. The two clock readings of a request are free parameters of `Ambient`, so nothing bounds `duration_ms` of the completion entry, not even below by 2000 ms for `/api/slow` or below by 0 for any request; only the `duration_ms=2000` that the view itself logs is fixed.
- `datetime.utcnow()` is read once per `log_json` call in the service. The model reads it three times per request: the start entry, the completion entry, and one shared reading (`Ambient.viewIso`) for every entry the view and the 500 handler write.
- JSON floats: `Value` has integers but no floating-point numbers, so a payload such as `{"total": 42.5}` is not expressible, and `total_amount` is never a float.
- How the WSGI server turns received header lines into environ keys, and how it merges a header sent more than once, is not modelled: `Request.headers` is already keyed by environ key (`EnvironKey`).
- `request.json` is modelled as an already-parsed JSON value. Flask's own rejection of a non-JSON request body is outside the model.
- The `except Exception` branch of `ready` (chapter-03, lines 90-94): `os.getenv` with string names cannot raise, so this branch is unreachable and is not modelled.
- The `health` routes of both services and the chapter-02 `ready` route are constant answers. They appear only as `HealthCheck` and `ReadinessCheck` routes of the API service.
- The `__main__` blocks of both services: `app.run`, `int(os.getenv('PORT', ...))` and process termination.
- The `log_json('INFO', 'Application starting', ...)` call in the API service's `__main__` block (chapter-02, line 174) runs outside any application context. There `g.get` (line 34) raises `RuntimeError`, so the script stops before `app.run`. Every modelled entry is written inside a request, so the `unknown` request-id default is reached only when a caller passes an unset `g`, which no request of the service does.
- Flask's own exception log line: when an exception escapes a view (a non-object order body, or an `items` without a length), Flask calls `app.log_exception` before the 500 handler. That writes "Exception on /api/orders [POST]" and a traceback to the same stream as `logger`. It is not a `log_json` entry and is not part of the modelled log.
- A design where an aborted request logs an "aborted" marker, or where mandatory log fields win over colliding extras, is not what the code does. The model follows the code: a request always ends in a response, and extras win.
- The memory-profiling service and the print-based logging sample are not part of this model.
