/**
 * The stateful side of the structured-logging API service: the module-level
 * `logger` every function writes to, Flask's per-request `g` that the
 * `before_request` hook fills in, and the hooks and views as methods that
 * append to the logger. Each method is proved to append exactly the entries
 * that the corresponding function of StructuredLog describes, so the lemmas
 * proved there (one start and one completion entry per request, one
 * correlation id, redact-then-log) hold of what these methods write.
 */
module RequestLifecycle {
  import opened Json
  import opened StructuredLog
  import K = LogKeys

  /** The shared logger: an append-only sequence of JSON entries. */
  class Logger {
    var entries: seq<Entry>

    constructor ()
      ensures entries == []
    {
      entries := [];
    }

    /** `logger.log(...)`: one entry, written once, after all earlier ones. */
    method Log(e: Entry)
      modifies this
      ensures entries == old(entries) + [e]
    {
      entries := entries + [e];
    }
  }

  /**
   * Flask's `g` while one request is being served (`g.request_id`,
   * `g.start_time`, both unset on a fresh `g`), together with the shared
   * logger the hooks and views write to.
   */
  class RequestScope {
    var requestId: Option<string>
    var startMs: Option<int>
    const logger: Logger

    constructor (logger: Logger)
      ensures this.logger == logger
      ensures requestId == None && startMs == None
    {
      this.logger := logger;
      requestId := None;
      startMs := None;
    }

    /** `log_json`: build one entry from the current `g` and write it. */
    method LogJson(isoNow: string, level: Level, message: string, extras: map<K.Key, Value>)
      requires K.Level !in extras && K.Message !in extras
      modifies logger
      ensures logger.entries == old(logger.entries) + [BuildEntry(isoNow, level, message, requestId, extras)]
    {
      logger.Log(BuildEntry(isoNow, level, message, requestId, extras));
    }

    /**
     * `before_request`: adopt the `X-Request-ID` header or the fresh id,
     * record the start time, and write the StartedMessage entry.
     */
    method BeforeRequest(req: Request, freshId: string, nowMs: int, isoNow: string)
      modifies this, logger
      ensures requestId == Some(CorrelationId(req, freshId)) && startMs == Some(nowMs)
      ensures logger.entries == old(logger.entries) + [StartedEntry(req, CorrelationId(req, freshId), isoNow)]
    {
      requestId := Some(Header(req, RequestIdHeader).GetOr(freshId));
      startMs := Some(nowMs);
      LogJson(isoNow, INFO, StartedMessage, StartedExtras(req));
    }

    /**
     * `after_request`: grade the response by its status, write the "Request
     * completed" entry with the elapsed time, and hand the response back as is.
     */
    method AfterRequest(response: Response, nowMs: int, isoNow: string) returns (r: Response)
      modifies logger
      ensures r == response
      ensures logger.entries == old(logger.entries)
                                + [CompletedEntry(requestId, response.status, DurationMs(startMs, nowMs), isoNow)]
    {
      var durationMs := nowMs - startMs.GetOr(nowMs);
      var level: Level;
      if response.status >= 500 {
        level := ERROR;
      } else if response.status >= 400 {
        level := WARN;
      } else {
        level := INFO;
      }
      LogJson(isoNow, level, CompletedMessage,
              map[K.StatusCode := Int(response.status), K.DurationMs := Int(durationMs)]);
      r := response;
    }

    /** `get_user`: every exception of the lookup is caught inside the view. */
    method GetUser(userId: string, lookup: Lookup, isoNow: string) returns (response: Response)
      modifies logger
      ensures logger.entries == old(logger.entries) + StructuredLog.GetUser(userId, lookup, requestId, isoNow).log
      ensures Returned(response) == StructuredLog.GetUser(userId, lookup, requestId, isoNow).outcome
    {
      ghost var spec := StructuredLog.GetUser(userId, lookup, requestId, isoNow);
      LogJson(isoNow, INFO, FetchingUserMessage, map[K.UserId := Str(userId)]);
      ghost var afterFirst := logger.entries;
      assert afterFirst == old(logger.entries) + [spec.log[0]];
      match lookup {
        case Found =>
          LogJson(isoNow, INFO, UserFetchedMessage,
                  map[K.UserId := Str(userId), K.Found := Bool(true)]);
          response := Response(200, UserRecord(userId));
        case ConnectionTimeout =>
          LogJson(isoNow, ERROR, DatabaseFailedMessage,
                  map[K.UserId := Str(userId), K.Error := Str(ConnectionTimeoutMessage),
                      K.ErrorType := Str(ConnectionError), K.RetryCount := Int(0)]);
          response := Response(503, ErrorBody(ServiceUnavailable));
        case Unexpected(errorType, message, trace) =>
          LogJson(isoNow, ERROR, UnexpectedErrorMessage,
                  map[K.UserId := Str(userId), K.Error := Str(message),
                      K.ErrorType := Str(errorType), K.Traceback := Str(trace)]);
          response := Response(500, ErrorBody(InternalServerError));
      }
      assert logger.entries == afterFirst + [spec.log[1]];
      AppendTwo(old(logger.entries), spec.log);
    }

    /** `create_order` on the parsed body; an escaping exception is returned as `Raised`. */
    method CreateOrder(body: Value, orderId: string, isoNow: string) returns (outcome: Outcome)
      modifies logger
      ensures logger.entries == old(logger.entries) + StructuredLog.CreateOrder(body, orderId, requestId, isoNow).log
      ensures outcome == StructuredLog.CreateOrder(body, orderId, requestId, isoNow).outcome
    {
      if !body.Obj? {
        return Raised(AttributeError);
      }
      var data := body.fields;
      var safeData := Redact(data);
      var count := ItemCount(data);
      if count.None? {
        return Raised(TypeError);
      }
      ghost var spec := StructuredLog.CreateOrder(body, orderId, requestId, isoNow);
      LogJson(isoNow, INFO, CreatingOrderMessage,
              map[K.OrderData := Obj(safeData), K.ItemCount := Int(count.value)]);
      ghost var afterFirst := logger.entries;
      assert afterFirst == old(logger.entries) + [spec.log[0]];
      LogJson(isoNow, INFO, OrderCreatedMessage,
              map[K.OrderId := Str(orderId), K.TotalAmount := TotalAmount(data)]);
      assert logger.entries == afterFirst + [spec.log[1]];
      AppendTwo(old(logger.entries), spec.log);
      outcome := Returned(Response(201, map[OrderIdField := Str(orderId)]));
    }

    method SlowEndpoint(isoNow: string) returns (response: Response)
      modifies logger
      ensures logger.entries == old(logger.entries) + StructuredLog.SlowEndpoint(requestId, isoNow).log
      ensures Returned(response) == StructuredLog.SlowEndpoint(requestId, isoNow).outcome
    {
      LogJson(isoNow, INFO, SlowStartedMessage, map[]);
      LogJson(isoNow, WARN, SlowCompletedMessage,
              map[K.DurationMs := Int(2000), K.Operation := Str(SlowOperationName)]);
      response := Response(200, map[StatusField := Str(Completed)]);
    }

    /** The 404 error handler. */
    method NotFound(req: Request, isoNow: string) returns (response: Response)
      modifies logger
      ensures logger.entries == old(logger.entries) + StructuredLog.NotFound(req, requestId, isoNow).log
      ensures Returned(response) == StructuredLog.NotFound(req, requestId, isoNow).outcome
    {
      LogJson(isoNow, WARN, NotFoundMessage,
              map[K.Path := Str(req.path), K.Method := Str(req.httpMethod)]);
      response := Response(404, ErrorBody(NotFoundText));
    }

    /** The 500 error handler, given the error text and the formatted traceback. */
    method InternalError(errorText: string, trace: string, isoNow: string) returns (response: Response)
      modifies logger
      ensures logger.entries == old(logger.entries) + StructuredLog.InternalError(errorText, trace, requestId, isoNow).log
      ensures Returned(response) == StructuredLog.InternalError(errorText, trace, requestId, isoNow).outcome
    {
      LogJson(isoNow, ERROR, InternalServerError,
              map[K.Error := Str(errorText), K.Traceback := Str(trace)]);
      response := Response(500, ErrorBody(InternalServerError));
    }

    /** Flask's dispatch to the view of `route` (the 404 handler when none matches). */
    method View(req: Request, route: Route, isoNow: string) returns (outcome: Outcome)
      modifies logger
      ensures logger.entries == old(logger.entries) + StructuredLog.View(req, route, requestId, isoNow).log
      ensures outcome == StructuredLog.View(req, route, requestId, isoNow).outcome
    {
      match route {
        case UserLookup(userId, lookup) =>
          var response := GetUser(userId, lookup, isoNow);
          outcome := Returned(response);
        case OrderCreation(body, orderId) =>
          outcome := CreateOrder(body, orderId, isoNow);
        case SlowWork =>
          var response := SlowEndpoint(isoNow);
          outcome := Returned(response);
        case HealthCheck =>
          outcome := Returned(Response(200, map[StatusField := Str(Healthy)]));
        case ReadinessCheck =>
          outcome := Returned(Response(200, map[StatusField := Str(Ready)]));
        case NoRoute =>
          var response := NotFound(req, isoNow);
          outcome := Returned(response);
      }
    }

    /**
     * The view, and Flask's 500 handler when an exception escaped it, once
     * `before_request` has set `g.request_id` to the request's correlation id.
     */
    method DispatchRequest(req: Request, route: Route, amb: Ambient) returns (response: Response)
      requires requestId == Some(CorrelationId(req, amb.freshId))
      modifies logger
      ensures logger.entries == old(logger.entries) + Dispatch(req, route, amb).log
      ensures response == Dispatch(req, route, amb).outcome.response
    {
      ghost var view := StructuredLog.View(req, route, requestId, amb.viewIso);
      var outcome := View(req, route, amb.viewIso);
      if outcome.Raised? {
        ghost var afterView := logger.entries;
        response := InternalError(amb.errorText, amb.trace, amb.viewIso);
        ghost var handler := StructuredLog.InternalError(amb.errorText, amb.trace, requestId, amb.viewIso);
        assert logger.entries == old(logger.entries) + (view.log + handler.log);
      } else {
        response := outcome.response;
      }
    }
  }

  /** Two successive one-entry appends add a two-entry log. */
  lemma AppendTwo<T>(s0: seq<T>, two: seq<T>)
    requires |two| == 2
    ensures s0 + [two[0]] + [two[1]] == s0 + two
  {
    assert two == [two[0]] + [two[1]];
  }

  /** Three successive appends add their concatenation. */
  lemma AppendParts<T>(s0: seq<T>, a: seq<T>, b: seq<T>, c: seq<T>)
    ensures s0 + a + b + c == s0 + (a + b + c)
  {
  }

  /**
   * One request through Flask: a fresh `g`, `before_request`, the view (and
   * the 500 handler if the view raised), then `after_request`. What it
   * writes is RequestLog, so StructuredLog.RequestLifecycle applies to it.
   */
  method HandleRequest(logger: Logger, req: Request, route: Route, amb: Ambient) returns (response: Response)
    modifies logger
    ensures logger.entries == old(logger.entries) + RequestLog(req, route, amb)
    ensures response == FinalResponse(req, route, amb)
  {
    ghost var rid := CorrelationId(req, amb.freshId);
    ghost var dispatch := Dispatch(req, route, amb);
    var g := new RequestScope(logger);
    g.BeforeRequest(req, amb.freshId, amb.startMs, amb.startIso);
    response := g.DispatchRequest(req, route, amb);
    response := g.AfterRequest(response, amb.endMs, amb.endIso);
    RequestLogParts(req, route, amb);
    AppendParts(old(logger.entries), [StartedEntry(req, rid, amb.startIso)], dispatch.log,
                [CompletedEntry(Some(rid), response.status, DurationMs(Some(amb.startMs), amb.endMs), amb.endIso)]);
  }
}
