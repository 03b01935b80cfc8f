/**
 * The field names of a structured log entry: the five that `log_json` always
 * writes and the keyword arguments its callers pass. These are Python
 * identifiers fixed in the service's code, so they form a closed set.
 */
module LogKeys {

  datatype Key =
    | Timestamp | Level | Message | Service | RequestId
    | Method | Path | RemoteAddr | UserAgent
    | StatusCode | DurationMs
    | UserId | Found | Error | ErrorType | RetryCount | Traceback
    | OrderData | ItemCount | OrderId | TotalAmount
    | Operation

  /** The JSON member name a key is written under. */
  function Name(k: Key): string
  {
    match k
    case Timestamp => "timestamp"
    case Level => "level"
    case Message => "message"
    case Service => "service"
    case RequestId => "request_id"
    case Method => "method"
    case Path => "path"
    case RemoteAddr => "remote_addr"
    case UserAgent => "user_agent"
    case StatusCode => "status_code"
    case DurationMs => "duration_ms"
    case UserId => "user_id"
    case Found => "found"
    case Error => "error"
    case ErrorType => "error_type"
    case RetryCount => "retry_count"
    case Traceback => "traceback"
    case OrderData => "order_data"
    case ItemCount => "item_count"
    case OrderId => "order_id"
    case TotalAmount => "total_amount"
    case Operation => "operation"
  }

  /**
   * No two keys share a member name, so a map over keys with right-biased
   * union behaves as a Python dict display over the names.
   */
  lemma NameInjective(a: Key, b: Key)
    requires Name(a) == Name(b)
    ensures a == b
  {
  }
}
