/**
 * Values shared by both services: the JSON-shaped values that log entries and
 * response bodies are made of, and the (status, body) pair a Flask view returns.
 */
module Json {

  /** Python's `None` versus a present value. */
  datatype Option<T> = None | Some(value: T) {
    function GetOr(default: T): T
    {
      match this
      case Some(v) => v
      case None => default
    }
  }

  /**
   * A JSON value as `json.dumps` would write it. Floating-point numbers are
   * not modelled; integers are unbounded.
   */
  datatype Value =
    | Null
    | Bool(b: bool)
    | Int(i: int)
    | Str(s: string)
    | List(items: seq<Value>)
    | Obj(fields: map<string, Value>)

  /** `None` becomes JSON `null`, a string stays a string. */
  function StrOrNull(o: Option<string>): Value
  {
    match o
    case Some(s) => Str(s)
    case None => Null
  }

  /** What a view returns to Flask: an HTTP status code and a JSON object body. */
  datatype Response = Response(status: int, body: map<string, Value>)

  /** The generic error body `{"error": message}` used by every error path. */
  function ErrorBody(message: string): map<string, Value>
  {
    map["error" := Str(message)]
  }
}
