/** The slice of Python's runtime the bot's logic depends on: the exceptions that
    can escape a call, a value that is either returned or raised, and the
    JSON-shaped values (dicts, lists, strings, ...) that policy documents are. */
module PyRuntime {

  datatype Option<+T> = None | Some(value: T) {
    function GetOr(default: T): T {
      match this
      case Some(v) => v
      case None => default
    }
  }

  /** The exception classes the model distinguishes. Only `ClientError` is ever
      caught by name; the others matter only as "something was raised". */
  datatype Fault =
    | ClientError  // botocore.exceptions.ClientError, raised by a cloud API
    | KeyError     // a dictionary has no such key, or no tool has that name
    | TypeError    // a value is indexed or iterated that cannot be
    | OtherError   // anything else: transport failure, JSON decoding, ...

  /** The outcome of evaluating a Python expression: its value, or the exception
      it raised. */
  datatype Attempt<+T> = Done(value: T) | Raised(fault: Fault)

  /** A parsed JSON value as Python holds it (float numbers are not modelled). */
  datatype Json =
    | JNull
    | JBool(b: bool)
    | JNum(n: int)
    | JStr(s: string)
    | JList(items: seq<Json>)
    | JDict(entries: map<string, Json>)

  /** `v[key]`: a dict yields the value or raises KeyError; any other value
      cannot be subscripted by a string and raises TypeError. */
  function Index(v: Json, key: string): Attempt<Json> {
    match v
    case JDict(entries) => if key in entries then Done(entries[key]) else Raised(KeyError)
    case _ => Raised(TypeError)
  }
}
