/** The parts of Python's runtime behaviour that the generator scripts rely on:
    optional values, the exception classes they raise or catch, which
    `except` clause of a `try` catches a given exception, and how a call ends. */
module PyRuntime {

  datatype Option<+T> = None | Some(value: T)

  /** A value or the exception that was raised instead of returning it. */
  datatype Result<+T> = Ok(value: T) | Err(exc: Exc)

  /** The exception classes that can reach the scripts' handlers. `IOError` is
      Python's alias of `OSError`, so it stands for every filesystem error
      (permission denied, disk full, a missing or invalid path).
      `JSONDecodeError` is the `json` module's decoding error. `Exception`
      is the bare base class, raised explicitly by the service layer.
      `OtherError` is any other subclass of `Exception`, by class name; it
      never names `OSError`, `JSONDecodeError` or a subclass of either (a
      `PermissionError`, say, is an `IOError` here), since `except IOError`
      would catch those. */
  datatype Exc =
    | ValueError(msg: string)
    | JSONDecodeError(msg: string)
    | IOError(msg: string)
    | EOFError(msg: string)
    | Exception(msg: string)
    | OtherError(name: string, msg: string)

  /** `str(e)` of an exception raised with a single message argument. */
  function Str(e: Exc): string {
    e.msg
  }

  /** The two handlers every save routine puts after its `try`:
      `except (IOError, json.JSONDecodeError)` and then `except Exception`. */
  datatype Handler = IOErrorHandler | GenericHandler

  /** Which of the two handlers catches `e`. Every modelled exception class
      derives from `Exception`, so one of them always does. */
  function HandlerFor(e: Exc): (h: Handler)
    ensures h == IOErrorHandler <==> e.IOError? || e.JSONDecodeError?
  {
    match e
    case IOError(_) => IOErrorHandler
    case JSONDecodeError(_) => IOErrorHandler
    case _ => GenericHandler
  }

  /** How a call ends: it returns normally or an exception escapes from it. */
  datatype Outcome = Normal | Raised(exc: Exc)

  /** `input()` raises this when standard input is exhausted. */
  const EOF_MESSAGE: string := "EOF when reading a line"
}
