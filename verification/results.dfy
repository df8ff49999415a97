/** Failure-compatible wrappers shared by the whole model, and the closed set of
    exceptions the client can raise. Every `raise` site of the client (and every
    Python runtime error the model reproduces) has one constructor of `Error`. */
module Results {

  datatype Option<+T> = None | Some(value: T) {
    function GetOr(default: T): T {
      match this
      case Some(v) => v
      case None => default
    }
  }

  datatype Error =
    /** `_request` gave up after its last allowed attempt. */
    | MaxAttemptsReached(maxAttempts: int, endpoint: string)
    /** A logical parameter name missing from `param_schema` (a `KeyError`). */
    | UnknownParam(key: string)
    /** `auth_type` missing or falsy. */
    | NoAuthMethod
    /** `auth_type` not one of the four known kinds. */
    | InvalidAuthMethod(authType: string)
    /** OAuth without a `token_url`. */
    | NoTokenUrl
    /** OAuth without an `auth_token_res_key`. */
    | NoTokenResKey
    /** The token endpoint's answer holds no usable token. */
    | TokenNotResolved
    /** HTTP Basic without `auth_data`. */
    | NoCredentials
    /** A mandatory configuration key read with `config[key]` is missing (a `KeyError`). */
    | MissingKey(key: string)
    /** Calling something that is not a class or function, e.g. `None(config=...)` (a `TypeError`). */
    | NotCallable(what: string)
    /** `get_time` reached `self.time_zone` although no time zone was given (an `AttributeError`). */
    | NoTimeZone
    /** A configuration value whose type the code cannot use. */
    | WrongType(key: string)
    /** `response.json()` could not parse the body of a 200 response. */
    | InvalidJson(reason: string)
    /** `time.sleep` was given a negative delay (a `ValueError`). */
    | NegativeDelay(delay: int)

  datatype Result<+T> = Ok(value: T) | Err(error: Error) {
    predicate IsFailure() {
      Err?
    }

    function PropagateFailure<U>(): Result<U>
      requires Err?
    {
      Err(error)
    }

    function Extract(): T
      requires Ok?
    {
      value
    }
  }
}
