/** Shared result types and the errors the bootstrap can raise. */
module Base {

  datatype Option<+T> = None | Some(value: T) {
    function GetOr(default: T): T {
      match this
      case Some(v) => v
      case None => default
    }
  }

  /** Every fatal startup condition of the bootstrap, by kind. */
  datatype Error =
    | RuntimeError(message: string)        // a failed pre-flight check
    | ImportFailure(setting: string)       // a configured module name that does not resolve
    | UnknownLogLevel(level: string)       // a log level name the logging module does not define
    | LogConfigNotMapping                  // a structured log configuration that is not a mapping
    | OpenFailure(path: string)            // a descriptor path that cannot be opened
    | BindFailure(port: int, ip: string)   // an address that cannot be bound

  datatype Result<+T> = Ok(value: T) | Err(error: Error) {
    predicate IsFailure() {
      Err?
    }

    function PropagateFailure<U>(): Result<U>
      requires Err?
    {
      Err(error)
    }

    function Extract(): T
      requires Ok?
    {
      value
    }
  }

  datatype Outcome = Pass | Fail(error: Error)
}
