/** Wrapper types shared by every module of the storefront model. */
module Common {

  /** A value that may be absent: `T | null` or `T | undefined` in the application. */
  datatype Option<+T> = None | Some(value: T)

  /** An error object as a call throws it. `code` is "" when the error carries no code,
      as for an `Error` built from a message alone. */
  datatype ThrownError = ThrownError(code: string, message: string)

  /** How an awaited call settles, whether an external one or an operation of the
      application: it resolves with a value, or rejects with the error thrown. */
  datatype Result<+T> = Ok(value: T) | Err(error: ThrownError)

  /** The answer of a route guard: whether navigation may proceed, and the one
      redirect the guard asks the router for, if any. */
  datatype Decision = Decision(allow: bool, navigate: Option<string>)
}
