/** Outcomes shared by the middleware and the controllers: every failure ends in
    the application's error handler as `{error: {status, message}}`, except the
    400 that a controller sends itself when its validator chain recorded errors. */
module Http {

  datatype Option<+T> = None | Some(value: T)

  datatype Failure =
    | HttpError(status: nat, message: string)
    | ValidationFailed(errors: seq<string>)
  {
    /** The HTTP status code the client sees. */
    function Status(): nat {
      match this
      case HttpError(s, _) => s
      case ValidationFailed(_) => 400
    }
  }

  datatype Result<+T> = Ok(value: T) | Err(failure: Failure)

  datatype Verb = Get | Post | Put | Delete

  /** JavaScript truthiness of an optional string: present and not empty. */
  predicate Truthy(s: Option<string>) {
    s.Some? && s.value != ""
  }

  /** `s || ''` */
  function OrEmpty(s: Option<string>): string {
    if Truthy(s) then s.value else ""
  }

  /** A patched field: the patch's value when it sends one, else the current value. */
  function Pick<T>(p: Option<T>, current: T): T {
    if p.Some? then p.value else current
  }

  /** The same for an optional field. */
  function PickOption<T>(p: Option<T>, current: Option<T>): Option<T> {
    if p.Some? then p else current
  }

  /** The status a Mongoose validation or driver error reaches the client with:
      such errors carry no `status`, so the handler's `err.status || 500` picks 500. */
  const UnhandledStatus: nat := 500
}
