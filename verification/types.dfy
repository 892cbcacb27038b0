/** Values shared by every component: nullable values, the authenticated user
    handed out by the hosted auth service, and the shape of a reply from the
    hosted data store. Each backend call of the client is modelled as one
    `Reply` passed in by the caller, so every decision below is a pure function. */
module Types {

  /** A JavaScript value that may be `null` or `undefined`. */
  datatype Option<+T> = None | Some(value: T) {
    function GetOr(default: T): T {
      match this
      case Some(v) => v
      case None => default
    }
  }

  /** The current user of the hosted auth service: an opaque id and an
      optional e-mail address. */
  datatype AuthUser = AuthUser(id: string, email: Option<string>)

  /** An error object returned (not thrown) by the data store client. */
  datatype DbError = DbError(code: string, message: string)

  /** The outcome of one backend call as the client observes it:
      `Rows` is a reply whose `error` field is null, `Failed` one whose `error`
      field is set, and `Threw` an exception (network failure, a re-thrown
      error) that reaches the caller's `catch` block. */
  datatype Reply<+T> = Rows(value: T) | Failed(error: DbError) | Threw(message: string)

  /** The message a caller's `catch` block sees for a reply that did not
      succeed: the returned error's, or the exception's. */
  function FailureMessage<T>(reply: Reply<T>): string
    requires !reply.Rows?
  {
    match reply
    case Failed(e) => e.message
    case Threw(m) => m
  }

  /** The data store's code for "a single row was requested but none exists". */
  const NotFoundCode: string := "PGRST116"

  /** The route every successful authentication leads to. */
  const DashboardRoute: string := "/dashboard"

  /** A toast notification: title, description and whether it is the
      destructive (error) variant. */
  datatype Toast = Toast(title: string, description: string, destructive: bool)
}
