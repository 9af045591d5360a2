/** Go error values as the modelled packages build and inspect them.

    Errors are compared by value. `fmt.Errorf("text: %w", cause)` becomes
    `Wrap(text, cause)`; the text keeps the fixed part of the format string
    and drops the formatted values. `errors.Join(a, b)` is only ever called
    with two non-nil errors in the modelled code, so it is binary here. */
module Errors {

  datatype Option<+T> = None | Some(value: T)

  /** A value or the error that replaced it (Go's `(T, error)` pairs). */
  datatype Result<+T> = Ok(value: T) | Err(error: Error)

  /** Reasons carried by Kubernetes API status errors (`metav1.StatusReason`). */
  type StatusReason = string

  const ReasonNotFound: StatusReason := "NotFound"
  const ReasonAlreadyExists: StatusReason := "AlreadyExists"
  /** `metav1.StatusReasonUnknown`, what `ReasonForError` gives for non-API errors. */
  const ReasonUnknown: StatusReason := ""

  datatype Error =
    | Leaf(msg: string)                           // errors.New
    | Status(reason: StatusReason, msg: string)   // an API status error from the client
    | UnknownType(kind: string)                   // dev.UnknownTypeError from the waiter
    | Wrap(msg: string, cause: Error)             // fmt.Errorf("msg: %w", cause)
    | Joined(first: Error, second: Error)         // errors.Join(first, second)

  /** `errors.Is(e, target)`: target is somewhere in the wrap tree of e. */
  predicate ErrorIs(e: Error, target: Error)
    decreases e
  {
    e == target ||
    match e
    case Wrap(_, cause) => ErrorIs(cause, target)
    case Joined(a, b) => ErrorIs(a, target) || ErrorIs(b, target)
    case _ => false
  }

  /** `errors.As(e, &apiStatus)`: the reason of the first API status error
      in a depth-first walk of the wrap tree. */
  function AsStatus(e: Error): (r: Option<StatusReason>)
    decreases e
  {
    match e
    case Status(reason, _) => Some(reason)
    case Wrap(_, cause) => AsStatus(cause)
    case Joined(a, b) => if AsStatus(a).Some? then AsStatus(a) else AsStatus(b)
    case _ => None
  }

  /** `apimachineryerrors.ReasonForError`. */
  function ReasonForError(e: Error): StatusReason
  {
    match AsStatus(e)
    case Some(reason) => reason
    case None => ReasonUnknown
  }

  predicate IsNotFound(e: Error)
  {
    ReasonForError(e) == ReasonNotFound
  }

  predicate IsAlreadyExists(e: Error)
  {
    ReasonForError(e) == ReasonAlreadyExists
  }

  /** `errors.As(e, &unknownTypeErr)` for `*dev.UnknownTypeError`. */
  predicate HasUnknownType(e: Error)
    decreases e
  {
    match e
    case UnknownType(_) => true
    case Wrap(_, cause) => HasUnknownType(cause)
    case Joined(a, b) => HasUnknownType(a) || HasUnknownType(b)
    case _ => false
  }

  // The errors the standard `context` package returns from `ctx.Err()`.
  const ContextCanceled: Error := Leaf("context canceled")
  const ContextDeadlineExceeded: Error := Leaf("context deadline exceeded")
}
