/**
 * The exceptions the SDK raises, folded into one datatype. The Klink
 * exception family (config, auth, API, network) comes first; then the
 * standard PHP exceptions and errors that the core also lets escape.
 */
module Errors {

  /** The transport's own exception: its code (the HTTP status, or 0) and message. */
  datatype Cause = Cause(code: int, message: string)

  datatype SdkError =
    /** KlinkConfigException. */
    | ConfigError(message: string)
    /** KlinkAuthException: code is the HTTP status, cause the transport exception. */
    | AuthError(message: string, code: int, cause: Cause)
    /** KlinkAPIException: the HTTP status kept apart from the exception code. */
    | ApiError(message: string, statusCode: int)
    /** KlinkNetworkException: code 0 and the transport exception as cause. */
    | NetworkError(message: string, code: int, cause: Cause)
    /** \InvalidArgumentException. */
    | InvalidArgument(message: string)
    /** A plain \Exception with no previous exception. */
    | PlainException(message: string)
    /** A plain \Exception wrapping a previous one. */
    | WrappedException(message: string, previous: SdkError)
    /** PHP's \TypeError for a value of the wrong type in a typed slot: an Error, not an Exception. */
    | TypeError(slot: string)
  {
    /** Whether the value belongs to the KlinkException family. */
    predicate IsKlinkException() {
      ConfigError? || AuthError? || ApiError? || NetworkError?
    }

    /** Whether `catch (\Exception $e)` catches it; \TypeError is not an \Exception. */
    predicate IsException() {
      !TypeError?
    }

    /** `$e->getMessage()` of an \Exception. */
    function Message(): string
      requires IsException()
    {
      match this
      case ConfigError(m) => m
      case AuthError(m, _, _) => m
      case ApiError(m, _) => m
      case NetworkError(m, _, _) => m
      case InvalidArgument(m) => m
      case PlainException(m) => m
      case WrappedException(m, _) => m
    }
  }
}
