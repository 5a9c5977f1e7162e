/**
 * The exceptions that cross the boundary of GetJsonAsync, reduced to the
 * data they carry (the exception classes of the library).
 */
module Exceptions {

  /**
   * The class of an exception raised by a collaborator (the transport, the
   * JSON serializer or the Uri class). A kind stands for that class and its
   * subclasses: JsonException covers the serializer's reader and
   * serialization exceptions, both of which derive from it.
   */
  datatype ExceptionKind =
    | HttpRequestException
    | TaskCanceledException
    | JsonException
    | InvalidOperationException
    | OtherException(typeName: string)

  /** An exception object of a collaborator: its class and its Message. */
  datatype Exception = Exception(kind: ExceptionKind, message: string)

  /**
   * The failures GetJsonAsync raises itself. ArgumentNull is the framework's
   * ArgumentNullException; every other variant is one of the library's
   * JsonApiRequestException subclasses, with the properties that class
   * carries (HttpStatusCode, ResponseMediaType, InnerException).
   */
  datatype Failure =
    | ArgumentNull(paramName: string)
    | HttpInfrastructure(message: string, innerException: Exception)
    | HttpRequestTimeout(message: string, innerException: Exception)
    | NonSuccessStatusCode(message: string, httpStatusCode: int)
    | EmptyResponseBody(message: string)
    | UnexpectedResponseMediaType(message: string, responseMediaType: string)
    | JsonDeserialization(message: string, innerException: Exception)
  {
    /** True of the failures a caller can catch as JsonApiRequestException. */
    predicate IsJsonApiRequestFailure() {
      !ArgumentNull?
    }
  }

  /**
   * How a step of the pipeline ends: it returns a value, it throws one of
   * its own failures, or it lets a collaborator's exception through
   * unchanged.
   */
  datatype Outcome<+R> =
    | Returned(value: R)
    | Failed(failure: Failure)
    | Propagated(exception: Exception)

  /** How a guard ends: it passes, or it throws one of its own failures. */
  datatype Check = Pass | Fail(failure: Failure)
}
