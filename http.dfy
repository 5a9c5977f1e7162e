/**
 * The HTTP transport as GetJsonAsync sees it. The real HttpClient and the
 * JSON serializer are collaborators: the client is the function from the
 * request it is given to what sending that request produces, and a
 * response's content carries what deserializing its body produces.
 */
module Http {
  import opened Wrappers
  import opened Exceptions

  /**
   * A System.Uri: the text it was built from and, for an absolute URI, its
   * AbsoluteUri. A relative URI has no AbsoluteUri (reading it throws).
   */
  datatype Uri = Uri(originalString: string, absoluteUri: Option<string>) {
    predicate IsAbsoluteUri() {
      absoluteUri.Some?
    }
  }

  /** The text of HttpMethod.Get. */
  const GetMethod: string := "GET"

  /** A request handed to the transport. */
  datatype HttpRequest = HttpRequest(httpMethod: string, requestUri: Uri)

  /** The GET request for a URI. */
  function GetRequest(requestUri: Uri): HttpRequest
  {
    HttpRequest(GetMethod, requestUri)
  }

  /** HttpResponseMessage.StatusCode as an int: the setter admits 0 to 999. */
  type StatusCode = c: int | 0 <= c <= 999

  /**
   * The response's RequestMessage: the request the transport sent, with its
   * URI already resolved to an absolute one, and its method's text.
   */
  datatype RequestMessage = RequestMessage(absoluteUri: Option<string>, httpMethod: string)

  /** What the JSON serializer, configured with the caller's settings, makes of a body. */
  datatype DeserializeOutcome<+T> =
    | Deserialized(value: Option<T>)   // None: the body is the JSON literal null
    | DeserializeThrew(exception: Exception)

  /** Response content: the media type of its Content-Type header, if any, and its body. */
  datatype HttpContent<+T> = HttpContent(mediaType: Option<string>, body: DeserializeOutcome<T>)

  datatype HttpResponse<+T> = HttpResponse(
    statusCode: StatusCode,
    content: Option<HttpContent<T>>,
    requestMessage: Option<RequestMessage>)

  /** What sending a request produces: a response (headers read) or an exception. */
  datatype SendOutcome<+T> = Responded(response: HttpResponse<T>) | SendThrew(exception: Exception)

  /** The caller's HttpClient, reduced to what its GetAsync produces for a request. */
  datatype HttpClient<T> = HttpClient(send: HttpRequest -> SendOutcome<T>)
}
