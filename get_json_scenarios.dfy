/**
 * The scenarios of the library's unit tests for GetJsonAsync, replayed on
 * the model with the same URI, status codes, media types and exception
 * messages, down to the exact text of each failure message.
 */
module GetJsonScenarios {
  import opened Wrappers
  import opened Exceptions
  import opened Http
  import opened HttpClientJsonExtensions
  import Decimal
  import GetJsonProperties

  const FooBar: string := "https://foo.com/bar"

  function FooBarUri(): Uri {
    Uri(FooBar, Some(FooBar))
  }

  /** A response whose RequestMessage is a GET to https://foo.com/bar, as the tests build it. */
  function TestResponse<T>(statusCode: StatusCode, content: Option<HttpContent<T>>): HttpResponse<T> {
    HttpResponse(statusCode, content, Some(RequestMessage(Some(FooBar), GetMethod)))
  }

  function Answering<T>(response: HttpResponse<T>): HttpClient<T> {
    HttpClient((request: HttpRequest) => Responded(response))
  }

  function Throwing<T>(e: Exception): HttpClient<T> {
    HttpClient((request: HttpRequest) => SendThrew(e))
  }

  /** Two students, Jack (33) and Alice (25), as a deserialized list. */
  datatype Student = Student(name: string, age: int)

  /** A 200 application/json response yields the deserialized list, in order, after one GET to the URI. */
  lemma ReturnsDeserializedStudents()
    ensures var students := [Student("Jack", 33), Student("Alice", 25)];
      var response := TestResponse(200, Some(HttpContent(Some("application/json"), Deserialized(Some(students)))));
      GetJsonAsync(Some(Answering(response)), Some(FooBarUri()), false) ==
        Call(Returned(Some(students)), [HttpRequest("GET", FooBarUri())])
  {
  }

  /** A JSON null body is an absent result, not a failure. */
  lemma JsonNullIsAbsent()
    ensures var response: HttpResponse<Student> := TestResponse(200, Some(HttpContent(Some("application/json"), Deserialized(None))));
      GetJsonAsync(Some(Answering(response)), Some(FooBarUri()), false).outcome == Returned(None)
  {
  }

  // Each expected message below is written as the unit test's text cut at
  // the places where the source interpolates a value.

  /** Every test response names its request as GET https://foo.com/bar. */
  lemma TestTrailer<T>(statusCode: StatusCode, content: Option<HttpContent<T>>)
    ensures RequestTrailer(TestResponse(statusCode, content)) ==
      " (request URI: " + "https://foo.com/bar" + " request method: " + "GET" + ")"
  {
  }

  lemma InfrastructureFailureMessage()
    ensures var e := Exception(HttpRequestException, "Socket level error occurred");
      GetJsonAsync<Student>(Some(Throwing(e)), Some(FooBarUri()), false).outcome ==
        Failed(HttpInfrastructure(
          "An error has occurred while issuing GET request: '" + "Socket level error occurred" +
          "' (request URI: " + "https://foo.com/bar" + ")", e))
  {
    assert UriText(FooBarUri()) == "https://foo.com/bar";
  }

  lemma TimeoutMessageText()
    ensures var e := Exception(TaskCanceledException, "HTTP request timed out after 45 seconds");
      GetJsonAsync<Student>(Some(Throwing(e)), Some(FooBarUri()), false).outcome ==
        Failed(HttpRequestTimeout("GET request to " + "https://foo.com/bar" + " timed out", e))
  {
    assert UriText(FooBarUri()) == "https://foo.com/bar";
  }

  lemma CallerCancellationIsNotTimeout()
    ensures var e := Exception(TaskCanceledException, "HTTP request timed out after 45 seconds");
      GetJsonAsync<Student>(Some(Throwing(e)), Some(FooBarUri()), true).outcome == Propagated(e)
  {
  }

  /** The status code 500 renders as "500". */
  lemma Renders500()
    ensures Decimal.FromNat(500) == "500"
  {
    assert Decimal.FromNat(5) == "5";
    assert Decimal.FromNat(50) == "50";
  }

  lemma NonSuccessStatusMessage()
    ensures var response: HttpResponse<Student> := TestResponse(500, None);
      GetJsonAsync(Some(Answering(response)), Some(FooBarUri()), false).outcome ==
        Failed(NonSuccessStatusCode(
          "Got " + "500" + " status code when issuing HTTP request" +
          " (request URI: " + "https://foo.com/bar" + " request method: " + "GET" + ")", 500))
  {
    var response: HttpResponse<Student> := TestResponse(500, None);
    TestTrailer<Student>(500, None);
    Renders500();
    GetJsonProperties.NonSuccessStatusExactly(Some(Answering(response)), Some(FooBarUri()), false);
  }

  /** A 204 response whose content declares no Content-Type (only Content-Length: 0) is an empty body. */
  lemma EmptyBodyWithoutContentType()
    ensures var response: HttpResponse<Student> := TestResponse(204, Some(HttpContent(None, Deserialized(None))));
      GetJsonAsync(Some(Answering(response)), Some(FooBarUri()), false).outcome ==
        Failed(EmptyResponseBody(
          "HTTP request returned empty response body. JSON response body is expected instead" +
          " (request URI: " + "https://foo.com/bar" + " request method: " + "GET" + ")"))
  {
    var response: HttpResponse<Student> := TestResponse(204, Some(HttpContent(None, Deserialized(None))));
    TestTrailer<Student>(204, Some(HttpContent(None, Deserialized(None))));
    GetJsonProperties.EmptyBodyExactly(Some(Answering(response)), Some(FooBarUri()), false);
  }

  /** A 204 response with no content at all is an empty body too. */
  lemma EmptyBodyWithoutContent()
    ensures var response: HttpResponse<Student> := TestResponse(204, None);
      GetJsonAsync(Some(Answering(response)), Some(FooBarUri()), false).outcome ==
        Failed(EmptyResponseBody(
          "HTTP request returned empty response body. JSON response body is expected instead" +
          " (request URI: " + "https://foo.com/bar" + " request method: " + "GET" + ")"))
  {
    var response: HttpResponse<Student> := TestResponse(204, None);
    TestTrailer<Student>(204, None);
    GetJsonProperties.EmptyBodyExactly(Some(Answering(response)), Some(FooBarUri()), false);
  }

  lemma HtmlIsUnexpectedMediaType()
    ensures var response: HttpResponse<Student> := TestResponse(200, Some(HttpContent(Some("text/html"), Deserialized(None))));
      GetJsonAsync(Some(Answering(response)), Some(FooBarUri()), false).outcome ==
        Failed(UnexpectedResponseMediaType(
          "HTTP response content has " + "text/html" + " media type. application/json media type is expected instead" +
          " (request URI: " + "https://foo.com/bar" + " request method: " + "GET" + ")",
          "text/html"))
  {
    var response: HttpResponse<Student> := TestResponse(200, Some(HttpContent(Some("text/html"), Deserialized(None))));
    TestTrailer<Student>(200, Some(HttpContent(Some("text/html"), Deserialized(None))));
    GetJsonProperties.UnexpectedMediaTypeExactly(Some(Answering(response)), Some(FooBarUri()), false);
  }

  /** Malformed JSON under application/json is a deserialization failure wrapping the parser's JsonException. */
  lemma MalformedJsonIsDeserializationFailure(parserMessage: string)
    ensures var e := Exception(JsonException, parserMessage);
      var response: HttpResponse<Student> := TestResponse(200, Some(HttpContent(Some("application/json"), DeserializeThrew(e))));
      var r := GetJsonAsync(Some(Answering(response)), Some(FooBarUri()), false).outcome;
      r.Failed? && r.failure.JsonDeserialization? && r.failure.innerException == e && r.failure.message != []
  {
  }
}
