/**
 * What GetJsonAsync promises its callers. The stages a call reaches are
 * named first; each outcome is then characterised, in both directions, as
 * "every earlier check passed and this one failed", which is the rule that
 * the first failing check decides the outcome.
 */
module GetJsonProperties {
  import opened Wrappers
  import opened Exceptions
  import opened Http
  import opened HttpClientJsonExtensions
  import Decimal

  // ---------------------------------------------------------------------
  // Stages of a call

  /** The argument checks pass: a request is sent. */
  predicate ReachesSend<T>(client: Option<HttpClient<T>>, requestUri: Option<Uri>) {
    client.Some? && requestUri.Some?
  }

  /** What the transport produces for the one GET request of the call. */
  function SendOf<T>(client: Option<HttpClient<T>>, requestUri: Option<Uri>): SendOutcome<T>
    requires ReachesSend(client, requestUri)
  {
    client.value.send(GetRequest(requestUri.value))
  }

  /** The transport answered with a response. */
  predicate ReachesStatusCheck<T>(client: Option<HttpClient<T>>, requestUri: Option<Uri>) {
    ReachesSend(client, requestUri) && SendOf(client, requestUri).Responded?
  }

  function ResponseOf<T>(client: Option<HttpClient<T>>, requestUri: Option<Uri>): HttpResponse<T>
    requires ReachesStatusCheck(client, requestUri)
  {
    SendOf(client, requestUri).response
  }

  /** The status code is a success code. */
  predicate ReachesContentTypeCheck<T>(client: Option<HttpClient<T>>, requestUri: Option<Uri>) {
    ReachesStatusCheck(client, requestUri) && IsSuccessStatusCode(ResponseOf(client, requestUri).statusCode)
  }

  /** The response declares a Content-Type. */
  predicate ReachesMediaTypeCheck<T>(client: Option<HttpClient<T>>, requestUri: Option<Uri>) {
    ReachesContentTypeCheck(client, requestUri) && DeclaresContentType(ResponseOf(client, requestUri))
  }

  function MediaTypeOf<T>(client: Option<HttpClient<T>>, requestUri: Option<Uri>): string
    requires ReachesMediaTypeCheck(client, requestUri)
  {
    ResponseOf(client, requestUri).content.value.mediaType.value
  }

  /** The declared media type is application/json: the body is deserialized. */
  predicate ReachesDeserialize<T>(client: Option<HttpClient<T>>, requestUri: Option<Uri>) {
    ReachesMediaTypeCheck(client, requestUri) && MediaTypeOf(client, requestUri) == JsonMediaType
  }

  function BodyOf<T>(client: Option<HttpClient<T>>, requestUri: Option<Uri>): DeserializeOutcome<T>
    requires ReachesDeserialize(client, requestUri)
  {
    ResponseOf(client, requestUri).content.value.body
  }

  // ---------------------------------------------------------------------
  // Argument checks

  /** A null client is rejected first, naming "httpClient", whatever the URI; nothing is sent. */
  lemma NullClientRejected<T>(requestUri: Option<Uri>, cancellationRequested: bool)
    ensures GetJsonAsync<T>(None, requestUri, cancellationRequested) == Call(Failed(ArgumentNull("httpClient")), [])
  {
  }

  /** A null URI with a client is rejected, naming "requestUri"; nothing is sent. */
  lemma NullUriRejected<T>(client: HttpClient<T>, cancellationRequested: bool)
    ensures GetJsonAsync<T>(Some(client), None, cancellationRequested) == Call(Failed(ArgumentNull("requestUri")), [])
  {
  }

  /** An argument-null failure happens exactly when a request is never sent. */
  lemma ArgumentNullExactly<T>(client: Option<HttpClient<T>>, requestUri: Option<Uri>, cancellationRequested: bool)
    ensures var r := GetJsonAsync(client, requestUri, cancellationRequested);
      (r.outcome.Failed? && r.outcome.failure.ArgumentNull?) <==> !ReachesSend(client, requestUri)
  {
  }

  /**
   * Every call that passes the argument checks sends exactly one GET, to the
   * given URI: the request the send step hands to the transport.
   */
  lemma ExactlyOneGetSent<T>(client: Option<HttpClient<T>>, requestUri: Option<Uri>, cancellationRequested: bool)
    requires ReachesSend(client, requestUri)
    ensures GetJsonAsync(client, requestUri, cancellationRequested).sent == [HttpRequest(GetMethod, requestUri.value)]
    ensures GetJsonAsync(client, requestUri, cancellationRequested).sent ==
      [SendHttpRequest(client.value, requestUri.value, cancellationRequested).request]
  {
  }

  /**
   * The call consults the transport about that one GET request and nothing
   * else: two clients that answer it alike give the same call.
   */
  lemma OnlyTheGetRequestReachesTheTransport<T>(
    client1: HttpClient<T>, client2: HttpClient<T>, requestUri: Uri, cancellationRequested: bool)
    requires client1.send(GetRequest(requestUri)) == client2.send(GetRequest(requestUri))
    ensures GetJsonAsync(Some(client1), Some(requestUri), cancellationRequested) ==
            GetJsonAsync(Some(client2), Some(requestUri), cancellationRequested)
  {
  }

  /**
   * Every failure raised past the argument checks is one of the library's
   * JsonApiRequestException subclasses; the argument checks raise the
   * framework's ArgumentNullException instead.
   */
  lemma FailuresAreJsonApiRequestExceptions<T>(client: Option<HttpClient<T>>, requestUri: Option<Uri>, cancellationRequested: bool)
    ensures var r := GetJsonAsync(client, requestUri, cancellationRequested).outcome;
      r.Failed? ==> (r.failure.IsJsonApiRequestFailure() <==> ReachesSend(client, requestUri))
  {
  }

  // ---------------------------------------------------------------------
  // Sending

  /**
   * An HttpRequestException from the transport, and only that, yields an
   * infrastructure failure whose inner exception is that exception; the
   * caller's token plays no part.
   */
  lemma InfrastructureFailureExactly<T>(client: Option<HttpClient<T>>, requestUri: Option<Uri>, cancellationRequested: bool)
    ensures var r := GetJsonAsync(client, requestUri, cancellationRequested).outcome;
      (r.Failed? && r.failure.HttpInfrastructure?) <==>
      (ReachesSend(client, requestUri) && SendOf(client, requestUri).SendThrew? &&
       SendOf(client, requestUri).exception.kind.HttpRequestException?)
    ensures (ReachesSend(client, requestUri) && SendOf(client, requestUri).SendThrew? &&
             SendOf(client, requestUri).exception.kind.HttpRequestException?) ==>
      var e := SendOf(client, requestUri).exception;
      GetJsonAsync(client, requestUri, cancellationRequested).outcome ==
        Failed(HttpInfrastructure(InfrastructureMessage(e.message, UriText(requestUri.value)), e))
  {
  }

  /** For an absolute URI the infrastructure message quotes the inner message and names the AbsoluteUri. */
  lemma InfrastructureMessageFormat<T>(client: HttpClient<T>, requestUri: Uri, cancellationRequested: bool, e: Exception)
    requires requestUri.IsAbsoluteUri()
    requires client.send(GetRequest(requestUri)) == SendThrew(e) && e.kind.HttpRequestException?
    ensures GetJsonAsync(Some(client), Some(requestUri), cancellationRequested).outcome ==
      Failed(HttpInfrastructure(
        "An error has occurred while issuing GET request: '" + e.message + "' (request URI: " +
          requestUri.absoluteUri.value + ")",
        e))
  {
  }

  /**
   * A TaskCanceledException is a timeout exactly when the caller's token is
   * not cancelled; the timeout keeps it as inner exception and names the URI.
   */
  lemma TimeoutExactly<T>(client: Option<HttpClient<T>>, requestUri: Option<Uri>, cancellationRequested: bool)
    ensures var r := GetJsonAsync(client, requestUri, cancellationRequested).outcome;
      (r.Failed? && r.failure.HttpRequestTimeout?) <==>
      (ReachesSend(client, requestUri) && SendOf(client, requestUri).SendThrew? &&
       SendOf(client, requestUri).exception.kind.TaskCanceledException? && !cancellationRequested)
    ensures (ReachesSend(client, requestUri) && SendOf(client, requestUri).SendThrew? &&
             SendOf(client, requestUri).exception.kind.TaskCanceledException? && !cancellationRequested) ==>
      var e := SendOf(client, requestUri).exception;
      GetJsonAsync(client, requestUri, cancellationRequested).outcome ==
        Failed(HttpRequestTimeout(TimeoutMessage(UriText(requestUri.value)), e))
  {
  }

  /** For an absolute URI the timeout message is "GET request to <AbsoluteUri> timed out". */
  lemma TimeoutMessageFormat<T>(client: HttpClient<T>, requestUri: Uri, e: Exception)
    requires requestUri.IsAbsoluteUri()
    requires client.send(GetRequest(requestUri)) == SendThrew(e) && e.kind.TaskCanceledException?
    ensures GetJsonAsync(Some(client), Some(requestUri), false).outcome ==
      Failed(HttpRequestTimeout("GET request to " + requestUri.absoluteUri.value + " timed out", e))
  {
  }

  /**
   * With the caller's token cancelled, the TaskCanceledException itself
   * propagates; so does any exception of the transport that is neither an
   * HttpRequestException nor a TaskCanceledException.
   */
  lemma UnhandledTransportExceptionPropagates<T>(client: HttpClient<T>, requestUri: Uri, cancellationRequested: bool, e: Exception)
    requires client.send(GetRequest(requestUri)) == SendThrew(e)
    requires !e.kind.HttpRequestException?
    requires e.kind.TaskCanceledException? ==> cancellationRequested
    ensures GetJsonAsync(Some(client), Some(requestUri), cancellationRequested).outcome == Propagated(e)
  {
  }

  // ---------------------------------------------------------------------
  // Status code

  /**
   * A non-success failure happens exactly when the transport answered with a
   * status outside 200 to 299, and it carries exactly that code.
   */
  lemma NonSuccessStatusExactly<T>(client: Option<HttpClient<T>>, requestUri: Option<Uri>, cancellationRequested: bool)
    ensures var r := GetJsonAsync(client, requestUri, cancellationRequested).outcome;
      (r.Failed? && r.failure.NonSuccessStatusCode?) <==>
      (ReachesStatusCheck(client, requestUri) && !IsSuccessStatusCode(ResponseOf(client, requestUri).statusCode))
    ensures ReachesStatusCheck(client, requestUri) && !IsSuccessStatusCode(ResponseOf(client, requestUri).statusCode) ==>
      var response := ResponseOf(client, requestUri);
      GetJsonAsync(client, requestUri, cancellationRequested).outcome ==
        Failed(NonSuccessStatusCode(NonSuccessMessage(response.statusCode, response), response.statusCode))
  {
  }

  /**
   * The status check comes before any look at the content: two responses
   * with the same non-success status and request message give the same
   * failure, whatever their content.
   */
  lemma NonSuccessIgnoresContent<T>(
    client1: HttpClient<T>, client2: HttpClient<T>, requestUri: Uri, cancellationRequested: bool,
    response1: HttpResponse<T>, response2: HttpResponse<T>)
    requires client1.send(GetRequest(requestUri)) == Responded(response1)
    requires client2.send(GetRequest(requestUri)) == Responded(response2)
    requires response1.statusCode == response2.statusCode && !IsSuccessStatusCode(response1.statusCode)
    requires response1.requestMessage == response2.requestMessage
    ensures GetJsonAsync(Some(client1), Some(requestUri), cancellationRequested) ==
            GetJsonAsync(Some(client2), Some(requestUri), cancellationRequested)
  {
  }

  /** Reads the status code back from a non-success message. */
  function StatusCodeInMessage(message: string): nat {
    if |message| < |NonSuccessPrefix| then 0
    else Decimal.ToNat(Decimal.LeadingDigits(message[|NonSuccessPrefix|..]))
  }

  /** The non-success message names the status code: it can be read back from it. */
  lemma {:induction false} NonSuccessMessageNamesCode<T>(statusCode: StatusCode, response: HttpResponse<T>)
    ensures NonSuccessMessage(statusCode, response)[..|NonSuccessPrefix|] == NonSuccessPrefix
    ensures StatusCodeInMessage(NonSuccessMessage(statusCode, response)) == statusCode
  {
    var digits := Decimal.FromNat(statusCode);
    var rest := NonSuccessTail(response);
    var message := NonSuccessPrefix + digits + rest;
    NonSuccessMessageQuotesCode(statusCode, response);
    assert message[|NonSuccessPrefix|..] == digits + rest;
    Decimal.LeadingDigitsOfConcat(digits, rest);
    Decimal.ToNatFromNat(statusCode);
  }

  /** Different status codes give different non-success messages. */
  lemma NonSuccessMessagesDiffer<T>(code1: StatusCode, code2: StatusCode, response: HttpResponse<T>)
    requires code1 != code2
    ensures NonSuccessMessage(code1, response) != NonSuccessMessage(code2, response)
  {
    NonSuccessMessageNamesCode(code1, response);
    NonSuccessMessageNamesCode(code2, response);
  }

  // ---------------------------------------------------------------------
  // Content type and media type

  /**
   * With a success status, missing content or a missing Content-Type, and
   * only that, yields an empty-body failure, before any media-type
   * comparison.
   */
  lemma EmptyBodyExactly<T>(client: Option<HttpClient<T>>, requestUri: Option<Uri>, cancellationRequested: bool)
    ensures var r := GetJsonAsync(client, requestUri, cancellationRequested).outcome;
      (r.Failed? && r.failure.EmptyResponseBody?) <==>
      (ReachesContentTypeCheck(client, requestUri) && !DeclaresContentType(ResponseOf(client, requestUri)))
    ensures ReachesContentTypeCheck(client, requestUri) && !DeclaresContentType(ResponseOf(client, requestUri)) ==>
      GetJsonAsync(client, requestUri, cancellationRequested).outcome ==
        Failed(EmptyResponseBody(EmptyBodyMessage(ResponseOf(client, requestUri))))
  {
  }

  /**
   * A declared media type other than application/json, and only that,
   * yields an unexpected-media-type failure carrying the declared type
   * verbatim.
   */
  lemma UnexpectedMediaTypeExactly<T>(client: Option<HttpClient<T>>, requestUri: Option<Uri>, cancellationRequested: bool)
    ensures var r := GetJsonAsync(client, requestUri, cancellationRequested).outcome;
      (r.Failed? && r.failure.UnexpectedResponseMediaType?) <==>
      (ReachesMediaTypeCheck(client, requestUri) && MediaTypeOf(client, requestUri) != JsonMediaType)
    ensures ReachesMediaTypeCheck(client, requestUri) && MediaTypeOf(client, requestUri) != JsonMediaType ==>
      var mediaType := MediaTypeOf(client, requestUri);
      GetJsonAsync(client, requestUri, cancellationRequested).outcome ==
        Failed(UnexpectedResponseMediaType(MediaTypeMessage(mediaType, ResponseOf(client, requestUri)), mediaType))
  {
  }

  // ---------------------------------------------------------------------
  // Deserialization

  /**
   * Once every check passes, the deserializer's value is returned unchanged
   * (None for a JSON null), and this is the only way a value is returned.
   */
  lemma ReturnsExactly<T>(client: Option<HttpClient<T>>, requestUri: Option<Uri>, cancellationRequested: bool)
    ensures var r := GetJsonAsync(client, requestUri, cancellationRequested).outcome;
      r.Returned? <==> (ReachesDeserialize(client, requestUri) && BodyOf(client, requestUri).Deserialized?)
    ensures ReachesDeserialize(client, requestUri) && BodyOf(client, requestUri).Deserialized? ==>
      GetJsonAsync(client, requestUri, cancellationRequested).outcome == Returned(BodyOf(client, requestUri).value)
  {
  }

  /**
   * Once every check passes, a JsonException, and only that, yields a
   * deserialization failure that wraps it and quotes its message.
   */
  lemma DeserializationFailureExactly<T>(client: Option<HttpClient<T>>, requestUri: Option<Uri>, cancellationRequested: bool)
    ensures var r := GetJsonAsync(client, requestUri, cancellationRequested).outcome;
      (r.Failed? && r.failure.JsonDeserialization?) <==>
      (ReachesDeserialize(client, requestUri) && BodyOf(client, requestUri).DeserializeThrew? &&
       BodyOf(client, requestUri).exception.kind.JsonException?)
    ensures (ReachesDeserialize(client, requestUri) && BodyOf(client, requestUri).DeserializeThrew? &&
             BodyOf(client, requestUri).exception.kind.JsonException?) ==>
      var e := BodyOf(client, requestUri).exception;
      GetJsonAsync(client, requestUri, cancellationRequested).outcome ==
        Failed(JsonDeserialization(DeserializationMessage(e.message, ResponseOf(client, requestUri)), e))
  {
  }

  /**
   * An exception escapes unchanged exactly when the transport threw one the
   * send step does not translate, or the deserializer threw something other
   * than a JsonException.
   */
  lemma PropagatedExactly<T>(client: Option<HttpClient<T>>, requestUri: Option<Uri>, cancellationRequested: bool)
    ensures var r := GetJsonAsync(client, requestUri, cancellationRequested).outcome;
      r.Propagated? <==>
      ( (ReachesSend(client, requestUri) && SendOf(client, requestUri).SendThrew? &&
         !SendOf(client, requestUri).exception.kind.HttpRequestException? &&
         (SendOf(client, requestUri).exception.kind.TaskCanceledException? ==> cancellationRequested))
      || (ReachesDeserialize(client, requestUri) && BodyOf(client, requestUri).DeserializeThrew? &&
         !BodyOf(client, requestUri).exception.kind.JsonException?))
    ensures ReachesSend(client, requestUri) && SendOf(client, requestUri).SendThrew? &&
            !SendOf(client, requestUri).exception.kind.HttpRequestException? &&
            (SendOf(client, requestUri).exception.kind.TaskCanceledException? ==> cancellationRequested) ==>
      GetJsonAsync(client, requestUri, cancellationRequested).outcome == Propagated(SendOf(client, requestUri).exception)
    ensures ReachesDeserialize(client, requestUri) && BodyOf(client, requestUri).DeserializeThrew? &&
            !BodyOf(client, requestUri).exception.kind.JsonException? ==>
      GetJsonAsync(client, requestUri, cancellationRequested).outcome == Propagated(BodyOf(client, requestUri).exception)
  {
  }

  // ---------------------------------------------------------------------
  // The relative-URI finding

  /**
   * As written, a relative URI (allowed when the client has a base address)
   * turns a network failure into an InvalidOperationException from
   * Uri.AbsoluteUri, and the infrastructure failure is lost; the corrected
   * send step reports the infrastructure failure.
   */
  lemma RelativeUriLosesInfrastructureFailure()
    ensures var e := Exception(HttpRequestException, "Socket level error occurred");
      var client: HttpClient<int> := HttpClient((request: HttpRequest) => SendThrew(e));
      var requestUri := Uri("api/students", None);
      && SendHttpRequestAsWritten(client, requestUri, false).outcome.Propagated?
      && SendHttpRequestAsWritten(client, requestUri, false).outcome.exception.kind.InvalidOperationException?
      && GetJsonAsyncAsWritten(Some(client), Some(requestUri), false).outcome.Propagated?
      && GetJsonAsyncAsWritten(Some(client), Some(requestUri), false).outcome.exception.kind.InvalidOperationException?
      && SendHttpRequest(client, requestUri, false).outcome ==
         Failed(HttpInfrastructure(InfrastructureMessage("Socket level error occurred", "api/students"), e))
  {
  }

  /** As written, a relative URI turns a transport timeout into an InvalidOperationException too. */
  lemma RelativeUriLosesTimeout()
    ensures var e := Exception(TaskCanceledException, "HTTP request timed out after 45 seconds");
      var client: HttpClient<int> := HttpClient((request: HttpRequest) => SendThrew(e));
      var requestUri := Uri("api/students", None);
      && SendHttpRequestAsWritten(client, requestUri, false).outcome.Propagated?
      && SendHttpRequestAsWritten(client, requestUri, false).outcome.exception.kind.InvalidOperationException?
      && GetJsonAsyncAsWritten(Some(client), Some(requestUri), false).outcome.Propagated?
      && GetJsonAsyncAsWritten(Some(client), Some(requestUri), false).outcome.exception.kind.InvalidOperationException?
      && SendHttpRequest(client, requestUri, false).outcome.Failed?
      && SendHttpRequest(client, requestUri, false).outcome.failure.HttpRequestTimeout?
  {
  }

  /**
   * The inputs the finding does not touch: an absolute URI, a transport that
   * answered, or a transport exception neither catch handler takes.
   */
  predicate OutsideTheFinding<T>(client: HttpClient<T>, requestUri: Uri, cancellationRequested: bool) {
    var sent := client.send(GetRequest(requestUri));
    || requestUri.IsAbsoluteUri()
    || sent.Responded?
    || (!sent.exception.kind.HttpRequestException? &&
        !(sent.exception.kind.TaskCanceledException? && !cancellationRequested))
  }

  /**
   * The corrected send step is the source's, request and outcome alike,
   * exactly on the inputs outside the finding.
   */
  lemma SendAgreesOutsideTheFinding<T>(client: HttpClient<T>, requestUri: Uri, cancellationRequested: bool)
    ensures SendHttpRequestAsWritten(client, requestUri, cancellationRequested) ==
            SendHttpRequest(client, requestUri, cancellationRequested)
            <==> OutsideTheFinding(client, requestUri, cancellationRequested)
  {
  }

  /**
   * Every call-level property above is stated of GetJsonAsync with the
   * corrected send step. The whole call as written is that call, outcome
   * and requests alike, exactly when the arguments are rejected or the
   * input lies outside the finding; so those properties hold of the source
   * as written on every other input.
   */
  lemma GetJsonAsyncAgreesOutsideTheFinding<T>(client: Option<HttpClient<T>>, requestUri: Option<Uri>, cancellationRequested: bool)
    ensures GetJsonAsyncAsWritten(client, requestUri, cancellationRequested) ==
            GetJsonAsync(client, requestUri, cancellationRequested)
            <==> (ReachesSend(client, requestUri) ==> OutsideTheFinding(client.value, requestUri.value, cancellationRequested))
  {
    if ReachesSend(client, requestUri) {
      SendAgreesOutsideTheFinding(client.value, requestUri.value, cancellationRequested);
    }
  }

  /**
   * The corrected send step keeps the documented classification for every
   * URI, relative ones included: an HttpRequestException always becomes an
   * infrastructure failure wrapping it.
   */
  lemma InfrastructureFailureForEveryUri<T>(client: HttpClient<T>, requestUri: Uri, cancellationRequested: bool, e: Exception)
    requires client.send(GetRequest(requestUri)) == SendThrew(e) && e.kind.HttpRequestException?
    ensures SendHttpRequest(client, requestUri, cancellationRequested).outcome ==
      Failed(HttpInfrastructure(InfrastructureMessage(e.message, UriText(requestUri)), e))
    ensures !requestUri.IsAbsoluteUri() ==> SendHttpRequestAsWritten(client, requestUri, cancellationRequested).outcome.Propagated?
  {
  }
}
