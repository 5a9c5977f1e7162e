/**
 * GetJsonAsync: one GET request to a JSON web API, and the classification of
 * everything that can happen to it into exactly one outcome. The steps run
 * in a fixed order and the first one that fails decides the outcome:
 * argument checks, sending the request, the status code, the presence of a
 * Content-Type, the media type, and deserialization.
 */
module HttpClientJsonExtensions {
  import opened Wrappers
  import opened Exceptions
  import opened Http
  import Decimal

  /** MediaTypeNames.Application.Json */
  const JsonMediaType: string := "application/json"

  /** IsSuccessStatusCode: the inclusive range 200 to 299. */
  predicate IsSuccessStatusCode(statusCode: int) {
    200 <= statusCode <= 299
  }

  // ---------------------------------------------------------------------
  // Messages

  /** `message` opens with `prefix`, immediately followed by `quoted`. */
  predicate Quotes(message: string, prefix: string, quoted: string) {
    && |prefix| + |quoted| <= |message|
    && message[..|prefix|] == prefix
    && message[|prefix|..|prefix| + |quoted|] == quoted
  }

  /** `message` closes with `suffix`. */
  predicate EndsWith(message: string, suffix: string) {
    |suffix| <= |message| && message[|message| - |suffix|..] == suffix
  }

  /**
   * The URI text a failure to send names. For an absolute URI this is its
   * AbsoluteUri, as in the source; a relative URI has none, and its original
   * text is named instead (see SendHttpRequestAsWritten).
   */
  function UriText(requestUri: Uri): (s: string)
    ensures requestUri.IsAbsoluteUri() ==> s == requestUri.absoluteUri.value
    ensures !requestUri.IsAbsoluteUri() ==> s == requestUri.originalString
  {
    match requestUri.absoluteUri
    case Some(absolute) => absolute
    case None => requestUri.originalString
  }

  const InfrastructurePrefix: string := "An error has occurred while issuing GET request: '"

  /** The infrastructure message: the inner message, quoted, then the request URI in parentheses. */
  function InfrastructureMessage(innerMessage: string, uriText: string): string {
    InfrastructurePrefix + innerMessage + ("' (request URI: " + uriText + ")")
  }

  lemma InfrastructureMessageQuotesInner(innerMessage: string, uriText: string)
    ensures Quotes(InfrastructureMessage(innerMessage, uriText), InfrastructurePrefix, innerMessage)
    ensures EndsWith(InfrastructureMessage(innerMessage, uriText), "' (request URI: " + uriText + ")")
  {
  }

  const TimeoutPrefix: string := "GET request to "

  /** The timeout message: the request URI between "GET request to " and " timed out". */
  function TimeoutMessage(uriText: string): string {
    TimeoutPrefix + uriText + " timed out"
  }

  lemma TimeoutMessageNamesUri(uriText: string)
    ensures Quotes(TimeoutMessage(uriText), TimeoutPrefix, uriText)
    ensures EndsWith(TimeoutMessage(uriText), " timed out")
    ensures |TimeoutMessage(uriText)| == |TimeoutPrefix| + |uriText| + |" timed out"|
  {
  }

  /** `RequestMessage?.RequestUri?.AbsoluteUri` interpolated: empty when absent. */
  function RequestUriText<T>(response: HttpResponse<T>): (s: string)
    ensures response.requestMessage.Some? && response.requestMessage.value.absoluteUri.Some? ==>
      s == response.requestMessage.value.absoluteUri.value
    ensures response.requestMessage.None? || response.requestMessage.value.absoluteUri.None? ==> s == ""
  {
    match response.requestMessage
    case None => ""
    case Some(request) =>
      match request.absoluteUri
      case None => ""
      case Some(absolute) => absolute
  }

  /** `RequestMessage?.Method` interpolated: empty when absent. */
  function RequestMethodText<T>(response: HttpResponse<T>): (s: string)
    ensures response.requestMessage.Some? ==> s == response.requestMessage.value.httpMethod
    ensures response.requestMessage.None? ==> s == ""
  {
    match response.requestMessage
    case None => ""
    case Some(request) => request.httpMethod
  }

  const TrailerPrefix: string := " (request URI: "

  /** The closing part shared by the messages built from a response: its request URI, then its method. */
  function RequestTrailer<T>(response: HttpResponse<T>): string {
    TrailerPrefix + RequestUriText(response) + (" request method: " + RequestMethodText(response) + ")")
  }

  lemma RequestTrailerNamesRequest<T>(response: HttpResponse<T>)
    ensures Quotes(RequestTrailer(response), TrailerPrefix, RequestUriText(response))
    ensures EndsWith(RequestTrailer(response), " request method: " + RequestMethodText(response) + ")")
  {
  }

  const NonSuccessPrefix: string := "Got "

  /** The non-success message: the decimal status code right after "Got ", the request last. */
  function NonSuccessMessage<T>(statusCode: StatusCode, response: HttpResponse<T>): string {
    NonSuccessPrefix + Decimal.FromNat(statusCode) + NonSuccessTail(response)
  }

  lemma NonSuccessMessageQuotesCode<T>(statusCode: StatusCode, response: HttpResponse<T>)
    ensures Quotes(NonSuccessMessage(statusCode, response), NonSuccessPrefix, Decimal.FromNat(statusCode))
    ensures EndsWith(NonSuccessMessage(statusCode, response), RequestTrailer(response))
  {
  }

  /** What follows the status code in a non-success message; it starts with a space. */
  function NonSuccessTail<T>(response: HttpResponse<T>): (s: string)
    ensures s != [] && s[0] == ' '
  {
    " status code when issuing HTTP request" + RequestTrailer(response)
  }

  const EmptyBodyText: string := "HTTP request returned empty response body. JSON response body is expected instead"

  /** The empty-body message: a fixed text, then the request. */
  function EmptyBodyMessage<T>(response: HttpResponse<T>): string {
    EmptyBodyText + RequestTrailer(response)
  }

  lemma EmptyBodyMessageNamesRequest<T>(response: HttpResponse<T>)
    ensures Quotes(EmptyBodyMessage(response), EmptyBodyText, RequestTrailer(response))
    ensures |EmptyBodyMessage(response)| == |EmptyBodyText| + |RequestTrailer(response)|
  {
  }

  const MediaTypePrefix: string := "HTTP response content has "

  /** The media-type message: the declared media type right after its fixed opening, the request last. */
  function MediaTypeMessage<T>(mediaType: string, response: HttpResponse<T>): string {
    MediaTypePrefix + mediaType + (" media type. application/json media type is expected instead" + RequestTrailer(response))
  }

  lemma MediaTypeMessageQuotesType<T>(mediaType: string, response: HttpResponse<T>)
    ensures Quotes(MediaTypeMessage(mediaType, response), MediaTypePrefix, mediaType)
    ensures EndsWith(MediaTypeMessage(mediaType, response), RequestTrailer(response))
  {
  }

  const DeserializationPrefix: string := "An error has occurred while deserializing JSON content of HTTP response: '"

  /** The deserialization message: the serializer's message, quoted, then the request. */
  function DeserializationMessage<T>(innerMessage: string, response: HttpResponse<T>): string {
    DeserializationPrefix + innerMessage + ("'" + RequestTrailer(response))
  }

  lemma DeserializationMessageQuotesInner<T>(innerMessage: string, response: HttpResponse<T>)
    ensures Quotes(DeserializationMessage(innerMessage, response), DeserializationPrefix, innerMessage)
    ensures EndsWith(DeserializationMessage(innerMessage, response), "'" + RequestTrailer(response))
  {
  }

  // ---------------------------------------------------------------------
  // The steps

  /** The argument checks: a null client, then a null URI, is an ArgumentNullException naming it. */
  function CheckArguments<T>(client: Option<HttpClient<T>>, requestUri: Option<Uri>): (c: Check)
    ensures c.Pass? <==> client.Some? && requestUri.Some?
    ensures c.Fail? ==> c.failure.ArgumentNull?
    ensures c.Fail? && c.failure.paramName == "httpClient" <==> client.None?
    ensures c.Fail? && c.failure.paramName == "requestUri" <==> client.Some? && requestUri.None?
  {
    if client.None? then Fail(ArgumentNull("httpClient"))
    else if requestUri.None? then Fail(ArgumentNull("requestUri"))
    else Pass
  }

  /** What the send step did: the request it handed to the transport, and how the step ended. */
  datatype Exchange<+T> = Exchange(request: HttpRequest, outcome: Outcome<HttpResponse<T>>)

  /**
   * SendHttpRequest: sends the GET request and classifies what the transport
   * throws. An HttpRequestException becomes an infrastructure failure; a
   * TaskCanceledException becomes a timeout only when the caller's token is
   * not cancelled; anything else passes through untouched.
   */
  function SendHttpRequest<T>(client: HttpClient<T>, requestUri: Uri, cancellationRequested: bool)
    : (x: Exchange<T>)
    ensures x.request == HttpRequest(GetMethod, requestUri)
    ensures x.outcome.Returned? <==> client.send(x.request).Responded?
    ensures x.outcome.Returned? ==> x.outcome.value == client.send(x.request).response
    ensures x.outcome.Failed? && x.outcome.failure.HttpInfrastructure? <==>
      client.send(x.request).SendThrew? && client.send(x.request).exception.kind.HttpRequestException?
    ensures x.outcome.Failed? && x.outcome.failure.HttpInfrastructure? ==>
      var e := client.send(x.request).exception;
      x.outcome.failure == HttpInfrastructure(InfrastructureMessage(e.message, UriText(requestUri)), e)
    ensures x.outcome.Failed? && x.outcome.failure.HttpRequestTimeout? <==>
      client.send(x.request).SendThrew? && client.send(x.request).exception.kind.TaskCanceledException? &&
      !cancellationRequested
    ensures x.outcome.Failed? && x.outcome.failure.HttpRequestTimeout? ==>
      x.outcome.failure == HttpRequestTimeout(TimeoutMessage(UriText(requestUri)), client.send(x.request).exception)
    ensures x.outcome.Failed? ==> x.outcome.failure.HttpInfrastructure? || x.outcome.failure.HttpRequestTimeout?
    ensures x.outcome.Propagated? ==> x.outcome.exception == client.send(x.request).exception
  {
    var request := GetRequest(requestUri);
    Exchange(request,
      match client.send(request)
      case Responded(response) => Returned(response)
      case SendThrew(e) =>
        if e.kind.HttpRequestException? then
          Failed(HttpInfrastructure(InfrastructureMessage(e.message, UriText(requestUri)), e))
        else if e.kind.TaskCanceledException? && !cancellationRequested then
          Failed(HttpRequestTimeout(TimeoutMessage(UriText(requestUri)), e))
        else
          Propagated(e))
  }

  /** EnsureSuccessStatusCode: rejects a status outside 200 to 299 with a message naming it, keeping the code. */
  function EnsureSuccessStatusCode<T>(response: HttpResponse<T>): (c: Check)
    ensures c.Pass? <==> IsSuccessStatusCode(response.statusCode)
    ensures c.Fail? ==>
      c.failure == NonSuccessStatusCode(NonSuccessMessage(response.statusCode, response), response.statusCode)
  {
    if IsSuccessStatusCode(response.statusCode) then Pass
    else Fail(NonSuccessStatusCode(NonSuccessMessage(response.statusCode, response), response.statusCode))
  }

  /** True when the response declares a Content-Type at all. */
  predicate DeclaresContentType<T>(response: HttpResponse<T>) {
    response.content.Some? && response.content.value.mediaType.Some?
  }

  /**
   * EnsureResponseContentIsJson: a response without content or without a
   * Content-Type is an empty body; a declared media type other than
   * application/json is rejected with that media type.
   */
  function EnsureResponseContentIsJson<T>(response: HttpResponse<T>): (c: Check)
    ensures c.Pass? <==> DeclaresContentType(response) && response.content.value.mediaType.value == JsonMediaType
    ensures c.Fail? ==> c.failure.EmptyResponseBody? || c.failure.UnexpectedResponseMediaType?
    ensures c.Fail? && c.failure.EmptyResponseBody? <==> !DeclaresContentType(response)
    ensures c.Fail? && c.failure.EmptyResponseBody? ==> c.failure.message == EmptyBodyMessage(response)
    ensures c.Fail? && c.failure.UnexpectedResponseMediaType? ==>
      && DeclaresContentType(response)
      && var mediaType := response.content.value.mediaType.value;
      && mediaType != JsonMediaType
      && c.failure == UnexpectedResponseMediaType(MediaTypeMessage(mediaType, response), mediaType)
  {
    match response.content
    case None => Fail(EmptyResponseBody(EmptyBodyMessage(response)))
    case Some(content) =>
      match content.mediaType
      case None => Fail(EmptyResponseBody(EmptyBodyMessage(response)))
      case Some(mediaType) =>
        if mediaType == JsonMediaType then Pass
        else Fail(UnexpectedResponseMediaType(MediaTypeMessage(mediaType, response), mediaType))
  }

  /**
   * DeserializeResponseContent: the deserializer's result is returned as it
   * is (None for a JSON null); a JsonException is wrapped, keeping it as the
   * inner exception; any other exception passes through.
   */
  function DeserializeResponseContent<T>(response: HttpResponse<T>): (r: Outcome<Option<T>>)
    requires response.content.Some?
    ensures r.Returned? <==> response.content.value.body.Deserialized?
    ensures r.Returned? ==> r.value == response.content.value.body.value
    ensures r.Failed? <==>
      response.content.value.body.DeserializeThrew? &&
      response.content.value.body.exception.kind.JsonException?
    ensures r.Failed? ==>
      var e := response.content.value.body.exception;
      r.failure == JsonDeserialization(DeserializationMessage(e.message, response), e)
    ensures r.Propagated? ==> r.exception == response.content.value.body.exception
  {
    match response.content.value.body
    case Deserialized(value) => Returned(value)
    case DeserializeThrew(e) =>
      if e.kind.JsonException? then
        Failed(JsonDeserialization(DeserializationMessage(e.message, response), e))
      else
        Propagated(e)
  }

  /** One call of GetJsonAsync: its outcome and the requests it handed to the transport. */
  datatype Call<+T> = Call(outcome: Outcome<Option<T>>, sent: seq<HttpRequest>)

  /**
   * Everything after the send step: a failure or exception of the send step
   * ends the call; otherwise the status, the content type and the body are
   * checked in that order.
   */
  function Pipeline<T>(exchange: Exchange<T>): (c: Call<T>)
    ensures c.sent == [exchange.request]
    ensures exchange.outcome.Failed? ==> c.outcome == Failed(exchange.outcome.failure)
    ensures exchange.outcome.Propagated? ==> c.outcome == Propagated(exchange.outcome.exception)
    ensures c.outcome.Returned? ==>
      && exchange.outcome.Returned?
      && EnsureSuccessStatusCode(exchange.outcome.value).Pass?
      && EnsureResponseContentIsJson(exchange.outcome.value).Pass?
      && exchange.outcome.value.content.value.body == Deserialized(c.outcome.value)
  {
    Call(
      match exchange.outcome
      case Failed(f) => Failed(f)
      case Propagated(e) => Propagated(e)
      case Returned(response) =>
        match EnsureSuccessStatusCode(response)
        case Fail(f) => Failed(f)
        case Pass =>
          match EnsureResponseContentIsJson(response)
          case Fail(f) => Failed(f)
          case Pass => DeserializeResponseContent(response),
      [exchange.request])
  }

  /**
   * GetJsonAsync. A null client or URI (None) is rejected before anything
   * is sent; otherwise exactly the one request the send step hands to the
   * transport is sent, a GET to the given URI, and a value is returned only
   * for a success status with an application/json body that deserializes.
   */
  function GetJsonAsync<T>(client: Option<HttpClient<T>>, requestUri: Option<Uri>, cancellationRequested: bool)
    : (r: Call<T>)
    ensures |r.sent| <= 1
    ensures r.sent == [] <==> client.None? || requestUri.None?
    ensures r.sent != [] ==> r.sent[0] == HttpRequest(GetMethod, requestUri.value)
    ensures r.outcome.Failed? && r.outcome.failure.ArgumentNull? ==> r.sent == []
    ensures r.outcome.Returned? ==>
      && client.Some? && requestUri.Some?
      && var sent := client.value.send(GetRequest(requestUri.value));
      && sent.Responded?
      && IsSuccessStatusCode(sent.response.statusCode)
      && DeclaresContentType(sent.response)
      && sent.response.content.value.mediaType.value == JsonMediaType
      && sent.response.content.value.body == Deserialized(r.outcome.value)
  {
    match CheckArguments(client, requestUri)
    case Fail(f) => Call(Failed(f), [])
    case Pass => Pipeline(SendHttpRequest(client.value, requestUri.value, cancellationRequested))
  }

  // ---------------------------------------------------------------------
  // The send step as the source writes it

  /** Uri.AbsoluteUri: throws InvalidOperationException for a relative URI. */
  function AbsoluteUriOf(requestUri: Uri): (r: Outcome<string>)
    ensures !r.Failed?
    ensures r.Returned? <==> requestUri.IsAbsoluteUri()
    ensures r.Returned? ==> r.value == requestUri.absoluteUri.value
    ensures r.Propagated? ==> r.exception.kind.InvalidOperationException?
  {
    match requestUri.absoluteUri
    case Some(absolute) => Returned(absolute)
    case None => Propagated(Exception(InvalidOperationException, "This operation is not supported for a relative URI."))
  }

  /**
   * SendHttpRequest exactly as written: both catch handlers read
   * requestUri.AbsoluteUri to build their message, and an exception thrown
   * there replaces the one being handled.
   */
  function SendHttpRequestAsWritten<T>(client: HttpClient<T>, requestUri: Uri, cancellationRequested: bool)
    : (x: Exchange<T>)
    ensures x.request == HttpRequest(GetMethod, requestUri)
    ensures x.outcome.Returned? <==> client.send(x.request).Responded?
    ensures x.outcome.Returned? ==> x.outcome.value == client.send(x.request).response
    ensures client.send(x.request).SendThrew? ==>
      var e := client.send(x.request).exception;
      !e.kind.HttpRequestException? && !(e.kind.TaskCanceledException? && !cancellationRequested) ==>
        x.outcome == Propagated(e)
    ensures client.send(x.request).SendThrew? && !requestUri.IsAbsoluteUri() ==>
      var e := client.send(x.request).exception;
      (e.kind.HttpRequestException? || (e.kind.TaskCanceledException? && !cancellationRequested)) ==>
        x.outcome.Propagated? && x.outcome.exception.kind.InvalidOperationException?
  {
    var request := GetRequest(requestUri);
    Exchange(request,
      match client.send(request)
      case Responded(response) => Returned(response)
      case SendThrew(e) =>
        if e.kind.HttpRequestException? then
          var absolute := AbsoluteUriOf(requestUri);
          if absolute.Returned? then Failed(HttpInfrastructure(InfrastructureMessage(e.message, absolute.value), e))
          else Propagated(absolute.exception)
        else if e.kind.TaskCanceledException? && !cancellationRequested then
          var absolute := AbsoluteUriOf(requestUri);
          if absolute.Returned? then Failed(HttpRequestTimeout(TimeoutMessage(absolute.value), e))
          else Propagated(absolute.exception)
        else
          Propagated(e))
  }

  /** GetJsonAsync exactly as written: the same call, with the send step as the source writes it. */
  function GetJsonAsyncAsWritten<T>(client: Option<HttpClient<T>>, requestUri: Option<Uri>, cancellationRequested: bool)
    : (r: Call<T>)
    ensures r.sent == GetJsonAsync(client, requestUri, cancellationRequested).sent
    ensures client.Some? && requestUri.Some? && !requestUri.value.IsAbsoluteUri() ==>
      var sent := client.value.send(GetRequest(requestUri.value));
      sent.SendThrew? &&
      (sent.exception.kind.HttpRequestException? || (sent.exception.kind.TaskCanceledException? && !cancellationRequested)) ==>
        r.outcome.Propagated? && r.outcome.exception.kind.InvalidOperationException?
  {
    match CheckArguments(client, requestUri)
    case Fail(f) => Call(Failed(f), [])
    case Pass => Pipeline(SendHttpRequestAsWritten(client.value, requestUri.value, cancellationRequested))
  }
}
