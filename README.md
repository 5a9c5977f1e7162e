# GetJsonAsync outcome classification, modelled in Dafny

The Deltatre.Http.Helpers library adds one extension method to .NET's
`HttpClient`: `GetJsonAsync<TResponse>`. It sends one GET request to a JSON web
API and deserializes the response. Each call ends in exactly one of these ways:

- it returns the deserialized value, which is absent when the body is the JSON
  literal `null`;
- it throws one of the library's typed failures: argument null, infrastructure
  failure, timeout, non-success status code, empty response body, unexpected
  media type, or JSON deserialization failure;
- it lets an exception it does not handle pass through unchanged. Each step
  translates only its own exceptions. The send step translates the transport's
  `HttpRequestException`, and its `TaskCanceledException` when the caller has
  not requested cancellation; anything else the transport throws passes
  through, a cancellation requested by the caller included. The
  deserialization step translates only the serializer's `JsonException`;
  anything else the serializer throws passes through, an
  `HttpRequestException` raised while the body is read included.

The checks run in a fixed order, and the first one that fails decides the
outcome:

1. the arguments;
2. the transport;
3. the status range 200–299;
4. whether a Content-Type is present;
5. whether the media type is `application/json`;
6. deserialization.

The model is made of functions over values. This is how the source is built:
a static class with no state and no loops, where every step is a guard that
either passes or throws.

- `wrappers.dfy` (`Wrappers`): `Option`, which stands for a nullable reference.
- `exceptions.dfy` (`Exceptions`): the collaborators' exceptions (their class
  and `Message`). It also holds `Failure`, one variant per exception
  `GetJsonAsync` throws, each with the properties that class carries
  (`HttpStatusCode`, `ResponseMediaType`, `InnerException`). Finally it holds
  `Outcome`, which says whether a step returned, failed or let an exception
  through.
- `http.dfy` (`Http`): the transport as the method sees it. `HttpClient` is
  the function from the request it is given to what sending that request
  produces. A response has a status code (0–999, the range
  `HttpResponseMessage.StatusCode` accepts) and optional content. The content
  has the media type of its Content-Type header, if it has one, and what the
  serializer makes of its body. The response also carries the request message
  the transport sent.
- `decimal.dfy` (`Decimal`): renders the status code in invariant-culture
  decimal, and reads it back.
- `http_client_json_extensions.dfy` (`HttpClientJsonExtensions`): the
  operation itself. It holds the argument checks, `GetJsonAsync`,
  `SendHttpRequest` and its two message builders, `EnsureSuccessStatusCode`, `EnsureResponseContentIsJson`
  and `DeserializeResponseContent`, with the exact message formats.
- `get_json_properties.dfy` (`GetJsonProperties`): names the stages a call can
  reach. For each kind of outcome, it proves in both directions that the
  outcome happens exactly when every earlier check passed and that check
  failed. It also holds the finding below.
- `get_json_scenarios.dfy` (`GetJsonScenarios`): the library's unit-test
  scenarios replayed on the model, with their URIs, codes, media types and
  expected message texts.

A null argument is `None`. The caller's cancellation token reduces to one
boolean: whether cancellation had been requested when the transport's
exception was caught. The call's result records the requests it handed to the
transport, so that "nothing is sent" and "exactly one GET to the given URI"
can be stated.

The send step in `GetJsonAsync` is the corrected one of the finding below: a
failure to send a relative URI names the URI's original text, where the source
throws `InvalidOperationException` instead. Every call-level lemma in
`GetJsonProperties` is therefore about the corrected call. The call as
written, `GetJsonAsyncAsWritten`, is the same call, outcome and requests
alike, on every input except the finding's: a relative URI whose transport
threw an exception one of the two catch handlers takes. The two differ on
exactly those inputs (`GetJsonAsyncAgreesOutsideTheFinding`), so those
lemmas hold of the source as written on every other input.

The code is followed where its own doc comment says otherwise. The comment on
`GetJsonAsync` says a missing Content-Type header raises
`UnexpectedResponseMediaTypeException`. The code, and the tests, raise
`EmptyResponseBodyException`. The model raises `EmptyResponseBody`.

## Model

| member | source | states |
|---|---|---|
| `HttpClientJsonExtensions.GetJsonAsync` | src/Deltatre.Http.Helpers/HttpClientJsonExtensions.cs:67-90 | at most one request is sent. None is sent exactly when the client or the URI is null; otherwise the one request is the one the send step handed to the transport, a GET to the given URI. An argument-null failure sends nothing. A value is returned only when the response has a success status, declares `application/json`, and deserializes to exactly that value |
| `HttpClientJsonExtensions.SendHttpRequest` | src/Deltatre.Http.Helpers/HttpClientJsonExtensions.cs:92-131 | the step hands the transport a GET to the given URI and reports that request. The transport's response is passed on unchanged. An infrastructure failure happens exactly when the transport threw an `HttpRequestException`, and it is the one built from that exception's message and the URI. A timeout happens exactly when it threw a `TaskCanceledException` and the caller's token is not cancelled, and it names the URI. Both wrap the transport's exception. Anything else propagates unchanged |
| `HttpClientJsonExtensions.EnsureSuccessStatusCode` | src/Deltatre.Http.Helpers/HttpClientJsonExtensions.cs:134-149 | passes exactly for status 200–299. Otherwise it fails with the non-success failure whose message is the non-success message for that response and whose `HttpStatusCode` is the status code |
| `HttpClientJsonExtensions.EnsureResponseContentIsJson` | src/Deltatre.Http.Helpers/HttpClientJsonExtensions.cs:151-179 | passes exactly when a Content-Type is declared and its media type is `application/json`. It fails with an empty body, carrying the empty-body message, exactly when no Content-Type is declared. Otherwise it fails with an unexpected media type, carrying the media-type message and the declared media type |
| `HttpClientJsonExtensions.DeserializeResponseContent` | src/Deltatre.Http.Helpers/HttpClientJsonExtensions.cs:181-206 | returns the deserializer's value unchanged, with none for JSON null. It fails exactly when the deserializer threw a `JsonException`; the failure wraps that exception and its message quotes it. Any other exception propagates unchanged |
| `HttpClientJsonExtensions.IsSuccessStatusCode` | src/Deltatre.Http.Helpers/HttpClientJsonExtensions.cs:136 | `HttpResponseMessage.IsSuccessStatusCode`: the status code lies in 200–299, both ends included |
| `HttpClientJsonExtensions.DeclaresContentType` | src/Deltatre.Http.Helpers/HttpClientJsonExtensions.cs:153-156 | the negation of `isEmptyResponseContent`: there is content and its headers carry a Content-Type |
| `HttpClientJsonExtensions.NonSuccessTail` | src/Deltatre.Http.Helpers/HttpClientJsonExtensions.cs:141 | the part of the template that follows the status code; it is not empty and starts with a space, so the code's digits end where it begins |
| `HttpClientJsonExtensions.CheckArguments` | src/Deltatre.Http.Helpers/HttpClientJsonExtensions.cs:73-81 | passes exactly when the client and the URI are both present. Otherwise it fails with argument-null, naming `"httpClient"` exactly when the client is null and `"requestUri"` exactly when the client is present and the URI is null |
| `HttpClientJsonExtensions.Pipeline` | src/Deltatre.Http.Helpers/HttpClientJsonExtensions.cs:83-89 | the steps after sending, in order. The call records exactly the request the send step reports. A failure or exception of the send step is the call's. A value is returned only when the status and content-type checks pass and the body deserializes to it |
| `HttpClientJsonExtensions.UriText` | src/Deltatre.Http.Helpers/HttpClientJsonExtensions.cs:118 | the URI a failure to send names: the `AbsoluteUri` of an absolute URI, the original text of a relative one |
| `HttpClientJsonExtensions.InfrastructureMessage` | src/Deltatre.Http.Helpers/HttpClientJsonExtensions.cs:117-119 | the interpolation template of line 118; its properties are stated by `InfrastructureMessageQuotesInner` |
| `HttpClientJsonExtensions.InfrastructureMessageQuotesInner` | src/Deltatre.Http.Helpers/HttpClientJsonExtensions.cs:118 | the infrastructure message quotes the inner message right after its fixed opening, and ends with `' (request URI: <URI>)` |
| `HttpClientJsonExtensions.TimeoutMessage` | src/Deltatre.Http.Helpers/HttpClientJsonExtensions.cs:127-129 | the interpolation template of line 128; its properties are stated by `TimeoutMessageNamesUri` |
| `HttpClientJsonExtensions.TimeoutMessageNamesUri` | src/Deltatre.Http.Helpers/HttpClientJsonExtensions.cs:128 | the timeout message is the URI between `GET request to ` and ` timed out`, and nothing else |
| `HttpClientJsonExtensions.RequestUriText` | src/Deltatre.Http.Helpers/HttpClientJsonExtensions.cs:141 | `RequestMessage?.RequestUri?.AbsoluteUri` interpolated: the request's URI when there is a request message with one, the empty text otherwise |
| `HttpClientJsonExtensions.RequestMethodText` | src/Deltatre.Http.Helpers/HttpClientJsonExtensions.cs:141 | `RequestMessage?.Method` interpolated: the request's method when there is a request message, the empty text otherwise |
| `HttpClientJsonExtensions.RequestTrailer` | src/Deltatre.Http.Helpers/HttpClientJsonExtensions.cs:141 | the interpolation template of the closing part shared by lines 141, 160, 171 and 201; its properties are stated by `RequestTrailerNamesRequest` |
| `HttpClientJsonExtensions.RequestTrailerNamesRequest` | src/Deltatre.Http.Helpers/HttpClientJsonExtensions.cs:141 | the closing part names the request URI right after ` (request URI: ` and ends with ` request method: <method>)` |
| `HttpClientJsonExtensions.NonSuccessMessage` | src/Deltatre.Http.Helpers/HttpClientJsonExtensions.cs:140-142 | the interpolation template of line 141; its properties are stated by `NonSuccessMessageQuotesCode` and `GetJsonProperties.NonSuccessMessageNamesCode` |
| `HttpClientJsonExtensions.NonSuccessMessageQuotesCode` | src/Deltatre.Http.Helpers/HttpClientJsonExtensions.cs:141 | the non-success message has the decimal status code right after `Got `, and ends with the request's closing part |
| `HttpClientJsonExtensions.EmptyBodyMessage` | src/Deltatre.Http.Helpers/HttpClientJsonExtensions.cs:159-161 | the interpolation template of line 160; its properties are stated by `EmptyBodyMessageNamesRequest` |
| `HttpClientJsonExtensions.EmptyBodyMessageNamesRequest` | src/Deltatre.Http.Helpers/HttpClientJsonExtensions.cs:160 | the empty-body message is its fixed text followed by the request's closing part, and nothing else |
| `HttpClientJsonExtensions.MediaTypeMessage` | src/Deltatre.Http.Helpers/HttpClientJsonExtensions.cs:170-172 | the interpolation template of line 171; its properties are stated by `MediaTypeMessageQuotesType` |
| `HttpClientJsonExtensions.MediaTypeMessageQuotesType` | src/Deltatre.Http.Helpers/HttpClientJsonExtensions.cs:171 | the media-type message quotes the declared media type verbatim, right after `HTTP response content has `, and ends with the request's closing part |
| `HttpClientJsonExtensions.DeserializationMessage` | src/Deltatre.Http.Helpers/HttpClientJsonExtensions.cs:200-202 | the interpolation template of line 201; its properties are stated by `DeserializationMessageQuotesInner` |
| `HttpClientJsonExtensions.DeserializationMessageQuotesInner` | src/Deltatre.Http.Helpers/HttpClientJsonExtensions.cs:201 | the deserialization message quotes the serializer's message right after its fixed opening, and ends with `'` and the request's closing part |
| `HttpClientJsonExtensions.AbsoluteUriOf` | src/Deltatre.Http.Helpers/HttpClientJsonExtensions.cs:118 | `Uri.AbsoluteUri` returns the absolute text exactly for an absolute URI. For a relative URI it throws `InvalidOperationException`; it never raises one of the library's failures |
| `HttpClientJsonExtensions.SendHttpRequestAsWritten` | src/Deltatre.Http.Helpers/HttpClientJsonExtensions.cs:97-131 | the send step as written. It hands the transport the same GET, passes its response on unchanged, and propagates an exception neither handler takes as itself. For a relative URI, an `HttpRequestException`, or a `TaskCanceledException` with the token not cancelled, ends in `InvalidOperationException` instead of the typed failure |
| `HttpClientJsonExtensions.GetJsonAsyncAsWritten` | src/Deltatre.Http.Helpers/HttpClientJsonExtensions.cs:67-131 | the call with the send step as written. It sends the same requests as `GetJsonAsync`. For a relative URI, an `HttpRequestException` from the transport, or a `TaskCanceledException` with the token not cancelled, ends the call in `InvalidOperationException` |
| `Decimal.FromNat` | src/Deltatre.Http.Helpers/HttpClientJsonExtensions.cs:141 | the interpolated status code is a non-empty string of decimal digits with no leading zero |
| `Decimal.ToNatFromNat` | src/Deltatre.Http.Helpers/HttpClientJsonExtensions.cs:141 | reading a rendered status code back gives the code |
| `Decimal.FromNatInjective` | src/Deltatre.Http.Helpers/HttpClientJsonExtensions.cs:141 | distinct codes render differently |
| `Decimal.LeadingDigits` | src/Deltatre.Http.Helpers/HttpClientJsonExtensions.cs:141 | the digit run at the start of a text is a prefix of that text |
| `Decimal.LeadingDigitsOfConcat` | src/Deltatre.Http.Helpers/HttpClientJsonExtensions.cs:141 | a digit run followed by a non-digit is exactly the leading digits |
| `GetJsonProperties.NullClientRejected` | src/Deltatre.Http.Helpers/HttpClientJsonExtensions.cs:73-76 | a null client yields argument-null with the name `"httpClient"`, whatever the URI, and nothing is sent |
| `GetJsonProperties.NullUriRejected` | src/Deltatre.Http.Helpers/HttpClientJsonExtensions.cs:78-81 | a null URI with a client yields argument-null with the name `"requestUri"`, and nothing is sent |
| `GetJsonProperties.ArgumentNullExactly` | src/Deltatre.Http.Helpers/HttpClientJsonExtensions.cs:73-81 | argument-null happens if and only if the client or the URI is null |
| `GetJsonProperties.ExactlyOneGetSent` | src/Deltatre.Http.Helpers/HttpClientJsonExtensions.cs:83-102 | once the arguments are present, exactly one request is sent: the request the send step handed to the transport, a GET to the given URI |
| `GetJsonProperties.OnlyTheGetRequestReachesTheTransport` | test/Deltatre.Http.Helpers.UnitTests/HttpClientJsonExtensionsTest_GetJsonAsync.cs:52-72 | the call consults the transport about that one GET to the given URI and nothing else: two clients that answer it alike give the same call, outcome and requests alike |
| `GetJsonProperties.FailuresAreJsonApiRequestExceptions` | src/Deltatre.Http.Helpers/Exceptions/JsonApiRequestException.cs:6-11 | a failure the call raises is a `JsonApiRequestException` exactly when the argument checks passed; the argument checks raise `ArgumentNullException` |
| `GetJsonProperties.InfrastructureFailureExactly` | src/Deltatre.Http.Helpers/HttpClientJsonExtensions.cs:104-121 | (of the corrected call; as written, outside the finding) infrastructure failure happens if and only if the arguments are present and the transport threw an `HttpRequestException`. The caller's token plays no part. The failure's inner exception is that exception, and its message quotes it |
| `GetJsonProperties.InfrastructureMessageFormat` | src/Deltatre.Http.Helpers/HttpClientJsonExtensions.cs:117-120 | for an absolute URI the message is exactly `An error has occurred while issuing GET request: '<inner message>' (request URI: <AbsoluteUri>)` |
| `GetJsonProperties.TimeoutExactly` | src/Deltatre.Http.Helpers/HttpClientJsonExtensions.cs:108-111 | (of the corrected call; as written, outside the finding) timeout happens if and only if the transport threw a `TaskCanceledException` and the caller's token is not cancelled. The timeout wraps that exception and names the URI |
| `GetJsonProperties.TimeoutMessageFormat` | src/Deltatre.Http.Helpers/HttpClientJsonExtensions.cs:123-131 | for an absolute URI the timeout message is exactly `GET request to <AbsoluteUri> timed out` |
| `GetJsonProperties.UnhandledTransportExceptionPropagates` | src/Deltatre.Http.Helpers/HttpClientJsonExtensions.cs:97-111 | the transport's exception propagates unchanged when it is a `TaskCanceledException` and the token is cancelled. It also does when it is neither of the two handled classes |
| `GetJsonProperties.NonSuccessStatusExactly` | src/Deltatre.Http.Helpers/HttpClientJsonExtensions.cs:134-148 | non-success happens if and only if the transport responded with a status outside 200–299. The failure carries exactly that code, and its message is the non-success message for that response |
| `GetJsonProperties.NonSuccessIgnoresContent` | src/Deltatre.Http.Helpers/HttpClientJsonExtensions.cs:83-87 | the status is checked before the content. Two responses with the same non-success status and request message give the same result, whatever their content |
| `GetJsonProperties.NonSuccessMessageNamesCode` | src/Deltatre.Http.Helpers/HttpClientJsonExtensions.cs:140-142 | the non-success message starts with `Got `, and the status code can be read back from it |
| `GetJsonProperties.NonSuccessMessagesDiffer` | src/Deltatre.Http.Helpers/HttpClientJsonExtensions.cs:140-142 | different status codes give different non-success messages |
| `GetJsonProperties.EmptyBodyExactly` | src/Deltatre.Http.Helpers/HttpClientJsonExtensions.cs:151-164 | empty body happens if and only if the status is a success and there is no content or no Content-Type. The media type is never compared in that case. The message names the request URI and method |
| `GetJsonProperties.UnexpectedMediaTypeExactly` | src/Deltatre.Http.Helpers/HttpClientJsonExtensions.cs:166-178 | unexpected media type happens if and only if a Content-Type is declared and its media type is not exactly `application/json`. The declared type is carried verbatim |
| `GetJsonProperties.ReturnsExactly` | src/Deltatre.Http.Helpers/HttpClientJsonExtensions.cs:89 | a value is returned if and only if every check passes and deserialization succeeds. That value, or none for JSON null, is returned unchanged |
| `GetJsonProperties.DeserializationFailureExactly` | src/Deltatre.Http.Helpers/HttpClientJsonExtensions.cs:194-204 | deserialization failure happens if and only if every check passes and the serializer threw a `JsonException`. The failure wraps that exception and quotes its message |
| `GetJsonProperties.PropagatedExactly` | src/Deltatre.Http.Helpers/HttpClientJsonExtensions.cs:97-111 | (of the corrected call; as written, outside the finding) an exception escapes exactly in two cases: the transport threw one the send step does not translate, or the serializer threw something other than a `JsonException`. In the first case the call propagates the transport's exception, in the second the serializer's, unchanged |
| `GetJsonProperties.RelativeUriLosesInfrastructureFailure` | src/Deltatre.Http.Helpers/HttpClientJsonExtensions.cs:113-121 | as written, a relative URI turns a network failure into `InvalidOperationException`, for the send step and for the whole call. The corrected step reports the infrastructure failure |
| `GetJsonProperties.RelativeUriLosesTimeout` | src/Deltatre.Http.Helpers/HttpClientJsonExtensions.cs:123-131 | as written, a relative URI turns a transport timeout into `InvalidOperationException`, for the send step and for the whole call. The corrected step reports the timeout |
| `GetJsonProperties.SendAgreesOutsideTheFinding` | src/Deltatre.Http.Helpers/HttpClientJsonExtensions.cs:92-131 | the corrected send step equals the source's, request and outcome alike, if and only if the URI is absolute, the transport answered, or it threw an exception neither catch handler takes |
| `GetJsonProperties.GetJsonAsyncAgreesOutsideTheFinding` | src/Deltatre.Http.Helpers/HttpClientJsonExtensions.cs:67-131 | the call as written equals the modelled call, outcome and requests alike, if and only if the arguments are rejected or the input lies outside the finding, so every call-level lemma holds of the source as written there |
| `GetJsonProperties.InfrastructureFailureForEveryUri` | src/Deltatre.Http.Helpers/HttpClientJsonExtensions.cs:104-106 | with the correction, an `HttpRequestException` always becomes an infrastructure failure that wraps it, relative URIs included. As written, it does not for a relative URI |
| `GetJsonScenarios.ReturnsDeserializedStudents` | test/Deltatre.Http.Helpers.UnitTests/HttpClientJsonExtensionsTest_GetJsonAsync.cs:21-120 | a 200 `application/json` response yields Jack (33) and Alice (25) in order, after exactly one GET to `https://foo.com/bar` |
| `GetJsonScenarios.JsonNullIsAbsent` | src/Deltatre.Http.Helpers/HttpClientJsonExtensions.cs:194-196 | a JSON `null` body is an absent result, not a failure |
| `GetJsonScenarios.InfrastructureFailureMessage` | test/Deltatre.Http.Helpers.UnitTests/HttpClientJsonExtensionsTest_GetJsonAsync.cs:312-340 | the socket failure gives the exact infrastructure message, wrapping the same exception |
| `GetJsonScenarios.TimeoutMessageText` | test/Deltatre.Http.Helpers.UnitTests/HttpClientJsonExtensionsTest_GetJsonAsync.cs:342-370 | a transport timeout gives `GET request to https://foo.com/bar timed out`, wrapping the same exception |
| `GetJsonScenarios.CallerCancellationIsNotTimeout` | test/Deltatre.Http.Helpers.UnitTests/HttpClientJsonExtensionsTest_GetJsonAsync.cs:372-395 | with the caller's token cancelled, the same `TaskCanceledException` propagates |
| `GetJsonScenarios.NonSuccessStatusMessage` | test/Deltatre.Http.Helpers.UnitTests/HttpClientJsonExtensionsTest_GetJsonAsync.cs:397-431 | status 500 gives the exact non-success message and the code 500 |
| `GetJsonScenarios.EmptyBodyWithoutContentType` | test/Deltatre.Http.Helpers.UnitTests/HttpClientJsonExtensionsTest_GetJsonAsync.cs:433-467 | content without a Content-Type (only `Content-Length: 0`) gives the exact empty-body message |
| `GetJsonScenarios.EmptyBodyWithoutContent` | test/Deltatre.Http.Helpers.UnitTests/HttpClientJsonExtensionsTest_GetJsonAsync.cs:469-502 | null content gives the exact empty-body message |
| `GetJsonScenarios.HtmlIsUnexpectedMediaType` | test/Deltatre.Http.Helpers.UnitTests/HttpClientJsonExtensionsTest_GetJsonAsync.cs:504-558 | `text/html` gives the exact media-type message and carries `"text/html"` |
| `GetJsonScenarios.MalformedJsonIsDeserializationFailure` | test/Deltatre.Http.Helpers.UnitTests/HttpClientJsonExtensionsTest_GetJsonAsync.cs:560-600 | a `JsonException` from malformed JSON gives a deserialization failure. It has a non-empty message and wraps that exception |

## Findings

| source | as written | input that shows it | evidently intended | confidence | as-written member | corrected member |
|---|---|---|---|---|---|---|
| src/Deltatre.Http.Helpers/HttpClientJsonExtensions.cs:113-131 | both catch handlers build their message from `requestUri.AbsoluteUri`. For a relative `Uri` that property throws `InvalidOperationException`, which replaces the exception being handled | a relative URI `api/students` on a client with a base address, when the transport throws `HttpRequestException("Socket level error occurred")` or a timeout `TaskCanceledException` | an infrastructure or timeout failure naming the request URI. Relative URIs are allowed by the doc comment (lines 45-47) when a base address is set | medium, not executed | `HttpClientJsonExtensions.SendHttpRequestAsWritten` and `HttpClientJsonExtensions.GetJsonAsyncAsWritten`, shown by `GetJsonProperties.RelativeUriLosesInfrastructureFailure` and `GetJsonProperties.RelativeUriLosesTimeout` | `HttpClientJsonExtensions.SendHttpRequest` (names `UriText`: the `AbsoluteUri`, or the original text of a relative URI), proved by `GetJsonProperties.InfrastructureFailureForEveryUri`, `GetJsonProperties.SendAgreesOutsideTheFinding` and `GetJsonProperties.GetJsonAsyncAgreesOutsideTheFinding` |

## Left out

- The real transport: `HttpClient.GetAsync` in headers-read streaming mode, connection handling, and resolving a relative URI against `BaseAddress`. All of it is the abstract `send` function. The transport's `InvalidOperationException` for a relative URI without a base address is one of the exceptions it may throw, and it propagates unchanged.
- The transport resolves the URI of the request it sent, so the response's `RequestMessage.RequestUri` is taken to be absolute already. The model holds it as its `AbsoluteUri` text, or as absent.
- The JSON serializer: Newtonsoft.Json, the stream and reader set-up, and the caller's serializer settings (naming strategies, converters). What the serializer, configured with those settings, makes of a body is an input, carried by the content.
- A Content-Type header whose media type is null is not represented. A declared Content-Type always has a media type string.
- async/await, `ConfigureAwait`, the timing of cancellation, and disposal (`using`, `await using`) of the response, stream and readers. The caller's token is the one boolean read when the transport's exception is caught.
- The exception classes themselves: their constructors, `GetObjectData` and the serialization constructors. Only the data they carry is kept, in `Failure`.
- An empty URI is not rejected, because the code only checks for null.
- The sample client and server, view models and in-memory student database, and the unit-test mocks. The tests are replayed as scenarios, not as mocks.
