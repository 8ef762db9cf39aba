# JRNetworking request pipeline in Dafny

This project models the core of JRNetworking, a small Swift REST client, and
proves properties of it. A `RestServiceClient` is created from a
`ClientConfiguration`. Its single generic `request` call works in two parts:

1. It builds a `URLRequest`. The URL string is the base URL joined to the
   resource's route. The call stops with `invalidRequestError` if that string is
   not a valid URL. Otherwise it sets the HTTP method, copies the per-call header
   fields one by one, and attaches a JSON body only for a non-GET call whose
   parameters are given and serialise. A serialisation failure leaves the body
   out and is not an error.
2. It turns the transport's outcome into either a value decoded as the success
   type or exactly one `JRNetworkingError`.

Modules, one per source file or component:

- `Wrappers`: `Option` and `Result`.
- `Foundation`: the Foundation values the client touches.
  - `Data` is an opaque byte sequence.
  - `URLError` is reduced to its code (`-1009` not connected, `-1005` connection lost).
  - `URLResponse` is either HTTP with a status code or something else.
  - `URLRequest` and its `setValue(_:forHTTPHeaderField:)` are modelled as values.
  - `URLSessionConfiguration` is an opaque token.
- `Resource` (`JRResource.swift`): `HTTPMethod` with its raw values, the
  (method, route) resource pair, and `HTTPHeaders`.
- `NetworkingError` (`JRNetworkingError.swift`): the six-case `JRNetworkingError`.
  - The `apiError` payload is a type parameter.
  - Swift's `Error` existential becomes `AnyError`: a URL error, a decoding error,
    or a `JRNetworkingError`. This is how `apiError` can sit inside `parsingError`.
- `Configuration` (`JRClientConfiguration.swift`): `ClientConfiguration`, with the
  initializer's default values as constructor defaults.
- `RestService` (`RestServiceClient.swift`): the client class, request building and
  classification.

Foundation services the client calls are parameters of the model. They are
grouped in two datatypes:

- `Platform`: `URL(string:)` validity, `JSONSerialization` (`None` when it throws)
  and the session's data task, which yields one `TransportOutcome`.
- `PayloadType`: stands for a type token `T.Type`. It holds the type's printed
  name and what `JSONDecoder` makes of a body.

Three behaviours of the code deserve a note:

- **Status 401.** The code decodes the body as the error type and throws
  `apiError`, but the throw sits inside a `do` block whose own `catch` replaces
  it with `invalidResponse`. A 401 therefore always yields `invalidResponse`
  (`UnauthorizedIsInvalidResponse`).
- **Status 400 and 402–599.** The same `do` block throws `apiError` when the body
  decodes as the error type, and its `catch` wraps whatever was thrown in
  `parsingError` naming the success type. These statuses therefore always yield
  `parsingError`, with `apiError` only as its cause (`ErrorStatusIsParsingError`,
  `ApiErrorOnlyNested`).
- **Headers.** The `headers` parameter of `request` has the same name as the
  stored configuration headers and shadows them. Only the per-call headers are
  set, none when the parameter is nil, and the configuration headers are never
  applied (`HeadersAreExactlyPerCall`).

## Model

| member | source | states |
|---|---|---|
| `Resource.FromRawValue` | Sources/JRNetworking/JRResource.swift:16-21 | `init(rawValue:)` yields a case exactly when the string is one of the four raw values, and that case's raw value is the string |
| `Resource.RawValueInjective` | Sources/JRNetworking/JRResource.swift:16-21 | the four raw values "GET", "POST", "PUT", "DELETE" are pairwise distinct |
| `Resource.RawValueRoundTrip` | Sources/JRNetworking/JRResource.swift:16-21 | reading a case's raw value back with `init(rawValue:)` returns the same case |
| `Configuration.InitializerDefaults` | Sources/JRNetworking/JRClientConfiguration.swift:16-24 | the initializer stores base URL and headers verbatim; when the last two arguments are omitted, the session configuration is `.default` and there is no logout action |
| `Foundation.SetValue` | Sources/JRNetworking/RestServiceClient.swift:39-41 | setting a header field gives it the new value, keeps every other field and its value, and changes nothing else in the request |
| `RestService.BuildURLRequest` | Sources/JRNetworking/RestServiceClient.swift:30-48 | fails with `invalidRequestError("Invalid URL: " + base + route)` exactly when base + route is not a valid URL; otherwise the request, built step by step with a loop over the headers, equals `ExpectedRequest`: URL base + route, the method's raw value, exactly the per-call headers, and the body rule below |
| `RestService.GetNeverHasBody` | Sources/JRNetworking/RestServiceClient.swift:43-48 | a GET request never carries a body, whatever the parameters |
| `RestService.BodyIffSerialised` | Sources/JRNetworking/RestServiceClient.swift:43-48 | a body is present iff the method is not GET, parameters are given and they serialise; the body is the serialised data, and a serialisation failure means no body rather than an error |
| `RestService.HeadersAreExactlyPerCall` | Sources/JRNetworking/RestServiceClient.swift:37-41 | the header fields equal the per-call headers (empty when nil); a configuration header absent from the per-call headers is never set |
| `RestService.MapTransportError` | Sources/JRNetworking/RestServiceClient.swift:51-56 | a transport error becomes `noInternetConnection` iff its code is not-connected or connection-lost; every other error is wrapped unchanged in `unexpectedError` |
| `RestService.ThrownByErrorDecoding` | Sources/JRNetworking/RestServiceClient.swift:67-69 | the `do` block always throws: `apiError(status, payload)` iff the body decodes as the error type, and the decoder's own error otherwise |
| `RestService.ValidateResponse` | Sources/JRNetworking/RestServiceClient.swift:57-87 | the body passes on unchanged iff the response is HTTP with a status that is neither 401 nor 400/402–599; a rejection is `parsingError` exactly for HTTP status 400 or 402–599, naming the success type and wrapping what the `do` block threw; every other rejection is `invalidResponse`; it never yields `apiError` |
| `RestService.DecodeSuccess` | Sources/JRNetworking/RestServiceClient.swift:89-97 | succeeds iff the body decodes as the success type, with that value; otherwise `parsingError(decoding error, "Failed parsing object: " + type name)` |
| `RestService.Classify` | Sources/JRNetworking/RestServiceClient.swift:50-98 | succeeds iff a response was delivered, it is HTTP, its status is neither 401 nor 400/402–599, and the body decodes, with exactly the decoded value; a failure is never a top-level `apiError` nor `invalidRequestError`; it is a connectivity or unexpected error iff the transport failed; every `parsingError` names the success type |
| `RestService.TransportErrorClassification` | Sources/JRNetworking/RestServiceClient.swift:51-56 | a failed transport yields `noInternetConnection` for the two offline codes and `unexpectedError(error)` for any other |
| `RestService.NonHTTPResponseIsInvalid` | Sources/JRNetworking/RestServiceClient.swift:58-61 | a response that is not HTTP yields `invalidResponse` before any status is inspected, whatever the body |
| `RestService.UnauthorizedIsInvalidResponse` | Sources/JRNetworking/RestServiceClient.swift:64-72 | status 401 yields `invalidResponse` whether or not the body decodes as the error type |
| `RestService.ErrorStatusIsParsingError` | Sources/JRNetworking/RestServiceClient.swift:73-81 | status 400 or 402–599 yields `parsingError` naming the success type, with cause `apiError(status, payload)` when the error body decodes and the decoder's error otherwise |
| `RestService.OtherStatusDecodesSuccessType` | Sources/JRNetworking/RestServiceClient.swift:82-97 | any other status decodes the body as the success type: the value on success, `parsingError` with the decoder's error otherwise |
| `RestService.ApiErrorOnlyNested` | Sources/JRNetworking/RestServiceClient.swift:63-81 | an `apiError` reaches the caller only as the cause of a `parsingError`, for an error status whose body decoded to exactly that payload |
| `RestService.RestServiceClient.constructor` | Sources/JRNetworking/RestServiceClient.swift:15-23 | the client keeps the configuration's base URL, headers and session configuration; the fields are constants, and the logout action is not kept |
| `RestService.RestServiceClient.Request` | Sources/JRNetworking/RestServiceClient.swift:25-99 | nothing is sent and the result is `invalidRequestError` iff the URL is invalid; otherwise the request sent is `ExpectedRequest`, it is handed to a data task on a session built from the stored configuration, and the result is `Classify` of the transport's outcome; stored configuration headers not passed per call never appear in the request |

## Left out

- Combine publishers, asynchronous delivery and `[weak self]` capture are left out. The call's single outcome is the `result` out-parameter, and the transport is the `dataTask` function in `Platform`. The returned publisher is cold: nothing is sent until it is subscribed to, and each subscription sends the request again. The model covers one subscription.
- `debugPrint` is left out. It writes to the console in DEBUG builds only and never affects a result.
- `serialize`'s `None` stands only for an error that `JSONSerialization` throws. Given an object that is not valid JSON (a `Date` value, say), `data(withJSONObject:)` raises an Objective-C exception instead. `try?` cannot catch that exception and the process traps; this trap is not modelled.
- JSON syntax is not modelled. `JSONSerialization` and `JSONDecoder` are functions supplied by the caller, and their bytes are opaque.
- URL parsing is not modelled. `URL(string:)` is a predicate supplied by the caller, and the parsed URL is represented by the string it was built from.
- Header-name case folding is left out. `URLRequest` treats header names case-insensitively; the model treats them as exact strings. With two per-call names that differ only in case, the real request keeps one of them, depending on dictionary order.
- `URLSessionConfiguration` contents are not modelled; it is an opaque token passed to the transport. Timeouts, caching and other session behaviour belong to the transport function.
- The `logOutAction` closure is an opaque identity. The client never stores or calls it, so the model never invokes it.
- `JRResource` is a protocol whose computed `jrResource` is read three times per call. The model reads one fixed (method, route) pair, so a conforming type is assumed to return the same pair on every read.
- `DecodingError` and `URLError` are reduced to a description and a code. The client inspects nothing else of them.
