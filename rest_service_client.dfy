/** The request pipeline of `RestServiceClient`: building the `URLRequest`,
    then classifying the transport outcome into a decoded value or exactly one
    `JRNetworkingError`. Foundation's URL parser, JSON serialiser, JSON decoder
    and data task enter as functions supplied by the caller. */
module RestService {
  import opened Wrappers
  import opened Foundation
  import opened Resource
  import opened NetworkingError
  import opened Configuration

  /** `JSON`: a dictionary from keys to values of any type. */
  type JSON<J> = map<string, J>

  /** The Foundation services the pipeline calls: `URL(string:)` validity,
      `JSONSerialization.data(withJSONObject:)` (None when it throws), and a
      data task run on a session with the given configuration. */
  datatype Platform<!J> = Platform(
    isValidURL: string -> bool,
    serialize: JSON<J> -> Option<Data>,
    dataTask: (SessionConfiguration, URLRequest) -> TransportOutcome)

  /** A `Decodable` type token: the type's name as `String(describing:)`
      renders it, and what `JSONDecoder().decode` does with a body. */
  datatype PayloadType<X> = PayloadType(name: string, decode: Data -> Result<X, DecodingError>)

  const InvalidURLPrefix := "Invalid URL: "
  const ParsingFailurePrefix := "Failed parsing object: "

  /** The two URL error codes that mean the device is offline. */
  predicate IsConnectivityCode(code: int) {
    code == NotConnectedToInternet || code == NetworkConnectionLost
  }

  /** The `case 400, 402...599` branch of the status switch. */
  predicate IsErrorStatus(status: int) {
    status == 400 || 402 <= status <= 599
  }

  // ---------------------------------------------------------------------------
  // Request building

  /** The request the client sends for a valid URL: the resource's method, exactly
      the per-call headers, and a body only for a non-GET call whose parameters
      serialise. */
  function ExpectedRequest<J>(url: string, httpMethod: HTTPMethod, parameters: Option<JSON<J>>,
                              headers: Option<HTTPHeaders>, serialize: JSON<J> -> Option<Data>): (r: URLRequest)
  {
    URLRequest(url, RawValue(httpMethod), headers.GetOr(map[]),
               if httpMethod != Get && parameters.Some? then serialize(parameters.value) else None)
  }

  /** Joins base URL and route, stops at an invalid URL, then fills in the
      request's method, the per-call header fields one by one, and the body. */
  method BuildURLRequest<J, U>(baseURL: string, resource: JRResource, parameters: Option<JSON<J>>,
                               headers: Option<HTTPHeaders>, platform: Platform<J>)
    returns (r: Result<URLRequest, JRNetworkingError<U>>)
    ensures r.Failure? <==> !platform.isValidURL(baseURL + resource.route)
    ensures r.Failure? ==> r.error == InvalidRequestError(InvalidURLPrefix + baseURL + resource.route)
    ensures r.Success? ==>
              r.value == ExpectedRequest(baseURL + resource.route, resource.httpMethod, parameters, headers, platform.serialize)
  {
    var fullURLString := baseURL + resource.route;
    if !platform.isValidURL(fullURLString) {
      return Failure(InvalidRequestError(InvalidURLPrefix + fullURLString));
    }
    var urlRequest := NewURLRequest(fullURLString);
    urlRequest := urlRequest.(httpMethod := RawValue(resource.httpMethod));

    if headers.Some? {
      var fields := headers.value;
      var pending := fields.Keys;
      while pending != {}
        invariant pending <= fields.Keys
        invariant urlRequest.allHTTPHeaderFields == map k | k in fields.Keys - pending :: fields[k]
        invariant urlRequest.url == fullURLString && urlRequest.httpMethod == RawValue(resource.httpMethod)
        invariant urlRequest.httpBody.None?
        decreases pending
      {
        var key :| key in pending;
        urlRequest := SetValue(urlRequest, fields[key], key);
        pending := pending - {key};
      }
      assert fields.Keys - pending == fields.Keys;
      assert urlRequest.allHTTPHeaderFields == fields;
    }

    if resource.httpMethod != Get && parameters.Some? {
      var data := platform.serialize(parameters.value);
      if data.Some? {
        urlRequest := urlRequest.(httpBody := data);
      }
    }
    r := Success(urlRequest);
  }

  /** A GET request never carries a body, whatever the parameters. */
  lemma GetNeverHasBody<J>(url: string, parameters: Option<JSON<J>>, headers: Option<HTTPHeaders>,
                           serialize: JSON<J> -> Option<Data>)
    ensures ExpectedRequest(url, Get, parameters, headers, serialize).httpBody == None
  {
  }

  /** A body is attached iff the method is not GET, parameters are given and they
      serialise; a serialisation failure leaves the body empty instead of failing. */
  lemma BodyIffSerialised<J>(url: string, httpMethod: HTTPMethod, parameters: Option<JSON<J>>,
                             headers: Option<HTTPHeaders>, serialize: JSON<J> -> Option<Data>)
    ensures var body := ExpectedRequest(url, httpMethod, parameters, headers, serialize).httpBody;
            && (body.Some? <==> httpMethod != Get && parameters.Some? && serialize(parameters.value).Some?)
            && (body.Some? ==> body == serialize(parameters.value))
  {
  }

  /** The header fields are exactly the per-call headers: every per-call header is
      set with its value, and no other field (no configuration default) is present. */
  lemma HeadersAreExactlyPerCall<J>(url: string, httpMethod: HTTPMethod, parameters: Option<JSON<J>>,
                                    headers: Option<HTTPHeaders>, serialize: JSON<J> -> Option<Data>,
                                    configuration: ClientConfiguration)
    ensures var fields := ExpectedRequest(url, httpMethod, parameters, headers, serialize).allHTTPHeaderFields;
            && (headers.None? ==> fields == map[])
            && (headers.Some? ==> fields == headers.value)
            && (forall name :: name in configuration.httpHeaders && (headers.None? || name !in headers.value)
                  ==> name !in fields)
  {
  }

  // ---------------------------------------------------------------------------
  // Outcome classification

  /** The `mapError` stage: offline codes become `noInternetConnection`, every
      other transport error is wrapped unchanged in `unexpectedError`. */
  function MapTransportError<U>(error: URLError): (e: JRNetworkingError<U>)
    ensures e.NoInternetConnection? <==> IsConnectivityCode(error.code)
    ensures !e.NoInternetConnection? ==> e == UnexpectedError(URLFailure(error))
  {
    if error.code == NotConnectedToInternet || error.code == NetworkConnectionLost then NoInternetConnection
    else UnexpectedError(URLFailure(error))
  }

  /** The body of the `do` block on an error status: decode the body as the error
      type, then throw `apiError(status, payload)`. It always throws; the result is
      what it throws, the decoder's error or the `apiError`. */
  function ThrownByErrorDecoding<U>(status: int, data: Data, errorType: PayloadType<U>): (thrown: AnyError<U>)
    ensures thrown.Networking? <==> errorType.decode(data).Success?
    ensures thrown.Networking? ==> thrown.networkingError == ApiError(status, errorType.decode(data).value)
    ensures errorType.decode(data).Failure? ==> thrown == Decoding(errorType.decode(data).error)
  {
    match errorType.decode(data)
    case Success(payload) => Networking(ApiError(status, payload))
    case Failure(decodingError) => Decoding(decodingError)
  }

  /** The first `tryMap` stage: reject non-HTTP responses, then switch on the
      status. On 401 the `catch` replaces whatever the `do` block threw with
      `invalidResponse`; on 400 and 402-599 it wraps it in `parsingError` naming
      the success type. Any other status passes the body on. */
  function ValidateResponse<U>(data: Data, response: URLResponse, errorType: PayloadType<U>,
                               successTypeName: string): (r: Result<Data, JRNetworkingError<U>>)
    ensures r.Success? <==> response.HTTPURLResponse? && response.statusCode != 401 && !IsErrorStatus(response.statusCode)
    ensures r.Success? ==> r.value == data
    ensures r.Failure? ==> r.error.InvalidResponse? || r.error.ParsingError?
    ensures r.Failure? ==> (r.error.ParsingError? <==> response.HTTPURLResponse? && IsErrorStatus(response.statusCode))
    ensures r.Failure? && r.error.ParsingError? ==>
              && response.HTTPURLResponse? && IsErrorStatus(response.statusCode)
              && r.error.message == ParsingFailurePrefix + successTypeName
              && r.error.underlying == ThrownByErrorDecoding(response.statusCode, data, errorType)
  {
    match response
    case OtherURLResponse => Failure(InvalidResponse)
    case HTTPURLResponse(status) =>
      if status == 401 then
        Failure(InvalidResponse)
      else if IsErrorStatus(status) then
        Failure(ParsingError(ThrownByErrorDecoding(status, data, errorType), ParsingFailurePrefix + successTypeName))
      else
        Success(data)
  }

  /** The second `tryMap` stage: decode the body as the success type, or fail with
      `parsingError` carrying the decoder's error and naming the success type. */
  function DecodeSuccess<T, U>(data: Data, successType: PayloadType<T>): (r: Result<T, JRNetworkingError<U>>)
    ensures r.Success? <==> successType.decode(data).Success?
    ensures r.Success? ==> r.value == successType.decode(data).value
    ensures r.Failure? ==> r.error == ParsingError(Decoding(successType.decode(data).error), ParsingFailurePrefix + successType.name)
  {
    match successType.decode(data)
    case Success(value) => Success(value)
    case Failure(decodingError) => Failure(ParsingError(Decoding(decodingError), ParsingFailurePrefix + successType.name))
  }

  /** The whole response chain, `mapError` then `tryMap`, `map(\.data)` and `tryMap`:
      one terminal outcome per transport outcome. */
  function Classify<T, U>(outcome: TransportOutcome, successType: PayloadType<T>, errorType: PayloadType<U>)
    : (r: Result<T, JRNetworkingError<U>>)
    ensures r.Success? <==>
              && outcome.Delivered? && outcome.response.HTTPURLResponse?
              && outcome.response.statusCode != 401 && !IsErrorStatus(outcome.response.statusCode)
              && successType.decode(outcome.data).Success?
    ensures r.Success? ==> successType.decode(outcome.data) == Success(r.value)
    ensures r.Failure? ==> !r.error.ApiError? && !r.error.InvalidRequestError?
    ensures r.Failure? && (r.error.NoInternetConnection? || r.error.UnexpectedError?) <==> outcome.Failed?
    ensures r.Failure? && r.error.ParsingError? ==> r.error.message == ParsingFailurePrefix + successType.name
  {
    match outcome
    case Failed(error) => Failure(MapTransportError(error))
    case Delivered(data, response) =>
      match ValidateResponse(data, response, errorType, successType.name)
      case Failure(e) => Failure(e)
      case Success(body) => DecodeSuccess(body, successType)
  }

  /** A transport error maps to `noInternetConnection` exactly for the two offline
      codes and otherwise to `unexpectedError` wrapping that error. */
  lemma TransportErrorClassification<T, U>(error: URLError, successType: PayloadType<T>, errorType: PayloadType<U>)
    ensures Classify(Failed(error), successType, errorType) ==
            Failure(if IsConnectivityCode(error.code) then NoInternetConnection else UnexpectedError(URLFailure(error)))
  {
  }

  /** A response that is not an HTTP response is `invalidResponse`, whatever its body. */
  lemma NonHTTPResponseIsInvalid<T, U>(data: Data, successType: PayloadType<T>, errorType: PayloadType<U>)
    ensures Classify(Delivered(data, OtherURLResponse), successType, errorType) == Failure(InvalidResponse)
  {
  }

  /** Status 401 is `invalidResponse` whether or not the body decodes as the error
      type: the `apiError` thrown inside the `do` block is caught by its own `catch`. */
  lemma UnauthorizedIsInvalidResponse<T, U>(data: Data, successType: PayloadType<T>, errorType: PayloadType<U>)
    ensures Classify(Delivered(data, HTTPURLResponse(401)), successType, errorType) == Failure(InvalidResponse)
  {
  }

  /** Status 400 or 402-599 is always `parsingError` naming the success type; its
      cause is the `apiError` with the decoded payload when the error body decodes,
      and the decoder's error otherwise. */
  lemma ErrorStatusIsParsingError<T, U>(status: int, data: Data, successType: PayloadType<T>, errorType: PayloadType<U>)
    requires IsErrorStatus(status)
    ensures Classify(Delivered(data, HTTPURLResponse(status)), successType, errorType) ==
            Failure(ParsingError(
              match errorType.decode(data)
              case Success(payload) => Networking(ApiError(status, payload))
              case Failure(decodingError) => Decoding(decodingError),
              ParsingFailurePrefix + successType.name))
  {
  }

  /** Any other status decodes the body as the success type: the decoded value on
      success, `parsingError` with the decoder's error otherwise. */
  lemma OtherStatusDecodesSuccessType<T, U>(status: int, data: Data, successType: PayloadType<T>, errorType: PayloadType<U>)
    requires status != 401 && !IsErrorStatus(status)
    ensures Classify(Delivered(data, HTTPURLResponse(status)), successType, errorType) ==
            match successType.decode(data)
            case Success(value) => Success(value)
            case Failure(decodingError) => Failure(ParsingError(Decoding(decodingError), ParsingFailurePrefix + successType.name))
  {
  }

  /** `apiError` reaches the caller only nested inside `parsingError`, and only for
      an error status whose body decoded as the error type. */
  lemma ApiErrorOnlyNested<T, U>(outcome: TransportOutcome, successType: PayloadType<T>, errorType: PayloadType<U>)
    ensures var r := Classify(outcome, successType, errorType);
            r.Failure? && r.error.ParsingError? && r.error.underlying.Networking? ==>
              && r.error.underlying.networkingError.ApiError?
              && outcome.Delivered? && outcome.response.HTTPURLResponse?
              && IsErrorStatus(outcome.response.statusCode)
              && r.error.underlying.networkingError.statusCode == outcome.response.statusCode
              && errorType.decode(outcome.data) == Success(r.error.underlying.networkingError.error)
  {
  }

  // ---------------------------------------------------------------------------
  // The client

  /** `RestServiceClient`: the configuration's base URL, headers and session
      settings, fixed at construction. */
  class RestServiceClient {
    const baseURL: string
    const headers: HTTPHeaders
    const sessionConfiguration: SessionConfiguration

    /** `init(configuration:)`: copies three fields; the logout action is not kept. */
    constructor (configuration: ClientConfiguration)
      ensures baseURL == configuration.baseURL
      ensures headers == configuration.httpHeaders
      ensures sessionConfiguration == configuration.sessionConfiguration
    {
      baseURL := configuration.baseURL;
      headers := configuration.httpHeaders;
      sessionConfiguration := configuration.sessionConfiguration;
    }

    /** `request(resource:parameters:headers:type:errorType:)`. `sent` is the request
        handed to the data task, None when the URL is invalid and nothing is sent;
        `result` is the call's one terminal outcome. The `headers` parameter shadows
        the stored configuration headers, which are never applied. */
    method Request<T, U, J>(resource: JRResource, parameters: Option<JSON<J>> := None,
                            headers: Option<HTTPHeaders> := None, successType: PayloadType<T>,
                            errorType: PayloadType<U>, platform: Platform<J>)
      returns (sent: Option<URLRequest>, result: Result<T, JRNetworkingError<U>>)
      ensures sent.None? <==> !platform.isValidURL(baseURL + resource.route)
      ensures sent.None? ==> result == Failure(InvalidRequestError(InvalidURLPrefix + baseURL + resource.route))
      ensures sent.Some? ==>
                && sent.value == ExpectedRequest(baseURL + resource.route, resource.httpMethod, parameters, headers,
                                                 platform.serialize)
                && result == Classify(platform.dataTask(sessionConfiguration, sent.value), successType, errorType)
      ensures sent.Some? ==>
                forall name :: name in this.headers && (headers.None? || name !in headers.value) ==>
                  name !in sent.value.allHTTPHeaderFields
    {
      var built := BuildURLRequest<J, U>(baseURL, resource, parameters, headers, platform);
      if built.Failure? {
        return None, Failure(built.error);
      }
      sent := Some(built.value);
      var outcome := platform.dataTask(sessionConfiguration, built.value);
      result := Classify(outcome, successType, errorType);
    }
  }
}
