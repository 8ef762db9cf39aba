/** The parts of Apple's Foundation framework that the client touches, reduced
    to the values it reads: bytes, URL errors, responses, session settings and
    the mutable request value it builds. */
module Foundation {
  import opened Wrappers

  newtype Byte = x: int | 0 <= x < 256

  /** `Data`: an opaque byte buffer (request and response bodies). */
  type Data = seq<Byte>

  /** Raw values of `URLError.Code` (NSURLErrorDomain) that the client tests for. */
  const NotConnectedToInternet: int := -1009
  const NetworkConnectionLost: int := -1005

  /** A transport failure as delivered by a data task; only its code is inspected. */
  datatype URLError = URLError(code: int)

  /** The error a `JSONDecoder` throws; its contents are never inspected. */
  datatype DecodingError = DecodingError(description: string)

  /** What a data task delivers besides the body: an `HTTPURLResponse` with its
      status code, or some other kind of `URLResponse`. */
  datatype URLResponse = HTTPURLResponse(statusCode: int) | OtherURLResponse

  /** `URLSessionConfiguration`, carried as an opaque token. */
  datatype SessionConfiguration = DefaultSession | CustomSession(id: nat)

  /** The single event a data task publisher ends with. */
  datatype TransportOutcome =
    | Failed(error: URLError)
    | Delivered(data: Data, response: URLResponse)

  /** `URLRequest`: the value the client fills in step by step. */
  datatype URLRequest = URLRequest(
    url: string,
    httpMethod: string,
    allHTTPHeaderFields: map<string, string>,
    httpBody: Option<Data>)

  /** `URLRequest(url:)`: method GET, no header fields, no body. */
  function NewURLRequest(url: string): (r: URLRequest) {
    URLRequest(url, "GET", map[], None)
  }

  /** `setValue(_:forHTTPHeaderField:)`: the field now holds `value`, replacing any earlier value. */
  function SetValue(request: URLRequest, value: string, field: string): (r: URLRequest)
    ensures r.allHTTPHeaderFields.Keys == request.allHTTPHeaderFields.Keys + {field}
    ensures r.allHTTPHeaderFields[field] == value
    ensures forall f :: f in request.allHTTPHeaderFields && f != field ==>
              r.allHTTPHeaderFields[f] == request.allHTTPHeaderFields[f]
    ensures r.url == request.url && r.httpMethod == request.httpMethod && r.httpBody == request.httpBody
  {
    request.(allHTTPHeaderFields := request.allHTTPHeaderFields[field := value])
  }
}
