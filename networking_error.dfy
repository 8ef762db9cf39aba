/** The client's closed error taxonomy. */
module NetworkingError {
  import opened Foundation

  /** Swift's `Error` existential as far as the client produces it: a transport
      error, a decoding error, or one of the client's own errors. */
  datatype AnyError<P> =
    | URLFailure(urlError: URLError)
    | Decoding(decodingError: DecodingError)
    | Networking(networkingError: JRNetworkingError<P>)

  /** `JRNetworkingError`, with the decoded API error payload of type `P`. */
  datatype JRNetworkingError<P> =
    | InvalidRequestError(message: string)
    | InvalidResponse
    | NoInternetConnection
    | ApiError(statusCode: int, error: P)
    | UnexpectedError(underlying: AnyError<P>)
    | ParsingError(underlying: AnyError<P>, message: string)
}
