/** The immutable configuration a client is created from. */
module Configuration {
  import opened Wrappers
  import opened Foundation
  import opened Resource

  /** The identity of a caller-supplied logout closure; the closure itself is opaque. */
  datatype LogOutAction = LogOutAction(id: nat)

  /** `ClientConfiguration` and its initializer, with the same defaults. */
  datatype ClientConfiguration = ClientConfiguration(
    baseURL: string,
    httpHeaders: HTTPHeaders,
    sessionConfiguration: SessionConfiguration := DefaultSession,
    logOutAction: Option<LogOutAction> := None)

  /** Omitting the last two initializer arguments gives the default session and no logout action. */
  lemma InitializerDefaults(baseURL: string, httpHeaders: HTTPHeaders)
    ensures ClientConfiguration(baseURL, httpHeaders).baseURL == baseURL
    ensures ClientConfiguration(baseURL, httpHeaders).httpHeaders == httpHeaders
    ensures ClientConfiguration(baseURL, httpHeaders).sessionConfiguration == DefaultSession
    ensures ClientConfiguration(baseURL, httpHeaders).logOutAction == None
  {
  }
}
