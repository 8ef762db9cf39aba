/** Resource descriptors: the HTTP method enumeration with its raw strings,
    the (method, route) pair a resource exposes, and header dictionaries. */
module Resource {
  import opened Wrappers

  /** `HTTPHeaders`: header name to a single value. */
  type HTTPHeaders = map<string, string>

  datatype HTTPMethod = Get | Post | Put | Delete

  /** The enum's `rawValue`. */
  function RawValue(m: HTTPMethod): (s: string) {
    match m
    case Get => "GET"
    case Post => "POST"
    case Put => "PUT"
    case Delete => "DELETE"
  }

  /** `HTTPMethod(rawValue:)`: the case whose raw value is `raw`, if any. */
  function FromRawValue(raw: string): (m: Option<HTTPMethod>)
    ensures m.Some? ==> RawValue(m.value) == raw
    ensures m.None? ==> forall k: HTTPMethod :: RawValue(k) != raw
  {
    if raw == "GET" then Some(Get)
    else if raw == "POST" then Some(Post)
    else if raw == "PUT" then Some(Put)
    else if raw == "DELETE" then Some(Delete)
    else None
  }

  /** Distinct cases have distinct raw values. */
  lemma RawValueInjective(m1: HTTPMethod, m2: HTTPMethod)
    ensures RawValue(m1) == RawValue(m2) ==> m1 == m2
  {
  }

  /** Reading a case's raw value back gives the same case. */
  lemma RawValueRoundTrip(m: HTTPMethod)
    ensures FromRawValue(RawValue(m)) == Some(m)
  {
  }

  /** The resource a call targets: its method and its route, used verbatim. */
  datatype JRResource = JRResource(httpMethod: HTTPMethod, route: string)
}
