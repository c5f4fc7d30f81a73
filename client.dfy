/** The boundary with the REST client: query parameters, the transport that
    performs the signed GET, and the JSON round trip that turns its generic
    answer into an endpoint's response struct. */
module Client {
  import opened Wrappers

  /** client.Params: the query string of one GET, key to value. */
  type Params = map<string, string>

  type Bytes = seq<bv8>

  /** Which step of one fetch failed: the GET itself, json.Marshal of the
      generic answer, or json.Unmarshal into the endpoint's response shape.
      The cause is the underlying error's text. */
  datatype Error =
    | FetchError(cause: string)
    | MarshalError(cause: string)
    | DecodeError(cause: string)

  /** client.Client.Get and json.Marshal, which the model does not see into.
      Besides the path and the parameters, `get` is told how many fetches
      the same call has already made, so that a server may answer the same
      parameters differently over time. */
  datatype Transport<!J> = Transport(
    get: (nat, string, Params) -> Result<J, string>,
    marshal: J -> Result<Bytes, string>)

  /** json.Unmarshal into one endpoint's response struct; the caller picks it. */
  type Decoder<T> = Bytes -> Result<T, string>

  /** One GET, json.Marshal, json.Unmarshal cycle. The first step that fails
      decides the error; nothing decoded survives a failure. */
  function Fetch<J, T>(t: Transport<J>, n: nat, path: string, p: Params, decode: Decoder<T>): (r: Result<T, Error>)
    ensures r.Success? <==>
      && t.get(n, path, p).Success?
      && t.marshal(t.get(n, path, p).value).Success?
      && decode(t.marshal(t.get(n, path, p).value).value).Success?
    ensures r.Success? ==> r.value == decode(t.marshal(t.get(n, path, p).value).value).value
    ensures r.Failure? && r.error.FetchError? <==> t.get(n, path, p).Failure?
    ensures r.Failure? && r.error.FetchError? ==> r.error.cause == t.get(n, path, p).error
    ensures r.Failure? && r.error.MarshalError? ==>
      && t.get(n, path, p).Success?
      && t.marshal(t.get(n, path, p).value).Failure?
      && r.error.cause == t.marshal(t.get(n, path, p).value).error
    ensures r.Failure? && r.error.DecodeError? ==>
      && t.get(n, path, p).Success?
      && t.marshal(t.get(n, path, p).value).Success?
      && r.error.cause == decode(t.marshal(t.get(n, path, p).value).value).error
  {
    match t.get(n, path, p)
    case Failure(cause) => Failure(FetchError(cause))
    case Success(response) =>
      match t.marshal(response)
      case Failure(cause) => Failure(MarshalError(cause))
      case Success(data) =>
        match decode(data)
        case Failure(cause) => Failure(DecodeError(cause))
        case Success(v) => Success(v)
  }
}
