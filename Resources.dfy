/**
 * The typed request description: the HTTP method with its optional body, the
 * cancellation policy, the parse result, and the immutable `Resource` record.
 */
module Resources {
  import opened Foundation
  import opened Errors
  import opened HeaderProviders

  /** `HttpMethod<Body>`: four verbs, each with an optional body. */
  datatype HttpMethod<Body> =
    | Get(body: Option<Body>)
    | Post(body: Option<Body>)
    | Put(body: Option<Body>)
    | Delete(body: Option<Body>)

  /**
   * `CancellationPolicy`; `NoCancellation` is the source's `.none`, renamed so
   * that it does not shadow the empty `Option`.
   */
  datatype CancellationPolicy =
    | NoCancellation
    | Path
    | Uri
    | Pattern(pattern: string)

  /** `ParseResult<T>`: a parsed value or an error, never both and never neither. */
  datatype ParseResult<T> = Parsed(value: T) | ParseFailed(error: Error)

  /**
   * The body values a resource can carry (`Any` in the source): raw bytes, sent
   * as they are, or a JSON object, serialised before sending.
   */
  datatype Body = RawData(data: Data) | JsonBody(json: Json)

  /** `Resource<A>`: every field is set once, by the initialiser. */
  datatype Resource<A> = Resource(
    endpoint: string,
    httpMethod: HttpMethod<Body>,
    query: Option<seq<QueryItem>>,
    headerProvider: Option<HeaderProvider>,
    parse: Data -> ParseResult<A>,
    errorResponseHandler: Option<(int, Option<Data>) -> Option<Error>>,
    cancellationPolicy: CancellationPolicy)

  /**
   * `Resource.init`: stores each argument in the field of the same name; all but
   * the endpoint and the parser have defaults.
   */
  function NewResource<A>(
    endpoint: string,
    parse: Data -> ParseResult<A>,
    httpMethod: HttpMethod<Body> := Get(None),
    query: Option<seq<QueryItem>> := None,
    headerProvider: Option<HeaderProvider> := None,
    cancellationPolicy: CancellationPolicy := NoCancellation,
    errorResponseHandler: Option<(int, Option<Data>) -> Option<Error>> := None): (r: Resource<A>)
    ensures r.endpoint == endpoint && r.parse == parse && r.httpMethod == httpMethod
    ensures r.query == query && r.headerProvider == headerProvider
    ensures r.cancellationPolicy == cancellationPolicy
    ensures r.errorResponseHandler == errorResponseHandler
  {
    Resource(endpoint, httpMethod, query, headerProvider, parse, errorResponseHandler, cancellationPolicy)
  }

  /** A resource built from the endpoint and parser alone has the documented defaults. */
  lemma ResourceDefaults<A>(endpoint: string, parse: Data -> ParseResult<A>)
    ensures var r := NewResource(endpoint, parse);
      && r.httpMethod == Get(None)
      && r.query == None
      && r.headerProvider == None
      && r.cancellationPolicy == NoCancellation
      && r.errorResponseHandler == None
  {
  }
}
