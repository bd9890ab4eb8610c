/**
 * The dispatcher: building the URL and the request from a resource, the
 * cancellation policy's URL matching, the sweep that cancels running tasks,
 * and the classification of a completed task into the caller's outcome and
 * the behaviour hooks.
 */
module WebServices {
  import opened Foundation
  import opened Errors
  import opened HeaderProviders
  import opened Resources
  import opened RequestBehaviors

  /** `Webservice.validResponseCodes`. */
  const ValidResponseCodes: seq<int> := [200, 201, 204]

  /** Foundation's error domain and codes that the completion handler tests. */
  const URLErrorDomain: string := "NSURLErrorDomain"
  const URLErrorCancelled: int := -999
  const URLErrorNotConnectedToInternet: int := -1009

  /** `LoadResult<T>`: what the caller's completion receives. */
  datatype LoadResult<T> = Succeeded(value: T) | Failed(error: Error)

  /** Names an `UnauthorizedResponseHandler` supplied by the application. */
  type HandlerId = string

  // ---------------------------------------------------------------------
  // Building the URL and the request

  /** The components `url(for:)` assembles from the base URL and the resource. */
  function ComponentsFor<A>(resource: Resource<A>, baseURL: URL): (c: URLComponents)
    requires baseURL.scheme.Some?
    ensures c.scheme == baseURL.scheme && c.host == baseURL.host && c.port == baseURL.port
    ensures c.path == URLPath(baseURL) + resource.endpoint
    ensures c.queryItems.Some? <==> resource.query.Some? && resource.query.value != []
    ensures c.queryItems.Some? ==> c.queryItems == resource.query
    ensures c.fragment == None
  {
    var query := if resource.query.Some? && resource.query.value != [] then resource.query else None;
    EmptyComponents.(scheme := baseURL.scheme, host := baseURL.host, port := baseURL.port,
                     path := URLPath(baseURL) + resource.endpoint, queryItems := query)
  }

  /** `url(for:)`; the source force-unwraps both the base URL's scheme and the built URL. */
  function URLFor<A>(resource: Resource<A>, baseURL: URL, platform: Platform): (u: URL)
    requires baseURL.scheme.Some? && platform.formsURL(ComponentsFor(resource, baseURL))
    ensures u == ComponentsFor(resource, baseURL) && platform.formsURL(u)
  {
    ComponentsFor(resource, baseURL)
  }

  /** `HttpMethod.name`. */
  function Name<B>(m: HttpMethod<B>): string {
    match m
    case Get(_) => "GET"
    case Post(_) => "POST"
    case Put(_) => "PUT"
    case Delete(_) => "DELETE"
  }

  /** `HttpMethod.map(f:)`: the same verb, with `f` applied to the body when there is one. */
  function MapMethod<B, C>(m: HttpMethod<B>, f: B --> C): (r: HttpMethod<C>)
    requires m.body.Some? ==> f.requires(m.body.value)
    ensures r.Get? == m.Get? && r.Post? == m.Post? && r.Put? == m.Put? && r.Delete? == m.Delete?
    ensures r.body.None? <==> m.body.None?
    ensures m.body.Some? ==> r.body == Some(f(m.body.value))
  {
    var body := match m.body case Some(b) => Some(f(b)) case None => None;
    match m
    case Get(_) => Get(body)
    case Post(_) => Post(body)
    case Put(_) => Put(body)
    case Delete(_) => Delete(body)
  }

  /** Mapping the body keeps the verb's name. */
  lemma NamePreservedByMap<B, C>(m: HttpMethod<B>, f: B --> C)
    requires m.body.Some? ==> f.requires(m.body.value)
    ensures Name(MapMethod(m, f)) == Name(m)
  {
  }

  /** The four names, one per verb. */
  lemma NamesOfVerbs<B>(body: Option<B>)
    ensures Name(Get(body)) == "GET" && Name(Post(body)) == "POST"
    ensures Name(Put(body)) == "PUT" && Name(Delete(body)) == "DELETE"
  {
  }

  /**
   * Whether `JSONSerialization.data(withJSONObject:)` accepts the body: data
   * is sent as it is, and a JSON body must be an array or an object at the
   * top level (anything else raises an Objective-C exception that `try!` does not catch, and the process crashes).
   */
  predicate SerialisableBody(b: Body) {
    b.JsonBody? ==> b.json.JArray? || b.json.JObject?
  }

  /** The closure given to `map` in `URLRequest.init`: data is sent as it is, anything else as JSON. */
  function BodyData(b: Body, platform: Platform): (d: Data)
    requires SerialisableBody(b)
    ensures b.RawData? ==> d == b.data
    ensures b.JsonBody? ==> d == platform.serialize(b.json)
  {
    match b
    case RawData(data) => data
    case JsonBody(json) => platform.serialize(json)
  }

  /** The headers of the resource's provider, none when it has no provider. */
  ghost function ProviderHeaders<A>(resource: Resource<A>): HeaderList
    reads if resource.headerProvider.Some? then {resource.headerProvider.value} else {}
  {
    match resource.headerProvider
    case Some(p) => p.Value
    case None => []
  }

  /**
   * `URLRequest.init(resource:baseURL:additionalHeaders:)`: the resource's URL,
   * its verb's name, its body mapped to bytes, then the provider's headers and
   * the additional headers, each added in order.
   */
  method BuildRequest<A>(resource: Resource<A>, baseURL: URL, additionalHeaders: HeaderList, platform: Platform)
    returns (request: URLRequest)
    requires baseURL.scheme.Some? && platform.formsURL(ComponentsFor(resource, baseURL))
    requires resource.headerProvider.Some? ==> resource.headerProvider.value.Valid()
    requires resource.httpMethod.body.Some? ==> SerialisableBody(resource.httpMethod.body.value)
    ensures request.url == URLFor(resource, baseURL, platform)
    ensures request.httpMethod == Name(resource.httpMethod)
    ensures resource.httpMethod.body.None? ==> request.httpBody == None
    ensures resource.httpMethod.body.Some? ==>
      request.httpBody == Some(BodyData(resource.httpMethod.body.value, platform))
    ensures request.headers == ProviderHeaders(resource) + additionalHeaders
    ensures request.cachePolicy == UseProtocolCachePolicy
  {
    request := NewRequest(URLFor(resource, baseURL, platform));
    var mapped := MapMethod(resource.httpMethod, (b: Body) requires SerialisableBody(b) => BodyData(b, platform));
    request := request.(httpMethod := Name(mapped));
    match mapped {
      case Get(data) => request := request.(httpBody := data);
      case Post(data) => request := request.(httpBody := data);
      case Put(data) => request := request.(httpBody := data);
      case Delete(data) => request := request.(httpBody := data);
    }
    ghost var built := request;
    if resource.headerProvider.Some? {
      var headers := resource.headerProvider.value.Headers();
      for i := 0 to |headers|
        invariant request == built.(headers := headers[..i])
      {
        var (header, value) := headers[i];
        request := AddValue(request, value, header);
        assert headers[..i + 1] == headers[..i] + [headers[i]];
      }
      assert headers[..|headers|] == headers;
    }
    ghost var provided := request;
    for i := 0 to |additionalHeaders|
      invariant request == provided.(headers := provided.headers + additionalHeaders[..i])
    {
      var (header, value) := additionalHeaders[i];
      request := AddValue(request, value, header);
      assert additionalHeaders[..i + 1] == additionalHeaders[..i] + [additionalHeaders[i]];
    }
    assert additionalHeaders[..|additionalHeaders|] == additionalHeaders;
  }

  // ---------------------------------------------------------------------
  // Cancellation policy

  /** `CancellationPolicy.matches(url:with:)`: does starting `url` supersede the running `with`? */
  function Matches(policy: CancellationPolicy, url: URL, with: URL, platform: Platform): bool {
    match policy
    case NoCancellation => false
    case Path => URLPath(url) == URLPath(with)
    case Uri => url.path == with.path && url.queryItems == with.queryItems
    case Pattern(pattern) => platform.regexFinds(pattern, with)
  }

  /** What each policy decides, stated per policy. */
  lemma MatchesByPolicy(url: URL, with: URL, pattern: string, other: URL, platform: Platform)
    ensures !Matches(NoCancellation, url, with, platform)
    ensures Matches(Path, url, with, platform) <==> URLPath(url) == URLPath(with)
    ensures Matches(Uri, url, with, platform) <==> url.path == with.path && url.queryItems == with.queryItems
    ensures Matches(Pattern(pattern), url, with, platform) == Matches(Pattern(pattern), other, with, platform)
  {
  }

  /** The `uri` policy ignores fragments. */
  lemma UriIgnoresFragment(url: URL, with: URL, f: Option<string>, g: Option<string>, platform: Platform)
    ensures Matches(Uri, url.(fragment := f), with.(fragment := g), platform) == Matches(Uri, url, with, platform)
  {
  }

  /**
   * Two requests for the same endpoint on the same base URL that differ only in
   * their non-empty queries: `path` cancels, `uri` does not.
   */
  lemma PathAndUriOnQueries<A>(r: Resource<A>, q1: seq<QueryItem>, q2: seq<QueryItem>, baseURL: URL, platform: Platform)
    requires baseURL.scheme.Some? && q1 != [] && q2 != []
    ensures var u1 := ComponentsFor(r.(query := Some(q1)), baseURL);
      var u2 := ComponentsFor(r.(query := Some(q2)), baseURL);
      && Matches(Path, u1, u2, platform)
      && (Matches(Uri, u1, u2, platform) <==> q1 == q2)
  {
  }

  /**
   * `path` reads `URL.path`, which drops a trailing slash, while `uri` reads
   * the components' path, which keeps it: the two policies part on "/a/" and "/a".
   */
  lemma TrailingSlashSplitsPolicies(u: URL, p: string, platform: Platform)
    requires p != "" && p[|p| - 1] != '/'
    ensures Matches(Path, u.(path := p + "/"), u.(path := p), platform)
    ensures !Matches(Uri, u.(path := p + "/"), u.(path := p), platform)
  {
    assert (p + "/")[..|p|] == p;
  }

  /** A base URL's trailing slash is dropped before the endpoint is appended. */
  lemma BaseTrailingSlashDropped<A>(r: Resource<A>, baseURL: URL, p: string)
    requires baseURL.scheme.Some? && p != "" && baseURL.path == p + "/"
    ensures ComponentsFor(r, baseURL).path == p + r.endpoint
  {
    assert (p + "/")[..|p|] == p;
  }

  // ---------------------------------------------------------------------
  // The cancellation sweep

  /** `URLSessionTask.State`. */
  datatype TaskState = Running | Suspended | Canceling | Completed

  /** A task of the session, with the URL of its original request. */
  datatype Task = Task(url: URL, state: TaskState)

  /** The sweep's test for one running task. */
  predicate ShouldCancel(policy: CancellationPolicy, matchURL: URL, t: Task, platform: Platform) {
    Matches(policy, matchURL, t.url, platform) && t.state != Completed && t.state != Canceling
  }

  /** The tasks after the sweep: each one it should cancel is canceling, the rest are untouched. */
  function Swept(policy: CancellationPolicy, matchURL: URL, tasks: seq<Task>, platform: Platform): (r: seq<Task>)
    ensures |r| == |tasks|
  {
    seq(|tasks|, i requires 0 <= i < |tasks| =>
      if ShouldCancel(policy, matchURL, tasks[i], platform) then tasks[i].(state := Canceling) else tasks[i])
  }

  /** The sweep loop of `request`: `cancel()` on every matching task still in progress. */
  method Sweep(policy: CancellationPolicy, matchURL: URL, tasks: array<Task>, platform: Platform)
    modifies tasks
    ensures tasks[..] == Swept(policy, matchURL, old(tasks[..]), platform)
  {
    for i := 0 to tasks.Length
      invariant tasks[..i] == Swept(policy, matchURL, old(tasks[..]), platform)[..i]
      invariant forall k :: i <= k < tasks.Length ==> tasks[k] == old(tasks[k])
    {
      var running := tasks[i];
      if Matches(policy, matchURL, running.url, platform) {
        if running.state != Completed && running.state != Canceling {
          tasks[i] := running.(state := Canceling);
        }
      }
      assert tasks[..i + 1] == tasks[..i] + [tasks[i]];
    }
    assert tasks[..] == tasks[..tasks.Length];
  }

  /**
   * The sweep cancels exactly the matching tasks that were neither completed nor
   * canceling; every other task keeps its state; every task keeps its URL.
   */
  lemma SweptCancelsExactly(policy: CancellationPolicy, matchURL: URL, tasks: seq<Task>, platform: Platform, i: nat)
    requires i < |tasks|
    ensures var after := Swept(policy, matchURL, tasks, platform)[i];
      && after.url == tasks[i].url
      && (ShouldCancel(policy, matchURL, tasks[i], platform) ==> after.state == Canceling)
      && (!ShouldCancel(policy, matchURL, tasks[i], platform) ==> after == tasks[i])
      && (after.state != tasks[i].state <==> ShouldCancel(policy, matchURL, tasks[i], platform))
  {
  }

  /** After the sweep no matching task is still running or suspended, and sweeping again changes nothing. */
  lemma SweptSettles(policy: CancellationPolicy, matchURL: URL, tasks: seq<Task>, platform: Platform)
    ensures var after := Swept(policy, matchURL, tasks, platform);
      && (forall i :: 0 <= i < |after| ==> !ShouldCancel(policy, matchURL, after[i], platform))
      && Swept(policy, matchURL, after, platform) == after
  {
  }

  /** With no policy the sweep cancels nothing. */
  lemma NoPolicySweepsNothing(matchURL: URL, tasks: seq<Task>, platform: Platform)
    ensures Swept(NoCancellation, matchURL, tasks, platform) == tasks
  {
  }

  // ---------------------------------------------------------------------
  // Classifying a completed task

  /**
   * How the completion handler reads the parser's result: as a value, an error,
   * or neither (it reads a `(value?, error?)` pair, the value taking precedence).
   */
  datatype ParseOutcome<A> = Value(value: A) | ErrorOnly(error: Error) | Neither

  /** The reading of a `ParseResult`. */
  function Reading<A>(p: ParseResult<A>): ParseOutcome<A> {
    match p
    case Parsed(v) => Value(v)
    case ParseFailed(e) => ErrorOnly(e)
  }

  /**
   * A parse result as `Resource.swift` declares it always has a value or an
   * error, so the completion handler's `DataError.parse` fallback is unreachable.
   */
  lemma ReadingNeverNeither<A>(p: ParseResult<A>)
    ensures Reading(p) != Neither
    ensures Reading(p).Value? <==> p.Parsed?
  {
  }

  /**
   * One observable step of a completion, in order: the caller's completion, the
   * composite behaviour's `afterComplete()` or `afterFailure(error:)`, and the
   * unauthorized handler.
   */
  datatype Step<A> =
    | Deliver(result: LoadResult<A>)
    | NotifyComplete
    | NotifyFailure(error: Error)
    | NotifyUnauthorized(handler: HandlerId, request: URLRequest, status: int)

  predicate IsCancelled(e: TransportError) {
    e.domain == URLErrorDomain && e.code == URLErrorCancelled
  }

  predicate IsNoConnectivity(e: TransportError) {
    e.domain == URLErrorDomain && e.code == URLErrorNotConnectedToInternet
  }

  /** The `success` closure: the completion with the value, then `afterComplete()`. */
  function Succeed<A>(value: A): seq<Step<A>> {
    [Deliver(Succeeded(value)), NotifyComplete]
  }

  /** The `failure` closure: the completion with the error, then `afterFailure(error:)`. */
  function Fail<A>(error: Error): seq<Step<A>> {
    [Deliver(Failed(error)), NotifyFailure(error)]
  }

  /** The error for a status outside the valid codes: the resource's own, if its handler gives one. */
  function StatusError<A>(resource: Resource<A>, status: int, data: Option<Data>): (e: Error)
    ensures resource.errorResponseHandler.Some? && resource.errorResponseHandler.value(status, data).Some? ==>
      e == resource.errorResponseHandler.value(status, data).value
    ensures resource.errorResponseHandler.None? || resource.errorResponseHandler.value(status, data).None? ==>
      e == Wrap(NetworkKind(HttpError(status)))
  {
    var fallback := Wrap(NetworkKind(HttpError(status)));
    match resource.errorResponseHandler
    case None => fallback
    case Some(handler) => handler(status, data).GetOr(fallback)
  }

  /** Whether the transport error is the "no connectivity" case, which the source requires to name its failing URL. */
  predicate WellFormedTransportError(error: Option<TransportError>) {
    error.Some? && IsNoConnectivity(error.value) ==> error.value.failingURL.Some?
  }

  /**
   * The completion handler of the data task. `status` is present when the
   * response is an HTTP response. Exactly one outcome reaches the caller unless
   * the task was cancelled; the outcome is paired with the matching behaviour
   * hook; a 401 then reaches the unauthorized handler, if there is one.
   */
  function Classify<A>(resource: Resource<A>, request: URLRequest, unauthorizedHandler: Option<HandlerId>,
                       data: Option<Data>, status: Option<int>, error: Option<TransportError>): (steps: seq<Step<A>>)
    requires WellFormedTransportError(error)
    ensures error.Some? && IsCancelled(error.value) ==> steps == [NotifyComplete]
    ensures !(error.Some? && IsCancelled(error.value)) ==>
      && 2 <= |steps| <= 3
      && steps[0].Deliver?
      && steps[1] == (match steps[0].result case Succeeded(_) => NotifyComplete case Failed(e) => NotifyFailure(e))
      && (|steps| == 3 <==>
            && !(error.Some? && IsNoConnectivity(error.value))
            && status == Some(401)
            && unauthorizedHandler.Some?)
      && (|steps| == 3 ==> steps[2] == NotifyUnauthorized(unauthorizedHandler.value, request, 401))
  {
    if error.Some? && IsCancelled(error.value) then
      [NotifyComplete]
    else if error.Some? && IsNoConnectivity(error.value) then
      Fail(Wrap(NetworkKind(NoConnection(error.value.code, error.value.failingURL.value))))
    else if status.Some? && status.value !in ValidResponseCodes then
      Fail(StatusError(resource, status.value, data)) +
        (if status.value == 401 && unauthorizedHandler.Some?
         then [NotifyUnauthorized(unauthorizedHandler.value, request, status.value)] else [])
    else if data.Some? then
      match Reading(resource.parse(data.value))
      case Value(v) => Succeed(v)
      case ErrorOnly(e) => Fail(e)
      case Neither => Fail(UndefinedParse)
    else
      Fail(if error.Some? then Transport(error.value) else Wrap(NetworkKind(HttpError(-1))))
  }

  /** The outcome the caller receives, when the task was not cancelled. */
  function Outcome<A>(steps: seq<Step<A>>): Option<LoadResult<A>> {
    if |steps| > 0 && steps[0].Deliver? then Some(steps[0].result) else None
  }

  /** A cancelled task reaches no completion; only `afterComplete()` runs. */
  lemma CancelledIsSilent<A>(resource: Resource<A>, request: URLRequest, handler: Option<HandlerId>,
                             data: Option<Data>, status: Option<int>, error: TransportError)
    requires IsCancelled(error)
    ensures Outcome(Classify(resource, request, handler, data, status, Some(error))) == None
  {
  }

  /** No connectivity fails with `noConnection(code, failingURL)`, whatever the response. */
  lemma NoConnectivityFails<A>(resource: Resource<A>, request: URLRequest, handler: Option<HandlerId>,
                               data: Option<Data>, status: Option<int>, error: TransportError)
    requires IsNoConnectivity(error) && error.failingURL.Some?
    ensures Outcome(Classify(resource, request, handler, data, status, Some(error))) ==
      Some(Failed(Wrap(NetworkKind(NoConnection(URLErrorNotConnectedToInternet, error.failingURL.value)))))
  {
  }

  /**
   * A status outside 200, 201 and 204 fails with the handler's error or
   * `httpError(status)`, whatever the body; 401 then notifies the unauthorized
   * handler after the failure hook.
   */
  lemma InvalidStatusFails<A>(resource: Resource<A>, request: URLRequest, handler: Option<HandlerId>,
                              data: Option<Data>, status: int, error: Option<TransportError>)
    requires WellFormedTransportError(error)
    requires !(error.Some? && (IsCancelled(error.value) || IsNoConnectivity(error.value)))
    requires status !in ValidResponseCodes
    ensures var steps := Classify(resource, request, handler, data, Some(status), error);
      && steps[..2] == [Deliver(Failed(StatusError(resource, status, data))), NotifyFailure(StatusError(resource, status, data))]
      && (status == 401 && handler.Some? ==> steps == steps[..2] + [NotifyUnauthorized(handler.value, request, 401)])
      && (status != 401 || handler.None? ==> |steps| == 2)
  {
  }

  /** With a valid or non-HTTP response and a body, the request succeeds exactly when the parser gives a value. */
  lemma BodyIsParsed<A>(resource: Resource<A>, request: URLRequest, handler: Option<HandlerId>,
                        data: Data, status: Option<int>, error: Option<TransportError>)
    requires WellFormedTransportError(error)
    requires !(error.Some? && (IsCancelled(error.value) || IsNoConnectivity(error.value)))
    requires status.None? || status.value in ValidResponseCodes
    ensures var outcome := Outcome(Classify(resource, request, handler, Some(data), status, error));
      && (resource.parse(data).Parsed? ==> outcome == Some(Succeeded(resource.parse(data).value)))
      && (resource.parse(data).ParseFailed? ==> outcome == Some(Failed(resource.parse(data).error)))
  {
  }

  /** With a valid or non-HTTP response and no body, the request fails with the transport's error or `httpError(-1)`. */
  lemma MissingBodyFails<A>(resource: Resource<A>, request: URLRequest, handler: Option<HandlerId>,
                            status: Option<int>, error: Option<TransportError>)
    requires WellFormedTransportError(error)
    requires !(error.Some? && (IsCancelled(error.value) || IsNoConnectivity(error.value)))
    requires status.None? || status.value in ValidResponseCodes
    ensures Outcome(Classify(resource, request, handler, None, status, error)) ==
      Some(Failed(if error.Some? then Transport(error.value) else Wrap(NetworkKind(HttpError(-1)))))
  {
  }

  // ---------------------------------------------------------------------
  // The web service

  /** `Webservice`: a base URL, an optional unauthorized handler, and a behaviour the application may replace. */
  class Webservice {
    const baseURL: URL
    const unauthorizedResponseHandler: Option<HandlerId>
    var behavior: RequestBehavior

    /** `init(baseURL:unauthorizedResponseHandler:session:)`, with the empty behaviour. */
    constructor (baseURL: URL, unauthorizedResponseHandler: Option<HandlerId> := None)
      ensures this.baseURL == baseURL && this.unauthorizedResponseHandler == unauthorizedResponseHandler
      ensures behavior == Empty
    {
      this.baseURL := baseURL;
      this.unauthorizedResponseHandler := unauthorizedResponseHandler;
      behavior := Empty;
    }

    /**
     * `request(_:withBehavior:completion:)`, run to completion: build the request
     * with the composed behaviour's headers, sweep the session's running tasks,
     * call `beforeSend()`, and classify the transport's answer (`data`, the HTTP
     * `status`, `error`).
     */
    method Request<A>(resource: Resource<A>, additionalBehavior: RequestBehavior, tasks: array<Task>,
                      platform: Platform, data: Option<Data>, status: Option<int>, error: Option<TransportError>)
      returns (request: URLRequest, sent: seq<Effect>, steps: seq<Step<A>>)
      requires baseURL.scheme.Some? && platform.formsURL(ComponentsFor(resource, baseURL))
      requires resource.headerProvider.Some? ==> resource.headerProvider.value.Valid()
      requires resource.httpMethod.body.Some? ==> SerialisableBody(resource.httpMethod.body.value)
      requires WellFormedTransportError(error)
      modifies tasks
      ensures request.url == URLFor(resource, baseURL, platform)
      ensures request.httpMethod == Name(resource.httpMethod)
      ensures resource.httpMethod.body.None? ==> request.httpBody == None
      ensures resource.httpMethod.body.Some? ==>
        request.httpBody == Some(BodyData(resource.httpMethod.body.value, platform))
      ensures request.headers == ProviderHeaders(resource) + AdditionalHeaders(behavior) + AdditionalHeaders(additionalBehavior)
      ensures request.cachePolicy == UseProtocolCachePolicy
      ensures tasks[..] == Swept(resource.cancellationPolicy, request.url, old(tasks[..]), platform)
      ensures |sent| == |Observers(behavior) + Observers(additionalBehavior)|
      ensures forall i :: 0 <= i < |sent| ==> sent[i] == Effect((Observers(behavior) + Observers(additionalBehavior))[i], BeforeSend)
      ensures steps == Classify(resource, request, unauthorizedResponseHandler, data, status, error)
    {
      var composed := Composite([behavior, additionalBehavior]);
      PairOrder(behavior, additionalBehavior);
      request := BuildRequest(resource, baseURL, AdditionalHeaders(composed), platform);
      Sweep(resource.cancellationPolicy, request.url, tasks, platform);
      sent := Notify(composed, BeforeSend);
      steps := Classify(resource, request, unauthorizedResponseHandler, data, status, error);
    }
  }
}
