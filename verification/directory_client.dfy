/**
 * The bridge's network operations: `fetchHub`, the memoised
 * `loadServices`, and `fetch` by service id. The HTTP client is an injected
 * total function from request to response; each operation returns, besides
 * its result, the service-list cache after the call and the requests it
 * issued, in order.
 */
module DirectoryClient {
  import opened Wrappers
  import opened ServiceDirectory
  import opened Subsequence
  import Urls
  import Installation
  import Strings

  /** One request handed to the HTTP client; `None` params stand for `undefined`. */
  datatype Request<P> = Request(url: string, params: Option<P>)

  datatype Error =
    | ServiceNotFound(message: string)   // `fetch` of an id with no reachable service
    | ReadOnlyMode(message: string)      // a capability refused in read-only mode
    | RequestFailed(reason: string)      // the HTTP client rejected
    | ServiceListMissing                 // the hub's answer had no `services`, so `.filter` threw

  /** The service list once fetched; `None` until a fetch delivered one. */
  type Cache = Option<seq<Service>>

  /**
   * The bridge's collaborators: the hub's base URL, the static widget
   * configuration, the HTTP client, and the reading of `data && data.services`
   * from a hub response.
   */
  datatype Env<!P, !R, C> = Env(
    serverUri: string,
    config: C,
    send: Request<P> -> Result<R, string>,
    servicesOf: R -> Option<seq<Service>>)

  /**
   * The collaborators of the bridge `init` built: requests go to the hub
   * named by its identity configuration.
   */
  function EnvFor<P, R, C>(
    b: Installation.Bridge,
    config: C,
    send: Request<P> -> Result<R, string>,
    servicesOf: R -> Option<seq<Service>>): (env: Env<P, R, C>)
    ensures env.serverUri == b.hub.serverUri
    ensures env.config == config
  {
    Env(b.hub.serverUri, config, send, servicesOf)
  }

  /** Result of one operation, the cache after it, and the requests it issued. */
  datatype Step<T, P> = Step(result: Result<T, Error>, cache: Cache, sent: seq<Request<P>>)

  /** The HTTP client's outcome as the bridge passes it on. */
  function Forward<R>(response: Result<R, string>): Result<R, Error> {
    match response
    case Success(r) => Success(r)
    case Failure(reason) => Failure(RequestFailed(reason))
  }

  /** The request that fetches the full service list from the hub. */
  function ServicesRequest<P, R, C>(env: Env<P, R, C>): Request<P> {
    Request(Urls.Join(env.serverUri, ServicesPath), None)
  }

  function FetchHub<P, R, C>(env: Env<P, R, C>, cache: Cache, relativeUrl: string, params: Option<P>): (s: Step<R, P>)
    ensures |s.sent| == 1
    ensures s.sent[0] == Request(Urls.Join(env.serverUri, relativeUrl), params)
    ensures s.result == Forward(env.send(s.sent[0]))
    ensures s.cache == cache
  {
    var request := Request(Urls.Join(env.serverUri, relativeUrl), params);
    Step(Forward(env.send(request)), cache, [request])
  }

  function LoadServices<P, R, C>(env: Env<P, R, C>, cache: Cache, app: Option<string>): (s: Step<seq<Service>, P>)
    ensures cache.Some? ==> s.sent == [] && s.cache == cache
    ensures cache.None? ==> s.sent == [ServicesRequest(env)]
    ensures s.result.Success? <==> s.cache.Some?
    ensures s.result.Success? ==> s.result.value == Select(s.cache.value, app)
    ensures cache.None? && s.cache.Some? ==>
      && env.send(ServicesRequest(env)).Success?
      && s.cache == env.servicesOf(env.send(ServicesRequest(env)).value)
    ensures cache.None? && env.send(ServicesRequest(env)).Failure? ==>
      s.result == Failure(RequestFailed(env.send(ServicesRequest(env)).error))
    ensures cache.None? && env.send(ServicesRequest(env)).Success? ==>
      s.cache == env.servicesOf(env.send(ServicesRequest(env)).value)
    ensures cache.None? && env.send(ServicesRequest(env)).Success? &&
            env.servicesOf(env.send(ServicesRequest(env)).value).None? ==>
      s.result == Failure(ServiceListMissing)
  {
    match cache
    case Some(services) => Step(Success(Select(services, app)), cache, [])
    case None =>
      var request := ServicesRequest(env);
      match env.send(request)
      case Failure(reason) => Step(Failure(RequestFailed(reason)), None, [request])
      case Success(data) =>
        match env.servicesOf(data)
        case None => Step(Failure(ServiceListMissing), None, [request])
        case Some(services) => Step(Success(Select(services, app)), Some(services), [request])
  }

  /**
   * After one successful call the list is memoised: a second call issues no
   * request, keeps the cache, and two unfiltered calls in a row agree.
   */
  lemma LoadServicesMemoised<P, R, C>(env: Env<P, R, C>, cache: Cache, app1: Option<string>, app2: Option<string>)
    requires LoadServices(env, cache, app1).result.Success?
    ensures var first := LoadServices(env, cache, app1);
      var second := LoadServices(env, first.cache, app2);
      && second.sent == []
      && second.cache == first.cache
      && (app1 == app2 ==> second.result == first.result)
  {
  }

  const NotFoundPrefix: string := "Could not find service with ID \""
  const NotFoundSuffix: string := "\". Make sure it is requested in widget's manifest."

  /** The message `fetch` rejects with for an unknown id; it names the id. */
  function NotFoundMessage(id: string): (m: string)
    ensures Strings.Contains(m, id)
  {
    Strings.ContainsMiddle(NotFoundPrefix, id, NotFoundSuffix);
    NotFoundPrefix + id + NotFoundSuffix
  }

  function Fetch<P, R, C>(env: Env<P, R, C>, cache: Cache, id: string, relativeUrl: string, params: Option<P>): (s: Step<R, P>)
    ensures s.cache == LoadServices(env, cache, None).cache
    ensures LoadServices(env, cache, None).sent <= s.sent
    ensures |s.sent| <= |LoadServices(env, cache, None).sent| + 1
    ensures |s.sent| > |LoadServices(env, cache, None).sent| ==> s.cache.Some?
  {
    var load := LoadServices(env, cache, None);
    match load.result
    case Failure(e) => Step(Failure(e), load.cache, load.sent)
    case Success(loaded) =>
      var matching := WithId(loaded, id);
      if matching == [] then
        Step(Failure(ServiceNotFound(NotFoundMessage(id))), load.cache, load.sent)
      else
        var service := matching[0];
        SubsequenceElement(matching, loaded, 0);
        var request := Request(Urls.Join(service.homeUrl.value, relativeUrl), params);
        Step(Forward(env.send(request)), load.cache, load.sent + [request])
  }

  /**
   * What `fetch` does after loading the service list: a failed load is
   * passed on; otherwise the call fails with the not-found message exactly
   * when no cached service with a truthy home URL has the id, sending
   * nothing beyond the load, and else
   * issues one more request, to the first such service's home URL joined
   * with the relative URL, with the params unchanged.
   */
  lemma FetchResolvesFirstServing<P, R, C>(env: Env<P, R, C>, cache: Cache, id: string, relativeUrl: string, params: Option<P>)
    ensures var load := LoadServices(env, cache, None);
      var s := Fetch(env, cache, id, relativeUrl, params);
      && (load.result.Failure? ==> s.result == Failure(load.result.error) && s.sent == load.sent)
      && ((s.result == Failure(ServiceNotFound(NotFoundMessage(id))))
          <==> (s.cache.Some? && FirstServing(s.cache.value, id).None?))
      && (s.cache.Some? && FirstServing(s.cache.value, id).None? ==> s.sent == load.sent)
      && (s.cache.Some? && FirstServing(s.cache.value, id).Some? ==>
            var target := s.cache.value[FirstServing(s.cache.value, id).value];
            && s.sent == load.sent + [Request(Urls.Join(target.homeUrl.value, relativeUrl), params)]
            && s.result == Forward(env.send(s.sent[|s.sent| - 1])))
  {
    var load := LoadServices(env, cache, None);
    if load.result.Success? {
      LookupFindsFirstServing(load.cache.value, id);
    }
  }

  /**
   * A service whose home URL is empty or missing is never reached, even
   * when it is the only service with the requested id.
   */
  lemma UnreachableServiceNotFound<P, R, C>(env: Env<P, R, C>, services: seq<Service>, id: string, relativeUrl: string, params: Option<P>)
    requires forall i :: 0 <= i < |services| && services[i].id == id ==> !Reachable(services[i])
    ensures Fetch(env, Some(services), id, relativeUrl, params).result == Failure(ServiceNotFound(NotFoundMessage(id)))
    ensures Fetch(env, Some(services), id, relativeUrl, params).sent == []
  {
    FetchResolvesFirstServing(env, Some(services), id, relativeUrl, params);
  }

  /**
   * For the bridge `init` builds from an installation, `fetchHub` and the
   * first `loadServices` address the installation's hub base URL.
   */
  lemma RequestsGoToInstallationHub<P, R, C>(
    p: Installation.InstallationProperties, locationFallback: string, config: C,
    send: Request<P> -> Result<R, string>, servicesOf: R -> Option<seq<Service>>,
    cache: Cache, app: Option<string>, relativeUrl: string, params: Option<P>)
    ensures Installation.Init(p, locationFallback, None).Success?
    ensures var env := EnvFor(Installation.Init(p, locationFallback, None).value, config, send, servicesOf);
      && LoadServices(env, None, app).sent == [Request(Urls.Join(p.hubBaseUrl, ServicesPath), None)]
      && FetchHub(env, cache, relativeUrl, params).sent == [Request(Urls.Join(p.hubBaseUrl, relativeUrl), params)]
  {
  }
}
