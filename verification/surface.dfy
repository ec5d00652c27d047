/**
 * The capability surface the host hands to the sandboxed widget, as a
 * closed set of operations applied to the host's state: the chrome the host
 * renders around the frame and the service-list cache.
 */
module Surface {
  import opened Wrappers
  import opened Truthiness
  import opened ServiceDirectory
  import opened DirectoryClient
  import Installation
  import Urls

  /** CSS-module keys of the container's classes. */
  const WrapperClass: string := "widgetWrapper"
  const LoadingClass: string := "widgetWrapperLoading"

  /** The title node's content. */
  datatype Title = NoTitle | Text(text: string) | Link(text: string, url: string)

  /** Host-rendered chrome: the container's class attribute and the title. */
  datatype Chrome = Chrome(containerClass: string, title: Title)

  /** Everything a capability call can change. */
  datatype Host = Host(chrome: Chrome, cache: Cache)

  /**
   * The host state `init` leaves: the container not loading, an empty
   * title, and no service list fetched yet.
   */
  const InitialHost: Host := Host(Chrome(WrapperClass, NoTitle), None)

  datatype Operation<P> =
    | SetTitle(text: string, url: Option<string>)
    | SetLoadingAnimationEnabled(isLoading: bool)
    | EnterConfigMode
    | ExitConfigMode
    | SetError
    | ClearError
    | ReadCache
    | StoreCache
    | ReadConfig
    | StoreConfig
    | Fetch(serviceId: string, relativeUrl: string, params: Option<P>)
    | FetchHub(relativeUrl: string, params: Option<P>)
    | LoadServices(applicationName: Option<string>)
    | Alert
    | RemoveWidget
  {
    /** Operations that always fail because the widget is shown read-only. */
    predicate IsReadOnlyRefusal() {
      EnterConfigMode? || ExitConfigMode? || StoreConfig? || RemoveWidget?
    }

    /** Operations that may issue requests or fill the service-list cache. */
    predicate IsNetwork() {
      Fetch? || FetchHub? || LoadServices?
    }

    /** Operations that change the rendered chrome. */
    predicate IsChrome() {
      SetTitle? || SetLoadingAnimationEnabled?
    }
  }

  /** What a successful call resolves to. */
  datatype Reply<R, C> = Undefined | Config(config: C) | Response(response: R) | Services(services: seq<Service>)

  datatype Outcome<R, C, P> = Outcome(reply: Result<Reply<R, C>, Error>, host: Host, sent: seq<Request<P>>)

  /** The container's class attribute for a loading flag. */
  function ContainerClass(isLoading: bool): (c: string)
    ensures WrapperClass <= c
    ensures isLoading <==> c != WrapperClass
  {
    if isLoading then WrapperClass + " " + LoadingClass else WrapperClass
  }

  /** A title with a truthy URL is a link opened in a new context; otherwise plain text. */
  function TitleFor(text: string, url: Option<string>): (t: Title)
    ensures t.Link? <==> TruthyString(url)
    ensures t.Link? ==> t.url == url.value
    ensures t != NoTitle && t.text == text
  {
    if TruthyString(url) then Link(text, url.value) else Text(text)
  }

  /** Messages of the read-only refusals. */
  const EnterConfigModeMessage: string := "EnterConfigMode: Cannot manipulate with settings for widget in read-only mode"
  const ExitConfigModeMessage: string := "ExitConfigMode: Cannot manipulate with settings for widget in read-only mode"
  const StoreConfigMessage: string := "StoreConfig: Cannot store config for widget in read-only mode"
  const RemoveWidgetMessage: string := "RemoveWidget: Cannot remove widget in read-only mode"

  /** The fixed message of a read-only refusal. */
  function RefusalMessage<P>(op: Operation<P>): (m: string)
    requires op.IsReadOnlyRefusal()
    ensures |m| > 0
  {
    match op
    case EnterConfigMode => EnterConfigModeMessage
    case ExitConfigMode => ExitConfigModeMessage
    case StoreConfig => StoreConfigMessage
    case RemoveWidget => RemoveWidgetMessage
  }

  /** The four refusals are told apart by their messages. */
  lemma RefusalMessagesDistinct<P>(a: Operation<P>, b: Operation<P>)
    requires a.IsReadOnlyRefusal() && b.IsReadOnlyRefusal()
    ensures RefusalMessage(a) == RefusalMessage(b) <==> a == b
  {
    if a != b {
      var ma, mb := RefusalMessage(a), RefusalMessage(b);
      assert |ma| != |mb|;
    }
  }

  /** The outcome of `fetch` or `fetchHub`: the proxied response on success. */
  function ResponseOutcome<R, C, P>(s: Step<R, P>, chrome: Chrome): Outcome<R, C, P> {
    match s.result
    case Success(v) => Outcome(Success(Response(v)), Host(chrome, s.cache), s.sent)
    case Failure(e) => Outcome(Failure(e), Host(chrome, s.cache), s.sent)
  }

  /** The outcome of `loadServices`: the filtered list on success. */
  function ServicesOutcome<R, C, P>(s: Step<seq<Service>, P>, chrome: Chrome): Outcome<R, C, P> {
    match s.result
    case Success(v) => Outcome(Success(Services(v)), Host(chrome, s.cache), s.sent)
    case Failure(e) => Outcome(Failure(e), Host(chrome, s.cache), s.sent)
  }

  /** A call that neither issues requests nor touches the cache. */
  function ApplyLocal<P, R, C>(env: Env<P, R, C>, op: Operation<P>, host: Host): (o: Outcome<R, C, P>)
    requires !op.IsNetwork()
    ensures op.IsReadOnlyRefusal() ==>
      o.reply == Failure(ReadOnlyMode(RefusalMessage(op))) && o.host == host
    ensures op.ReadConfig? ==> o.reply == Success(Config(env.config)) && o.host == host
    ensures (op.SetError? || op.ClearError? || op.Alert? || op.ReadCache? || op.StoreCache?) ==>
      o.reply == Success(Undefined) && o.host == host
    ensures op.SetLoadingAnimationEnabled? ==>
      o.reply == Success(Undefined) && o.host.chrome == Chrome(ContainerClass(op.isLoading), host.chrome.title)
    ensures op.SetTitle? ==>
      o.reply == Success(Undefined) && o.host.chrome == Chrome(host.chrome.containerClass, TitleFor(op.text, op.url))
    ensures o.reply.Failure? <==> op.IsReadOnlyRefusal()
    ensures o.sent == [] && o.host.cache == host.cache
    ensures !op.IsChrome() ==> o.host.chrome == host.chrome
  {
    if op.IsReadOnlyRefusal() then
      Outcome(Failure(ReadOnlyMode(RefusalMessage(op))), host, [])
    else if op.IsChrome() then
      Outcome(Success(Undefined), Host(Render(op, host.chrome), host.cache), [])
    else if op.ReadConfig? then
      Outcome(Success(Config(env.config)), host, [])
    else
      // setError, clearError, alert, readCache and storeCache do nothing
      Outcome(Success(Undefined), host, [])
  }

  /** The chrome after `setTitle` or `setLoadingAnimationEnabled`. */
  function Render<P>(op: Operation<P>, chrome: Chrome): Chrome
    requires op.IsChrome()
  {
    match op
    case SetTitle(text, url) => Chrome(chrome.containerClass, TitleFor(text, url))
    case SetLoadingAnimationEnabled(isLoading) => Chrome(ContainerClass(isLoading), chrome.title)
  }

  /** A call that goes through the service directory or the hub. */
  function ApplyNetwork<P, R, C>(env: Env<P, R, C>, op: Operation<P>, host: Host): (o: Outcome<R, C, P>)
    requires op.IsNetwork()
    ensures o.host.chrome == host.chrome
    ensures o.reply.Failure? && o.reply.error.ServiceNotFound? ==> op.Fetch?
    ensures o.reply.Failure? ==> !o.reply.error.ReadOnlyMode?
    ensures host.cache.Some? ==> o.host.cache == host.cache && |o.sent| <= 1
    ensures |o.sent| <= 1 || (host.cache.None? && o.host.cache.Some? && |o.sent| == 2)
  {
    match op
    case Fetch(id, relativeUrl, params) =>
      ResponseOutcome(DirectoryClient.Fetch(env, host.cache, id, relativeUrl, params), host.chrome)
    case FetchHub(relativeUrl, params) =>
      ResponseOutcome(DirectoryClient.FetchHub(env, host.cache, relativeUrl, params), host.chrome)
    case LoadServices(app) =>
      ServicesOutcome(DirectoryClient.LoadServices(env, host.cache, app), host.chrome)
  }

  /** One capability call. */
  function Apply<P, R, C>(env: Env<P, R, C>, op: Operation<P>, host: Host): (o: Outcome<R, C, P>)
    ensures op.IsReadOnlyRefusal() ==>
      o.reply == Failure(ReadOnlyMode(RefusalMessage(op))) && o.host == host && o.sent == []
    ensures o.reply.Failure? && o.reply.error.ReadOnlyMode? <==> op.IsReadOnlyRefusal()
    ensures !op.IsNetwork() ==> o.sent == [] && o.host.cache == host.cache
    ensures !op.IsChrome() ==> o.host.chrome == host.chrome
    ensures host.cache.Some? ==> o.host.cache == host.cache && |o.sent| <= 1
    ensures |o.sent| <= 1 || (host.cache.None? && o.host.cache.Some? && |o.sent| == 2)
  {
    if op.IsNetwork() then ApplyNetwork(env, op, host) else ApplyLocal(env, op, host)
  }

  /**
   * The loading toggle forgets earlier toggles: the state after a call does
   * not depend on any previous toggle, so repeating a call changes nothing.
   */
  lemma LoadingToggleForgetsHistory<P, R, C>(env: Env<P, R, C>, host: Host, b1: bool, b2: bool)
    ensures var after := Apply(env, SetLoadingAnimationEnabled(b1), host).host;
      && Apply(env, SetLoadingAnimationEnabled(b2), after).host == Apply(env, SetLoadingAnimationEnabled(b2), host).host
      && (b1 == b2 ==> Apply(env, SetLoadingAnimationEnabled(b2), after).host == after)
  {
    var after := Apply(env, SetLoadingAnimationEnabled(b1), host).host;
    assert after == Host(Chrome(ContainerClass(b1), host.chrome.title), host.cache);
  }

  /** The two class attributes the loading toggle switches between. */
  lemma ContainerClassValues()
    ensures ContainerClass(true) == "widgetWrapper widgetWrapperLoading"
    ensures ContainerClass(false) == "widgetWrapper"
  {
  }

  /** The whole record of a sequence of capability calls. */
  datatype Trace<R, C, P> = Trace(host: Host, sent: seq<Request<P>>, replies: seq<Result<Reply<R, C>, Error>>)

  /** Capability calls one after another, each seeing the state the previous one left. */
  function Run<P, R, C>(env: Env<P, R, C>, ops: seq<Operation<P>>, host: Host): (t: Trace<R, C, P>)
    ensures |t.replies| == |ops|
    decreases |ops|
  {
    if ops == [] then Trace(host, [], [])
    else
      var o := Apply(env, ops[0], host);
      var rest := Run(env, ops[1..], o.host);
      Trace(rest.host, o.sent + rest.sent, [o.reply] + rest.replies)
  }

  /** Once the service list is cached, no sequence of calls changes it. */
  lemma {:induction false} CacheWrittenOnce<P, R, C>(env: Env<P, R, C>, ops: seq<Operation<P>>, host: Host)
    requires host.cache.Some?
    ensures Run(env, ops, host).host.cache == host.cache
    decreases |ops|
  {
    if ops != [] {
      CacheWrittenOnce(env, ops[1..], Apply(env, ops[0], host).host);
    }
  }

  /**
   * Every call issues at most one request, except the single call that
   * first fills the cache, which may issue two (the service list, then the
   * proxied request).
   */
  lemma {:induction false} RequestsBounded<P, R, C>(env: Env<P, R, C>, ops: seq<Operation<P>>, host: Host)
    ensures |Run(env, ops, host).sent| <= |ops| + (if host.cache.None? then 1 else 0)
    decreases |ops|
  {
    if ops != [] {
      RequestsBounded(env, ops[1..], Apply(env, ops[0], host).host);
    }
  }

  /** Calls that are neither network operations nor chrome updates leave the host as it was and issue nothing. */
  lemma {:induction false} InertCallsChangeNothing<P, R, C>(env: Env<P, R, C>, ops: seq<Operation<P>>, host: Host)
    requires forall i :: 0 <= i < |ops| ==> !ops[i].IsNetwork() && !ops[i].IsChrome()
    ensures Run(env, ops, host).host == host
    ensures Run(env, ops, host).sent == []
    decreases |ops|
  {
    if ops != [] {
      InertCallsChangeNothing(env, ops[1..], Apply(env, ops[0], host).host);
    }
  }

  /**
   * A session of the bridge `init` builds, started from the state `init`
   * leaves: when the widget's first call is `loadServices`, the first request
   * is the service-list request to the installation's hub, and the session
   * issues at most one request per call plus one.
   */
  lemma SessionFromInit<P, R, C>(
    p: Installation.InstallationProperties, locationFallback: string, config: C,
    send: Request<P> -> Result<R, string>, servicesOf: R -> Option<seq<Service>>,
    ops: seq<Operation<P>>)
    requires |ops| > 0 && ops[0].LoadServices?
    ensures Installation.Init(p, locationFallback, None).Success?
    ensures var env := EnvFor(Installation.Init(p, locationFallback, None).value, config, send, servicesOf);
      var t := Run(env, ops, InitialHost);
      && |t.sent| <= |ops| + 1
      && |t.sent| > 0
      && t.sent[0] == Request(Urls.Join(p.hubBaseUrl, ServicesPath), None)
  {
    var env := EnvFor(Installation.Init(p, locationFallback, None).value, config, send, servicesOf);
    RequestsBounded(env, ops, InitialHost);
    var first := Apply(env, ops[0], InitialHost);
    assert first.sent == [ServicesRequest(env)];
  }
}
