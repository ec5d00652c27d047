/**
 * What `init` derives from the installation properties before any network
 * work: the identity-server configuration handed to the authentication
 * client, and the geometry, document URL and sandbox attributes of the
 * embedded widget frame.
 */
module Installation {
  import opened Wrappers
  import opened Truthiness
  import Urls
  import Strings

  /** Client id used when the installation supplies none. */
  const DefaultClientId: string := "0-0-0-0-0"
  const DefaultWidth: int := 290
  const DefaultHeight: int := 265

  /** Attributes added to the frame's sandbox, the same for every widget. */
  const SandboxAttributes: seq<string> := ["allow-scripts", "allow-pointer-lock", "allow-top-navigation"]

  /**
   * The installation properties the bridge reads. `domContainer` is left out
   * with the rest of the DOM; `locationFallback` below stands for the page's
   * origin and path.
   */
  datatype InstallationProperties = InstallationProperties(
    widgetName: string,
    hubBaseUrl: string,
    authClientId: Option<string>,
    redirectUri: Option<string>,
    width: Option<int>,
    height: Option<int>,
    locale: string)

  /** Parameters of the identity handshake. */
  datatype HubConfig = HubConfig(
    reloadOnUserChange: bool,
    embeddedLogin: bool,
    serverUri: string,
    clientId: string,
    scope: seq<string>,
    requestCredentials: string,
    redirectUri: string)

  /** The embedded widget frame as `init` asks the sandbox library to create it. */
  datatype Frame = Frame(width: int, height: int, src: string, sandbox: seq<string>)

  /** A live bridge: the identity configuration together with its frame. */
  datatype Bridge = Bridge(hub: HubConfig, frame: Frame)

  function DeriveHubConfig(p: InstallationProperties, locationFallback: string): (c: HubConfig)
    ensures c.serverUri == p.hubBaseUrl
    ensures TruthyString(p.authClientId) ==> c.clientId == p.authClientId.value
    ensures !TruthyString(p.authClientId) ==> c.clientId == DefaultClientId
    ensures c.clientId != ""
    ensures |c.scope| == 1 && c.scope[0] == c.clientId
    ensures TruthyString(p.redirectUri) ==> c.redirectUri == p.redirectUri.value
    ensures !TruthyString(p.redirectUri) ==> c.redirectUri == locationFallback
    ensures !c.reloadOnUserChange && c.embeddedLogin && c.requestCredentials == "skip"
  {
    var clientId := StringOr(p.authClientId, DefaultClientId);
    HubConfig(
      reloadOnUserChange := false,
      embeddedLogin := true,
      serverUri := p.hubBaseUrl,
      clientId := clientId,
      scope := [StringOr(p.authClientId, DefaultClientId)],
      requestCredentials := "skip",
      redirectUri := StringOr(p.redirectUri, locationFallback))
  }

  /**
   * Two installations derive the same identity configuration exactly when
   * they name the same server and, after the `||` defaults, the same client
   * id and redirect URI: an absent and an empty client id are indistinguishable.
   */
  lemma HubConfigDependsOnEffectiveValues(p: InstallationProperties, q: InstallationProperties, fallback: string)
    ensures DeriveHubConfig(p, fallback) == DeriveHubConfig(q, fallback)
        <==> && p.hubBaseUrl == q.hubBaseUrl
             && StringOr(p.authClientId, DefaultClientId) == StringOr(q.authClientId, DefaultClientId)
             && StringOr(p.redirectUri, fallback) == StringOr(q.redirectUri, fallback)
  {
  }

  function FrameWidth(p: InstallationProperties): (w: int)
    ensures w != 0
    ensures TruthyNumber(p.width) ==> w == p.width.value
    ensures !TruthyNumber(p.width) ==> w == DefaultWidth
  {
    NumberOr(p.width, DefaultWidth)
  }

  function FrameHeight(p: InstallationProperties): (h: int)
    ensures h != 0
    ensures TruthyNumber(p.height) ==> h == p.height.value
    ensures !TruthyNumber(p.height) ==> h == DefaultHeight
  {
    NumberOr(p.height, DefaultHeight)
  }

  /**
   * Defaulting is a closure: feeding the effective size back in as the
   * installation's own size yields the same frame size.
   */
  lemma FrameSizeStable(p: InstallationProperties)
    ensures FrameWidth(p.(width := Some(FrameWidth(p)))) == FrameWidth(p)
    ensures FrameHeight(p.(height := Some(FrameHeight(p)))) == FrameHeight(p)
  {
  }

  const WidgetsPath: string := "api/rest/widgets/"
  const IndexPath: string := "/archive/index.html?locale="
  const ReadOnlySuffix: string := "&editable=false"

  /** Everything in the frame URL before the widget name. */
  function WidgetsRoot(p: InstallationProperties): string {
    p.hubBaseUrl + "/" + WidgetsPath
  }

  /**
   * The widget document, requested from the hub in non-editable mode. The
   * URL splits back into the widgets root of the hub, the widget name, the
   * index path up to the locale parameter, the locale and the read-only flag.
   */
  function FrameSrc(p: InstallationProperties): (u: string)
    ensures var i := |WidgetsRoot(p)| + |p.widgetName|;
      var j := i + |IndexPath|;
      && |u| == j + |p.locale| + |ReadOnlySuffix|
      && u[..|WidgetsRoot(p)|] == WidgetsRoot(p)
      && u[|WidgetsRoot(p)|..i] == p.widgetName
      && u[i..j] == IndexPath
      && u[j..|u| - |ReadOnlySuffix|] == p.locale
      && u[|u| - |ReadOnlySuffix|..] == ReadOnlySuffix
  {
    var u := Urls.Join(p.hubBaseUrl, WidgetsPath + p.widgetName + IndexPath + p.locale + ReadOnlySuffix);
    FrameSrcAround(p, u);
    Strings.SplitFive(WidgetsRoot(p), p.widgetName, IndexPath, p.locale, ReadOnlySuffix);
    u
  }

  /** Regrouping of the concatenation that builds the frame URL around its widget name. */
  lemma FrameSrcAround(p: InstallationProperties, u: string)
    requires u == Urls.Join(p.hubBaseUrl, WidgetsPath + p.widgetName + IndexPath + p.locale + ReadOnlySuffix)
    ensures u == WidgetsRoot(p) + p.widgetName + IndexPath + p.locale + ReadOnlySuffix
    ensures u == WidgetsRoot(p) + p.widgetName + (IndexPath + p.locale + ReadOnlySuffix)
    ensures u == (WidgetsRoot(p) + p.widgetName + IndexPath) + p.locale + ReadOnlySuffix
  {
    var m := WidgetsPath + p.widgetName + IndexPath + p.locale + ReadOnlySuffix;
    assert u == p.hubBaseUrl + "/" + m;
    assert m == WidgetsPath + p.widgetName + (IndexPath + p.locale + ReadOnlySuffix);
  }

  /** For one hub and one widget, the document URL determines the locale. */
  lemma FrameSrcDeterminesLocale(p: InstallationProperties, q: InstallationProperties)
    requires p.hubBaseUrl == q.hubBaseUrl && p.widgetName == q.widgetName
    ensures FrameSrc(p) == FrameSrc(q) <==> p.locale == q.locale
  {
  }

  /** For one hub and one locale, the document URL determines the widget. */
  lemma FrameSrcDeterminesWidget(p: InstallationProperties, q: InstallationProperties)
    requires p.hubBaseUrl == q.hubBaseUrl && p.locale == q.locale
    ensures FrameSrc(p) == FrameSrc(q) <==> p.widgetName == q.widgetName
  {
  }

  /**
   * `init`: the identity configuration is derived, then the frame is created
   * only once the authentication client is ready; an authentication failure
   * rejects `init` with that failure and no frame exists.
   */
  function Init(p: InstallationProperties, locationFallback: string, authFailure: Option<string>): (r: Result<Bridge, string>)
    ensures r.Failure? <==> authFailure.Some?
    ensures r.Failure? ==> r.error == authFailure.value
    ensures r.Success? ==> r.value.hub == DeriveHubConfig(p, locationFallback)
    ensures r.Success? ==> r.value.frame.width == FrameWidth(p) && r.value.frame.height == FrameHeight(p)
    ensures r.Success? ==> r.value.frame.src == FrameSrc(p)
    ensures r.Success? ==> r.value.frame.sandbox == SandboxAttributes
  {
    var hub := DeriveHubConfig(p, locationFallback);
    match authFailure
    case Some(reason) => Failure(reason)
    case None => Success(Bridge(hub, Frame(FrameWidth(p), FrameHeight(p), FrameSrc(p), SandboxAttributes)))
  }

  /** The sandbox grants are fixed: top-level navigation always, popups never. */
  lemma SandboxIsFixed(p: InstallationProperties, fallback: string)
    ensures Init(p, fallback, None).Success?
    ensures "allow-top-navigation" in Init(p, fallback, None).value.frame.sandbox
    ensures "allow-popups" !in Init(p, fallback, None).value.frame.sandbox
  {
  }
}
