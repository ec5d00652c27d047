# Host bridge of an external hub widget — Dafny model

`src/app/app.js` exports `init(installationProperties, config)`. It embeds a
widget from the hub (the identity and service-directory server) in a
sandboxed frame. It also hands the widget a fixed object of capabilities. The
widget must use those capabilities instead of touching the network or the page
itself. This project models the decision logic of that bridge as pure Dafny
functions over immutable data:

- **Installation** (`installation.dfy`) derives the identity configuration
  (`hubConfig`), the frame size, the frame document URL and the sandbox
  attributes. `Init` models the ordering: no frame exists unless the
  authentication client became ready.
- **ServiceDirectory** (`services.dfy`) holds the service descriptors and the
  filter `loadServices` applies. It also holds the lookup `fetch` performs by id.
- **DirectoryClient** (`directory_client.dfy`) models `fetchHub`,
  `loadServices` with its memoised service list, and `fetch`. The HTTP client
  is an injected total function from a request to a response or a failure
  reason. Each operation returns its result, the cache after the call and
  the requests it issued, in order.
- **Surface** (`surface.dfy`) models the capability object as a closed
  datatype of operations. `Apply` performs one call on the host state, which is
  the rendered chrome plus the cache. `Run` performs a sequence of calls.
- **Urls**, **Strings**, **Truthiness**, **Subsequence** and **Wrappers** are
  helpers. They cover URL assembly by concatenation, occurrence and slicing of
  strings, JavaScript `||` defaults, order-preserving subsequences, and the
  Option/Result types.

JavaScript truthiness is kept where the code depends on it. An optional
string (`authClientId`, `redirectUri`, `homeUrl`, the `applicationName`
filter, a title URL) is `Option<string>`, and both `None` and `Some("")` are
falsy. A width or height is `Option<int>`, and both `None` and `Some(0)` are
falsy. A cached empty list is still a cache hit, because an empty array is
truthy in JavaScript.

The hub's answer to the service-list request is abstract. The injected
`servicesOf` reads `data && data.services` from it. When that is falsy, the
cache stays empty. The `services.filter` call at line 68 then throws, and the
model returns `ServiceListMissing`. The next call requests the list again.

Some behaviour of the bridge is worth stating plainly:
- `setError`, `clearError` and `alert` do nothing: no error indicator or
  notification is rendered.
- `storeCache` resolves to `undefined`; it is not refused.
- The sandbox attributes are the constant `allow-scripts allow-pointer-lock
  allow-top-navigation`, whatever the widget. So top-level navigation is
  always granted and popups never are.
- Each call to `init` derives its own identity configuration; nothing
  compares it with other widget instances on the page.
- The first service-list fetch has no single-flight guard.

## Model

| member | source | states |
|---|---|---|
| Installation.DeriveHubConfig | src/app/app.js:14-23 | server URI is the hub base URL; the client id is the installation's when truthy and `0-0-0-0-0` otherwise, so never empty; scope is exactly one element, the client id; the redirect URI is the installation's when truthy, else the page-location fallback; fixed flags (no reload on user change, embedded login, credentials `skip`) |
| Installation.HubConfigDependsOnEffectiveValues | src/app/app.js:14-23 | two installations derive equal configurations iff they agree on the base URL and on client id and redirect URI after the `||` defaults (absent and empty client id coincide) |
| Installation.FrameWidth | src/app/app.js:38 | width is never zero: a truthy installation width is kept, `undefined` or `0` gives 290 |
| Installation.FrameHeight | src/app/app.js:39 | height is never zero: a truthy installation height is kept, `undefined` or `0` gives 265 |
| Installation.FrameSizeStable | src/app/app.js:38-39 | feeding the effective size back in as the installation's size yields the same size |
| Installation.FrameSrc | src/app/app.js:50 | the frame URL splits back, in order, into `{hubBaseUrl}/api/rest/widgets/`, the widget name, `/archive/index.html?locale=`, the locale and `&editable=false` |
| Installation.FrameSrcDeterminesLocale | src/app/app.js:50 | for a fixed hub and widget, two frame URLs are equal iff the locales are |
| Installation.FrameSrcDeterminesWidget | src/app/app.js:50 | for a fixed hub and locale, two frame URLs are equal iff the widget names are |
| Installation.Init | src/app/app.js:36-53 | `init` fails iff authentication failed, with that failure; on success the bridge carries the derived hub configuration and a frame with the defaulted size, the frame URL and the fixed sandbox attributes |
| Installation.SandboxIsFixed | src/app/app.js:51 | every frame grants `allow-top-navigation` and never `allow-popups`, whatever the installation |
| Urls.Join | src/app/app.js:59 | `{base}/{relative}` has length `|base| + 1 + |relative|` and splits back into `base`, `/`, `relative` |
| Urls.JoinInjective | src/app/app.js:57-61 | for bases of equal length, two joined URLs are equal iff the bases and the relative parts are |
| ServiceDirectory.Select | src/app/app.js:68-71 | the filtered list is an order-preserving subsequence of the cache; every kept service has a truthy home URL and, when the filter is truthy, that application name |
| ServiceDirectory.SelectCounts | src/app/app.js:68-71 | every cached service meeting both conditions is kept as often as it is cached, and every other service is dropped |
| ServiceDirectory.SelectMembership | src/app/app.js:68-71 | a service is in the filtered list iff it is cached and meets both conditions |
| ServiceDirectory.SelectKeepsSelected | src/app/app.js:68-71 | a list whose every service passes the filter is returned whole |
| ServiceDirectory.SelectIdempotent | src/app/app.js:68-71 | filtering twice with the same application name equals filtering once |
| ServiceDirectory.SelectRefinesUnfiltered | src/app/app.js:68-71 | filtering by application name equals filtering the unfiltered result by it |
| ServiceDirectory.SelectExample | src/app/app.js:68-71 | of services A with a home URL, A without one and B with one, the filter `A` keeps only the first |
| ServiceDirectory.WithId | src/app/app.js:76-78 | the services kept by the id filter form an order-preserving subsequence of the loaded list, and each has the requested id |
| ServiceDirectory.WithIdCounts | src/app/app.js:76-78 | every service with the id is kept as often as it occurs in the list, and every other service is dropped |
| ServiceDirectory.WithIdMembership | src/app/app.js:76-78 | a service is kept by the id filter iff it is in the list and has the id |
| ServiceDirectory.FirstServing | src/app/app.js:74-81 | the index of the first cached service with the id and a truthy home URL; none exactly when no such service exists |
| ServiceDirectory.LookupFindsFirstServing | src/app/app.js:75-79 | the head of the unfiltered `loadServices` result restricted to the id is exactly the first reachable service with that id, and the restriction is empty iff there is none |
| DirectoryClient.EnvFor | src/app/app.js:17 | the environment of a bridge sends hub requests to the server URI of that bridge's identity configuration |
| DirectoryClient.RequestsGoToInstallationHub | src/app/app.js:57-65 | for the bridge `init` builds, the first service-list request goes to `{hubBaseUrl}/api/rest/services?fields=…` of the installation, and `fetchHub` goes to `{hubBaseUrl}/{relativeURL}` with the params unchanged |
| DirectoryClient.FetchHub | src/app/app.js:57-61 | exactly one request, to `{serverUri}/{relativeURL}` with the params unchanged; the client's response is passed on; the cache is untouched |
| DirectoryClient.LoadServices | src/app/app.js:63-72 | with a cached list no request is issued and the cache is unchanged; with none, exactly one request to `{serverUri}/api/rest/services?fields=id,name,applicationName,homeUrl,version` is issued; the call succeeds iff a list is cached afterwards, and then returns that list's filter; a client failure leaves the cache empty and fails with that reason; a response is always cached as its `services` field, so a response carrying a list fills the cache and succeeds, and one without a list fails with `ServiceListMissing` |
| DirectoryClient.LoadServicesMemoised | src/app/app.js:63-67 | after a successful call, a second call issues no request and keeps the cache; two calls with the same filter return the same list |
| DirectoryClient.NotFoundMessage | src/app/app.js:80 | the not-found message contains the requested id |
| DirectoryClient.Fetch | src/app/app.js:74-83 | `fetch` leaves the cache as its unfiltered `loadServices` call did; its requests are that call's followed by at most one more, and a further request is issued only once a list is cached |
| DirectoryClient.FetchResolvesFirstServing | src/app/app.js:74-83 | a failed service-list load is passed on; otherwise `fetch` fails with the not-found message iff no cached service with a truthy home URL has the id, and then sends nothing beyond the load; on a hit exactly one more request goes to `{homeUrl}/{relativeURL}` of the first such service in list order, with the params unchanged, and its response is passed on |
| DirectoryClient.UnreachableServiceNotFound | src/app/app.js:74-81 | a service without a home URL is never reached, even by its exact id |
| Surface.ContainerClass | src/app/app.js:102-106 | the container class always includes `widgetWrapper`, and differs from plain `widgetWrapper` iff loading is on |
| Surface.TitleFor | src/app/app.js:87-100 | the title becomes a link iff the URL is truthy, to that URL; the text is always the given text |
| Surface.RefusalMessage | src/app/app.js:108-134 | each read-only refusal has a fixed non-empty message |
| Surface.RefusalMessagesDistinct | src/app/app.js:108-134 | the four read-only refusals have pairwise different messages |
| Surface.ApplyLocal | src/app/app.js:102-134 | config mode, `storeConfig` and `removeWidget` always fail with their fixed message; `readConfig` returns the embedding config; `setError`, `clearError`, `alert`, `readCache` and `storeCache` resolve to `undefined` and change nothing; the two chrome calls change only the chrome; none of them issues a request or touches the cache; a local call fails iff it is a read-only refusal |
| Surface.ApplyNetwork | src/app/app.js:126-129 | `fetch`, `fetchHub` and `loadServices` leave the chrome alone; only `fetch` reports a missing service; none reports a read-only refusal; with a cached list the cache stays and at most one request is issued; at most two requests otherwise, and only when the call fills the cache |
| Surface.Apply | src/app/app.js:85-136 | a call fails as read-only iff it is one of the four refusals, and then changes nothing; non-network calls issue nothing and keep the cache; only `setTitle` and `setLoadingAnimationEnabled` change the chrome; the request bound above |
| Surface.LoadingToggleForgetsHistory | src/app/app.js:102-106 | the host state after `setLoadingAnimationEnabled(b)` does not depend on any earlier toggle, so repeating the call changes nothing |
| Surface.ContainerClassValues | src/app/app.js:102-106 | the class is `widgetWrapper widgetWrapperLoading` when loading is on and exactly `widgetWrapper` when it is off |
| Surface.CacheWrittenOnce | src/app/app.js:63-67 | once a service list is cached, no sequence of capability calls changes it |
| Surface.RequestsBounded | src/app/app.js:63-83 | a sequence of n calls issues at most n requests with a cached list, and at most n + 1 without |
| Surface.SessionFromInit | src/app/app.js:32-83 | starting from the state `init` leaves (not loading, empty title, no cached list), a session whose first call is `loadServices` first requests the service list from the installation's hub, and issues at most one request per call plus one |
| Surface.InertCallsChangeNothing | src/app/app.js:108-134 | a sequence of calls that are neither network nor chrome calls leaves the host state unchanged and issues no request |

## Left out

- The `Auth` and `HTTP` clients of the UI library (lines 1-2, 25-30). Authentication is one optional failure reason passed to `Init`. HTTP is the injected `send` function. The `Hub-API-Version` header and token handling are not modelled.
- `Websandbox.create` and the cross-frame transport (lines 47-52). The model keeps only the arguments `init` passes to it: the frame URL and the sandbox attributes.
- DOM construction and mutation (lines 37-45, 87-100, 138-159). The container is reduced to its class attribute, and the title to an abstract `Title` value. The `domContainer` lookup and the pixel styles are not modelled.
- The `window.location` fallback for `redirectUri` (lines 21-22). It is the opaque input `locationFallback`.
- Concurrency. Calls are sequential. Concurrent first calls to `loadServices` can each issue the service-list request, because there is no single-flight guard at lines 64-66. This model does not cover that case.
- Synchronous throws and rejected promises are both `Failure`. `enterConfigMode`, `exitConfigMode` and `removeWidget` throw synchronously. `storeConfig` returns a rejected promise.
- The `(loadedServices || [])` fallback at line 76. It cannot take effect, because a successful `loadServices` always returns an array.
- The shape of hub responses. `servicesOf` abstracts `data && data.services`. A truthy `services` value that is not an array is not modelled.
- Installation fields other than the optional ones are plain strings. An `undefined` widget name, locale or base URL, which a template literal would print as `undefined`, is not modelled. Widths and heights are integers: a `NaN`, fractional or string width or height is not modelled; the `||` default would treat those like any other truthy or falsy value.
- Service ids are strings compared with `===`. Ids of other JavaScript types are not modelled.
