# proksi control-plane state, modelled in Dafny

proksi is a TLS-terminating reverse proxy. This project models two small
keyed-state parts of its control plane:

- **The ACME bookkeeping store** (`Storage`). It keeps two maps. Pending
  HTTP-01 orders map a domain identifier to `(token, url, key
  authorization)`. Issued certificates map a host to its certificate text.
  It is a class with two `map` fields. Two ghost histories record every
  `AddOrder` and `AddCertificate` call. `Valid()` says that each map is what
  its history of inserts builds. With that history, "never added" and "last
  writer wins" can be stated.
- **Route installation** (`add_route_to_router` and the routing service's
  drivers). The process-wide route table is a `RouteStore` object that owns a
  `map<Host, RouteContainer>`. Installing a route does three things. It builds
  a round-robin pool from the upstream strings. It gives the pool a TCP health
  check every 15 seconds. It attaches path patterns only when the route's
  match rule carries a non-empty pattern list. Then it overwrites the host's
  entry. A pool that fails to build leaves the table untouched.
  `RoutingService.AddRoutesFromConfig` installs the configured routes one by
  one. `RoutingService.WatchForRouteChanges` handles a finite sequence of
  received messages in place of the unbounded receive loop.

Modules:

- `Wrappers`: `Option` and `Result`.
- `Format`: decimal rendering of a port, `"{ip}:{port}"` rendering of an
  upstream, and the parser that inverts both.
- `AcmeStorage`: the `Storage` class.
- `Discovery`: route containers, the `RouteStore` and `RoutingService`
  classes, and spec functions. `Installed` covers one install.
  `ApplyConfig` covers the configuration pass and `ApplyMessages` covers a
  message stream. Lemmas about them are proved by induction.

Each imperative method (`AddRouteToRouter`, `AddRoutesFromConfig`,
`WatchForRouteChanges`, `AddOrder`, `AddCertificate`) is proved to leave
exactly the state that its spec function, or its map update, gives. The
lemmas then prove the source's promises about those functions.

Foreign parts become parameters:

- Address resolution inside `LoadBalancer::try_from_iter` (`ToSocketAddrs`,
  which may use DNS) is the `buildsPool: seq<string> -> bool` given to the
  `RouteStore` constructor. A pool is recorded by the upstream strings it was
  built from, its health check and its health-check period.
- `KeyAuthorization` from `instant_acme` is a type parameter of `Storage`.
- The route matcher types, the upstream config type and `MsgProxy` are not
  part of this model. The upstream type is modelled as an `ip` string and a
  `nat` port. `MsgProxy` is `NewRoute(route)` plus `OtherMessage`, which
  stands for every other variant.

## Model

| member | source | states |
|---|---|---|
| AcmeStorage.Storage.constructor | src/main.rs:33-38 | a new store has empty `orders` and empty `certificates` (and empty insert histories) |
| AcmeStorage.Storage.Default | src/main.rs:67-70 | `Default` gives a fresh store that is exactly a new one: both maps empty |
| AcmeStorage.Storage.AddOrder | src/main.rs:40-48 | afterwards `GetOrder(identifier)` is `Some((token, url, keyAuth))`, replacing any earlier triple; every other identifier's lookup and the whole certificate map are unchanged |
| AcmeStorage.Storage.AddCertificate | src/main.rs:50-52 | afterwards `GetCertificate(host)` is `Some(certificate)`; every other host's lookup and the whole order map are unchanged |
| AcmeStorage.Storage.GetCertificate | src/main.rs:54-56 | returns `Some(c)` exactly when the host is in the certificate map, with `c` its stored certificate; reads only |
| AcmeStorage.Storage.GetOrders | src/main.rs:58-60 | looking an identifier up in the returned map agrees with `GetOrder` for every identifier, in both directions |
| AcmeStorage.Storage.GetOrder | src/main.rs:62-64 | returns `Some(t)` exactly when the identifier is in the order map, with `t` its stored triple; reads only |
| AcmeStorage.Storage.CertificateNeverAdded | src/main.rs:50-56 | a host never passed to `AddCertificate` gets `None` from `GetCertificate` |
| AcmeStorage.Storage.CertificateWasAdded | src/main.rs:50-56 | a certificate returned for a host was written by some `AddCertificate` call for that host, and by the last such call |
| AcmeStorage.Storage.CertificateLastWriteWins | src/main.rs:50-52 | the certificate returned for a host is the one written by the last `AddCertificate` call for that host |
| AcmeStorage.Storage.OrderNeverAdded | src/main.rs:62-64 | an identifier never passed to `AddOrder` gets `None` from `GetOrder` |
| AcmeStorage.Storage.OrderLastWriteWins | src/main.rs:40-48 | the triple returned for an identifier is the one written by its last `AddOrder` call, replaced wholesale |
| Format.Decimal | src/services/discovery/mod.rs:37 | a port renders as a non-empty run of decimal digits with no leading zero |
| Format.DecimalRoundTrip | src/services/discovery/mod.rs:37 | parsing the decimal rendering of a port gives the port back |
| Format.RenderAddrRoundTrip | src/services/discovery/mod.rs:37 | `"{ip}:{port}"` split at its last colon gives back the ip and the port, for every ip string, IPv6 text included |
| Format.RenderAddrInjective | src/services/discovery/mod.rs:37 | two upstreams render to the same address string only if they have the same ip and port |
| Discovery.RenderUpstreams | src/services/discovery/mod.rs:34-38 | one address string per configured upstream, in order; string `i` parses back to upstream `i`'s ip and port |
| Discovery.WithPattern | src/services/discovery/mod.rs:113 | `with_pattern` leaves the matcher carrying exactly the given patterns |
| Discovery.ContainerFor | src/services/discovery/mod.rs:96-118 | the container's pool is built from the given upstreams with a TCP health check every 15 seconds; it has path patterns exactly when `match_with`, its `path` and a non-empty pattern list are all present, and then has that list; otherwise the matcher is the default |
| Discovery.Installed | src/services/discovery/mod.rs:82-120 | if the pool does not build, the table is unchanged; if it does, `host` maps to a freshly built container whatever it held before, the key set grows by at most `host`, and every other host keeps its entry |
| Discovery.LastInstallWins | src/services/discovery/mod.rs:81-120 | two successful installs for one host leave what the second one alone would leave: no merge with the first |
| Discovery.ConfigSkipsFailedRoute | src/services/discovery/mod.rs:31-44 | a configured route whose pool fails is skipped: the table after all routes equals the table after the routes without it, so later routes are still installed |
| Discovery.ConfigLeavesOtherHosts | src/services/discovery/mod.rs:31-44 | a host for which no configured route builds keeps its previous entry, or stays absent |
| Discovery.ConfigLastBuiltWins | src/services/discovery/mod.rs:31-44 | after the configuration pass, a host holds the container of its last configured route whose pool built |
| Discovery.IgnoredMessageKeepsRoutes | src/services/discovery/mod.rs:51-55 | a receive error or a message other than `NewRoute` leaves the table unchanged |
| Discovery.MessageIgnoresMatchRule | src/services/discovery/mod.rs:52-53 | the match rule carried by a `NewRoute` message has no effect on what is installed |
| Discovery.MessagesInstallWithoutMatcher | src/services/discovery/mod.rs:51-55 | after any message sequence, each entry is either the one it had before or was installed with the default matcher |
| Discovery.OnlyNewRoutesMatter | src/services/discovery/mod.rs:51-55 | dropping every receive error and non-`NewRoute` message from the stream does not change the resulting table |
| Discovery.RouteStore.constructor | src/main.rs:27-28 | the route store starts out empty and uses the given pool builder |
| Discovery.RouteStore.TryFromIter | src/services/discovery/mod.rs:87-94 | pool construction succeeds exactly when `buildsPool` accepts the upstreams, giving a pool over them with no health check set yet |
| Discovery.RouteStore.AddRouteToRouter | src/services/discovery/mod.rs:82-121 | the step-by-step construction leaves the table `Installed(old table, host, upstreams, match_with)` |
| Discovery.RoutingService.constructor | src/services/discovery/mod.rs:26-28 | the service keeps the configuration and the store it is given |
| Discovery.RoutingService.AddRoutesFromConfig | src/services/discovery/mod.rs:31-44 | the loop leaves the table `ApplyConfig(old table, config)`: every configured route attempted in order, with its upstreams rendered as `"ip:port"` |
| Discovery.RoutingService.WatchForRouteChanges | src/services/discovery/mod.rs:47-57 | handling the received messages leaves the table `ApplyMessages(old table, received)`: each `NewRoute` installed with no matcher, everything else ignored |
| Discovery.RoutingService.StartService | src/services/discovery/mod.rs:62-70 | the configuration pass runs first, then the discovery messages |

## Left out

- Startup wiring in `main` (src/main.rs:73-163) is not modelled: server and listener setup, tracing, TLS settings, the Docker client and the Let's Encrypt service all live in code this model does not contain. Two things seen there are only recorded. First, the startup route loop aborts the whole process on a bad upstream list through `?` (src/main.rs:102), while the discovery path skips the route. Second, the Let's Encrypt service reads the route keys (src/main.rs:128) before the table built at startup is swapped in (src/main.rs:146).
- Concurrency is not modelled: the `Lazy<ArcSwap<RouteStore>>` global, the `tokio::sync::Mutex` around `Storage`, `tokio::spawn` and `select!`, and the broadcast channel's lossy overflow. The model is one sequential store, and the channel's output is the finite sequence `received`, where a `Lagged` error stands for dropped messages.
- The receive loop never ends in the source. The model handles any finite prefix of the messages it receives.
- `LoadBalancer`, `RoundRobin` and `TcpHealthCheck` internals, and address resolution, are foreign. Only whether the pool builds (`buildsPool`) and the settings applied at the call site are modelled.
- `RouteStore`, `RouteStoreContainer` and the matcher types are defined in files that are not part of this model. Only their use at the call sites is modelled: insert overwrites the host's entry, a new container has the default matcher, and `with_pattern` sets the patterns.
- `RoutingService`'s `name` and `threads` (src/services/discovery/mod.rs:72-78) are constants for the runtime and are not modelled. Neither is the `broadcast` sender the service holds.
- The `Certificate` record and `CertificateStore` alias in src/stores/certificates.rs have no behaviour and are not modelled. `Storage` keeps certificates as text, as in the source.
- Log output (`debug!`) is not modelled.
