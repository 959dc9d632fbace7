/**
 * Route installation: building an upstream pool for a host, wrapping it in
 * a route container with an optional path matcher, and installing it in the
 * route store, both from static configuration and from discovery messages.
 */
module Discovery {
  import opened Wrappers
  import Format

  type Host = string

  /** The `path` part of a route's `match_with`: the patterns to match request paths against. */
  datatype PathPatterns = PathPatterns(patterns: seq<string>)

  /** A route's `match_with` rule. */
  datatype RouteMatcher = RouteMatcher(path: Option<PathPatterns>)

  datatype HealthCheck = TcpHealthCheck

  /**
   * A round-robin `LoadBalancer`, seen from the routing layer: the upstream
   * inputs it was built from, its health check and the health-check period in
   * seconds. Selection and health state stay inside the foreign pool.
   */
  datatype Pool = Pool(backends: seq<string>, healthCheck: Option<HealthCheck>, healthCheckFrequency: Option<nat>)

  /** The path matcher of a route container: no patterns until `with_pattern` sets them. */
  datatype PathMatcher = PathMatcher(patterns: Option<seq<string>>)

  const DefaultPathMatcher := PathMatcher(None)

  /** A route store entry: a shared pool plus its path matcher. */
  datatype RouteContainer = RouteContainer(pool: Pool, pathMatcher: PathMatcher)

  /** `Duration::from_secs(15)`: the health-check period of every installed pool. */
  const HealthCheckFrequencySecs: nat := 15

  /** One configured upstream. */
  datatype Upstream = Upstream(ip: string, port: nat)

  /** One statically configured route. */
  datatype ConfigRoute = ConfigRoute(host: Host, upstreams: seq<Upstream>, matchWith: Option<RouteMatcher>)

  /** The route a discovery source announces; its upstreams are already `"ip:port"` strings. */
  datatype DiscoveredRoute = DiscoveredRoute(host: Host, upstreams: seq<string>, matchWith: Option<RouteMatcher>)

  /** A message on the discovery channel; `OtherMessage` stands for every variant but `NewRoute`. */
  datatype MsgProxy = NewRoute(route: DiscoveredRoute) | OtherMessage

  /** Why a receive on the broadcast channel failed. */
  datatype RecvError = Closed | Lagged(skipped: nat)

  type Received = Result<MsgProxy, RecvError>

  type Routes = map<Host, RouteContainer>

  /** `with_pattern`: the matcher now carries the given patterns. */
  function WithPattern(m: PathMatcher, patterns: seq<string>): (r: PathMatcher)
    ensures r.patterns == Some(patterns)
  {
    m.(patterns := Some(patterns))
  }

  /** `match_with` is present, its `path` is present, and the pattern list is non-empty. */
  predicate HasPatterns(matchWith: Option<RouteMatcher>) {
    matchWith.Some? && matchWith.value.path.Some? && |matchWith.value.path.value.patterns| > 0
  }

  /** The container built for a pool that was built from `addrs`. */
  function ContainerFor(addrs: seq<string>, matchWith: Option<RouteMatcher>): (c: RouteContainer)
    ensures c.pool.backends == addrs
    ensures c.pool.healthCheck == Some(TcpHealthCheck)
    ensures c.pool.healthCheckFrequency == Some(HealthCheckFrequencySecs)
    ensures c.pathMatcher.patterns.Some? <==> HasPatterns(matchWith)
    ensures HasPatterns(matchWith) ==> c.pathMatcher.patterns == Some(matchWith.value.path.value.patterns)
    ensures !HasPatterns(matchWith) ==> c.pathMatcher == DefaultPathMatcher
  {
    var pool := Pool(addrs, Some(TcpHealthCheck), Some(HealthCheckFrequencySecs));
    var matcher :=
      match matchWith
      case None => DefaultPathMatcher
      case Some(m) =>
        match m.path
        case Some(p) => if |p.patterns| > 0 then WithPattern(DefaultPathMatcher, p.patterns) else DefaultPathMatcher
        case None => DefaultPathMatcher;
    RouteContainer(pool, matcher)
  }

  /** The route table after `add_route_to_router(host, addrs, matchWith)`. */
  function Installed(routes: Routes, host: Host, addrs: seq<string>, matchWith: Option<RouteMatcher>,
                     buildsPool: seq<string> -> bool): (r: Routes)
    ensures !buildsPool(addrs) ==> r == routes
    ensures buildsPool(addrs) ==> host in r && r[host] == ContainerFor(addrs, matchWith)
    ensures r.Keys == if buildsPool(addrs) then routes.Keys + {host} else routes.Keys
    ensures forall h :: h != host && h in routes ==> r[h] == routes[h]
  {
    if buildsPool(addrs) then routes[host := ContainerFor(addrs, matchWith)] else routes
  }

  /** Two successful installs for one host: the second entry replaces the first, nothing of it is merged. */
  lemma LastInstallWins(routes: Routes, host: Host, addrs1: seq<string>, match1: Option<RouteMatcher>,
                        addrs2: seq<string>, match2: Option<RouteMatcher>, buildsPool: seq<string> -> bool)
    requires buildsPool(addrs2)
    ensures Installed(Installed(routes, host, addrs1, match1, buildsPool), host, addrs2, match2, buildsPool)
            == Installed(routes, host, addrs2, match2, buildsPool)
  {
  }

  /** Every configured upstream as the `"{ip}:{port}"` string handed to pool construction. */
  function RenderUpstreams(upstreams: seq<Upstream>): (r: seq<string>)
    ensures |r| == |upstreams|
    ensures forall i :: 0 <= i < |r| ==> Format.ParseAddr(r[i]) == Some((upstreams[i].ip, upstreams[i].port))
  {
    var r := seq(|upstreams|, i requires 0 <= i < |upstreams| => Format.RenderAddr(upstreams[i].ip, upstreams[i].port));
    assert forall i :: 0 <= i < |r| ==> Format.ParseAddr(r[i]) == Some((upstreams[i].ip, upstreams[i].port)) by {
      forall i | 0 <= i < |r| ensures Format.ParseAddr(r[i]) == Some((upstreams[i].ip, upstreams[i].port)) {
        Format.RenderAddrRoundTrip(upstreams[i].ip, upstreams[i].port);
      }
    }
    r
  }

  /** Whether the pool for a configured route builds. */
  predicate RouteBuilds(route: ConfigRoute, buildsPool: seq<string> -> bool) {
    buildsPool(RenderUpstreams(route.upstreams))
  }

  /** The route table after installing one configured route. */
  function InstallConfigRoute(routes: Routes, route: ConfigRoute, buildsPool: seq<string> -> bool): Routes {
    Installed(routes, route.host, RenderUpstreams(route.upstreams), route.matchWith, buildsPool)
  }

  /** The route table after installing the configured routes one by one, in order. */
  function ApplyConfig(routes: Routes, config: seq<ConfigRoute>, buildsPool: seq<string> -> bool): Routes
    decreases |config|
  {
    if config == [] then routes
    else InstallConfigRoute(ApplyConfig(routes, config[..|config| - 1], buildsPool), config[|config| - 1], buildsPool)
  }

  /** A route whose pool does not build is skipped; the routes after it are installed as if it were absent. */
  lemma {:induction false} ConfigSkipsFailedRoute(routes: Routes, before: seq<ConfigRoute>, bad: ConfigRoute,
                                                 after: seq<ConfigRoute>, buildsPool: seq<string> -> bool)
    requires !RouteBuilds(bad, buildsPool)
    ensures ApplyConfig(routes, before + [bad] + after, buildsPool) == ApplyConfig(routes, before + after, buildsPool)
    decreases |after|
  {
    if after == [] {
      assert (before + [bad])[..|before|] == before;
      assert before + [bad] + after == before + [bad];
      assert before + after == before;
    } else {
      var front := after[..|after| - 1];
      var last := after[|after| - 1];
      ConfigSkipsFailedRoute(routes, before, bad, front, buildsPool);
      assert (before + [bad] + after)[..|before + [bad] + after| - 1] == before + [bad] + front;
      assert (before + after)[..|before + after| - 1] == before + front;
    }
  }

  /** A host that no configured route installs keeps the entry (or absence) it had. */
  lemma {:induction false} ConfigLeavesOtherHosts(routes: Routes, config: seq<ConfigRoute>, h: Host,
                                                  buildsPool: seq<string> -> bool)
    requires forall j :: 0 <= j < |config| && config[j].host == h ==> !RouteBuilds(config[j], buildsPool)
    ensures h in ApplyConfig(routes, config, buildsPool) <==> h in routes
    ensures h in routes ==> ApplyConfig(routes, config, buildsPool)[h] == routes[h]
    decreases |config|
  {
    if config != [] {
      ConfigLeavesOtherHosts(routes, config[..|config| - 1], h, buildsPool);
    }
  }

  /**
   * A host ends up with the container of its last configured route whose pool
   * built, whatever earlier routes for the host installed.
   */
  lemma {:induction false} ConfigLastBuiltWins(routes: Routes, config: seq<ConfigRoute>, i: nat,
                                               buildsPool: seq<string> -> bool)
    requires i < |config| && RouteBuilds(config[i], buildsPool)
    requires forall j :: i < j < |config| && config[j].host == config[i].host ==> !RouteBuilds(config[j], buildsPool)
    ensures config[i].host in ApplyConfig(routes, config, buildsPool)
    ensures ApplyConfig(routes, config, buildsPool)[config[i].host]
            == ContainerFor(RenderUpstreams(config[i].upstreams), config[i].matchWith)
    decreases |config|
  {
    if i < |config| - 1 {
      var front := config[..|config| - 1];
      assert front[i] == config[i];
      ConfigLastBuiltWins(routes, front, i, buildsPool);
    }
  }

  /** The route table after handling one received message: only `NewRoute` installs, and never with a matcher. */
  function ApplyMessage(routes: Routes, received: Received, buildsPool: seq<string> -> bool): Routes {
    match received
    case Ok(NewRoute(route)) => Installed(routes, route.host, route.upstreams, None, buildsPool)
    case _ => routes
  }

  /** The route table after handling the received messages in order. */
  function ApplyMessages(routes: Routes, received: seq<Received>, buildsPool: seq<string> -> bool): Routes
    decreases |received|
  {
    if received == [] then routes
    else ApplyMessage(ApplyMessages(routes, received[..|received| - 1], buildsPool), received[|received| - 1], buildsPool)
  }

  /** Anything but a received `NewRoute` leaves the table as it was. */
  lemma IgnoredMessageKeepsRoutes(routes: Routes, received: Received, buildsPool: seq<string> -> bool)
    requires !(received.Ok? && received.value.NewRoute?)
    ensures ApplyMessage(routes, received, buildsPool) == routes
  {
  }

  /** The match rule a discovered route carries has no effect on what is installed. */
  lemma MessageIgnoresMatchRule(routes: Routes, route: DiscoveredRoute, matchWith: Option<RouteMatcher>,
                                buildsPool: seq<string> -> bool)
    ensures ApplyMessage(routes, Ok(NewRoute(route)), buildsPool)
            == ApplyMessage(routes, Ok(NewRoute(route.(matchWith := matchWith))), buildsPool)
  {
  }

  /** Every entry that discovery messages installed or replaced has no path patterns. */
  lemma {:induction false} MessagesInstallWithoutMatcher(routes: Routes, received: seq<Received>,
                                                         buildsPool: seq<string> -> bool)
    ensures forall h :: h in ApplyMessages(routes, received, buildsPool) ==>
              (h in routes && ApplyMessages(routes, received, buildsPool)[h] == routes[h])
              || ApplyMessages(routes, received, buildsPool)[h].pathMatcher == DefaultPathMatcher
    decreases |received|
  {
    if received != [] {
      MessagesInstallWithoutMatcher(routes, received[..|received| - 1], buildsPool);
    }
  }

  /** The received `NewRoute` messages, in order. */
  function NewRoutes(received: seq<Received>): (r: seq<Received>)
    ensures forall i :: 0 <= i < |r| ==> r[i].Ok? && r[i].value.NewRoute?
    ensures |r| <= |received|
    decreases |received|
  {
    if received == [] then []
    else
      var last := received[|received| - 1];
      NewRoutes(received[..|received| - 1]) + (if last.Ok? && last.value.NewRoute? then [last] else [])
  }

  /** Receive errors and other messages can be dropped from the stream without changing the table. */
  lemma {:induction false} OnlyNewRoutesMatter(routes: Routes, received: seq<Received>, buildsPool: seq<string> -> bool)
    ensures ApplyMessages(routes, received, buildsPool) == ApplyMessages(routes, NewRoutes(received), buildsPool)
    decreases |received|
  {
    if received != [] {
      var front := received[..|received| - 1];
      var last := received[|received| - 1];
      OnlyNewRoutesMatter(routes, front, buildsPool);
      if last.Ok? && last.value.NewRoute? {
        var r := NewRoutes(received);
        assert r == NewRoutes(front) + [last];
        assert r[..|r| - 1] == NewRoutes(front);
      } else {
        assert NewRoutes(received) == NewRoutes(front) + [];
        assert NewRoutes(front) + [] == NewRoutes(front);
      }
    }
  }

  /**
   * The process-wide route store. `buildsPool` decides whether
   * `LoadBalancer::try_from_iter` accepts an upstream list; it stands for
   * address resolution, which is foreign and may consult DNS.
   */
  class RouteStore {
    var routes: Routes
    const buildsPool: seq<string> -> bool

    constructor (buildsPool: seq<string> -> bool)
      ensures routes == map[] && this.buildsPool == buildsPool
    {
      routes := map[];
      this.buildsPool := buildsPool;
    }

    /** `LoadBalancer::try_from_iter`: a pool with no health check yet, or nothing. */
    function TryFromIter(addrs: seq<string>): (r: Option<Pool>)
      ensures r.Some? <==> buildsPool(addrs)
      ensures r.Some? ==> r.value == Pool(addrs, None, None)
    {
      if buildsPool(addrs) then Some(Pool(addrs, None, None)) else None
    }

    /** `add_route_to_router`. */
    method AddRouteToRouter(host: Host, upstreamInput: seq<string>, matchWith: Option<RouteMatcher>)
      modifies this
      ensures routes == Installed(old(routes), host, upstreamInput, matchWith, buildsPool)
    {
      var built := TryFromIter(upstreamInput);
      if built.None? {
        return;
      }
      var upstreams := built.value;
      upstreams := upstreams.(healthCheck := Some(TcpHealthCheck));
      upstreams := upstreams.(healthCheckFrequency := Some(HealthCheckFrequencySecs));

      var container := RouteContainer(upstreams, DefaultPathMatcher);

      if matchWith.Some? {
        match matchWith.value.path {
          case Some(pathMatcher) =>
            if |pathMatcher.patterns| > 0 {
              container := container.(pathMatcher := WithPattern(container.pathMatcher, pathMatcher.patterns));
            }
          case None =>
        }
      }

      routes := routes[host := container];
    }
  }

  /** `RoutingService`: the configured routes and the store it installs them in. */
  class RoutingService {
    const config: seq<ConfigRoute>
    const store: RouteStore

    constructor (config: seq<ConfigRoute>, store: RouteStore)
      ensures this.config == config && this.store == store
    {
      this.config := config;
      this.store := store;
    }

    /** `add_routes_from_config`: every configured route is attempted, in order. */
    method AddRoutesFromConfig()
      modifies store
      ensures store.routes == ApplyConfig(old(store.routes), config, store.buildsPool)
    {
      var i := 0;
      while i < |config|
        invariant 0 <= i <= |config|
        invariant store.routes == ApplyConfig(old(store.routes), config[..i], store.buildsPool)
      {
        var route := config[i];
        var upstreamBackends := RenderUpstreams(route.upstreams);
        store.AddRouteToRouter(route.host, upstreamBackends, route.matchWith);
        assert config[..i + 1][..i] == config[..i];
        i := i + 1;
      }
      assert config[..i] == config;
    }

    /** The body of `watch_for_route_changes`, applied to the messages received so far. */
    method WatchForRouteChanges(received: seq<Received>)
      modifies store
      ensures store.routes == ApplyMessages(old(store.routes), received, store.buildsPool)
    {
      var i := 0;
      while i < |received|
        invariant 0 <= i <= |received|
        invariant store.routes == ApplyMessages(old(store.routes), received[..i], store.buildsPool)
      {
        match received[i] {
          case Ok(NewRoute(route)) =>
            store.AddRouteToRouter(route.host, route.upstreams, None);
          case _ =>
        }
        assert received[..i + 1][..i] == received[..i];
        i := i + 1;
      }
      assert received[..i] == received;
    }

    /** `start_service`: seed from configuration, then handle discovery messages. */
    method StartService(received: seq<Received>)
      modifies store
      ensures store.routes == ApplyMessages(ApplyConfig(old(store.routes), config, store.buildsPool), received, store.buildsPool)
    {
      AddRoutesFromConfig();
      WatchForRouteChanges(received);
    }
  }
}
