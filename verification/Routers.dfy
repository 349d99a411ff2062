/** The live routing table: virtual hosts with their routes, and the index over their domains. */
module Routers {
  import opened RouteTable
  import opened RouteIndex

  datatype MaybeRoute = NoRoute | Found(route: Route)

  /** A route is in the fast index when its only header condition is an exact one. */
  predicate HasFastKey(r: Route, key: string, value: string) {
    |r.headers| == 1 && r.headers[0].exact && r.headers[0].key == key && r.headers[0].value == value
  }

  /** The last route of the list with this header condition. */
  function LastExact(rs: seq<Route>, key: string, value: string): MaybeRoute {
    if rs == [] then NoRoute
    else if HasFastKey(rs[|rs| - 1], key, value) then Found(rs[|rs| - 1])
    else LastExact(rs[..|rs| - 1], key, value)
  }

  lemma {:induction false} LastExactIsLast(rs: seq<Route>, key: string, value: string) returns (i: int)
    ensures match LastExact(rs, key, value)
            case NoRoute => i == -1
            case Found(r) => 0 <= i < |rs| && rs[i] == r && HasFastKey(r, key, value)
    ensures forall j :: i < j < |rs| ==> !HasFastKey(rs[j], key, value)
  {
    i := |rs| - 1;
    if rs != [] && !HasFastKey(rs[i], key, value) {
      var shorter := rs[..i];
      i := LastExactIsLast(shorter, key, value);
      assert forall j :: 0 <= j < |shorter| ==> shorter[j] == rs[j];
    }
  }

  /** The first route of the list that matches. */
  ghost predicate IsFirstMatch(rs: seq<Route>, matches: Route -> bool, r: MaybeRoute) {
    match r
    case NoRoute => forall i :: 0 <= i < |rs| ==> !matches(rs[i])
    case Found(x) => exists i :: 0 <= i < |rs| && rs[i] == x && matches(x) && forall j :: 0 <= j < i ==> !matches(rs[j])
  }

  function AllMatches(rs: seq<Route>, matches: Route -> bool): seq<Route> {
    if rs == [] then []
    else AllMatches(rs[..|rs| - 1], matches) + (if matches(rs[|rs| - 1]) then [rs[|rs| - 1]] else [])
  }

  /** `at` lists the positions of all routes that match, in order. */
  predicate MatchingPositions(rs: seq<Route>, matches: Route -> bool, at: seq<nat>) {
    && (forall k, k' :: 0 <= k < k' < |at| ==> at[k] < at[k'])
    && (forall k :: 0 <= k < |at| ==> at[k] < |rs|)
    && (forall i :: 0 <= i < |rs| ==> (i in at <==> matches(rs[i])))
  }

  lemma PositionsGrow(rs: seq<Route>, matches: Route -> bool, r: Route, at: seq<nat>)
    requires MatchingPositions(rs, matches, at)
    ensures MatchingPositions(rs + [r], matches, if matches(r) then at + [|rs|] else at)
  {
    var at' := if matches(r) then at + [|rs|] else at;
    forall i | 0 <= i < |rs + [r]|
      ensures i in at' <==> matches((rs + [r])[i])
    {
      if i < |rs| {
        assert (rs + [r])[i] == rs[i];
      }
    }
  }

  lemma AllMatchesStep(rs: seq<Route>, matches: Route -> bool, r: Route)
    ensures AllMatches([], matches) == [] && MatchingPositions([], matches, [])
    ensures AllMatches(rs + [r], matches) == AllMatches(rs, matches) + (if matches(r) then [r] else [])
  {
    assert (rs + [r])[..|rs|] == rs;
  }

  lemma PositionsInRange(rs: seq<Route>, matches: Route -> bool, at: seq<nat>)
    requires MatchingPositions(rs, matches, at)
    ensures forall k :: 0 <= k < |at| ==> at[k] < |rs|
  {}

  /** The subsequence of the routes that match. */
  lemma {:induction false} AllMatchesInOrder(rs: seq<Route>, matches: Route -> bool) returns (at: seq<nat>)
    ensures MatchingPositions(rs, matches, at) && |at| == |AllMatches(rs, matches)|
    ensures forall k :: 0 <= k < |at| ==> AllMatches(rs, matches)[k] == rs[at[k]]
  {
    hide MatchingPositions, AllMatches;
    at := [];
    if rs == [] {
      AllMatchesStep([], matches, Route("", true, []));
    } else {
      var n := |rs| - 1;
      var shorter, r := rs[..n], rs[n];
      assert shorter + [r] == rs;
      var before := AllMatchesInOrder(shorter, matches);
      PositionsGrow(shorter, matches, r, before);
      PositionsInRange(shorter, matches, before);
      AllMatchesStep(shorter, matches, r);
      at := if matches(r) then before + [n] else before;
      PositionsInRange(rs, matches, at);
    }
  }

  function FastLookup(fast: map<string, map<string, Route>>, key: string, value: string): MaybeRoute {
    if key in fast && value in fast[key] then Found(fast[key][value]) else NoRoute
  }

  class VirtualHost {
    var routes: seq<Route>
    var fastIndex: map<string, map<string, Route>>

    /** The fast index answers with the last route of each exact header condition. */
    ghost predicate Sound()
      reads this
    {
      forall key, value :: FastLookup(fastIndex, key, value) == LastExact(routes, key, value)
    }

    constructor Empty()
      ensures Sound() && routes == []
    {
      routes, fastIndex := [], map[];
    }

    method AddRoute(route: Route)
      requires Sound()
      modifies this
      ensures Sound() && routes == old(routes) + [route]
    {
      routes := routes + [route];
      assert routes[..|routes| - 1] == old(routes);
      if |route.headers| == 1 && route.headers[0].exact {
        var key, value := route.headers[0].key, route.headers[0].value;
        var valueMap := if key in fastIndex then fastIndex[key] else map[];
        fastIndex := fastIndex[key := valueMap[value := route]];
      }
    }

    method RemoveAllRoutes()
      modifies this
      ensures Sound() && routes == []
    {
      fastIndex := map[];
      routes := [];
    }

    method GetRouteFromEntries(matches: Route -> bool) returns (r: MaybeRoute)
      ensures IsFirstMatch(routes, matches, r)
    {
      for i := 0 to |routes|
        invariant forall j :: 0 <= j < i ==> !matches(routes[j])
      {
        if matches(routes[i]) {
          return Found(routes[i]);
        }
      }
      return NoRoute;
    }

    method GetAllRoutesFromEntries(matches: Route -> bool) returns (rs: seq<Route>)
      ensures rs == AllMatches(routes, matches)
    {
      rs := [];
      for i := 0 to |routes|
        invariant rs == AllMatches(routes[..i], matches)
      {
        assert routes[..i + 1][..i] == routes[..i];
        if matches(routes[i]) {
          rs := rs + [routes[i]];
        }
      }
      assert routes[..|routes|] == routes;
    }

    method GetRouteFromHeaderKV(key: string, value: string) returns (r: MaybeRoute)
      requires Sound()
      ensures r == LastExact(routes, key, value)
    {
      r := NoRoute;
      if key in fastIndex {
        if value in fastIndex[key] {
          r := Found(fastIndex[key][value]);
        }
      }
      assert r == FastLookup(fastIndex, key, value);
    }
  }

  /** A virtual host is made of its config when every route is well formed. */
  method NewVirtualHost(cfg: VHostConfig) returns (vh: VirtualHost?)
    ensures vh != null <==> RoutesOk(cfg)
    ensures vh != null ==> fresh(vh) && vh.Sound() && vh.routes == cfg.routers
  {
    vh := new VirtualHost.Empty();
    for i := 0 to |cfg.routers|
      invariant vh != null && fresh(vh) && vh.Sound() && vh.routes == cfg.routers[..i]
      invariant forall j :: 0 <= j < i ==> cfg.routers[j].wellFormed
    {
      if !cfg.routers[i].wellFormed {
        return null;
      }
      vh.AddRoute(cfg.routers[i]);
    }
  }

  datatype HostHeader = NoHost | Host(value: string)

  /** Where a request with this host header goes; -1 for nowhere. */
  ghost predicate Selected(lib: Lib, cfg: RouterConfig, header: HostHeader, r: int) {
    if header.Host? && header.value != "" && SplitGraceful(lib, lib.lower(header.value)).Split? then
      var s := SplitGraceful(lib, lib.lower(header.value));
      Chosen(lib, cfg, s.host, s.port, r)
    else if OnlyDefault(lib, cfg) then IsDefault(lib, cfg, r)
    else r == -1
  }

  /** The routes of a virtual host; none for no host. */
  function RoutesOf(cfg: RouterConfig, v: int): seq<Route> {
    if 0 <= v < |cfg.vhosts| then cfg.vhosts[v].routers else []
  }

  lemma SelectedInRange(lib: Lib, cfg: RouterConfig, header: HostHeader, r: int)
    requires Selected(lib, cfg, header, r)
    ensures -1 <= r < |cfg.vhosts|
  {
    if header.Host? && header.value != "" && SplitGraceful(lib, lib.lower(header.value)).Split? {
      var s := SplitGraceful(lib, lib.lower(header.value));
      ChosenInRange(lib, cfg, s.host, s.port, r);
    }
  }

  lemma ChosenInRange(lib: Lib, cfg: RouterConfig, host: string, port: string, r: int)
    requires Chosen(lib, cfg, host, port, r)
    ensures -1 <= r < |cfg.vhosts|
  {}

  /** The virtual host that a domain finds, as an administrator names it; -1 for none. */
  ghost predicate FoundFor(lib: Lib, cfg: RouterConfig, domain: string, r: int) {
    match SplitGraceful(lib, domain)
    case Split(host, port) => Chosen(lib, cfg, host, port, r)
    case NoSplit => r == -1
  }

  lemma FoundInRange(lib: Lib, cfg: RouterConfig, domain: string, r: int)
    requires FoundFor(lib, cfg, domain, r)
    ensures -1 <= r < |cfg.vhosts|
  {}

  /** `r` is where the route was added; -1 when the domain finds nothing or the route is malformed. */
  ghost predicate RouteAdded(lib: Lib, cfg: RouterConfig, domain: string, route: Route, r: int) {
    && -1 <= r < |cfg.vhosts|
    && if r == -1 then FoundFor(lib, cfg, domain, -1) || !route.wellFormed
       else FoundFor(lib, cfg, domain, r) && route.wellFormed
  }

  function WithRoutes(cfg: RouterConfig, v: int, rs: seq<Route>): RouterConfig
    requires 0 <= v < |cfg.vhosts|
  {
    cfg.(vhosts := cfg.vhosts[v := cfg.vhosts[v].(routers := rs)])
  }

  lemma AddedRoutesOk(lib: Lib, cfg: RouterConfig, v: int, route: Route)
    requires Buildable(lib, cfg) && 0 <= v < |cfg.vhosts| && route.wellFormed
    ensures forall r :: r in cfg.vhosts[v].routers + [route] ==> r.wellFormed
  {
    assert RoutesOk(cfg.vhosts[v]);
  }

  /** The index does not depend on the routes. */
  lemma WithRoutesServes(ix: Index, lib: Lib, cfg: RouterConfig, v: int, rs: seq<Route>)
    requires Buildable(lib, cfg) && Indexes(ix, lib, cfg) && 0 <= v < |cfg.vhosts|
    requires forall r :: r in rs ==> r.wellFormed
    ensures Buildable(lib, WithRoutes(cfg, v, rs)) && Indexes(ix, lib, WithRoutes(cfg, v, rs))
  {
    hide Sends, Lean, Sorted, DomainKey;
    var cfg' := WithRoutes(cfg, v, rs);
    forall u, j
      ensures At(cfg', u, j) <==> At(cfg, u, j)
      ensures At(cfg, u, j) ==> KeyAt(lib, cfg', u, j) == KeyAt(lib, cfg, u, j)
    {}
    forall k, u: nat
      ensures Listed(lib, cfg', |cfg'.vhosts|, 0, k, u) <==> Listed(lib, cfg, |cfg.vhosts|, 0, k, u)
    {}
    assert forall u :: 0 <= u < |cfg.vhosts| && u != v ==> cfg'.vhosts[u] == cfg.vhosts[u];
  }

  /** Two selections for one request are one. */
  lemma SelectedIsUnique(lib: Lib, cfg: RouterConfig, header: HostHeader, r: int, r': int)
    requires Buildable(lib, cfg) && Selected(lib, cfg, header, r) && Selected(lib, cfg, header, r')
    ensures r == r'
  {
    if header.Host? && header.value != "" && SplitGraceful(lib, lib.lower(header.value)).Split? {
      var s := SplitGraceful(lib, lib.lower(header.value));
      ChosenIsUnique(lib, cfg, s.host, s.port, r, r');
    }
  }

  /** The route of a request, as MatchRoute promises it. */
  ghost predicate IsRouteFor(lib: Lib, cfg: RouterConfig, header: HostHeader, matches: Route -> bool, r: MaybeRoute) {
    exists v :: Selected(lib, cfg, header, v) && IsFirstMatch(RoutesOf(cfg, v), matches, r)
  }

  /** All tables that serve a config, however they came to, route every request alike. */
  lemma RouteIsDetermined(lib: Lib, cfg: RouterConfig, header: HostHeader, matches: Route -> bool, r: MaybeRoute,
                          r': MaybeRoute)
    requires Buildable(lib, cfg)
    requires IsRouteFor(lib, cfg, header, matches, r) && IsRouteFor(lib, cfg, header, matches, r')
    ensures r == r'
  {
    hide Buildable, Selected;
    var v :| Selected(lib, cfg, header, v) && IsFirstMatch(RoutesOf(cfg, v), matches, r);
    var v' :| Selected(lib, cfg, header, v') && IsFirstMatch(RoutesOf(cfg, v'), matches, r');
    SelectedIsUnique(lib, cfg, header, v, v');
    FirstMatchIsUnique(RoutesOf(cfg, v), matches, r, r');
  }

  lemma FirstMatchIsUnique(rs: seq<Route>, matches: Route -> bool, r: MaybeRoute, r': MaybeRoute)
    requires IsFirstMatch(rs, matches, r) && IsFirstMatch(rs, matches, r')
    ensures r == r'
  {
    if r.Found? && r'.Found? {
      var i :| 0 <= i < |rs| && rs[i] == r.route && matches(r.route) && forall j :: 0 <= j < i ==> !matches(rs[j]);
      var i' :| 0 <= i' < |rs| && rs[i'] == r'.route && matches(r'.route) && forall j :: 0 <= j < i' ==>
          !matches(rs[j]);
      assert i == i';
    }
  }

  // ---- order does not matter ----

  lemma ReorderedDefault(lib: Lib, cfg: RouterConfig, cfg': RouterConfig, hosts: seq<nat>, doms: seq<seq<nat>>)
    requires Reordered(cfg, cfg', hosts, doms)
    ensures OnlyDefault(lib, cfg) <==> OnlyDefault(lib, cfg')
  {
    forall v, j | At(cfg, v, j)
      ensures At(cfg', hosts[v], doms[v][j]) && KeyAt(lib, cfg', hosts[v], doms[v][j]) == KeyAt(lib, cfg, v, j)
    {}
    forall v', j' | At(cfg', v', j')
      ensures exists v, j :: At(cfg, v, j) && KeyAt(lib, cfg, v, j) == KeyAt(lib, cfg', v', j')
    {
      var v, j := InverseHost(cfg, cfg', hosts, doms, v', j');
      assert At(cfg, v, j) && KeyAt(lib, cfg, v, j) == KeyAt(lib, cfg', v', j');
    }
  }

  lemma ReorderedIsDefault(lib: Lib, cfg: RouterConfig, cfg': RouterConfig, hosts: seq<nat>, doms: seq<seq<nat>>,
                           r: int)
    requires Reordered(cfg, cfg', hosts, doms) && IsDefault(lib, cfg, r)
    ensures 0 <= r < |hosts| && IsDefault(lib, cfg', hosts[r])
  {
    var j :| At(cfg, r, j) && KeyAt(lib, cfg, r, j) == Default;
    assert At(cfg', hosts[r], doms[r][j]) && KeyAt(lib, cfg', hosts[r], doms[r][j]) == Default;
  }

  /** Reordering keeps where every request goes, with a usable host or without: to the same virtual
      host under its new number. */
  lemma ReorderedSelected(lib: Lib, cfg: RouterConfig, cfg': RouterConfig, hosts: seq<nat>, doms: seq<seq<nat>>,
                          header: HostHeader, r: int)
    requires Reordered(cfg, cfg', hosts, doms) && Selected(lib, cfg, header, r)
    ensures r == -1 || 0 <= r < |hosts|
    ensures Selected(lib, cfg', header, if r == -1 then -1 else hosts[r])
  {
    hide Reordered, Chosen, OnlyDefault, IsDefault;
    if header.Host? && header.value != "" && SplitGraceful(lib, lib.lower(header.value)).Split? {
      var s := SplitGraceful(lib, lib.lower(header.value));
      ReorderedChooses(lib, cfg, cfg', hosts, doms, s.host, s.port, r);
    } else {
      ReorderedDefault(lib, cfg, cfg', hosts, doms);
      if OnlyDefault(lib, cfg) {
        ReorderedIsDefault(lib, cfg, cfg', hosts, doms, r);
      }
    }
  }

  /** The selected virtual host has the same routes. */
  lemma ReorderedRoutes(lib: Lib, cfg: RouterConfig, cfg': RouterConfig, hosts: seq<nat>, doms: seq<seq<nat>>,
                        header: HostHeader, r: int, r': int)
    requires Reordered(cfg, cfg', hosts, doms) && Buildable(lib, cfg)
    requires Selected(lib, cfg, header, r) && Selected(lib, cfg', header, r')
    ensures RoutesOf(cfg', r') == RoutesOf(cfg, r)
  {
    hide Buildable, Selected;
    ReorderedBuilds(lib, cfg, cfg', hosts, doms);
    ReorderedSelected(lib, cfg, cfg', hosts, doms, header, r);
    SelectedIsUnique(lib, cfg', header, r', if r == -1 then -1 else hosts[r]);
  }

  lemma NothingMatches(matches: Route -> bool)
    ensures IsFirstMatch([], matches, NoRoute)
  {}

  class Table {
    var fallback: int
    var definite: map<string, map<string, nat>>
    var wild: map<string, seq<Entry>>
    var vhosts: seq<VirtualHost>
    ghost var owned: set<VirtualHost>

    function Ix(): Index
      reads this
    {
      Index(fallback, definite, wild)
    }

    /** The virtual hosts are those of the config, in its order, with its routes. */
    ghost predicate Hosts(cfgs: seq<VHostConfig>)
      reads this, owned
    {
      && |vhosts| == |cfgs|
      && (forall h :: h in vhosts ==> h in owned)
      && (forall i, j :: 0 <= i < j < |vhosts| ==> vhosts[i] != vhosts[j])
      && (forall i :: 0 <= i < |vhosts| ==> vhosts[i].Sound() && vhosts[i].routes == cfgs[i].routers)
    }

    /** This table is one that can be built from the config. */
    ghost predicate Serves(lib: Lib, cfg: RouterConfig)
      reads this, owned
    {
      Buildable(lib, cfg) && Indexes(Ix(), lib, cfg) && Hosts(cfg.vhosts)
    }

    constructor Empty()
      ensures Ix() == EMPTY && vhosts == [] && owned == {}
    {
      fallback, definite, wild, vhosts, owned := -1, map[], map[], [], {};
    }

    /** Enters one domain in the index, unless its key is there already or stands for nothing. */
    method GenerateHostWithPortConfig(host: string, port: string, index: nat) returns (ok: bool)
      requires fallback >= -1
      modifies `fallback, `definite, `wild
      ensures ok <==> Classify(host, port) != Invalid && !Known(old(Ix()), Classify(host, port))
      ensures Ix() == if ok then Add(old(Ix()), Classify(host, port), index) else old(Ix())
    {
      ghost var k := Classify(host, port);
      if host == "" && port == "" {
        return false;
      }
      if host == "*" && (port == "*" || port == "") {
        if fallback != -1 {
          assert Sends(Ix(), k, fallback);
          return false;
        }
        fallback := index;
        return true;
      }
      if '*' !in host {
        if host !in definite {
          definite := definite[host := map[port := index]];
        } else {
          if port in definite[host] {
            assert Sends(Ix(), k, definite[host][port]);
            return false;
          }
          var m: map<string, nat> := definite[host];
          m := m[port := index];
          definite := definite[host := m];
        }
        return true;
      }
      if host[0] == '*' {
        ok := AddWildcard(host[1..], port, index);
        return;
      }
      return false;
    }

    method AddWildcard(suffix: string, port: string, index: nat) returns (ok: bool)
      modifies `wild
      ensures ok <==> !Known(old(Ix()), Wildcard(suffix, port))
      ensures Ix() == if ok then Add(old(Ix()), Wildcard(suffix, port), index) else old(Ix())
    {
      if port !in wild {
        wild := wild[port := [Entry(suffix, index)]];
        assert [] + [Entry(suffix, index)] == [Entry(suffix, index)];
        return true;
      }
      var m := wild[port];
      for i := 0 to |m|
        invariant unchanged(`wild)
        invariant forall j :: 0 <= j < i ==> m[j].suffix != suffix
      {
        if m[i].suffix == suffix {
          assert Sends(Ix(), Wildcard(suffix, port), m[i].index);
          return false;
        }
      }
      wild := wild[port := m + [Entry(suffix, index)]];
      return true;
    }

    /** Sorts every wildcard list; the index sends every key where it did. */
    method SortWildcards(lib: Lib)
      requires LibOk(lib)
      modifies `wild
      ensures Sorted(Ix()) && (old(Lean(Ix())) ==> Lean(Ix()))
      ensures forall k, v: nat :: Sends(Ix(), k, v) <==> old(Sends(Ix(), k, v))
    {
      hide Sends, LibOk, SortedByLength, SameEntries;
      var todo := wild.Keys;
      while todo != {}
        invariant wild.Keys == old(wild).Keys && todo <= wild.Keys
        invariant forall p :: p in wild && p !in todo ==> SameEntries(wild[p], old(wild)[p])
        invariant forall p :: p in todo ==> wild[p] == old(wild)[p]
        invariant forall p :: p in wild && p !in todo ==> SortedByLength(wild[p])
        decreases |todo|
      {
        var port :| port in todo;
        SortIsSort(lib, wild[port]);
        wild := wild[port := lib.sort(wild[port])];
        todo := todo - {port};
      }
      SameSends(old(Ix()), Ix());
    }

    /** The index of the virtual host the rule selects. */
    method FindHighestPriorityIndex(lib: Lib, ghost cfg: RouterConfig, host: string, port: string) returns (r: int)
      requires Indexes(Ix(), lib, cfg)
      ensures Chosen(lib, cfg, host, port, r)
    {
      hide Indexes, Chosen;
      NoDefinite(Ix(), host, port);
      NoWildcard(Ix(), host, port);
      if |definite| > 0 {
        if host in definite {
          var portMap := definite[host];
          if port in portMap {
            DefiniteIsChosen(Ix(), lib, cfg, host, port, port);
            return portMap[port];
          }
          if "*" in portMap {
            DefiniteIsChosen(Ix(), lib, cfg, host, port, "*");
            return portMap["*"];
          }
        }
      }
      if |wild| > 0 {
        if port in wild {
          var i := FindSuffix(wild[port], host);
          if i != -1 {
            FirstSuffixIsChosen(Ix(), lib, cfg, host, port, port, i);
            return wild[port][i].index;
          }
        }
        if "*" in wild {
          var i := FindSuffix(wild["*"], host);
          if i != -1 {
            FirstSuffixIsChosen(Ix(), lib, cfg, host, port, "*", i);
            return wild["*"][i].index;
          }
        }
      }
      FallbackIsChosen(Ix(), lib, cfg, host, port);
      return fallback;
    }

    /** Enters the domains of virtual host `n`. */
    method AddDomains(lib: Lib, cfg: RouterConfig, n: nat) returns (ok: bool)
      requires n < |cfg.vhosts| && Holds(Ix(), lib, cfg, n, 0) && DistinctBefore(lib, cfg, n, 0)
      modifies `fallback, `definite, `wild
      ensures !ok ==> !Buildable(lib, cfg)
      ensures ok ==> Holds(Ix(), lib, cfg, n + 1, 0) && DistinctBefore(lib, cfg, n + 1, 0)
    {
      hide Holds, DistinctBefore, Buildable, Known, Add, Classify;
      for j := 0 to |cfg.vhosts[n].domains|
        invariant Holds(Ix(), lib, cfg, n, j) && DistinctBefore(lib, cfg, n, j)
      {
        HeldIsLean(Ix(), lib, cfg, n, j);
        match SplitGraceful(lib, lib.lower(cfg.vhosts[n].domains[j]))
        case NoSplit =>
          InvalidIsNotBuildable(lib, cfg, n, j);
          return false;
        case Split(host, port) =>
          ghost var before := Ix();
          var entered := GenerateHostWithPortConfig(host, port, n);
          if !entered {
            if Classify(host, port) == Invalid {
              InvalidIsNotBuildable(lib, cfg, n, j);
            } else {
              KnownIsDuplicate(Ix(), lib, cfg, n, j);
            }
            return false;
          }
          AddHolds(before, lib, cfg, n, j);
          DistinctStep(before, lib, cfg, n, j);
      }
      NextHolds(Ix(), lib, cfg, n);
      NextDistinct(lib, cfg, n);
      return true;
    }

    method FindVirtualHostIndex(lib: Lib, ghost cfg: RouterConfig, hostPort: string) returns (r: int)
      requires Indexes(Ix(), lib, cfg)
      ensures match SplitGraceful(lib, hostPort)
              case Split(host, port) => Chosen(lib, cfg, host, port, r)
              case NoSplit => r == -1
    {
      match SplitGraceful(lib, hostPort)
      case Split(host, port) => r := FindHighestPriorityIndex(lib, cfg, host, port);
      case NoSplit => r := -1;
    }

    /** Routes a request by its host header: by the rule when the host is usable, and to nobody
        otherwise, unless the default is all there is. */
    method FindVirtualHost(lib: Lib, ghost cfg: RouterConfig, header: HostHeader) returns (r: int)
      requires Serves(lib, cfg)
      ensures Selected(lib, cfg, header, r)
    {
      hide Indexes, Buildable, Chosen, OnlyDefault, IsDefault;
      OnlyFallback(Ix(), lib, cfg);
      if |definite| == 0 && |wild| == 0 && fallback != -1 {
        forall host, port ensures Chosen(lib, cfg, host, port, fallback) {
          OnlyDefaultIsChosen(lib, cfg, host, port, fallback);
        }
        return fallback;
      }
      r := -1;
      if header.Host? && header.value != "" {
        r := FindVirtualHostIndex(lib, cfg, lib.lower(header.value));
      }
    }

    method MatchRoute(lib: Lib, ghost cfg: RouterConfig, header: HostHeader, matches: Route -> bool)
      returns (r: MaybeRoute)
      requires Serves(lib, cfg)
      ensures IsRouteFor(lib, cfg, header, matches, r)
    {
      hide Indexes, Buildable, Selected, IsFirstMatch;
      var v := FindVirtualHost(lib, cfg, header);
      SelectedInRange(lib, cfg, header, v);
      if v == -1 {
        r := NoRoute;
        NothingMatches(matches);
      } else {
        r := vhosts[v].GetRouteFromEntries(matches);
      }
    }

    method MatchAllRoutes(lib: Lib, ghost cfg: RouterConfig, header: HostHeader, matches: Route -> bool)
      returns (rs: seq<Route>)
      requires Serves(lib, cfg)
      ensures exists v :: Selected(lib, cfg, header, v) && rs == AllMatches(RoutesOf(cfg, v), matches)
    {
      hide Indexes, Buildable, Selected;
      var v := FindVirtualHost(lib, cfg, header);
      SelectedInRange(lib, cfg, header, v);
      if v == -1 {
        rs := [];
      } else {
        rs := vhosts[v].GetAllRoutesFromEntries(matches);
      }
    }

    method MatchRouteFromHeaderKV(lib: Lib, ghost cfg: RouterConfig, header: HostHeader, key: string, value: string)
      returns (r: MaybeRoute)
      requires Serves(lib, cfg)
      ensures exists v :: Selected(lib, cfg, header, v) && r == LastExact(RoutesOf(cfg, v), key, value)
    {
      hide Indexes, Buildable, Selected;
      var v := FindVirtualHost(lib, cfg, header);
      SelectedInRange(lib, cfg, header, v);
      if v == -1 {
        r := NoRoute;
      } else {
        r := vhosts[v].GetRouteFromHeaderKV(key, value);
      }
    }

    /** Appends a route to the virtual host the domain finds. The domain is taken as it is written. */
    method AddRoute(lib: Lib, ghost cfg: RouterConfig, domain: string, route: Route) returns (r: int)
      requires Serves(lib, cfg)
      modifies owned
      ensures RouteAdded(lib, cfg, domain, route, r)
      ensures Serves(lib, if r == -1 then cfg else WithRoutes(cfg, r, cfg.vhosts[r].routers + [route]))
    {
      hide Indexes, Buildable, Chosen;
      r := FindVirtualHostIndex(lib, cfg, domain);
      FoundInRange(lib, cfg, domain, r);
      if r == -1 || !route.wellFormed {
        return -1;
      }
      vhosts[r].AddRoute(route);
      AddedRoutesOk(lib, cfg, r, route);
      WithRoutesServes(Ix(), lib, cfg, r, cfg.vhosts[r].routers + [route]);
    }

    /** Clears the routes of the virtual host the domain finds. */
    method RemoveAllRoutes(lib: Lib, ghost cfg: RouterConfig, domain: string) returns (r: int)
      requires Serves(lib, cfg)
      modifies owned
      ensures FoundFor(lib, cfg, domain, r) && -1 <= r < |cfg.vhosts|
      ensures Serves(lib, if r == -1 then cfg else WithRoutes(cfg, r, []))
    {
      hide Indexes, Buildable, Chosen;
      r := FindVirtualHostIndex(lib, cfg, domain);
      FoundInRange(lib, cfg, domain, r);
      if r == -1 {
        return;
      }
      vhosts[r].RemoveAllRoutes();
      WithRoutesServes(Ix(), lib, cfg, r, []);
    }
  }

  lemma HeldIsLean(ix: Index, lib: Lib, cfg: RouterConfig, n: int, m: int)
    requires Holds(ix, lib, cfg, n, m)
    ensures Lean(ix)
  {}

  lemma InvalidIsNotBuildable(lib: Lib, cfg: RouterConfig, v: int, j: int)
    requires At(cfg, v, j) && KeyAt(lib, cfg, v, j) == Invalid
    ensures !Buildable(lib, cfg)
  {}

  /** The position of the first wildcard whose suffix ends the host; -1 if there is none. */
  method FindSuffix(m: seq<Entry>, host: string) returns (r: int)
    ensures r == -1 ==> NoSuffix(m, host)
    ensures r != -1 ==> 0 <= r < |m| && IsSuffix(m[r].suffix, host) && forall n :: 0 <= n < r ==>
            !IsSuffix(m[n].suffix, host)
  {
    for i := 0 to |m|
      invariant forall n :: 0 <= n < i ==> !IsSuffix(m[n].suffix, host)
    {
      if |m[i].suffix| < |host| {
        var hostIndex := |host| - |m[i].suffix|;
        if m[i].suffix == host[hostIndex..] {
          return i;
        }
      }
    }
    return -1;
  }

  predicate SameEntries(s: seq<Entry>, s': seq<Entry>) {
    multiset(s) == multiset(s')
  }

  lemma SortIsSort(lib: Lib, s: seq<Entry>)
    requires LibOk(lib)
    ensures SortedByLength(lib.sort(s)) && SameEntries(lib.sort(s), s)
  {}

  lemma SameSends(ix: Index, ix': Index)
    requires ix'.fallback == ix.fallback && ix'.definite == ix.definite && ix'.wild.Keys == ix.wild.Keys
    requires forall p :: p in ix.wild ==> SameEntries(ix'.wild[p], ix.wild[p])
    ensures Lean(ix) ==> Lean(ix')
    ensures forall k, v: nat :: Sends(ix', k, v) <==> Sends(ix, k, v)
  {
    forall p | p in ix.wild
      ensures |multiset(ix'.wild[p])| == |multiset(ix.wild[p])|
    {}
    forall p, e | p in ix.wild
      ensures e in ix'.wild[p] <==> e in ix.wild[p]
    {
      assert e in ix.wild[p] <==> e in multiset(ix.wild[p]);
      assert e in ix'.wild[p] <==> e in multiset(ix'.wild[p]);
    }
  }

  /** Builds a table from a config, exactly when the config allows it. */
  method NewRouters(lib: Lib, cfg: RouterConfig) returns (t: Table?)
    requires LibOk(lib)
    ensures t != null <==> Buildable(lib, cfg)
    ensures t != null ==> fresh(t) && fresh(t.owned) && t.Serves(lib, cfg)
  {
    hide Holds, DistinctBefore, Buildable, LibOk;
    if |cfg.vhosts| == 0 {
      EmptyIsNotBuildable(lib, cfg);
      return null;
    }
    t := new Table.Empty();
    EmptyHolds(lib, cfg);
    EmptyIsDistinct(lib, cfg);
    for i := 0 to |cfg.vhosts|
      invariant t != null && fresh(t) && fresh(t.owned) && t.Hosts(cfg.vhosts[..i])
      invariant Holds(t.Ix(), lib, cfg, i, 0) && DistinctBefore(lib, cfg, i, 0)
      invariant forall v :: 0 <= v < i ==> RoutesOk(cfg.vhosts[v])
    {
      var vh := NewVirtualHost(cfg.vhosts[i]);
      if vh == null {
        BadRouteIsNotBuildable(lib, cfg, i);
        return null;
      }
      t.vhosts, t.owned := t.vhosts + [vh], t.owned + {vh};
      var ok := t.AddDomains(lib, cfg, i);
      if !ok {
        return null;
      }
    }
    assert cfg.vhosts[..|cfg.vhosts|] == cfg.vhosts;
    AllDistinct(lib, cfg);
    ghost var before := t.Ix();
    t.SortWildcards(lib);
    SortedIndexes(before, t.Ix(), lib, cfg);
  }

  lemma EmptyIsNotBuildable(lib: Lib, cfg: RouterConfig)
    requires cfg.vhosts == []
    ensures !Buildable(lib, cfg)
  {}

  lemma EmptyIsDistinct(lib: Lib, cfg: RouterConfig)
    ensures DistinctBefore(lib, cfg, 0, 0)
  {}

  lemma BadRouteIsNotBuildable(lib: Lib, cfg: RouterConfig, v: int)
    requires 0 <= v < |cfg.vhosts| && !RoutesOk(cfg.vhosts[v])
    ensures !Buildable(lib, cfg)
  {}

  lemma SortedIndexes(ix: Index, ix': Index, lib: Lib, cfg: RouterConfig)
    requires Holds(ix, lib, cfg, |cfg.vhosts|, 0) && Sorted(ix') && (Lean(ix) ==> Lean(ix'))
    requires forall k, v: nat :: Sends(ix', k, v) <==> Sends(ix, k, v)
    ensures Indexes(ix', lib, cfg)
  {
    hide Sends, Lean, Sorted, Listed;
  }
}
