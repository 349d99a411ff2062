/** The routers manager: named routing tables, each with the config it was made of. */
module RouteManager {
  import opened RouteTable
  import opened RouteIndex
  import opened Routers

  datatype ConfigArg = NilConfig | Given(config: RouterConfig)

  datatype Outcome = Done | NilRouterConfig | BadConfig | NoRouters | NotChanged

  type Configs = map<string, RouterConfig>

  // ---- what each operation does to the stored configs ----

  /** Updating keeps the old config when no table can be built from the new one; adding does not. */
  ghost predicate Updated(lib: Lib, before: Configs, arg: ConfigArg, after: Configs, out: Outcome) {
    match arg
    case NilConfig => out == NilRouterConfig && after == before
    case Given(cfg) =>
      if cfg.name in before && !Buildable(lib, cfg) then out == BadConfig && after == before
      else out == Done && after == before[cfg.name := cfg]
  }

  /** The routes of virtual host `v` became `rs`; `v` is -1 when nothing was to change. */
  ghost predicate RoutesSet(before: Configs, name: string, v: int, rs: seq<Route>, after: Configs, out: Outcome)
    requires name in before
  {
    if v == -1 then out == NotChanged && after == before
    else 0 <= v < |before[name].vhosts| && out == Done && after == before[name := WithRoutes(before[name], v, rs)]
  }

  ghost predicate RouteWasAdded(lib: Lib, before: Configs, name: string, domain: string, route: Route, after: Configs,
                                out: Outcome) {
    if name !in before then out == Done && after == before
    else if !Buildable(lib, before[name]) then out == NoRouters && after == before
    else
      exists v :: RouteAdded(lib, before[name], domain, route, v)
                  && RoutesSet(before, name, v, RoutesOf(before[name], v) + [route], after, out)
  }

  ghost predicate RoutesWereRemoved(lib: Lib, before: Configs, name: string, domain: string, after: Configs,
                                    out: Outcome) {
    if name !in before then out == Done && after == before
    else if !Buildable(lib, before[name]) then out == NoRouters && after == before
    else
      exists v :: FoundFor(lib, before[name], domain, v) && RoutesSet(before, name, v, [], after, out)
  }

  datatype Wrapper = Wrapper(routers: Table?, config: RouterConfig)

  /** A stored table answers for its config; it is nil exactly when none can be built. */
  ghost predicate Answers(lib: Lib, w: Wrapper)
    reads w.routers, if w.routers == null then {} else w.routers.owned
  {
    if w.routers == null then !Buildable(lib, w.config) else w.routers.Serves(lib, w.config)
  }

  /** Two tables share no virtual host. */
  ghost predicate Apart(t: Table?, t': Table?)
    reads t, t'
  {
    t != null && t' != null ==> t != t' && t.owned !! t'.owned
  }

  lemma AnswersMeans(lib: Lib, w: Wrapper)
    ensures w.routers == null ==> (Answers(lib, w) <==> !Buildable(lib, w.config))
    ensures w.routers != null ==> (Answers(lib, w) <==> w.routers.Serves(lib, w.config))
    ensures w.routers != null && Answers(lib, w) ==> Buildable(lib, w.config)
  {}

  lemma ApartHosts(t: Table, t': Table)
    requires Apart(t, t')
    ensures t.owned !! t'.owned
  {}

  class Manager {
    var wrappers: map<string, Wrapper>

    ghost function Tables(): set<Table>
      reads this
    {
      set n | n in wrappers && wrappers[n].routers != null :: wrappers[n].routers
    }

    ghost function Hosts(): set<VirtualHost>
      reads this, Tables()
    {
      set t, h | t in Tables() && h in t.owned :: h
    }

    ghost function Stored(): Configs
      reads this
    {
      map n | n in wrappers :: wrappers[n].config
    }

    ghost predicate Valid(lib: Lib)
      reads *
    {
      && (forall n :: n in wrappers ==> Answers(lib, wrappers[n]))
      && (forall n, n' :: n in wrappers && n' in wrappers && n != n' ==>
         Apart(wrappers[n].routers, wrappers[n'].routers))
    }

    constructor (ghost lib: Lib)
      ensures Valid(lib) && Stored() == map[]
    {
      wrappers := map[];
    }

    method AddOrUpdateRouters(lib: Lib, arg: ConfigArg) returns (out: Outcome)
      requires LibOk(lib) && Valid(lib)
      modifies this
      ensures Valid(lib) && Updated(lib, old(Stored()), arg, Stored(), out)
    {
      hide Buildable, Indexes, LibOk, Table.Serves;
      match arg
      case NilConfig => return NilRouterConfig;
      case Given(cfg) =>
        var t := NewRouters(lib, cfg);
        if cfg.name in wrappers && t == null {
          return BadConfig;
        }
        wrappers := wrappers[cfg.name := Wrapper(t, cfg)];
        out := Done;
        assert Stored() == old(Stored())[cfg.name := cfg];
    }

    /** Stores the config that a changed table now answers for. */
    method Store(lib: Lib, name: string, config: RouterConfig)
      requires name in wrappers && Answers(lib, Wrapper(wrappers[name].routers, config))
      requires forall n :: n in wrappers && n != name ==> Answers(lib, wrappers[n])
      requires forall n, n' :: n in wrappers && n' in wrappers && n != n' ==>
               Apart(wrappers[n].routers, wrappers[n'].routers)
      modifies this
      ensures Valid(lib) && Stored() == old(Stored())[name := config]
    {
      hide Answers, Apart;
      wrappers := wrappers[name := Wrapper(wrappers[name].routers, config)];
      assert Stored() == old(Stored())[name := config];
    }

    method AddRoute(lib: Lib, name: string, domain: string, route: Route) returns (out: Outcome)
      requires Valid(lib)
      modifies this, Hosts()
      ensures Valid(lib) && RouteWasAdded(lib, old(Stored()), name, domain, route, Stored(), out)
    {
      hide Answers, Apart, Buildable;
      if name !in wrappers {
        return Done;
      }
      var w := wrappers[name];
      AnswersMeans(lib, w);
      if w.routers == null {
        return NoRouters;
      }
      assert w.routers in Tables() && w.routers.owned <= Hosts();
      var v := w.routers.AddRoute(lib, w.config, domain, route);
      AddedInRange(lib, w.config, domain, route, v);
      forall n | n in wrappers && n != name
        ensures Answers(lib, wrappers[n])
      {
        assert old(Answers(lib, wrappers[n]));
        if wrappers[n].routers != null {
          ApartHosts(wrappers[n].routers, w.routers);
        }
      }
      if v == -1 {
        AnswersMeans(lib, w);
        return NotChanged;
      }
      AnswersMeans(lib, Wrapper(w.routers, WithRoutes(w.config, v, w.config.vhosts[v].routers + [route])));
      Store(lib, name, WithRoutes(w.config, v, w.config.vhosts[v].routers + [route]));
      return Done;
    }

    method RemoveAllRoutes(lib: Lib, name: string, domain: string) returns (out: Outcome)
      requires Valid(lib)
      modifies this, Hosts()
      ensures Valid(lib) && RoutesWereRemoved(lib, old(Stored()), name, domain, Stored(), out)
    {
      hide Answers, Apart, Buildable;
      if name !in wrappers {
        return Done;
      }
      var w := wrappers[name];
      AnswersMeans(lib, w);
      if w.routers == null {
        return NoRouters;
      }
      assert w.routers in Tables() && w.routers.owned <= Hosts();
      var v := w.routers.RemoveAllRoutes(lib, w.config, domain);
      forall n | n in wrappers && n != name
        ensures Answers(lib, wrappers[n])
      {
        assert old(Answers(lib, wrappers[n]));
        if wrappers[n].routers != null {
          ApartHosts(wrappers[n].routers, w.routers);
        }
      }
      if v == -1 {
        AnswersMeans(lib, w);
        return NotChanged;
      }
      AnswersMeans(lib, Wrapper(w.routers, WithRoutes(w.config, v, [])));
      Store(lib, name, WithRoutes(w.config, v, []));
      return Done;
    }

    /** Routing by a stored table is routing by the stored config. */
    method MatchRoute(lib: Lib, name: string, header: HostHeader, matches: Route -> bool) returns (r: MaybeRoute)
      requires Valid(lib)
      ensures if name in Stored() && Buildable(lib, Stored()[name])
              then IsRouteFor(lib, Stored()[name], header, matches, r) else r == NoRoute
    {
      hide Buildable, Indexes, IsRouteFor;
      r := NoRoute;
      if name in wrappers {
        var w := wrappers[name];
        assert Answers(lib, w);
        if w.routers != null {
          r := w.routers.MatchRoute(lib, w.config, header, matches);
        }
      }
    }

    /** Every lookup in a stored table gets the answer of a table built afresh from the stored config. */
    method AsBuiltAfresh(lib: Lib, name: string, header: HostHeader, matches: Route -> bool, key: string, value: string)
      returns (live: Lookups, afresh: Lookups)
      requires LibOk(lib) && Valid(lib) && name in wrappers && wrappers[name].routers != null
      ensures live == afresh
    {
      hide LibOk, Buildable, Indexes;
      var w := wrappers[name];
      assert Answers(lib, w);
      live := AllLookups(lib, w.routers, w.config, header, matches, key, value);
      var t := NewRouters(lib, w.config);
      afresh := AllLookups(lib, t, w.config, header, matches, key, value);
      LookupsAreDetermined(lib, w.config, header, matches, key, value, live, afresh);
    }
  }

  /** The answers of the three lookups. */
  datatype Lookups = Lookups(route: MaybeRoute, routes: seq<Route>, byHeader: MaybeRoute)

  ghost predicate AreLookups(lib: Lib, cfg: RouterConfig, header: HostHeader, matches: Route -> bool, key: string,
                             value: string, l: Lookups) {
    && IsRouteFor(lib, cfg, header, matches, l.route)
    && (exists v :: Selected(lib, cfg, header, v) && l.routes == AllMatches(RoutesOf(cfg, v), matches))
    && (exists v :: Selected(lib, cfg, header, v) && l.byHeader == LastExact(RoutesOf(cfg, v), key, value))
  }

  method AllLookups(lib: Lib, t: Table, ghost cfg: RouterConfig, header: HostHeader, matches: Route -> bool,
                    key: string, value: string)
    returns (l: Lookups)
    requires t.Serves(lib, cfg)
    ensures AreLookups(lib, cfg, header, matches, key, value, l)
  {
    hide Table.Serves, IsRouteFor, Selected, Buildable;
    var route := t.MatchRoute(lib, cfg, header, matches);
    var routes := t.MatchAllRoutes(lib, cfg, header, matches);
    var byHeader := t.MatchRouteFromHeaderKV(lib, cfg, header, key, value);
    l := Lookups(route, routes, byHeader);
  }

  /** The lookups of a request are a function of the config. */
  lemma LookupsAreDetermined(lib: Lib, cfg: RouterConfig, header: HostHeader, matches: Route -> bool, key: string,
                             value: string,
                             l: Lookups, l': Lookups)
    requires Buildable(lib, cfg)
    requires AreLookups(lib, cfg, header, matches, key, value, l)
             && AreLookups(lib, cfg, header, matches, key, value, l')
    ensures l == l'
  {
    hide IsRouteFor, Selected, Buildable;
    RouteIsDetermined(lib, cfg, header, matches, l.route, l'.route);
    var v :| Selected(lib, cfg, header, v) && l.routes == AllMatches(RoutesOf(cfg, v), matches);
    var v' :| Selected(lib, cfg, header, v') && l'.routes == AllMatches(RoutesOf(cfg, v'), matches);
    SelectedIsUnique(lib, cfg, header, v, v');
    var u :| Selected(lib, cfg, header, u) && l.byHeader == LastExact(RoutesOf(cfg, u), key, value);
    var u' :| Selected(lib, cfg, header, u') && l'.byHeader == LastExact(RoutesOf(cfg, u'), key, value);
    SelectedIsUnique(lib, cfg, header, u, u');
  }

  // ---- order and sort do not matter ----

  /** The rule asks nothing of the sort. */
  lemma SortDoesNotMatter(lib: Lib, lib': Lib, cfg: RouterConfig)
    requires lib'.lower == lib.lower && lib'.net == lib.net
    ensures forall v, j | At(cfg, v, j) :: KeyAt(lib', cfg, v, j) == KeyAt(lib, cfg, v, j)
    ensures Buildable(lib', cfg) <==> Buildable(lib, cfg)
  {}

  lemma SortSelectsAlike(lib: Lib, lib': Lib, cfg: RouterConfig, header: HostHeader, r: int)
    requires lib'.lower == lib.lower && lib'.net == lib.net && Selected(lib', cfg, header, r)
    ensures Selected(lib, cfg, header, r)
  {
    hide Level, SuffixLength, Classify;
    assert forall v, j | At(cfg, v, j) :: KeyAt(lib', cfg, v, j) == KeyAt(lib, cfg, v, j);
    if header.Host? && header.value != "" && SplitGraceful(lib, lib.lower(header.value)).Split? {
      var s := SplitGraceful(lib, lib.lower(header.value));
      if r != -1 {
        var j :| IsBest(lib', cfg, s.host, s.port, r, j);
        assert IsBest(lib, cfg, s.host, s.port, r, j);
      }
    } else if OnlyDefault(lib', cfg) {
      assert OnlyDefault(lib, cfg);
    }
  }

  /** The lookups of a request do not depend on the order of a config, nor on how the table was sorted. */
  lemma ReorderedLookups(lib: Lib, lib': Lib, cfg: RouterConfig, cfg': RouterConfig, hosts: seq<nat>,
                         doms: seq<seq<nat>>,
                         header: HostHeader, matches: Route -> bool, key: string, value: string, l: Lookups,
                             l': Lookups)
    requires lib'.lower == lib.lower && lib'.net == lib.net
    requires Reordered(cfg, cfg', hosts, doms) && Buildable(lib, cfg)
    requires AreLookups(lib, cfg, header, matches, key, value, l)
    requires AreLookups(lib', cfg', header, matches, key, value, l')
    ensures l == l'
  {
    hide Buildable, Selected, Reordered, IsFirstMatch;
    var v :| Selected(lib, cfg, header, v) && IsFirstMatch(RoutesOf(cfg, v), matches, l.route);
    forall v' | Selected(lib', cfg', header, v')
      ensures RoutesOf(cfg', v') == RoutesOf(cfg, v)
    {
      SortSelectsAlike(lib, lib', cfg', header, v');
      ReorderedRoutes(lib, cfg, cfg', hosts, doms, header, v, v');
    }
    forall u | Selected(lib, cfg, header, u)
      ensures u == v
    {
      SelectedIsUnique(lib, cfg, header, u, v);
    }
    FirstMatchIsUnique(RoutesOf(cfg, v), matches, l.route, l'.route);
  }

  /** Two tables built of one config in different order, with any two sorts: both builds succeed or
      both fail, and every lookup of every request gets the same answer. */
  method ReorderedTablesAgree(lib: Lib, lib': Lib, cfg: RouterConfig, cfg': RouterConfig,
                              ghost hosts: seq<nat>, ghost doms: seq<seq<nat>>,
                              header: HostHeader, matches: Route -> bool, key: string, value: string)
    returns (built: bool, built': bool, l: Lookups, l': Lookups)
    requires LibOk(lib) && LibOk(lib') && lib'.lower == lib.lower && lib'.net == lib.net
    requires Reordered(cfg, cfg', hosts, doms)
    ensures built == built' && l == l'
  {
    hide LibOk, Buildable, Indexes, Reordered, AreLookups;
    SortDoesNotMatter(lib, lib', cfg');
    ReorderedBuilds(lib, cfg, cfg', hosts, doms);
    var t := NewRouters(lib, cfg);
    var t' := NewRouters(lib', cfg');
    built, built' := t != null, t' != null;
    l := Lookups(NoRoute, [], NoRoute);
    l' := l;
    if t != null && t' != null {
      l := AllLookups(lib, t, cfg, header, matches, key, value);
      l' := AllLookups(lib', t', cfg', header, matches, key, value);
      ReorderedLookups(lib, lib', cfg, cfg', hosts, doms, header, matches, key, value, l, l');
    }
  }

  lemma AddedInRange(lib: Lib, cfg: RouterConfig, domain: string, route: Route, v: int)
    requires RouteAdded(lib, cfg, domain, route, v)
    ensures -1 <= v < |cfg.vhosts|
  {}
}
