/**
 The routing table: virtual hosts found by a two-level index over their domains.

 The index is judged against a rule over the plain list of configured domains: among the domains
 that match a request's host and port, the best level wins, and among wildcards of one level the
 longest suffix.
 */
module RouteTable {

  /** What `net.SplitHostPort` answers. */
  datatype NetSplit = HostPort(host: string, port: string) | MissingPort | BadAddress

  datatype Split = Split(host: string, port: string) | NoSplit

  /** A wildcard domain of some port: the part after the star, and its virtual host. */
  datatype Entry = Entry(suffix: string, index: nat)

  /** The library functions the table is built with. */
  datatype Lib = Lib(
    lower: string -> string,
    net: string -> NetSplit,
    sort: seq<Entry> -> seq<Entry>)

  predicate SortedByLength(s: seq<Entry>) {
    forall i, j :: 0 <= i < j < |s| ==> |s[j].suffix| <= |s[i].suffix|
  }

  /** The sort is any sort: it need not be stable. */
  ghost predicate LibOk(lib: Lib) {
    forall s: seq<Entry> :: SortedByLength(lib.sort(s)) && multiset(lib.sort(s)) == multiset(s)
  }

  /** A header condition of a route. */
  datatype HeaderMatch = HeaderMatch(key: string, value: string, exact: bool)

  /** A route of the config. `wellFormed` says that a rule can be made of it. */
  datatype Route = Route(payload: string, wellFormed: bool, headers: seq<HeaderMatch>)

  datatype VHostConfig = VHostConfig(name: string, domains: seq<string>, routers: seq<Route>)

  datatype RouterConfig = RouterConfig(name: string, vhosts: seq<VHostConfig>)

  /** "missing port in address" is not an error. */
  function SplitGraceful(lib: Lib, hostPort: string): Split {
    match lib.net(hostPort)
    case HostPort(h, p) => Split(h, p)
    case MissingPort => Split(hostPort, "")
    case BadAddress => NoSplit
  }

  // ---- the rule ----

  /** What a configured domain stands for. */
  datatype Key =
    | Default
    | Definite(host: string, port: string)
    | Wildcard(suffix: string, port: string)
    | Invalid

  function Classify(host: string, port: string): Key {
    if host == "" && port == "" then Invalid
    else if host == "*" && (port == "*" || port == "") then Default
    else if '*' !in host then Definite(host, port)
    else if host[0] == '*' then Wildcard(host[1..], port)
    else Invalid
  }

  function DomainKey(lib: Lib, domain: string): Key {
    match SplitGraceful(lib, lib.lower(domain))
    case Split(h, p) => Classify(h, p)
    case NoSplit => Invalid
  }

  predicate At(cfg: RouterConfig, v: int, j: int) {
    0 <= v < |cfg.vhosts| && 0 <= j < |cfg.vhosts[v].domains|
  }

  /** The key of the j-th domain of the v-th virtual host. */
  function KeyAt(lib: Lib, cfg: RouterConfig, v: int, j: int): Key
    requires At(cfg, v, j)
  {
    DomainKey(lib, cfg.vhosts[v].domains[j])
  }

  predicate RoutesOk(vh: VHostConfig) {
    forall r :: r in vh.routers ==> r.wellFormed
  }

  /** The configs a table can be built from, whatever the order of hosts and domains. */
  ghost predicate Buildable(lib: Lib, cfg: RouterConfig) {
    && cfg.vhosts != []
    && (forall v :: 0 <= v < |cfg.vhosts| ==> RoutesOk(cfg.vhosts[v]))
    && (forall v, j | At(cfg, v, j) :: KeyAt(lib, cfg, v, j) != Invalid)
    && (forall v, j, v', j' | At(cfg, v, j) && At(cfg, v', j') ::
          KeyAt(lib, cfg, v, j) == KeyAt(lib, cfg, v', j') ==> v == v' && j == j')
  }

  predicate IsSuffix(s: string, host: string) {
    |s| < |host| && host[|host| - |s|..] == s
  }

  /** How a domain matches: 1 definite host and port, 2 definite host and any port, 3 wildcard host
      and definite port, 4 wildcard host and any port, 5 the default; 0 not at all. */
  function Level(k: Key, host: string, port: string): nat {
    match k
    case Default => 5
    case Definite(h, p) => if h != host then 0 else if p == port then 1 else if p == "*" then 2 else 0
    case Wildcard(s, p) => if !IsSuffix(s, host) then 0 else if p == port then 3 else if p == "*" then 4 else 0
    case Invalid => 0
  }

  function SuffixLength(k: Key): nat { if k.Wildcard? then |k.suffix| else 0 }

  /** `a` matches, and better than `b` does. */
  predicate Beats(a: Key, b: Key, host: string, port: string) {
    var la, lb := Level(a, host, port), Level(b, host, port);
    la != 0 && (lb == 0 || la < lb || (la == lb && SuffixLength(a) > SuffixLength(b)))
  }

  ghost predicate IsBest(lib: Lib, cfg: RouterConfig, host: string, port: string, v: int, j: int) {
    && At(cfg, v, j)
    && Level(KeyAt(lib, cfg, v, j), host, port) != 0
    && (forall v', j' | At(cfg, v', j') :: !Beats(KeyAt(lib, cfg, v', j'), KeyAt(lib, cfg, v, j), host, port))
  }

  /** `r` is the virtual host the rule selects; -1 when no domain matches. */
  ghost predicate Chosen(lib: Lib, cfg: RouterConfig, host: string, port: string, r: int) {
    if r == -1 then forall v, j | At(cfg, v, j) :: Level(KeyAt(lib, cfg, v, j), host, port) == 0
    else exists j :: IsBest(lib, cfg, host, port, r, j)
  }

  /** Two domains that match equally well are the same domain. */
  lemma EquallyGoodIsEqual(a: Key, b: Key, host: string, port: string)
    requires Level(a, host, port) != 0 && Level(b, host, port) != 0
    requires !Beats(a, b, host, port) && !Beats(b, a, host, port)
    ensures a == b
  {}

  /** The rule selects one virtual host at most. */
  lemma ChosenIsUnique(lib: Lib, cfg: RouterConfig, host: string, port: string, r: int, r': int)
    requires Buildable(lib, cfg)
    requires Chosen(lib, cfg, host, port, r) && Chosen(lib, cfg, host, port, r')
    ensures r == r'
  {
    if r != -1 && r' != -1 {
      var j :| IsBest(lib, cfg, host, port, r, j);
      var j' :| IsBest(lib, cfg, host, port, r', j');
      EquallyGoodIsEqual(KeyAt(lib, cfg, r, j), KeyAt(lib, cfg, r', j'), host, port);
    }
  }

  /** A configured domain, looked up as it is written in lower case, finds its own virtual host. */
  lemma DomainFindsItself(lib: Lib, cfg: RouterConfig, v: int, j: int)
    requires Buildable(lib, cfg) && At(cfg, v, j)
    ensures var s := SplitGraceful(lib, lib.lower(cfg.vhosts[v].domains[j]));
            s.Split? && Chosen(lib, cfg, s.host, s.port, v)
  {
    var s := SplitGraceful(lib, lib.lower(cfg.vhosts[v].domains[j]));
    var k := KeyAt(lib, cfg, v, j);
    assert k != Invalid;
    forall v', j' | At(cfg, v', j')
      ensures !Beats(KeyAt(lib, cfg, v', j'), k, s.host, s.port)
    {
      var k' := KeyAt(lib, cfg, v', j');
      ClassifiedBest(s.host, s.port, SplitGraceful(lib, lib.lower(cfg.vhosts[v'].domains[j'])));
      assert k' != Invalid;
    }
    ClassifiedMatches(s.host, s.port);
    assert IsBest(lib, cfg, s.host, s.port, v, j);
  }

  lemma ClassifiedMatches(host: string, port: string)
    requires Classify(host, port) != Invalid
    ensures Level(Classify(host, port), host, port) != 0
  {}

  lemma ClassifiedBest(host: string, port: string, other: Split)
    requires Classify(host, port) != Invalid
    ensures other.Split? ==> !Beats(Classify(other.host, other.port), Classify(host, port), host, port)
  {}

  // ---- order does not matter ----

  predicate IsPermutation(p: seq<nat>) {
    && (forall i :: 0 <= i < |p| ==> p[i] < |p|)
    && (forall i, j :: 0 <= i < j < |p| ==> p[i] != p[j])
  }

  /** `cfg'` lists the virtual hosts of `cfg` in another order (host v becomes host hosts[v]), and
      the domains of each in another order (domain j of host v becomes domain doms[v][j]). */
  ghost predicate Reordered(cfg: RouterConfig, cfg': RouterConfig, hosts: seq<nat>, doms: seq<seq<nat>>) {
    && |hosts| == |doms| == |cfg.vhosts| == |cfg'.vhosts|
    && IsPermutation(hosts)
    && (forall v :: 0 <= v < |hosts| ==>
          && |doms[v]| == |cfg.vhosts[v].domains| == |cfg'.vhosts[hosts[v]].domains|
          && IsPermutation(doms[v])
          && cfg'.vhosts[hosts[v]].routers == cfg.vhosts[v].routers
          && (forall j :: 0 <= j < |doms[v]| ==> cfg'.vhosts[hosts[v]].domains[doms[v][j]] == cfg.vhosts[v].domains[j]))
  }

  /** A one-to-one map of an initial segment of the numbers into itself reaches every number. */
  lemma {:induction false} PermutationIsOnto(p: seq<nat>, x: nat)
    requires IsPermutation(p) && x < |p|
    ensures x in p
  {
    var image := set i: nat | i < |p| :: p[i];
    ImageSize(p, |p|);
    if x !in p {
      assert image <= Below(|p|) - {x};
      SubsetSize(image, Below(|p|) - {x});
    }
  }

  ghost function Below(n: nat): (s: set<nat>)
    ensures |s| == n && (forall i: nat :: i in s <==> i < n)
  {
    if n == 0 then {} else Below(n - 1) + {n - 1}
  }

  lemma {:induction false} ImageSize(p: seq<nat>, n: nat)
    requires n <= |p| && (forall i, j :: 0 <= i < j < |p| ==> p[i] != p[j])
    ensures |(set i: nat | i < n :: p[i])| == n
  {
    if n > 0 {
      ImageSize(p, n - 1);
      assert (set i: nat | i < n :: p[i]) == (set i: nat | i < n - 1 :: p[i]) + {p[n - 1]};
    }
  }

  lemma {:induction false} SubsetSize(a: set<nat>, b: set<nat>)
    requires a <= b
    ensures |a| <= |b|
    decreases |a|
  {
    if a != {} {
      var x :| x in a;
      SubsetSize(a - {x}, b - {x});
    }
  }

  lemma InverseHost(cfg: RouterConfig, cfg': RouterConfig, hosts: seq<nat>, doms: seq<seq<nat>>, v': int,
                    j': int) returns (v: int, j: int)
    requires Reordered(cfg, cfg', hosts, doms) && At(cfg', v', j')
    ensures At(cfg, v, j) && hosts[v] == v' && doms[v][j] == j'
  {
    PermutationIsOnto(hosts, v');
    v :| 0 <= v < |hosts| && hosts[v] == v';
    PermutationIsOnto(doms[v], j');
    j :| 0 <= j < |doms[v]| && doms[v][j] == j';
  }

  /** Reordering does not change whether a table can be built. */
  lemma ReorderedBuilds(lib: Lib, cfg: RouterConfig, cfg': RouterConfig, hosts: seq<nat>, doms: seq<seq<nat>>)
    requires Reordered(cfg, cfg', hosts, doms)
    ensures Buildable(lib, cfg) <==> Buildable(lib, cfg')
  {
    hide Buildable, Reordered;
    if Buildable(lib, cfg) {
      ReorderedStillBuilds(lib, cfg, cfg', hosts, doms);
    }
    if Buildable(lib, cfg') {
      ReorderedAlreadyBuilt(lib, cfg, cfg', hosts, doms);
    }
  }

  lemma ReorderedAlreadyBuilt(lib: Lib, cfg: RouterConfig, cfg': RouterConfig, hosts: seq<nat>, doms: seq<seq<nat>>)
    requires Reordered(cfg, cfg', hosts, doms) && Buildable(lib, cfg')
    ensures Buildable(lib, cfg)
  {
    forall v | 0 <= v < |cfg.vhosts|
      ensures RoutesOk(cfg.vhosts[v])
    {
      assert RoutesOk(cfg'.vhosts[hosts[v]]);
    }
    forall v, j | At(cfg, v, j)
      ensures At(cfg', hosts[v], doms[v][j]) && KeyAt(lib, cfg', hosts[v], doms[v][j]) == KeyAt(lib, cfg, v, j)
    {}
    forall v, j, w, k | At(cfg, v, j) && At(cfg, w, k) && KeyAt(lib, cfg, v, j) == KeyAt(lib, cfg, w, k)
      ensures v == w && j == k
    {
      assert hosts[v] == hosts[w] && doms[v][j] == doms[w][k];
    }
  }

  lemma ReorderedStillBuilds(lib: Lib, cfg: RouterConfig, cfg': RouterConfig, hosts: seq<nat>, doms: seq<seq<nat>>)
    requires Reordered(cfg, cfg', hosts, doms) && Buildable(lib, cfg)
    ensures Buildable(lib, cfg')
  {
    forall v' | 0 <= v' < |cfg'.vhosts|
      ensures RoutesOk(cfg'.vhosts[v'])
    {
      PermutationIsOnto(hosts, v');
      var v :| 0 <= v < |hosts| && hosts[v] == v';
      assert RoutesOk(cfg.vhosts[v]);
    }
    forall v1, j1 | At(cfg', v1, j1)
      ensures KeyAt(lib, cfg', v1, j1) != Invalid
    {
      var v, j := InverseHost(cfg, cfg', hosts, doms, v1, j1);
      assert KeyAt(lib, cfg, v, j) != Invalid;
    }
    forall v1, j1, v2, j2 | At(cfg', v1, j1) && At(cfg', v2, j2) && KeyAt(lib, cfg', v1, j1) == KeyAt(lib, cfg', v2, j2)
      ensures v1 == v2 && j1 == j2
    {
      var v, j := InverseHost(cfg, cfg', hosts, doms, v1, j1);
      var w, k := InverseHost(cfg, cfg', hosts, doms, v2, j2);
      assert KeyAt(lib, cfg, v, j) == KeyAt(lib, cfg', v1, j1);
      assert KeyAt(lib, cfg, w, k) == KeyAt(lib, cfg', v2, j2);
    }
  }

  /** The rule's choices before and after a reordering are one virtual host. */
  lemma ReorderedSelection(lib: Lib, cfg: RouterConfig, cfg': RouterConfig, hosts: seq<nat>, doms: seq<seq<nat>>,
                           host: string, port: string, r: int, r': int)
    requires Reordered(cfg, cfg', hosts, doms) && Buildable(lib, cfg)
    requires Chosen(lib, cfg, host, port, r) && Chosen(lib, cfg', host, port, r')
    ensures r == -1 || 0 <= r < |hosts|
    ensures r' == if r == -1 then -1 else hosts[r]
  {
    hide Buildable, Reordered, Chosen;
    ReorderedBuilds(lib, cfg, cfg', hosts, doms);
    ReorderedChooses(lib, cfg, cfg', hosts, doms, host, port, r);
    ChosenIsUnique(lib, cfg', host, port, r', if r == -1 then -1 else hosts[r]);
  }

  /** Reordering keeps the selection: the same virtual host, under its new number. */
  lemma ReorderedChooses(lib: Lib, cfg: RouterConfig, cfg': RouterConfig, hosts: seq<nat>, doms: seq<seq<nat>>,
                         host: string, port: string, r: int)
    requires Reordered(cfg, cfg', hosts, doms) && Chosen(lib, cfg, host, port, r)
    ensures r == -1 || 0 <= r < |hosts|
    ensures Chosen(lib, cfg', host, port, if r == -1 then -1 else hosts[r])
  {
    if r == -1 {
      forall v', j' | At(cfg', v', j')
        ensures Level(KeyAt(lib, cfg', v', j'), host, port) == 0
      {
        var v, j := InverseHost(cfg, cfg', hosts, doms, v', j');
        assert KeyAt(lib, cfg, v, j) == KeyAt(lib, cfg', v', j');
      }
    } else {
      var j :| IsBest(lib, cfg, host, port, r, j);
      assert KeyAt(lib, cfg', hosts[r], doms[r][j]) == KeyAt(lib, cfg, r, j);
      forall v', j' | At(cfg', v', j')
        ensures !Beats(KeyAt(lib, cfg', v', j'), KeyAt(lib, cfg, r, j), host, port)
      {
        var v, k := InverseHost(cfg, cfg', hosts, doms, v', j');
        assert KeyAt(lib, cfg, v, k) == KeyAt(lib, cfg', v', j');
      }
      assert IsBest(lib, cfg', host, port, hosts[r], doms[r][j]);
    }
  }
}
