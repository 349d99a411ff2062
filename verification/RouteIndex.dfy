/** The index of a routing table: how it is filled, sorted and searched. */
module RouteIndex {
  import opened RouteTable

  datatype Index = Index(
    fallback: int,
    definite: map<string, map<string, nat>>,
    wild: map<string, seq<Entry>>)

  const EMPTY := Index(-1, map[], map[])

  /** The index sends the domains with this key to virtual host `v`. */
  ghost predicate Sends(ix: Index, k: Key, v: nat) {
    match k
    case Default => ix.fallback == v
    case Definite(h, p) => h in ix.definite && p in ix.definite[h] && ix.definite[h][p] == v
    case Wildcard(s, p) => p in ix.wild && Entry(s, v) in ix.wild[p]
    case Invalid => false
  }

  ghost predicate Known(ix: Index, k: Key) {
    exists v :: Sends(ix, k, v)
  }

  function Add(ix: Index, k: Key, v: nat): Index {
    match k
    case Default => ix.(fallback := v)
    case Definite(h, p) =>
      ix.(definite := ix.definite[h := (if h in ix.definite then ix.definite[h] else map[])[p := v]])
    case Wildcard(s, p) =>
      ix.(wild := ix.wild[p := (if p in ix.wild then ix.wild[p] else []) + [Entry(s, v)]])
    case Invalid => ix
  }

  lemma AddSends(ix: Index, k: Key, v: nat, k': Key, v': nat)
    requires !Known(ix, k) && k != Invalid
    ensures Sends(Add(ix, k, v), k', v') <==> Sends(ix, k', v') || (k' == k && v' == v)
  {
    assert !Sends(ix, k, v');
  }

  /** Position (v, j) comes before position (n, m). */
  predicate Before(v: int, j: int, n: int, m: int) {
    v < n || (v == n && j < m)
  }

  /** Some domain of virtual host `v` before position (n, m) has key `k`. */
  ghost predicate Listed(lib: Lib, cfg: RouterConfig, n: int, m: int, k: Key, v: int) {
    exists j :: At(cfg, v, j) && Before(v, j, n, m) && KeyAt(lib, cfg, v, j) == k
  }

  /** The index has no empty entries. */
  predicate Lean(ix: Index) {
    && ix.fallback >= -1
    && (forall h :: h in ix.definite ==> ix.definite[h] != map[])
    && (forall p :: p in ix.wild ==> ix.wild[p] != [])
  }

  /** The index holds exactly the domains before position (n, m). */
  ghost predicate Holds(ix: Index, lib: Lib, cfg: RouterConfig, n: int, m: int) {
    && Lean(ix)
    && (forall k, v: nat :: Sends(ix, k, v) <==> k != Invalid && Listed(lib, cfg, n, m, k, v))
  }

  lemma EmptyHolds(lib: Lib, cfg: RouterConfig)
    ensures Holds(EMPTY, lib, cfg, 0, 0)
  {}

  lemma AddHolds(ix: Index, lib: Lib, cfg: RouterConfig, n: int, m: int)
    requires Holds(ix, lib, cfg, n, m) && At(cfg, n, m)
    requires KeyAt(lib, cfg, n, m) != Invalid && !Known(ix, KeyAt(lib, cfg, n, m))
    ensures Holds(Add(ix, KeyAt(lib, cfg, n, m), n), lib, cfg, n, m + 1)
  {
    hide Sends, Add, Known, Lean;
    var k := KeyAt(lib, cfg, n, m);
    AddLean(ix, k, n);
    forall k', v': nat
      ensures Sends(Add(ix, k, n), k', v') <==> k' != Invalid && Listed(lib, cfg, n, m + 1, k', v')
    {
      AddSends(ix, k, n, k', v');
      ListedStep(lib, cfg, n, m, k', v');
    }
  }

  lemma AddLean(ix: Index, k: Key, v: nat)
    requires Lean(ix)
    ensures Lean(Add(ix, k, v))
  {
    if k.Definite? {
      assert Add(ix, k, v).definite[k.host][k.port] == v;
    }
  }

  lemma ListedStep(lib: Lib, cfg: RouterConfig, n: int, m: int, k: Key, v: int)
    requires At(cfg, n, m)
    ensures Listed(lib, cfg, n, m + 1, k, v) <==> Listed(lib, cfg, n, m, k, v) || (v == n && k == KeyAt(lib, cfg, n, m))
  {
    if v == n && k == KeyAt(lib, cfg, n, m) {
      assert At(cfg, v, m) && Before(v, m, n, m + 1);
    }
    if Listed(lib, cfg, n, m, k, v) {
      var j :| At(cfg, v, j) && Before(v, j, n, m) && KeyAt(lib, cfg, v, j) == k;
      assert Before(v, j, n, m + 1);
    }
  }

  /** The end of one virtual host is the beginning of the next. */
  lemma NextHolds(ix: Index, lib: Lib, cfg: RouterConfig, n: int)
    requires 0 <= n < |cfg.vhosts| && Holds(ix, lib, cfg, n, |cfg.vhosts[n].domains|)
    ensures Holds(ix, lib, cfg, n + 1, 0)
  {
    hide Sends, Lean;
    var m := |cfg.vhosts[n].domains|;
    forall k, v: nat
      ensures Listed(lib, cfg, n, m, k, v) <==> Listed(lib, cfg, n + 1, 0, k, v)
    {
      assert forall j :: At(cfg, v, j) ==> (Before(v, j, n, m) <==> Before(v, j, n + 1, 0));
    }
  }

  /** Every wildcard list is sorted, longest suffix first. */
  ghost predicate Sorted(ix: Index) {
    forall p :: p in ix.wild ==> SortedByLength(ix.wild[p])
  }

  /** The finished index of a config. */
  ghost predicate Indexes(ix: Index, lib: Lib, cfg: RouterConfig) {
    Holds(ix, lib, cfg, |cfg.vhosts|, 0) && Sorted(ix)
  }

  /** A finished index sends a key to the virtual hosts that list it. */
  lemma SentIsListed(ix: Index, lib: Lib, cfg: RouterConfig, k: Key, v: nat) returns (j: int)
    requires Indexes(ix, lib, cfg) && Sends(ix, k, v)
    ensures At(cfg, v, j) && KeyAt(lib, cfg, v, j) == k
  {
    hide Sends;
    assert Listed(lib, cfg, |cfg.vhosts|, 0, k, v);
    j :| At(cfg, v, j) && Before(v, j, |cfg.vhosts|, 0) && KeyAt(lib, cfg, v, j) == k;
  }

  lemma ListedIsSent(ix: Index, lib: Lib, cfg: RouterConfig, v: int, j: int)
    requires Indexes(ix, lib, cfg) && At(cfg, v, j) && KeyAt(lib, cfg, v, j) != Invalid
    ensures Sends(ix, KeyAt(lib, cfg, v, j), v)
  {
    hide Sends;
    assert Before(v, j, |cfg.vhosts|, 0);
    assert Listed(lib, cfg, |cfg.vhosts|, 0, KeyAt(lib, cfg, v, j), v);
  }

  /** No domain of the index matches at level `l`. */
  ghost predicate NoneAt(ix: Index, host: string, port: string, l: nat) {
    forall k, v: nat :: Sends(ix, k, v) ==> Level(k, host, port) != l
  }

  /** No wildcard of the list matches the host. */
  predicate NoSuffix(s: seq<Entry>, host: string) {
    forall i :: 0 <= i < |s| ==> !IsSuffix(s[i].suffix, host)
  }

  lemma NoDefinite(ix: Index, host: string, port: string)
    ensures (host !in ix.definite || port !in ix.definite[host]) ==> NoneAt(ix, host, port, 1)
    ensures (host !in ix.definite || "*" !in ix.definite[host]) ==> NoneAt(ix, host, port, 2)
  {}

  lemma NoWildcard(ix: Index, host: string, port: string)
    ensures (port !in ix.wild || NoSuffix(ix.wild[port], host)) ==> NoneAt(ix, host, port, 3)
    ensures ("*" !in ix.wild || NoSuffix(ix.wild["*"], host)) ==> NoneAt(ix, host, port, 4)
  {}

  /** A key that is sent to `v` and that no better key competes with selects `v`. */
  lemma BestIsChosen(ix: Index, lib: Lib, cfg: RouterConfig, host: string, port: string, k: Key, v: nat)
    requires Indexes(ix, lib, cfg) && Sends(ix, k, v)
    requires Level(k, host, port) != 0
    requires forall l :: 0 < l < Level(k, host, port) ==> NoneAt(ix, host, port, l)
    requires forall k', v': nat :: Sends(ix, k', v') && Level(k', host, port) == Level(k, host, port)
                                   ==> SuffixLength(k') <= SuffixLength(k)
    ensures Chosen(lib, cfg, host, port, v)
  {
    hide Sends, Level, SuffixLength, Indexes;
    var j := SentIsListed(ix, lib, cfg, k, v);
    forall v', j' | At(cfg, v', j')
      ensures !Beats(KeyAt(lib, cfg, v', j'), k, host, port)
    {
      var k' := KeyAt(lib, cfg, v', j');
      InvalidMatchesNothing(k', host, port);
      if k' != Invalid {
        ListedIsSent(ix, lib, cfg, v', j');
        assert NoneAt(ix, host, port, Level(k', host, port))
          || Level(k', host, port) == 0 || Level(k', host, port) >= Level(k, host, port);
      }
    }
    assert IsBest(lib, cfg, host, port, v, j);
  }

  lemma InvalidMatchesNothing(k: Key, host: string, port: string)
    ensures k == Invalid ==> Level(k, host, port) == 0
  {}

  /** A definite domain of the request's host is chosen. */
  lemma DefiniteIsChosen(ix: Index, lib: Lib, cfg: RouterConfig, host: string, port: string, p: string)
    requires Indexes(ix, lib, cfg)
    requires host in ix.definite && p in ix.definite[host]
    requires p == port || (p == "*" && NoneAt(ix, host, port, 1))
    ensures Chosen(lib, cfg, host, port, ix.definite[host][p])
  {
    hide Indexes, NoneAt;
    BestIsChosen(ix, lib, cfg, host, port, Definite(host, p), ix.definite[host][p]);
  }

  /** The first wildcard of a sorted list that matches the host has the longest suffix. */
  lemma FirstSuffixIsChosen(ix: Index, lib: Lib, cfg: RouterConfig, host: string, port: string, p: string, i: int)
    requires Indexes(ix, lib, cfg)
    requires p in ix.wild && 0 <= i < |ix.wild[p]| && IsSuffix(ix.wild[p][i].suffix, host)
    requires forall n :: 0 <= n < i ==> !IsSuffix(ix.wild[p][n].suffix, host)
    requires NoneAt(ix, host, port, 1) && NoneAt(ix, host, port, 2)
    requires p == port || (p == "*" && NoneAt(ix, host, port, 3))
    ensures Chosen(lib, cfg, host, port, ix.wild[p][i].index)
  {
    var e := ix.wild[p][i];
    var k := Wildcard(e.suffix, p);
    assert Sends(ix, k, e.index);
    forall k', v': nat | Sends(ix, k', v') && Level(k', host, port) == Level(k, host, port)
      ensures SuffixLength(k') <= SuffixLength(k)
    {
      var n :| 0 <= n < |ix.wild[p]| && ix.wild[p][n] == Entry(k'.suffix, v');
    }
    FirstSuffixBest(ix, lib, cfg, host, port, p, e);
  }

  lemma FirstSuffixBest(ix: Index, lib: Lib, cfg: RouterConfig, host: string, port: string, p: string, e: Entry)
    requires Indexes(ix, lib, cfg) && Sends(ix, Wildcard(e.suffix, p), e.index) && IsSuffix(e.suffix, host)
    requires NoneAt(ix, host, port, 1) && NoneAt(ix, host, port, 2)
    requires p == port || (p == "*" && NoneAt(ix, host, port, 3))
    requires forall k', v': nat ::
               Sends(ix, k', v') && Level(k', host, port) == Level(Wildcard(e.suffix, p), host, port) ==>
                 SuffixLength(k') <= |e.suffix|
    ensures Chosen(lib, cfg, host, port, e.index)
  {
    hide Indexes, NoneAt, IsSuffix, Sends;
    BestIsChosen(ix, lib, cfg, host, port, Wildcard(e.suffix, p), e.index);
  }

  /** When no definite domain and no wildcard matches, the default decides. */
  lemma FallbackIsChosen(ix: Index, lib: Lib, cfg: RouterConfig, host: string, port: string)
    requires Indexes(ix, lib, cfg)
    requires forall l :: 1 <= l <= 4 ==> NoneAt(ix, host, port, l)
    ensures Chosen(lib, cfg, host, port, ix.fallback)
  {
    if ix.fallback == -1 {
      forall v, j | At(cfg, v, j)
        ensures Level(KeyAt(lib, cfg, v, j), host, port) == 0
      {
        var k := KeyAt(lib, cfg, v, j);
        if k != Invalid {
          ListedIsSent(ix, lib, cfg, v, j);
          assert NoneAt(ix, host, port, Level(k, host, port)) || Level(k, host, port) == 0 || k == Default;
        }
      }
    } else {
      FallbackBest(ix, lib, cfg, host, port);
    }
  }

  lemma FallbackBest(ix: Index, lib: Lib, cfg: RouterConfig, host: string, port: string)
    requires Indexes(ix, lib, cfg) && ix.fallback != -1
    requires forall l :: 1 <= l <= 4 ==> NoneAt(ix, host, port, l)
    ensures Chosen(lib, cfg, host, port, ix.fallback)
  {
    hide NoneAt;
    BestIsChosen(ix, lib, cfg, host, port, Default, ix.fallback);
  }

  /** The config has a default domain and no other. */
  ghost predicate OnlyDefault(lib: Lib, cfg: RouterConfig) {
    && (exists v, j :: At(cfg, v, j) && KeyAt(lib, cfg, v, j) == Default)
    && (forall v, j | At(cfg, v, j) :: KeyAt(lib, cfg, v, j) == Default)
  }

  /** The default domain is one of virtual host `r`. */
  ghost predicate IsDefault(lib: Lib, cfg: RouterConfig, r: int) {
    exists j :: At(cfg, r, j) && KeyAt(lib, cfg, r, j) == Default
  }

  /** An index with a default and nothing else is the index of a config with only a default. */
  lemma OnlyFallback(ix: Index, lib: Lib, cfg: RouterConfig)
    requires Buildable(lib, cfg) && Indexes(ix, lib, cfg)
    ensures |ix.definite| == 0 && |ix.wild| == 0 && ix.fallback != -1 <==> OnlyDefault(lib, cfg)
    ensures ix.fallback != -1 ==> IsDefault(lib, cfg, ix.fallback)
  {
    if ix.fallback != -1 {
      var j := SentIsListed(ix, lib, cfg, Default, ix.fallback);
      if |ix.definite| == 0 && |ix.wild| == 0 {
        forall v, j' | At(cfg, v, j')
          ensures KeyAt(lib, cfg, v, j') == Default
        {
          ListedIsSent(ix, lib, cfg, v, j');
        }
      }
    }
    if OnlyDefault(lib, cfg) {
      var v, j :| At(cfg, v, j) && KeyAt(lib, cfg, v, j) == Default;
      ListedIsSent(ix, lib, cfg, v, j);
      if |ix.definite| > 0 {
        var h :| h in ix.definite;
        var p :| p in ix.definite[h];
        var _ := SentIsListed(ix, lib, cfg, Definite(h, p), ix.definite[h][p]);
      }
      if |ix.wild| > 0 {
        var p :| p in ix.wild;
        var e := ix.wild[p][0];
        var _ := SentIsListed(ix, lib, cfg, Wildcard(e.suffix, p), e.index);
      }
    }
  }

  /** With only a default, the rule selects it for every host and port. */
  lemma OnlyDefaultIsChosen(lib: Lib, cfg: RouterConfig, host: string, port: string, r: int)
    requires OnlyDefault(lib, cfg) && IsDefault(lib, cfg, r)
    ensures Chosen(lib, cfg, host, port, r)
  {
    var j :| At(cfg, r, j) && KeyAt(lib, cfg, r, j) == Default;
    assert IsBest(lib, cfg, host, port, r, j);
  }

  // ---- which configs can be entered ----

  /** The domains before position (n, m) all stand for something, each for something else. */
  ghost predicate DistinctBefore(lib: Lib, cfg: RouterConfig, n: int, m: int) {
    && (forall v, j | At(cfg, v, j) && Before(v, j, n, m) :: KeyAt(lib, cfg, v, j) != Invalid)
    && (forall v, j, v', j' | At(cfg, v, j) && Before(v, j, n, m) && At(cfg, v', j') && Before(v', j', n, m) ::
          KeyAt(lib, cfg, v, j) == KeyAt(lib, cfg, v', j') ==> v == v' && j == j')
  }

  lemma KnownIsDuplicate(ix: Index, lib: Lib, cfg: RouterConfig, n: int, m: int)
    requires Holds(ix, lib, cfg, n, m) && At(cfg, n, m) && Known(ix, KeyAt(lib, cfg, n, m))
    ensures !Buildable(lib, cfg)
  {
    hide Sends, Lean;
    var k := KeyAt(lib, cfg, n, m);
    var v: nat :| Sends(ix, k, v);
    assert Listed(lib, cfg, n, m, k, v);
    var j :| At(cfg, v, j) && Before(v, j, n, m) && KeyAt(lib, cfg, v, j) == k;
  }

  lemma DistinctStep(ix: Index, lib: Lib, cfg: RouterConfig, n: int, m: int)
    requires DistinctBefore(lib, cfg, n, m) && Holds(ix, lib, cfg, n, m) && At(cfg, n, m)
    requires KeyAt(lib, cfg, n, m) != Invalid && !Known(ix, KeyAt(lib, cfg, n, m))
    ensures DistinctBefore(lib, cfg, n, m + 1)
  {
    hide Sends, Lean;
    var k := KeyAt(lib, cfg, n, m);
    forall v, j | At(cfg, v, j) && Before(v, j, n, m)
      ensures KeyAt(lib, cfg, v, j) != k
    {
      assert Listed(lib, cfg, n, m, KeyAt(lib, cfg, v, j), v);
    }
  }

  lemma NextDistinct(lib: Lib, cfg: RouterConfig, n: int)
    requires 0 <= n < |cfg.vhosts| && DistinctBefore(lib, cfg, n, |cfg.vhosts[n].domains|)
    ensures DistinctBefore(lib, cfg, n + 1, 0)
  {
    assert forall v, j :: At(cfg, v, j) && Before(v, j, n + 1, 0) ==> Before(v, j, n, |cfg.vhosts[n].domains|);
  }

  lemma AllDistinct(lib: Lib, cfg: RouterConfig)
    requires DistinctBefore(lib, cfg, |cfg.vhosts|, 0) && cfg.vhosts != []
    requires forall v :: 0 <= v < |cfg.vhosts| ==> RoutesOk(cfg.vhosts[v])
    ensures Buildable(lib, cfg)
  {
    assert forall v, j :: At(cfg, v, j) ==> Before(v, j, |cfg.vhosts|, 0);
  }
}
