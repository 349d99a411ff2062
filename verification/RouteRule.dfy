/**
 The rule of the routing table over the text of the configured domains: what a domain matches, which
 of two matching domains is better, which domains are refused and which two are the same.
 */
module RouteRule {
  import opened RouteTable

  /** The address `text` has host `h` and port `p`; one without a port has the empty one. */
  predicate Reads(lib: Lib, text: string, h: string, p: string) {
    || lib.net(text) == HostPort(h, p)
    || (lib.net(text) == MissingPort && h == text && p == "")
  }

  /** The j-th domain of the v-th virtual host, in lower case, has host `h` and port `p`. */
  predicate IsDomain(lib: Lib, cfg: RouterConfig, v: int, j: int, h: string, p: string) {
    At(cfg, v, j) && Reads(lib, lib.lower(cfg.vhosts[v].domains[j]), h, p)
  }

  predicate MatchesAll(h: string, p: string) { h == "*" && (p == "" || p == "*") }

  /** Nothing at all, or a star that is not at the start. */
  predicate Refused(h: string, p: string) {
    (h == "" && p == "") || ('*' in h && h[0] != '*')
  }

  predicate SameDomain(h: string, p: string, h': string, p': string) {
    (h == h' && p == p') || (MatchesAll(h, p) && MatchesAll(h', p'))
  }

  predicate Matches(h: string, p: string, host: string, port: string) {
    || ('*' !in h && h == host && (p == port || p == "*"))
    || (h != "" && h == "*" + h[1..] && IsSuffix(h[1..], host) && (p == port || p == "*"))
    || MatchesAll(h, p)
  }

  /** The smaller the better: hosts before wildcards before the default, ports before any port. */
  function Order(h: string, p: string, port: string): nat {
    if MatchesAll(h, p) then 4 else (if '*' in h then 2 else 0) + (if p == port then 0 else 1)
  }

  predicate NoWorse(h: string, p: string, h': string, p': string, port: string) {
    var n, n' := Order(h, p, port), Order(h', p', port);
    n < n' || (n == n' && |h'| <= |h|)
  }

  /** Domain (h, p) matches, and no domain of the config matches better. */
  ghost predicate Wins(lib: Lib, cfg: RouterConfig, h: string, p: string, host: string, port: string) {
    && Matches(h, p, host, port)
    && (forall v', j', h', p' | IsDomain(lib, cfg, v', j', h', p') ::
          Matches(h', p', host, port) ==> NoWorse(h, p, h', p', port))
  }

  ghost predicate SelectedByText(lib: Lib, cfg: RouterConfig, host: string, port: string, r: int) {
    if r == -1 then forall v, j, h, p | IsDomain(lib, cfg, v, j, h, p) :: !Matches(h, p, host, port)
    else exists j, h, p :: IsDomain(lib, cfg, r, j, h, p) && Wins(lib, cfg, h, p, host, port)
  }

  ghost predicate BuildableByText(lib: Lib, cfg: RouterConfig) {
    && cfg.vhosts != []
    && (forall v :: 0 <= v < |cfg.vhosts| ==> RoutesOk(cfg.vhosts[v]))
    && (forall v, j | At(cfg, v, j) :: exists h, p :: IsDomain(lib, cfg, v, j, h, p) && !Refused(h, p))
    && (forall v, j, h, p, v', j', h', p' | IsDomain(lib, cfg, v, j, h, p) && IsDomain(lib, cfg, v', j', h', p') ::
          SameDomain(h, p, h', p') ==> v == v' && j == j')
  }

  // ---- what a domain stands for ----

  lemma RefusedExactly(h: string, p: string)
    ensures Classify(h, p) == Invalid <==> Refused(h, p)
  {}

  lemma SameExactly(h: string, p: string, h': string, p': string)
    requires !Refused(h, p) && !Refused(h', p')
    ensures Classify(h, p) == Classify(h', p') <==> SameDomain(h, p, h', p')
  {
    if '*' in h && '*' in h' {
      assert h == "*" + h[1..] && h' == "*" + h'[1..];
    }
  }

  lemma MatchesExactly(h: string, p: string, host: string, port: string)
    requires !Refused(h, p)
    ensures Level(Classify(h, p), host, port) != 0 <==> Matches(h, p, host, port)
    ensures Matches(h, p, host, port) ==> Level(Classify(h, p), host, port) == Order(h, p, port) + 1
    ensures SuffixLength(Classify(h, p)) == if '*' in h && !MatchesAll(h, p) then |h| - 1 else 0
  {
    if '*' in h {
      assert h == "*" + h[1..];
    }
  }

  lemma BetterExactly(h: string, p: string, h': string, p': string, host: string, port: string)
    requires !Refused(h, p) && !Refused(h', p') && Matches(h, p, host, port)
    ensures !Beats(Classify(h', p'), Classify(h, p), host, port) <==>
            (Matches(h', p', host, port) ==> NoWorse(h, p, h', p', port))
  {
    MatchesExactly(h, p, host, port);
    MatchesExactly(h', p', host, port);
  }

  // ---- the table ----

  lemma ReadsExactly(lib: Lib, cfg: RouterConfig, v: int, j: int, h: string, p: string)
    requires IsDomain(lib, cfg, v, j, h, p)
    ensures KeyAt(lib, cfg, v, j) == Classify(h, p)
  {}

  lemma ValidIsRead(lib: Lib, cfg: RouterConfig, v: int, j: int) returns (h: string, p: string)
    requires At(cfg, v, j) && KeyAt(lib, cfg, v, j) != Invalid
    ensures IsDomain(lib, cfg, v, j, h, p) && !Refused(h, p) && KeyAt(lib, cfg, v, j) == Classify(h, p)
  {
    var s := SplitGraceful(lib, lib.lower(cfg.vhosts[v].domains[j]));
    h, p := s.host, s.port;
    RefusedExactly(h, p);
  }

  lemma TextBuilds(lib: Lib, cfg: RouterConfig)
    requires BuildableByText(lib, cfg)
    ensures Buildable(lib, cfg)
  {
    hide Reads, Classify, Refused, KeyAt, RoutesOk, SameDomain, At;
    forall v, j | At(cfg, v, j)
      ensures KeyAt(lib, cfg, v, j) != Invalid
    {
      var h, p :| IsDomain(lib, cfg, v, j, h, p) && !Refused(h, p);
      ReadsExactly(lib, cfg, v, j, h, p);
      RefusedExactly(h, p);
    }
    forall v, j, v', j' | At(cfg, v, j) && At(cfg, v', j') && KeyAt(lib, cfg, v, j) == KeyAt(lib, cfg, v', j')
      ensures v == v' && j == j'
    {
      var h, p := ValidIsRead(lib, cfg, v, j);
      var h', p' := ValidIsRead(lib, cfg, v', j');
      SameExactly(h, p, h', p');
    }
  }

  lemma BuiltFromText(lib: Lib, cfg: RouterConfig)
    requires Buildable(lib, cfg)
    ensures BuildableByText(lib, cfg)
  {
    hide Reads, Classify, Refused, KeyAt, RoutesOk, SameDomain, At;
    forall v, j | At(cfg, v, j)
      ensures exists h, p :: IsDomain(lib, cfg, v, j, h, p) && !Refused(h, p)
    {
      var h, p := ValidIsRead(lib, cfg, v, j);
    }
    forall v, j, h, p, v', j', h', p'
      | IsDomain(lib, cfg, v, j, h, p) && IsDomain(lib, cfg, v', j', h', p') && SameDomain(h, p, h', p')
      ensures v == v' && j == j'
    {
      ValidDomain(lib, cfg, v, j, h, p);
      ValidDomain(lib, cfg, v', j', h', p');
      SameExactly(h, p, h', p');
    }
  }

  lemma ValidDomain(lib: Lib, cfg: RouterConfig, v: int, j: int, h: string, p: string)
    requires Buildable(lib, cfg) && IsDomain(lib, cfg, v, j, h, p)
    ensures At(cfg, v, j) && KeyAt(lib, cfg, v, j) == Classify(h, p) && !Refused(h, p)
  {
    ReadsExactly(lib, cfg, v, j, h, p);
    RefusedExactly(h, p);
  }

  /** A table can be built exactly if every domain can be read, none is refused, no two are the same,
      there is a virtual host, and every route is well formed. */
  lemma BuildsExactly(lib: Lib, cfg: RouterConfig)
    ensures Buildable(lib, cfg) <==> BuildableByText(lib, cfg)
  {
    hide Buildable, BuildableByText;
    if Buildable(lib, cfg) {
      BuiltFromText(lib, cfg);
    }
    if BuildableByText(lib, cfg) {
      TextBuilds(lib, cfg);
    }
  }

  lemma WinnerIsBest(lib: Lib, cfg: RouterConfig, host: string, port: string, v: int, j: int, h: string, p: string)
    requires Buildable(lib, cfg) && IsDomain(lib, cfg, v, j, h, p)
    ensures IsBest(lib, cfg, host, port, v, j) <==> Wins(lib, cfg, h, p, host, port)
  {
    hide Buildable, Reads, Classify, Refused, KeyAt, Beats, NoWorse, Matches, Level;
    ValidDomain(lib, cfg, v, j, h, p);
    MatchesExactly(h, p, host, port);
    if IsBest(lib, cfg, host, port, v, j) {
      forall v', j', h', p' | IsDomain(lib, cfg, v', j', h', p')
        ensures Matches(h', p', host, port) ==> NoWorse(h, p, h', p', port)
      {
        ValidDomain(lib, cfg, v', j', h', p');
        BetterExactly(h, p, h', p', host, port);
      }
    }
    if Wins(lib, cfg, h, p, host, port) {
      forall v', j' | At(cfg, v', j')
        ensures !Beats(KeyAt(lib, cfg, v', j'), KeyAt(lib, cfg, v, j), host, port)
      {
        NoneIsInvalid(lib, cfg, v', j');
        var h', p' := ValidIsRead(lib, cfg, v', j');
        BetterExactly(h, p, h', p', host, port);
      }
    }
  }

  lemma NoneIsInvalid(lib: Lib, cfg: RouterConfig, v: int, j: int)
    requires Buildable(lib, cfg) && At(cfg, v, j)
    ensures KeyAt(lib, cfg, v, j) != Invalid
  {}

  /** In a table that can be built, a request goes to a virtual host with a domain whose text matches
      best, and to none exactly if the text of no domain matches. */
  lemma SelectedExactly(lib: Lib, cfg: RouterConfig, host: string, port: string, r: int)
    requires Buildable(lib, cfg)
    ensures Chosen(lib, cfg, host, port, r) <==> SelectedByText(lib, cfg, host, port, r)
  {
    hide Buildable, Reads, Classify, Refused, KeyAt, Matches, Level, IsBest, Wins;
    if r == -1 {
      forall v, j, h, p | IsDomain(lib, cfg, v, j, h, p)
        ensures Level(KeyAt(lib, cfg, v, j), host, port) == 0 <==> !Matches(h, p, host, port)
      {
        ValidDomain(lib, cfg, v, j, h, p);
        MatchesExactly(h, p, host, port);
      }
      forall v, j | At(cfg, v, j)
        ensures exists h, p :: IsDomain(lib, cfg, v, j, h, p)
      {
        NoneIsInvalid(lib, cfg, v, j);
        var h, p := ValidIsRead(lib, cfg, v, j);
      }
    } else {
      if j :| IsBest(lib, cfg, host, port, r, j) {
        BestIsAt(lib, cfg, host, port, r, j);
        NoneIsInvalid(lib, cfg, r, j);
        var h, p := ValidIsRead(lib, cfg, r, j);
        WinnerIsBest(lib, cfg, host, port, r, j, h, p);
      }
      if j, h, p :| IsDomain(lib, cfg, r, j, h, p) && Wins(lib, cfg, h, p, host, port) {
        WinnerIsBest(lib, cfg, host, port, r, j, h, p);
      }
    }
  }

  lemma BestIsAt(lib: Lib, cfg: RouterConfig, host: string, port: string, v: int, j: int)
    requires IsBest(lib, cfg, host, port, v, j)
    ensures At(cfg, v, j)
  {}
}
