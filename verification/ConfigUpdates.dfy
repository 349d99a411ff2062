/** What the config file says about each name after the updates of a run. */
module ConfigUpdates {
  import opened ConfigDump

  /** Where to look something up in a dump. */
  datatype Key =
    | ListenerOf(name: string)
    | ClusterOf(name: string)
    | RouterOf(name: string)
    | ExtensionOf(kind: string)
    | TlsOf

  /** What is found there. */
  datatype Value =
    | Absent
    | AListener(listener: Listener)
    | ACluster(cluster: Cluster)
    | ARouter(router: Router)
    | AnExtension(extension: Extend)
    | ATls(tls: string)

  /** The dump has `x` under `k`, and nothing else under `k`. */
  ghost predicate Shows(d: Content, k: Key, x: Value) {
    match k
    case ListenerOf(n) =>
      && (x.Absent? || (x.AListener? && x.listener.name == n))
      && (forall y: Listener :: y.name == n ==> (y in d.listeners <==> x == AListener(y)))
    case ClusterOf(n) =>
      && (x.Absent? || (x.ACluster? && x.cluster.name == n))
      && (forall y: Cluster :: y.name == n ==> (y in d.clusters <==> x == ACluster(y)))
    case RouterOf(n) =>
      && (x.Absent? || (x.ARouter? && x.router.name == n))
      && (forall y: Router :: y.name == n ==> (y in d.routers <==> x == ARouter(y)))
    case ExtensionOf(n) =>
      && (x.Absent? || (x.AnExtension? && x.extension.kind == n))
      && (forall y: Extend :: y.kind == n ==> (y in d.extensions <==> x == AnExtension(y)))
    case TlsOf => x == ATls(d.tls)
  }

  /** The update is about what is under `k`. */
  predicate Concerns(u: Update, k: Key) {
    match u
    case SetListener(l) => k == ListenerOf(l.name)
    case SetCluster(cl) => k == ClusterOf(cl.name)
    case RemoveCluster(n) => k == ClusterOf(n)
    case SetHosts(n, _) => k == ClusterOf(n)
    case SetRouter(r) => k == RouterOf(r.name)
    case SetExtend(n, _) => k == ExtensionOf(n)
    case SetTls(_) => k == TlsOf
  }

  /** What an update leaves where it looks: the thing given, nothing, or a present cluster with the
      hosts given. */
  function Given(u: Update, x: Value): Value {
    match u
    case SetListener(l) => AListener(l)
    case SetCluster(cl) => ACluster(cl)
    case RemoveCluster(_) => Absent
    case SetHosts(_, hosts) => if x.ACluster? then ACluster(x.cluster.(hosts := hosts)) else Absent
    case SetRouter(r) => ARouter(r)
    case SetExtend(n, body) => AnExtension(Extend(n, body))
    case SetTls(t) => ATls(t)
  }

  function Effect(u: Update, k: Key, x: Value): Value { if Concerns(u, k) then Given(u, x) else x }

  /** What a list of updates, first to last, makes of the value `x` under `k`. */
  function After(us: seq<Update>, k: Key, x: Value): Value {
    if us == [] then x else After(us[1..], k, Effect(us[0], k, x))
  }

  lemma {:induction false} AfterBoth(us: seq<Update>, vs: seq<Update>, k: Key, x: Value)
    ensures After(us + vs, k, x) == After(vs, k, After(us, k, x))
  {
    if us == [] {
      assert us + vs == vs;
    } else {
      AfterBoth(us[1..], vs, k, Effect(us[0], k, x));
      assert (us + vs)[1..] == us[1..] + vs;
    }
  }

  lemma {:induction false} UnconcernedAfter(us: seq<Update>, k: Key, x: Value)
    requires forall u :: u in us ==> !Concerns(u, k)
    ensures After(us, k, x) == x
  {
    if us != [] {
      UnconcernedAfter(us[1..], k, x);
    }
  }

  /** The last update that concerns `k` decides what is there. */
  lemma LastDecides(us: seq<Update>, u: Update, vs: seq<Update>, k: Key, x: Value)
    requires Concerns(u, k) && (forall v :: v in vs ==> !Concerns(v, k))
    ensures After(us + [u] + vs, k, x) == Given(u, After(us, k, x))
  {
    AfterBoth(us + [u], vs, k, x);
    AfterBoth(us, [u], k, x);
    UnconcernedAfter(vs, k, Given(u, After(us, k, x)));
  }

  // ---- what a setter does to the dump ----

  /** What setters keep of a config that starts out empty. */
  predicate Orderly(c: Conf) { Tidy(c) && DistinctKinds(c.extensions) }

  lemma ApplyKeepsOrderly(c: Conf, u: Update)
    requires Orderly(c)
    ensures Orderly(Apply(c, u))
  {
    hide Named, PathsApart, DistinctKinds;
    ApplyKeepsNames(c, u);
    ApplyKeepsPaths(c, u);
    if u.SetExtend? {
      WithExtendKeepsDistinct(c.extensions, u.kind, u.body);
    }
  }

  lemma ListenerAfter(c: Conf, u: Update, n: string, x: Value)
    requires Orderly(c) && Shows(Snapshot(c), ListenerOf(n), x)
    ensures Shows(Snapshot(Apply(c, u)), ListenerOf(n), Effect(u, ListenerOf(n), x))
  {
    hide Snapshot, Named, DistinctKinds;
    ApplyKeepsOrderly(c, u);
    forall y: Listener
      ensures y in Snapshot(c).listeners <==> y.name in c.listeners && c.listeners[y.name] == y
      ensures y in Snapshot(Apply(c, u)).listeners <==>
              y.name in Apply(c, u).listeners && Apply(c, u).listeners[y.name] == y
    {
      ListenerDumped(c, y);
      ListenerDumped(Apply(c, u), y);
    }
  }

  lemma ClusterAfter(c: Conf, u: Update, n: string, x: Value)
    requires Orderly(c) && Shows(Snapshot(c), ClusterOf(n), x)
    ensures Shows(Snapshot(Apply(c, u)), ClusterOf(n), Effect(u, ClusterOf(n), x))
  {
    hide Snapshot, Named, DistinctKinds;
    ApplyKeepsOrderly(c, u);
    forall y: Cluster
      ensures y in Snapshot(c).clusters <==> y.name in c.clusters && c.clusters[y.name] == y
      ensures y in Snapshot(Apply(c, u)).clusters <==>
              y.name in Apply(c, u).clusters && Apply(c, u).clusters[y.name] == y
    {
      ClusterDumped(c, y);
      ClusterDumped(Apply(c, u), y);
    }
  }

  lemma RouterAfter(c: Conf, u: Update, n: string, x: Value)
    requires Orderly(c) && Shows(Snapshot(c), RouterOf(n), x)
    ensures Shows(Snapshot(Apply(c, u)), RouterOf(n), Effect(u, RouterOf(n), x))
  {
    hide Snapshot, Named, DistinctKinds;
    ApplyKeepsOrderly(c, u);
    forall y: Router
      ensures y in Snapshot(c).routers <==>
              y.name in c.routers && c.routers[y.name] == y.(path := "") && c.routerPaths[y.name] == y.path
      ensures y in Snapshot(Apply(c, u)).routers <==>
              && y.name in Apply(c, u).routers && Apply(c, u).routers[y.name] == y.(path := "")
              && Apply(c, u).routerPaths[y.name] == y.path
    {
      RouterDumped(c, y);
      RouterDumped(Apply(c, u), y);
    }
  }

  /** A set extension is the only one of its kind, and no other is touched. */
  lemma WithExtendHas(es: seq<Extend>, kind: string, body: string, y: Extend)
    requires DistinctKinds(es)
    ensures y in WithExtend(es, kind, body) <==> if y.kind == kind then y.body == body else y in es
  {
    var es' := WithExtend(es, kind, body);
    WithExtendSets(es, kind, body);
    WithExtendKeepsDistinct(es, kind, body);
    if y in es && y.kind != kind {
      var i :| 0 <= i < |es| && es[i] == y;
      assert es'[i] == y;
    }
  }

  lemma ExtensionAfter(c: Conf, u: Update, n: string, x: Value)
    requires Orderly(c) && Shows(Snapshot(c), ExtensionOf(n), x)
    ensures Shows(Snapshot(Apply(c, u)), ExtensionOf(n), Effect(u, ExtensionOf(n), x))
  {
    hide WithExtend, DistinctKinds;
    if u.SetExtend? {
      forall y: Extend
        ensures y in WithExtend(c.extensions, u.kind, u.body) <==>
                if y.kind == u.kind then y.body == u.body else y in c.extensions
      {
        WithExtendHas(c.extensions, u.kind, u.body, y);
      }
    }
  }

  /** A setter leaves in the dump what it was given, under its name, and nothing else changes. */
  lemma SetterShows(c: Conf, u: Update, k: Key, x: Value)
    requires Orderly(c) && Shows(Snapshot(c), k, x)
    ensures Shows(Snapshot(Apply(c, u)), k, Effect(u, k, x))
  {
    hide Orderly, Shows, Snapshot;
    match k
    case ListenerOf(n) => ListenerAfter(c, u, n, x);
    case ClusterOf(n) => ClusterAfter(c, u, n, x);
    case RouterOf(n) => RouterAfter(c, u, n, x);
    case ExtensionOf(n) => ExtensionAfter(c, u, n, x);
    case TlsOf => TlsAfter(c, u, x);
  }

  lemma TlsAfter(c: Conf, u: Update, x: Value)
    requires Shows(Snapshot(c), TlsOf, x)
    ensures Shows(Snapshot(Apply(c, u)), TlsOf, Effect(u, TlsOf, x))
  {}

  // ---- runs ----

  /** The updates of a run, in the order in which the setters had the lock. */
  function Updates(m: Mode, st: State, acts: seq<Action>): seq<Update>
    requires Feasible(m, st, acts)
    decreases |acts|
  {
    if acts == [] then [] else
    (if acts[0].Change? then [st.setter.update] else []) + Updates(m, Step(m, st, acts[0]), acts[1..])
  }

  lemma {:induction false} RunShows(m: Mode, st: State, acts: seq<Action>, k: Key, x: Value)
    requires Feasible(m, st, acts) && Orderly(st.conf) && Shows(Snapshot(st.conf), k, x)
    ensures Shows(Snapshot(Run(m, st, acts).conf), k, After(Updates(m, st, acts), k, x))
    decreases |acts|
  {
    hide Orderly, Shows, Snapshot, Apply;
    if acts != [] {
      var st' := Step(m, st, acts[0]);
      if acts[0] == Change {
        var u := st.setter.update;
        ApplyKeepsOrderly(st.conf, u);
        SetterShows(st.conf, u, k, x);
        RunShows(m, st', acts[1..], k, Effect(u, k, x));
        AfterBoth([u], Updates(m, st', acts[1..]), k, x);
      } else {
        RunShows(m, st', acts[1..], k, x);
        assert Updates(m, st, acts) == Updates(m, st', acts[1..]);
      }
    }
  }

  /** After every run from a loaded file, when no dump is asked for and nobody is at work, the file shows
      under every name what the updates of the run made of what it showed before. */
  lemma FileShowsUpdates(m: Mode, st: State, acts: seq<Action>, k: Key, x: Value)
    requires m.autoWrite && !m.encodingFails && Loaded(st) && Orderly(st.conf) && Feasible(m, st, acts)
    requires var end := Run(m, st, acts); !end.flag && end.setter.NoSetter? && end.dumper.Idle?
    requires Shows(st.file, k, x)
    ensures Shows(Run(m, st, acts).file, k, After(Updates(m, st, acts), k, x))
  {
    hide Orderly, Shows, Snapshot, Feasible, Run, Updates;
    NoUpdateIsLost(m, st, acts);
    RunShows(m, st, acts, k, x);
  }

  /** In particular it shows the last update of each name. */
  lemma FileShowsLastUpdate(m: Mode, st: State, acts: seq<Action>, us: seq<Update>, u: Update, vs: seq<Update>,
                            k: Key, x: Value)
    requires m.autoWrite && !m.encodingFails && Loaded(st) && Orderly(st.conf) && Feasible(m, st, acts)
    requires var end := Run(m, st, acts); !end.flag && end.setter.NoSetter? && end.dumper.Idle?
    requires Updates(m, st, acts) == us + [u] + vs
    requires Concerns(u, k) && (forall v :: v in vs ==> !Concerns(v, k))
    requires Shows(st.file, k, x)
    ensures Shows(Run(m, st, acts).file, k, Given(u, After(us, k, x)))
  {
    hide Orderly, Shows, Snapshot, Feasible, Run, Updates;
    FileShowsUpdates(m, st, acts, k, x);
    LastDecides(us, u, vs, k, x);
  }
}
