/**
 Writing the effective config back to its file: setters change the config under a lock and raise a
 flag; a dumper takes the flag, copies the config and writes the copy.
 */
module ConfigDump {

  // ---- the effective config ----

  datatype Listener = Listener(name: string, body: string)

  datatype Cluster = Cluster(name: string, body: string, hosts: seq<string>)

  datatype Router = Router(name: string, path: string, body: string)

  datatype Extend = Extend(kind: string, body: string)

  datatype Conf = Conf(
    listeners: map<string, Listener>,
    clusters: map<string, Cluster>,
    routers: map<string, Router>,
    routerPaths: map<string, string>,
    extensions: seq<Extend>,
    tls: string)

  datatype Update =
    | SetListener(listener: Listener)
    | SetCluster(cluster: Cluster)
    | RemoveCluster(name: string)
    | SetHosts(name: string, hosts: seq<string>)
    | SetRouter(router: Router)
    | SetExtend(kind: string, body: string)
    | SetTls(tls: string)

  /** The extension of the kind gets the body; a kind that is not there is added at the end. */
  function WithExtend(es: seq<Extend>, kind: string, body: string): seq<Extend> {
    if es == [] then [Extend(kind, body)]
    else if es[0].kind == kind then [Extend(kind, body)] + es[1..]
    else [es[0]] + WithExtend(es[1..], kind, body)
  }

  function Apply(c: Conf, u: Update): Conf {
    match u
    case SetListener(l) => c.(listeners := c.listeners[l.name := l])
    case SetCluster(cl) => c.(clusters := c.clusters[cl.name := cl])
    case RemoveCluster(n) => c.(clusters := c.clusters - {n})
    case SetHosts(n, hosts) =>
      if n in c.clusters then c.(clusters := c.clusters[n := c.clusters[n].(hosts := hosts)]) else c
    case SetRouter(r) =>
      c.(routerPaths := c.routerPaths[r.name := r.path], routers := c.routers[r.name := r.(path := "")])
    case SetExtend(k, b) => c.(extensions := WithExtend(c.extensions, k, b))
    case SetTls(t) => c.(tls := t)
  }

  /** Setting the hosts of a cluster that is not there asks for no dump. */
  predicate AsksForDump(c: Conf, u: Update) {
    u.SetHosts? ==> u.name in c.clusters
  }

  /** What a dump of the config says, apart from the order of what it lists. */
  datatype Content = Content(
    listeners: set<Listener>,
    clusters: set<Cluster>,
    routers: set<Router>,
    extensions: seq<Extend>,
    tls: string)

  function PathOf(c: Conf, name: string): string {
    if name in c.routerPaths then c.routerPaths[name] else ""
  }

  function Snapshot(c: Conf): Content {
    Content(
      set n | n in c.listeners :: c.listeners[n],
      set n | n in c.clusters :: c.clusters[n],
      set n | n in c.routers :: c.routers[n].(path := PathOf(c, n)),
      c.extensions,
      c.tls)
  }

  /** Everything is filed under its own name. */
  predicate Named(c: Conf) {
    && (forall n :: n in c.listeners ==> c.listeners[n].name == n)
    && (forall n :: n in c.clusters ==> c.clusters[n].name == n)
    && (forall n :: n in c.routers ==> c.routers[n].name == n)
  }

  lemma ApplyKeepsNames(c: Conf, u: Update)
    requires Named(c)
    ensures Named(Apply(c, u))
  {}

  lemma ClusterDumped(c: Conf, k: Cluster)
    requires Named(c)
    ensures k in Snapshot(c).clusters <==> k.name in c.clusters && c.clusters[k.name] == k
  {}

  lemma ListenerDumped(c: Conf, k: Listener)
    requires Named(c)
    ensures k in Snapshot(c).listeners <==> k.name in c.listeners && c.listeners[k.name] == k
  {}

  /** What the setters keep: routers are filed without their path, and the path beside them. */
  predicate PathsApart(c: Conf) {
    c.routerPaths.Keys == c.routers.Keys && forall n :: n in c.routers ==> c.routers[n].path == ""
  }

  lemma ApplyKeepsPaths(c: Conf, u: Update)
    requires PathsApart(c)
    ensures PathsApart(Apply(c, u))
  {}

  lemma RouterDumped(c: Conf, k: Router)
    requires Named(c) && PathsApart(c)
    ensures k in Snapshot(c).routers <==>
            k.name in c.routers && c.routers[k.name] == k.(path := "") && c.routerPaths[k.name] == k.path
  {
    if k in Snapshot(c).routers {
      var n :| n in c.routers && k == c.routers[n].(path := PathOf(c, n));
      assert n == k.name;
    }
    if k.name in c.routers && c.routers[k.name] == k.(path := "") && c.routerPaths[k.name] == k.path {
      assert k == c.routers[k.name].(path := PathOf(c, k.name));
    }
  }

  /** A dump loses nothing: configs that the setters can bring about and that are dumped alike are equal. */
  lemma DumpLosesNothing(c: Conf, c': Conf)
    requires Named(c) && PathsApart(c) && Named(c') && PathsApart(c') && Snapshot(c) == Snapshot(c')
    ensures c == c'
  {
    hide Snapshot;
    SnapshotParts(c, c');
    DumpedSubset(c, c');
    DumpedSubset(c', c);
    assert c.listeners == c'.listeners && c.clusters == c'.clusters;
    assert c.routers == c'.routers && c.routerPaths == c'.routerPaths;
  }

  lemma SnapshotParts(c: Conf, c': Conf)
    requires Snapshot(c) == Snapshot(c')
    ensures c.extensions == c'.extensions && c.tls == c'.tls
  {}

  lemma DumpedSubset(c: Conf, c': Conf)
    requires Named(c) && PathsApart(c) && Named(c') && PathsApart(c') && Snapshot(c) == Snapshot(c')
    ensures forall n :: n in c.listeners ==> n in c'.listeners && c'.listeners[n] == c.listeners[n]
    ensures forall n :: n in c.clusters ==> n in c'.clusters && c'.clusters[n] == c.clusters[n]
    ensures forall n :: n in c.routers ==>
              n in c'.routers && c'.routers[n] == c.routers[n] && c'.routerPaths[n] == c.routerPaths[n]
  {
    hide Snapshot;
    forall n | n in c.listeners ensures n in c'.listeners && c'.listeners[n] == c.listeners[n] {
      ListenerDumped(c, c.listeners[n]);
      ListenerDumped(c', c.listeners[n]);
    }
    forall n | n in c.clusters ensures n in c'.clusters && c'.clusters[n] == c.clusters[n] {
      ClusterDumped(c, c.clusters[n]);
      ClusterDumped(c', c.clusters[n]);
    }
    forall n | n in c.routers
      ensures n in c'.routers && c'.routers[n] == c.routers[n] && c'.routerPaths[n] == c.routerPaths[n]
    {
      var k := c.routers[n].(path := c.routerPaths[n]);
      RouterDumped(c, k);
      RouterDumped(c', k);
    }
  }

  predicate DistinctKinds(es: seq<Extend>) {
    forall i, j :: 0 <= i < j < |es| ==> es[i].kind != es[j].kind
  }

  predicate HasKind(es: seq<Extend>, kind: string) {
    exists i :: 0 <= i < |es| && es[i].kind == kind
  }

  /** After a set, the kind has the body; every other kind keeps its place and body. */
  lemma {:induction false} WithExtendSets(es: seq<Extend>, kind: string, body: string)
    requires DistinctKinds(es)
    ensures var es' := WithExtend(es, kind, body);
            && |es'| == (if HasKind(es, kind) then |es| else |es| + 1)
            && (forall i :: 0 <= i < |es| ==> es'[i] == if es[i].kind == kind then Extend(kind, body) else es[i])
            && (!HasKind(es, kind) ==> es'[|es|] == Extend(kind, body))
  {
    if es != [] && es[0].kind != kind {
      var rest := es[1..];
      WithExtendSets(rest, kind, body);
      assert forall i :: 0 < i < |es| ==> es[i] == rest[i - 1];
      assert HasKind(es, kind) <==> HasKind(rest, kind);
    }
  }

  /** Kinds stay distinct. */
  lemma WithExtendKeepsDistinct(es: seq<Extend>, kind: string, body: string)
    requires DistinctKinds(es)
    ensures DistinctKinds(WithExtend(es, kind, body)) && Extend(kind, body) in WithExtend(es, kind, body)
  {
    hide WithExtend;
    WithExtendSets(es, kind, body);
    var es' := WithExtend(es, kind, body);
    if HasKind(es, kind) {
      var i :| 0 <= i < |es| && es[i].kind == kind;
      assert es'[i] == Extend(kind, body);
    }
  }

  /** The loop of SetExtend. */
  method ReplaceOrAppend(es: seq<Extend>, kind: string, body: string) returns (es': seq<Extend>)
    ensures es' == WithExtend(es, kind, body)
  {
    es' := es;
    var found, i := false, 0;
    while i < |es| && !found
      invariant 0 <= i <= |es|
      invariant !found ==> es' == es && WithExtend(es, kind, body) == es[..i] + WithExtend(es[i..], kind, body)
      invariant found ==> es' == WithExtend(es, kind, body)
      decreases |es| - i, !found
    {
      if es[i].kind == kind {
        es' := es'[i := es'[i].(body := body)];
        found := true;
        assert es' == es[..i] + ([Extend(kind, body)] + es[i..][1..]);
      } else {
        assert es[i..][1..] == es[i + 1..];
        assert es[..i] + ([es[i]] + WithExtend(es[i + 1..], kind, body))
               == es[..i + 1] + WithExtend(es[i + 1..], kind, body);
        i := i + 1;
      }
    }
    if !found {
      es' := es' + [Extend(kind, body)];
    }
  }

  /** The loop of transferConfig that lists the routers, in any order of the map. */
  method ListRouters(c: Conf) returns (rs: seq<Router>)
    ensures forall r :: r in rs <==> r in Snapshot(c).routers
    ensures |rs| == |c.routers|
  {
    rs := [];
    var todo := c.routers.Keys;
    while todo != {}
      invariant todo <= c.routers.Keys && |rs| + |todo| == |c.routers.Keys|
      invariant forall r :: r in rs <==>
                exists n :: n in c.routers && n !in todo && r == c.routers[n].(path := PathOf(c, n))
      decreases |todo|
    {
      var name :| name in todo;
      ghost var before, rest := rs, todo;
      rs := rs + [c.routers[name].(path := PathOf(c, name))];
      todo := todo - {name};
      forall r
        ensures r in rs <==> exists n :: n in c.routers && n !in todo && r == c.routers[n].(path := PathOf(c, n))
      {
        assert r in before <==> exists n :: n in c.routers && n !in rest && r == c.routers[n].(path := PathOf(c, n));
      }
    }
  }

  // ---- the protocol ----

  datatype Setter = NoSetter | Locked(update: Update) | Changed(asks: bool) | Flagged

  datatype Dumper = Idle | Taken | Holding(content: Content)

  datatype State = State(conf: Conf, file: Content, flag: bool, setter: Setter, dumper: Dumper)

  /** Whether updates ask for dumps at all, and whether encoding a config can fail. */
  datatype Mode = Mode(autoWrite: bool, encodingFails: bool)

  datatype Action =
    | Lock(update: Update)
    | Change
    | TryDump
    | Unlock
    | SetDump
    | GetDump
    | Copy
    | FailEncoding
    | Write(ok: bool)

  /** The config lock is held by one setter, or shared by copiers; the dump lock is held by one dumper. */
  predicate Enabled(m: Mode, st: State, a: Action) {
    match a
    case Lock(_) => st.setter.NoSetter?
    case Change => st.setter.Locked?
    case TryDump => st.setter.Changed?
    case Unlock => st.setter.Flagged?
    case SetDump => true
    case GetDump => st.dumper.Idle?
    case Copy => st.dumper.Taken? && st.setter.NoSetter?
    case FailEncoding => m.encodingFails && st.dumper.Taken? && st.setter.NoSetter?
    case Write(_) => st.dumper.Holding?
  }

  function Step(m: Mode, st: State, a: Action): State
    requires Enabled(m, st, a)
  {
    match a
    case Lock(u) => st.(setter := Locked(u))
    case Change =>
      st.(conf := Apply(st.conf, st.setter.update), setter := Changed(AsksForDump(st.conf, st.setter.update)))
    case TryDump => st.(flag := st.flag || (st.setter.asks && m.autoWrite), setter := Flagged)
    case Unlock => st.(setter := NoSetter)
    case SetDump => st.(flag := true)
    case GetDump => if st.flag then st.(flag := false, dumper := Taken) else st
    case Copy => st.(dumper := Holding(Snapshot(st.conf)))
    case FailEncoding => st.(dumper := Idle)
    case Write(ok) => if ok then st.(file := st.dumper.content, dumper := Idle) else st.(flag := true, dumper := Idle)
  }

  predicate Feasible(m: Mode, st: State, acts: seq<Action>)
    decreases |acts|
  {
    acts == [] || (Enabled(m, st, acts[0]) && Feasible(m, Step(m, st, acts[0]), acts[1..]))
  }

  function Run(m: Mode, st: State, acts: seq<Action>): State
    requires Feasible(m, st, acts)
    decreases |acts|
  {
    if acts == [] then st else Run(m, Step(m, st, acts[0]), acts[1..])
  }

  /** The file was just loaded. */
  predicate Loaded(st: State) {
    st.file == Snapshot(st.conf) && !st.flag && st.setter.NoSetter? && st.dumper.Idle?
  }

  /** Nothing is under way and nothing is asked for: then the file says what the config says. */
  predicate NothingLost(st: State) {
    !st.flag && st.setter.NoSetter? && st.dumper.Idle? ==> st.file == Snapshot(st.conf)
  }

  /** A dump is still to come. */
  predicate Pending(st: State) { st.flag || (st.setter.Changed? && st.setter.asks) }

  predicate Inv(st: State) {
    match st.dumper
    case Idle => Pending(st) || st.file == Snapshot(st.conf)
    case Taken => true
    case Holding(c) => Pending(st) || c == Snapshot(st.conf)
  }

  lemma StepKeepsInv(m: Mode, st: State, a: Action)
    requires m.autoWrite && !m.encodingFails && Inv(st) && Enabled(m, st, a)
    ensures Inv(Step(m, st, a))
  {
    hide Snapshot;
  }

  lemma {:induction false} NoUpdateIsLost(m: Mode, st: State, acts: seq<Action>)
    requires m.autoWrite && !m.encodingFails && Inv(st) && Feasible(m, st, acts)
    ensures Inv(Run(m, st, acts)) && NothingLost(Run(m, st, acts))
    decreases |acts|
  {
    hide Snapshot, Step;
    if acts != [] {
      StepKeepsInv(m, st, acts[0]);
      NoUpdateIsLost(m, Step(m, st, acts[0]), acts[1..]);
    }
  }

  ghost predicate Safe(m: Mode) {
    forall st, acts :: Loaded(st) && Feasible(m, st, acts) ==> NothingLost(Run(m, st, acts))
  }

  ghost predicate Reaches(m: Mode, st: State, st': State) {
    exists acts :: Feasible(m, st, acts) && Run(m, st, acts) == st'
  }

  lemma ReachesBy(m: Mode, st: State, a: Action, st': State)
    requires Enabled(m, st, a) && Reaches(m, Step(m, st, a), st')
    ensures Reaches(m, st, st')
  {
    hide Step;
    var acts :| Feasible(m, Step(m, st, a), acts) && Run(m, Step(m, st, a), acts) == st';
    assert ([a] + acts)[1..] == acts;
    assert Feasible(m, st, [a] + acts) && Run(m, st, [a] + acts) == st';
  }

  const NOTHING := Conf(map[], map[], map[], map[], [], "")

  /** An update that is applied without a dump following it. */
  lemma LostUpdate(m: Mode)
    requires !m.autoWrite || m.encodingFails
    ensures !Safe(m)
  {
    var u := SetTls("tls");
    var s0 := State(NOTHING, Snapshot(NOTHING), false, NoSetter, Idle);
    var s1 := Step(m, s0, Lock(u));
    var s2 := Step(m, s1, Change);
    var s3 := Step(m, s2, TryDump);
    var s4 := Step(m, s3, Unlock);
    var end := if m.autoWrite then s4.(flag := false) else s4;
    assert Snapshot(s4.conf).tls != Snapshot(NOTHING).tls;
    assert Reaches(m, s4, end) by {
      if m.autoWrite {
        var s5 := Step(m, s4, GetDump);
        assert Step(m, s5, FailEncoding) == end;
        assert Feasible(m, end, []) && Run(m, end, []) == end;
        ReachesBy(m, s5, FailEncoding, end);
        ReachesBy(m, s4, GetDump, end);
      } else {
        assert Feasible(m, end, []) && Run(m, end, []) == end;
      }
    }
    ReachesBy(m, s3, Unlock, end);
    ReachesBy(m, s2, TryDump, end);
    ReachesBy(m, s1, Change, end);
    ReachesBy(m, s0, Lock(u), end);
    var acts :| Feasible(m, s0, acts) && Run(m, s0, acts) == end;
    assert Loaded(s0) && !NothingLost(end);
  }

  /** No interleaving loses an update exactly when automatic writing is on and encoding never fails. */
  lemma SafeExactlyWhenEveryChangeIsWritten(m: Mode)
    ensures Safe(m) <==> m.autoWrite && !m.encodingFails
  {
    if m.autoWrite && !m.encodingFails {
      forall st, acts | Loaded(st) && Feasible(m, st, acts)
        ensures NothingLost(Run(m, st, acts))
      {
        NoUpdateIsLost(m, st, acts);
      }
    } else {
      LostUpdate(m);
    }
  }

  /** The config is one that the setters can bring about from an empty one. */
  predicate Tidy(c: Conf) { Named(c) && PathsApart(c) }

  lemma {:induction false} RunKeepsTidy(m: Mode, st: State, acts: seq<Action>)
    requires Tidy(st.conf) && Feasible(m, st, acts)
    ensures Tidy(Run(m, st, acts).conf)
    decreases |acts|
  {
    hide Named, PathsApart, Apply;
    if acts != [] {
      if acts[0] == Change {
        ApplyKeepsNames(st.conf, st.setter.update);
        ApplyKeepsPaths(st.conf, st.setter.update);
      }
      RunKeepsTidy(m, Step(m, st, acts[0]), acts[1..]);
    }
  }

  /** After every run from a loaded file, when no dump is asked for and nobody is at work, the file
      determines the config: any config that setters can bring about and that is dumped as the file
      is the current one. */
  lemma FileIsTheConfig(m: Mode, st: State, acts: seq<Action>, c: Conf)
    requires m.autoWrite && !m.encodingFails && Loaded(st) && Tidy(st.conf) && Feasible(m, st, acts)
    requires var end := Run(m, st, acts);
             !end.flag && end.setter.NoSetter? && end.dumper.Idle? && Tidy(c) && Snapshot(c) == end.file
    ensures c == Run(m, st, acts).conf
  {
    hide Snapshot, Feasible, Run;
    NoUpdateIsLost(m, st, acts);
    RunKeepsTidy(m, st, acts);
    DumpLosesNothing(c, Run(m, st, acts).conf);
  }
}
