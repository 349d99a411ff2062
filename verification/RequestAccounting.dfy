/**
 The request counters of the proxy, and the lists of active streams.

 Streams are created, listed, cleaned and removed by steps of several goroutines; any of them may
 try to clean a stream. The claims are about every interleaving.
 */
module RequestAccounting {

  /** How far a stream is. Cleaning is entered once, by a compare-and-swap. */
  datatype Progress = Created | Listed | Cleaning | Metered | Removed

  datatype Stream = Stream(proxy: nat, progress: Progress)

  datatype Stats = Stats(total: int, active: int, codes: seq<int>)

  /** The outcome of a request when it is cleaned. */
  datatype Outcome = HealthCheck | Answered(code: int)

  /** One request that was counted out, for an observer. */
  datatype Entry = Entry(listener: nat, outcome: Outcome)

  /** `listenerOf` names the listener that accepted a proxy's connection. */
  datatype State = State(
    streams: seq<Stream>,
    listenerOf: seq<nat>,
    lists: seq<seq<nat>>,
    overall: Stats,
    listeners: seq<Stats>,
    log: seq<Entry>)

  datatype Action =
    | Create(proxy: nat)
    | PushBack(id: nat)
    | TryClean(id: nat)
    | Meter(id: nat, outcome: Outcome)
    | Delete(id: nat)

  const CODES: seq<int> := [200, 206, 302, 304, 400, 403, 404, 416, 499, 500, 502, 503, 504]

  /** The counter of a response code; the last one takes every other code. */
  function Bucket(code: int): (b: nat)
    ensures b <= |CODES| && (b < |CODES| ==> CODES[b] == code) && (b == |CODES| <==> code !in CODES)
  {
    match code
    case 200 => 0
    case 206 => 1
    case 302 => 2
    case 304 => 3
    case 400 => 4
    case 403 => 5
    case 404 => 6
    case 416 => 7
    case 499 => 8
    case 500 => 9
    case 502 => 10
    case 503 => 11
    case 504 => 12
    case _ => 13
  }

  predicate StatsOk(s: Stats) { |s.codes| == |CODES| + 1 }

  function Begin(s: Stats): Stats { s.(total := s.total + 1, active := s.active + 1) }

  function Finish(s: Stats, o: Outcome): Stats
    requires StatsOk(s)
  {
    match o
    case HealthCheck => s.(total := s.total - 1, active := s.active - 1)
    case Answered(code) => s.(codes := s.codes[Bucket(code) := s.codes[Bucket(code)] + 1], active := s.active - 1)
  }

  predicate Shape(st: State) {
    && |st.listenerOf| == |st.lists|
    && (forall p :: 0 <= p < |st.listenerOf| ==> st.listenerOf[p] < |st.listeners|)
    && (forall i :: 0 <= i < |st.streams| ==> st.streams[i].proxy < |st.lists|)
    && StatsOk(st.overall)
    && (forall l :: 0 <= l < |st.listeners| ==> StatsOk(st.listeners[l]))
  }

  /** What a goroutine may do next: a stream is listed before anything can clean it. */
  predicate Enabled(st: State, a: Action) {
    match a
    case Create(p) => p < |st.lists|
    case PushBack(id) => id < |st.streams| && st.streams[id].progress == Created
    case TryClean(id) => id < |st.streams| && st.streams[id].progress != Created
    case Meter(id, _) => id < |st.streams| && st.streams[id].progress == Cleaning
    case Delete(id) => id < |st.streams| && st.streams[id].progress == Metered
  }

  function Advance(st: State, id: nat, to: Progress): State
    requires id < |st.streams|
  {
    st.(streams := st.streams[id := st.streams[id].(progress := to)])
  }

  function Without(l: seq<nat>, id: nat): seq<nat> {
    if l == [] then [] else if l[0] == id then l[1..] else [l[0]] + Without(l[1..], id)
  }

  function Step(st: State, a: Action): State
    requires Shape(st) && Enabled(st, a)
  {
    match a
    case Create(p) =>
      var l := st.listenerOf[p];
      st.(streams := st.streams + [Stream(p, Created)],
          overall := Begin(st.overall),
          listeners := st.listeners[l := Begin(st.listeners[l])])
    case PushBack(id) =>
      var p := st.streams[id].proxy;
      Advance(st.(lists := st.lists[p := st.lists[p] + [id]]), id, Listed)
    case TryClean(id) =>
      if st.streams[id].progress == Listed then Advance(st, id, Cleaning) else st
    case Meter(id, o) =>
      var l := st.listenerOf[st.streams[id].proxy];
      Advance(st.(overall := Finish(st.overall, o),
                  listeners := st.listeners[l := Finish(st.listeners[l], o)],
                  log := st.log + [Entry(l, o)]), id, Metered)
    case Delete(id) =>
      var p := st.streams[id].proxy;
      Advance(st.(lists := st.lists[p := Without(st.lists[p], id)]), id, Removed)
  }

  // ---- counting ----

  function Sum(s: seq<int>): int {
    if s == [] then 0 else Sum(s[..|s| - 1]) + s[|s| - 1]
  }

  lemma {:induction false} SumUpdate(s: seq<int>, i: nat, x: int)
    requires i < |s|
    ensures Sum(s[i := x]) == Sum(s) - s[i] + x
  {
    var n := |s| - 1;
    if i == n {
      assert s[i := x][..n] == s[..n];
    } else {
      SumUpdate(s[..n], i, x);
      assert s[i := x][..n] == s[..n][i := x];
    }
  }

  /** Kinds of streams that are counted. */
  datatype Kind =
    | Unlisted
    | Active
    | ActiveAt(listenerOf: seq<nat>, listener: nat)
    | ActiveBelow(listenerOf: seq<nat>, listener: nat)
    | Recorded
    | ListedAt(proxy: nat)
    | ListedBelow(proxy: nat)
    | Listing

  /** Active: created and not metered yet. Listing: in the list of its proxy. */
  predicate Is(k: Kind, s: Stream) {
    var active := s.progress == Created || s.progress == Listed || s.progress == Cleaning;
    var listing := s.progress == Listed || s.progress == Cleaning || s.progress == Metered;
    match k
    case Unlisted => s.progress == Created
    case Active => active
    case ActiveAt(of, l) => active && s.proxy < |of| && of[s.proxy] == l
    case ActiveBelow(of, l) => active && s.proxy < |of| && of[s.proxy] < l
    case Recorded => s.progress == Metered
    case ListedAt(p) => listing && s.proxy == p
    case ListedBelow(p) => listing && s.proxy < p
    case Listing => listing
  }

  function One(k: Kind, s: Stream): nat { if Is(k, s) then 1 else 0 }

  function Count(k: Kind, ss: seq<Stream>): nat {
    if ss == [] then 0 else Count(k, ss[..|ss| - 1]) + One(k, ss[|ss| - 1])
  }

  lemma CountAppend(k: Kind, ss: seq<Stream>, x: Stream)
    ensures Count(k, ss + [x]) == Count(k, ss) + One(k, x)
  {
    assert (ss + [x])[..|ss|] == ss;
  }

  lemma {:induction false} CountUpdate(k: Kind, ss: seq<Stream>, i: nat, x: Stream)
    requires i < |ss|
    ensures Count(k, ss[i := x]) == Count(k, ss) - One(k, ss[i]) + One(k, x)
  {
    var n := |ss| - 1;
    if i == n {
      assert ss[i := x][..n] == ss[..n];
    } else {
      CountUpdate(k, ss[..n], i, x);
      assert ss[i := x][..n] == ss[..n][i := x];
    }
  }

  // ---- the invariant ----

  /** Every request counted in is still active or in exactly one code counter. */
  predicate Balanced(s: Stats) {
    StatsOk(s) && s.total == s.active + Sum(s.codes)
  }

  lemma FinishBalances(s: Stats, o: Outcome)
    requires Balanced(s)
    ensures Balanced(Finish(s, o))
  {
    if o.Answered? {
      SumUpdate(s.codes, Bucket(o.code), s.codes[Bucket(o.code)] + 1);
    }
  }

  /** Whose requests are counted: everybody's, or those of one listener. */
  datatype Whose = Everybody | Of(listener: nat)

  predicate Concerns(w: Whose, e: Entry) { w.Of? ==> e.listener == w.listener }

  /** How many of the requests counted out were answered with a code of counter `b`. */
  function Tally(log: seq<Entry>, w: Whose, b: nat): nat {
    if log == [] then 0 else
      var e := log[|log| - 1];
      Tally(log[..|log| - 1], w, b)
      + (if Concerns(w, e) && e.outcome.Answered? && Bucket(e.outcome.code) == b then 1 else 0)
  }

  /** Each code counter counts the requests answered with its code. */
  predicate Tallied(codes: seq<int>, log: seq<Entry>, w: Whose) {
    |codes| == |CODES| + 1 && forall b :: 0 <= b < |codes| ==> codes[b] == Tally(log, w, b)
  }

  lemma FinishTallies(s: Stats, log: seq<Entry>, w: Whose, e: Entry)
    requires Tallied(s.codes, log, w)
    ensures Concerns(w, e) ==> Tallied(Finish(s, e.outcome).codes, log + [e], w)
    ensures !Concerns(w, e) ==> Tallied(s.codes, log + [e], w)
  {
    hide Bucket;
    assert (log + [e])[..|log|] == log;
  }

  /** A proxy's list names each of its listed streams once, and nothing else. */
  ghost predicate ListOk(ss: seq<Stream>, l: seq<nat>, p: nat) {
    && |l| == Count(ListedAt(p), ss)
    && (forall i, j :: 0 <= i < j < |l| ==> l[i] != l[j])
    && (forall id: nat :: id in l <==> id < |ss| && Is(ListedAt(p), ss[id]))
  }

  ghost predicate ListenerOk(ss: seq<Stream>, listenerOf: seq<nat>, s: Stats, l: nat) {
    Balanced(s) && s.active == Count(ActiveAt(listenerOf, l), ss)
  }

  ghost predicate Inv(st: State) {
    && Shape(st)
    && Balanced(st.overall) && st.overall.active == Count(Active, st.streams)
    && Tallied(st.overall.codes, st.log, Everybody)
    && (forall l :: 0 <= l < |st.listeners| ==> Tallied(st.listeners[l].codes, st.log, Of(l)))
    && (forall l :: 0 <= l < |st.listeners| ==> ListenerOk(st.streams, st.listenerOf, st.listeners[l], l))
    && (forall p :: 0 <= p < |st.lists| ==> ListOk(st.streams, st.lists[p], p))
  }

  lemma {:induction false} WithoutRemoves(l: seq<nat>, id: nat)
    requires forall i, j :: 0 <= i < j < |l| ==> l[i] != l[j]
    ensures forall x :: x in Without(l, id) <==> x in l && x != id
    ensures forall i, j :: 0 <= i < j < |Without(l, id)| ==> Without(l, id)[i] != Without(l, id)[j]
    ensures |Without(l, id)| == if id in l then |l| - 1 else |l|
  {
    if l != [] {
      assert l == [l[0]] + l[1..];
      assert l[0] !in l[1..];
      if l[0] != id {
        WithoutRemoves(l[1..], id);
      }
    }
  }

  /** A stream of another proxy, or one whose listing does not change, leaves a list right. */
  lemma ListUnaffected(ss: seq<Stream>, l: seq<nat>, p: nat, id: nat, x: Stream)
    requires ListOk(ss, l, p) && id < |ss| && Is(ListedAt(p), x) == Is(ListedAt(p), ss[id])
    ensures ListOk(ss[id := x], l, p)
  {
    CountUpdate(ListedAt(p), ss, id, x);
  }

  lemma ListPushed(ss: seq<Stream>, l: seq<nat>, p: nat, id: nat, x: Stream)
    requires ListOk(ss, l, p) && id < |ss| && Is(ListedAt(p), x) && !Is(ListedAt(p), ss[id])
    ensures ListOk(ss[id := x], l + [id], p)
  {
    CountUpdate(ListedAt(p), ss, id, x);
  }

  lemma ListShrunk(ss: seq<Stream>, l: seq<nat>, p: nat, id: nat, x: Stream)
    requires ListOk(ss, l, p) && id < |ss| && !Is(ListedAt(p), x) && Is(ListedAt(p), ss[id])
    ensures ListOk(ss[id := x], Without(l, id), p)
  {
    CountUpdate(ListedAt(p), ss, id, x);
    WithoutRemoves(l, id);
  }

  lemma ListCreated(ss: seq<Stream>, l: seq<nat>, p: nat, x: Stream)
    requires ListOk(ss, l, p) && x.progress == Created
    ensures ListOk(ss + [x], l, p)
  {
    CountAppend(ListedAt(p), ss, x);
    assert forall id: nat :: id < |ss| ==> (ss + [x])[id] == ss[id];
  }

  /** Every step keeps the books. */
  lemma StepKeepsInv(st: State, a: Action)
    requires Inv(st) && Enabled(st, a)
    ensures Inv(Step(st, a))
  {
    hide ListOk, ListenerOk, Balanced, Is, Tallied;
    match a
    case Create(p) => CreateKeepsInv(st, p);
    case PushBack(id) => PushBackKeepsInv(st, id);
    case TryClean(id) => TryCleanKeepsInv(st, id);
    case Meter(id, o) => MeterKeepsInv(st, id, o);
    case Delete(id) => DeleteKeepsInv(st, id);
  }

  lemma CreateKeepsInv(st: State, p: nat)
    requires Inv(st) && p < |st.lists|
    ensures Inv(Step(st, Create(p)))
  {
    hide ListOk, Tallied;
    var x := Stream(p, Created);
    CountAppend(Active, st.streams, x);
    forall l | 0 <= l < |st.listeners| {
      CountAppend(ActiveAt(st.listenerOf, l), st.streams, x);
    }
    forall q | 0 <= q < |st.lists| {
      ListCreated(st.streams, st.lists[q], q, x);
    }
  }

  /** Moving a stream between two active, or two inactive, stages changes no counter. */
  lemma CountersUnaffected(st: State, id: nat, to: Progress)
    requires Inv(st) && id < |st.streams|
    requires Is(Active, st.streams[id]) == Is(Active, st.streams[id].(progress := to))
    ensures Count(Active, st.streams[id := st.streams[id].(progress := to)]) == Count(Active, st.streams)
    ensures forall l :: 0 <= l < |st.listeners| ==>
              ListenerOk(st.streams[id := st.streams[id].(progress := to)], st.listenerOf, st.listeners[l], l)
  {
    hide ListOk, Balanced, Tallied;
    var x := st.streams[id].(progress := to);
    CountUpdate(Active, st.streams, id, x);
    forall l | 0 <= l < |st.listeners|
      ensures ListenerOk(st.streams[id := x], st.listenerOf, st.listeners[l], l)
    {
      CountUpdate(ActiveAt(st.listenerOf, l), st.streams, id, x);
    }
  }

  lemma PushBackKeepsInv(st: State, id: nat)
    requires Inv(st) && Enabled(st, PushBack(id))
    ensures Inv(Step(st, PushBack(id)))
  {
    hide ListOk, ListenerOk, Balanced, Tallied;
    var x := st.streams[id].(progress := Listed);
    CountersUnaffected(st, id, Listed);
    forall q | 0 <= q < |st.lists|
      ensures ListOk(st.streams[id := x], if q == x.proxy then st.lists[q] + [id] else st.lists[q], q)
    {
      if q == x.proxy {
        ListPushed(st.streams, st.lists[q], q, id, x);
      } else {
        ListUnaffected(st.streams, st.lists[q], q, id, x);
      }
    }
  }

  lemma TryCleanKeepsInv(st: State, id: nat)
    requires Inv(st) && Enabled(st, TryClean(id))
    ensures Inv(Step(st, TryClean(id)))
  {
    hide ListOk, ListenerOk, Balanced, Tallied;
    if st.streams[id].progress == Listed {
      CountersUnaffected(st, id, Cleaning);
      forall q | 0 <= q < |st.lists| {
        ListUnaffected(st.streams, st.lists[q], q, id, st.streams[id].(progress := Cleaning));
      }
    }
  }

  lemma DeleteKeepsInv(st: State, id: nat)
    requires Inv(st) && Enabled(st, Delete(id))
    ensures Inv(Step(st, Delete(id)))
  {
    hide ListOk, ListenerOk, Balanced, Tallied;
    var x := st.streams[id].(progress := Removed);
    CountersUnaffected(st, id, Removed);
    forall q | 0 <= q < |st.lists|
      ensures ListOk(st.streams[id := x], if q == x.proxy then Without(st.lists[q], id) else st.lists[q], q)
    {
      if q == x.proxy {
        ListShrunk(st.streams, st.lists[q], q, id, x);
      } else {
        ListUnaffected(st.streams, st.lists[q], q, id, x);
      }
    }
  }

  lemma MeterKeepsInv(st: State, id: nat, o: Outcome)
    requires Inv(st) && Enabled(st, Meter(id, o))
    ensures Inv(Step(st, Meter(id, o)))
  {
    hide ListOk, Balanced, Tallied;
    var x := st.streams[id].(progress := Metered);
    CountUpdate(Active, st.streams, id, x);
    FinishBalances(st.overall, o);
    FinishBalances(st.listeners[st.listenerOf[x.proxy]], o);
    FinishCounts(st.overall, o);
    FinishCounts(st.listeners[st.listenerOf[x.proxy]], o);
    var e := Entry(st.listenerOf[x.proxy], o);
    FinishTallies(st.overall, st.log, Everybody, e);
    forall l | 0 <= l < |st.listeners|
      ensures Tallied(if l == e.listener then Finish(st.listeners[l], o).codes
              else st.listeners[l].codes, st.log + [e], Of(l))
    {
      FinishTallies(st.listeners[l], st.log, Of(l), e);
    }
    forall l | 0 <= l < |st.listeners| {
      CountUpdate(ActiveAt(st.listenerOf, l), st.streams, id, x);
    }
    forall q | 0 <= q < |st.lists| {
      ListUnaffected(st.streams, st.lists[q], q, id, x);
    }
  }

  lemma FinishCounts(s: Stats, o: Outcome)
    requires StatsOk(s)
    ensures Finish(s, o).active == s.active - 1 && StatsOk(Finish(s, o))
  {}

  // ---- runs ----

  predicate Zero(s: Stats) {
    StatsOk(s) && s.total == s.active == 0 && forall b :: 0 <= b < |s.codes| ==> s.codes[b] == 0
  }

  lemma {:induction false} SumOfZeros(s: seq<int>)
    requires forall i :: 0 <= i < |s| ==> s[i] == 0
    ensures Sum(s) == 0
  {
    if s != [] {
      SumOfZeros(s[..|s| - 1]);
    }
  }

  predicate Fresh(st: State) {
    && Shape(st) && st.streams == [] && st.log == []
    && (forall p :: 0 <= p < |st.lists| ==> st.lists[p] == [])
    && Zero(st.overall)
    && (forall l :: 0 <= l < |st.listeners| ==> Zero(st.listeners[l]))
  }

  predicate Feasible(st: State, acts: seq<Action>)
    decreases |acts|
  {
    acts == [] || (Shape(st) && Enabled(st, acts[0]) && Feasible(Step(st, acts[0]), acts[1..]))
  }

  function Run(st: State, acts: seq<Action>): State
    requires Feasible(st, acts)
    decreases |acts|
  {
    if acts == [] then st else Run(Step(st, acts[0]), acts[1..])
  }

  lemma {:induction false} RunKeepsInv(st: State, acts: seq<Action>)
    requires Inv(st) && Feasible(st, acts)
    ensures Inv(Run(st, acts))
    decreases |acts|
  {
    hide Inv, Step;
    if acts != [] {
      StepKeepsInv(st, acts[0]);
      RunKeepsInv(Step(st, acts[0]), acts[1..]);
    }
  }

  // ---- totals over proxies and listeners ----

  function ListLengths(lists: seq<seq<nat>>): nat {
    if lists == [] then 0 else ListLengths(lists[..|lists| - 1]) + |lists[|lists| - 1]|
  }

  function ActiveSum(ls: seq<Stats>): int {
    if ls == [] then 0 else ActiveSum(ls[..|ls| - 1]) + ls[|ls| - 1].active
  }

  lemma {:induction false} CountSplits(ss: seq<Stream>, whole: Kind, part: Kind, last: Kind)
    requires forall s :: One(whole, s) == One(part, s) + One(last, s)
    ensures Count(whole, ss) == Count(part, ss) + Count(last, ss)
  {
    if ss != [] {
      CountSplits(ss[..|ss| - 1], whole, part, last);
    }
  }

  lemma {:induction false} CountSame(ss: seq<Stream>, k: Kind, k': Kind)
    requires forall s :: s in ss ==> One(k, s) == One(k', s)
    ensures Count(k, ss) == Count(k', ss)
  {
    if ss != [] {
      CountSame(ss[..|ss| - 1], k, k');
    }
  }

  lemma {:induction false} CountNone(ss: seq<Stream>, k: Kind)
    requires forall s :: s in ss ==> One(k, s) == 0
    ensures Count(k, ss) == 0
  {
    if ss != [] {
      CountNone(ss[..|ss| - 1], k);
    }
  }

  lemma {:induction false} ListsCount(ss: seq<Stream>, lists: seq<seq<nat>>)
    requires forall p :: 0 <= p < |lists| ==> |lists[p]| == Count(ListedAt(p), ss)
    ensures ListLengths(lists) == Count(ListedBelow(|lists|), ss)
  {
    var n := |lists| - 1;
    if lists == [] {
      CountNone(ss, ListedBelow(0));
    } else {
      ListsCount(ss, lists[..n]);
      CountSplits(ss, ListedBelow(n + 1), ListedBelow(n), ListedAt(n));
    }
  }

  lemma {:induction false} ListenersCount(ss: seq<Stream>, of: seq<nat>, ls: seq<Stats>)
    requires forall l :: 0 <= l < |ls| ==> ls[l].active == Count(ActiveAt(of, l), ss)
    ensures ActiveSum(ls) == Count(ActiveBelow(of, |ls|), ss)
  {
    var n := |ls| - 1;
    if ls == [] {
      CountNone(ss, ActiveBelow(of, 0));
    } else {
      ListenersCount(ss, of, ls[..n]);
      CountSplits(ss, ActiveBelow(of, n + 1), ActiveBelow(of, n), ActiveAt(of, n));
    }
  }

  /** The active counter is off the lists by the streams between their counters and their list. */
  lemma {:induction false} ActiveVersusListed(ss: seq<Stream>)
    ensures Count(Active, ss) + Count(Recorded, ss) == Count(Listing, ss) + Count(Unlisted, ss)
  {
    if ss != [] {
      ActiveVersusListed(ss[..|ss| - 1]);
    }
  }

  lemma Totals(st: State)
    requires Inv(st)
    ensures ActiveSum(st.listeners) == st.overall.active
    ensures ListLengths(st.lists) == Count(Listing, st.streams)
  {
    ListsCount(st.streams, st.lists);
    CountSame(st.streams, ListedBelow(|st.lists|), Listing);
    ListenersCount(st.streams, st.listenerOf, st.listeners);
    CountSame(st.streams, ActiveBelow(st.listenerOf, |st.listeners|), Active);
  }

  lemma FreshInv(st: State)
    requires Fresh(st)
    ensures Inv(st)
  {
    SumOfZeros(st.overall.codes);
    forall l | 0 <= l < |st.listeners| ensures ListenerOk(st.streams, st.listenerOf, st.listeners[l], l) {
      SumOfZeros(st.listeners[l].codes);
    }
    forall p | 0 <= p < |st.lists| ensures ListOk(st.streams, st.lists[p], p) {}
  }

  /** In every interleaving: each request counted in is active or in one code counter, overall and
      for each listener; each code counter counts the requests answered with its code; the listeners'
      gauges add up to the overall one; and the overall one is the length of all active lists, but for
      the streams between their counter and their list. */
  lemma BooksBalance(st: State, acts: seq<Action>)
    requires Fresh(st) && Feasible(st, acts)
    ensures var end := Run(st, acts);
            && Balanced(end.overall) && Tallied(end.overall.codes, end.log, Everybody)
            && (forall l :: 0 <= l < |end.listeners| ==>
                  Balanced(end.listeners[l]) && Tallied(end.listeners[l].codes, end.log, Of(l)))
            && end.overall.active == ActiveSum(end.listeners) == Count(Active, end.streams)
            && end.overall.active + Count(Recorded, end.streams)
               == ListLengths(end.lists) + Count(Unlisted, end.streams)
  {
    FreshInv(st);
    RunKeepsInv(st, acts);
    var end := Run(st, acts);
    Totals(end);
    ActiveVersusListed(end.streams);
    forall l | 0 <= l < |end.listeners| ensures Balanced(end.listeners[l]) {
      assert ListenerOk(end.streams, end.listenerOf, end.listeners[l], l);
    }
  }

  /** When no stream is between its counter and its list, the gauge is the number of listed streams. */
  lemma GaugeIsListedStreams(st: State, acts: seq<Action>)
    requires Fresh(st) && Feasible(st, acts)
    requires forall s :: s in Run(st, acts).streams ==> s.progress != Created && s.progress != Metered
    ensures Run(st, acts).overall.active == ListLengths(Run(st, acts).lists)
  {
    BooksBalance(st, acts);
    CountNone(Run(st, acts).streams, Recorded);
    CountNone(Run(st, acts).streams, Unlisted);
  }

  predicate Meters(a: Action, id: nat) { a.Meter? && a.id == id }

  function TimesMetered(acts: seq<Action>, id: nat): nat {
    if acts == [] then 0 else (if Meters(acts[0], id) then 1 else 0) + TimesMetered(acts[1..], id)
  }

  predicate PastMetering(st: State, id: nat) {
    id < |st.streams| && (st.streams[id].progress == Metered || st.streams[id].progress == Removed)
  }

  /** However many goroutines try to clean it, a stream is counted out at most once. */
  lemma {:induction false} CountedOutOnce(st: State, acts: seq<Action>, id: nat)
    requires Feasible(st, acts)
    ensures TimesMetered(acts, id) <= if PastMetering(st, id) then 0 else 1
    ensures TimesMetered(acts, id) == 1 ==> PastMetering(Run(st, acts), id)
    decreases |acts|
  {
    if acts != [] {
      CountedOutOnce(Step(st, acts[0]), acts[1..], id);
      if PastMetering(Step(st, acts[0]), id) && acts != [] {
        StaysPast(Step(st, acts[0]), acts[1..], id);
      }
    }
  }

  lemma {:induction false} StaysPast(st: State, acts: seq<Action>, id: nat)
    requires Feasible(st, acts) && PastMetering(st, id)
    ensures PastMetering(Run(st, acts), id)
    decreases |acts|
  {
    if acts != [] {
      StaysPast(Step(st, acts[0]), acts[1..], id);
    }
  }
}
