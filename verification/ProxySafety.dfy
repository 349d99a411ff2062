/**
 Safety of every run of the proxied-request machine: how many upstream streams one request opens,
 what goes into each of them, what the client is sent, and that the stream is counted out once.
 */
module ProxySafety {
  import opened ProxyRequest

  function Rank(k: Kind): nat { match k case Headers => 0 case Data => 1 case Trailers => 2 }

  /** What a client may see: a header block first, then at most one data block, then at most one
      trailer block, and nothing after an end flag. */
  predicate WellFormedReply(log: seq<Part>) {
    && (log != [] ==> log[0].kind == Headers)
    && (forall i, j :: 0 <= i < j < |log| ==> Rank(log[i].kind) < Rank(log[j].kind) && !log[i].end)
  }

  /** The runs the claim about the client is for. */
  predicate Regular(c: Config, t: Trace) { !c.lateWrites && !t.skippedHeaders && !t.lateHijack }

  /** A try holds a prefix of the request as it was when the try began. */
  predicate InOrder(y: Try) { y.sent <= Message(y.data, y.trailers) }

  /** The worker has forwarded the request: it waits for the response, or is through with a one-way
      request that was neither reset nor answered on the spot, which takes its retry state away. */
  predicate Forwarded(st: State) {
    && st.pc.Enter?
    && (st.w.phase == WaitNotify || (st.w.phase == Oneway && !st.s.upstreamReset && st.w.retry.RetryState?))
  }

  /** The claims. */
  ghost predicate Safe(c: Config, st: State) {
    && st.t.opens <= 1 + st.t.budget
    && st.t.opens <= MAX_PASSES
    && st.t.firstSends <= 1
    && st.t.cleans <= 1
    && InOrder(TryOf(st.w)) && (forall y :: y in st.t.pastTries ==> InOrder(y))
    && (Forwarded(st) ==> TryOf(st.w) == Try(st.w.reqData, st.w.reqTrailers, Message(st.w.reqData, st.w.reqTrailers)))
    && (Forwarded(st) ==> st.w.requestSent && (st.w.recvDone || TryOf(st.w).sent == [Part(Headers, true)]))
    && (Regular(c, st.t) ==> WellFormedReply(st.t.client))
    && (c.oneway ==> st.t.client == [])
  }

  // ---- the invariant ----

  predicate TriesOk(current: Try, past: seq<Try>) {
    InOrder(current) && (forall y :: y in past ==> InOrder(y))
  }

  /** Upstream streams opened, and the rights to open one that are still around. */
  function Used(retry: RetryState, pending: bool, opens: nat, firstSends: nat): nat {
    opens + (if retry.RetryState? then retry.remaining else 0) + (if pending then 1 else 0)
    + (if firstSends == 0 then 1 else 0)
  }

  predicate Unanswered(c: Config, w: Worker, t: Trace) { Regular(c, t) ==> !w.started }

  predicate Done(w: Worker, s: Shared) { w.processDone || s.downstreamReset || s.upstreamReset }

  /** The try is open and the first `n` blocks of the request are in it. */
  predicate Sending(u: Upstream, data: bool, trailers: bool, n: nat) {
    && u.Upstream? && u.ready && !u.setupRetry && u.data == data && u.trailers == trailers
    && n <= |Message(data, trailers)|
    && u.sent == Message(data, trailers)[..n]
  }

  /** What is noted down after the headers, after the data and after the trailers: that the request was
      sent, which starts the response timer, and that it was received whole. */
  predicate Marked(w: Worker, stage: nat) {
    || (stage <= 2 && w.reqTrailers) || (stage <= 1 && w.reqData)
    || (w.requestSent && (w.recvDone || !(w.reqData || w.reqTrailers)))
  }

  /** The whole request is in the try. */
  predicate AllSent(w: Worker) {
    Marked(w, 3) && Sending(w.upstream, w.reqData, w.reqTrailers, |Message(w.reqData, w.reqTrailers)|)
  }

  /** Holds at every step. */
  ghost predicate Core(c: Config, w: Worker, s: Shared, t: Trace) {
    && (w.given ==> t.cleans == 1 && !s.mine)
    && (!w.given ==> s.mine && (s.cleaned <==> t.cleans == 1))
    && t.cleans <= 1 && t.firstSends <= 1
    && (!w.given && s.upstreamReset ==> !NotSent(t))
    && (t.opens > 0 || w.retry.RetryState? ==> w.upstream.Upstream?)
    && Used(w.retry, Pending(w), t.opens, t.firstSends) <= 1 + t.budget
    && 1 <= t.passes <= MAX_PASSES && t.opens <= t.passes
    && (w.again == InitPhase || w.again == MatchRoute || w.again == ChooseHost)
    && (w.again != InitPhase ==> NotSent(t))
    && (Pending(w) ==> !NotSent(t) && !c.oneway)
    && (NotSent(t) ==> t.pastTries == [] && (w.upstream.Upstream? ==> w.upstream == UNSENT))
    && (Regular(c, t) && !w.started ==> t.client == [])
    && (Regular(c, t) && w.started ==> !Pending(w) && w.again == InitPhase)
    && (Regular(c, t) && !w.given && s.direct ==> !w.started)
    && TriesOk(TryOf(w), t.pastTries)
    && (Regular(c, t) ==> WellFormedReply(t.client))
    && (c.oneway ==> t.client == [])
  }

  /** Holds as long as the worker is in a phase. */
  predicate InPhase(c: Config, w: Worker, t: Trace) {
    match w.phase
    case InitPhase | DownFilter | MatchRoute | DownFilterAfterRoute | ChooseHost => NotSent(t) && Unanswered(c, w, t)
    case DownFilterAfterChooseHost => NotSent(t) && Unanswered(c, w, t) && w.upstream == UNSENT
    case DownRecvHeader => Unanswered(c, w, t) && w.again == InitPhase
    case DownRecvData | DownRecvTrailer => Unanswered(c, w, t) && w.again == InitPhase && !NotSent(t)
    case Oneway => !c.oneway ==> Unanswered(c, w, t) && !NotSent(t)
    case Retry | WaitNotify => !c.oneway && Unanswered(c, w, t) && !NotSent(t)
    case UpFilter => !c.oneway && Unanswered(c, w, t) && (w.retry.RetryState? ==> !NotSent(t))
    case UpRecvHeader =>
      && !c.oneway && w.upstream.Upstream? && (w.retry.RetryState? ==> !NotSent(t))
      && (Regular(c, t) ==> w.again == InitPhase)
    case UpRecvData | UpRecvTrailer => !c.oneway && w.upstream.Upstream?
    case End => false
  }

  /** processError will not go on to the next phase from its k-th load. */
  predicate Leaving(w: Worker, s: Shared, k: nat, exit: bool) {
    || exit || w.processDone || Pending(w) || w.again != InitPhase
    || s.direct
    || (k <= 3 && s.downstreamReset) || (k <= 2 && s.upstreamReset) || (k <= 1 && s.cleaned) || (k == 0 && !s.mine)
  }

  /** What the client may have been sent when the next block is due. */
  predicate Replied(regular: bool, started: bool, client: seq<Part>, withData: bool) {
    regular ==>
      && started
      && (client == [Part(Headers, false)] || (withData && client == [Part(Headers, false), Part(Data, false)]))
  }

  function Blocks(w: Worker): nat { if w.reqData then 2 else 1 }

  /** What a phase has achieved when processError lets it go on. */
  predicate Achieved(c: Config, w: Worker, t: Trace) {
    match w.phase
    case ChooseHost => w.upstream == UNSENT
    case DownRecvHeader => Marked(w, 1) && Sending(w.upstream, w.reqData, w.reqTrailers, 1)
    case DownRecvData => Marked(w, 2) && Sending(w.upstream, w.reqData, w.reqTrailers, Blocks(w))
    case DownRecvTrailer | Retry => AllSent(w)
    case Oneway => !c.oneway && AllSent(w)
    case UpRecvHeader => Replied(Regular(c, t), w.started, t.client, false)
    case UpRecvData => Replied(Regular(c, t), w.started, t.client, true)
    case _ => true
  }

  predicate AtGate(c: Config, w: Worker, s: Shared, t: Trace, g: Gate, second: bool) {
    match g
    case SendHeaders =>
      && w.phase == DownRecvHeader && w.upstream == UNSENT && !NotSent(t)
      && Used(w.retry, Pending(w), t.opens, t.firstSends) <= t.budget && t.opens == 0
    case RetryHeaders =>
      && w.phase == Retry && w.upstream == UNSENT
      && Used(w.retry, Pending(w), t.opens, t.firstSends) <= t.budget && t.opens < t.passes
    case CheckData =>
      w.phase == DownRecvData && w.reqData && Sending(w.upstream, w.reqData, w.reqTrailers, 1)
    case SendData =>
      w.phase == DownRecvData && w.reqData && Marked(w, 2) && Sending(w.upstream, w.reqData, w.reqTrailers, 1)
    case CheckTrailers =>
      w.phase == DownRecvTrailer && w.reqTrailers && Sending(w.upstream, w.reqData, w.reqTrailers, Blocks(w))
    case SendTrailers =>
      && w.phase == DownRecvTrailer && w.reqTrailers && Marked(w, 3)
      && Sending(w.upstream, w.reqData, w.reqTrailers, Blocks(w))
    case RetryData =>
      && w.phase == Retry && w.reqData && !Pending(w) && w.upstream.Upstream?
      && (Sending(w.upstream, w.reqData, w.reqTrailers, 1) || s.upstreamReset || (!second && Done(w, s)))
    case RetryTrailers =>
      && w.phase == Retry && w.reqTrailers && !Pending(w) && w.upstream.Upstream?
      && (Sending(w.upstream, w.reqData, w.reqTrailers, Blocks(w)) || s.upstreamReset || (!second && Done(w, s)))
    case ReplyHeaders(_) => w.phase == UpRecvHeader && Unanswered(c, w, t) && (Regular(c, t) ==> !s.direct)
    case ReplyData(_) => w.phase == UpRecvData && Replied(Regular(c, t), w.started, t.client, false)
    case ReplyTrailers => w.phase == UpRecvTrailer && Replied(Regular(c, t), w.started, t.client, true)
  }

  predicate AtEntry(c: Config, w: Worker, s: Shared, t: Trace) {
    match w.phase
    case DownRecvHeader => NotSent(t) && w.upstream == UNSENT
    case DownRecvData => Marked(w, 1) && Sending(w.upstream, w.reqData, w.reqTrailers, 1)
    case DownRecvTrailer => Marked(w, 2) && Sending(w.upstream, w.reqData, w.reqTrailers, Blocks(w))
    case Oneway => AllSent(w) || (c.oneway && (s.upstreamReset || w.retry.NoRetry?))
    case WaitNotify => AllSent(w)
    case Retry => Pending(w) && t.opens < t.passes
    case UpRecvHeader => Unanswered(c, w, t) && (Regular(c, t) ==> !s.direct)
    case UpRecvData => Replied(Regular(c, t), w.started, t.client, false)
    case UpRecvTrailer => Replied(Regular(c, t), w.started, t.client, true)
    case _ => true
  }

  predicate FilterPhase(p: Phase) {
    p == DownFilter || p == DownFilterAfterRoute || p == DownFilterAfterChooseHost || p == UpFilter
  }

  predicate AtPc(c: Config, st: State) {
    var w, s, t := st.w, st.s, st.t;
    match st.pc
    case Enter => !w.given && !s.cleaned && AtEntry(c, w, s, t)
    case Filtering =>
      && !w.given && !s.cleaned
      && FilterPhase(w.phase)
    case Reading =>
      && !w.given && !s.cleaned
      && (w.phase == UpRecvHeader || w.phase == UpRecvData) && AtEntry(c, w, s, t)
    case ReadingTrailers => !w.given && !s.cleaned && w.phase == UpRecvHeader && AtEntry(c, w, s, t)
    case Gated(g, second) => !w.given && !s.cleaned && AtGate(c, w, s, t, g, second)
    case Opening =>
      && !w.given && !s.cleaned && t.opens > 0
      && (w.phase == DownRecvHeader || w.phase == Retry)
      && w.upstream == UNSENT.(sendComplete := !w.reqData
         && !w.reqTrailers, data := w.reqData, trailers := w.reqTrailers)
    case Checking(k, exit) =>
      && (k >= 1 ==> !w.given) && (k >= 2 ==> !s.cleaned)
      && (w.phase == DownRecvHeader ==> !NotSent(t))
      && (Leaving(w, s, k, exit) || Achieved(c, w, t) || (w.phase == UpFilter))
    case Cleaning(k, _) => !w.given && (k >= 1 ==> s.cleaned) && (w.phase == DownRecvHeader ==> !NotSent(t))
    case Halted => true
  }

  ghost predicate Inv(c: Config, st: State) {
    && Core(c, st.w, st.s, st.t)
    && (!st.pc.Halted? ==> InPhase(c, st.w, st.t))
    && AtPc(c, st)
  }

  lemma InvIsSafe(c: Config, st: State)
    requires Inv(c, st)
    ensures Safe(c, st)
  {
    if Forwarded(st) {
      var m := Message(st.w.reqData, st.w.reqTrailers);
      assert m[..|m|] == m;
    }
  }

  lemma InitialInv(c: Config, reqData: bool, reqTrailers: bool)
    ensures Inv(c, Initial(reqData, reqTrailers))
  {}

  // ---- every step keeps it ----

  lemma OthersKeepCore(c: Config, st: State, s': Shared)
    requires Core(c, st.w, st.s, st.t) && Rely(c, st, s')
    ensures Core(c, st.w, s', st.t)
  {
    hide TriesOk, WellFormedReply, Used;
  }

  lemma OthersKeepPlace(c: Config, st: State, s': Shared)
    requires AtPc(c, st) && Rely(c, st, s')
    ensures AtPc(c, st.(s := s'))
  {
    hide Sending, Used, Replied, Achieved;
  }

  lemma OthersKeep(c: Config, st: State, s': Shared)
    requires Inv(c, st) && Rely(c, st, s')
    ensures Inv(c, st.(s := s'))
  {
    hide Core, AtPc, InPhase;
    OthersKeepCore(c, st, s');
    OthersKeepPlace(c, st, s');
  }

  lemma PhaseKeepsCore(c: Config, w: Worker, s: Shared, t: Trace, p: Phase)
    requires Core(c, w, s, t)
    ensures Core(c, w.(phase := p), s, t)
    ensures w.upstream == NoUpstream ==> Core(c, w.(phase := p, upstream := UNSENT), s, t)
  {
    hide WellFormedReply;
  }

  lemma TokenKeepsCore(c: Config, w: Worker, s: Shared, t: Trace, token: bool)
    requires Core(c, w, s, t)
    ensures Core(c, w, s.(token := token), t)
  {
    hide TriesOk, WellFormedReply, Used;
  }

  lemma SkipKeepsCore(c: Config, w: Worker, s: Shared, t: Trace)
    requires Core(c, w, s, t)
    ensures Core(c, w, s, t.(skippedHeaders := true))
  {
    hide TriesOk, WellFormedReply, Used;
  }

  lemma FirstSendKeepsCore(c: Config, w: Worker, s: Shared, t: Trace)
    requires Core(c, w, s, t) && NotSent(t) && w.again == InitPhase
    ensures var t' := t.(firstSends := t.firstSends + 1);
            Core(c, w, s, t') && Used(w.retry, Pending(w), t'.opens, t'.firstSends) <= t'.budget
  {
    hide TriesOk, WellFormedReply;
  }

  lemma EnterFrontKeeps(c: Config, st: State, ch: Choice)
    requires Inv(c, st) && st.pc.Enter?
    requires st.w.phase in {InitPhase, DownFilter, MatchRoute, DownFilterAfterRoute, DownFilterAfterChooseHost,
             UpFilter}
    ensures Inv(c, EnterStep(c, st, ch))
  {
    hide TriesOk, WellFormedReply, Sending, Used, AtGate;
  }

  lemma EnterChooseHostKeeps(c: Config, st: State, ch: Choice)
    requires Inv(c, st) && st.pc.Enter? && st.w.phase == ChooseHost
    ensures Inv(c, EnterStep(c, st, ch))
  {
    hide WellFormedReply, Sending, AtGate;
  }

  lemma EnterSendKeeps(c: Config, st: State, ch: Choice)
    requires Inv(c, st) && st.pc.Enter?
    requires st.w.phase == DownRecvData || st.w.phase == DownRecvTrailer || st.w.phase == Oneway
             || st.w.phase == WaitNotify
    ensures Inv(c, EnterStep(c, st, ch))
  {
    hide Core, Sending, Replied, Used;
    PhaseKeepsCore(c, st.w, st.s, st.t, Next(st.w.phase));
    TokenKeepsCore(c, st.w, st.s, st.t, false);
  }

  lemma EnterFirstSendKeeps(c: Config, st: State, ch: Choice)
    requires Inv(c, st) && st.pc.Enter? && st.w.phase == DownRecvHeader
    ensures Inv(c, EnterStep(c, st, ch))
  {
    FirstSendKeepsCore(c, st.w, st.s, st.t);
    hide Core, Sending, Replied, Used;
  }

  lemma EnterRetryKeeps(c: Config, st: State, ch: Choice)
    requires Inv(c, st) && st.pc.Enter? && st.w.phase == Retry
    ensures Inv(c, EnterStep(c, st, ch))
  {
    hide WellFormedReply, Sending;
  }

  lemma EnterReplyKeeps(c: Config, st: State, ch: Choice)
    requires Inv(c, st) && st.pc.Enter?
    requires st.w.phase == UpRecvHeader || st.w.phase == UpRecvData || st.w.phase == UpRecvTrailer
    ensures Inv(c, EnterStep(c, st, ch))
  {
    hide Core, Sending, Used;
    SkipKeepsCore(c, st.w, st.s, st.t);
    PhaseKeepsCore(c, st.w, st.s, st.t, Next(st.w.phase));
    PhaseKeepsCore(c, st.w, st.s, st.t.(skippedHeaders := true), UpRecvData);
  }

  lemma FilterQueuesReply(c: Config, st: State, ch: Choice)
    requires Inv(c, st) && st.pc.Filtering? && (ch.Hijack? || ch.Direct?)
    ensures Inv(c, FilterStep(c, st, ch))
  {
    hide TriesOk, WellFormedReply, Sending, Used, AtEntry;
  }

  lemma FilterSetsRequest(c: Config, st: State, ch: Choice)
    requires Inv(c, st) && st.pc.Filtering? && ch.SetRequest?
    ensures Inv(c, FilterStep(c, st, ch))
  {
    hide WellFormedReply, Sending, Used, AtEntry;
  }

  lemma FilterSetsResponse(c: Config, st: State, ch: Choice)
    requires Inv(c, st) && st.pc.Filtering? && ch.SetResponse?
    ensures Inv(c, FilterStep(c, st, ch))
  {
    hide TriesOk, WellFormedReply, Sending, Used, AtEntry;
  }

  lemma FilterEnds(c: Config, st: State, ch: Choice)
    requires Inv(c, st) && st.pc.Filtering?
    requires !ch.Hijack? && !ch.Direct? && !ch.SetRequest? && !ch.SetResponse?
    requires ch.Append? ==> !(c.lateWrites && !c.oneway)
    ensures Inv(c, FilterStep(c, st, ch))
  {
    hide TriesOk, WellFormedReply, Sending, Used, AtEntry;
  }

  lemma ReadKeeps(c: Config, st: State)
    requires Inv(c, st) && (st.pc.Reading? || st.pc.ReadingTrailers?)
    ensures Inv(c, ReadStep(st))
  {
    hide TriesOk, WellFormedReply, Sending, Used;
  }

  lemma OpenRefused(c: Config, st: State, ch: Choice)
    requires Inv(c, st) && st.pc.Opening? && ch.Refused? && st.w.phase == DownRecvHeader
    ensures Inv(c, OpenStep(st, ch))
  {
    hide TriesOk, WellFormedReply, Sending, Used, Achieved, Replied, AtEntry;
  }

  lemma ReopenRefused(c: Config, st: State, ch: Choice)
    requires Inv(c, st) && st.pc.Opening? && ch.Refused? && st.w.phase == Retry
    ensures Inv(c, OpenStep(st, ch))
  {
    hide TriesOk, WellFormedReply, Sending, Used, Achieved, Replied, AtEntry;
  }

  /** The stream is ready and its headers are sent. */
  lemma ReadyKeepsCore(c: Config, st: State, ch: Choice)
    requires Core(c, st.w, st.s, st.t) && !ch.Refused?
    requires st.w.upstream == UNSENT.(sendComplete := !st.w.reqData && !st.w.reqTrailers,
                                      data := st.w.reqData, trailers := st.w.reqTrailers)
    ensures var w := PoolAnswer(st, ch).w;
            Core(c, w, st.s, st.t) && Sending(w.upstream, w.reqData, w.reqTrailers, 1)
  {
    hide WellFormedReply, Used;
  }

  lemma SentKeepsCore(c: Config, w: Worker, s: Shared, t: Trace, recvDone: bool, requestSent: bool)
    requires Core(c, w, s, t)
    ensures Core(c, w.(recvDone := recvDone, requestSent := requestSent), s, t)
  {
    hide TriesOk, WellFormedReply, Used;
  }

  lemma OpeningFacts(c: Config, st: State)
    requires AtPc(c, st) && st.pc.Opening?
    ensures !st.w.given && !st.s.cleaned && !NotSent(st.t) && st.w.upstream.Upstream? && !Pending(st.w)
    ensures st.w.upstream == UNSENT.(sendComplete := !st.w.reqData && !st.w.reqTrailers,
                                     data := st.w.reqData, trailers := st.w.reqTrailers)
  {}

  lemma OpenReady(c: Config, st: State, ch: Choice)
    requires Inv(c, st) && st.pc.Opening? && !ch.Refused? && st.w.phase == DownRecvHeader
    ensures Inv(c, OpenStep(st, ch))
  {
    hide Core, InPhase, AtPc, Sending, RetryRest, PoolAnswer, NotSent, Pending;
    OpeningFacts(c, st);
    ReadyKeepsCore(c, st, ch);
    ReadyPhase(c, st, ch);
    var st' := PoolAnswer(st, ch);
    SentKeepsCore(c, st'.w, st.s, st.t, st'.w.recvDone, st'.w.requestSent || (!st'.w.reqData && !st'.w.reqTrailers));
    HeadersSentPlace(c, st');
    InvFromParts(c, OpenStep(st, ch));
  }

  /** After the headers of the first try: on to the check. */
  lemma HeadersSentPlace(c: Config, st: State)
    requires InPhase(c, st.w, st.t) && !st.w.given && !st.s.cleaned && st.w.phase == DownRecvHeader && !NotSent(st.t)
    requires Sending(st.w.upstream, st.w.reqData, st.w.reqTrailers, 1)
    ensures InPhase(c, GateShut(st, SendHeaders).w, st.t) && AtPc(c, GateShut(st, SendHeaders))
  {
    hide Sending, Replied, Used, AtEntry, AtGate;
  }

  lemma ReopenReady(c: Config, st: State, ch: Choice)
    requires Inv(c, st) && st.pc.Opening? && !ch.Refused? && st.w.phase == Retry
    ensures Inv(c, OpenStep(st, ch))
  {
    hide Core, InPhase, AtPc, Sending, RetryRest, GateShut, PoolAnswer, NotSent, Pending;
    OpeningFacts(c, st);
    ReadyKeepsCore(c, st, ch);
    ReadyPhase(c, st, ch);
    RestKeepsCore(c, PoolAnswer(st, ch));
    RestPlace(c, PoolAnswer(st, ch));
    InvFromParts(c, OpenStep(st, ch));
  }

  lemma ReadyPhase(c: Config, st: State, ch: Choice)
    requires InPhase(c, st.w, st.t) && (st.w.phase == Retry || st.w.phase == DownRecvHeader)
    requires !ch.Refused? && st.w.upstream.Upstream? && !Pending(st.w)
    ensures var st' := PoolAnswer(st, ch);
            && InPhase(c, st'.w, st.t) && !Pending(st'.w) && st'.w.upstream.Upstream?
            && st'.w.phase == st.w.phase && st'.w.given == st.w.given && st'.s == st.s && st'.t == st.t
  {}

  lemma RestKeepsCore(c: Config, st: State)
    requires Core(c, st.w, st.s, st.t)
    ensures Core(c, RetryRest(st, RetryHeaders).w, st.s, st.t) && RetryRest(st, RetryHeaders).s == st.s
    ensures RetryRest(st, RetryHeaders).t == st.t
  {
    hide Core;
    SentKeepsCore(c, st.w, st.s, st.t, true, true);
  }

  /** After the headers of a retry: on to the data, the trailers or the check. */
  lemma RestPlace(c: Config, st: State)
    requires InPhase(c, st.w, st.t) && !st.w.given && !st.s.cleaned && st.w.phase == Retry
    requires Sending(st.w.upstream, st.w.reqData, st.w.reqTrailers, 1) && st.w.upstream.Upstream? && !Pending(st.w)
    ensures InPhase(c, RetryRest(st, RetryHeaders).w, st.t) && AtPc(c, RetryRest(st, RetryHeaders))
  {
    hide Sending, Replied, Used, AtEntry;
  }

  lemma ShutKeeps(c: Config, st: State)
    requires Inv(c, st) && st.pc.Gated? && Done(st.w, st.s)
    requires !st.pc.gate.RetryHeaders? && !st.pc.gate.RetryData? && !st.pc.gate.RetryTrailers?
    ensures Inv(c, GateShut(st, st.pc.gate))
  {
    hide TriesOk, WellFormedReply, Sending, Used, Replied, Achieved, AtEntry;
  }

  lemma ShutRetryKeeps(c: Config, st: State)
    requires Inv(c, st) && st.pc.Gated? && Done(st.w, st.s)
    requires st.pc.gate.RetryHeaders? || st.pc.gate.RetryData? || st.pc.gate.RetryTrailers?
    ensures Inv(c, GateShut(st, st.pc.gate))
  {
    hide TriesOk, WellFormedReply, Sending, Used, Replied, AtEntry;
  }

  lemma CleanKeepsCore(c: Config, w: Worker, s: Shared, t: Trace, done: bool)
    requires Core(c, w, s, t) && !w.given && !s.cleaned
    ensures Core(c, w.(processDone := done), s.(cleaned := true), t.(cleans := t.cleans + 1))
    ensures Core(c, w, s.(cleaned := true), t.(cleans := t.cleans + 1))
  {
    hide TriesOk, WellFormedReply, Used;
  }

  lemma CleanCasKeeps(c: Config, st: State)
    requires Inv(c, st) && st.pc.Cleaning? && st.pc.k == 0
    ensures Inv(c, CleanStep(c, st, 0, st.pc.toEnd))
  {
    hide Core, Sending, Replied, Achieved, AtGate, AtEntry;
    if !st.s.cleaned { CleanKeepsCore(c, st.w, st.s, st.t, true); }
  }

  lemma CleanLoadsKeep(c: Config, st: State)
    requires Inv(c, st) && st.pc.Cleaning? && 1 <= st.pc.k <= 2
    ensures Inv(c, CleanStep(c, st, st.pc.k, st.pc.toEnd))
  {
    hide TriesOk, WellFormedReply, Sending, Used, AtGate, AtEntry;
  }

  lemma GiveKeepsCore(c: Config, w: Worker, s: Shared, t: Trace)
    requires Core(c, w, s, t) && !w.given && s.cleaned
    ensures Core(c, w.(given := true), s.(mine := false), t)
  {
    hide TriesOk, WellFormedReply, Used;
  }

  lemma CleanGivesKeep(c: Config, st: State)
    requires Inv(c, st) && st.pc.Cleaning? && st.pc.k >= 3
    ensures Inv(c, CleanStep(c, st, st.pc.k, st.pc.toEnd))
  {
    hide Core, Sending, Replied, Achieved, AtGate, AtEntry;
    GiveKeepsCore(c, st.w, st.s, st.t);
  }

  lemma CheckLoadsKeep(c: Config, st: State, ch: Choice)
    requires Inv(c, st) && st.pc.Checking? && st.pc.k < 4
    requires st.pc.k != 2 || !st.s.upstreamReset
    ensures Inv(c, CheckStep(c, st, st.pc.k, st.pc.exit, ch))
  {
    hide TriesOk, WellFormedReply, Sending, Used, AtGate, AtEntry;
  }

  /** Leaving `receive` for another phase. */
  lemma LeaveKeeps(c: Config, st: State, p: Phase)
    requires Core(c, st.w, st.s, st.t)
    requires p != End ==> !st.w.given && !st.s.cleaned
    requires match p
             case MatchRoute | ChooseHost => NotSent(st.t) && Unanswered(c, st.w, st.t)
             case Oneway => c.oneway && (st.s.upstreamReset || st.w.retry.NoRetry?)
             case Retry => Pending(st.w) && Unanswered(c, st.w, st.t)
             case UpFilter => !c.oneway && Unanswered(c, st.w, st.t) && st.w.retry == NoRetry
             case _ => p == End
    ensures Inv(c, Leave(st, p))
  {
    hide TriesOk, WellFormedReply, Sending, Used, AtGate;
  }

  lemma SetupRetryKeepsCore(c: Config, w: Worker, s: Shared, t: Trace, reset: bool, cause: Cause)
    requires Core(c, w, s, t) && !c.oneway && !NotSent(t) && Unanswered(c, w, t)
    requires w.upstream.Upstream? && w.retry.RetryState? && w.retry.remaining > 0 && (reset ==> s.upstreamReset)
    ensures Core(c, w.(retry := UseRetry(w.retry), upstream := w.upstream.(setupRetry := true)),
                 s.(received := false, upstreamReset := reset), t.(causes := t.causes + [cause]))
  {
    hide TriesOk, WellFormedReply;
  }

  lemma ResetRetries(c: Config, st: State, ch: Choice)
    requires Inv(c, st) && st.pc.Checking? && st.pc.k == 2 && st.s.upstreamReset && !c.oneway
    requires st.s.resetReason != GlobalTimeout && !st.w.started && MayRetry(st.w.retry, st.s.resetReason, ch)
    ensures Inv(c, CheckStep(c, st, 2, st.pc.exit, ch))
  {
    SetupRetryKeepsCore(c, st.w, st.s, st.t, false, CauseOf(st.w.retry, st.s.resetReason, ch));
    hide Core, Sending, Replied, Achieved, UseRetry, AtGate, AtEntry;
  }

  lemma FailResetKeepsCore(c: Config, st: State, left: RetryState)
    requires Core(c, st.w, st.s, st.t) && !st.w.given && (left == st.w.retry || left == UseRetry(st.w.retry))
    ensures var st' := FailReset(st.(w := st.w.(retry := left)));
            Core(c, st'.w, st'.s, st'.t)
  {
    hide TriesOk, WellFormedReply;
  }

  lemma FailedPlace(c: Config, st: State, left: RetryState)
    requires InPhase(c, st.w, st.t) && AtPc(c, st) && st.pc.Checking? && st.pc.k == 2
    requires left.RetryState? <==> st.w.retry.RetryState?
    ensures var st' := FailReset(st.(w := st.w.(retry := left))).(pc := Checking(3, true));
            InPhase(c, st'.w, st'.t) && AtPc(c, st')
  {
    hide Sending, Replied, Achieved, AtGate, AtEntry;
  }

  lemma ResetFails(c: Config, st: State, ch: Choice)
    requires Inv(c, st) && st.pc.Checking? && st.pc.k == 2 && st.s.upstreamReset && !c.oneway
    requires st.s.resetReason == GlobalTimeout || st.w.started || !MayRetry(st.w.retry, st.s.resetReason, ch)
    ensures Inv(c, CheckStep(c, st, 2, st.pc.exit, ch))
  {
    hide Core, InPhase, AtPc, FailReset, UseRetry, MayRetry;
    CheckedIsThere(c, st);
    var left := if st.s.resetReason == GlobalTimeout || st.w.started then st.w.retry else UseRetry(st.w.retry);
    UseRetryKind(st.w.retry);
    FailResetKeepsCore(c, st, left);
    FailedPlace(c, st, left);
    assert st.(w := st.w.(retry := st.w.retry)) == st;
  }

  lemma CheckedIsThere(c: Config, st: State)
    requires AtPc(c, st) && st.pc.Checking? && st.pc.k >= 2
    ensures !st.w.given && !st.s.cleaned
  {}

  lemma UseRetryKind(r: RetryState)
    ensures UseRetry(r).RetryState? <==> r.RetryState?
  {}

  /** Going on to the next phase. */
  lemma AdvanceKeeps(c: Config, st: State)
    requires Core(c, st.w, st.s, st.t) && InPhase(c, st.w, st.t) && !st.w.given && !st.s.cleaned
    requires st.w.phase == DownRecvHeader ==> !NotSent(st.t)
    requires st.w.phase == UpFilter || (Achieved(c, st.w, st.t) && st.w.again == InitPhase)
    requires Regular(c, st.t) ==> !st.s.direct && st.w.again == InitPhase
    ensures Inv(c, Advance(st))
  {
    hide Core, InPhase, Achieved, AtPc, Regular, Unanswered;
    PhaseKeepsCore(c, st.w, st.s, st.t, Next(st.w.phase));
    if st.w.phase == UpFilter {
      FilteredPlace(c, st);
    } else {
      NextPlace(c, st);
    }
    InvFromParts(c, Advance(st));
  }

  lemma FilteredPlace(c: Config, st: State)
    requires InPhase(c, st.w, st.t) && !st.w.given && !st.s.cleaned && st.w.phase == UpFilter
    requires Regular(c, st.t) ==> !st.s.direct && st.w.again == InitPhase
    ensures InPhase(c, Advance(st).w, st.t) && AtPc(c, Advance(st))
  {
    hide Sending, Replied, AtGate, Achieved, Regular, NotSent;
    var u := if st.w.upstream.NoUpstream? then UNSENT else st.w.upstream;
    assert Advance(st) == st.(pc := Enter, w := st.w.(phase := UpRecvHeader, upstream := u));
  }

  lemma NextPlace(c: Config, st: State)
    requires InPhase(c, st.w, st.t) && !st.w.given && !st.s.cleaned && st.w.phase != UpFilter
    requires st.w.phase == DownRecvHeader ==> !NotSent(st.t)
    requires Achieved(c, st.w, st.t) && st.w.again == InitPhase
    requires Regular(c, st.t) ==> !st.s.direct
    ensures !Advance(st).pc.Halted? ==> InPhase(c, Advance(st).w, st.t)
    ensures AtPc(c, Advance(st))
  {
    hide Sending, Replied, AtGate;
  }

  lemma DirectKeepsCore(c: Config, st: State)
    requires Core(c, st.w, st.s, st.t)
    ensures Core(c, st.w.(retry := NoRetry), st.s.(direct := false), st.t)
    ensures Core(c, st.w.(retry := NoRetry), st.s.(direct := false), st.t.(lateHijack := true))
    ensures Regular(c, st.t) && !st.w.given && st.s.direct ==> !st.w.started
  {
    hide TriesOk, WellFormedReply;
  }

  lemma AgainKeepsCore(c: Config, st: State)
    requires Core(c, st.w, st.s, st.t)
    ensures Core(c, st.w.(again := InitPhase), st.s, st.t)
    ensures st.w.again != InitPhase ==> NotSent(st.t) && (st.w.again == MatchRoute || st.w.again == ChooseHost)
    ensures st.w.again != InitPhase || Pending(st.w) ==> Unanswered(c, st.w, st.t)
  {
    hide TriesOk, WellFormedReply, Used;
  }

  lemma DecideDirect(c: Config, st: State)
    requires Inv(c, st) && st.pc.Checking? && st.pc.k >= 4 && st.s.direct
    ensures Inv(c, Decide(c, st, st.pc.exit))
  {
    hide Core, Leave, Advance, Sending, Replied, Achieved, AtGate, AtEntry;
    DirectKeepsCore(c, st);
    var st' := st.(w := st.w.(retry := NoRetry), s := st.s.(direct := false));
    if c.oneway {
      LeaveKeeps(c, st', Oneway);
    } else if st.w.phase != UpFilter {
      LeaveKeeps(c, st', UpFilter);
    } else if st.pc.exit {
      LeaveKeeps(c, st', End);
    } else {
      AdvanceKeeps(c, st'.(t := st.t.(lateHijack := st.t.lateHijack || st.w.again != InitPhase)));
    }
  }

  lemma DecideOther(c: Config, st: State)
    requires Inv(c, st) && st.pc.Checking? && st.pc.k >= 4 && !st.s.direct
    ensures Inv(c, Decide(c, st, st.pc.exit))
  {
    hide Core, Leave, Advance, Sending, Replied, AtGate, AtEntry;
    AgainKeepsCore(c, st);
    if Pending(st.w) {
      LeaveKeeps(c, st, Retry);
    } else if st.w.again != InitPhase {
      LeaveKeeps(c, st.(w := st.w.(again := InitPhase)), st.w.again);
    } else if st.pc.exit || st.w.processDone {
      LeaveKeeps(c, st, End);
    } else {
      AdvanceKeeps(c, st);
    }
  }

  lemma PassOpens(c: Config, st: State, ch: Choice)
    requires Inv(c, st) && st.pc.Gated? && st.pc.second && !st.s.upstreamReset
    requires st.pc.gate == SendHeaders || st.pc.gate == RetryHeaders
    ensures Inv(c, GatePassed(c, st, st.pc.gate, ch))
  {
    hide WellFormedReply, Sending, Replied, Achieved, AtEntry;
  }

  lemma PassChecks(c: Config, st: State, ch: Choice)
    requires Inv(c, st) && st.pc.Gated? && st.pc.second && !st.s.upstreamReset
    requires st.pc.gate == CheckData || st.pc.gate == CheckTrailers
    ensures Inv(c, GatePassed(c, st, st.pc.gate, ch))
  {
    hide TriesOk, WellFormedReply, Sending, Used, Replied, AtEntry;
  }

  /** One more block in the open stream: still a prefix of the request. */
  lemma PushKeepsTries(w: Worker, t: Trace, n: nat, part: Part)
    requires Sending(w.upstream, w.reqData, w.reqTrailers, n) && n < |Message(w.reqData, w.reqTrailers)|
    requires part == Message(w.reqData, w.reqTrailers)[n]
    requires TriesOk(TryOf(w), t.pastTries)
    ensures var w' := PushUpstream(w, part);
            && Sending(w'.upstream, w.reqData, w.reqTrailers, n + 1)
            && TriesOk(TryOf(w'), t.pastTries)
  {
    var m := Message(w.reqData, w.reqTrailers);
    assert m[..n] + [m[n]] == m[..n + 1];
  }

  lemma BlockKeepsCore(c: Config, w: Worker, s: Shared, t: Trace, n: nat, part: Part)
    requires Core(c, w, s, t)
    requires Sending(w.upstream, w.reqData, w.reqTrailers, n) && n < |Message(w.reqData, w.reqTrailers)|
    requires part == Message(w.reqData, w.reqTrailers)[n]
    ensures var w' := PushUpstream(w, part);
            Core(c, w', s, t) && Sending(w'.upstream, w.reqData, w.reqTrailers, n + 1)
  {
    PushKeepsTries(w, t, n, part);
    hide TriesOk, WellFormedReply, Used;
  }

  lemma PushKeepsRequest(w: Worker, part: Part)
    ensures var w' := PushUpstream(w, part);
            w' == w.(upstream := w'.upstream)
  {}

  lemma BeforeBody(c: Config, st: State)
    requires Inv(c, st) && st.pc.Gated? && st.pc.second && !st.s.upstreamReset
    requires st.pc.gate == SendData || st.pc.gate == RetryData
    ensures Core(c, st.w, st.s, st.t) && InPhase(c, st.w, st.t) && !st.w.given && !st.s.cleaned && st.w.reqData
    ensures st.w.phase == if st.pc.gate == SendData then DownRecvData else Retry
    ensures st.pc.gate == SendData ==> Marked(st.w, 2)
    ensures Sending(st.w.upstream, st.w.reqData, st.w.reqTrailers, 1)
  {
    hide Core, Sending, AtEntry, Achieved;
  }

  /** After the data: on to the check, or to the trailers of a retry. */
  lemma BodyPlace(c: Config, st: State, u: Upstream)
    requires InPhase(c, st.w, st.t) && !st.w.given && !st.s.cleaned && st.w.reqData
    requires Sending(u, st.w.reqData, st.w.reqTrailers, 2)
    ensures var st' := Check(st.(w := st.w.(upstream := u)));
            st.w.phase == DownRecvData && Marked(st.w, 2) ==> InPhase(c, st'.w, st'.t) && AtPc(c, st')
    ensures var st' := RetryRest(st.(w := st.w.(upstream := u)), RetryData);
            st.w.phase == Retry ==> InPhase(c, st'.w, st'.t) && AtPc(c, st')
  {
    hide AtEntry;
  }

  lemma PassSendsData(c: Config, st: State, ch: Choice)
    requires Inv(c, st) && st.pc.Gated? && st.pc.second && !st.s.upstreamReset
    requires st.pc.gate == SendData || st.pc.gate == RetryData
    ensures Inv(c, GatePassed(c, st, st.pc.gate, ch))
  {
    hide Inv, Core, InPhase, AtPc, Sending, PushUpstream;
    var part := Part(Data, !st.w.reqTrailers);
    BeforeBody(c, st);
    assert Message(st.w.reqData, st.w.reqTrailers)[1] == part;
    BlockKeepsCore(c, st.w, st.s, st.t, 1, part);
    var w := PushUpstream(st.w, part);
    PushKeepsRequest(st.w, part);
    SentKeepsCore(c, w, st.s, st.t, true, true);
    BodyPlace(c, st, w.upstream);
    InvFromParts(c, GatePassed(c, st, st.pc.gate, ch));
  }

  lemma BeforeTrailers(c: Config, st: State)
    requires Inv(c, st) && st.pc.Gated? && st.pc.second && !st.s.upstreamReset
    requires st.pc.gate == SendTrailers || st.pc.gate == RetryTrailers
    ensures Core(c, st.w, st.s, st.t) && InPhase(c, st.w, st.t) && !st.w.given && st.w.reqTrailers
    ensures st.w.phase == if st.pc.gate == SendTrailers then DownRecvTrailer else Retry
    ensures st.pc.gate == SendTrailers ==> Marked(st.w, 3)
    ensures Sending(st.w.upstream, st.w.reqData, st.w.reqTrailers, Blocks(st.w))
  {
    hide Core, Sending, AtEntry, Achieved;
  }

  /** After the trailers: on to the check. */
  lemma TrailersPlace(c: Config, st: State, part: Part, recvDone: bool, requestSent: bool)
    requires InPhase(c, st.w, st.t) && !st.w.given && (st.w.phase == DownRecvTrailer || st.w.phase == Retry)
    requires AllSent(PushUpstream(st.w, part).(recvDone := recvDone, requestSent := requestSent))
    ensures var st' := Check(st.(w := PushUpstream(st.w, part).(recvDone := recvDone, requestSent := requestSent)));
            InPhase(c, st'.w, st'.t) && AtPc(c, st')
  {
    hide Sending, AtGate, AtEntry;
  }

  lemma PassSendsTrailers(c: Config, st: State, ch: Choice)
    requires Inv(c, st) && st.pc.Gated? && st.pc.second && !st.s.upstreamReset
    requires st.pc.gate == SendTrailers || st.pc.gate == RetryTrailers
    ensures Inv(c, GatePassed(c, st, st.pc.gate, ch))
  {
    hide Inv, Core, InPhase, AtPc, Sending, PushUpstream;
    var part := Part(Trailers, true);
    BeforeTrailers(c, st);
    assert Message(st.w.reqData, st.w.reqTrailers)[Blocks(st.w)] == part;
    BlockKeepsCore(c, st.w, st.s, st.t, Blocks(st.w), part);
    var w := PushUpstream(st.w, part);
    PushKeepsRequest(st.w, part);
    var sent := st.pc.gate == RetryTrailers;
    SentKeepsCore(c, w, st.s, st.t, sent || w.recvDone, sent || w.requestSent);
    TrailersPlace(c, st, part, sent || w.recvDone, sent || w.requestSent);
    assert w.(recvDone := w.recvDone, requestSent := w.requestSent) == w;
    InvFromParts(c, GatePassed(c, st, st.pc.gate, ch));
  }

  lemma RetryPlace(c: Config, st: State, cause: Cause)
    requires InPhase(c, st.w, st.t) && st.w.phase == UpRecvHeader && st.w.upstream.Upstream? && !st.w.given
    ensures var st' := Check(SetupRetry(st.(w := st.w.(retry := UseRetry(st.w.retry))), cause));
            InPhase(c, st'.w, st'.t) && AtPc(c, st')
  {
    hide Sending, Replied, Achieved, AtGate, AtEntry;
  }

  lemma BeforeRetry(c: Config, st: State, end: bool)
    requires Inv(c, st) && st.pc == Gated(ReplyHeaders(end), true)
    ensures Core(c, st.w, st.s, st.t) && InPhase(c, st.w, st.t) && Unanswered(c, st.w, st.t)
    ensures !c.oneway && !st.w.given && st.w.phase == UpRecvHeader && st.w.upstream.Upstream?
    ensures st.w.retry.RetryState? ==> !NotSent(st.t)
  {
    hide Core, Sending, Achieved, AtEntry;
  }

  lemma PassRetries(c: Config, st: State, end: bool, ch: Choice)
    requires Inv(c, st) && st.pc == Gated(ReplyHeaders(end), true) && MayRetry(st.w.retry, NoReason, ch)
    ensures Inv(c, OnUpstreamHeaders(c, st, end, ch))
  {
    hide Inv, Core, AtPc, InPhase, UseRetry, Unanswered, PushClient;
    BeforeRetry(c, st, end);
    var cause := CauseOf(st.w.retry, NoReason, ch);
    SetupRetryKeepsCore(c, st.w, st.s, st.t, st.s.upstreamReset, cause);
    RetryPlace(c, st, cause);
    InvFromParts(c, OnUpstreamHeaders(c, st, end, ch));
  }

  /** The replies the phases build up are well formed. */
  lemma ReplyGrows(end: bool)
    ensures WellFormedReply([] + [Part(Headers, end)])
    ensures WellFormedReply([Part(Headers, false)] + [Part(Data, end)])
    ensures WellFormedReply([Part(Headers, false)] + [Part(Trailers, true)])
    ensures WellFormedReply([Part(Headers, false), Part(Data, false)] + [Part(Trailers, true)])
  {}

  lemma PushKeepsCore(c: Config, st: State, part: Part)
    requires Core(c, st.w, st.s, st.t) && !c.oneway && !st.w.given
    requires Regular(c, st.t) ==> st.w.started && WellFormedReply(st.t.client + [part])
    ensures var st' := PushClient(c, st, part);
            Core(c, st'.w, st'.s, st'.t)
  {
    hide TriesOk, WellFormedReply, Used, Core;
    var w, t := st.w.(processDone := part.end), st.t.(client := st.t.client + [part]);
    BlockIsLogged(c, st.w, st.s, st.t, part);
    ReuseKeepsCore(c, w, st.s, t);
  }

  lemma BlockIsLogged(c: Config, w: Worker, s: Shared, t: Trace, part: Part)
    requires Core(c, w, s, t) && !c.oneway
    requires Regular(c, t) ==> w.started && WellFormedReply(t.client + [part])
    ensures Core(c, w.(processDone := part.end), s, t.(client := t.client + [part]))
  {
    hide TriesOk, WellFormedReply, Used;
  }

  lemma ReuseKeepsCore(c: Config, w: Worker, s: Shared, t: Trace)
    requires Core(c, w, s, t)
    ensures Core(c, w, s.(reuse := false), t)
  {
    hide TriesOk, WellFormedReply, Used;
  }

  lemma AppendPlace(c: Config, st: State, part: Part)
    requires InPhase(c, st.w, st.t) && AtPc(c, st) && st.pc.Filtering? && c.lateWrites
    ensures var st' := PushClient(c, st, part);
            InPhase(c, st'.w, st'.t) && AtPc(c, st')
  {
    hide InPhase, Sending, Replied, Achieved, Leaving, AtGate, AtEntry;
    var st' := PushClient(c, st, part);
    PhaseUnaffected(c, st.w, st.t, st'.w, st'.t);
  }

  /** With late writes, what holds in a phase does not depend on the client or on the end of the reply. */
  lemma PhaseUnaffected(c: Config, w: Worker, t: Trace, w': Worker, t': Trace)
    requires InPhase(c, w, t) && c.lateWrites
    requires w'.phase == w.phase && w'.upstream == w.upstream && w'.retry == w.retry && w'.again == w.again
    requires t'.opens == t.opens && t'.firstSends == t.firstSends
    ensures InPhase(c, w', t')
  {}

  lemma FilterAppends(c: Config, st: State, ch: Choice)
    requires Inv(c, st) && st.pc.Filtering? && ch.Append?
    requires c.lateWrites && !c.oneway
    ensures Inv(c, FilterStep(c, st, ch))
  {
    hide Core, WellFormedReply, InPhase, PushClient, Achieved, Replied, Sending, AtEntry;
    PushKeepsCore(c, st, ch.part);
    AppendPlace(c, st, ch.part);
  }

  lemma StartKeepsCore(c: Config, w: Worker, s: Shared, t: Trace)
    requires Core(c, w, s, t) && !Pending(w) && (Regular(c, t) ==> w.again == InitPhase && !s.direct && !w.started)
    ensures Core(c, w.(retry := UseRetry(w.retry), started := true), s, t)
    ensures Regular(c, t) ==> t.client == []
  {
    hide TriesOk, WellFormedReply;
  }

  lemma ReplyPlace(c: Config, st: State, end: bool)
    requires InPhase(c, st.w, st.t) && st.w.phase == UpRecvHeader && st.w.started && !st.w.given
    requires st.pc == Checking(0, false) && (Regular(c, st.t) ==> st.t.client == [])
    ensures var st' := PushClient(c, st, Part(Headers, end));
            InPhase(c, st'.w, st'.t) && AtPc(c, st') && !st'.pc.Halted?
  {
    hide Sending;
    ReplyGrows(end);
  }

  lemma BeforeReply(c: Config, st: State, end: bool)
    requires Inv(c, st) && st.pc == Gated(ReplyHeaders(end), true) && !Pending(st.w)
    ensures var w := st.w.(retry := UseRetry(st.w.retry), started := true);
            Core(c, w, st.s, st.t) && InPhase(c, w, st.t)
    ensures !c.oneway && !st.w.given && st.w.phase == UpRecvHeader
    ensures Regular(c, st.t) ==> st.t.client == []
  {
    hide Core, Sending, Replied, Achieved;
    UseRetryKind(st.w.retry);
    StartKeepsCore(c, st.w, st.s, st.t);
  }

  function Started(st: State): State {
    Check(st.(w := st.w.(retry := UseRetry(st.w.retry), started := true)))
  }

  lemma HeadersStartReply(c: Config, st: State, end: bool, ch: Choice)
    requires !MayRetry(st.w.retry, NoReason, ch)
    ensures OnUpstreamHeaders(c, st, end, ch) == PushClient(c, Started(st), Part(Headers, end))
  {
    hide PushClient, UseRetry, MayRetry;
  }

  lemma InvFromParts(c: Config, st: State)
    requires Core(c, st.w, st.s, st.t) && (!st.pc.Halted? ==> InPhase(c, st.w, st.t)) && AtPc(c, st)
    ensures Inv(c, st)
  {
    hide Core, InPhase, AtPc;
  }

  lemma PassRepliesHeaders(c: Config, st: State, end: bool, ch: Choice)
    requires Inv(c, st) && st.pc == Gated(ReplyHeaders(end), true) && !Pending(st.w)
             && !MayRetry(st.w.retry, NoReason, ch)
    ensures Inv(c, OnUpstreamHeaders(c, st, end, ch))
  {
    hide Inv, Core, WellFormedReply, PushClient, OnUpstreamHeaders, AtPc, InPhase, UseRetry, MayRetry, Pending, Regular;
    BeforeReply(c, st, end);
    ReplyGrows(end);
    PushKeepsCore(c, Started(st), Part(Headers, end));
    ReplyPlace(c, Started(st), end);
    HeadersStartReply(c, st, end, ch);
    InvFromParts(c, PushClient(c, Started(st), Part(Headers, end)));
  }

  lemma BeforeData(c: Config, st: State, end: bool)
    requires Inv(c, st) && st.pc == Gated(ReplyData(end), true)
    ensures Core(c, st.w, st.s, st.t) && InPhase(c, st.w, st.t)
    ensures !c.oneway && !st.w.given && !st.s.cleaned && st.w.phase == UpRecvData
    ensures Regular(c, st.t) ==> st.w.started && st.t.client == [Part(Headers, false)]
  {
    hide Core, Sending, Achieved, AtEntry;
  }

  lemma DataPlace(c: Config, st: State, end: bool)
    requires InPhase(c, st.w, st.t) && !st.w.given && !st.s.cleaned && st.w.phase == UpRecvData
    requires Regular(c, st.t) ==> st.w.started && st.t.client == [Part(Headers, false)]
    ensures var st' := PushClient(c, Check(st), Part(Data, end));
            InPhase(c, st'.w, st'.t) && AtPc(c, st')
  {
    hide Sending, AtGate, AtEntry;
  }

  lemma PassRepliesData(c: Config, st: State, ch: Choice)
    requires Inv(c, st) && st.pc.Gated? && st.pc.second && !st.s.upstreamReset && st.pc.gate.ReplyData?
             && !Pending(st.w)
    ensures Inv(c, GatePassed(c, st, st.pc.gate, ch))
  {
    hide Inv, Core, WellFormedReply, PushClient, AtPc, InPhase, Pending, Regular;
    var end := st.pc.gate.end;
    BeforeData(c, st, end);
    ReplyGrows(end);
    PushKeepsCore(c, Check(st), Part(Data, end));
    DataPlace(c, st, end);
    InvFromParts(c, PushClient(c, Check(st), Part(Data, end)));
  }

  lemma PassRepliesTrailers(c: Config, st: State, ch: Choice)
    requires Inv(c, st) && st.pc.Gated? && st.pc.second && !st.s.upstreamReset && st.pc.gate.ReplyTrailers?
             && !Pending(st.w)
    ensures Inv(c, GatePassed(c, st, st.pc.gate, ch))
  {
    hide Core, WellFormedReply, Sending, AtEntry;
    ReplyGrows(true);
    PushKeepsCore(c, Check(st), Part(Trailers, true));
  }

  lemma PassGivesWay(c: Config, st: State, ch: Choice)
    requires Inv(c, st) && st.pc.Gated? && Pending(st.w)
    requires st.pc.gate.ReplyHeaders? || st.pc.gate.ReplyData? || st.pc.gate.ReplyTrailers?
    ensures Inv(c, GatePassed(c, st, st.pc.gate, ch))
  {
    hide TriesOk, WellFormedReply, Sending, Used, Replied, Achieved, AtEntry;
  }

  lemma GateKeeps(c: Config, st: State, g: Gate, second: bool, ch: Choice)
    requires Inv(c, st) && st.pc == Gated(g, second)
    ensures Inv(c, GateStep(c, st, g, second, ch))
  {
    if !second {
      if st.w.processDone || st.s.downstreamReset {
        GateShuts(c, st);
      } else {
        GateSecondLoad(c, st);
      }
    } else if st.s.upstreamReset {
      GateShuts(c, st);
    } else {
      GatePasses(c, st, ch);
    }
  }

  lemma GateSecondLoad(c: Config, st: State)
    requires Inv(c, st) && st.pc.Gated? && !st.pc.second && !st.w.processDone && !st.s.downstreamReset
    ensures Inv(c, st.(pc := Gated(st.pc.gate, true)))
  {
    hide Core, InPhase, Sending, Replied, AtEntry;
  }

  lemma GateShuts(c: Config, st: State)
    requires Inv(c, st) && st.pc.Gated? && Done(st.w, st.s)
    ensures Inv(c, GateShut(st, st.pc.gate))
  {
    hide Inv, GateShut;
    match st.pc.gate
    case RetryHeaders | RetryData | RetryTrailers => ShutRetryKeeps(c, st);
    case _ => ShutKeeps(c, st);
  }

  lemma PassIsReply(c: Config, st: State, end: bool, ch: Choice)
    requires !Pending(st.w)
    ensures GatePassed(c, st, ReplyHeaders(end), ch) == OnUpstreamHeaders(c, st, end, ch)
  {
    hide OnUpstreamHeaders;
  }

  lemma GatePasses(c: Config, st: State, ch: Choice)
    requires Inv(c, st) && st.pc.Gated? && st.pc.second && !st.s.upstreamReset
    ensures Inv(c, GatePassed(c, st, st.pc.gate, ch))
  {
    hide Inv, GatePassed, MayRetry;
    match st.pc.gate
    case SendHeaders | RetryHeaders => PassOpens(c, st, ch);
    case CheckData | CheckTrailers => PassChecks(c, st, ch);
    case SendData | RetryData => PassSendsData(c, st, ch);
    case SendTrailers | RetryTrailers => PassSendsTrailers(c, st, ch);
    case ReplyHeaders(end) =>
      if Pending(st.w) {
        PassGivesWay(c, st, ch);
      } else {
        if MayRetry(st.w.retry, NoReason, ch) {
          PassRetries(c, st, end, ch);
        } else {
          PassRepliesHeaders(c, st, end, ch);
        }
        PassIsReply(c, st, end, ch);
      }
    case ReplyData(_) => if Pending(st.w) { PassGivesWay(c, st, ch); } else { PassRepliesData(c, st, ch); }
    case ReplyTrailers => if Pending(st.w) { PassGivesWay(c, st, ch); } else { PassRepliesTrailers(c, st, ch); }
  }

  lemma EnterKeeps(c: Config, st: State, ch: Choice)
    requires Inv(c, st) && st.pc.Enter?
    ensures Inv(c, EnterStep(c, st, ch))
  {
    assert st.w.phase != End;
    hide Inv, EnterStep;
    match st.w.phase
    case ChooseHost => EnterChooseHostKeeps(c, st, ch);
    case DownRecvHeader => EnterFirstSendKeeps(c, st, ch);
    case DownRecvData | DownRecvTrailer | Oneway | WaitNotify => EnterSendKeeps(c, st, ch);
    case Retry => EnterRetryKeeps(c, st, ch);
    case UpRecvHeader | UpRecvData | UpRecvTrailer => EnterReplyKeeps(c, st, ch);
    case _ => EnterFrontKeeps(c, st, ch);
  }

  lemma FilterKeeps(c: Config, st: State, ch: Choice)
    requires Inv(c, st) && st.pc.Filtering?
    ensures Inv(c, FilterStep(c, st, ch))
  {
    hide Inv, FilterStep;
    match ch
    case Hijack(_) | Direct(_, _) => FilterQueuesReply(c, st, ch);
    case SetRequest(_, _) => FilterSetsRequest(c, st, ch);
    case SetResponse(_, _) => FilterSetsResponse(c, st, ch);
    case Append(_) =>
      if c.lateWrites && !c.oneway {
        FilterAppends(c, st, ch);
      } else {
        FilterEnds(c, st, ch);
      }
    case _ => FilterEnds(c, st, ch);
  }

  lemma OpenKeeps(c: Config, st: State, ch: Choice)
    requires Inv(c, st) && st.pc.Opening?
    ensures Inv(c, OpenStep(st, ch))
  {
    assert st.w.phase == DownRecvHeader || st.w.phase == Retry;
    hide Inv, OpenStep;
    if ch.Refused? {
      if st.w.phase == Retry { ReopenRefused(c, st, ch); } else { OpenRefused(c, st, ch); }
    } else {
      if st.w.phase == Retry { ReopenReady(c, st, ch); } else { OpenReady(c, st, ch); }
    }
  }

  lemma CheckKeeps(c: Config, st: State, k: nat, exit: bool, ch: Choice)
    requires Inv(c, st) && st.pc == Checking(k, exit)
    ensures Inv(c, CheckStep(c, st, k, exit, ch))
  {
    if k >= 4 {
      if st.s.direct { DecideDirect(c, st); } else { DecideOther(c, st); }
      assert CheckStep(c, st, k, exit, ch) == Decide(c, st, exit);
    } else if k == 2 && st.s.upstreamReset {
      ResetKeeps(c, st, ch);
    } else {
      CheckLoadsKeep(c, st, ch);
    }
  }

  lemma ResetKeeps(c: Config, st: State, ch: Choice)
    requires Inv(c, st) && st.pc.Checking? && st.pc.k == 2 && st.s.upstreamReset
    ensures Inv(c, CheckStep(c, st, 2, st.pc.exit, ch))
  {
    if c.oneway {
      LeaveKeeps(c, st, Oneway);
    } else if st.s.resetReason != GlobalTimeout && !st.w.started && MayRetry(st.w.retry, st.s.resetReason, ch) {
      ResetRetries(c, st, ch);
    } else {
      ResetFails(c, st, ch);
    }
  }

  lemma CleanKeeps(c: Config, st: State, k: nat, toEnd: bool)
    requires Inv(c, st) && st.pc == Cleaning(k, toEnd)
    ensures Inv(c, CleanStep(c, st, k, toEnd))
  {
    hide Inv, CleanStep;
    if k == 0 { CleanCasKeeps(c, st); } else if k <= 2 { CleanLoadsKeep(c, st); } else { CleanGivesKeep(c, st); }
  }

  /** Every step of the worker and of the others keeps the invariant. */
  lemma StepKeepsInv(c: Config, st: State, a: Action)
    requires Inv(c, st) && Enabled(c, st, a)
    ensures Inv(c, Step(c, st, a))
  {
    hide Inv, EnterStep, FilterStep, ReadStep, GateStep, OpenStep, CheckStep, CleanStep, Rely;
    match a
    case Others(s') => OthersKeep(c, st, s');
    case Work(ch) =>
      match st.pc
      case Enter => EnterKeeps(c, st, ch);
      case Filtering => FilterKeeps(c, st, ch);
      case Reading | ReadingTrailers => ReadKeeps(c, st);
      case Gated(g, second) => GateKeeps(c, st, g, second, ch);
      case Opening => OpenKeeps(c, st, ch);
      case Checking(k, exit) => CheckKeeps(c, st, k, exit, ch);
      case Cleaning(k, toEnd) => CleanKeeps(c, st, k, toEnd);
  }

  lemma {:induction false} RunKeepsInv(c: Config, st: State, acts: seq<Action>, st': State)
    requires Inv(c, st) && Reaches(c, st, acts, st')
    ensures Inv(c, st')
    decreases |acts|
  {
    hide Inv, Step, Enabled;
    if acts != [] {
      StepKeepsInv(c, st, acts[0]);
      RunKeepsInv(c, Step(c, st, acts[0]), acts[1..], st');
    }
  }

  /** Every state that any run of any request reaches is safe. */
  lemma EveryRunIsSafe(c: Config, reqData: bool, reqTrailers: bool, acts: seq<Action>, st: State)
    requires Reaches(c, Initial(reqData, reqTrailers), acts, st)
    ensures Safe(c, st)
  {
    InitialInv(c, reqData, reqTrailers);
    RunKeepsInv(c, Initial(reqData, reqTrailers), acts, st);
    InvIsSafe(c, st);
  }
}
