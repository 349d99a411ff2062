/** A response that is left as it is reaches the client whole, down to the block with the end flag. */
module ProxyWholeReply {
  import opened ProxyRequest
  import opened ProxySafety
  import opened ProxyOrder
  import opened ProxyEnding
  import opened ProxyRuns

  /** The response is there, with or without data and trailers, and neither side has reset the stream. */
  predicate Steady(s: Shared, data: bool, trailers: bool) {
    && s.respHeaders && s.respData == data && s.respTrailers == trailers
    && !s.upstreamReset && !s.downstreamReset
  }

  /** Filters let the response pass. */
  predicate LetsPass(st: State, a: Action) { a.Work? && st.pc.Filtering? ==> a.choice == Proceed }

  /** A run in which the response stays as it is until the stream is counted out. */
  ghost predicate SteadyRun(c: Config, data: bool, trailers: bool, st: State, acts: seq<Action>, st': State)
    decreases |acts|
  {
    && (st.t.cleans == 0 ==> Steady(st.s, data, trailers))
    && (if acts == [] then st' == st
        else
          && Enabled(c, st, acts[0]) && LetsPass(st, acts[0])
          && SteadyRun(c, data, trailers, Step(c, st, acts[0]), acts[1..], st'))
  }

  lemma {:induction false} SteadyRunIsRun(
    c: Config, data: bool, trailers: bool, st: State, acts: seq<Action>, st': State)
    requires SteadyRun(c, data, trailers, st, acts, st')
    ensures Reaches(c, st, acts, st')
    decreases |acts|
  {
    if acts != [] {
      SteadyRunIsRun(c, data, trailers, Step(c, st, acts[0]), acts[1..], st');
    }
  }

  // ---- no request is marked as done before it is answered ----

  predicate DoneIsAnswered(c: Config, st: State) {
    Regular(c, st.t) && st.w.processDone ==> st.w.started || st.t.cleans > 0
  }

  /** What the safety of a run says about a worker that is about to send data or trailers. */
  lemma ReplyHasBegun(c: Config, st: State)
    requires Inv(c, st) && st.pc.Gated? && (st.pc.gate.ReplyData? || st.pc.gate.ReplyTrailers?)
    ensures Regular(c, st.t) ==> st.w.started
  {
    hide Core, InPhase;
  }

  /** Neither the mark nor what excuses it is touched. */
  predicate SameDone(st: State, st': State) {
    && st'.w.processDone == st.w.processDone && st'.w.started == st.w.started && st'.t.cleans == st.t.cleans
    && (st.t.skippedHeaders ==> st'.t.skippedHeaders) && (st.t.lateHijack ==> st'.t.lateHijack)
  }

  lemma ShutIsSame(st: State, g: Gate)
    ensures SameDone(st, GateShut(st, g)) && SameDone(st, RetryRest(st, g))
  {}

  lemma UpstreamIsSame(w: Worker, part: Part)
    ensures var w' := PushUpstream(w, part);
            w'.processDone == w.processDone && w'.started == w.started
  {}

  lemma BlockIsSame(c: Config, st: State, g: Gate, part: Part, ch: Choice)
    requires g.SendData? || g.SendTrailers? || g.RetryData? || g.RetryTrailers?
    requires part == if g.SendData? || g.RetryData? then Part(Data, !st.w.reqTrailers) else Part(Trailers, true)
    ensures SameDone(st, GatePassed(c, st, g, ch))
  {
    hide PushUpstream, RetryRest;
    UpstreamIsSame(st.w, part);
    ShutIsSame(st.(w := PushUpstream(st.w, part)), g);
  }

  lemma SendIsSame(c: Config, st: State, g: Gate, ch: Choice)
    requires !g.ReplyHeaders? && !g.ReplyData? && !g.ReplyTrailers?
    ensures SameDone(st, GatePassed(c, st, g, ch))
  {
    hide PushUpstream, RetryRest;
    match g
    case SendData | RetryData => BlockIsSame(c, st, g, Part(Data, !st.w.reqTrailers), ch);
    case SendTrailers | RetryTrailers => BlockIsSame(c, st, g, Part(Trailers, true), ch);
    case _ =>
  }

  lemma PushKeepsDone(c: Config, st: State, part: Part)
    requires Regular(c, st.t) ==> st.w.started
    ensures DoneIsAnswered(c, PushClient(c, st, part))
  {}

  lemma PassKeepsDone(c: Config, st: State, g: Gate, ch: Choice)
    requires DoneIsAnswered(c, st)
    requires g.ReplyData? || g.ReplyTrailers? ==> Regular(c, st.t) ==> st.w.started
    ensures DoneIsAnswered(c, GatePassed(c, st, g, ch))
  {
    hide MayRetry, UseRetry, CauseOf, PushClient;
    match g
    case ReplyHeaders(end) =>
      PushKeepsDone(c, Check(st.(w := st.w.(retry := UseRetry(st.w.retry), started := true))), Part(Headers, end));
    case ReplyData(end) => PushKeepsDone(c, Check(st), Part(Data, end));
    case ReplyTrailers => PushKeepsDone(c, Check(st), Part(Trailers, true));
    case _ => SendIsSame(c, st, g, ch);
  }

  lemma GateKeepsDone(c: Config, st: State, g: Gate, second: bool, ch: Choice)
    requires DoneIsAnswered(c, st)
    requires g.ReplyData? || g.ReplyTrailers? ==> Regular(c, st.t) ==> st.w.started
    ensures DoneIsAnswered(c, GateStep(c, st, g, second, ch))
  {
    hide GateShut, GatePassed;
    ShutIsSame(st, g);
    PassKeepsDone(c, st, g, ch);
  }

  lemma FailKeepsDone(c: Config, st: State)
    requires DoneIsAnswered(c, st)
    ensures DoneIsAnswered(c, FailReset(st))
  {}

  lemma ResetKeepsDone(c: Config, st: State, ch: Choice)
    requires DoneIsAnswered(c, st)
    ensures DoneIsAnswered(c, OnUpstreamReset(st, ch))
  {
    hide MayRetry, UseRetry, CauseOf, FailReset;
    FailKeepsDone(c, st);
    FailKeepsDone(c, st.(w := st.w.(retry := UseRetry(st.w.retry))));
  }

  lemma GotoIsSame(st: State, p: Phase)
    ensures SameDone(st, Goto(st, p))
  {}

  lemma MoveIsSame(st: State, p: Phase)
    ensures SameDone(st, Leave(st, p)) && SameDone(st, Advance(st))
  {
    hide Goto, Next;
    GotoIsSame(st.(t := st.t.(passes := st.t.passes + 1), s := st.s.(token := false)), p);
    GotoIsSame(st.(w := st.w.(upstream := UNSENT)), UpRecvHeader);
    GotoIsSame(st, Next(st.w.phase));
  }

  lemma DecideIsSame(c: Config, st: State, exit: bool)
    ensures SameDone(st, Decide(c, st, exit))
  {
    hide Goto, Leave, Advance;
    var w := st.w;
    var st' := st.(w := w.(retry := NoRetry), s := st.s.(direct := false));
    MoveIsSame(st', Oneway);
    MoveIsSame(st', UpFilter);
    MoveIsSame(st', End);
    MoveIsSame(st'.(t := st.t.(lateHijack := st.t.lateHijack || w.again != InitPhase)), End);
    MoveIsSame(st, Retry);
    MoveIsSame(st.(w := w.(again := InitPhase)), w.again);
    MoveIsSame(st, End);
  }

  lemma CheckKeepsDone(c: Config, st: State, k: nat, exit: bool, ch: Choice)
    requires DoneIsAnswered(c, st)
    ensures DoneIsAnswered(c, CheckStep(c, st, k, exit, ch))
  {
    hide OnUpstreamReset, Decide;
    ResetKeepsDone(c, st, ch);
    DecideIsSame(c, st, exit);
  }

  lemma EnterFrontIsSame(c: Config, st: State, ch: Choice)
    requires st.w.phase == MatchRoute || st.w.phase == ChooseHost || st.w.phase == Retry
    ensures SameDone(st, EnterStep(c, st, ch))
  {}

  lemma EnterSendIsSame(c: Config, st: State, ch: Choice)
    requires st.w.phase == DownRecvHeader || st.w.phase == DownRecvData || st.w.phase == DownRecvTrailer
             || st.w.phase == Oneway || st.w.phase == WaitNotify
    ensures SameDone(st, EnterStep(c, st, ch))
  {}

  lemma EnterReplyIsSame(c: Config, st: State, ch: Choice)
    requires st.w.phase == UpRecvHeader || st.w.phase == UpRecvData || st.w.phase == UpRecvTrailer
             || st.w.phase == End
    ensures SameDone(st, EnterStep(c, st, ch))
  {}

  lemma EnterIsSame(c: Config, st: State, ch: Choice)
    ensures SameDone(st, EnterStep(c, st, ch))
  {
    hide SameDone, EnterStep;
    if st.w.phase == MatchRoute || st.w.phase == ChooseHost || st.w.phase == Retry {
      EnterFrontIsSame(c, st, ch);
    } else if st.w.phase == UpRecvHeader || st.w.phase == UpRecvData || st.w.phase == UpRecvTrailer
              || st.w.phase == End {
      EnterReplyIsSame(c, st, ch);
    } else if st.w.phase == InitPhase || FilterPhase(st.w.phase) {
      EnterFilterIsSame(c, st, ch);
    } else {
      EnterSendIsSame(c, st, ch);
    }
  }

  lemma EnterFilterIsSame(c: Config, st: State, ch: Choice)
    requires st.w.phase == InitPhase || FilterPhase(st.w.phase)
    ensures SameDone(st, EnterStep(c, st, ch))
  {}

  lemma FilterKeepsDone(c: Config, st: State, ch: Choice)
    requires DoneIsAnswered(c, st)
    ensures DoneIsAnswered(c, FilterStep(c, st, ch))
  {}

  lemma OpenIsSame(st: State, ch: Choice)
    ensures SameDone(st, OpenStep(st, ch))
  {
    hide GateShut, RetryRest;
    ShutIsSame(PoolAnswer(st, ch), RetryHeaders);
    ShutIsSame(PoolAnswer(st, ch), SendHeaders);
  }

  lemma CleanKeepsDone(c: Config, st: State, k: nat, toEnd: bool)
    requires DoneIsAnswered(c, st)
    ensures DoneIsAnswered(c, CleanStep(c, st, k, toEnd))
  {}

  lemma StepKeepsDone(c: Config, st: State, a: Action)
    requires Inv(c, st) && DoneIsAnswered(c, st)
    ensures DoneIsAnswered(c, Step(c, st, a))
  {
    hide Inv, EnterStep, FilterStep, GateStep, OpenStep, CheckStep, CleanStep;
    match a
    case Others(_) =>
    case Work(ch) =>
      match st.pc
      case Enter => EnterIsSame(c, st, ch);
      case Filtering => FilterKeepsDone(c, st, ch);
      case Gated(g, second) =>
        if g.ReplyData? || g.ReplyTrailers? {
          ReplyHasBegun(c, st);
        }
        GateKeepsDone(c, st, g, second, ch);
      case Opening => OpenIsSame(st, ch);
      case Checking(k, exit) => CheckKeepsDone(c, st, k, exit, ch);
      case Cleaning(k, toEnd) => CleanKeepsDone(c, st, k, toEnd);
      case _ =>
  }

  lemma {:induction false} RunKeepsDone(c: Config, st: State, acts: seq<Action>, st': State)
    requires Inv(c, st) && DoneIsAnswered(c, st) && Reaches(c, st, acts, st')
    ensures Inv(c, st') && DoneIsAnswered(c, st')
    decreases |acts|
  {
    hide Inv, DoneIsAnswered, Enabled, Step;
    if acts != [] {
      StepKeepsInv(c, st, acts[0]);
      StepKeepsDone(c, st, acts[0]);
      RunKeepsDone(c, Step(c, st, acts[0]), acts[1..], st');
    }
  }

  // ---- how far the reply is ----

  /** The worker is bound to go on with the reply. */
  predicate GoesOn(st: State) {
    && !st.w.processDone && !Pending(st.w) && st.w.again == InitPhase && !st.w.given && st.s.mine && !st.s.cleaned
    && st.t.cleans == 0
  }

  /** A reply is queued that `processError` will take. */
  predicate Queued(st: State, exit: bool) {
    st.s.direct && if st.w.phase == UpFilter then !exit else st.t.passes < MAX_PASSES
  }

  /** The reply is due, and none of it has been sent. */
  predicate NotBegun(st: State) {
    && st.t.client == []
    && match st.pc
       case Enter => st.w.phase == UpFilter && !st.s.direct
       case Filtering => Queued(st, false) || (st.w.phase == UpFilter && !st.s.direct)
       case Checking(_, exit) => Queued(st, exit) || (st.w.phase == UpFilter && !st.s.direct && !exit)
       case _ => false
  }

  /** Every block but the trailers has been sent, and there are trailers. */
  predicate TrailersAreLeft(client: seq<Part>, data: bool, trailers: bool) {
    trailers && client + [Part(Trailers, true)] == Message(data, trailers)
  }

  /** The last block is out, and the stream is being, or has been, counted out. */
  predicate Complete(st: State, data: bool, trailers: bool) {
    st.t.client == Message(data, trailers) && Ending(st)
  }

  predicate Underway(st: State, data: bool, trailers: bool) {
    var client, phase := st.t.client, st.w.phase;
    match st.pc
    case Enter =>
      && (phase == UpRecvHeader ==> client == [])
      && (phase == UpRecvData ==> client == [Part(Headers, false)] && (data || trailers))
      && (phase == UpRecvTrailer ==> TrailersAreLeft(client, data, trailers))
      && (phase == UpRecvHeader || phase == UpRecvData || phase == UpRecvTrailer)
    case Reading =>
      || (phase == UpRecvHeader && client == [])
      || (phase == UpRecvData && client == [Part(Headers, false)] && data)
    case ReadingTrailers => phase == UpRecvHeader && client == [] && !data
    case Gated(ReplyHeaders(end), _) => phase == UpRecvHeader && client == [] && end == (!data && !trailers)
    case Gated(ReplyData(end), _) =>
      phase == UpRecvData && client == [Part(Headers, false)] && data && end == !trailers
    case Gated(ReplyTrailers, _) => phase == UpRecvTrailer && TrailersAreLeft(client, data, trailers)
    case Checking(k, exit) =>
      && !exit
      && ((phase == UpRecvHeader && client == [Part(Headers, false)] && (data || trailers))
          || (phase == UpRecvData && data && TrailersAreLeft(client, data, trailers)))
    case _ => false
  }

  /** The reply is being sent. */
  predicate Sends(st: State, data: bool, trailers: bool) {
    st.w.upstream.Upstream? && !st.s.direct && Underway(st, data, trailers)
  }

  /** The reply is due or being sent. */
  predicate Moving(st: State, data: bool, trailers: bool) {
    GoesOn(st) && (NotBegun(st) || Sends(st, data, trailers))
  }

  predicate OnItsWay(st: State, data: bool, trailers: bool) {
    Moving(st, data, trailers) || Complete(st, data, trailers)
  }

  lemma CompleteStays(c: Config, data: bool, trailers: bool, st: State, a: Action)
    requires Complete(st, data, trailers) && Enabled(c, st, a)
    ensures Complete(Step(c, st, a), data, trailers)
  {
    hide Ending, Message, Step, Enabled;
    StepStaysEnding(c, st, a);
  }

  lemma OnToHeaders(data: bool, trailers: bool, st: State)
    requires GoesOn(st) && st.t.client == [] && st.w.phase == UpFilter && !st.s.direct
    ensures Moving(Advance(st), data, trailers)
  {
    hide NotBegun, Message;
    if st.w.upstream.NoUpstream? {
      AtHeaders(data, trailers, st.(pc := Enter, w := st.w.(upstream := UNSENT, phase := UpRecvHeader)));
    } else {
      AtHeaders(data, trailers, st.(pc := Enter, w := st.w.(phase := UpRecvHeader)));
    }
  }

  lemma AtHeaders(data: bool, trailers: bool, st: State)
    requires GoesOn(st) && st.t.client == [] && st.pc.Enter? && st.w.phase == UpRecvHeader && !st.s.direct
    requires st.w.upstream.Upstream?
    ensures Moving(st, data, trailers)
  {}

  lemma OnToFilters(data: bool, trailers: bool, st: State)
    requires GoesOn(st) && st.t.client == [] && !st.s.direct && st.t.passes < MAX_PASSES
    ensures Moving(Leave(st, UpFilter), data, trailers)
  {}

  lemma TakenGoesOn(st: State)
    requires GoesOn(st)
    ensures GoesOn(st.(w := st.w.(retry := NoRetry), s := st.s.(direct := false)))
  {}

  lemma SameTrace(st: State)
    requires GoesOn(st)
    ensures st.t.(lateHijack := st.t.lateHijack || st.w.again != InitPhase) == st.t
  {}

  /** A queued reply is taken by the response filters, or by the headers after them. */
  lemma QueuedIsTaken(c: Config, data: bool, trailers: bool, st: State, exit: bool)
    requires !c.oneway && GoesOn(st) && st.t.client == [] && st.pc.Checking? && Queued(st, exit)
    ensures Moving(Decide(c, st, exit), data, trailers)
  {
    hide Leave, Advance, Moving, GoesOn;
    var st' := st.(w := st.w.(retry := NoRetry), s := st.s.(direct := false));
    TakenGoesOn(st);
    SameTrace(st);
    if st.w.phase == UpFilter {
      OnToHeaders(data, trailers, st');
      assert st'.(t := st.t) == st';
    } else {
      OnToFilters(data, trailers, st');
    }
  }

  lemma FiltersAreThrough(c: Config, data: bool, trailers: bool, st: State)
    requires GoesOn(st) && st.t.client == [] && st.pc.Checking? && st.w.phase == UpFilter && !st.s.direct
    ensures Moving(Decide(c, st, false), data, trailers)
  {
    hide Leave, Advance, Moving;
    OnToHeaders(data, trailers, st);
  }

  lemma NotBegunChecks(c: Config, data: bool, trailers: bool, st: State, k: nat, exit: bool, ch: Choice)
    requires !c.oneway && GoesOn(st) && NotBegun(st) && Steady(st.s, data, trailers) && st.pc == Checking(k, exit)
    ensures Moving(CheckStep(c, st, k, exit, ch), data, trailers)
  {
    hide OnUpstreamReset, Decide, Leave, Moving;
    if k >= 4 {
      if st.s.direct {
        QueuedIsTaken(c, data, trailers, st, exit);
      } else {
        FiltersAreThrough(c, data, trailers, st);
      }
    } else {
      NextCheck(data, trailers, st, k + 1);
    }
  }

  lemma NextCheck(data: bool, trailers: bool, st: State, k: nat)
    requires GoesOn(st) && NotBegun(st) && st.pc.Checking?
    ensures Moving(st.(pc := Checking(k, st.pc.exit)), data, trailers)
  {}

  lemma NotBegunStarts(c: Config, data: bool, trailers: bool, st: State)
    requires GoesOn(st) && NotBegun(st)
    ensures st.pc.Enter? ==> Moving(EnterStep(c, st, Proceed), data, trailers)
    ensures st.pc.Filtering? ==> Moving(FilterStep(c, st, Proceed), data, trailers)
  {}

  lemma EnterIgnores(c: Config, st: State, ch: Choice)
    requires st.w.phase == UpFilter
    ensures EnterStep(c, st, ch) == EnterStep(c, st, Proceed)
  {}

  lemma OthersKeepNotBegun(c: Config, data: bool, trailers: bool, st: State, s': Shared)
    requires !c.lateWrites && GoesOn(st) && NotBegun(st) && Rely(c, st, s')
    ensures Moving(st.(s := s'), data, trailers)
  {}

  lemma NotBegunGoesOn(c: Config, data: bool, trailers: bool, st: State, a: Action)
    requires !c.oneway && !c.lateWrites && GoesOn(st) && NotBegun(st) && Steady(st.s, data, trailers)
    requires Enabled(c, st, a) && LetsPass(st, a)
    ensures Moving(Step(c, st, a), data, trailers)
  {
    hide EnterStep, FilterStep, CheckStep, Moving, Rely, GoesOn;
    match a
    case Others(s') => OthersKeepNotBegun(c, data, trailers, st, s');
    case Work(ch) =>
      NotBegunStarts(c, data, trailers, st);
      match st.pc
      case Enter => EnterIgnores(c, st, ch);
      case Checking(k, exit) => NotBegunChecks(c, data, trailers, st, k, exit, ch);
      case _ =>
  }

  lemma EnterGoesOn(c: Config, data: bool, trailers: bool, st: State, ch: Choice)
    requires GoesOn(st) && Sends(st, data, trailers) && Steady(st.s, data, trailers) && st.pc.Enter?
    ensures var st' := EnterStep(c, st, ch);
            GoesOn(st') && Sends(st', data, trailers)
  {}

  lemma ReadGoesOn(data: bool, trailers: bool, st: State)
    requires GoesOn(st) && Sends(st, data, trailers) && Steady(st.s, data, trailers)
    requires st.pc.Reading? || st.pc.ReadingTrailers?
    ensures var st' := ReadStep(st);
            GoesOn(st') && Sends(st', data, trailers)
  {}

  /** A header block starts the reply, unless the response is given up. */
  lemma HeadersGoOn(c: Config, data: bool, trailers: bool, st: State, end: bool, ch: Choice)
    requires GoesOn(st) && Sends(st, data, trailers) && Steady(st.s, data, trailers)
    requires st.pc.Gated? && st.pc.gate == ReplyHeaders(end)
    ensures var st' := OnUpstreamHeaders(c, st, end, ch);
            OnItsWay(st', data, trailers) || |st'.t.causes| > |st.t.causes|
  {
    hide MayRetry, UseRetry, CauseOf;
  }

  lemma BlockGoesOn(c: Config, data: bool, trailers: bool, st: State, part: Part)
    requires GoesOn(st) && Sends(st, data, trailers) && Steady(st.s, data, trailers) && st.pc.Gated?
    requires (st.pc.gate == ReplyData(part.end) && part.kind == Data)
             || (st.pc.gate == ReplyTrailers && part == Part(Trailers, true))
    ensures OnItsWay(PushClient(c, Check(st), part), data, trailers)
  {}

  lemma GateGoesOn(c: Config, data: bool, trailers: bool, st: State, g: Gate, second: bool, ch: Choice)
    requires GoesOn(st) && Sends(st, data, trailers) && Steady(st.s, data, trailers) && st.pc == Gated(g, second)
    ensures var st' := GateStep(c, st, g, second, ch);
            OnItsWay(st', data, trailers) || |st'.t.causes| > |st.t.causes|
  {
    hide OnUpstreamHeaders, PushClient;
    if second {
      match g
      case ReplyHeaders(end) => HeadersGoOn(c, data, trailers, st, end, ch);
      case ReplyData(end) => BlockGoesOn(c, data, trailers, st, Part(Data, end));
      case ReplyTrailers => BlockGoesOn(c, data, trailers, st, Part(Trailers, true));
      case _ =>
    }
  }

  lemma DecideGoesOn(c: Config, data: bool, trailers: bool, st: State)
    requires GoesOn(st) && Sends(st, data, trailers) && Steady(st.s, data, trailers) && st.pc.Checking?
    ensures var st' := Decide(c, st, false);
            GoesOn(st') && Sends(st', data, trailers)
  {
    hide Leave;
  }

  lemma CheckGoesOn(c: Config, data: bool, trailers: bool, st: State, k: nat, exit: bool, ch: Choice)
    requires GoesOn(st) && Sends(st, data, trailers) && Steady(st.s, data, trailers) && st.pc == Checking(k, exit)
    ensures var st' := CheckStep(c, st, k, exit, ch);
            GoesOn(st') && Sends(st', data, trailers)
  {
    hide OnUpstreamReset, Leave, Decide;
    DecideGoesOn(c, data, trailers, st);
  }

  /** A step takes the reply further, unless it gives the response up for another try. */
  lemma StepKeepsOnItsWay(c: Config, data: bool, trailers: bool, st: State, a: Action)
    requires !c.oneway && !c.lateWrites && OnItsWay(st, data, trailers) && Enabled(c, st, a) && LetsPass(st, a)
    requires st.t.cleans == 0 ==> Steady(st.s, data, trailers)
    ensures var st' := Step(c, st, a);
            OnItsWay(st', data, trailers) || |st'.t.causes| > |st.t.causes|
  {
    hide EnterStep, ReadStep, GateStep, CheckStep, Complete, NotBegun, Message;
    if Complete(st, data, trailers) {
      CompleteStays(c, data, trailers, st, a);
    } else if NotBegun(st) {
      NotBegunGoesOn(c, data, trailers, st, a);
    } else if a.Work? {
      match st.pc
      case Enter => EnterGoesOn(c, data, trailers, st, a.choice);
      case Reading | ReadingTrailers => ReadGoesOn(data, trailers, st);
      case Gated(g, second) => GateGoesOn(c, data, trailers, st, g, second, a.choice);
      case Checking(k, exit) => CheckGoesOn(c, data, trailers, st, k, exit, a.choice);
      case _ =>
    }
  }

  lemma {:induction false} SteadyRunReplies(
    c: Config, data: bool, trailers: bool, st: State, acts: seq<Action>, st': State)
    requires !c.oneway && !c.lateWrites
    requires OnItsWay(st, data, trailers) && SteadyRun(c, data, trailers, st, acts, st')
    requires |st'.t.causes| == |st.t.causes|
    ensures OnItsWay(st', data, trailers)
    decreases |acts|
  {
    hide OnItsWay, Steady, Enabled, Step;
    if acts != [] {
      var next := Step(c, st, acts[0]);
      StepKeepsOnItsWay(c, data, trailers, st, acts[0]);
      StepIsLater(c, st, acts[0]);
      SteadyRunIsRun(c, data, trailers, next, acts[1..], st');
      RunIsLater(c, next, acts[1..], st');
      SteadyRunReplies(c, data, trailers, next, acts[1..], st');
    }
  }

  lemma InitialIsDone(c: Config, reqData: bool, reqTrailers: bool)
    ensures Inv(c, Initial(reqData, reqTrailers)) && DoneIsAnswered(c, Initial(reqData, reqTrailers))
  {}

  /** The worker is about to send a reply: a queued one, or the response it has. */
  predicate ReplyIsDue(c: Config, st: State) {
    && Regular(c, st.t) && !c.oneway && !Pending(st.w) && st.w.again == InitPhase
    && match st.pc
       case Enter => st.w.phase == UpRecvHeader
       case Filtering => Queued(st, false) || (st.w.phase == UpFilter && !st.s.direct)
       case Checking(k, exit) => k >= 2 && Queued(st, exit)
       case _ => false
  }

  lemma DueIsOnItsWay(c: Config, st: State, data: bool, trailers: bool)
    requires Inv(c, st) && DoneIsAnswered(c, st) && ReplyIsDue(c, st)
    ensures OnItsWay(st, data, trailers)
  {
    hide TriesOk, WellFormedReply, Used, Sending;
  }

  /** In every run, once a reply is due, the response is not changed any more, no side resets and the
      response is not given up: when the worker is through, the client has been sent the response, down
      to the block with the end flag, and the stream has been counted out. */
  lemma WholeReply(c: Config, reqData: bool, reqTrailers: bool, before: seq<Action>, st: State,
                   data: bool, trailers: bool, after: seq<Action>, st': State)
    requires Reaches(c, Initial(reqData, reqTrailers), before, st) && ReplyIsDue(c, st)
    requires SteadyRun(c, data, trailers, st, after, st')
    requires st'.t.causes == st.t.causes
    ensures st'.t.client <= Message(data, trailers)
    ensures st'.pc.Halted? ==> st'.t.client == Message(data, trailers) && st'.t.cleans == 1
    ensures st'.pc.Halted? ==> st'.t.client[|st'.t.client| - 1].end
  {
    hide Reaches, SteadyRun, Inv, DoneIsAnswered;
    InitialIsDone(c, reqData, reqTrailers);
    RunKeepsDone(c, Initial(reqData, reqTrailers), before, st);
    DueIsOnItsWay(c, st, data, trailers);
    SteadyRunReplies(c, data, trailers, st, after, st');
  }

  /** What a filter replies, or makes of the response. */
  predicate Replies(st: State, ch: Choice, data: bool, trailers: bool) {
    match ch
    case Direct(d, t) => d == data && t == trailers && (st.w.phase == UpFilter || st.t.passes < MAX_PASSES)
    case Hijack(b) => b == data && !trailers && (st.w.phase == UpFilter || st.t.passes < MAX_PASSES)
    case SetResponse(d, t) => d == data && t == trailers && st.w.phase == UpFilter && !st.s.direct
    case _ => false
  }

  lemma ReplyIsQueued(c: Config, st: State, ch: Choice, data: bool, trailers: bool)
    requires Regular(c, st.t) && !c.oneway && !Pending(st.w) && st.w.again == InitPhase
    requires st.pc.Filtering? && Replies(st, ch, data, trailers)
    ensures var st' := Step(c, st, Work(ch));
            ReplyIsDue(c, st') && st'.s.respData == data && st'.s.respTrailers == trailers && st'.t == st.t
  {}

  /** A reply that a filter queues, or what it makes of the response, is what the client gets, if it is
      not changed any more, no side resets and no other try is made. */
  lemma FilterReplyReachesClient(c: Config, reqData: bool, reqTrailers: bool, before: seq<Action>, st: State,
                                 ch: Choice, data: bool, trailers: bool, after: seq<Action>, st': State)
    requires Reaches(c, Initial(reqData, reqTrailers), before, st)
    requires Regular(c, st.t) && !c.oneway && !Pending(st.w) && st.w.again == InitPhase
    requires st.pc.Filtering? && Replies(st, ch, data, trailers)
    requires var next := Step(c, st, Work(ch)); SteadyRun(c, next.s.respData, next.s.respTrailers, next, after, st')
    requires st'.t.causes == st.t.causes
    ensures st'.pc.Halted? ==> st'.t.client == Message(data, trailers) && st'.t.cleans == 1
  {
    hide Reaches, SteadyRun, ReplyIsDue, Step;
    ReplyIsQueued(c, st, ch, data, trailers);
    ReachesOneMore(c, Initial(reqData, reqTrailers), before, st, Work(ch));
    WholeReply(c, reqData, reqTrailers, before + [Work(ch)], Step(c, st, Work(ch)), data, trailers, after, st');
  }
}
