/** What cannot come after what in a run of the request machine. */
module ProxyOrder {
  import opened ProxyRequest
  import opened ProxySafety
  import opened ProxyRuns

  /** The logs of a trace only grow, and its flags stay up. */
  predicate Later(t: Trace, t': Trace) {
    && t.client <= t'.client && t.pastTries <= t'.pastTries && t.causes <= t'.causes
    && t.opens <= t'.opens && t.cleans <= t'.cleans && t.firstSends <= t'.firstSends
    && (t.skippedHeaders ==> t'.skippedHeaders) && (t.lateHijack ==> t'.lateHijack)
  }

  lemma StepIsLater(c: Config, st: State, a: Action)
    ensures Later(st.t, Step(c, st, a).t)
  {
    hide Later, EnterStep, FilterStep, GateStep, OpenStep, CheckStep, CleanStep;
    SameIsLater(st.t);
    match a
    case Others(_) =>
    case Work(ch) =>
      match st.pc
      case Enter => EnterIsLater(c, st, ch);
      case Filtering => FilterIsLater(c, st, ch);
      case Gated(g, second) => GateIsLater(c, st, g, second, ch);
      case Opening => OpenIsLater(st, ch);
      case Checking(k, exit) => CheckIsLater(c, st, k, exit, ch);
      case Cleaning(k, toEnd) => CleanIsLater(c, st, k, toEnd);
      case _ =>
  }

  lemma SameIsLater(t: Trace)
    ensures Later(t, t)
  {}

  lemma LaterIsTransitive(t: Trace, u: Trace, v: Trace)
    requires Later(t, u) && Later(u, v)
    ensures Later(t, v)
  {}

  lemma EnterIsLater(c: Config, st: State, ch: Choice)
    ensures Later(st.t, EnterStep(c, st, ch).t)
    ensures EnterStep(c, st, ch).t.opens == st.t.opens
  {}

  lemma FilterIsLater(c: Config, st: State, ch: Choice)
    ensures Later(st.t, FilterStep(c, st, ch).t)
    ensures FilterStep(c, st, ch).t.opens == st.t.opens
  {}

  lemma PushIsLater(c: Config, st: State, part: Part)
    ensures Later(st.t, PushClient(c, st, part).t)
    ensures PushClient(c, st, part).t.opens == st.t.opens
  {}

  lemma ShutKeepsTrace(st: State, g: Gate)
    ensures GateShut(st, g).t == st.t && RetryRest(st, g).t == st.t
  {}

  lemma CausesAreLater(t: Trace, cause: Cause)
    ensures Later(t, t.(causes := t.causes + [cause]))
  {}

  lemma HeadersAreLater(c: Config, st: State, end: bool, ch: Choice)
    ensures Later(st.t, OnUpstreamHeaders(c, st, end, ch).t)
    ensures OnUpstreamHeaders(c, st, end, ch).t.opens == st.t.opens
  {
    hide MayRetry, UseRetry, PushClient, Later;
    CausesAreLater(st.t, CauseOf(st.w.retry, NoReason, ch));
    SameIsLater(st.t);
    PushIsLater(c, Check(st.(w := st.w.(retry := UseRetry(st.w.retry), started := true))), Part(Headers, end));
  }

  lemma PassIsLater(c: Config, st: State, g: Gate, ch: Choice)
    ensures Later(st.t, GatePassed(c, st, g, ch).t)
    ensures g != SendHeaders && g != RetryHeaders ==> GatePassed(c, st, g, ch).t.opens == st.t.opens
  {
    hide PushClient, OnUpstreamHeaders, RetryRest, PushUpstream, Later;
    SameIsLater(st.t);
    match g
    case SendHeaders | RetryHeaders => CallIsLater(st);
    case RetryData => ShutKeepsTrace(st.(w := PushUpstream(st.w, Part(Data, !st.w.reqTrailers))), g);
    case RetryTrailers => ShutKeepsTrace(st.(w := PushUpstream(st.w, Part(Trailers, true))), g);
    case ReplyHeaders(end) => HeadersAreLater(c, st, end, ch);
    case ReplyData(end) => PushIsLater(c, Check(st), Part(Data, end));
    case ReplyTrailers => PushIsLater(c, Check(st), Part(Trailers, true));
    case _ =>
  }

  lemma CallIsLater(st: State)
    ensures Later(st.t, CallNewStream(st).t)
  {}

  lemma GateIsLater(c: Config, st: State, g: Gate, second: bool, ch: Choice)
    ensures Later(st.t, GateStep(c, st, g, second, ch).t)
  {
    hide GateShut, GatePassed, Later;
    SameIsLater(st.t);
    ShutKeepsTrace(st, g);
    PassIsLater(c, st, g, ch);
  }

  lemma OpenIsLater(st: State, ch: Choice)
    ensures Later(st.t, OpenStep(st, ch).t)
    ensures OpenStep(st, ch).t.opens == st.t.opens
  {}

  lemma LeaveIsLater(st: State, p: Phase)
    ensures Later(st.t, Leave(st, p).t) && Later(st.t, Advance(st).t)
    ensures Leave(st, p).t.opens == st.t.opens
    ensures Advance(st).t.opens == st.t.opens
  {}

  lemma ResetIsLater(st: State, ch: Choice)
    ensures Later(st.t, OnUpstreamReset(st, ch).t) && OnUpstreamReset(st, ch).t.opens == st.t.opens
  {
    hide MayRetry, UseRetry;
  }

  lemma DecideIsLater(c: Config, st: State, exit: bool)
    ensures Later(st.t, Decide(c, st, exit).t)
    ensures Decide(c, st, exit).t.opens == st.t.opens
  {
    hide Leave, Advance, Later;
    var st' := st.(w := st.w.(retry := NoRetry), s := st.s.(direct := false));
    LeaveIsLater(st', Oneway);
    LeaveIsLater(st', UpFilter);
    LeaveIsLater(st', End);
    LeaveIsLater(st, Retry);
    LeaveIsLater(st, End);
    LeaveIsLater(st.(w := st.w.(again := InitPhase)), st.w.again);
    var t' := st.t.(lateHijack := st.t.lateHijack || st.w.again != InitPhase);
    LeaveIsLater(st'.(t := t'), End);
    FlagIsLater(st.t, t'.lateHijack);
    LaterIsTransitive(st.t, t', Advance(st'.(t := t')).t);
  }

  lemma FlagIsLater(t: Trace, flag: bool)
    requires t.lateHijack ==> flag
    ensures Later(t, t.(lateHijack := flag))
  {}

  lemma CheckIsLater(c: Config, st: State, k: nat, exit: bool, ch: Choice)
    ensures Later(st.t, CheckStep(c, st, k, exit, ch).t)
    ensures CheckStep(c, st, k, exit, ch).t.opens == st.t.opens
  {
    hide Leave, OnUpstreamReset, Decide, Later;
    SameIsLater(st.t);
    LeaveIsLater(st, End);
    LeaveIsLater(st, Oneway);
    ResetIsLater(st, ch);
    DecideIsLater(c, st, exit);
  }

  lemma CleanIsLater(c: Config, st: State, k: nat, toEnd: bool)
    ensures Later(st.t, CleanStep(c, st, k, toEnd).t)
    ensures CleanStep(c, st, k, toEnd).t.opens == st.t.opens
  {}

  /** Streams are opened in one place. */
  lemma OnlyGatesOpen(c: Config, st: State, a: Action)
    requires Step(c, st, a).t.opens != st.t.opens
    ensures st.pc == Gated(SendHeaders, true) || st.pc == Gated(RetryHeaders, true)
  {
    hide Later, EnterStep, FilterStep, GateShut, GatePassed, OpenStep, CheckStep, CleanStep;
    match st.pc
    case Enter => EnterIsLater(c, st, a.choice);
    case Filtering => FilterIsLater(c, st, a.choice);
    case Gated(g, _) =>
      ShutKeepsTrace(st, g);
      PassIsLater(c, st, g, a.choice);
    case Opening => OpenIsLater(st, a.choice);
    case Checking(k, exit) => CheckIsLater(c, st, k, exit, a.choice);
    case Cleaning(k, toEnd) => CleanIsLater(c, st, k, toEnd);
    case _ =>
  }

  /** A stream is opened only as long as the client has been sent nothing. */
  lemma OpensBeforeReply(c: Config, st: State, a: Action)
    requires Inv(c, st) && Regular(c, st.t) && Step(c, st, a).t.opens != st.t.opens
    ensures st.t.client == []
  {
    hide TriesOk, WellFormedReply, Used, Step;
    OnlyGatesOpen(c, st, a);
  }

  /** A step after the stream has been counted out sends nothing, opens nothing and counts nothing. */
  lemma SilentStep(c: Config, st: State, a: Action)
    requires Inv(c, st) && Enabled(c, st, a) && st.t.cleans == 1
    ensures var st' := Step(c, st, a);
            && st'.t.client == st.t.client && st'.t.opens == st.t.opens && st'.t.cleans == 1
            && TryOf(st'.w) == TryOf(st.w) && st'.t.pastTries == st.t.pastTries
  {
    hide TriesOk, WellFormedReply, Used;
  }

  lemma {:induction false} RunIsLater(c: Config, st: State, acts: seq<Action>, st': State)
    requires Reaches(c, st, acts, st')
    ensures Later(st.t, st'.t)
    decreases |acts|
  {
    hide Later, Step, Enabled;
    if acts == [] {
      SameIsLater(st.t);
    } else {
      StepIsLater(c, st, acts[0]);
      RunIsLater(c, Step(c, st, acts[0]), acts[1..], st');
      LaterIsTransitive(st.t, Step(c, st, acts[0]).t, st'.t);
    }
  }

  /** A request whose reply has begun is never tried again, in the runs the claim about the client is for. */
  lemma AnsweredIsNeverRetried(c: Config, reqData: bool, reqTrailers: bool, before: seq<Action>, st: State,
                               after: seq<Action>, st': State)
    requires Reaches(c, Initial(reqData, reqTrailers), before, st) && Reaches(c, st, after, st')
    requires st.t.client != [] && Regular(c, st'.t)
    ensures st'.t.opens == st.t.opens
  {
    hide Inv, Reaches;
    InitialInv(c, reqData, reqTrailers);
    RunKeepsInv(c, Initial(reqData, reqTrailers), before, st);
    NoMoreOpens(c, st, after, st');
  }

  lemma {:induction false} NoMoreOpens(c: Config, st: State, acts: seq<Action>, st': State)
    requires Inv(c, st) && Reaches(c, st, acts, st') && st.t.client != [] && Regular(c, st'.t)
    ensures st'.t.opens == st.t.opens
    decreases |acts|
  {
    hide Inv, Step, Enabled;
    if acts != [] {
      var next := Step(c, st, acts[0]);
      StepIsLater(c, st, acts[0]);
      RunIsLater(c, next, acts[1..], st');
      if next.t.opens != st.t.opens {
        OpensBeforeReply(c, st, acts[0]);
      }
      StepKeepsInv(c, st, acts[0]);
      NoMoreOpens(c, next, acts[1..], st');
    }
  }

  /** Once a stream has been counted out, nothing more is sent to the client or upstream, no stream is
      opened, and it is not counted out again, whatever happens. */
  lemma SilentOnceCleaned(c: Config, reqData: bool, reqTrailers: bool, before: seq<Action>, st: State,
                          after: seq<Action>, st': State)
    requires Reaches(c, Initial(reqData, reqTrailers), before, st) && Reaches(c, st, after, st') && st.t.cleans == 1
    ensures st'.t.client == st.t.client && st'.t.opens == st.t.opens && st'.t.cleans == 1
    ensures TryOf(st'.w) == TryOf(st.w) && st'.t.pastTries == st.t.pastTries
  {
    hide Inv, Reaches;
    InitialInv(c, reqData, reqTrailers);
    RunKeepsInv(c, Initial(reqData, reqTrailers), before, st);
    StaysSilent(c, st, after, st');
  }

  lemma {:induction false} StaysSilent(c: Config, st: State, acts: seq<Action>, st': State)
    requires Inv(c, st) && Reaches(c, st, acts, st') && st.t.cleans == 1
    ensures st'.t.client == st.t.client && st'.t.opens == st.t.opens && st'.t.cleans == 1
    ensures TryOf(st'.w) == TryOf(st.w) && st'.t.pastTries == st.t.pastTries
    decreases |acts|
  {
    hide Inv, Step, Enabled;
    if acts != [] {
      SilentStep(c, st, acts[0]);
      StepKeepsInv(c, st, acts[0]);
      StaysSilent(c, Step(c, st, acts[0]), acts[1..], st');
    }
  }

  // ---- a filter asks for another route or host ----

  /** The worker takes `n` steps and nobody else does anything. */
  function Alone(c: Config, st: State, n: nat): State
    decreases n
  {
    if n == 0 then st else Alone(c, WorkStep(c, st, Proceed), n - 1)
  }

  lemma NextCheck(c: Config, st: State, k: nat, n: nat)
    requires Undisturbed(st.s) && st.pc == Checking(k, false) && k < 4 && n > 0
    ensures Alone(c, st, n) == Alone(c, st.(pc := Checking(k + 1, false)), n - 1)
  {
    hide OnUpstreamReset, Leave, Decide;
  }

  lemma ChecksAlone(c: Config, st: State)
    requires Undisturbed(st.s) && st.pc == Checking(0, false)
    ensures Alone(c, st, 5) == Decide(c, st.(pc := Checking(4, false)), false)
  {
    hide Decide, WorkStep, Alone;
    NextCheck(c, st, 0, 5);
    NextCheck(c, st.(pc := Checking(1, false)), 1, 4);
    NextCheck(c, st.(pc := Checking(2, false)), 2, 3);
    NextCheck(c, st.(pc := Checking(3, false)), 3, 2);
    LastCheck(c, st.(pc := Checking(4, false)));
  }

  lemma LastCheck(c: Config, st: State)
    requires st.pc == Checking(4, false)
    ensures Alone(c, st, 1) == Decide(c, st, false)
  {
    hide Decide, OnUpstreamReset, Leave;
    assert Alone(c, WorkStep(c, st, Proceed), 0) == WorkStep(c, st, Proceed);
  }

  lemma FilterAsks(c: Config, st: State, ch: Choice)
    requires st.pc.Filtering?
    requires (ch.ReMatch? && st.w.phase == DownFilterAfterRoute)
             || (ch.ReChoose? && st.w.phase == DownFilterAfterChooseHost)
    ensures WorkStep(c, st, ch) == Check(st.(w := st.w.(again := if ch.ReMatch? then MatchRoute else ChooseHost)))
  {}

  lemma AskedIsDone(c: Config, st: State)
    requires !st.s.direct && !Pending(st.w) && (st.w.again == MatchRoute || st.w.again == ChooseHost)
    requires st.t.passes < MAX_PASSES
    ensures var st' := Decide(c, st, false);
            st'.pc == Enter && st'.w.phase == st.w.again && st'.w.again == InitPhase
  {}

  /** A filter behind the route match that asks for another match gets one, and a filter behind the
      choice of a host that asks for another host gets one, if nothing disturbs the worker and it has a
      pass left. */
  lemma AskedAgain(c: Config, st: State, ch: Choice)
    requires st.pc.Filtering? && Undisturbed(st.s) && !Pending(st.w) && st.t.passes < MAX_PASSES
    requires (ch.ReMatch? && st.w.phase == DownFilterAfterRoute)
             || (ch.ReChoose? && st.w.phase == DownFilterAfterChooseHost)
    ensures var st' := Alone(c, WorkStep(c, st, ch), 5);
            && st'.pc == Enter && st'.w.again == InitPhase
            && st'.w.phase == if ch.ReMatch? then MatchRoute else ChooseHost
  {
    hide WorkStep, Decide, Alone;
    FilterAsks(c, st, ch);
    var st' := Check(st.(w := st.w.(again := if ch.ReMatch? then MatchRoute else ChooseHost)));
    ChecksAlone(c, st');
    AskedIsDone(c, st'.(pc := Checking(4, false)));
  }
}
