/**
 Why a waiting worker finds response headers: unless a goroutine is held up between raising the
 upstream reset and sending the wake-up that goes with it, no wake-up comes for something that the
 worker has dealt with already.
 */
module ProxyWakeUp {
  import opened ProxyRequest
  import opened ProxySafety

  /** A reply is queued, or what the worker was woken up for is there, or processError has seen it. */
  predicate Woken(s: Shared, k: nat, exit: bool) {
    exit || s.respHeaders || (k <= 2 && s.upstreamReset) || (k <= 3 && s.downstreamReset)
  }

  /** What holds at a place of the worker. */
  predicate AwakeAt(pc: Pc, phase: Phase, s: Shared) {
    && (!pc.Halted? && (phase == UpFilter || (phase == UpRecvHeader && (pc == Enter || pc == Reading))) ==>
       s.respHeaders)
    && match pc
       case Checking(k, exit) => (phase == WaitNotify ==> Woken(s, k, exit)) && (s.token ==> exit || Standing(s))
       case Cleaning(_, toEnd) => (phase == WaitNotify ==> toEnd) && (s.token ==> toEnd || Standing(s))
       case Enter => s.token ==> Standing(s)
       case Halted => true
       case _ => phase != WaitNotify && (s.token ==> Standing(s))
  }

  /** Holds in every run without gaps and late writes. */
  predicate Awake(st: State) {
    && !st.t.skippedHeaders
    && if st.w.given then !st.s.mine && (st.pc.Halted? || (st.pc.Checking? && st.pc.k == 0))
       else st.s.owed == 0 && (st.s.direct ==> st.s.respHeaders) && AwakeAt(st.pc, st.w.phase, st.s)
  }

  lemma OthersKeepAwake(c: Config, st: State, s': Shared)
    requires !c.gaps && !c.lateWrites && Awake(st) && Rely(c, st, s')
    ensures Awake(st.(s := s'))
  {}

  // ---- the worker, away from the places where it waits ----

  /** Awake wherever the worker checks, cleans, sends or replies next. */
  predicate Calm(st: State) {
    && !st.w.given && !st.t.skippedHeaders && st.s.owed == 0
    && (st.s.direct ==> st.s.respHeaders) && (st.s.token ==> Standing(st.s))
    && st.w.phase != WaitNotify && (st.w.phase == UpFilter ==> st.s.respHeaders)
  }

  predicate Settled(pc: Pc) {
    pc == Checking(0, false) || pc == Cleaning(0, false) || pc.Gated? || pc.Opening?
  }

  lemma CalmIsAwake(st: State)
    requires Calm(st) && Settled(st.pc)
    ensures Awake(st)
  {}

  lemma AwakeIsCalm(st: State)
    requires Awake(st) && (st.pc.Gated? || st.pc.Opening? || st.pc.Filtering? || st.pc.Reading?
             || st.pc.ReadingTrailers?)
    ensures Calm(st)
  {}

  lemma PushStaysCalm(c: Config, st: State, part: Part)
    requires Calm(st) && Settled(st.pc)
    ensures Calm(PushClient(c, st, part)) && Settled(PushClient(c, st, part).pc)
  {}

  lemma RestStaysCalm(st: State, g: Gate)
    requires Calm(st)
    ensures Calm(RetryRest(st, g)) && Settled(RetryRest(st, g).pc)
  {}

  lemma ShutStaysCalm(st: State, g: Gate)
    requires Calm(st)
    ensures Calm(GateShut(st, g)) && Settled(GateShut(st, g).pc)
  {
    hide RetryRest, Calm;
    RestStaysCalm(st, g);
    CheckStaysCalm(st, st.w.(requestSent := st.w.requestSent || (!st.w.reqData && !st.w.reqTrailers)));
    CheckStaysCalm(st, st.w);
  }

  /** The worker's own fields, but for the phase, do not matter. */
  lemma CheckStaysCalm(st: State, w: Worker)
    requires Calm(st) && w.phase == st.w.phase && w.given == st.w.given
    ensures Calm(Check(st.(w := w))) && Calm(st.(w := w))
    ensures forall pc :: Calm(st.(w := w, pc := pc))
  {}

  lemma HeadersStayCalm(c: Config, st: State, end: bool, ch: Choice)
    requires Calm(st)
    ensures Calm(OnUpstreamHeaders(c, st, end, ch)) && Settled(OnUpstreamHeaders(c, st, end, ch).pc)
  {
    hide UseRetry, MayRetry, PushClient, Calm;
    var w := st.w.(retry := UseRetry(st.w.retry));
    CheckStaysCalm(st, w);
    CheckStaysCalm(st, w.(started := true));
    PushStaysCalm(c, Check(st.(w := w.(started := true))), Part(Headers, end));
    SetupStaysCalm(st.(w := w), CauseOf(st.w.retry, NoReason, ch));
  }

  lemma SetupStaysCalm(st: State, cause: Cause)
    requires Calm(st)
    ensures Calm(Check(SetupRetry(st, cause)))
  {}

  lemma PassStaysCalm(c: Config, st: State, g: Gate, ch: Choice)
    requires Calm(st) && Settled(st.pc)
    ensures Calm(GatePassed(c, st, g, ch)) && Settled(GatePassed(c, st, g, ch).pc)
  {
    hide Calm, PushClient, OnUpstreamHeaders, RetryRest, CallNewStream, PushUpstream;
    var w := st.w;
    PushedPhase(w, Part(Data, !w.reqTrailers));
    PushedPhase(w, Part(Trailers, true));
    CheckStaysCalm(st, w);
    match g
    case SendHeaders | RetryHeaders => CallStaysCalm(st);
    case CheckData => CheckStaysCalm(st,
        w.(recvDone := !w.reqTrailers, requestSent := w.requestSent || !w.reqTrailers));
    case SendData => CheckStaysCalm(st, PushUpstream(w, Part(Data, !w.reqTrailers)));
    case CheckTrailers => CheckStaysCalm(st, w.(recvDone := true, requestSent := true));
    case SendTrailers => CheckStaysCalm(st, PushUpstream(w, Part(Trailers, true)));
    case RetryData =>
      CheckStaysCalm(st, PushUpstream(w, Part(Data, !w.reqTrailers)));
      RestStaysCalm(st.(w := PushUpstream(w, Part(Data, !w.reqTrailers))), g);
    case RetryTrailers =>
      CheckStaysCalm(st, PushUpstream(w, Part(Trailers, true)));
      RestStaysCalm(st.(w := PushUpstream(w, Part(Trailers, true))), g);
    case ReplyHeaders(end) => HeadersStayCalm(c, st, end, ch);
    case ReplyData(end) => PushStaysCalm(c, Check(st), Part(Data, end));
    case ReplyTrailers => PushStaysCalm(c, Check(st), Part(Trailers, true));
  }

  lemma PushedPhase(w: Worker, part: Part)
    ensures PushUpstream(w, part).phase == w.phase && PushUpstream(w, part).given == w.given
  {}

  lemma CallStaysCalm(st: State)
    requires Calm(st) && Settled(st.pc)
    ensures Calm(CallNewStream(st)) && Settled(CallNewStream(st).pc)
  {}

  lemma GateKeepsAwake(c: Config, st: State, g: Gate, second: bool, ch: Choice)
    requires Awake(st) && st.pc == Gated(g, second)
    ensures Awake(GateStep(c, st, g, second, ch))
  {
    hide Awake, Calm, GateShut, GatePassed;
    AwakeIsCalm(st);
    ShutStaysCalm(st, g);
    PassStaysCalm(c, st, g, ch);
    CheckStaysCalm(st, st.w);
    var st' := GateStep(c, st, g, second, ch);
    assert Calm(st.(w := st.w, pc := Gated(g, true)));
    CalmIsAwake(st');
  }

  lemma AnswerStaysCalm(st: State, ch: Choice)
    requires Calm(st)
    ensures Calm(PoolAnswer(st, ch))
  {}

  lemma OpenKeepsAwake(st: State, ch: Choice)
    requires Awake(st) && st.pc.Opening?
    ensures Awake(OpenStep(st, ch))
  {
    hide Awake, Calm, GateShut, RetryRest, PoolAnswer;
    AwakeIsCalm(st);
    AnswerStaysCalm(st, ch);
    RestStaysCalm(PoolAnswer(st, ch), RetryHeaders);
    ShutStaysCalm(PoolAnswer(st, ch), SendHeaders);
    CalmIsAwake(OpenStep(st, ch));
  }

  lemma FilterKeepsAwake(c: Config, st: State, ch: Choice)
    requires Awake(st) && st.pc.Filtering? && !c.lateWrites
    ensures Awake(FilterStep(c, st, ch))
  {}

  lemma ReadKeepsAwake(st: State)
    requires Awake(st) && (st.pc.Reading? || st.pc.ReadingTrailers?)
    ensures Awake(ReadStep(st))
  {}

  // ---- entering a phase ----

  lemma EnterFrontKeepsAwake(c: Config, st: State, ch: Choice)
    requires Awake(st) && st.pc.Enter?
    requires st.w.phase in {InitPhase, DownFilter, MatchRoute, DownFilterAfterRoute, DownFilterAfterChooseHost,
             UpFilter}
    ensures Awake(EnterStep(c, st, ch))
  {}

  lemma EnterChooseHostKeepsAwake(c: Config, st: State, ch: Choice)
    requires Awake(st) && st.pc.Enter? && st.w.phase == ChooseHost
    ensures Awake(EnterStep(c, st, ch))
  {}

  lemma EnterSendKeepsAwake(c: Config, st: State, ch: Choice)
    requires Awake(st) && st.pc.Enter?
    requires st.w.phase in {DownRecvHeader, DownRecvData, DownRecvTrailer, Oneway}
    ensures Awake(EnterStep(c, st, ch))
  {}

  lemma EnterRetryKeepsAwake(c: Config, st: State, ch: Choice)
    requires Awake(st) && st.pc.Enter? && st.w.phase == Retry
    ensures Awake(EnterStep(c, st, ch))
  {}

  /** The worker wakes up only for something that is there. */
  lemma WaitKeepsAwake(c: Config, st: State, ch: Choice)
    requires Awake(st) && st.pc.Enter? && st.w.phase == WaitNotify && (st.s.mine ==> st.s.token)
    ensures Awake(EnterStep(c, st, ch))
  {}

  lemma EnterReplyKeepsAwake(c: Config, st: State, ch: Choice)
    requires Awake(st) && st.pc.Enter?
    requires st.w.phase in {UpRecvHeader, UpRecvData, UpRecvTrailer, End}
    ensures Awake(EnterStep(c, st, ch))
  {}

  lemma CleanDoneKeepsAwake(st: State, toEnd: bool)
    requires Awake(st) && st.pc.Cleaning? && st.pc.toEnd == toEnd
    ensures Awake(CleanDone(st, toEnd))
  {}

  lemma GivingKeepsAwake(st: State, toEnd: bool)
    requires Awake(st) && st.pc.Cleaning?
    ensures Awake(CleanDone(st.(w := st.w.(given := true), s := st.s.(mine := false)), toEnd))
  {}

  lemma CleanMovesAwake(st: State, k: nat, w: Worker, cleaned: bool, t: Trace)
    requires Awake(st) && st.pc.Cleaning? && w.phase == st.w.phase && w.given == st.w.given
    requires t.skippedHeaders == st.t.skippedHeaders
    ensures Awake(st.(pc := Cleaning(k, st.pc.toEnd), w := w, s := st.s.(cleaned := cleaned), t := t))
    ensures Awake(st.(pc := Cleaning(k, st.pc.toEnd)))
  {}

  lemma CleanKeepsAwake(c: Config, st: State, k: nat, toEnd: bool)
    requires Awake(st) && st.pc == Cleaning(k, toEnd)
    ensures Awake(CleanStep(c, st, k, toEnd))
  {
    hide Awake, CleanDone;
    CleanDoneKeepsAwake(st, toEnd);
    GivingKeepsAwake(st, toEnd);
    var w := if st.w.upstream.Upstream? && !c.oneway then st.w.(processDone := true) else st.w;
    CleanMovesAwake(st, k + 1, w, true, st.t.(cleans := st.t.cleans + 1));
  }

  // ---- processError ----

  /** What has to hold for another pass to begin, with an empty wake-up channel, or for the end. */
  predicate MayLeave(st: State, p: Phase) {
    && !st.t.skippedHeaders && p != UpRecvHeader && (st.w.given ==> p == End && !st.s.mine)
    && (!st.w.given ==> st.s.owed == 0 && (st.s.direct ==> st.s.respHeaders) && (p == UpFilter ==> st.s.respHeaders))
  }

  lemma LeaveKeepsAwake(st: State, p: Phase)
    requires MayLeave(st, p)
    ensures Awake(Leave(st, p))
  {}

  lemma AwakeMayLeave(st: State, p: Phase)
    requires Awake(st) && st.pc.Checking? && p != UpFilter && p != UpRecvHeader && (st.w.given ==> p == End)
    ensures MayLeave(st, p)
  {}

  lemma FirstLoadKeepsAwake(c: Config, st: State, exit: bool, ch: Choice)
    requires Awake(st) && st.pc == Checking(0, exit)
    ensures Awake(CheckStep(c, st, 0, exit, ch))
  {
    hide Leave, MayLeave;
    AwakeMayLeave(st, End);
    LeaveKeepsAwake(st, End);
  }

  lemma SecondLoadKeepsAwake(c: Config, st: State, exit: bool, ch: Choice)
    requires Awake(st) && st.pc == Checking(1, exit)
    ensures Awake(CheckStep(c, st, 1, exit, ch))
  {
    hide Leave, MayLeave;
    AwakeMayLeave(st, End);
    LeaveKeepsAwake(st, End);
  }

  lemma FourthLoadKeepsAwake(c: Config, st: State, exit: bool, ch: Choice)
    requires Awake(st) && st.pc == Checking(3, exit)
    ensures Awake(CheckStep(c, st, 3, exit, ch))
  {}

  /** What dealing with a reset leaves as it was, or better. */
  predicate DealtWith(st: State, st': State) {
    && st'.w.given == st.w.given && st'.w.phase == st.w.phase && st'.t.skippedHeaders == st.t.skippedHeaders
    && st'.s.owed == st.s.owed && (st.s.respHeaders ==> st'.s.respHeaders)
    && (st'.s.direct ==> st.s.direct || st'.s.respHeaders)
  }

  lemma FailEffect(st: State, left: RetryState)
    ensures DealtWith(st, FailReset(st.(w := st.w.(retry := left))))
  {}

  lemma SetupEffect(st: State, left: RetryState, y: Cause)
    ensures var st' := SetupRetry(st.(w := st.w.(retry := left)), y);
            DealtWith(st, st'.(s := st'.s.(upstreamReset := false)))
  {}

  lemma ResetEffect(st: State, ch: Choice)
    ensures DealtWith(st, OnUpstreamReset(st, ch))
  {
    hide DealtWith, FailReset, SetupRetry, UseRetry, MayRetry;
    FailEffect(st, st.w.retry);
    FailEffect(st, UseRetry(st.w.retry));
    SetupEffect(st, UseRetry(st.w.retry), CauseOf(st.w.retry, st.s.resetReason, ch));
    assert st.(w := st.w.(retry := st.w.retry)) == st;
  }

  /** The reset has been dealt with, and processError will leave. */
  lemma ResetKeepsAwake(c: Config, st: State, exit: bool, ch: Choice)
    requires Awake(st) && st.pc == Checking(2, exit)
    ensures Awake(CheckStep(c, st, 2, exit, ch))
  {
    hide Leave, MayLeave, OnUpstreamReset;
    ResetEffect(st, ch);
    if c.oneway {
      AwakeMayLeave(st, Oneway);
      LeaveKeepsAwake(st, Oneway);
    }
  }

  lemma AdvanceKeepsAwake(st: State)
    requires Calm(st) || (st.w.phase == WaitNotify && Calm(st.(w := st.w.(phase := UpFilter))))
    ensures Awake(Advance(st))
  {
    var p := Next(st.w.phase);
    assert p == UpFilter || p == UpRecvHeader ==> st.s.respHeaders;
    assert !st.w.given && st.s.owed == 0 && (st.s.token ==> Standing(st.s));
  }

  lemma DirectKeepsAwake(c: Config, st: State, exit: bool)
    requires Awake(st) && st.pc.Checking? && st.pc.k >= 4 && st.pc.exit == exit && st.s.direct
    ensures Awake(Decide(c, st, exit))
  {
    hide Leave, Advance;
    var st' := st.(w := st.w.(retry := NoRetry), s := st.s.(direct := false));
    if c.oneway {
      LeaveKeepsAwake(st', Oneway);
    } else if st.w.phase != UpFilter {
      LeaveKeepsAwake(st', UpFilter);
    } else if exit {
      LeaveKeepsAwake(st', End);
    } else {
      AdvanceKeepsAwake(st'.(t := st.t.(lateHijack := st.t.lateHijack || st.w.again != InitPhase)));
    }
  }

  lemma DecideKeepsAwake(c: Config, st: State, exit: bool)
    requires Awake(st) && st.pc.Checking? && st.pc.k >= 4 && st.pc.exit == exit
    requires st.w.again != UpFilter && st.w.again != UpRecvHeader
    ensures Awake(Decide(c, st, exit))
  {
    hide Leave, Advance;
    if st.s.direct {
      DirectKeepsAwake(c, st, exit);
    } else if Pending(st.w) {
      LeaveKeepsAwake(st, Retry);
    } else if st.w.again != InitPhase {
      LeaveKeepsAwake(st.(w := st.w.(again := InitPhase)), st.w.again);
    } else if exit || st.w.processDone {
      LeaveKeepsAwake(st, End);
    } else {
      AdvanceKeepsAwake(st);
    }
  }

  lemma CheckKeepsAwake(c: Config, st: State, k: nat, exit: bool, ch: Choice)
    requires Awake(st) && st.pc == Checking(k, exit) && st.w.again != UpFilter && st.w.again != UpRecvHeader
    ensures Awake(CheckStep(c, st, k, exit, ch))
  {
    hide Awake, CheckStep, Decide;
    if k == 2 {
      ResetKeepsAwake(c, st, exit, ch);
    } else if k == 0 {
      FirstLoadKeepsAwake(c, st, exit, ch);
    } else if k == 1 {
      SecondLoadKeepsAwake(c, st, exit, ch);
    } else if k == 3 {
      FourthLoadKeepsAwake(c, st, exit, ch);
    } else {
      DecideKeepsAwake(c, st, exit);
      CheckDecides(c, st, k, exit, ch);
    }
  }

  lemma CheckDecides(c: Config, st: State, k: nat, exit: bool, ch: Choice)
    requires k >= 4
    ensures CheckStep(c, st, k, exit, ch) == Decide(c, st, exit)
  {
    hide Decide;
  }

  // ---- runs ----

  lemma EnterKeepsAwake(c: Config, st: State, ch: Choice)
    requires Awake(st) && st.pc.Enter? && (st.w.phase == WaitNotify && st.s.mine ==> st.s.token)
    ensures Awake(EnterStep(c, st, ch))
  {
    hide Awake, EnterStep;
    match st.w.phase
    case InitPhase | DownFilter | MatchRoute | DownFilterAfterRoute | DownFilterAfterChooseHost | UpFilter =>
      EnterFrontKeepsAwake(c, st, ch);
    case ChooseHost => EnterChooseHostKeepsAwake(c, st, ch);
    case DownRecvHeader | DownRecvData | DownRecvTrailer | Oneway => EnterSendKeepsAwake(c, st, ch);
    case Retry => EnterRetryKeepsAwake(c, st, ch);
    case WaitNotify => WaitKeepsAwake(c, st, ch);
    case UpRecvHeader | UpRecvData | UpRecvTrailer | End => EnterReplyKeepsAwake(c, st, ch);
  }

  lemma AgainIsEarly(c: Config, st: State)
    requires Inv(c, st)
    ensures st.w.again != UpFilter && st.w.again != UpRecvHeader
  {
    hide TriesOk, WellFormedReply, Used;
  }

  lemma StepKeepsAwake(c: Config, st: State, a: Action)
    requires !c.gaps && !c.lateWrites && Inv(c, st) && Awake(st) && Enabled(c, st, a)
    ensures Awake(Step(c, st, a))
  {
    hide Inv, Awake, EnterStep, FilterStep, ReadStep, GateStep, OpenStep, CheckStep, CleanStep, Rely;
    AgainIsEarly(c, st);
    match a
    case Others(s') => OthersKeepAwake(c, st, s');
    case Work(ch) =>
      match st.pc
      case Enter => EnterKeepsAwake(c, st, ch);
      case Filtering => FilterKeepsAwake(c, st, ch);
      case Reading | ReadingTrailers => ReadKeepsAwake(st);
      case Gated(g, second) => GateKeepsAwake(c, st, g, second, ch);
      case Opening => OpenKeepsAwake(st, ch);
      case Checking(k, exit) => CheckKeepsAwake(c, st, k, exit, ch);
      case Cleaning(k, toEnd) => CleanKeepsAwake(c, st, k, toEnd);
  }

  lemma {:induction false} RunKeepsAwake(c: Config, st: State, acts: seq<Action>, st': State)
    requires !c.gaps && !c.lateWrites && Inv(c, st) && Awake(st) && Reaches(c, st, acts, st')
    ensures Awake(st')
    decreases |acts|
  {
    hide Inv, Awake, Step, Enabled;
    if acts != [] {
      StepKeepsInv(c, st, acts[0]);
      StepKeepsAwake(c, st, acts[0]);
      RunKeepsAwake(c, Step(c, st, acts[0]), acts[1..], st');
    }
  }

  /** Without gaps and late writes, and with headers on every response, no run skips the headers. */
  lemma HeadersAreThere(c: Config, reqData: bool, reqTrailers: bool, acts: seq<Action>, st: State)
    requires !c.gaps && !c.lateWrites && Reaches(c, Initial(reqData, reqTrailers), acts, st)
    ensures !st.t.skippedHeaders
  {
    hide Inv, Reaches;
    InitialInv(c, reqData, reqTrailers);
    RunKeepsAwake(c, Initial(reqData, reqTrailers), acts, st);
  }
}
