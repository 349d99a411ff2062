/** Why upstream streams are opened: each one after the first follows a failure that calls for it. */
module ProxyRetries {
  import opened ProxyRequest
  import opened ProxySafety

  /** A route that does not ask for retries gets them for failed connections only. One that does gets
      them for server errors and, without a response, for failed, lost and slow tries. No try is
      repeated because the pool was full, or after the time for the whole request was up. */
  predicate Justified(y: Cause) {
    && y.reason != StreamOverflow && y.reason != GlobalTimeout
    && (!y.retryOn ==> y.reason == ConnectionFailed)
    && (y.retryOn && y.status.Status? ==> y.status.code >= 500)
    && (y.retryOn && y.status.NoStatus? ==>
          y.reason == ConnectionFailed || y.reason == PerTryTimeout || y.reason == ConnectionTermination)
  }

  predicate AllJustified(causes: seq<Cause>) {
    forall i :: 0 <= i < |causes| ==> Justified(causes[i])
  }

  /** A stream is about to be opened. */
  function Due(pc: Pc, pending: bool): nat {
    if pending || (pc.Gated? && (pc.gate == SendHeaders || pc.gate == RetryHeaders)) then 1 else 0
  }

  function Left(r: RetryState): nat { if r.RetryState? then r.remaining else 0 }

  /** Every stream but the first has its cause, and every cause has used up a retry. */
  predicate Paid(opens: nat, due: nat, firstSends: nat, causes: nat, left: nat, budget: nat) {
    opens + due <= firstSends + causes && causes + left <= budget
  }

  predicate Accounted(st: State) {
    && Paid(st.t.opens, Due(st.pc, Pending(st.w)), st.t.firstSends, |st.t.causes|, Left(st.w.retry), st.t.budget)
    && AllJustified(st.t.causes)
    && (NotSent(st.t) ==> st.t.causes == [])
  }

  lemma RetryCheckJustifies(r: RetryState, reason: ResetReason, ch: Choice)
    requires MayRetry(r, reason, ch) && reason != GlobalTimeout
    ensures Justified(CauseOf(r, reason, ch)) && Left(UseRetry(r)) == Left(r) - 1
  {}

  lemma UseRetryUses(r: RetryState)
    ensures Left(UseRetry(r)) <= Left(r)
  {}

  lemma JustifiedGrows(causes: seq<Cause>, y: Cause)
    requires AllJustified(causes) && Justified(y)
    ensures AllJustified(causes + [y])
  {}

  lemma EnterChooseHostAccounts(c: Config, st: State, ch: Choice)
    requires Accounted(st) && st.pc.Enter? && st.w.phase == ChooseHost && NotSent(st.t) && !Pending(st.w)
    ensures Accounted(EnterStep(c, st, ch))
  {
    hide AllJustified;
  }

  lemma EnterFirstSendAccounts(c: Config, st: State, ch: Choice)
    requires Accounted(st) && st.pc.Enter? && st.w.phase == DownRecvHeader && !Pending(st.w)
    ensures Accounted(EnterStep(c, st, ch))
  {
    hide AllJustified;
  }

  lemma EnterRetryAccounts(c: Config, st: State, ch: Choice)
    requires Accounted(st) && st.pc.Enter? && st.w.phase == Retry && Pending(st.w)
    ensures Accounted(EnterStep(c, st, ch))
  {
    hide AllJustified;
  }

  /** The other phases neither open streams nor give tries up. */
  lemma EnterOtherAccounts(c: Config, st: State, ch: Choice)
    requires Accounted(st) && st.pc.Enter?
    requires st.w.phase != ChooseHost && st.w.phase != DownRecvHeader && st.w.phase != Retry
    ensures Accounted(EnterStep(c, st, ch))
  {
    hide Accounted, Frugal;
    EnterIsFrugal(c, st, ch);
    FrugalAccounts(st, EnterStep(c, st, ch));
  }

  lemma EnterIsFrugal(c: Config, st: State, ch: Choice)
    requires st.pc.Enter? && st.w.phase != ChooseHost && st.w.phase != DownRecvHeader && st.w.phase != Retry
    ensures Frugal(st, EnterStep(c, st, ch))
  {
    hide Frugal, EnterStep;
    if st.w.phase == UpRecvHeader || st.w.phase == UpRecvData || st.w.phase == UpRecvTrailer || st.w.phase == End {
      EnterReplyIsFrugal(c, st, ch);
    } else if st.w.phase == DownRecvData || st.w.phase == DownRecvTrailer || st.w.phase == Oneway
        || st.w.phase == WaitNotify {
      EnterSendIsFrugal(c, st, ch);
    } else {
      EnterFrontIsFrugal(c, st, ch);
    }
  }

  lemma EnterReplyIsFrugal(c: Config, st: State, ch: Choice)
    requires st.pc.Enter?
    requires st.w.phase == UpRecvHeader || st.w.phase == UpRecvData || st.w.phase == UpRecvTrailer || st.w.phase == End
    ensures Frugal(st, EnterStep(c, st, ch))
  {
    hide Frugal, Goto;
    GotoIsFrugal(st, UpRecvTrailer);
    GotoIsFrugal(st, End);
    SkipIsFrugal(st);
    MoveIsFrugal(st, Reading);
    MoveIsFrugal(st, Gated(ReplyTrailers, false));
    MoveIsFrugal(st, Halted);
  }

  lemma GotoIsFrugal(st: State, p: Phase)
    requires st.pc.Enter?
    ensures Frugal(st, Goto(st, p))
  {}

  lemma SkipIsFrugal(st: State)
    requires st.pc.Enter?
    ensures Frugal(st, Goto(st.(t := st.t.(skippedHeaders := true)), UpRecvData))
  {}

  lemma MoveIsFrugal(st: State, pc: Pc)
    requires st.pc.Enter? && (pc.Gated? ==> pc.gate != SendHeaders && pc.gate != RetryHeaders)
    ensures Frugal(st, st.(pc := pc))
  {}

  lemma EnterSendIsFrugal(c: Config, st: State, ch: Choice)
    requires st.pc.Enter?
    requires st.w.phase == DownRecvData || st.w.phase == DownRecvTrailer || st.w.phase == Oneway
             || st.w.phase == WaitNotify
    ensures Frugal(st, EnterStep(c, st, ch))
  {}

  lemma EnterFrontIsFrugal(c: Config, st: State, ch: Choice)
    requires st.pc.Enter?
    requires st.w.phase in {InitPhase, DownFilter, MatchRoute, DownFilterAfterRoute, DownFilterAfterChooseHost,
             UpFilter}
    ensures Frugal(st, EnterStep(c, st, ch))
  {}

  /** What the safety of a run says about the phases that open streams. */
  lemma EnterFacts(c: Config, st: State)
    requires Inv(c, st) && st.pc.Enter?
    ensures st.w.phase == ChooseHost ==> NotSent(st.t) && !Pending(st.w)
    ensures st.w.phase == DownRecvHeader ==> !Pending(st.w)
    ensures st.w.phase == Retry ==> Pending(st.w)
  {
    hide TriesOk, WellFormedReply, Used, Sending, Replied;
  }

  lemma EnterAccounts(c: Config, st: State, ch: Choice)
    requires Inv(c, st) && Accounted(st) && st.pc.Enter?
    ensures Accounted(EnterStep(c, st, ch))
  {
    hide Inv, Accounted, EnterStep, Pending, NotSent;
    EnterFacts(c, st);
    if st.w.phase == ChooseHost {
      EnterChooseHostAccounts(c, st, ch);
    } else if st.w.phase == DownRecvHeader {
      EnterFirstSendAccounts(c, st, ch);
    } else if st.w.phase == Retry {
      EnterRetryAccounts(c, st, ch);
    } else {
      EnterOtherAccounts(c, st, ch);
    }
  }

  lemma FilterAccounts(c: Config, st: State, ch: Choice)
    requires Accounted(st) && st.pc.Filtering?
    ensures Accounted(FilterStep(c, st, ch))
  {
    hide Accounted, Frugal, FilterStep;
    FilterIsFrugal(c, st, ch);
    FrugalAccounts(st, FilterStep(c, st, ch));
  }

  lemma FilterIsFrugal(c: Config, st: State, ch: Choice)
    requires st.pc.Filtering?
    ensures Frugal(st, FilterStep(c, st, ch))
  {}

  lemma PushAccounts(c: Config, st: State, part: Part)
    requires Accounted(st) && st.pc == Checking(0, false)
    ensures Accounted(PushClient(c, st, part))
  {
    hide AllJustified;
  }

  /** A try is given up with a cause, and the retry it uses up. */
  lemma SetupAccounts(st: State, r: RetryState, y: Cause, pc: Pc)
    requires Accounted(st) && !NotSent(st.t) && Justified(y) && Left(r) == Left(st.w.retry) - 1
    requires pc.Checking?
    ensures Accounted(SetupRetry(st.(w := st.w.(retry := r)), y).(pc := pc))
  {
    hide AllJustified, Justified, Paid;
    JustifiedGrows(st.t.causes, y);
    var t := st.t;
    var due := Due(st.pc, Pending(st.w));
    PaidRetry(t.opens, due, t.firstSends, |t.causes|, Left(st.w.retry), t.budget);
    if st.w.upstream.NoUpstream? {
      assert Paid(t.opens, 0, t.firstSends, |t.causes|, Left(r), t.budget);
    } else {
      assert |t.causes + [y]| == |t.causes| + 1;
    }
  }

  lemma PaidRetry(opens: nat, due: nat, firstSends: nat, causes: nat, left: nat, budget: nat)
    requires Paid(opens, due, firstSends, causes, left, budget) && left > 0
    ensures Paid(opens, 1, firstSends, causes + 1, left - 1, budget)
    ensures Paid(opens, 0, firstSends, causes, left - 1, budget)
  {}

  lemma HeadersAccount(c: Config, st: State, end: bool, ch: Choice)
    requires Accounted(st) && st.pc.Gated? && !Pending(st.w) && (st.w.retry.RetryState? ==> !NotSent(st.t))
    ensures Accounted(OnUpstreamHeaders(c, st, end, ch))
  {
    hide AllJustified, PushClient, MayRetry, UseRetry, Justified, SetupRetry;
    UseRetryUses(st.w.retry);
    if MayRetry(st.w.retry, NoReason, ch) {
      RetryCheckJustifies(st.w.retry, NoReason, ch);
      SetupAccounts(st, UseRetry(st.w.retry), CauseOf(st.w.retry, NoReason, ch), Checking(0, false));
    } else {
      var w := st.w.(retry := UseRetry(st.w.retry), started := true);
      PushAccounts(c, Check(st.(w := w)), Part(Headers, end));
    }
  }

  /** Nothing is opened, no try is given up, and no right to either is gained. */
  predicate Frugal(st: State, st': State) {
    && st'.t.opens == st.t.opens && st'.t.firstSends == st.t.firstSends && st'.t.causes == st.t.causes
    && st'.t.budget == st.t.budget && Left(st'.w.retry) <= Left(st.w.retry)
    && Due(st'.pc, Pending(st'.w)) <= Due(st.pc, Pending(st.w))
  }

  lemma FrugalAccounts(st: State, st': State)
    requires Accounted(st) && Frugal(st, st')
    ensures Accounted(st')
  {
    hide AllJustified;
  }

  lemma ShutIsFrugal(st: State, g: Gate)
    ensures Frugal(st, GateShut(st, g)) && Frugal(st, RetryRest(st, g))
  {}

  lemma PoolIsFrugal(st: State, ch: Choice)
    ensures Frugal(st, PoolAnswer(st, ch))
  {}

  lemma FrugalTwice(st: State, st': State, st'': State)
    requires Frugal(st, st') && Frugal(st', st'')
    ensures Frugal(st, st'')
  {}

  lemma OpenIsFrugal(st: State, ch: Choice)
    ensures Frugal(st, OpenStep(st, ch))
  {
    hide Frugal, GateShut, RetryRest, PoolAnswer;
    PoolIsFrugal(st, ch);
    var g := if st.w.phase == Retry then RetryHeaders else SendHeaders;
    ShutIsFrugal(PoolAnswer(st, ch), g);
    FrugalTwice(st, PoolAnswer(st, ch), OpenStep(st, ch));
  }

  /** The one place where a stream is opened. */
  lemma CallAccounts(st: State)
    requires Accounted(st) && Due(st.pc, false) == 1 && !Pending(st.w)
    ensures Accounted(CallNewStream(st))
  {
    hide AllJustified;
  }

  lemma PushUpstreamIsFrugal(st: State, part: Part)
    ensures var st' := st.(w := PushUpstream(st.w, part)); Frugal(st, st') && Frugal(st, Check(st'))
  {}

  lemma PushClientIsFrugal(c: Config, st: State, part: Part)
    ensures Frugal(st, PushClient(c, Check(st), part)) && Frugal(st, Check(st))
  {}

  /** Sending or replying, behind a gate that opens no stream. */
  lemma PassAccounts(c: Config, st: State, g: Gate, ch: Choice)
    requires Accounted(st) && st.pc == Gated(g, true) && g != SendHeaders && g != RetryHeaders
    requires g.ReplyHeaders? && !Pending(st.w) && st.w.retry.RetryState? ==> !NotSent(st.t)
    ensures Accounted(GatePassed(c, st, g, ch))
  {
    hide Accounted, Frugal, PushClient, PushUpstream, RetryRest, OnUpstreamHeaders, NotSent, Pending;
    PushClientIsFrugal(c, st, Part(Data, g.ReplyData? && g.end));
    PushClientIsFrugal(c, st, Part(Trailers, true));
    PushUpstreamIsFrugal(st, Part(Data, !st.w.reqTrailers));
    PushUpstreamIsFrugal(st, Part(Trailers, true));
    var st' := GatePassed(c, st, g, ch);
    match g
    case CheckData | CheckTrailers => CheckedIsFrugal(c, st, g, ch); FrugalAccounts(st, st');
    case RetryData =>
      ShutIsFrugal(st.(w := PushUpstream(st.w, Part(Data, !st.w.reqTrailers))), g);
      FrugalTwice(st, st.(w := PushUpstream(st.w, Part(Data, !st.w.reqTrailers))), st');
      FrugalAccounts(st, st');
    case RetryTrailers =>
      ShutIsFrugal(st.(w := PushUpstream(st.w, Part(Trailers, true))), g);
      FrugalTwice(st, st.(w := PushUpstream(st.w, Part(Trailers, true))), st');
      FrugalAccounts(st, st');
    case ReplyHeaders(end) =>
      if Pending(st.w) {
        FrugalAccounts(st, st');
      } else {
        HeadersAccount(c, st, end, ch);
      }
    case _ => FrugalAccounts(st, st');
  }

  lemma CheckedIsFrugal(c: Config, st: State, g: Gate, ch: Choice)
    requires g == CheckData || g == CheckTrailers
    ensures Frugal(st, GatePassed(c, st, g, ch))
  {}

  lemma GateFacts(c: Config, st: State, g: Gate)
    requires Inv(c, st) && st.pc.Gated? && st.pc.gate == g
    ensures g.ReplyHeaders? && st.w.retry.RetryState? ==> !NotSent(st.t)
    ensures g == SendHeaders || g == RetryHeaders ==> !Pending(st.w)
  {
    hide TriesOk, WellFormedReply, Used, Sending, Replied;
  }

  lemma GateAccounts(c: Config, st: State, g: Gate, second: bool, ch: Choice)
    requires Inv(c, st) && Accounted(st) && st.pc == Gated(g, second)
    ensures Accounted(GateStep(c, st, g, second, ch))
  {
    hide Inv, Accounted, Frugal, GateShut, GatePassed, CallNewStream, NotSent, Pending;
    GateFacts(c, st, g);
    ShutIsFrugal(st, g);
    FrugalAccounts(st, GateShut(st, g));
    SecondLoadIsFrugal(st, g);
    FrugalAccounts(st, st.(pc := Gated(g, true)));
    if second {
      if g == SendHeaders || g == RetryHeaders {
        CallAccounts(st);
        PassCalls(c, st, g, ch);
      } else {
        PassAccounts(c, st, g, ch);
      }
    }
  }

  lemma SecondLoadIsFrugal(st: State, g: Gate)
    requires st.pc.Gated? && st.pc.gate == g
    ensures Frugal(st, st.(pc := Gated(g, true)))
  {}

  lemma PassCalls(c: Config, st: State, g: Gate, ch: Choice)
    requires g == SendHeaders || g == RetryHeaders
    ensures GatePassed(c, st, g, ch) == CallNewStream(st)
  {}

  // ---- processError and cleaning ----

  lemma LeaveIsFrugal(st: State, p: Phase)
    ensures Frugal(st, Leave(st, p)) && Frugal(st, Advance(st))
  {}

  lemma DecideIsFrugal(c: Config, st: State, exit: bool)
    requires st.pc.Checking?
    ensures Frugal(st, Decide(c, st, exit))
  {
    hide Leave, Advance, Frugal;
    var st' := st.(w := st.w.(retry := NoRetry), s := st.s.(direct := false));
    var t' := st.t.(lateHijack := st.t.lateHijack || st.w.again != InitPhase);
    NoRetryIsFrugal(st, t');
    if st.s.direct {
      var next := if c.oneway || st.w.phase != UpFilter || exit then st' else st'.(t := t');
      LeaveIsFrugal(next, if c.oneway then Oneway else if st.w.phase != UpFilter then UpFilter else End);
      FrugalTwice(st, next, Decide(c, st, exit));
    } else if Pending(st.w) {
      LeaveIsFrugal(st, Retry);
    } else if st.w.again != InitPhase {
      LeaveIsFrugal(st.(w := st.w.(again := InitPhase)), st.w.again);
      FrugalTwice(st, st.(w := st.w.(again := InitPhase)), Decide(c, st, exit));
    } else {
      LeaveIsFrugal(st, End);
    }
  }

  lemma NoRetryIsFrugal(st: State, t: Trace)
    requires t == st.t.(lateHijack := t.lateHijack)
    ensures var st' := st.(w := st.w.(retry := NoRetry), s := st.s.(direct := false));
            Frugal(st, st') && Frugal(st, st'.(t := t))
    ensures Frugal(st, st.(w := st.w.(again := InitPhase)))
  {}

  lemma FailIsFrugal(st: State, left: RetryState)
    requires Left(left) <= Left(st.w.retry)
    ensures Frugal(st, FailReset(st.(w := st.w.(retry := left))).(pc := Checking(3, true)))
  {}

  lemma FailAccounts(st: State, left: RetryState)
    requires Accounted(st) && Left(left) <= Left(st.w.retry)
    ensures Accounted(FailReset(st.(w := st.w.(retry := left))).(pc := Checking(3, true)))
  {
    hide Accounted, FailReset, Frugal;
    FailIsFrugal(st, left);
    FrugalAccounts(st, FailReset(st.(w := st.w.(retry := left))).(pc := Checking(3, true)));
  }

  /** The flag of a reset is not part of the account. */
  lemma FlagAccounts(st: State, reset: bool)
    requires Accounted(st)
    ensures Accounted(st.(s := st.s.(upstreamReset := reset)))
  {
    hide AllJustified, Paid;
  }

  lemma ResetAccounts(st: State, ch: Choice)
    requires Accounted(st) && !NotSent(st.t)
    ensures Accounted(OnUpstreamReset(st, ch).(pc := Checking(3, true)))
  {
    hide Accounted, FailReset, SetupRetry, UseRetry, MayRetry, Justified, NotSent;
    var r := st.w.retry;
    UseRetryUses(r);
    FailAccounts(st, r);
    FailAccounts(st, UseRetry(r));
    assert st.(w := st.w.(retry := r)) == st;
    if st.s.resetReason != GlobalTimeout && MayRetry(r, st.s.resetReason, ch) {
      var y := CauseOf(r, st.s.resetReason, ch);
      RetryCheckJustifies(r, st.s.resetReason, ch);
      SetupAccounts(st, UseRetry(r), y, Checking(3, true));
      FlagAccounts(SetupRetry(st.(w := st.w.(retry := UseRetry(r))), y).(pc := Checking(3, true)), false);
    }
  }

  lemma CheckFacts(c: Config, st: State)
    requires Inv(c, st) && st.pc.Checking? && st.pc.k == 2 && st.s.upstreamReset
    ensures !NotSent(st.t)
  {
    hide TriesOk, WellFormedReply, Used, Sending, Replied, Achieved, Leaving;
  }

  lemma CheckAccounts(c: Config, st: State, k: nat, exit: bool, ch: Choice)
    requires Inv(c, st) && Accounted(st) && st.pc == Checking(k, exit)
    ensures Accounted(CheckStep(c, st, k, exit, ch))
  {
    hide Inv, Accounted, Frugal, Leave, Decide, OnUpstreamReset, NotSent;
    if k == 2 && st.s.upstreamReset && !c.oneway {
      CheckFacts(c, st);
      ResetAccounts(st, ch);
    } else {
      LeaveIsFrugal(st, End);
      LeaveIsFrugal(st, Oneway);
      DecideIsFrugal(c, st, exit);
      CheckMoves(st, CheckStep(c, st, k, exit, ch).pc);
      FrugalAccounts(st, CheckStep(c, st, k, exit, ch));
    }
  }

  lemma CheckMoves(st: State, pc: Pc)
    requires st.pc.Checking?
    ensures pc.Checking? || pc.Cleaning? ==> Frugal(st, st.(pc := pc))
  {}

  lemma CleanIsFrugal(c: Config, st: State, k: nat, toEnd: bool)
    ensures Frugal(st, CleanStep(c, st, k, toEnd))
  {}

  lemma ReadIsFrugal(st: State)
    ensures Frugal(st, ReadStep(st))
  {}

  // ---- runs ----

  lemma StepAccounts(c: Config, st: State, a: Action)
    requires Inv(c, st) && Accounted(st) && Enabled(c, st, a)
    ensures Accounted(Step(c, st, a))
  {
    hide Inv, Accounted, Frugal, Rely;
    hide EnterStep, FilterStep, ReadStep, GateStep, OpenStep, CheckStep, CleanStep;
    match a
    case Others(s') => SharedAccounts(st, s');
    case Work(ch) =>
      match st.pc
      case Enter => EnterAccounts(c, st, ch);
      case Filtering => FilterAccounts(c, st, ch);
      case Reading | ReadingTrailers => ReadIsFrugal(st); FrugalAccounts(st, ReadStep(st));
      case Gated(g, second) => GateAccounts(c, st, g, second, ch);
      case Opening => OpenIsFrugal(st, ch); FrugalAccounts(st, OpenStep(st, ch));
      case Checking(k, exit) => CheckAccounts(c, st, k, exit, ch);
      case Cleaning(k, toEnd) => CleanIsFrugal(c, st, k, toEnd); FrugalAccounts(st, CleanStep(c, st, k, toEnd));
  }

  lemma SharedAccounts(st: State, s': Shared)
    requires Accounted(st)
    ensures Accounted(st.(s := s'))
  {
    hide AllJustified, Paid;
  }

  lemma {:induction false} RunAccounts(c: Config, st: State, acts: seq<Action>, st': State)
    requires Inv(c, st) && Accounted(st) && Reaches(c, st, acts, st')
    ensures Accounted(st')
    decreases |acts|
  {
    hide Inv, Accounted, Step, Enabled;
    if acts != [] {
      StepKeepsInv(c, st, acts[0]);
      StepAccounts(c, st, acts[0]);
      RunAccounts(c, Step(c, st, acts[0]), acts[1..], st');
    }
  }

  /** In every state of every run: no more streams have been opened than the first one and one for each
      try that was given up, each was given up for a reason that calls for another, and no more were
      given up than the retries of the route. */
  lemma EveryRetryIsJustified(c: Config, reqData: bool, reqTrailers: bool, acts: seq<Action>, st: State)
    requires Reaches(c, Initial(reqData, reqTrailers), acts, st)
    ensures st.t.opens <= st.t.firstSends + |st.t.causes| && |st.t.causes| <= st.t.budget
    ensures AllJustified(st.t.causes)
  {
    hide Inv, Reaches, Safe;
    InitialInv(c, reqData, reqTrailers);
    RunAccounts(c, Initial(reqData, reqTrailers), acts, st);
  }

  // ---- which failures are retried ----

  /** The route has retries left and the cluster has room for another one. */
  predicate CanRetry(r: RetryState, ch: Choice) { Left(r) > 0 && ch.Answer? && ch.canCreate }

  lemma RetriesHaveTries(c: Config, st: State)
    requires Inv(c, st)
    ensures st.w.retry.RetryState? ==> st.w.upstream.Upstream?
  {
    hide TriesOk, WellFormedReply, Used, InPhase, AtPc;
  }

  lemma RetryCheckIsExact(r: RetryState, reason: ResetReason, ch: Choice)
    ensures reason != GlobalTimeout ==>
              (MayRetry(r, reason, ch) <==> CanRetry(r, ch) && Justified(CauseOf(r, reason, ch)))
    ensures reason == GlobalTimeout ==> !Justified(CauseOf(r, reason, ch))
    ensures Left(UseRetry(r)) == Left(r) - (if Left(r) > 0 then 1 else 0)
  {}

  lemma HeadersRetried(c: Config, st: State, end: bool, ch: Choice)
    requires !Pending(st.w)
    requires st.w.retry.RetryState? ==> st.w.upstream.Upstream?
    ensures var st', why := OnUpstreamHeaders(c, st, end, ch), CauseOf(st.w.retry, NoReason, ch);
            && (if CanRetry(st.w.retry, ch) && Justified(why)
                then Pending(st'.w) && !st'.s.received && st'.t == st.t.(causes := st.t.causes + [why])
                else !Pending(st'.w) && st'.t == st.t.(client := st.t.client + [Part(Headers, end)]))
            && Left(st'.w.retry) == Left(st.w.retry) - (if Left(st.w.retry) > 0 then 1 else 0)
  {
    hide MayRetry, UseRetry, CauseOf, Justified, CanRetry, Left, PushClient, SetupRetry;
    var r := UseRetry(st.w.retry);
    RetryCheckIsExact(st.w.retry, NoReason, ch);
    CanRetryHasState(st.w.retry, ch);
    if MayRetry(st.w.retry, NoReason, ch) {
      SetupGivesUp(st, r, CauseOf(st.w.retry, NoReason, ch));
    } else {
      PushReplies(c, Check(st.(w := st.w.(retry := r, started := true))), Part(Headers, end));
    }
  }

  lemma ResponseStep(c: Config, st: State, end: bool, ch: Choice)
    requires st.pc == Gated(ReplyHeaders(end), true) && !Pending(st.w) && !st.s.upstreamReset
    ensures Step(c, st, Work(ch)) == OnUpstreamHeaders(c, st, end, ch)
  {
    hide OnUpstreamHeaders;
  }

  lemma PushReplies(c: Config, st: State, part: Part)
    ensures var st' := PushClient(c, st, part);
            && Pending(st'.w) == Pending(st.w) && st'.w.retry == st.w.retry
            && st'.t == st.t.(client := st.t.client + [part])
  {}

  lemma CanRetryHasState(r: RetryState, ch: Choice)
    ensures CanRetry(r, ch) ==> r.RetryState?
  {}

  /** Any failure that is not retried ends the request: an error reply, or none after a reply has begun. */
  predicate GivenAway(st: State, st': State) {
    && !Pending(st'.w) && st'.t == st.t
    && (if st.w.started then st'.w.processDone
        else st'.s.direct && st'.s.respHeaders && !st'.s.respData && !st'.s.respTrailers)
  }

  lemma FailGivesAway(st: State, r: RetryState)
    requires !Pending(st.w)
    ensures GivenAway(st, FailReset(st)) && GivenAway(st, FailReset(st.(w := st.w.(retry := r))))
  {}

  lemma SetupGivesUp(st: State, r: RetryState, why: Cause)
    requires st.w.upstream.Upstream?
    ensures var st' := SetupRetry(st.(w := st.w.(retry := r)), why);
            Pending(st'.w) && st'.w.retry == r && !st'.s.received && st'.t == st.t.(causes := st.t.causes + [why])
  {}

  lemma ResetRetried(c: Config, st: State, exit: bool, ch: Choice)
    requires st.pc == Checking(2, exit) && st.s.upstreamReset && !c.oneway && !Pending(st.w)
    requires st.w.retry.RetryState? ==> st.w.upstream.Upstream?
    ensures var st', why := WorkStep(c, st, ch), CauseOf(st.w.retry, st.s.resetReason, ch);
            if !st.w.started && CanRetry(st.w.retry, ch) && Justified(why)
            then
              && Pending(st'.w) && !st'.s.received && !st'.s.upstreamReset
              && st'.t == st.t.(causes := st.t.causes + [why])
            else GivenAway(st, st')
  {
    hide MayRetry, UseRetry, CauseOf, Justified, CanRetry, FailReset, SetupRetry;
    var r := UseRetry(st.w.retry);
    RetryCheckIsExact(st.w.retry, st.s.resetReason, ch);
    CanRetryHasState(st.w.retry, ch);
    FailGivesAway(st, r);
    if st.w.upstream.Upstream? {
      SetupGivesUp(st, r, CauseOf(st.w.retry, st.s.resetReason, ch));
    }
  }

  /** In every run, a response is given up exactly if there are retries left, there is room for one and
      the response calls for it; any other response starts the reply. Either way a retry is used up. */
  lemma ResponseRetriedExactly(c: Config, reqData: bool, reqTrailers: bool, acts: seq<Action>, st: State,
                               end: bool, ch: Choice)
    requires Reaches(c, Initial(reqData, reqTrailers), acts, st)
    requires st.pc == Gated(ReplyHeaders(end), true) && !Pending(st.w) && !st.s.upstreamReset
    ensures var st', why := Step(c, st, Work(ch)), CauseOf(st.w.retry, NoReason, ch);
            if CanRetry(st.w.retry, ch) && Justified(why)
            then Pending(st'.w) && !st'.s.received && st'.t == st.t.(causes := st.t.causes + [why])
            else !Pending(st'.w) && st'.t == st.t.(client := st.t.client + [Part(Headers, end)])
    ensures Left(Step(c, st, Work(ch)).w.retry) == Left(st.w.retry) - (if Left(st.w.retry) > 0 then 1 else 0)
  {
    hide Inv, Reaches, Step, OnUpstreamHeaders, CanRetry, CauseOf, Justified, Left;
    InitialInv(c, reqData, reqTrailers);
    RunKeepsInv(c, Initial(reqData, reqTrailers), acts, st);
    RetriesHaveTries(c, st);
    HeadersRetried(c, st, end, ch);
    ResponseStep(c, st, end, ch);
  }

  /** In every run, a try that was reset is given up exactly if no reply has begun, there are retries
      left, there is room for one and the reset calls for it. Otherwise the reply that has begun is cut
      off, or an error reply of a header block alone is queued. */
  lemma ResetRetriedExactly(c: Config, reqData: bool, reqTrailers: bool, acts: seq<Action>, st: State,
                            exit: bool, ch: Choice)
    requires Reaches(c, Initial(reqData, reqTrailers), acts, st)
    requires st.pc == Checking(2, exit) && st.s.upstreamReset && !c.oneway && !Pending(st.w)
    ensures var st', why := Step(c, st, Work(ch)), CauseOf(st.w.retry, st.s.resetReason, ch);
            if !st.w.started && CanRetry(st.w.retry, ch) && Justified(why)
            then
              && Pending(st'.w) && !st'.s.received && !st'.s.upstreamReset
              && st'.t == st.t.(causes := st.t.causes + [why])
            else GivenAway(st, st')
  {
    hide Inv, Reaches, WorkStep, CanRetry, CauseOf, Justified, GivenAway;
    InitialInv(c, reqData, reqTrailers);
    RunKeepsInv(c, Initial(reqData, reqTrailers), acts, st);
    RetriesHaveTries(c, st);
    ResetRetried(c, st, exit, ch);
  }
}
