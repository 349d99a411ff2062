/** How a request ends: what makes the worker clean the stream, and what it can do from then on. */
module ProxyEnding {
  import opened ProxyRequest
  import opened ProxySafety

  /** The worker is in cleanStream, or past it. */
  predicate Ending(st: State) {
    match st.pc
    case Cleaning(k, _) =>
      && !st.w.given && st.s.mine && (k > 0 ==> st.s.cleaned)
      && st.t.cleans == if st.s.cleaned then 1 else 0
    case Checking(k, _) =>
      k <= 1 && st.t.cleans == 1 && (if st.w.given then k == 0 && !st.s.mine else st.s.cleaned && st.s.mine)
    case Halted => st.t.cleans == 1
    case _ => false
  }

  lemma StepStaysEnding(c: Config, st: State, a: Action)
    requires Ending(st) && Enabled(c, st, a)
    ensures var st' := Step(c, st, a);
            Ending(st') && st'.t == st.t.(cleans := st'.t.cleans) && TryOf(st'.w) == TryOf(st.w)
  {}

  lemma {:induction false} RunStaysEnding(c: Config, st: State, acts: seq<Action>, st': State)
    requires Ending(st) && Reaches(c, st, acts, st')
    ensures Ending(st') && st'.t == st.t.(cleans := st'.t.cleans) && TryOf(st'.w) == TryOf(st.w)
    decreases |acts|
  {
    hide Ending, Enabled, Step, TryOf;
    if acts != [] {
      StepStaysEnding(c, st, acts[0]);
      RunStaysEnding(c, Step(c, st, acts[0]), acts[1..], st');
    }
  }

  lemma CleaningIsEnding(c: Config, st: State)
    requires Inv(c, st) && st.pc.Cleaning?
    ensures Ending(st)
  {
    hide TriesOk, WellFormedReply, Used, InPhase;
  }

  /** In every run, from cleanStream on nothing is sent to either side, and when the worker is through
      the stream has been counted out. */
  lemma CleaningIsTheEnd(c: Config, reqData: bool, reqTrailers: bool, before: seq<Action>, st: State,
                         after: seq<Action>, st': State)
    requires Reaches(c, Initial(reqData, reqTrailers), before, st) && st.pc.Cleaning?
    requires Reaches(c, st, after, st')
    ensures st'.t == st.t.(cleans := st'.t.cleans) && TryOf(st'.w) == TryOf(st.w)
    ensures st'.pc.Halted? ==> st'.t.cleans == 1
  {
    hide Reaches, Inv, TryOf;
    InitialInv(c, reqData, reqTrailers);
    RunKeepsInv(c, Initial(reqData, reqTrailers), before, st);
    CleaningIsEnding(c, st);
    RunStaysEnding(c, st, after, st');
  }

  // ---- what makes the worker clean the stream ----

  /** A block with an end flag was sent to the client. */
  predicate Ended(t: Trace, t': Trace) {
    |t'.client| > |t.client| && t'.client[|t'.client| - 1].end
  }

  /** A client reset seen by processError, a filter that terminates, the last block of the reply, the
      end of a one-way request, or a request body that comes after the request is over. */
  predicate Cleans(c: Config, st: State, ch: Choice, st': State) {
    || (st.pc.Checking? && st.pc.k == 3 && st.s.downstreamReset)
    || (st.pc.Filtering? && ch.Terminated?)
    || Ended(st.t, st'.t)
    || (st.pc.Enter? && st.w.phase == Oneway && c.oneway)
    || (st.pc.Gated? && (st.pc.gate.SendData? || st.pc.gate.SendTrailers?) && st.w.processDone
        && (!st.pc.second || st.s.upstreamReset))
  }

  /** The client's reset is seen by the worker until the object is handed back. */
  predicate ResetStands(st: State) { st.w.given || st.s.downstreamReset }

  /** What a step may leave as it is. */
  datatype Outside = Outside(client: seq<Part>, opens: nat, given: bool, reset: bool, data: bool, trailers: bool)

  function OutsideOf(st: State): Outside {
    Outside(st.t.client, st.t.opens, st.w.given, st.s.downstreamReset, st.w.reqData, st.w.reqTrailers)
  }

  predicate SameRequest(st: State, st': State) {
    && st'.w.given == st.w.given && st'.s.downstreamReset == st.s.downstreamReset
    && st'.w.reqData == st.w.reqData && st'.w.reqTrailers == st.w.reqTrailers
  }

  /** Streams opened and blocks sent to the client. */
  function Moves(t: Trace): nat { t.opens + |t.client| }

  lemma PushCleans(c: Config, st: State, part: Part)
    requires !st.pc.Cleaning?
    ensures var st' := PushClient(c, st, part);
            && (st'.pc.Cleaning? <==> part.end) && (part.end <==> Ended(st.t, st'.t))
            && Moves(st'.t) == Moves(st.t) + 1 && (!part.end ==> st'.pc == st.pc) && SameRequest(st, st')
  {}

  /** Nothing is sent to the client, nothing is opened, and neither is about to happen. */
  predicate Calm(o: Outside, st': State) {
    OutsideOf(st') == o && !st'.pc.Cleaning? && Extra(st'.pc) == 0
  }

  /** Nothing stops a worker any more that is at the second load of processDone. */
  function Extra(pc: Pc): nat { if pc.Gated? && pc.second then 1 else 0 }

  lemma RestIsCalm(st: State, g: Gate)
    ensures Calm(OutsideOf(st), RetryRest(st, g))
  {}

  lemma ShutIsCalm(st: State, g: Gate)
    ensures var st' := GateShut(st, g);
            && st'.t == st.t && Extra(st'.pc) == 0 && SameRequest(st, st')
            && (st'.pc.Cleaning? <==> (g.SendData? || g.SendTrailers?) && st.w.processDone)
  {}

  lemma BlockDoesNotClean(c: Config, st: State, g: Gate, part: Part, ch: Choice)
    requires g.SendData? || g.SendTrailers? || g.RetryData? || g.RetryTrailers?
    requires part == if g.SendData? || g.RetryData? then Part(Data, !st.w.reqTrailers) else Part(Trailers, true)
    ensures Calm(OutsideOf(st), GatePassed(c, st, g, ch))
  {
    hide RetryRest, PushUpstream;
    PushKeepsRequest(st.w, part);
    RestIsCalm(st.(w := PushUpstream(st.w, part)), g);
  }

  lemma SendDoesNotClean(c: Config, st: State, g: Gate, ch: Choice)
    requires st.pc.Gated? && !g.ReplyHeaders? && !g.ReplyData? && !g.ReplyTrailers?
    ensures var st' := GatePassed(c, st, g, ch);
            && !st'.pc.Cleaning? && st'.t.client == st.t.client && st'.t.opens + Extra(st'.pc) <= st.t.opens + 1
            && SameRequest(st, st')
  {
    hide RetryRest, PushUpstream;
    match g
    case SendData | RetryData => BlockDoesNotClean(c, st, g, Part(Data, !st.w.reqTrailers), ch);
    case SendTrailers | RetryTrailers => BlockDoesNotClean(c, st, g, Part(Trailers, true), ch);
    case _ =>
  }

  lemma HeadersClean(c: Config, st: State, end: bool, ch: Choice)
    requires st.pc.Gated?
    ensures var st' := OnUpstreamHeaders(c, st, end, ch);
            st'.pc.Cleaning? <==> Ended(st.t, st'.t)
  {
    hide PushClient, MayRetry, UseRetry, CauseOf;
    PushCleans(c, Check(st.(w := st.w.(retry := UseRetry(st.w.retry), started := true))), Part(Headers, end));
  }

  lemma PassCleans(c: Config, st: State, g: Gate, ch: Choice)
    requires st.pc.Gated?
    ensures var st' := GatePassed(c, st, g, ch);
            st'.pc.Cleaning? <==> Ended(st.t, st'.t)
  {
    hide PushClient, OnUpstreamHeaders;
    match g
    case ReplyHeaders(end) => HeadersClean(c, st, end, ch);
    case ReplyData(end) => PushCleans(c, Check(st), Part(Data, end));
    case ReplyTrailers => PushCleans(c, Check(st), Part(Trailers, true));
    case _ => SendDoesNotClean(c, st, g, ch);
  }

  lemma GateCleans(c: Config, st: State, g: Gate, second: bool, ch: Choice)
    requires st.pc == Gated(g, second)
    ensures var st' := GateStep(c, st, g, second, ch);
            st'.pc.Cleaning? <==> Cleans(c, st, ch, st')
  {
    hide GateShut, GatePassed;
    ShutIsCalm(st, g);
    PassCleans(c, st, g, ch);
    if second && !st.s.upstreamReset && (g.SendData? || g.SendTrailers?) {
      SendDoesNotClean(c, st, g, ch);
    }
  }

  lemma EnterFrontIsCalm(c: Config, st: State, ch: Choice)
    requires st.w.phase == MatchRoute || st.w.phase == DownRecvHeader
    ensures Calm(OutsideOf(st), EnterStep(c, st, ch))
  {}

  lemma EnterChooseIsCalm(c: Config, st: State, ch: Choice)
    requires st.w.phase == ChooseHost
    ensures Calm(OutsideOf(st), EnterStep(c, st, ch))
  {}

  lemma EnterRetryIsCalm(c: Config, st: State, ch: Choice)
    requires st.w.phase == Retry
    ensures Calm(OutsideOf(st), EnterStep(c, st, ch))
  {
    hide TryOf, Calm, OutsideOf;
    if ch.Host? && st.w.upstream.Upstream? {
      AgainIsCalm(st);
    } else {
      HijackIsCalm(st);
    }
  }

  lemma AgainIsCalm(st: State)
    ensures Calm(OutsideOf(st), st.(pc := Gated(RetryHeaders, false), s := st.s.(reuse := false),
              w := st.w.(upstream := UNSENT), t := st.t.(pastTries := st.t.pastTries + [TryOf(st.w)])))
  {
    hide TryOf;
  }

  lemma HijackIsCalm(st: State)
    ensures Calm(OutsideOf(st), Check(st.(s := SendHijack(st.s, false))))
  {}

  lemma EnterSendIsCalm(c: Config, st: State, ch: Choice)
    requires st.w.phase == DownRecvData || st.w.phase == DownRecvTrailer || st.w.phase == WaitNotify
             || (st.w.phase == Oneway && !c.oneway)
    ensures Calm(OutsideOf(st), EnterStep(c, st, ch))
  {}

  lemma EnterReplyIsCalm(c: Config, st: State, ch: Choice)
    requires st.w.phase == UpRecvHeader || st.w.phase == UpRecvData || st.w.phase == UpRecvTrailer
             || st.w.phase == End
    ensures Calm(OutsideOf(st), EnterStep(c, st, ch))
  {}

  lemma EnterFilterIsCalm(c: Config, st: State, ch: Choice)
    requires st.w.phase == InitPhase || FilterPhase(st.w.phase)
    ensures Calm(OutsideOf(st), EnterStep(c, st, ch))
  {}

  lemma EnterIsCalm(c: Config, st: State, ch: Choice)
    requires !(st.w.phase == Oneway && c.oneway)
    ensures Calm(OutsideOf(st), EnterStep(c, st, ch))
  {
    hide Calm, EnterStep;
    if st.w.phase == MatchRoute || st.w.phase == DownRecvHeader {
      EnterFrontIsCalm(c, st, ch);
    } else if st.w.phase == ChooseHost {
      EnterChooseIsCalm(c, st, ch);
    } else if st.w.phase == Retry {
      EnterRetryIsCalm(c, st, ch);
    } else if st.w.phase == UpRecvHeader || st.w.phase == UpRecvData || st.w.phase == UpRecvTrailer
              || st.w.phase == End {
      EnterReplyIsCalm(c, st, ch);
    } else if st.w.phase == InitPhase || FilterPhase(st.w.phase) {
      EnterFilterIsCalm(c, st, ch);
    } else {
      EnterSendIsCalm(c, st, ch);
    }
  }

  lemma EnterCleans(c: Config, st: State, ch: Choice)
    ensures var st' := EnterStep(c, st, ch);
            && (st'.pc.Cleaning? <==> st.w.phase == Oneway && c.oneway)
            && OutsideOf(st') == OutsideOf(st) && Extra(st'.pc) == 0
  {
    if !(st.w.phase == Oneway && c.oneway) {
      hide EnterStep;
      EnterIsCalm(c, st, ch);
    }
  }

  lemma FilterCleans(c: Config, st: State, ch: Choice)
    requires st.pc.Filtering?
    ensures var st' := FilterStep(c, st, ch);
            st'.pc.Cleaning? <==> ch.Terminated? || Ended(st.t, st'.t)
  {
    hide PushClient;
    if ch.Append? {
      PushCleans(c, st, ch.part);
    }
  }

  lemma OpenIsCalm(st: State, ch: Choice)
    ensures Calm(OutsideOf(st), OpenStep(st, ch))
  {
    hide GateShut, RetryRest;
    ShutIsCalm(PoolAnswer(st, ch), SendHeaders);
    RestIsCalm(PoolAnswer(st, ch), RetryHeaders);
  }

  lemma ResetIsQuiet(st: State, ch: Choice)
    ensures OutsideOf(OnUpstreamReset(st, ch)) == OutsideOf(st)
  {
    hide MayRetry, UseRetry, CauseOf, FailReset, SetupRetry;
    FailIsQuiet(st);
    FailIsQuiet(st.(w := st.w.(retry := UseRetry(st.w.retry))));
    SetupIsQuiet(st.(w := st.w.(retry := UseRetry(st.w.retry))), CauseOf(st.w.retry, st.s.resetReason, ch));
  }

  lemma FailIsQuiet(st: State)
    ensures OutsideOf(FailReset(st)) == OutsideOf(st)
  {}

  lemma SetupIsQuiet(st: State, cause: Cause)
    ensures OutsideOf(SetupRetry(st, cause)) == OutsideOf(st)
  {}

  lemma GotoIsCalm(st: State, p: Phase)
    ensures Calm(OutsideOf(st), Goto(st, p))
  {}

  lemma HaltIsCalm(st: State)
    ensures Calm(OutsideOf(st), st.(pc := Halted))
  {}

  lemma MoveIsCalm(st: State, p: Phase)
    ensures Calm(OutsideOf(st), Leave(st, p)) && Calm(OutsideOf(st), Advance(st))
  {
    hide Goto, Next, Calm;
    HaltIsCalm(st);
    GotoIsCalm(st.(t := st.t.(passes := st.t.passes + 1), s := st.s.(token := false)), p);
    GotoIsCalm(st.(w := st.w.(upstream := UNSENT)), UpRecvHeader);
    GotoIsCalm(st, Next(st.w.phase));
  }

  lemma DecideIsCalm(c: Config, st: State, exit: bool)
    ensures Calm(OutsideOf(st), Decide(c, st, exit))
  {
    hide Goto, Leave, Advance, Calm;
    var w := st.w;
    var st' := st.(w := w.(retry := NoRetry), s := st.s.(direct := false));
    MoveIsCalm(st', Oneway);
    MoveIsCalm(st', UpFilter);
    MoveIsCalm(st', End);
    MoveIsCalm(st'.(t := st.t.(lateHijack := st.t.lateHijack || w.again != InitPhase)), End);
    MoveIsCalm(st, Retry);
    MoveIsCalm(st.(w := w.(again := InitPhase)), w.again);
    MoveIsCalm(st, End);
  }

  lemma LoadCleans(c: Config, st: State, k: nat, exit: bool, ch: Choice)
    requires st.pc == Checking(k, exit) && (k == 0 || k == 1 || k == 3)
    ensures var st' := CheckStep(c, st, k, exit, ch);
            && (st'.pc.Cleaning? <==> k == 3 && st.s.downstreamReset)
            && OutsideOf(st') == OutsideOf(st) && Extra(st'.pc) == 0
  {
    hide OnUpstreamReset, Decide, Leave;
    MoveIsCalm(st, End);
  }

  lemma ResetLoadIsCalm(c: Config, st: State, exit: bool, ch: Choice)
    requires st.pc == Checking(2, exit)
    ensures Calm(OutsideOf(st), CheckStep(c, st, 2, exit, ch))
  {
    hide OnUpstreamReset, Decide, Leave;
    MoveIsCalm(st, Oneway);
    ResetIsQuiet(st, ch);
  }

  lemma CheckCleans(c: Config, st: State, k: nat, exit: bool, ch: Choice)
    requires st.pc == Checking(k, exit)
    ensures var st' := CheckStep(c, st, k, exit, ch);
            && (st'.pc.Cleaning? <==> k == 3 && st.s.downstreamReset)
            && OutsideOf(st') == OutsideOf(st) && Extra(st'.pc) == 0
  {
    if k >= 4 {
      hide Decide;
      DecideIsCalm(c, st, exit);
    } else if k == 2 {
      hide CheckStep;
      ResetLoadIsCalm(c, st, exit, ch);
    } else {
      hide CheckStep;
      LoadCleans(c, st, k, exit, ch);
    }
  }

  /** The worker begins to clean the stream exactly in these cases. */
  lemma CleansExactly(c: Config, st: State, ch: Choice)
    requires !st.pc.Cleaning?
    ensures var st' := Step(c, st, Work(ch));
            st'.pc.Cleaning? <==> Cleans(c, st, ch, st')
  {
    hide EnterStep, FilterStep, GateStep, OpenStep, CheckStep;
    match st.pc
    case Enter => EnterCleans(c, st, ch);
    case Filtering => FilterCleans(c, st, ch);
    case Gated(g, second) => GateCleans(c, st, g, second, ch);
    case Opening => OpenIsCalm(st, ch);
    case Checking(k, exit) => CheckCleans(c, st, k, exit, ch);
    case _ =>
  }

  // ---- after the client has reset ----

  predicate NoFurther(st: State, st': State) {
    && Moves(st'.t) + Extra(st'.pc) <= Moves(st.t) + Extra(st.pc)
    && (ResetStands(st) ==> ResetStands(st'))
  }

  lemma HeadersMoveOnce(c: Config, st: State, end: bool, ch: Choice)
    ensures var st' := OnUpstreamHeaders(c, st, end, ch);
            Moves(st'.t) <= Moves(st.t) + 1 && Extra(st'.pc) == 0 && SameRequest(st, st')
  {
    hide PushClient, MayRetry, UseRetry, CauseOf, SetupRetry;
    PushCleans(c, Check(st.(w := st.w.(retry := UseRetry(st.w.retry), started := true))), Part(Headers, end));
    SetupIsQuiet(st.(w := st.w.(retry := UseRetry(st.w.retry))), CauseOf(st.w.retry, NoReason, ch));
  }

  lemma PassMovesOnce(c: Config, st: State, g: Gate, ch: Choice)
    requires st.pc == Gated(g, true)
    ensures NoFurther(st, GatePassed(c, st, g, ch))
  {
    hide PushClient, OnUpstreamHeaders;
    match g
    case ReplyHeaders(end) => HeadersMoveOnce(c, st, end, ch);
    case ReplyData(end) => PushCleans(c, Check(st), Part(Data, end));
    case ReplyTrailers => PushCleans(c, Check(st), Part(Trailers, true));
    case _ => SendDoesNotClean(c, st, g, ch);
  }

  lemma GateGoesNoFurther(c: Config, st: State, g: Gate, second: bool, ch: Choice)
    requires st.pc == Gated(g, second) && st.s.downstreamReset
    ensures NoFurther(st, GateStep(c, st, g, second, ch))
  {
    hide GateShut, GatePassed;
    ShutIsCalm(st, g);
    if second {
      PassMovesOnce(c, st, g, ch);
    }
  }

  lemma FilterGoesNoFurther(c: Config, st: State, ch: Choice)
    requires !c.lateWrites && st.pc.Filtering?
    ensures NoFurther(st, FilterStep(c, st, ch))
  {}

  lemma CleanGoesNoFurther(c: Config, st: State, k: nat, toEnd: bool)
    ensures NoFurther(st, CleanStep(c, st, k, toEnd))
  {}

  lemma StepGoesNoFurther(c: Config, st: State, a: Action)
    requires !c.lateWrites && (st.pc.Gated? ==> st.s.downstreamReset) && Enabled(c, st, a)
    ensures NoFurther(st, Step(c, st, a))
  {
    hide EnterStep, FilterStep, GateStep, OpenStep, CheckStep, CleanStep;
    if a.Work? {
      var ch := a.choice;
      match st.pc
      case Enter => EnterCleans(c, st, ch);
      case Filtering => FilterGoesNoFurther(c, st, ch);
      case Gated(g, second) => GateGoesNoFurther(c, st, g, second, ch);
      case Opening => OpenIsCalm(st, ch);
      case Checking(k, exit) => CheckCleans(c, st, k, exit, ch);
      case Cleaning(k, toEnd) => CleanGoesNoFurther(c, st, k, toEnd);
      case _ =>
    }
  }

  lemma GatesAreNotGiven(c: Config, st: State)
    requires Inv(c, st) && st.pc.Gated?
    ensures !st.w.given
  {
    hide Core, InPhase, AtGate;
  }

  lemma FurtherStill(st: State, st': State, st'': State)
    requires NoFurther(st, st') && NoFurther(st', st'')
    ensures NoFurther(st, st'')
  {}

  lemma {:induction false} RunGoesNoFurther(c: Config, st: State, acts: seq<Action>, st': State)
    requires !c.lateWrites && Inv(c, st) && ResetStands(st) && Reaches(c, st, acts, st')
    ensures NoFurther(st, st')
    decreases |acts|
  {
    hide Inv, Enabled, Step;
    if acts != [] {
      var next := Step(c, st, acts[0]);
      if st.pc.Gated? {
        GatesAreNotGiven(c, st);
      }
      StepKeepsInv(c, st, acts[0]);
      StepGoesNoFurther(c, st, acts[0]);
      RunGoesNoFurther(c, next, acts[1..], st');
      FurtherStill(st, next, st');
    }
  }

  /** In every run without late writes, once the client has reset its stream, the worker opens at most
      one more upstream stream or sends at most one more block to the client, and that only if it was
      past the check of the client's reset already. */
  lemma ClientResetStopsWork(c: Config, reqData: bool, reqTrailers: bool, before: seq<Action>, st: State,
                             after: seq<Action>, st': State)
    requires !c.lateWrites && Reaches(c, Initial(reqData, reqTrailers), before, st)
    requires ResetStands(st) && Reaches(c, st, after, st')
    ensures Moves(st'.t) <= Moves(st.t) + (if st.pc.Gated? && st.pc.second then 1 else 0)
  {
    hide Reaches, Inv;
    InitialInv(c, reqData, reqTrailers);
    RunKeepsInv(c, Initial(reqData, reqTrailers), before, st);
    RunGoesNoFurther(c, st, after, st');
  }
}
