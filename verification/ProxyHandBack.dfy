/** When the object of a stream goes back to the pool. */
module ProxyHandBack {
  import opened ProxyRequest
  import opened ProxySafety
  import opened ProxyEnding
  import opened ProxyWholeReply

  /** The request had been received whole, and the last block of the reply was sent. */
  predicate Served(c: Config, w: Worker, t: Trace) {
    c.oneway || (w.recvDone && t.client != [] && t.client[|t.client| - 1].end)
  }

  /** giveStream has seen the reuse flag. */
  predicate FlagSeen(pc: Pc) { pc.Cleaning? && pc.k >= 2 }

  predicate HandBack(c: Config, st: State) {
    && (st.w.given || st.s.reuse || FlagSeen(st.pc) ==> st.t.pastTries == [])
    && (st.pc.Cleaning? && st.pc.toEnd ==> st.s.downstreamReset)
    && (Regular(c, st.t) && st.pc.Cleaning? && !st.pc.toEnd && (st.s.reuse || FlagSeen(st.pc)) ==>
          Served(c, st.w, st.t))
    && (Regular(c, st.t) && st.w.given ==> Served(c, st.w, st.t))
  }

  /** The flag is not raised again, and stays up only if the current try is still the first. */
  predicate Sparing(st: State, st': State) {
    st'.s.reuse ==> st.s.reuse && st'.t.pastTries == st.t.pastTries
  }

  /** A step of a worker that holds the object and does not begin to clean. */
  lemma SparingKeeps(c: Config, st: State, st': State)
    requires HandBack(c, st) && Sparing(st, st') && !st'.w.given && !st'.pc.Cleaning?
    ensures HandBack(c, st')
  {}

  // ---- one step ----

  lemma EnterFrontSpares(c: Config, st: State, ch: Choice)
    requires st.w.phase == MatchRoute || st.w.phase == ChooseHost
    ensures Sparing(st, EnterStep(c, st, ch))
  {}

  /** A retry takes the flag away. */
  lemma EnterRetrySpares(c: Config, st: State, ch: Choice)
    requires st.w.phase == Retry
    ensures !EnterStep(c, st, ch).s.reuse
  {
    hide TryOf;
  }

  lemma EnterRestSpares(c: Config, st: State, ch: Choice)
    requires st.w.phase != MatchRoute && st.w.phase != ChooseHost && st.w.phase != Retry
    ensures Sparing(st, EnterStep(c, st, ch))
  {
    hide TryOf, SendHijack;
  }

  lemma EnterKeepsHandBack(c: Config, st: State, ch: Choice)
    requires HandBack(c, st) && st.pc.Enter? && !st.w.given
    ensures HandBack(c, EnterStep(c, st, ch))
  {
    if st.w.phase == Oneway && c.oneway {
      assert EnterStep(c, st, ch) == st.(pc := Cleaning(0, false));
    } else {
      hide EnterStep, HandBack;
      EnterCleans(c, st, ch);
      if st.w.phase == Retry {
        EnterRetrySpares(c, st, ch);
      } else if st.w.phase == MatchRoute || st.w.phase == ChooseHost {
        EnterFrontSpares(c, st, ch);
      } else {
        EnterRestSpares(c, st, ch);
      }
      SparingKeeps(c, st, EnterStep(c, st, ch));
    }
  }

  lemma FilterKeepsHandBack(c: Config, st: State, ch: Choice)
    requires HandBack(c, st) && st.pc.Filtering? && !st.w.given
    ensures HandBack(c, FilterStep(c, st, ch))
  {
    hide Served;
  }

  lemma RestSpares(st: State, g: Gate)
    ensures Sparing(st, RetryRest(st, g)) && Sparing(st, GateShut(st, g))
  {}

  lemma SendSpares(c: Config, st: State, g: Gate, ch: Choice)
    requires !g.ReplyHeaders? && !g.ReplyData? && !g.ReplyTrailers?
    ensures Sparing(st, GatePassed(c, st, g, ch))
  {
    hide PushUpstream, RetryRest;
    match g
    case RetryData => RestSpares(st.(w := PushUpstream(st.w, Part(Data, !st.w.reqTrailers))), g);
    case RetryTrailers => RestSpares(st.(w := PushUpstream(st.w, Part(Trailers, true))), g);
    case _ => OtherSpares(c, st, g, ch);
  }

  lemma OtherSpares(c: Config, st: State, g: Gate, ch: Choice)
    requires !g.ReplyHeaders? && !g.ReplyData? && !g.ReplyTrailers? && !g.RetryData? && !g.RetryTrailers?
    ensures Sparing(st, GatePassed(c, st, g, ch))
  {
    hide PushUpstream;
  }

  lemma PushKeepsHandBack(c: Config, st: State, part: Part)
    requires HandBack(c, st) && !st.w.given && !st.pc.Cleaning?
    ensures HandBack(c, PushClient(c, st, part))
  {}

  lemma HeadersKeepHandBack(c: Config, st: State, end: bool, ch: Choice)
    requires HandBack(c, st) && st.pc.Gated? && !st.w.given
    ensures HandBack(c, OnUpstreamHeaders(c, st, end, ch))
  {
    hide PushClient, MayRetry, UseRetry, CauseOf, HandBack, SetupRetry;
    var w := st.w.(retry := UseRetry(st.w.retry));
    WorkerKeepsHandBack(c, st, w.(started := true));
    PushKeepsHandBack(c, Check(st.(w := w.(started := true))), Part(Headers, end));
    WorkerKeepsHandBack(c, st, w);
    SetupKeepsHandBack(c, st.(w := w), CauseOf(st.w.retry, NoReason, ch));
  }

  lemma WorkerKeepsHandBack(c: Config, st: State, w: Worker)
    requires HandBack(c, st) && !st.w.given && !w.given && !st.pc.Cleaning?
    ensures HandBack(c, st.(w := w)) && HandBack(c, Check(st.(w := w)))
  {}

  lemma SetupKeepsHandBack(c: Config, st: State, cause: Cause)
    requires HandBack(c, st) && !st.w.given && !st.pc.Cleaning?
    ensures HandBack(c, SetupRetry(st, cause)) && HandBack(c, Check(SetupRetry(st, cause)))
  {}

  lemma PassKeepsHandBack(c: Config, st: State, g: Gate, ch: Choice)
    requires HandBack(c, st) && st.pc.Gated? && !st.w.given
    ensures HandBack(c, GatePassed(c, st, g, ch))
  {
    hide PushClient, OnUpstreamHeaders, HandBack, Sparing;
    WorkerKeepsHandBack(c, st, st.w);
    match g
    case ReplyHeaders(end) => HeadersKeepHandBack(c, st, end, ch);
    case ReplyData(end) => PushKeepsHandBack(c, Check(st), Part(Data, end));
    case ReplyTrailers => PushKeepsHandBack(c, Check(st), Part(Trailers, true));
    case _ =>
      SendDoesNotClean(c, st, g, ch);
      SendSpares(c, st, g, ch);
      SparingKeeps(c, st, GatePassed(c, st, g, ch));
  }

  /** A request body that comes after the request is over: not in a regular run. */
  lemma BodyIsInTime(c: Config, st: State)
    requires Inv(c, st) && DoneIsAnswered(c, st) && st.pc.Gated? && (st.pc.gate.SendData? || st.pc.gate.SendTrailers?)
    requires Regular(c, st.t)
    ensures !st.w.processDone
  {
    hide TriesOk, WellFormedReply, Used, Sending;
  }

  lemma ShutKeepsHandBack(c: Config, st: State, g: Gate)
    requires HandBack(c, st) && st.pc.Gated? && !st.w.given
    requires (g.SendData? || g.SendTrailers?) && Regular(c, st.t) ==> !st.w.processDone
    ensures HandBack(c, GateShut(st, g))
  {
    hide GateShut, Served;
    ShutIsCalm(st, g);
    RestSpares(st, g);
    ShutIsFirst(st, g);
  }

  lemma ShutIsFirst(st: State, g: Gate)
    ensures GateShut(st, g).pc.Cleaning? ==> GateShut(st, g).pc == Cleaning(0, false)
  {}

  lemma GateKeepsHandBack(c: Config, st: State, g: Gate, second: bool, ch: Choice)
    requires Inv(c, st) && DoneIsAnswered(c, st) && HandBack(c, st) && st.pc == Gated(g, second)
    ensures HandBack(c, GateStep(c, st, g, second, ch))
  {
    hide Inv, DoneIsAnswered, HandBack, GateShut, GatePassed;
    GatesAreNotGiven(c, st);
    if (g.SendData? || g.SendTrailers?) && Regular(c, st.t) {
      BodyIsInTime(c, st);
    }
    ShutKeepsHandBack(c, st, g);
    PassKeepsHandBack(c, st, g, ch);
    SparingKeepsPc(c, st, Gated(g, true));
  }

  lemma SparingKeepsPc(c: Config, st: State, pc: Pc)
    requires HandBack(c, st) && !st.w.given && !pc.Cleaning?
    ensures HandBack(c, st.(pc := pc))
  {}

  lemma OpenSpares(st: State, ch: Choice)
    ensures Sparing(st, OpenStep(st, ch))
  {
    hide RetryRest, GateShut;
    RestSpares(PoolAnswer(st, ch), RetryHeaders);
    RestSpares(PoolAnswer(st, ch), SendHeaders);
  }

  lemma ResetSpares(st: State, ch: Choice)
    ensures Sparing(st, OnUpstreamReset(st, ch))
  {
    hide MayRetry, UseRetry, CauseOf;
  }

  lemma MoveSpares(st: State, p: Phase)
    ensures Sparing(st, Leave(st, p)) && Sparing(st, Advance(st))
  {}

  lemma DecideSpares(c: Config, st: State, exit: bool)
    ensures Sparing(st, Decide(c, st, exit))
  {
    hide Goto, Leave, Advance;
    var w := st.w;
    var st' := st.(w := w.(retry := NoRetry), s := st.s.(direct := false));
    MoveSpares(st', Oneway);
    MoveSpares(st', UpFilter);
    MoveSpares(st', End);
    MoveSpares(st'.(t := st.t.(lateHijack := st.t.lateHijack || w.again != InitPhase)), End);
    MoveSpares(st, Retry);
    MoveSpares(st.(w := w.(again := InitPhase)), w.again);
    MoveSpares(st, End);
  }

  lemma CheckSpares(c: Config, st: State, k: nat, exit: bool, ch: Choice)
    ensures Sparing(st, CheckStep(c, st, k, exit, ch))
  {
    hide OnUpstreamReset, Decide, Leave;
    ResetSpares(st, ch);
    DecideSpares(c, st, exit);
    MoveSpares(st, End);
    MoveSpares(st, Oneway);
  }

  lemma CheckKeepsHandBack(c: Config, st: State, k: nat, exit: bool, ch: Choice)
    requires HandBack(c, st) && st.pc == Checking(k, exit) && (st.w.given ==> k == 0 && !st.s.mine)
    ensures HandBack(c, CheckStep(c, st, k, exit, ch))
  {
    if st.w.given || (k == 3 && st.s.downstreamReset) {
      hide OnUpstreamReset, Decide, Served;
    } else {
      hide CheckStep, HandBack, Sparing;
      CheckCleans(c, st, k, exit, ch);
      CheckSpares(c, st, k, exit, ch);
      SparingKeeps(c, st, CheckStep(c, st, k, exit, ch));
    }
  }

  lemma CleanKeepsHandBack(c: Config, st: State, k: nat, toEnd: bool)
    requires HandBack(c, st) && st.pc == Cleaning(k, toEnd) && !st.w.given
    ensures HandBack(c, CleanStep(c, st, k, toEnd))
  {}

  lemma OthersKeepHandBack(c: Config, st: State, s': Shared)
    requires HandBack(c, st) && Rely(c, st, s') && (st.pc.Cleaning? ==> !st.w.given)
    ensures HandBack(c, st.(s := s'))
  {
    hide Served;
  }

  /** What the safety of a run says about an object that was handed back. */
  lemma GivenFacts(c: Config, st: State)
    requires Inv(c, st) && st.w.given
    ensures st.t.cleans == 1 && !st.s.mine
    ensures st.pc.Halted? || (st.pc.Checking? && st.pc.k == 0)
  {
    hide TriesOk, WellFormedReply, Used, InPhase, AtGate, AtEntry;
  }

  lemma StepKeepsHandBack(c: Config, st: State, a: Action)
    requires Inv(c, st) && DoneIsAnswered(c, st) && HandBack(c, st) && Enabled(c, st, a)
    ensures HandBack(c, Step(c, st, a))
  {
    hide Inv, DoneIsAnswered, HandBack, EnterStep, FilterStep, ReadStep, GateStep, OpenStep, CheckStep, CleanStep, Rely;
    if st.w.given {
      GivenFacts(c, st);
    }
    match a
    case Others(s') => OthersKeepHandBack(c, st, s');
    case Work(ch) =>
      match st.pc
      case Enter => EnterKeepsHandBack(c, st, ch);
      case Filtering => FilterKeepsHandBack(c, st, ch);
      case Reading | ReadingTrailers => ReadSpares(st); SparingKeeps(c, st, ReadStep(st));
      case Gated(g, second) => GateKeepsHandBack(c, st, g, second, ch);
      case Opening => OpenIsCalm(st, ch); OpenSpares(st, ch); SparingKeeps(c, st, OpenStep(st, ch));
      case Checking(k, exit) => CheckKeepsHandBack(c, st, k, exit, ch);
      case Cleaning(k, toEnd) => CleanKeepsHandBack(c, st, k, toEnd);
      case Halted =>
  }

  lemma ReadSpares(st: State)
    ensures Sparing(st, ReadStep(st)) && ReadStep(st).w.given == st.w.given && !ReadStep(st).pc.Cleaning?
  {}

  lemma {:induction false} RunKeepsHandBack(c: Config, st: State, acts: seq<Action>, st': State)
    requires Inv(c, st) && DoneIsAnswered(c, st) && HandBack(c, st) && Reaches(c, st, acts, st')
    ensures Inv(c, st') && HandBack(c, st')
    decreases |acts|
  {
    hide Inv, DoneIsAnswered, HandBack, Enabled, Step;
    if acts != [] {
      StepKeepsInv(c, st, acts[0]);
      StepKeepsDone(c, st, acts[0]);
      StepKeepsHandBack(c, st, acts[0]);
      RunKeepsHandBack(c, Step(c, st, acts[0]), acts[1..], st');
    }
  }

  /** In every run, an object that went back to the pool had been counted out, and its request had been
      tried once at most. In a regular run the request had been received whole and the reply had been
      sent to its last block, unless the request wants no reply. */
  lemma HandedBackOnlyWhenServed(c: Config, reqData: bool, reqTrailers: bool, acts: seq<Action>, st: State)
    requires Reaches(c, Initial(reqData, reqTrailers), acts, st) && st.w.given
    ensures st.t.cleans == 1 && st.t.pastTries == []
    ensures Regular(c, st.t) && !c.oneway ==>
              st.w.recvDone && st.t.client != [] && st.t.client[|st.t.client| - 1].end
  {
    hide Reaches, Inv, DoneIsAnswered;
    InitialIsDone(c, reqData, reqTrailers);
    RunKeepsHandBack(c, Initial(reqData, reqTrailers), acts, st);
    GivenFacts(c, st);
  }

  /** The worker is past cleanStream, and has kept the object. */
  predicate Through(st: State) {
    !st.w.given && (st.pc.Halted? || st.pc == Checking(0, false) || st.pc == Checking(1, false))
  }

  lemma ThroughGivesNothing(c: Config, st: State, ch: Choice)
    requires Through(st)
    ensures !WorkStep(c, st, ch).w.given
    ensures st.pc != Checking(1, false) ==> Through(WorkStep(c, st, ch))
  {
    hide OnUpstreamReset, Decide;
  }

  lemma DoneIsThrough(st: State, toEnd: bool)
    requires !st.w.given
    ensures Through(CleanDone(st, toEnd)) && CleanDone(st, toEnd).pc != Checking(1, false)
  {}

  lemma CleanAlone(c: Config, st: State, k: nat, toEnd: bool, ch: Choice)
    requires st.pc == Cleaning(k, toEnd) && k > 0
    ensures WorkStep(c, st, ch) == CleanStep(c, st, k, toEnd)
  {
    hide CleanStep;
  }

  /** Left alone once the stream is counted out, the worker hands the object back exactly if its flag is
      up and neither side has reset. */
  lemma HandedBackExactly(c: Config, st: State, toEnd: bool, ch: Choice)
    requires st.pc == Cleaning(1, toEnd) && !st.w.given
    ensures WorkStep(c, WorkStep(c, WorkStep(c, st, ch), ch), ch).w.given <==>
            st.s.reuse && !st.s.upstreamReset && !st.s.downstreamReset
  {
    hide WorkStep, CleanDone, Through;
    CleanAlone(c, st, 1, toEnd, ch);
    var second, third := st.(pc := Cleaning(2, toEnd)), st.(pc := Cleaning(3, toEnd));
    CleanAlone(c, second, 2, toEnd, ch);
    CleanAlone(c, third, 3, toEnd, ch);
    DoneIsThrough(st, toEnd);
    DoneIsThrough(second, toEnd);
    DoneIsThrough(third, toEnd);
    GivenIsDone(third, toEnd);
    if !st.s.reuse {
      ThroughGivesNothing(c, CleanDone(st, toEnd), ch);
      ThroughGivesNothing(c, WorkStep(c, CleanDone(st, toEnd), ch), ch);
    } else if st.s.upstreamReset {
      ThroughGivesNothing(c, CleanDone(second, toEnd), ch);
    } else if st.s.downstreamReset {
      NotGiven(CleanDone(third, toEnd));
    }
  }

  lemma NotGiven(st: State)
    requires Through(st)
    ensures !st.w.given
  {}

  lemma GivenIsDone(st: State, toEnd: bool)
    ensures CleanDone(st.(w := st.w.(given := true), s := st.s.(mine := false)), toEnd).w.given
  {}
}
