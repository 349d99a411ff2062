/** Building concrete runs of the request machine, one step at a time. */
module ProxyRuns {
  import opened ProxyRequest

  const PLAIN := Config(false, false, false)
  const GAPPY := Config(false, false, true)

  ghost predicate Reachable(c: Config, st: State) {
    exists acts: seq<Action> :: Reaches(c, Initial(false, false), acts, st)
  }

  lemma {:induction false} ReachesOneMore(c: Config, st: State, acts: seq<Action>, st': State, a: Action)
    requires Reaches(c, st, acts, st') && Enabled(c, st', a)
    ensures Reaches(c, st, acts + [a], Step(c, st', a))
    decreases |acts|
  {
    hide Step, Enabled;
    if acts == [] {
      assert [a][1..] == [];
    } else {
      ReachesOneMore(c, Step(c, st, acts[0]), acts[1..], st', a);
      assert (acts + [a])[1..] == acts[1..] + [a];
    }
  }

  lemma ReachesInOne(c: Config, st: State, a: Action)
    requires Enabled(c, st, a)
    ensures Reaches(c, st, [a], Step(c, st, a))
  {
    hide Step, Enabled;
    assert [a][1..] == [];
  }

  lemma GoBy(c: Config, st: State, a: Action) returns (st': State)
    requires Reachable(c, st) && Enabled(c, st, a)
    ensures st' == Step(c, st, a) && Reachable(c, st')
  {
    hide Step, Enabled;
    st' := Step(c, st, a);
    var acts: seq<Action> :| Reaches(c, Initial(false, false), acts, st);
    ReachesOneMore(c, Initial(false, false), acts, st, a);
  }

  /** One more step of the worker, where it does not wait. */
  lemma Go(c: Config, st: State, ch: Choice) returns (st': State)
    requires Reachable(c, st) && !st.pc.Halted? && st.w.phase != WaitNotify
    ensures st' == WorkStep(c, st, ch) && Reachable(c, st')
  {
    hide Reachable, WorkStep;
    st' := GoBy(c, st, Work(ch));
  }

  /** The others change the shared fields. */
  lemma GoOthers(c: Config, st: State, s': Shared) returns (st': State)
    requires Reachable(c, st) && Rely(c, st, s')
    ensures st' == st.(s := s') && Reachable(c, st')
  {
    hide Reachable;
    st' := GoBy(c, st, Others(s'));
  }

  /** No reset has been raised and nothing is queued. */
  predicate Undisturbed(s: Shared) {
    s.mine && !s.cleaned && !s.upstreamReset && !s.downstreamReset && !s.direct
  }

  /** processError when no reset has been raised. */
  lemma GoCheck(c: Config, st: State) returns (st': State)
    requires Reachable(c, st) && st.pc == Checking(0, false)
    requires st.s.mine && !st.s.cleaned && !st.s.upstreamReset && !st.s.downstreamReset
    ensures st' == Decide(c, st.(pc := Checking(4, false)), false) && Reachable(c, st')
  {
    hide Reachable, Decide;
    st' := GoBy(c, st, Work(Proceed));
    st' := GoBy(c, st', Work(Proceed));
    st' := GoBy(c, st', Work(Proceed));
    st' := GoBy(c, st', Work(Proceed));
    st' := GoBy(c, st', Work(Proceed));
  }

  /** processError when there is nothing to leave for. */
  lemma GoOn(c: Config, st: State) returns (st': State)
    requires Reachable(c, st) && st.pc == Checking(0, false) && Undisturbed(st.s)
    requires !Pending(st.w) && st.w.again == InitPhase && !st.w.processDone
    ensures st' == Advance(st) && Reachable(c, st')
  {
    hide Reachable;
    st' := GoCheck(c, st);
  }

  /** A filter chain that has nothing to say. */
  lemma GoFilter(c: Config, st: State) returns (st': State)
    requires Reachable(c, st) && st.pc == Enter && Undisturbed(st.s)
    requires st.w.phase in {DownFilter, DownFilterAfterRoute, DownFilterAfterChooseHost, UpFilter}
    requires !Pending(st.w) && st.w.again == InitPhase && !st.w.processDone
    ensures st' == Advance(st) && Reachable(c, st')
  {
    hide Reachable, Advance;
    st' := Go(c, st, Proceed);
    st' := Go(c, st', Proceed);
    st' := GoOn(c, st');
    AdvanceFrom(st, Checking(0, false));
  }

  lemma AdvanceFrom(st: State, pc: Pc)
    requires st.w.phase != UpRecvTrailer && st.w.phase != End
    ensures Advance(st.(pc := pc)) == Advance(st)
  {}

  /** A worker without a reply yet. */
  function Fresh(pc: Pc, phase: Phase, again: Phase, upstream: Upstream, started: bool, s: Shared, t: Trace): State {
    State(pc, Worker(false, false, phase, again, upstream, NoRetry, started, false, false, false, false), s, t)
  }

  const QUIET := Shared(true, false, false, false, NoReason, false, false, false, false, false, true, false, 0)
  const HIJACKED := QUIET.(respHeaders := true, reuse := false)
  const NO_TRACE := Trace(0, [], [], [], 0, 0, 0, 1, false, false)

  lemma StartUp(c: Config) returns (st: State)
    ensures st == Initial(false, false) && Reachable(c, st)
  {
    st := Initial(false, false);
    assert Reaches(c, st, [], st);
  }

  lemma RouteMatched(c: Config)
    ensures Reachable(c, Fresh(Enter, DownFilterAfterRoute, InitPhase, NoUpstream, false, QUIET, NO_TRACE))
  {
    hide Reachable;
    var st := StartUp(c);
    st := Go(c, st, Proceed);
    st := GoFilter(c, st);
    st := Go(c, st, Proceed);
    st := GoOn(c, st);
  }

  /** From the filters after routing, with a host found, to the call of NewStream. */
  lemma GoOpen(c: Config, st: State, numRetries: nat) returns (st': State)
    requires Reachable(c, st) && st.pc == Enter && st.w.phase == DownFilterAfterRoute && Undisturbed(st.s)
    requires !Pending(st.w) && st.w.again == InitPhase && !st.w.processDone && !st.w.reqData && !st.w.reqTrailers
    ensures Reachable(c, st')
    ensures var budget := Max(DEFAULT_RETRIES, numRetries);
            st' == State(Opening,
                         st.w.(phase := DownRecvHeader, upstream := UNSENT.(sendComplete := true),
                               retry := RetryState(false, budget), recvDone := true),
                         st.s,
                         st.t.(budget := budget, firstSends := st.t.firstSends + 1, opens := st.t.opens + 1))
  {
    hide Reachable;
    st' := GoFilter(c, st);
    st' := Go(c, st', Host(false, numRetries));
    st' := GoOn(c, st');
    st' := GoFilter(c, st');
    st' := GoGate(c, st');
  }

  /** The first send, up to the call of NewStream. */
  lemma GoGate(c: Config, st: State) returns (st': State)
    requires Reachable(c, st) && st.pc == Enter && st.w.phase == DownRecvHeader && Undisturbed(st.s)
    requires st.w.upstream.Upstream? && !st.w.processDone
    ensures Reachable(c, st')
    ensures st' == CallNewStream(st.(t := st.t.(firstSends := st.t.firstSends + 1)))
  {
    hide Reachable;
    st' := Go(c, st, Proceed);
    st' := Go(c, st', Proceed);
    st' := Go(c, st', Proceed);
  }

  const NO_ANSWER := Answer(NoStatus, true)
  const REFUSAL := Cause(false, NoStatus, ConnectionFailed)

  /** processError after a failed connection, with a retry left: the request goes round again. */
  lemma GoRetry(c: Config, st: State) returns (st': State)
    requires Reachable(c, st) && st.pc == Checking(0, false) && !c.oneway && st.w.upstream.Upstream? && !st.w.started
    requires st.s.mine && !st.s.cleaned && st.s.upstreamReset && !st.s.downstreamReset && !st.s.direct
    requires st.s.resetReason == ConnectionFailed && st.w.retry.RetryState? && !st.w.retry.retryOn
    requires st.w.retry.remaining > 0 && st.t.passes < MAX_PASSES
    ensures Reachable(c, st')
    ensures st' == State(Enter,
                         st.w.(phase := Retry, retry := st.w.retry.(remaining := st.w.retry.remaining - 1),
                               upstream := st.w.upstream.(setupRetry := true)),
                         st.s.(received := false, upstreamReset := false, token := false),
                         st.t.(passes := st.t.passes + 1, causes := st.t.causes + [REFUSAL]))
  {
    hide Reachable, OnUpstreamReset, Decide;
    st' := GoBy(c, st, Work(Proceed));
    st' := GoBy(c, st', Work(Proceed));
    RetryIsSetUp(st');
    st' := GoBy(c, st', Work(NO_ANSWER));
    st' := GoBy(c, st', Work(Proceed));
    RetryIsDecided(c, st');
    st' := GoBy(c, st', Work(Proceed));
  }

  lemma RetryIsSetUp(st: State)
    requires st.w.upstream.Upstream? && !st.w.started && st.s.resetReason == ConnectionFailed
    requires st.w.retry.RetryState? && !st.w.retry.retryOn && st.w.retry.remaining > 0
    ensures OnUpstreamReset(st, NO_ANSWER)
         == st.(w := st.w.(retry := st.w.retry.(remaining := st.w.retry.remaining - 1),
                           upstream := st.w.upstream.(setupRetry := true)),
                s := st.s.(received := false, upstreamReset := false),
                t := st.t.(causes := st.t.causes + [REFUSAL]))
  {}

  lemma RetryIsDecided(c: Config, st: State)
    requires Pending(st.w) && !st.s.direct && st.t.passes < MAX_PASSES
    ensures Decide(c, st, true)
         == st.(pc := Enter, w := st.w.(phase := Retry), s := st.s.(token := false),
                t := st.t.(passes := st.t.passes + 1))
  {}

  /** From a retry that is due to the call of NewStream. */
  lemma GoReopen(c: Config, st: State) returns (st': State)
    requires Reachable(c, st) && st.pc == Enter && st.w.phase == Retry && Undisturbed(st.s)
    requires st.w.upstream.Upstream? && !st.w.processDone && !st.w.reqData && !st.w.reqTrailers
    ensures Reachable(c, st')
    ensures st' == State(Opening,
                         st.w.(upstream := UNSENT.(sendComplete := true)),
                         st.s.(reuse := false),
                         st.t.(opens := st.t.opens + 1, pastTries := st.t.pastTries + [TryOf(st.w)]))
  {
    hide Reachable;
    st' := Go(c, st, Host(false, 0));
    st' := Go(c, st', Proceed);
    st' := Go(c, st', Proceed);
  }
}
