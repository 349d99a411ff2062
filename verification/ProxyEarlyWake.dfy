/**
 What goes wrong when a goroutine is held up between raising the upstream reset and sending the
 wake-up: the worker sees the flag and tries again, the late wake-up then wakes it before the
 response to the new try, and data that arrive a moment later are sent without headers.
 */
module ProxyEarlyWake {
  import opened ProxyRequest
  import opened ProxyRuns

  /** What the first try leaves behind: a stream that was opened and reset. */
  const RESET_ONCE := Trace(0, [], [Try(false, false, [Part(Headers, true)])], [REFUSAL], 2, 1, 3, 2, false, false)

  const SECOND_TRY := Worker(
    false, false, WaitNotify, InitPhase,
    UNSENT.(ready := true, sendComplete := true, sent := [Part(Headers, true)]),
    RetryState(false, 2), false, true, true, false, false)

  const WAKING := QUIET.(resetReason := ConnectionFailed, reuse := false, token := true)

  /** The first try is reset; the wake-up of the reset is sent after the worker has dealt with it. */
  lemma LateWakeUp()
    ensures Reachable(GAPPY, State(Enter, SECOND_TRY, WAKING, RESET_ONCE))
  {
    RouteMatched(GAPPY);
    hide Reachable;
    var st := GoOpen(GAPPY, Fresh(Enter, DownFilterAfterRoute, InitPhase, NoUpstream, false, QUIET, NO_TRACE), 0);
    st := Go(GAPPY, st, Proceed);
    assert [] + [Part(Headers, true)] == [Part(Headers, true)];
    st := GoOthers(GAPPY, st, st.s.(upstreamReset := true, resetReason := ConnectionFailed, owed := 1));
    st := GoRetry(GAPPY, st);
    assert [] + [REFUSAL] == [REFUSAL];
    st := GoOthers(GAPPY, st, st.s.(token := true, owed := 0));
    st := GoReopen(GAPPY, st);
    assert [] + [Try(false, false, [Part(Headers, true)])] == [Try(false, false, [Part(Headers, true)])];
    st := Go(GAPPY, st, Proceed);
    st := GoOn(GAPPY, st);
  }

  /** The worker wakes up and finds no headers. */
  lemma WokenEarly()
    ensures Reachable(GAPPY, State(Enter, SECOND_TRY.(phase := UpRecvData), WAKING.(token := false),
                                   RESET_ONCE.(skippedHeaders := true)))
  {
    LateWakeUp();
    hide Reachable;
    var st := GoBy(GAPPY, State(Enter, SECOND_TRY, WAKING, RESET_ONCE), Work(Proceed));
    st := GoOn(GAPPY, st);
    st := GoFilter(GAPPY, st);
    st := Go(GAPPY, st, Proceed);
  }

  const ARRIVED := WAKING.(token := false, received := true, respHeaders := true, respData := true,
      respTrailers := true)

  /** The response arrives, and its data are the first the client gets. */
  lemma DataFirst()
    ensures Reachable(GAPPY, State(Checking(0, false), SECOND_TRY.(phase := UpRecvData), ARRIVED,
                                   RESET_ONCE.(skippedHeaders := true, client := [Part(Data, false)])))
  {
    WokenEarly();
    hide Reachable;
    var st := State(Enter, SECOND_TRY.(phase := UpRecvData), WAKING.(token := false),
                    RESET_ONCE.(skippedHeaders := true));
    st := GoOthers(GAPPY, st, ARRIVED);
    st := Go(GAPPY, st, Proceed);
    st := Go(GAPPY, st, Proceed);
    st := Go(GAPPY, st, Proceed);
    st := Go(GAPPY, st, Proceed);
    assert [] + [Part(Data, false)] == [Part(Data, false)];
  }

  lemma ReplyWithoutHeaders()
    ensures exists st :: Reachable(GAPPY, st) && st.t.client == [Part(Data, false)] && !st.t.lateHijack
  {
    DataFirst();
  }

  /** The new try is reset too, and a third stream is opened for a request that has been answered. */
  lemma RetriedAfterData() returns (before: State, after: State)
    ensures Reachable(GAPPY, before) && before.t.client != [] && before.t.opens == 2
    ensures Reaches(GAPPY, before, [Work(Proceed)], after) && after.t.opens == 3 && !after.t.lateHijack
  {
    DataFirst();
    hide Reachable, Reaches;
    var st := State(Checking(0, false), SECOND_TRY.(phase := UpRecvData), ARRIVED,
                    RESET_ONCE.(skippedHeaders := true, client := [Part(Data, false)]));
    st := GoOthers(GAPPY, st, st.s.(upstreamReset := true, token := true));
    st := GoRetry(GAPPY, st);
    st := Go(GAPPY, st, Host(false, 0));
    before := Go(GAPPY, st, Proceed);
    after := WorkStep(GAPPY, before, Proceed);
    ReachesInOne(GAPPY, before, Work(Proceed));
  }
}
