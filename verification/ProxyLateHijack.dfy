/**
 What goes wrong when a direct response is queued in the sender-filter phase while a re-match is
 pending: the reply is sent, and then the request goes on. Filter answers alone bring it about.
 */
module ProxyLateHijack {
  import opened ProxyRequest
  import opened ProxyRuns

  /** A filter after routing queues a reply and asks for another match. */
  lemma RematchPending()
    ensures Reachable(PLAIN, Fresh(Enter, UpFilter, MatchRoute, NoUpstream, false, HIJACKED, NO_TRACE.(passes := 2)))
  {
    RouteMatched(PLAIN);
    hide Reachable;
    var st := Go(PLAIN, Fresh(Enter, DownFilterAfterRoute, InitPhase, NoUpstream, false, QUIET, NO_TRACE), Proceed);
    st := Go(PLAIN, st, Hijack(false));
    st := Go(PLAIN, st, ReMatch);
    st := GoCheck(PLAIN, st);
  }

  /** A filter in the sender phase queues a reply with a body. */
  lemma ReplyBegins()
    ensures Reachable(PLAIN, Fresh(Enter, UpRecvHeader, MatchRoute, UNSENT, false, HIJACKED.(respData := true),
                                   NO_TRACE.(passes := 2, lateHijack := true)))
  {
    RematchPending();
    hide Reachable;
    var st := Go(PLAIN, Fresh(Enter, UpFilter, MatchRoute, NoUpstream, false, HIJACKED, NO_TRACE.(passes := 2)),
        Proceed);
    st := Go(PLAIN, st, Hijack(true));
    st := Go(PLAIN, st, Proceed);
    st := GoCheck(PLAIN, st);
  }

  const ANSWERED := NO_TRACE.(passes := 3, lateHijack := true, client := [Part(Headers, false)])

  /** The client is sent headers, and then the pending re-match is taken up. */
  lemma FirstHeaderBlock()
    ensures Reachable(PLAIN, Fresh(Enter, MatchRoute, InitPhase, UNSENT, true, HIJACKED.(respData := true), ANSWERED))
  {
    ReplyBegins();
    hide Reachable;
    var st := Go(PLAIN, Fresh(Enter, UpRecvHeader, MatchRoute, UNSENT, false, HIJACKED.(respData := true),
                              NO_TRACE.(passes := 2, lateHijack := true)), Proceed);
    st := Go(PLAIN, st, Proceed);
    st := Go(PLAIN, st, Proceed);
    st := Go(PLAIN, st, Proceed);
    assert [] + [Part(Headers, false)] == [Part(Headers, false)];
    st := GoCheck(PLAIN, st);
  }

  /** Routing finds no route, and a second reply begins. */
  lemma SecondHeaderBlock()
    ensures exists st :: Reachable(PLAIN, st) && st.t.client == [Part(Headers, false), Part(Headers, true)]
  {
    FirstHeaderBlock();
    hide Reachable;
    var st := Fresh(Enter, MatchRoute, InitPhase, UNSENT, true, HIJACKED.(respData := true), ANSWERED);
    st := Go(PLAIN, st, Hijack(false));
    st := GoCheck(PLAIN, st);
    st := GoFilter(PLAIN, st);
    st := Go(PLAIN, st, Proceed);
    st := Go(PLAIN, st, Proceed);
    st := Go(PLAIN, st, Proceed);
    st := Go(PLAIN, st, Proceed);
    st := Go(PLAIN, st, Proceed);
    assert st.t.client == [Part(Headers, false)] + [Part(Headers, true)];
  }

  /** Routing finds a route, and an upstream stream is opened for the answered request. */
  lemma OpenedAfterReply() returns (before: State, after: State)
    ensures Reachable(PLAIN, before) && before.t.client != [] && before.t.opens == 0
    ensures Reaches(PLAIN, before, [Work(Proceed)], after) && after.t.opens == 1
  {
    FirstHeaderBlock();
    hide Reachable, Reaches;
    var st := Fresh(Enter, MatchRoute, InitPhase, UNSENT, true, HIJACKED.(respData := true), ANSWERED);
    before := ReadyToOpen(PLAIN, st);
    after := WorkStep(PLAIN, before, Proceed);
    ReachesInOne(PLAIN, before, Work(Proceed));
  }

  /** From routing to the load that decides whether a stream is opened. */
  lemma ReadyToOpen(c: Config, st: State) returns (st': State)
    requires Reachable(c, st) && st.pc == Enter && st.w.phase == MatchRoute && Undisturbed(st.s)
    requires !Pending(st.w) && st.w.again == InitPhase && !st.w.processDone && !st.w.reqData && !st.w.reqTrailers
    ensures Reachable(c, st') && st'.pc == Gated(SendHeaders, true) && !st'.s.upstreamReset && st'.w.upstream.Upstream?
    ensures st'.t.client == st.t.client && st'.t.opens == st.t.opens
  {
    hide Reachable;
    st' := Go(c, st, Proceed);
    st' := GoOn(c, st');
    st' := GoFilter(c, st');
    st' := Go(c, st', Host(false, 0));
    st' := GoOn(c, st');
    st' := GoFilter(c, st');
    st' := Go(c, st', Proceed);
    st' := Go(c, st', Proceed);
  }
}
