/** A run in which a filter replies to the client, for every shape of the reply. */
module ProxyReplyRun {
  import opened ProxyRequest
  import opened ProxyRuns

  /** A worker whose reply a filter queued, at the phase `phase`. */
  function Replying(phase: Phase, started: bool, data: bool, trailers: bool, client: seq<Part>): State {
    Fresh(Enter, phase, InitPhase, UNSENT, started, HIJACKED.(respData := data, respTrailers := trailers),
          NO_TRACE.(passes := 2, client := client))
  }

  lemma ReplyQueued(data: bool, trailers: bool)
    ensures Reachable(PLAIN, Replying(UpRecvHeader, false, data, trailers, []))
  {
    RouteMatched(PLAIN);
    hide Reachable;
    var st := Go(PLAIN, Fresh(Enter, DownFilterAfterRoute, InitPhase, NoUpstream, false, QUIET, NO_TRACE), Proceed);
    st := Go(PLAIN, st, Direct(data, trailers));
    st := Go(PLAIN, st, Proceed);
    st := GoCheck(PLAIN, st);
    st := GoFilter(PLAIN, st);
  }

  /** The last block is out, and the stream is cleaned. */
  lemma GoClean(st: State) returns (st': State)
    requires Reachable(PLAIN, st) && st.pc == Cleaning(0, false) && st.w.phase != WaitNotify
    requires st.s.mine && !st.s.cleaned && !st.s.reuse
    ensures Reachable(PLAIN, st') && st'.pc == Halted && st'.t == st.t.(cleans := st.t.cleans + 1)
  {
    hide Reachable;
    st' := Go(PLAIN, st, Proceed);
    st' := Go(PLAIN, st', Proceed);
    st' := Go(PLAIN, st', Proceed);
    st' := Go(PLAIN, st', Proceed);
  }

  lemma GoHeaders(data: bool, trailers: bool) returns (st: State)
    ensures Reachable(PLAIN, st)
    ensures var from := Replying(UpRecvHeader, true, data, trailers, []);
            st == PushClient(PLAIN, Check(from), Part(Headers, !data && !trailers))
  {
    ReplyQueued(data, trailers);
    hide Reachable, PushClient;
    st := Go(PLAIN, Replying(UpRecvHeader, false, data, trailers, []), Proceed);
    st := Go(PLAIN, st, Proceed);
    if !data {
      st := Go(PLAIN, st, Proceed);
    }
    st := Go(PLAIN, st, Proceed);
    st := Go(PLAIN, st, Proceed);
  }

  /** From the header block on to the data phase. */
  lemma HeadersSent(data: bool, trailers: bool)
    requires data || trailers
    ensures Reachable(PLAIN, Replying(UpRecvData, true, data, trailers, [Part(Headers, false)]))
  {
    hide Reachable;
    var st := GoHeaders(data, trailers);
    assert [] + [Part(Headers, false)] == [Part(Headers, false)];
    st := GoOn(PLAIN, st);
  }

  lemma DataRead(trailers: bool)
    ensures var from := Replying(UpRecvData, true, true, trailers, [Part(Headers, false)]);
            Reachable(PLAIN, from.(pc := Gated(ReplyData(!trailers), false)))
  {
    HeadersSent(true, trailers);
    hide Reachable;
    var st := Go(PLAIN, Replying(UpRecvData, true, true, trailers, [Part(Headers, false)]), Proceed);
    st := Go(PLAIN, st, Proceed);
  }

  lemma GoData(trailers: bool) returns (st: State)
    ensures Reachable(PLAIN, st)
    ensures var from := Replying(UpRecvData, true, true, trailers, [Part(Headers, false)]);
            st == PushClient(PLAIN, Check(from), Part(Data, !trailers))
  {
    DataRead(trailers);
    hide Reachable, PushClient;
    var from := Replying(UpRecvData, true, true, trailers, [Part(Headers, false)]);
    st := Go(PLAIN, from.(pc := Gated(ReplyData(!trailers), false)), Proceed);
    st := Go(PLAIN, st, Proceed);
  }

  /** Everything but the trailers has been sent. */
  lemma TrailersDue(data: bool)
    ensures var client := if data then [Part(Headers, false), Part(Data, false)] else [Part(Headers, false)];
            Reachable(PLAIN, Replying(UpRecvTrailer, true, data, true, client))
  {
    hide Reachable;
    if data {
      var st := GoData(true);
      assert [Part(Headers, false)] + [Part(Data, false)] == [Part(Headers, false), Part(Data, false)];
      st := GoOn(PLAIN, st);
    } else {
      HeadersSent(data, true);
      var st := Go(PLAIN, Replying(UpRecvData, true, data, true, [Part(Headers, false)]), Proceed);
    }
  }

  lemma GoTrailers(data: bool) returns (st: State)
    ensures Reachable(PLAIN, st) && st.pc == Cleaning(0, false) && st.w.phase == UpRecvTrailer
    ensures st.s.mine && !st.s.cleaned && !st.s.reuse && st.t.client == Message(data, true) && st.t.cleans == 0
  {
    TrailersDue(data);
    hide Reachable;
    var client := if data then [Part(Headers, false), Part(Data, false)] else [Part(Headers, false)];
    st := Go(PLAIN, Replying(UpRecvTrailer, true, data, true, client), Proceed);
    st := Go(PLAIN, st, Proceed);
    st := Go(PLAIN, st, Proceed);
  }

  /** Every shape of reply is sent in some run, to its last block. */
  lemma SomeRunReplies(data: bool, trailers: bool)
    ensures exists st :: Reachable(PLAIN, st) && st.pc == Halted && st.t.client == Message(data, trailers)
  {
    hide Reachable;
    var st: State;
    if trailers {
      st := GoTrailers(data);
    } else if data {
      st := GoData(trailers);
    } else {
      st := GoHeaders(data, trailers);
    }
    st := GoClean(st);
  }
}
