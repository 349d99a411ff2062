/** Exactly when what the client sees is well formed, and when an answered request is left alone. */
module ProxyReplies {
  import opened ProxyRequest
  import opened ProxySafety
  import opened ProxyOrder
  import opened ProxyWakeUp
  import opened ProxyRuns
  import ProxyLateHijack
  import ProxyEarlyWake

  /** The runs that count: without late writes, and with headers on every response. `late` says whether
      runs count in which a direct response is taken in UpFilter while a re-match is pending, `gaps`
      whether those count in which a goroutine is held up before the wake-up of an upstream reset. */
  predicate Counts(c: Config, t: Trace, late: bool, gaps: bool) {
    !c.lateWrites && (late || !t.lateHijack) && (gaps || !c.gaps)
  }

  ghost predicate RepliesWellFormed(late: bool, gaps: bool) {
    forall c, reqData, reqTrailers, acts, st: State ::
      Counts(c, st.t, late, gaps) && Reaches(c, Initial(reqData, reqTrailers), acts, st) ==>
          WellFormedReply(st.t.client)
  }

  /** Every reply is well formed exactly when both families of runs are left out. */
  lemma WellFormedExactly(late: bool, gaps: bool)
    ensures RepliesWellFormed(late, gaps) <==> !late && !gaps
  {
    if late {
      ProxyLateHijack.SecondHeaderBlock();
      var st :| Reachable(PLAIN, st) && st.t.client == [Part(Headers, false), Part(Headers, true)];
      assert Rank(st.t.client[0].kind) == Rank(st.t.client[1].kind);
      var acts: seq<Action> :| Reaches(PLAIN, Initial(false, false), acts, st);
      assert Counts(PLAIN, st.t, late, gaps) && !WellFormedReply(st.t.client);
    } else if gaps {
      ProxyEarlyWake.ReplyWithoutHeaders();
      var st :| Reachable(GAPPY, st) && st.t.client == [Part(Data, false)] && !st.t.lateHijack;
      assert st.t.client[0].kind == Data;
      var acts: seq<Action> :| Reaches(GAPPY, Initial(false, false), acts, st);
      assert Counts(GAPPY, st.t, late, gaps) && !WellFormedReply(st.t.client);
    } else {
      forall c, reqData, reqTrailers, acts, st: State
        | Counts(c, st.t, late, gaps) && Reaches(c, Initial(reqData, reqTrailers), acts, st)
        ensures WellFormedReply(st.t.client)
      {
        EveryRunIsSafe(c, reqData, reqTrailers, acts, st);
        HeadersAreThere(c, reqData, reqTrailers, acts, st);
      }
    }
  }

  /** The request had been answered, in part at least, and a further upstream stream was opened. */
  ghost predicate RetriedAnswered(c: Config, before: seq<Action>, st: State, after: seq<Action>, st': State) {
    && (exists reqData, reqTrailers :: Reaches(c, Initial(reqData, reqTrailers), before, st))
    && Reaches(c, st, after, st') && st.t.client != [] && st'.t.opens != st.t.opens
  }

  ghost predicate AnsweredLeftAlone(late: bool, gaps: bool) {
    forall c, before, st, after, st': State :: Counts(c, st'.t, late, gaps) ==>
        !RetriedAnswered(c, before, st, after, st')
  }

  /** A request whose reply has begun is never tried again, exactly when both families are left out. */
  lemma AnsweredLeftAloneExactly(late: bool, gaps: bool)
    ensures AnsweredLeftAlone(late, gaps) <==> !late && !gaps
  {
    hide AnsweredLeftAlone;
    if late {
      LateIsRetried(gaps);
    } else if gaps {
      EarlyIsRetried();
    } else {
      OthersAreLeftAlone();
    }
  }

  lemma LateIsRetried(gaps: bool)
    ensures !AnsweredLeftAlone(true, gaps)
  {
    hide Reaches;
    var st, st' := ProxyLateHijack.OpenedAfterReply();
    var acts: seq<Action> :| Reaches(PLAIN, Initial(false, false), acts, st);
    assert Counts(PLAIN, st'.t, true, gaps) && RetriedAnswered(PLAIN, acts, st, [Work(Proceed)], st');
  }

  lemma EarlyIsRetried()
    ensures !AnsweredLeftAlone(false, true)
  {
    hide Reaches;
    var st, st' := ProxyEarlyWake.RetriedAfterData();
    var acts: seq<Action> :| Reaches(GAPPY, Initial(false, false), acts, st);
    assert Counts(GAPPY, st'.t, false, true) && RetriedAnswered(GAPPY, acts, st, [Work(Proceed)], st');
  }

  lemma OthersAreLeftAlone()
    ensures AnsweredLeftAlone(false, false)
  {
    hide Reaches;
    forall c, before, st: State, after, st': State | Counts(c, st'.t, false, false)
      ensures !RetriedAnswered(c, before, st, after, st')
    {
      forall reqData, reqTrailers
        | Reaches(c, Initial(reqData, reqTrailers), before, st) && Reaches(c, st, after, st') && st.t.client != []
        ensures st'.t.opens == st.t.opens
      {
        NotRetried(c, reqData, reqTrailers, before, st, after, st');
      }
    }
  }

  lemma NotRetried(c: Config, reqData: bool, reqTrailers: bool, before: seq<Action>, st: State,
                   after: seq<Action>, st': State)
    requires Reaches(c, Initial(reqData, reqTrailers), before, st) && Reaches(c, st, after, st')
    requires Counts(c, st'.t, false, false) && st.t.client != []
    ensures st'.t.opens == st.t.opens
  {
    ReachesOn(c, Initial(reqData, reqTrailers), before, st, after, st');
    HeadersAreThere(c, reqData, reqTrailers, before + after, st');
    AnsweredIsNeverRetried(c, reqData, reqTrailers, before, st, after, st');
  }

  lemma {:induction false} ReachesOn(c: Config, st0: State, before: seq<Action>, st: State, after: seq<Action>,
                                     st': State)
    requires Reaches(c, st0, before, st) && Reaches(c, st, after, st')
    ensures Reaches(c, st0, before + after, st')
    decreases |before|
  {
    hide Step, Enabled;
    if before == [] {
      assert before + after == after;
    } else {
      ReachesOn(c, Step(c, st0, before[0]), before[1..], st, after, st');
      assert (before + after)[1..] == before[1..] + after;
    }
  }
}
