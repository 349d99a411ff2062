/** The bound on upstream streams is attained: no smaller one would do. */
module ProxyRetryBound {
  import opened Numbers
  import opened ProxyRequest
  import opened ProxySafety
  import opened ProxyRuns

  function Refused(k: nat): seq<Try> {
    if k == 0 then [] else Refused(k - 1) + [Try(false, false, [])]
  }

  function Refusals(k: nat): seq<Cause> {
    if k == 0 then [] else Refusals(k - 1) + [REFUSAL]
  }

  /** A retry is due after k streams were refused, of a request with `budget` retries. */
  function RetryDue(budget: nat, k: nat): State
    requires 1 <= k <= budget
  {
    State(Enter,
          Worker(false, false, Retry, InitPhase, UNSENT.(setupRetry := true, sendComplete := true),
                 RetryState(false, budget - k), false, true, true, false, false),
          QUIET.(resetReason := ConnectionFailed, reuse := k == 1),
          Trace(0, [], Refused(k - 1), Refusals(k), k, 1, budget, k + 1, false, false))
  }

  /** The first try is refused and a retry is due. */
  lemma FirstRetryDue(numRetries: nat)
    ensures Reachable(PLAIN, RetryDue(Max(DEFAULT_RETRIES, numRetries), 1))
  {
    RouteMatched(PLAIN);
    hide Reachable;
    var st := Fresh(Enter, DownFilterAfterRoute, InitPhase, NoUpstream, false, QUIET, NO_TRACE);
    st := GoOpen(PLAIN, st, numRetries);
    st := Go(PLAIN, st, Choice.Refused(ConnectionFailed));
    st := GoRetry(PLAIN, st);
    assert [] + [REFUSAL] == Refusals(1);
    assert st == RetryDue(Max(DEFAULT_RETRIES, numRetries), 1);
  }

  /** As long as there are retries and passes left, a refused stream makes another retry due. */
  lemma {:induction false} NextRetryDue(budget: nat, k: nat)
    requires 1 <= k < budget && k + 1 < MAX_PASSES && Reachable(PLAIN, RetryDue(budget, k))
    ensures Reachable(PLAIN, RetryDue(budget, k + 1))
  {
    hide Reachable;
    var st := GoReopen(PLAIN, RetryDue(budget, k));
    st := Go(PLAIN, st, Choice.Refused(ConnectionFailed));
    st := GoRetry(PLAIN, st);
    assert st.t.pastTries == Refused(k) && st.t.causes == Refusals(k + 1);
    assert st == RetryDue(budget, k + 1);
  }

  lemma {:induction false} RetriesDue(numRetries: nat, k: nat)
    requires 1 <= k <= Max(DEFAULT_RETRIES, numRetries) && k < MAX_PASSES
    ensures Reachable(PLAIN, RetryDue(Max(DEFAULT_RETRIES, numRetries), k))
    decreases k
  {
    hide Reachable, RetryDue;
    if k == 1 {
      FirstRetryDue(numRetries);
    } else {
      RetriesDue(numRetries, k - 1);
      NextRetryDue(Max(DEFAULT_RETRIES, numRetries), k - 1);
    }
  }

  /** The most upstream streams a request can open. */
  function MostOpens(budget: nat): nat { Min(1 + budget, MAX_PASSES) }

  /** For every number of retries, no run opens more streams than this, and some run opens as many. */
  lemma BoundIsExact(numRetries: nat)
    ensures forall c, reqData, reqTrailers, acts, st ::
              Reaches(c, Initial(reqData, reqTrailers), acts, st) ==> st.t.opens <= MostOpens(st.t.budget)
    ensures exists st ::
              Reachable(PLAIN, st) && st.t.budget == Max(DEFAULT_RETRIES, numRetries)
                  && st.t.opens == MostOpens(st.t.budget)
  {
    forall c, reqData, reqTrailers, acts, st | Reaches(c, Initial(reqData, reqTrailers), acts, st)
      ensures st.t.opens <= MostOpens(st.t.budget)
    {
      EveryRunIsSafe(c, reqData, reqTrailers, acts, st);
    }
    AttainsBound(numRetries);
  }

  lemma AttainsBound(numRetries: nat)
    ensures exists st ::
              Reachable(PLAIN, st) && st.t.budget == Max(DEFAULT_RETRIES, numRetries)
                  && st.t.opens == MostOpens(st.t.budget)
  {
    hide Reachable;
    var budget := Max(DEFAULT_RETRIES, numRetries);
    var k := Min(budget, MAX_PASSES - 1);
    RetriesDue(numRetries, k);
    var st := GoReopen(PLAIN, RetryDue(budget, k));
    assert st.t.budget == budget && st.t.opens == MostOpens(budget);
  }
}
