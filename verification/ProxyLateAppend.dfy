/**
 A filter that keeps its handler can append to the reply from any goroutine at any time. The handler
 looks at neither the cleaned flag nor the ID, so the request machine gets one more move here.
 */
module ProxyLateAppend {
  import opened ProxyRequest
  import opened ProxySafety
  import opened ProxyOrder
  import opened ProxyRuns

  datatype Move = Usual(action: Action) | LateAppend(part: Part)

  /** endStream and cleanStream, by the goroutine that appended the last block. */
  function EndedBy(st: State): State {
    var s := if !st.w.recvDone then st.s.(reuse := false) else st.s;
    if s.cleaned then st.(s := s)
    else
      var gives := s.reuse && !s.upstreamReset && !s.downstreamReset;
      st.(s := s.(cleaned := true, mine := s.mine && !gives),
          w := st.w.(processDone := st.w.processDone || st.w.upstream.Upstream?, given := st.w.given || gives),
          t := st.t.(cleans := st.t.cleans + 1))
  }

  /** The handler's AppendHeaders, AppendData and AppendTrailers. */
  function Appended(st: State, part: Part): State {
    var s := match part.kind
             case Headers => st.s.(respHeaders := true)
             case Data => st.s.(respData := true)
             case Trailers => st.s.(respTrailers := true);
    var st' := st.(s := s, w := st.w.(processDone := part.end), t := st.t.(client := st.t.client + [part]));
    if part.end then EndedBy(st') else st'
  }

  predicate MayMove(c: Config, late: bool, st: State, m: Move) {
    match m
    case Usual(a) => Enabled(c, st, a)
    case LateAppend(_) => late && !c.oneway
  }

  function Moved(c: Config, st: State, m: Move): State {
    match m
    case Usual(a) => Step(c, st, a)
    case LateAppend(part) => Appended(st, part)
  }

  /** `late` says whether filters append after their chain has returned. */
  ghost predicate Arrives(c: Config, late: bool, st: State, moves: seq<Move>, st': State)
    decreases |moves|
  {
    if moves == [] then st' == st
    else MayMove(c, late, st, moves[0]) && Arrives(c, late, Moved(c, st, moves[0]), moves[1..], st')
  }

  function Actions(moves: seq<Move>): seq<Action> {
    if moves == [] then [] else (if moves[0].Usual? then [moves[0].action] else []) + Actions(moves[1..])
  }

  /** Without late appends the moves are the actions of the request machine. */
  lemma {:induction false} ArrivesUsually(c: Config, st: State, moves: seq<Move>, st': State)
    requires Arrives(c, false, st, moves, st')
    ensures Reaches(c, st, Actions(moves), st')
    decreases |moves|
  {
    hide Step, Enabled;
    if moves != [] {
      ArrivesUsually(c, Moved(c, st, moves[0]), moves[1..], st');
      assert Actions(moves)[0] == moves[0].action && Actions(moves)[1..] == Actions(moves[1..]);
    }
  }

  lemma {:induction false} UsuallyArrives(c: Config, late: bool, st: State, acts: seq<Action>, st': State)
    returns (moves: seq<Move>)
    requires Reaches(c, st, acts, st')
    ensures Arrives(c, late, st, moves, st')
    decreases |acts|
  {
    hide Step, Enabled;
    moves := [];
    if acts != [] {
      var rest := UsuallyArrives(c, late, Step(c, st, acts[0]), acts[1..], st');
      moves := [Usual(acts[0])] + rest;
      assert moves[1..] == rest;
    }
  }

  /** A filter ends the request before it is routed, and the stream is counted out. */
  lemma CleanedStream() returns (st: State, moves: seq<Move>)
    ensures Arrives(PLAIN, true, Initial(false, false), moves, st) && st.t.cleans == 1
  {
    st := CleanedRun();
    var acts: seq<Action> :| Reaches(PLAIN, Initial(false, false), acts, st);
    moves := UsuallyArrives(PLAIN, true, Initial(false, false), acts, st);
  }

  lemma CleanedRun() returns (st: State)
    ensures Reachable(PLAIN, st) && st.t.cleans == 1
  {
    hide Reachable;
    st := StartUp(PLAIN);
    st := Go(PLAIN, st, Proceed);
    st := Go(PLAIN, st, Proceed);
    st := Go(PLAIN, st, Terminated);
    st := Go(PLAIN, st, Proceed);
  }

  /** Nothing was sent, opened or counted from one state to the other. */
  predicate Unchanged(st: State, st': State) {
    && st'.t.client == st.t.client && st'.t.opens == st.t.opens && st'.t.cleans == st.t.cleans
    && TryOf(st'.w) == TryOf(st.w) && st'.t.pastTries == st.t.pastTries
  }

  /** Once a stream has been counted out, nothing is sent, opened or counted any more. */
  ghost predicate SilentAfterwards(late: bool) {
    forall c, reqData, reqTrailers, before, st: State, after, st' ::
      Arrives(c, late, Initial(reqData, reqTrailers), before, st) && st.t.cleans > 0 ==>
        Arrives(c, late, st, after, st') ==> Unchanged(st, st')
  }

  /** That holds exactly when no filter appends after its chain has returned. */
  lemma SilentExactlyWithoutLateAppends(late: bool)
    ensures SilentAfterwards(late) <==> !late
  {
    hide Step, Enabled;
    if late {
      var st, moves := CleanedStream();
      var part := Part(Headers, false);
      assert [LateAppend(part)][1..] == [];
      assert Arrives(PLAIN, true, st, [LateAppend(part)], Appended(st, part));
      assert !Unchanged(st, Appended(st, part));
    } else {
      forall c, reqData, reqTrailers, before, st: State, after, st'
        | && Arrives(c, late, Initial(reqData, reqTrailers), before, st) && st.t.cleans > 0
          && Arrives(c, late, st, after, st')
        ensures Unchanged(st, st')
      {
        ArrivesUsually(c, Initial(reqData, reqTrailers), before, st);
        ArrivesUsually(c, st, after, st');
        EveryRunIsSafe(c, reqData, reqTrailers, Actions(before), st);
        SilentOnceCleaned(c, reqData, reqTrailers, Actions(before), st, Actions(after), st');
      }
    }
  }
}
