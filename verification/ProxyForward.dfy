/** What is forwarded is the request as the client sent it and the filters changed it. */
module ProxyForward {
  import opened ProxyRequest
  import opened ProxySafety
  import opened ProxyEnding

  /** Whether the request has data and trailers. */
  datatype Body = Body(data: bool, trailers: bool)

  function BodyOf(w: Worker): Body { Body(w.reqData, w.reqTrailers) }

  /** What a filter sets: data are added and never taken away, trailers are replaced. */
  function Asked(st: State, a: Action, b: Body): Body {
    if a.Work? && st.pc.Filtering? && a.choice.SetRequest?
    then Body(b.data || a.choice.data, a.choice.trailers) else b
  }

  /** What the filters of a run make of a request. */
  function Wanted(c: Config, st: State, acts: seq<Action>, b: Body): Body
    decreases |acts|
  {
    if acts == [] then b else Wanted(c, Step(c, st, acts[0]), acts[1..], Asked(st, acts[0], b))
  }

  lemma PassKeepsBody(c: Config, st: State, g: Gate, ch: Choice)
    requires st.pc.Gated?
    ensures BodyOf(GatePassed(c, st, g, ch).w) == BodyOf(st.w)
  {
    hide PushClient, OnUpstreamHeaders;
    match g
    case ReplyHeaders(end) => HeadersMoveOnce(c, st, end, ch);
    case ReplyData(end) => PushCleans(c, Check(st), Part(Data, end));
    case ReplyTrailers => PushCleans(c, Check(st), Part(Trailers, true));
    case _ => SendDoesNotClean(c, st, g, ch);
  }

  lemma GateKeepsBody(c: Config, st: State, g: Gate, second: bool, ch: Choice)
    requires st.pc == Gated(g, second)
    ensures BodyOf(GateStep(c, st, g, second, ch).w) == BodyOf(st.w)
  {
    hide GateShut, GatePassed;
    ShutIsCalm(st, g);
    PassKeepsBody(c, st, g, ch);
  }

  lemma FilterSetsBody(c: Config, st: State, ch: Choice)
    requires st.pc.Filtering?
    ensures BodyOf(FilterStep(c, st, ch).w) == Asked(st, Work(ch), BodyOf(st.w))
  {}

  lemma CleanKeepsBody(c: Config, st: State, k: nat, toEnd: bool)
    ensures BodyOf(CleanStep(c, st, k, toEnd).w) == BodyOf(st.w)
  {}

  /** Nothing but a filter changes the request. */
  lemma StepSetsBody(c: Config, st: State, a: Action)
    ensures BodyOf(Step(c, st, a).w) == Asked(st, a, BodyOf(st.w))
  {
    hide EnterStep, FilterStep, GateStep, OpenStep, CheckStep, CleanStep;
    if a.Work? {
      var ch := a.choice;
      match st.pc
      case Enter => EnterCleans(c, st, ch);
      case Filtering => FilterSetsBody(c, st, ch);
      case Gated(g, second) => GateKeepsBody(c, st, g, second, ch);
      case Opening => OpenIsCalm(st, ch);
      case Checking(k, exit) => CheckCleans(c, st, k, exit, ch);
      case Cleaning(k, toEnd) => CleanKeepsBody(c, st, k, toEnd);
      case _ =>
    }
  }

  lemma {:induction false} RunSetsBody(c: Config, st: State, acts: seq<Action>, st': State)
    requires Reaches(c, st, acts, st')
    ensures BodyOf(st'.w) == Wanted(c, st, acts, BodyOf(st.w))
    decreases |acts|
  {
    hide Step, Enabled, Asked;
    if acts != [] {
      StepSetsBody(c, st, acts[0]);
      RunSetsBody(c, Step(c, st, acts[0]), acts[1..], st');
    }
  }

  /** In every run, when the request has been forwarded, on a first try or a retry, the stream has been
      sent all of the request as the client sent it and the filters changed it. */
  lemma ForwardedWhole(c: Config, reqData: bool, reqTrailers: bool, acts: seq<Action>, st: State)
    requires Reaches(c, Initial(reqData, reqTrailers), acts, st) && Forwarded(st)
    ensures var b := Wanted(c, Initial(reqData, reqTrailers), acts, Body(reqData, reqTrailers));
            TryOf(st.w).sent == Message(b.data, b.trailers)
  {
    hide Reaches, Wanted;
    EveryRunIsSafe(c, reqData, reqTrailers, acts, st);
    RunSetsBody(c, Initial(reqData, reqTrailers), acts, st);
  }
}
