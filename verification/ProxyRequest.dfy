/**
 One proxied request: the phases a worker drives a downstream stream through, the jumps
 `processError` makes, retries, and the blocks sent to the upstream streams and to the client.

 The request is a state machine. A step of the worker does at most one load of a location that
 other goroutines write, and whatever the worker does before the next such load. Everything that
 runs beside the worker (upstream responses and resets, timers, client resets, filter termination,
 the next user of a recycled object) may change the shared fields between any two steps.
 */
module ProxyRequest {

  datatype Phase =
    | InitPhase | DownFilter | MatchRoute | DownFilterAfterRoute | ChooseHost | DownFilterAfterChooseHost
    | DownRecvHeader | DownRecvData | DownRecvTrailer | Oneway | Retry | WaitNotify
    | UpFilter | UpRecvHeader | UpRecvData | UpRecvTrailer | End

  datatype Kind = Headers | Data | Trailers

  /** One block handed to a stream, with its end-of-stream flag. Trailers always end a stream. */
  datatype Part = Part(kind: Kind, end: bool)

  datatype ResetReason =
    | StreamOverflow | ConnectionFailed | ConnectionTermination | LocalReset | RemoteReset
    | GlobalTimeout | PerTryTimeout | NoReason

  datatype RetryState = NoRetry | RetryState(retryOn: bool, remaining: nat)

  /** The status code a response maps to, if there is one. */
  datatype Status = NoStatus | Status(code: int)

  /** One try: `ready` says that its request sender is set, `data` and `trailers` what the request had
      when the try began, `sent` is what went into its stream. */
  datatype Upstream = NoUpstream | Upstream(
    ready: bool, setupRetry: bool, sendComplete: bool, dataSent: bool, trailerSent: bool,
    data: bool, trailers: bool, sent: seq<Part>)

  /** A try as an observer sees it: what the request had when it began, and what was sent. */
  datatype Try = Try(data: bool, trailers: bool, sent: seq<Part>)

  /** Why a try was given up for another one: whether the route asks for retries, the status of the
      response, if there is one, and the reason of the reset, if there was one. */
  datatype Cause = Cause(retryOn: bool, status: Status, reason: ResetReason)

  /** The fields of a stream that other goroutines read and write. `mine` says that the stored ID is
      still the one of this request; `token` that the wake-up channel, which has one slot, is full;
      `owed` is the number of goroutines that raised the upstream reset and have not sent the wake-up
      that goes with it. */
  datatype Shared = Shared(
    mine: bool, cleaned: bool, upstreamReset: bool, downstreamReset: bool, resetReason: ResetReason,
    received: bool, respHeaders: bool, respData: bool, respTrailers: bool, direct: bool, reuse: bool,
    token: bool, owed: nat)

  /** The fields only the worker touches; `given` says the object went back to the pool. */
  datatype Worker = Worker(
    reqData: bool, reqTrailers: bool, phase: Phase, again: Phase,
    upstream: Upstream, retry: RetryState,
    started: bool, recvDone: bool, requestSent: bool, processDone: bool, given: bool)

  /** What an observer of the run has seen. */
  datatype Trace = Trace(
    cleans: nat,               // how often the stream was counted out
    client: seq<Part>,         // what the client was sent
    pastTries: seq<Try>,       // the earlier tries
    causes: seq<Cause>,        // why they were given up
    opens: nat,                // calls of ConnectionPool.NewStream
    firstSends: nat,           // runs of the first-send phase
    budget: nat,               // max(3, NumRetries) of the chosen route
    passes: nat,               // passes of the outer loop begun so far
    skippedHeaders: bool,      // UpRecvHeader found no response headers
    lateHijack: bool)          // a direct response was taken in UpFilter while a re-match was pending

  /** What a passed or failed `processDone` check is followed by. */
  datatype Gate =
    | SendHeaders | CheckData | SendData | CheckTrailers | SendTrailers
    | RetryHeaders | RetryData | RetryTrailers
    | ReplyHeaders(end: bool) | ReplyData(end: bool) | ReplyTrailers

  datatype Pc =
    | Enter                              // at the switch of `receive`, phase in w.phase
    | Filtering                          // a filter chain is running
    | Reading                            // response headers or data seen, end flag not yet known
    | ReadingTrailers                    // response headers without data seen
    | Gated(gate: Gate, second: bool)    // inside processDone: before its first, its second reset load
    | Opening                            // NewStream has been called
    | Checking(k: nat, exit: bool)       // inside processError, before its k-th load
    | Cleaning(k: nat, toEnd: bool)      // inside cleanStream
    | Halted                             // the worker is through with the stream

  datatype State = State(pc: Pc, w: Worker, s: Shared, t: Trace)

  /** `oneway`: no response sender. `lateWrites`: TerminateStream and late OnDecodeError calls happen,
      and filters call the handler's Append* methods while their chain runs. `gaps`: a goroutine that
      raised the upstream reset may be held up before it sends the wake-up. */
  datatype Config = Config(oneway: bool, lateWrites: bool, gaps: bool)

  /** Outcomes the worker does not control: filters, routing, host choice, pools, status codes. */
  datatype Choice =
    | Proceed
    | Hijack(body: bool)                       // sendHijackReply, from a filter or from routing
    | Direct(data: bool, trailers: bool)       // SendDirectResponse
    | SetRequest(data: bool, trailers: bool)   // SetRequestData, SetRequestTrailers
    | SetResponse(data: bool, trailers: bool)  // SetResponseData, SetResponseTrailers
    | Terminated                               // a filter answers "termination"
    | ReMatch                                  // a filter answers "match the route again"
    | ReChoose                                 // a filter answers "choose the host again"
    | Append(part: Part)                       // handler AppendHeaders, AppendData, AppendTrailers
    | Host(retryOn: bool, numRetries: nat)     // a host and a pool were found
    | Refused(reason: ResetReason)             // the pool has no stream
    | Answer(status: Status, canCreate: bool)  // for the retry check

  datatype Action = Others(s: Shared) | Work(choice: Choice)

  const DEFAULT_RETRIES: nat := 3
  const MAX_PASSES: nat := 10

  const UNSENT := Upstream(false, false, false, false, false, false, false, [])

  function Max(a: nat, b: nat): nat { if a > b then a else b }

  function Next(p: Phase): Phase {
    match p
    case InitPhase => DownFilter
    case DownFilter => MatchRoute
    case MatchRoute => DownFilterAfterRoute
    case DownFilterAfterRoute => ChooseHost
    case ChooseHost => DownFilterAfterChooseHost
    case DownFilterAfterChooseHost => DownRecvHeader
    case DownRecvHeader => DownRecvData
    case DownRecvData => DownRecvTrailer
    case DownRecvTrailer => Oneway
    case Oneway => WaitNotify  // skips Retry
    case Retry => WaitNotify
    case WaitNotify => UpFilter
    case UpFilter => UpRecvHeader
    case UpRecvHeader => UpRecvData
    case UpRecvData => UpRecvTrailer
    case UpRecvTrailer | End => End
  }

  /** The blocks of a whole request that has headers. */
  function Message(data: bool, trailers: bool): seq<Part> {
    [Part(Headers, !data && !trailers)]
    + (if data then [Part(Data, !trailers)] else [])
    + (if trailers then [Part(Trailers, true)] else [])
  }

  function NewRetryState(retryOn: bool, numRetries: nat): RetryState {
    RetryState(retryOn, if numRetries > DEFAULT_RETRIES then numRetries else DEFAULT_RETRIES)
  }

  /** Whether a failed try may be tried again; `status` is the mapped status of the response, if any. */
  predicate RetryCheck(retryOn: bool, status: Status, reason: ResetReason) {
    if reason == StreamOverflow then false
    else if retryOn then
      if status.Status? then status.code >= 500
      else reason == ConnectionFailed || reason == PerTryTimeout || reason == ConnectionTermination
    else reason == ConnectionFailed
  }

  /** retryState.retry: every check uses up one retry, whatever it answers. */
  function UseRetry(r: RetryState): RetryState {
    if r.NoRetry? || r.remaining == 0 then r else r.(remaining := r.remaining - 1)
  }

  predicate MayRetry(r: RetryState, reason: ResetReason, ch: Choice) {
    r.RetryState? && r.remaining > 0 && ch.Answer? && RetryCheck(r.retryOn, ch.status, reason) && ch.canCreate
  }

  function CauseOf(r: RetryState, reason: ResetReason, ch: Choice): Cause {
    Cause(r.RetryState? && r.retryOn, if ch.Answer? then ch.status else NoStatus, reason)
  }

  function TryOf(w: Worker): Try {
    if w.upstream.Upstream? then Try(w.upstream.data, w.upstream.trailers, w.upstream.sent) else Try(false, false, [])
  }

  predicate Pending(w: Worker) { w.upstream.Upstream? && w.upstream.setupRetry }

  predicate NotSent(t: Trace) { t.opens == 0 && t.firstSends == 0 }

  // ---- the worker's steps ----

  function Goto(st: State, p: Phase): State {
    if p == End then st.(pc := Halted) else st.(pc := Enter, w := st.w.(phase := p))
  }

  /** `receive` returns `p`: the outer loop starts another pass, with an empty wake-up channel, unless
      the request is over. */
  function Leave(st: State, p: Phase): State {
    if p == End || st.t.passes >= MAX_PASSES then st.(pc := Halted)
    else Goto(st.(t := st.t.(passes := st.t.passes + 1), s := st.s.(token := false)), p)
  }

  function Check(st: State): State { st.(pc := Checking(0, false)) }

  function SendHijack(s: Shared, body: bool): Shared {
    s.(respHeaders := true, respData := body, respTrailers := false, direct := true, reuse := false)
  }

  /** The reply has its last block: endStream, then cleanStream. */
  function EndStream(c: Config, st: State): State {
    st.(pc := Cleaning(0, false), s := if !c.oneway && !st.w.recvDone then st.s.(reuse := false) else st.s)
  }

  /** downStream.appendHeaders, appendData and appendTrailers. */
  function PushClient(c: Config, st: State, part: Part): State {
    var st' := st.(w := st.w.(processDone := part.end), t := st.t.(client := st.t.client + [part]));
    if part.end then EndStream(c, st') else st'
  }

  function FilterStep(c: Config, st: State, ch: Choice): State {
    match ch
    case Hijack(body) => st.(s := SendHijack(st.s, body))
    case Direct(d, t) =>
      st.(s := st.s.(respHeaders := true, respData := d, respTrailers := t, direct := true, reuse := false))
    case SetRequest(d, t) => st.(w := st.w.(reqData := st.w.reqData || d, reqTrailers := t))
    case SetResponse(d, t) => st.(s := st.s.(respData := d, respTrailers := t))
    case Terminated => st.(pc := Cleaning(0, false), s := st.s.(reuse := false))
    case ReMatch =>
      if st.w.phase == DownFilterAfterRoute then Check(st.(w := st.w.(again := MatchRoute))) else Check(st)
    case ReChoose =>
      if st.w.phase == DownFilterAfterChooseHost then Check(st.(w := st.w.(again := ChooseHost))) else Check(st)
    case Append(part) => if c.lateWrites && !c.oneway then PushClient(c, st, part) else st
    case _ => Check(st)
  }

  /** What a phase does up to its first shared load. */
  function EnterStep(c: Config, st: State, ch: Choice): State {
    var w, s, t := st.w, st.s, st.t;
    match w.phase
    case InitPhase => Goto(st, DownFilter)
    case DownFilter | DownFilterAfterRoute | DownFilterAfterChooseHost | UpFilter => st.(pc := Filtering)
    case MatchRoute => Check(if ch.Hijack? then st.(s := SendHijack(s, ch.body)) else st)
    case ChooseHost =>
      var st' := st.(w := w.(recvDone := !w.reqData && !w.reqTrailers));
      if ch.Host? then
        Check(st'.(w := st'.w.(retry := NewRetryState(ch.retryOn, ch.numRetries), upstream := UNSENT),
                   t := t.(budget := Max(DEFAULT_RETRIES, ch.numRetries))))
      else Check(st'.(s := SendHijack(s, ch.Hijack? && ch.body)))
    case DownRecvHeader => st.(pc := Gated(SendHeaders, false), t := t.(firstSends := t.firstSends + 1))
    case DownRecvData => if w.reqData then st.(pc := Gated(CheckData, false)) else Goto(st, DownRecvTrailer)
    case DownRecvTrailer => if w.reqTrailers then st.(pc := Gated(CheckTrailers, false)) else Goto(st, Oneway)
    case Oneway => if c.oneway then st.(pc := Cleaning(0, false)) else Goto(st, WaitNotify)
    case Retry =>
      if ch.Host? && w.upstream.Upstream? then
        st.(pc := Gated(RetryHeaders, false), s := s.(reuse := false), w := w.(upstream := UNSENT),
            t := t.(pastTries := t.pastTries + [TryOf(w)]))
      else Check(st.(s := SendHijack(s, false)))
    case WaitNotify => if s.mine then Check(st.(s := s.(token := false))) else st.(pc := Halted)
    case UpRecvHeader =>
      if s.respHeaders then st.(pc := Reading)
      else Goto(st.(t := t.(skippedHeaders := true)), UpRecvData)
    case UpRecvData => if s.respData then st.(pc := Reading) else Goto(st, UpRecvTrailer)
    case UpRecvTrailer => if s.respTrailers then st.(pc := Gated(ReplyTrailers, false)) else Goto(st, End)
    case End => st.(pc := Halted)
  }

  function ReadStep(st: State): State {
    if st.pc == ReadingTrailers then st.(pc := Gated(ReplyHeaders(!st.s.respTrailers), false))
    else if st.w.phase == UpRecvData then st.(pc := Gated(ReplyData(!st.s.respTrailers), false))
    else if st.s.respData then st.(pc := Gated(ReplyHeaders(false), false))
    else st.(pc := ReadingTrailers)
  }

  /** doRetry after its headers: data, trailers, then the end of the method. */
  function RetryRest(st: State, from: Gate): State {
    if from == RetryHeaders && st.w.reqData then st.(pc := Gated(RetryData, false))
    else if from != RetryTrailers && st.w.reqTrailers then st.(pc := Gated(RetryTrailers, false))
    else Check(st.(w := st.w.(recvDone := true, requestSent := true)))
  }

  function PushUpstream(w: Worker, part: Part): Worker {
    if w.upstream.NoUpstream? then w else
    var u := w.upstream;
    w.(upstream := u.(
      sendComplete := part.end, dataSent := u.dataSent || part.kind == Data,
      trailerSent := u.trailerSent || part.kind == Trailers, sent := u.sent + [part]))
  }

  function CallNewStream(st: State): State {
    if st.w.upstream.NoUpstream? then st else
    st.(pc := Opening,
        w := st.w.(upstream := st.w.upstream.(sendComplete := !st.w.reqData && !st.w.reqTrailers,
                                              data := st.w.reqData, trailers := st.w.reqTrailers)),
        t := st.t.(opens := st.t.opens + 1))
  }

  /** processDone answered yes. */
  function GateShut(st: State, g: Gate): State {
    match g
    case SendHeaders => Check(st.(w := st.w.(requestSent := st.w.requestSent || (!st.w.reqData && !st.w.reqTrailers))))
    case RetryHeaders | RetryData | RetryTrailers => RetryRest(st, g)
    case SendData | SendTrailers => if st.w.processDone then st.(pc := Cleaning(0, false)) else Check(st)
    case _ => Check(st)
  }

  /** onUpstreamHeaders: a response that may be retried is dropped, any other starts the reply. */
  function OnUpstreamHeaders(c: Config, st: State, end: bool, ch: Choice): State {
    var w := st.w.(retry := UseRetry(st.w.retry));
    if MayRetry(st.w.retry, NoReason, ch) then Check(SetupRetry(st.(w := w), CauseOf(st.w.retry, NoReason, ch)))
    else PushClient(c, Check(st.(w := w.(started := true))), Part(Headers, end))
  }

  /** processDone answered no. */
  function GatePassed(c: Config, st: State, g: Gate, ch: Choice): State {
    var w := st.w;
    match g
    case SendHeaders | RetryHeaders => CallNewStream(st)
    case CheckData =>
      st.(pc := Gated(SendData, false),
          w := w.(recvDone := !w.reqTrailers, requestSent := w.requestSent || !w.reqTrailers))
    case SendData => Check(st.(w := PushUpstream(w, Part(Data, !w.reqTrailers))))
    case CheckTrailers => st.(pc := Gated(SendTrailers, false), w := w.(recvDone := true, requestSent := true))
    case SendTrailers => Check(st.(w := PushUpstream(w, Part(Trailers, true))))
    case RetryData => RetryRest(st.(w := PushUpstream(w, Part(Data, !w.reqTrailers))), g)
    case RetryTrailers => RetryRest(st.(w := PushUpstream(w, Part(Trailers, true))), g)
    case ReplyHeaders(end) => if Pending(w) then Check(st) else OnUpstreamHeaders(c, st, end, ch)
    case ReplyData(end) => if Pending(w) then Check(st) else PushClient(c, Check(st), Part(Data, end))
    case ReplyTrailers => if Pending(w) then Check(st) else PushClient(c, Check(st), Part(Trailers, true))
  }

  function SetupRetry(st: State, cause: Cause): State {
    if st.w.upstream.NoUpstream? then st else
    st.(w := st.w.(upstream := st.w.upstream.(setupRetry := true)), s := st.s.(received := false),
        t := st.t.(causes := st.t.causes + [cause]))
  }

  function GateStep(c: Config, st: State, g: Gate, second: bool, ch: Choice): State {
    if !second then
      if st.w.processDone || st.s.downstreamReset then GateShut(st, g) else st.(pc := Gated(g, true))
    else if st.s.upstreamReset then GateShut(st, g)
    else GatePassed(c, st, g, ch)
  }

  /** The pool's answer: onFailure raises the upstream reset, onReady sends the headers. */
  function PoolAnswer(st: State, ch: Choice): State {
    if st.w.upstream.NoUpstream? then st else
    var u := st.w.upstream;
    if ch.Refused? then
      st.(s := if st.s.upstreamReset || u.setupRetry then st.s
               else st.s.(upstreamReset := true, resetReason := ch.reason, token := true))
    else
      var end := u.sendComplete && !u.dataSent && !u.trailerSent;
      st.(w := st.w.(upstream := u.(ready := true, sent := u.sent + [Part(Headers, end)])))
  }

  function OpenStep(st: State, ch: Choice): State {
    if st.w.phase == Retry then RetryRest(PoolAnswer(st, ch), RetryHeaders)
    else GateShut(PoolAnswer(st, ch), SendHeaders)
  }

  /** onUpstreamReset: retry, or reset the client's stream, or queue an error reply. A global timeout
      and a reply that has begun rule out the retry check. */
  function OnUpstreamReset(st: State, ch: Choice): State {
    var w, s := st.w, st.s;
    if s.resetReason == GlobalTimeout || w.started then FailReset(st)
    else if MayRetry(w.retry, s.resetReason, ch) then
      var st' := SetupRetry(st.(w := w.(retry := UseRetry(w.retry))), CauseOf(w.retry, s.resetReason, ch));
      st'.(s := st'.s.(upstreamReset := false))
    else FailReset(st.(w := w.(retry := UseRetry(w.retry))))
  }

  function FailReset(st: State): State {
    if st.w.started then st.(w := st.w.(processDone := true))
    else st.(s := SendHijack(st.s.(upstreamReset := false), false))
  }

  /** processError found nothing to leave for: the next phase. */
  function Advance(st: State): State {
    if st.w.phase == UpFilter && st.w.upstream.NoUpstream? then Goto(st.(w := st.w.(upstream := UNSENT)), UpRecvHeader)
    else Goto(st, Next(st.w.phase))
  }

  /** The end of processError: a queued direct response first, then a retry, then a filter's wish. */
  function Decide(c: Config, st: State, exit: bool): State {
    var w, s := st.w, st.s;
    if s.direct then
      var st' := st.(w := w.(retry := NoRetry), s := s.(direct := false));
      if c.oneway then Leave(st', Oneway)
      else if w.phase != UpFilter then Leave(st', UpFilter)
      else if exit then Leave(st', End)
      else Advance(st'.(t := st.t.(lateHijack := st.t.lateHijack || w.again != InitPhase)))
    else if Pending(w) then Leave(st, Retry)
    else if w.again != InitPhase then Leave(st.(w := w.(again := InitPhase)), w.again)
    else if exit || w.processDone then Leave(st, End)
    else Advance(st)
  }

  function CheckStep(c: Config, st: State, k: nat, exit: bool, ch: Choice): State {
    if k == 0 then if !st.s.mine then Leave(st, End) else st.(pc := Checking(1, exit))
    else if k == 1 then if st.s.cleaned then Leave(st, End) else st.(pc := Checking(2, exit))
    else if k == 2 then
      if !st.s.upstreamReset then st.(pc := Checking(3, exit))
      else if c.oneway then Leave(st, Oneway)
      else OnUpstreamReset(st, ch).(pc := Checking(3, true))
    else if k == 3 then if st.s.downstreamReset then st.(pc := Cleaning(0, true)) else st.(pc := Checking(4, exit))
    else Decide(c, st, exit)
  }

  function CleanDone(st: State, toEnd: bool): State {
    if toEnd then Leave(st, End) else Check(st)
  }

  function CleanStep(c: Config, st: State, k: nat, toEnd: bool): State {
    var w, s, t := st.w, st.s, st.t;
    if k == 0 then
      if s.cleaned then CleanDone(st, toEnd)
      else st.(pc := Cleaning(1, toEnd), s := s.(cleaned := true), t := t.(cleans := t.cleans + 1),
               w := if w.upstream.Upstream? && !c.oneway then w.(processDone := true) else w)
    else if k == 1 then if s.reuse then st.(pc := Cleaning(2, toEnd)) else CleanDone(st, toEnd)
    else if k == 2 then if s.upstreamReset then CleanDone(st, toEnd) else st.(pc := Cleaning(3, toEnd))
    else if s.downstreamReset then CleanDone(st, toEnd)
    else CleanDone(st.(w := w.(given := true), s := s.(mine := false)), toEnd)
  }

  function WorkStep(c: Config, st: State, ch: Choice): State {
    match st.pc
    case Enter => EnterStep(c, st, ch)
    case Filtering => FilterStep(c, st, ch)
    case Reading | ReadingTrailers => ReadStep(st)
    case Gated(g, second) => GateStep(c, st, g, second, ch)
    case Opening => OpenStep(st, ch)
    case Checking(k, exit) => CheckStep(c, st, k, exit, ch)
    case Cleaning(k, toEnd) => CleanStep(c, st, k, toEnd)
    case Halted => st
  }

  // ---- the other goroutines ----

  /** Something the worker is to be woken up for is there for it to see. */
  predicate Standing(s: Shared) { s.respHeaders || s.upstreamReset || s.downstreamReset }

  /** What the other goroutines may do to the shared fields in any number of steps. They raise
      reset flags (an upstream reset only once the request has been sent, or tried to), claim and
      write responses, which carry headers, and clear the reuse flag; with late writes they also queue
      direct responses. A wake-up is sent for something that is there to see, or it was owed. Once the
      object is handed back its next user may write anything but the ID of this request. */
  predicate Rely(c: Config, st: State, s': Shared) {
    if st.w.given then !s'.mine else
    var s := st.s;
    && s'.mine == s.mine && s'.cleaned == s.cleaned
    && (s.upstreamReset ==> s'.upstreamReset) && (s'.upstreamReset ==> s.upstreamReset || st.t.firstSends > 0)
    && (s.downstreamReset ==> s'.downstreamReset)
    && (s.respHeaders ==> s'.respHeaders)
    && (s.direct ==> s'.direct) && (!c.lateWrites ==> s'.direct == s.direct)
    && (s'.reuse ==> s.reuse)
    && (s.token ==> s'.token)
    && (s'.token ==> s.token || Standing(s') || s'.owed < s.owed || c.lateWrites)
    && (s'.owed > s.owed ==> s'.upstreamReset && c.gaps)
  }

  /** The worker waits while the wake-up channel is empty. */
  predicate Enabled(c: Config, st: State, a: Action) {
    match a
    case Others(s') => Rely(c, st, s')
    case Work(_) => !st.pc.Halted? && (st.pc.Enter? && st.w.phase == WaitNotify && st.s.mine ==> st.s.token)
  }

  function Step(c: Config, st: State, a: Action): State {
    match a
    case Others(s') => st.(s := s')
    case Work(ch) => WorkStep(c, st, ch)
  }

  function Initial(reqData: bool, reqTrailers: bool): State {
    State(Enter,
          Worker(reqData, reqTrailers, InitPhase, InitPhase, NoUpstream, NoRetry, false, false, false, false, false),
          Shared(true, false, false, false, NoReason, false, false, false, false, false, true, false, 0),
          Trace(0, [], [], [], 0, 0, 0, 1, false, false))
  }

  /** A run is a list of actions, each possible where it happens. */
  ghost predicate Reaches(c: Config, st: State, acts: seq<Action>, st': State)
    decreases |acts|
  {
    if acts == [] then st' == st
    else Enabled(c, st, acts[0]) && Reaches(c, Step(c, st, acts[0]), acts[1..], st')
  }
}
