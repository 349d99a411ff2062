/**
 Timer callbacks, filter termination and the recycling of one pooled stream object.

 A `downStream` lives inside pooled memory and is used for one request after another; its ID
 tells the incarnations apart. A global timer, a per-try timer and `TerminateStream` each run a
 short sequence of atomic operations on the object at any later time, possibly after it has been
 cleaned, handed back and reused. The model takes every atomic operation as one step and lets the
 steps of all parties interleave freely.
 */
module StreamRecycle {

  /** How the struct reset of the pooled object becomes visible: in one step, the ID before the
      cleaned flag, or the cleaned flag before the ID. */
  datatype Order = AtOnce | IdFirst | FlagFirst

  /** Where the object is in its life, seen from the goroutine that drives the request. */
  datatype Stage =
    | Pooled     // free
    | Building   // a fresh ID is stored, the reuse flag is not yet
    | Live
    | Cleaned    // cleanStream won its compare-and-swap
    | ReuseSeen  // giveStream read reuseBuffer == 1
    | Giving     // giveStream saw neither reset
    | HalfReset  // the struct reset is half visible
    | Retired    // giveStream declined; the object is never handed back

  datatype Object = Object(
    id: nat, cleaned: bool, reuse: bool, received: bool,
    upstreamReset: bool, downstreamReset: bool, hasResponse: bool, stage: Stage)

  datatype Kind = Timer | Terminate

  datatype Progress =
    | Ready       // armed or called, nothing done yet
    | Stored      // reuseBuffer := 0 done
    | HeaderSeen  // TerminateStream found no response headers
    | FlagSeen    // read downstreamCleaned == 0
    | IdSeen      // read the ID it was armed for
    | Won         // its compare-and-swap on upstreamResponseReceived succeeded
    | Lost        // it failed
    | Gone        // it returned before the compare-and-swap

  datatype Callback = Callback(owner: nat, kind: Kind, at: Progress)

  datatype State = State(obj: Object, nextId: nat, callbacks: seq<Callback>)

  datatype Action =
    | Take(id: nat)              // newActiveStream stores a fresh ID
    | FinishBuild                // newActiveStream stores reuseBuffer = 1
    | ArmTimer                   // the live stream arms a timer
    | CallTerminate(owner: nat)  // a filter calls TerminateStream on a handler made for `owner`
    | Clean
    | ReadReuse
    | ReadResets
    | ResetFirst
    | ResetRest
    | Others(upstreamReset: bool, downstreamReset: bool, received: bool, hasResponse: bool)
    | Advance(callback: nat)     // one atomic operation of one callback

  const BLANK := Object(0, false, false, false, false, false, false, Pooled)

  const INITIAL := State(BLANK, 1, [])

  predicate Enabled(s: State, a: Action) {
    match a
    case Take(id) => s.obj.stage == Pooled && id >= s.nextId
    case FinishBuild => s.obj.stage == Building
    case ArmTimer => s.obj.stage == Live
    // the handler exists only after newActiveStream has returned
    case CallTerminate(owner) => 1 <= owner < s.nextId && !(s.obj.stage == Building && owner == s.obj.id)
    case Clean => s.obj.stage == Live
    case ReadReuse => s.obj.stage == Cleaned
    case ReadResets => s.obj.stage == ReuseSeen
    case ResetFirst => s.obj.stage == Giving
    case ResetRest => s.obj.stage == HalfReset
    case Others(_, _, _, _) => true
    case Advance(i) =>
      && i < |s.callbacks| && !s.callbacks[i].at.Won?
      && !s.callbacks[i].at.Lost? && !s.callbacks[i].at.Gone?
  }

  /** The next atomic operation of a callback: what it does to the object and where it gets to. */
  function CallbackStep(o: Object, c: Callback): (r: (Object, Progress)) {
    match c.at
    case Ready => (o.(reuse := false), Stored)
    case Stored =>
      if c.kind.Terminate? then (o, if o.hasResponse then Gone else HeaderSeen)
      else (o, if o.cleaned then Gone else FlagSeen)
    case HeaderSeen => (o, if o.cleaned then Gone else FlagSeen)
    case FlagSeen => (o, if o.id != c.owner then Gone else IdSeen)
    case IdSeen => if o.received then (o, Lost) else (o.(received := true), Won)
    case _ => (o, c.at)
  }

  function Step(order: Order, s: State, a: Action): (r: State) {
    var o := s.obj;
    match a
    case Take(id) => State(o.(id := id, stage := Building), id + 1, s.callbacks)
    case FinishBuild => s.(obj := o.(reuse := true, stage := Live))
    case ArmTimer => s.(callbacks := s.callbacks + [Callback(o.id, Timer, Ready)])
    case CallTerminate(owner) => s.(callbacks := s.callbacks + [Callback(owner, Terminate, Ready)])
    case Clean => s.(obj := o.(cleaned := true, stage := Cleaned))
    case ReadReuse => s.(obj := o.(stage := if o.reuse then ReuseSeen else Retired))
    case ReadResets => s.(obj := o.(stage := if o.upstreamReset || o.downstreamReset then Retired else Giving))
    case ResetFirst =>
      (match order
       case AtOnce => s.(obj := BLANK)
       case IdFirst => s.(obj := o.(id := 0, stage := HalfReset))
       case FlagFirst => s.(obj := o.(cleaned := false, stage := HalfReset)))
    case ResetRest => s.(obj := BLANK)
    case Others(u, d, r, h) =>
      s.(obj := o.(upstreamReset := u, downstreamReset := d, received := r, hasResponse := h))
    case Advance(i) =>
      if i < |s.callbacks| then
        var (o', p) := CallbackStep(o, s.callbacks[i]);
        State(o', s.nextId, s.callbacks[i := s.callbacks[i].(at := p)])
      else s
  }

  function Run(order: Order, s: State, acts: seq<Action>): (r: State)
    decreases |acts|
  {
    if acts == [] then s
    else Step(order, Run(order, s, acts[..|acts| - 1]), acts[|acts| - 1])
  }

  predicate Feasible(order: Order, s: State, acts: seq<Action>)
    decreases |acts|
  {
    acts == [] ||
    (Feasible(order, s, acts[..|acts| - 1]) && Enabled(Run(order, s, acts[..|acts| - 1]), acts[|acts| - 1]))
  }

  /** The callback got past its ID check: it is about to do, or has done, its compare-and-swap. */
  predicate Passed(c: Callback) {
    c.at.IdSeen? || c.at.Won? || c.at.Lost?
  }

  /** The object still belongs to the incarnation `id` and no hand-back is under way. */
  predicate HeldBy(o: Object, id: nat) {
    o.id == id && (o.stage.Live? || o.stage.Cleaned? || o.stage.Retired?)
  }

  ghost predicate CallbackInv(s: State, c: Callback) {
    && 1 <= c.owner < s.nextId
    && (c.owner == s.obj.id ==> s.obj.stage != Building)
    && (!c.at.Ready? && c.owner == s.obj.id && (s.obj.stage.Live? || s.obj.stage.Cleaned?) ==> !s.obj.reuse)
    && (c.at.FlagSeen? && c.owner == s.obj.id ==> HeldBy(s.obj, c.owner))
    && (Passed(c) ==> HeldBy(s.obj, c.owner))
  }

  ghost predicate Inv(s: State) {
    && 1 <= s.nextId
    && s.obj.id < s.nextId
    && (s.obj.stage.Pooled? || s.obj.stage.HalfReset? <==> s.obj.id == 0)
    && (s.obj.cleaned <==> !(s.obj.stage.Pooled? || s.obj.stage.Building? || s.obj.stage.Live?))
    && (forall k :: 0 <= k < |s.callbacks| ==> CallbackInv(s, s.callbacks[k]))
  }

  lemma StepKeepsInv(order: Order, s: State, a: Action)
    requires order != FlagFirst && Inv(s) && Enabled(s, a)
    ensures Inv(Step(order, s, a))
    ensures |s.callbacks| <= |Step(order, s, a).callbacks|
    ensures forall k :: 0 <= k < |s.callbacks| ==>
      && Step(order, s, a).callbacks[k].owner == s.callbacks[k].owner
      && (Passed(s.callbacks[k]) ==> Passed(Step(order, s, a).callbacks[k]))
  {
    var s' := Step(order, s, a);
    forall k | 0 <= k < |s'.callbacks|
      ensures CallbackInv(s', s'.callbacks[k])
    {
      if k < |s.callbacks| { assert CallbackInv(s, s.callbacks[k]); }
    }
  }

  lemma {:induction false} RunKeepsInv(order: Order, acts: seq<Action>)
    requires order != FlagFirst && Feasible(order, INITIAL, acts)
    ensures Inv(Run(order, INITIAL, acts))
    decreases |acts|
  {
    if acts != [] {
      var init := acts[..|acts| - 1];
      RunKeepsInv(order, init);
      StepKeepsInv(order, Run(order, INITIAL, init), acts[|acts| - 1]);
    }
  }

  /** Once past its ID check a callback stays past it, and the object stays with its incarnation,
      in every later state of the run. */
  lemma {:induction false} PassedStays(order: Order, acts: seq<Action>, i: nat, k: nat)
    requires order != FlagFirst && Feasible(order, INITIAL, acts) && i <= |acts|
    requires k < |Run(order, INITIAL, acts[..i]).callbacks|
    requires Passed(Run(order, INITIAL, acts[..i]).callbacks[k])
    ensures k < |Run(order, INITIAL, acts).callbacks|
    ensures Run(order, INITIAL, acts).callbacks[k].owner == Run(order, INITIAL, acts[..i]).callbacks[k].owner
    ensures Passed(Run(order, INITIAL, acts).callbacks[k])
    decreases |acts|
  {
    if i == |acts| {
      assert acts[..i] == acts;
    } else {
      var init := acts[..|acts| - 1];
      assert init[..i] == acts[..i];
      PassedStays(order, init, i, k);
      RunKeepsInv(order, init);
      StepKeepsInv(order, Run(order, INITIAL, init), acts[|acts| - 1]);
    }
  }

  /** In every run, a callback that reaches its compare-and-swap acts on the incarnation it was
      made for, and from then on the object is never handed back. */
  ghost predicate SafeUnder(order: Order) {
    forall acts: seq<Action>, i: nat, k: nat ::
      && Feasible(order, INITIAL, acts) && i <= |acts|
      && k < |Run(order, INITIAL, acts[..i]).callbacks|
      && Passed(Run(order, INITIAL, acts[..i]).callbacks[k])
      ==> HeldBy(Run(order, INITIAL, acts).obj, Run(order, INITIAL, acts[..i]).callbacks[k].owner)
  }

  lemma SafeWhenIdIsClearedInTime(order: Order)
    requires order != FlagFirst
    ensures SafeUnder(order)
  {
    forall acts: seq<Action>, i: nat, k: nat |
      && Feasible(order, INITIAL, acts) && i <= |acts|
      && k < |Run(order, INITIAL, acts[..i]).callbacks|
      && Passed(Run(order, INITIAL, acts[..i]).callbacks[k])
      ensures HeldBy(Run(order, INITIAL, acts).obj, Run(order, INITIAL, acts[..i]).callbacks[k].owner)
    {
      PassedStays(order, acts, i, k);
      RunKeepsInv(order, acts);
      assert CallbackInv(Run(order, INITIAL, acts), Run(order, INITIAL, acts).callbacks[k]);
    }
  }

  ghost predicate Reachable(order: Order, s: State) {
    exists acts: seq<Action> :: Feasible(order, INITIAL, acts) && Run(order, INITIAL, acts) == s
  }

  lemma ReachBy(order: Order, s: State, a: Action) returns (s': State)
    requires Reachable(order, s) && Enabled(s, a)
    ensures s' == Step(order, s, a) && Reachable(order, s')
  {
    s' := Step(order, s, a);
    var acts: seq<Action> :| Feasible(order, INITIAL, acts) && Run(order, INITIAL, acts) == s;
    var more := acts + [a];
    assert more[..|more| - 1] == acts;
    assert Feasible(order, INITIAL, more) && Run(order, INITIAL, more) == s';
  }

  /** Once cleaned, the object goes on to be handed back exactly if its reuse flag is up and neither side
      has reset. */
  lemma HandedBackExactly(order: Order, s: State)
    requires s.obj.stage == Cleaned
    ensures var s' := Step(order, s, ReadReuse);
            Enabled(s', ReadResets) && Enabled(Step(order, s', ReadResets), ResetFirst) <==>
            s.obj.reuse && !s.obj.upstreamReset && !s.obj.downstreamReset
  {}

  // ---- a callback that nobody disturbs ----

  /** Callback `i` runs alone, for at most `n` steps. */
  function Alone(order: Order, s: State, i: nat, n: nat): State
    decreases n
  {
    if n == 0 || !Enabled(s, Advance(i)) then s else Alone(order, Step(order, s, Advance(i)), i, n - 1)
  }

  /** From `s` to `s'` callback `i` has come to its end, and has won or not. */
  predicate EndsIn(s: State, s': State, i: nat, wins: bool) {
    && i < |s.callbacks| == |s'.callbacks| && !Enabled(s', Advance(i))
    && (s'.callbacks[i].at.Won? <==> wins)
    && s'.obj == s.obj.(received := s.obj.received || wins)
  }

  lemma AloneAtSwap(order: Order, s: State, i: nat, n: nat)
    requires i < |s.callbacks| && s.callbacks[i].at.IdSeen? && n >= 1
    ensures EndsIn(s, Alone(order, s, i, n), i, !s.obj.received)
  {}

  lemma AloneAtId(order: Order, s: State, i: nat, n: nat)
    requires i < |s.callbacks| && s.callbacks[i].at.FlagSeen? && n >= 2
    ensures EndsIn(s, Alone(order, s, i, n), i, s.obj.id == s.callbacks[i].owner && !s.obj.received)
  {
    var s' := Step(order, s, Advance(i));
    if s.obj.id == s.callbacks[i].owner {
      AloneAtSwap(order, s', i, n - 1);
    }
  }

  lemma AloneAtFlag(order: Order, s: State, i: nat, n: nat)
    requires i < |s.callbacks| && n >= 3
    requires s.callbacks[i].at.HeaderSeen? || (s.callbacks[i].kind.Timer? && s.callbacks[i].at.Stored?)
    ensures EndsIn(s, Alone(order, s, i, n), i,
                   !s.obj.cleaned && s.obj.id == s.callbacks[i].owner && !s.obj.received)
  {
    var s' := Step(order, s, Advance(i));
    if !s.obj.cleaned {
      AloneAtId(order, s', i, n - 1);
    }
  }

  lemma AloneAfterStore(order: Order, s: State, i: nat, n: nat)
    requires i < |s.callbacks| && s.callbacks[i].at.Stored? && n >= 4
    ensures EndsIn(s, Alone(order, s, i, n), i,
                   && !s.obj.cleaned && s.obj.id == s.callbacks[i].owner && !s.obj.received
                   && (s.callbacks[i].kind.Terminate? ==> !s.obj.hasResponse))
  {
    if s.callbacks[i].kind.Timer? {
      AloneAtFlag(order, s, i, n);
    } else if !s.obj.hasResponse {
      AloneAtFlag(order, Step(order, s, Advance(i)), i, n - 1);
    }
  }

  /** Left alone, a callback is through within five steps, and it wins exactly if the stream is still
      that of its own request, has not been cleaned and has no response: none claimed by anybody and,
      for a termination, none there. */
  lemma AloneWinsExactly(order: Order, s: State, i: nat)
    requires i < |s.callbacks| && s.callbacks[i].at.Ready?
    ensures var o, me, s' := s.obj, s.callbacks[i], Alone(order, s, i, 5);
            && |s'.callbacks| == |s.callbacks| && !Enabled(s', Advance(i))
            && (s'.callbacks[i].at.Won? <==>
                o.id == me.owner && !o.cleaned && !o.received && (me.kind.Terminate? ==> !o.hasResponse))
            && s'.obj == o.(reuse := false, received := o.received || s'.callbacks[i].at.Won?)
  {
    AloneAfterStore(order, Step(order, s, Advance(i)), i, 4);
  }

  const LIVE_WITH_TIMER := State(Object(1, false, true, false, false, false, false, Live), 2,
      [Callback(1, Timer, Ready)])

  const TIMER_HALFWAY :=
    State(Object(1, false, false, false, false, false, false, HalfReset), 2, [Callback(1, Timer, Stored)])

  const TIMER_ON_NEXT :=
    State(Object(2, false, true, true, false, false, false, Live), 3, [Callback(1, Timer, Won)])

  lemma LateTimerArmed(order: Order)
    ensures Reachable(order, LIVE_WITH_TIMER)
  {
    assert Feasible(order, INITIAL, []) && Run(order, INITIAL, []) == INITIAL;
    var s := ReachBy(order, INITIAL, Take(1));
    s := ReachBy(order, s, FinishBuild);
    s := ReachBy(order, s, ArmTimer);
  }

  lemma LateTimerStored()
    ensures Reachable(FlagFirst, TIMER_HALFWAY)
  {
    hide Reachable;
    LateTimerArmed(FlagFirst);
    var s := ReachBy(FlagFirst, LIVE_WITH_TIMER, Clean);
    s := ReachBy(FlagFirst, s, ReadReuse);
    s := ReachBy(FlagFirst, s, ReadResets);
    s := ReachBy(FlagFirst, s, Advance(0));
    s := ReachBy(FlagFirst, s, ResetFirst);
    assert s.callbacks == [Callback(1, Timer, Stored)] && s == TIMER_HALFWAY;
  }

  lemma LateTimerPastChecks()
    ensures Reachable(FlagFirst, TIMER_HALFWAY.(callbacks := [Callback(1, Timer, IdSeen)]))
  {
    hide Reachable;
    LateTimerStored();
    var s := ReachBy(FlagFirst, TIMER_HALFWAY, Advance(0));
    s := ReachBy(FlagFirst, s, Advance(0));
    assert s.callbacks == [Callback(1, Timer, IdSeen)] && s.obj == TIMER_HALFWAY.obj;
  }

  /** A late timer slips through a reset that clears the flag before the ID: it stores the reuse
      flag after giveStream read it, reads the cleared flag and the old ID, and then does its
      compare-and-swap on the next incarnation. */
  lemma LateTimerActsOnNextIncarnation()
    ensures Reachable(FlagFirst, TIMER_ON_NEXT)
  {
    hide Reachable;
    LateTimerPastChecks();
    var s := ReachBy(FlagFirst, TIMER_HALFWAY.(callbacks := [Callback(1, Timer, IdSeen)]), ResetRest);
    s := ReachBy(FlagFirst, s, Take(2));
    s := ReachBy(FlagFirst, s, FinishBuild);
    s := ReachBy(FlagFirst, s, Advance(0));
    assert s.callbacks == [Callback(1, Timer, Won)] && s == TIMER_ON_NEXT;
  }

  /** The protocol is safe for exactly those resets that clear the ID no later than the flag. */
  lemma SafeExactlyWhenIdIsClearedInTime(order: Order)
    ensures SafeUnder(order) <==> order != FlagFirst
  {
    if order != FlagFirst {
      SafeWhenIdIsClearedInTime(order);
    } else {
      LateTimerActsOnNextIncarnation();
      var acts: seq<Action> :| Feasible(order, INITIAL, acts) && Run(order, INITIAL, acts) == TIMER_ON_NEXT;
      assert acts[..|acts|] == acts;
      assert Passed(Run(order, INITIAL, acts[..|acts|]).callbacks[0]);
      assert !HeldBy(Run(order, INITIAL, acts).obj, 1);
    }
  }
}
