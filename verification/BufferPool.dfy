/**
 The per-request buffer pool. A holder has one slot for each registered kind of buffer and, after
 a transmit, a second row of slots with the buffers of another holder.
 */
module BufferPool {

  const MAX_KINDS := 16

  /** A buffer belongs to a kind; it is clean when it is new or has been reset. */
  datatype Buffer = Buffer(kind: nat, clean: bool)

  datatype Slot = Empty | Full(buffer: nat)

  datatype Holder = Holder(value: seq<Slot>, transmit: seq<Slot>, inUse: bool)

  datatype Row = Value | Transmit

  /** `free[k]` is the pool of kind k. A buffer is the position of its record in `buffers`. */
  datatype State = State(
    index: nat,
    free: seq<multiset<nat>>,
    buffers: seq<Buffer>,
    holders: seq<Holder>,
    freeHolders: multiset<nat>)

  function Nulls(n: nat): (s: seq<Slot>)
    ensures |s| == n && forall i :: 0 <= i < n ==> s[i] == Empty
  {
    if n == 0 then [] else Nulls(n - 1) + [Empty]
  }

  const NULL: seq<Slot> := Nulls(MAX_KINDS)

  predicate Rows(hs: seq<Holder>) {
    forall h :: 0 <= h < |hs| ==> |hs[h].value| == MAX_KINDS && |hs[h].transmit| == MAX_KINDS
  }

  predicate Shape(st: State) {
    st.index < MAX_KINDS && |st.free| == MAX_KINDS && Rows(st.holders)
  }

  function SlotAt(hs: seq<Holder>, h: nat, row: Row, k: nat): Slot
    requires Rows(hs) && h < |hs| && k < MAX_KINDS
  {
    if row == Value then hs[h].value[k] else hs[h].transmit[k]
  }

  /** What a slot of kind k may hold: nothing, or a buffer of that kind that is not in a pool. */
  predicate SlotOk(st: State, k: nat, s: Slot)
    requires Shape(st) && k < MAX_KINDS
  {
    s.Full? ==>
      && 1 <= k <= st.index && s.buffer < |st.buffers|
      && st.buffers[s.buffer].kind == k && s.buffer !in st.free[k]
  }

  /** A pool holds clean buffers of its kind, each once. */
  ghost predicate PoolOk(pool: multiset<nat>, buffers: seq<Buffer>, k: nat) {
    forall b :: b in pool ==> b < |buffers| && buffers[b] == Buffer(k, true) && pool[b] == 1
  }

  /** No buffer is in two slots. */
  predicate SlotsApart(hs: seq<Holder>)
    requires Rows(hs)
  {
    forall h, row, h', row', k | 0 <= h < |hs| && 0 <= h' < |hs| && 0 <= k < MAX_KINDS ::
      (h != h' || row != row') && SlotAt(hs, h, row, k).Full? ==> SlotAt(hs, h, row, k) != SlotAt(hs, h', row', k)
  }

  /** Holders that nobody has acquired are empty, and in the pool of holders once. */
  ghost predicate HoldersOk(hs: seq<Holder>, pool: multiset<nat>) {
    && (forall h :: h in pool ==> h < |hs| && !hs[h].inUse && pool[h] == 1)
    && (forall h :: 0 <= h < |hs| && !hs[h].inUse ==> hs[h].value == hs[h].transmit == NULL)
  }

  ghost predicate Inv(st: State) {
    && Shape(st)
    && (forall k :: 0 <= k < MAX_KINDS ==> PoolOk(st.free[k], st.buffers, k))
    && (forall h, row, k :: 0 <= h < |st.holders| && 0 <= k < MAX_KINDS ==>
       SlotOk(st, k, SlotAt(st.holders, h, row, k)))
    && SlotsApart(st.holders)
    && HoldersOk(st.holders, st.freeHolders)
  }

  /** The buffer is in no pool and no slot. */
  ghost predicate Loose(st: State, b: nat)
    requires Shape(st)
  {
    && (forall k :: 0 <= k < MAX_KINDS ==> b !in st.free[k])
    && (forall h, row, k :: 0 <= h < |st.holders| && 0 <= k < MAX_KINDS ==> SlotAt(st.holders, h, row, k) != Full(b))
  }

  /** A place a buffer can be in. */
  datatype Place = InPool(kind: nat) | InSlot(holder: nat, row: Row, kind: nat)

  predicate Has(st: State, p: Place, b: nat)
    requires Shape(st)
  {
    match p
    case InPool(k) => k < MAX_KINDS && b in st.free[k]
    case InSlot(h, row, k) => h < |st.holders| && k < MAX_KINDS && SlotAt(st.holders, h, row, k) == Full(b)
  }

  /** No buffer is in two places, nor in one pool twice, nor in a place of another kind; and what a
      pool holds is clean. */
  lemma OnePlace(st: State, p: Place, q: Place, b: nat)
    requires Inv(st) && Has(st, p, b) && Has(st, q, b)
    ensures p == q && b < |st.buffers| && st.buffers[b].kind == p.kind
    ensures p.InPool? ==> st.free[p.kind][b] == 1 && st.buffers[b].clean
  {
    PlaceKind(st, p, b);
    PlaceKind(st, q, b);
  }

  lemma PlaceKind(st: State, p: Place, b: nat)
    requires Inv(st) && Has(st, p, b)
    ensures b < |st.buffers| && st.buffers[b].kind == p.kind < MAX_KINDS
    ensures p.InPool? ==> st.free[p.kind][b] == 1 && st.buffers[b].clean
    ensures p.InSlot? ==> b !in st.free[p.kind]
  {
    match p
    case InPool(k) => assert PoolOk(st.free[k], st.buffers, k);
    case InSlot(h, row, k) => assert SlotOk(st, k, SlotAt(st.holders, h, row, k));
  }

  // ---- the moves ----

  function SetSlot(st: State, h: nat, row: Row, k: nat, s: Slot): State
    requires Shape(st) && h < |st.holders| && k < MAX_KINDS
  {
    var x := st.holders[h];
    st.(holders := st.holders[h := if row == Value then x.(value := x.value[k := s])
        else x.(transmit := x.transmit[k := s])])
  }

  /** Resets a buffer and puts it in the pool of kind k. */
  function Put(st: State, k: nat, b: nat): State
    requires Shape(st) && k < MAX_KINDS && b < |st.buffers|
  {
    st.(buffers := st.buffers[b := st.buffers[b].(clean := true)], free := st.free[k := st.free[k] + multiset{b}])
  }

  /** A loose buffer goes back to its pool. */
  lemma PutLoose(st: State, k: nat, b: nat)
    requires Inv(st) && Loose(st, b) && k < MAX_KINDS && b < |st.buffers| && st.buffers[b].kind == k
    ensures Inv(Put(st, k, b))
  {
    hide SlotsApart, HoldersOk;
    var end := Put(st, k, b);
    forall h', row', k' | 0 <= h' < |end.holders| && 0 <= k' < MAX_KINDS
      ensures SlotOk(end, k', SlotAt(end.holders, h', row', k'))
    {
      assert SlotOk(st, k', SlotAt(st.holders, h', row', k'));
    }
    forall k' | 0 <= k' < MAX_KINDS
      ensures PoolOk(end.free[k'], end.buffers, k')
    {
      assert PoolOk(st.free[k'], st.buffers, k');
    }
  }

  /** A slot's buffer goes back to its pool. */
  lemma PutKeepsInv(st: State, h: nat, row: Row, k: nat)
    requires Inv(st) && h < |st.holders| && k < MAX_KINDS && SlotAt(st.holders, h, row, k).Full?
    ensures Inv(Put(SetSlot(st, h, row, k, Empty), k, SlotAt(st.holders, h, row, k).buffer))
  {
    hide SlotsApart, HoldersOk, Loose, Put;
    assert SlotOk(st, k, SlotAt(st.holders, h, row, k));
    ClearKeepsInv(st, h, row, k);
    PutLoose(SetSlot(st, h, row, k, Empty), k, SlotAt(st.holders, h, row, k).buffer);
  }

  lemma SetSlotAt(st: State, h: nat, row: Row, k: nat, s: Slot, h': nat, row': Row, k': nat)
    requires Shape(st) && h < |st.holders| && k < MAX_KINDS && h' < |st.holders| && k' < MAX_KINDS
    ensures Shape(SetSlot(st, h, row, k, s))
    ensures SlotAt(SetSlot(st, h, row, k, s).holders, h', row', k')
            == if h' == h && row' == row && k' == k then s else SlotAt(st.holders, h', row', k')
  {}

  /** Filling a slot with something no other slot has keeps the slots apart. */
  lemma SetSlotApart(st: State, h: nat, row: Row, k: nat, s: Slot)
    requires Shape(st) && SlotsApart(st.holders) && h < |st.holders| && k < MAX_KINDS
    requires s.Full? ==> forall h', row' :: 0 <= h' < |st.holders| ==> SlotAt(st.holders, h', row', k) != s
    ensures Shape(SetSlot(st, h, row, k, s)) && SlotsApart(SetSlot(st, h, row, k, s).holders)
  {
    hide SlotAt;
    var end := SetSlot(st, h, row, k, s);
    SetSlotAt(st, h, row, k, s, h, row, k);
    forall h1, row1, h2, row2, k' | 0 <= h1 < |end.holders| && 0 <= h2 < |end.holders| && 0 <= k' < MAX_KINDS
      ensures (h1 != h2 || row1 != row2) && SlotAt(end.holders, h1, row1, k').Full? ==>
              SlotAt(end.holders, h1, row1, k') != SlotAt(end.holders, h2, row2, k')
    {
      SetSlotAt(st, h, row, k, s, h1, row1, k');
      SetSlotAt(st, h, row, k, s, h2, row2, k');
    }
  }

  lemma ClearKeepsInv(st: State, h: nat, row: Row, k: nat)
    requires Inv(st) && h < |st.holders| && k < MAX_KINDS
    ensures Inv(SetSlot(st, h, row, k, Empty))
    ensures SlotAt(st.holders, h, row, k).Full? ==>
            Loose(SetSlot(st, h, row, k, Empty), SlotAt(st.holders, h, row, k).buffer)
  {
    var end := SetSlot(st, h, row, k, Empty);
    SetSlotApart(st, h, row, k, Empty);
    forall h', row', k' | 0 <= h' < |end.holders| && 0 <= k' < MAX_KINDS
      ensures SlotAt(end.holders, h', row', k') == if h' == h && row' == row
              && k' == k then Empty else SlotAt(st.holders, h', row', k')
      ensures SlotOk(end, k', SlotAt(end.holders, h', row', k'))
    {
      SetSlotAt(st, h, row, k, Empty, h', row', k');
      assert SlotOk(st, k', SlotAt(st.holders, h', row', k'));
    }
    forall k' | 0 <= k' < MAX_KINDS ensures PoolOk(end.free[k'], end.buffers, k') {
      assert PoolOk(st.free[k'], st.buffers, k');
    }
    assert SlotOk(st, k, SlotAt(st.holders, h, row, k));
    assert NULL[k := Empty] == NULL;
  }

  /** What `sync.Pool.Get` may answer: nothing, or any of its members. */
  datatype Answer = Nil | Member(x: nat)

  predicate Possible(pool: multiset<nat>, a: Answer) { a.Member? ==> a.x in pool }

  /** `take`: the pool's answer, or a new buffer. */
  function Withdraw(st: State, k: nat, a: Answer): (State, nat)
    requires Shape(st) && k < MAX_KINDS
  {
    match a
    case Nil => (st.(buffers := st.buffers + [Buffer(k, true)]), |st.buffers|)
    case Member(b) => (st.(free := st.free[k := st.free[k] - multiset{b}]), b)
  }

  lemma WithdrawKeepsInv(st: State, k: nat, a: Answer)
    requires Inv(st) && k < MAX_KINDS && Possible(st.free[k], a)
    ensures var (end, b) := Withdraw(st, k, a);
            Inv(end) && b < |end.buffers| && end.buffers[b] == Buffer(k, true) && Loose(end, b)
  {
    hide SlotsApart, HoldersOk;
    var (end, b) := Withdraw(st, k, a);
    assert PoolOk(st.free[k], st.buffers, k);
    forall k' | 0 <= k' < MAX_KINDS
      ensures PoolOk(end.free[k'], end.buffers, k') && b !in end.free[k']
    {
      assert PoolOk(st.free[k'], st.buffers, k');
    }
    forall h, row, k' | 0 <= h < |st.holders| && 0 <= k' < MAX_KINDS
      ensures SlotAt(st.holders, h, row, k') != Full(b) && SlotOk(end, k', SlotAt(st.holders, h, row, k'))
    {
      assert SlotOk(st, k', SlotAt(st.holders, h, row, k'));
    }
  }

  lemma FillKeepsInv(st: State, h: nat, k: nat, b: nat)
    requires Inv(st) && h < |st.holders| && st.holders[h].inUse && 1 <= k <= st.index
    requires b < |st.buffers| && st.buffers[b].kind == k && Loose(st, b)
    ensures Inv(SetSlot(st, h, Value, k, Full(b)))
  {
    var end := SetSlot(st, h, Value, k, Full(b));
    SetSlotApart(st, h, Value, k, Full(b));
    forall h', row', k' | 0 <= h' < |end.holders| && 0 <= k' < MAX_KINDS
      ensures SlotAt(end.holders, h', row', k') == if h' == h && row' == Value
              && k' == k then Full(b) else SlotAt(st.holders, h', row', k')
      ensures SlotOk(end, k', SlotAt(end.holders, h', row', k'))
    {
      assert SlotOk(st, k', SlotAt(st.holders, h', row', k'));
    }
    forall k' | 0 <= k' < MAX_KINDS ensures PoolOk(end.free[k'], end.buffers, k') {
      assert PoolOk(st.free[k'], st.buffers, k');
    }
  }

  /** A holder's buffers become the transmitted buffers of another holder, whose own are dropped. */
  function Transmitted(st: State, dst: nat, src: nat): State
    requires dst < |st.holders| && src < |st.holders|
  {
    var st' := st.(holders := st.holders[dst := st.holders[dst].(transmit := st.holders[src].value)]);
    st'.(holders := st'.holders[src := st'.holders[src].(value := NULL)])
  }

  /** Where the contents of a slot come from. */
  lemma TransmittedSlots(st: State, dst: nat, src: nat, h: nat, row: Row, k: nat)
    requires Shape(st) && dst < |st.holders| && src < |st.holders| && h < |st.holders| && k < MAX_KINDS
    ensures Shape(Transmitted(st, dst, src))
    ensures SlotAt(Transmitted(st, dst, src).holders, h, row, k)
            == if row == Transmit && h == dst then SlotAt(st.holders, src, Value, k)
               else if row == Value && h == src then Empty else SlotAt(st.holders, h, row, k)
  {}

  lemma TransmitKeepsInv(st: State, dst: nat, src: nat)
    requires Inv(st) && dst < |st.holders| && src < |st.holders| && st.holders[dst].inUse
    ensures Inv(Transmitted(st, dst, src))
  {
    hide SlotsApart;
    var end := Transmitted(st, dst, src);
    forall h, row, k | 0 <= h < |end.holders| && 0 <= k < MAX_KINDS
      ensures SlotAt(end.holders, h, row, k)
              == if row == Transmit && h == dst then SlotAt(st.holders, src, Value, k)
                 else if row == Value && h == src then Empty else SlotAt(st.holders, h, row, k)
      ensures SlotOk(end, k, SlotAt(end.holders, h, row, k))
    {
      TransmittedSlots(st, dst, src, h, row, k);
      assert SlotOk(st, k, SlotAt(st.holders, src, Value, k)) && SlotOk(st, k, SlotAt(st.holders, h, row, k));
    }
    TransmitApart(st, dst, src);
    forall k | 0 <= k < MAX_KINDS ensures PoolOk(end.free[k], end.buffers, k) {
      assert PoolOk(st.free[k], st.buffers, k);
    }
  }

  lemma TransmitApart(st: State, dst: nat, src: nat)
    requires Shape(st) && SlotsApart(st.holders) && dst < |st.holders| && src < |st.holders|
    ensures Shape(Transmitted(st, dst, src)) && SlotsApart(Transmitted(st, dst, src).holders)
  {
    hide SlotAt, Transmitted;
    var end := Transmitted(st, dst, src);
    TransmittedShape(st, dst, src);
    forall h, row, h', row', k | 0 <= h < |end.holders| && 0 <= h' < |end.holders| && 0 <= k < MAX_KINDS
      ensures (h != h' || row != row') && SlotAt(end.holders, h, row, k).Full? ==>
              SlotAt(end.holders, h, row, k) != SlotAt(end.holders, h', row', k)
    {
      TransmittedSlots(st, dst, src, h, row, k);
      TransmittedSlots(st, dst, src, h', row', k);
    }
  }

  lemma TransmittedShape(st: State, dst: nat, src: nat)
    requires Shape(st) && dst < |st.holders| && src < |st.holders|
    ensures Shape(Transmitted(st, dst, src)) && |Transmitted(st, dst, src).holders| == |st.holders|
  {}

  /** The buffer is in some pool or slot. */
  ghost predicate Placed(st: State, b: nat)
    requires Shape(st)
  {
    !Loose(st, b)
  }

  /** Nothing is transmitted from a holder with nothing. */
  function AfterTransmit(st: State, dst: nat, src: nat): State
    requires dst < |st.holders| && src < |st.holders|
  {
    if st.holders[src].value == NULL then st else Transmitted(st, dst, src)
  }

  /** A transmit drops no buffer exactly when there is none to transmit, or the receiver had none
      transmitted to it before. */
  lemma TransmitLosesNothing(st: State, dst: nat, src: nat)
    requires Inv(st) && dst < |st.holders| && src < |st.holders| && st.holders[dst].inUse
    ensures Shape(AfterTransmit(st, dst, src))
    ensures (forall b: nat :: Placed(st, b) ==> Placed(AfterTransmit(st, dst, src), b))
            <==> st.holders[src].value == NULL || st.holders[dst].transmit == NULL
  {
    hide Loose, SlotAt;
    var end := AfterTransmit(st, dst, src);
    TransmittedShape(st, dst, src);
    if st.holders[src].value == NULL {
    } else if st.holders[dst].transmit == NULL {
      forall b: nat | Placed(st, b)
        ensures Placed(end, b)
      {
        StillPlaced(st, dst, src, b);
      }
    } else {
      var k := FirstFull(st.holders[dst].transmit);
      var b := st.holders[dst].transmit[k].buffer;
      NowLoose(st, dst, src, k);
      assert Placed(st, b) && !Placed(end, b);
    }
  }

  lemma FirstFull(s: seq<Slot>) returns (k: nat)
    requires |s| == MAX_KINDS && s != NULL
    ensures k < |s| && s[k].Full?
  {
    k :| k < |s| && s[k] != NULL[k];
  }

  lemma StillPlaced(st: State, dst: nat, src: nat, b: nat)
    requires Inv(st) && dst < |st.holders| && src < |st.holders| && st.holders[dst].transmit == NULL && Placed(st, b)
    ensures Shape(Transmitted(st, dst, src)) && Placed(Transmitted(st, dst, src), b)
  {
    TransmittedShape(st, dst, src);
    if k :| 0 <= k < MAX_KINDS && b in st.free[k] {
      assert b in Transmitted(st, dst, src).free[k];
    } else {
      var h, row, k :| 0 <= h < |st.holders| && 0 <= k < MAX_KINDS && SlotAt(st.holders, h, row, k) == Full(b);
      if row == Value && h == src {
        TransmittedSlots(st, dst, src, dst, Transmit, k);
      } else {
        TransmittedSlots(st, dst, src, h, row, k);
      }
    }
  }

  lemma NowLoose(st: State, dst: nat, src: nat, k: nat)
    requires Inv(st) && dst < |st.holders| && src < |st.holders| && k < MAX_KINDS && st.holders[dst].transmit[k].Full?
    ensures Placed(st, st.holders[dst].transmit[k].buffer)
    ensures Shape(Transmitted(st, dst, src)) && Loose(Transmitted(st, dst, src), st.holders[dst].transmit[k].buffer)
  {
    var end := Transmitted(st, dst, src);
    var b := st.holders[dst].transmit[k].buffer;
    assert SlotAt(st.holders, dst, Transmit, k) == Full(b);
    TransmittedShape(st, dst, src);
    assert SlotOk(st, k, SlotAt(st.holders, dst, Transmit, k));
    forall h, row, k' | 0 <= h < |end.holders| && 0 <= k' < MAX_KINDS
      ensures SlotAt(end.holders, h, row, k') != Full(b)
    {
      TransmittedSlots(st, dst, src, h, row, k');
      assert SlotOk(st, k', SlotAt(st.holders, h, row, k')) && SlotOk(st, k', SlotAt(st.holders, src, Value, k'));
    }
    forall k' | 0 <= k' < MAX_KINDS ensures b !in end.free[k'] {
      assert PoolOk(st.free[k'], st.buffers, k');
    }
  }

  datatype FindResult = Panic | Got(buffer: nat)

  /** All pools and holders of the process. `index` is the number of registered kinds. */
  class Pools {
    const index: nat
    var free: seq<multiset<nat>>
    var buffers: seq<Buffer>
    var holders: seq<Holder>
    var freeHolders: multiset<nat>

    ghost function View(): State
      reads this
    {
      State(index, free, buffers, holders, freeHolders)
    }

    ghost predicate InUse(h: nat)
      reads this
    {
      h < |holders| && holders[h].inUse
    }

    constructor (kinds: nat)
      requires kinds < MAX_KINDS
      ensures Inv(View()) && index == kinds
    {
      index := kinds;
      free := seq(MAX_KINDS, i => multiset{});
      buffers, holders, freeHolders := [], [], multiset{};
    }

    /** A holder is a pooled one or a new one; either way it is empty and nobody else's. */
    method NewBufferValue(a: Answer) returns (h: nat)
      requires Inv(View()) && Possible(freeHolders, a)
      modifies this
      ensures Inv(View()) && InUse(h) && holders[h].value == holders[h].transmit == NULL
      ensures !old(InUse(h)) && forall h' :: h' != h ==> (InUse(h') <==> old(InUse(h')))
      ensures free == old(free) && buffers == old(buffers)
    {
      match a
      case Nil =>
        h := |holders|;
        holders := holders + [Holder(NULL, NULL, true)];
        NewHolderKeepsInv(old(View()));
      case Member(x) =>
        h := x;
        freeHolders := freeHolders - multiset{x};
        holders := holders[h := holders[h].(inUse := true)];
        AcquireKeepsInv(old(View()), h);
    }

    /** Whoever holds a buffer may write to it. */
    method Touch(b: nat)
      requires Inv(View()) && b < |buffers|
      requires exists h, row, k :: InUse(h) && 0 <= k < MAX_KINDS && SlotAt(holders, h, row, k) == Full(b)
      modifies this
      ensures Inv(View()) && View() == old(View()).(buffers := buffers)
      ensures buffers == old(buffers)[b := old(buffers)[b].(clean := false)]
    {
      buffers := buffers[b := buffers[b].(clean := false)];
      TouchKeepsInv(old(View()), b);
    }

    /** A buffer of the kind, new or reset, that nobody else has. */
    method Take(h: nat, k: nat, a: Answer) returns (b: nat)
      requires Inv(View()) && InUse(h) && 1 <= k <= index && Possible(free[k], a)
      modifies this
      ensures Inv(View()) && b < |buffers| && buffers[b] == Buffer(k, true)
      ensures View() == SetSlot(Withdraw(old(View()), k, a).0, h, Value, k, Full(b))
              && b == Withdraw(old(View()), k, a).1
      ensures forall h', row, k' :: 0 <= h' < |old(holders)| && 0 <= k' < MAX_KINDS ==>
              SlotAt(old(holders), h', row, k') != Full(b)
    {
      WithdrawKeepsInv(View(), k, a);
      match a {
        case Nil =>
          b := |buffers|;
          buffers := buffers + [Buffer(k, true)];
        case Member(x) =>
          b := x;
          free := free[k := free[k] - multiset{x}];
      }
      ghost var mid := View();
      assert mid == Withdraw(old(View()), k, a).0 && Loose(mid, b);
      holders := holders[h := holders[h].(value := holders[h].value[k := Full(b)])];
      FillKeepsInv(mid, h, k, b);
    }

    /** The holder's buffer of the kind, taken from the pool on first use. */
    method Find(h: nat, k: int, a: Answer) returns (r: FindResult)
      requires Inv(View()) && InUse(h) && (1 <= k <= index ==> Possible(free[k], a))
      modifies this
      ensures Inv(View()) && InUse(h) && (r == Panic <==> !(1 <= k <= index))
      ensures r == Panic || old(SlotAt(holders, h, Value, k)).Full? ==> View() == old(View())
      ensures r.Got? ==> r.buffer < |buffers| && SlotAt(holders, h, Value, k) == Full(r.buffer)
      ensures r.Got? && old(SlotAt(holders, h, Value, k)).Empty? ==> buffers[r.buffer] == Buffer(k, true)
    {
      if k <= 0 || k > index {
        return Panic;
      }
      if holders[h].value[k].Full? {
        assert SlotOk(View(), k, SlotAt(holders, h, Value, k));
        return Got(holders[h].value[k].buffer);
      }
      var b := Take(h, k, a);
      return Got(b);
    }

    method TransmitBuffers(dst: nat, src: nat)
      requires Inv(View()) && InUse(dst) && InUse(src)
      modifies this
      ensures Inv(View()) && View() == AfterTransmit(old(View()), dst, src)
    {
      if holders[src].value == NULL {
        return;
      }
      holders := holders[dst := holders[dst].(transmit := holders[src].value)];
      holders := holders[src := holders[src].(value := NULL)];
      TransmitKeepsInv(old(View()), dst, src);
    }

    /** Resets a buffer and returns it to the pool of its kind. */
    method GiveBuffer(k: nat, b: nat)
      requires Shape(View()) && k < MAX_KINDS && b < |buffers|
      modifies `free, `buffers
      ensures View() == Put(old(View()), k, b)
    {
      buffers := buffers[b := buffers[b].(clean := true)];
      free := free[k := free[k] + multiset{b}];
    }

    /** Every buffer of the holder goes back to the pool of its kind, clean; the holder goes back to
        the pool of holders, empty. */
    method Give(h: nat)
      requires Inv(View()) && InUse(h)
      modifies this
      ensures Inv(View())
      ensures index == 0 ==> View() == old(View())
      ensures index > 0 ==> holders == old(holders)[h := Holder(NULL, NULL, false)]
      ensures index > 0 ==> freeHolders == old(freeHolders) + multiset{h}
      ensures index > 0 ==> forall k :: 0 <= k < MAX_KINDS ==>
                free[k] == old(free)[k] + Contents(old(holders)[h], k)
    {
      if index <= 0 {
        return;
      }
      hide Inv, Contents;
      ghost var left := GiveBuffers(h);
      holders := holders[h := Holder(NULL, NULL, false)];
      freeHolders := freeHolders + multiset{h};
      ReleaseKeepsInv(left, h);
      assert left.holders[h := Holder(NULL, NULL, false)] == holders;
    }

    /** The loop of Give. `left` is the state with the slots that were given emptied. */
    method GiveBuffers(h: nat) returns (ghost left: State)
      requires Inv(View()) && InUse(h)
      modifies `free, `buffers
      ensures Inv(left) && Shape(old(View())) && left.(holders := holders) == View()
      ensures left.holders == holders[h := Holder(NULL, NULL, true)] && h !in freeHolders
      ensures |free| == MAX_KINDS
      ensures forall k :: 0 <= k < MAX_KINDS ==> free[k] == old(free)[k] + Contents(holders[h], k)
    {
      hide Inv, Cleared, ClearedAt, Contents, Put;
      left := View();
      EmptyEnds(left, h);
      for i := 1 to index + 1
        invariant Inv(left) && left.(holders := holders) == View()
        invariant left.holders == holders[h := Cleared(holders[h], i)]
        invariant |free| == MAX_KINDS
        invariant forall k :: 0 <= k < MAX_KINDS ==>
                  free[k] == if 1 <= k < i then old(free)[k] + Contents(holders[h], k) else old(free)[k]
      {
        InvShape(left);
        ClearedLater(holders[h], i);
        left := GiveKind(left, h, i);
        ClearedStep(holders[h], i);
      }
    }

    /** Gives both buffers of one kind. */
    method GiveKind(ghost left: State, h: nat, k: nat) returns (ghost left': State)
      requires Inv(left) && left.(holders := holders) == View() && |left.holders| == |holders|
      requires Shape(View()) && h < |holders| && 1 <= k <= index
      requires left.holders[h].value[k] == holders[h].value[k] && left.holders[h].transmit[k] == holders[h].transmit[k]
      modifies `free, `buffers
      ensures Inv(left') && left'.(holders := holders) == View()
      ensures left'.holders == left.holders[h := ClearedAt(left.holders[h], k)]
      ensures free == old(free)[k := old(free)[k] + Contents(left.holders[h], k)]
    {
      hide Inv;
      InvShape(left);
      var mid := GiveValue(left, h, Value, k);
      InvShape(mid);
      left' := GiveValue(mid, h, Transmit, k);
      assert old(free)[k] + Contents(left.holders[h], k)
          == old(free)[k] + Content(SlotAt(left.holders, h, Value, k)) + Content(SlotAt(left.holders, h, Transmit, k));
    }

    /** Gives the buffer of one slot, if any. The slot itself is emptied at the end of Give: until
        then the ghost state `left` is the one without it. */
    method GiveValue(ghost left: State, h: nat, row: Row, k: nat) returns (ghost left': State)
      requires Inv(left) && left.(holders := holders) == View() && |left.holders| == |holders|
      requires Shape(View()) && h < |holders| && 1 <= k <= index
               && SlotAt(left.holders, h, row, k) == SlotAt(holders, h, row, k)
      modifies `free, `buffers
      ensures Inv(left') && left'.(holders := holders) == View()
      ensures left'.holders == SetSlot(left, h, row, k, Empty).holders
      ensures free == old(free)[k := old(free)[k] + Content(SlotAt(left.holders, h, row, k))]
    {
      var s := if row == Value then holders[h].value[k] else holders[h].transmit[k];
      if s.Full? {
        assert SlotOk(left, k, s);
        GiveBuffer(k, s.buffer);
        PutKeepsInv(left, h, row, k);
        left' := Put(SetSlot(left, h, row, k, Empty), k, s.buffer);
      } else {
        ClearKeepsInv(left, h, row, k);
        left' := SetSlot(left, h, row, k, Empty);
        assert free[k] + multiset{} == free[k];
      }
    }
  }

  /** The buffers in a slot. */
  function Content(s: Slot): multiset<nat> { if s.Full? then multiset{s.buffer} else multiset{} }

  function Contents(x: Holder, k: nat): multiset<nat>
    requires k < |x.value| && k < |x.transmit|
  {
    Content(x.value[k]) + Content(x.transmit[k])
  }

  function ClearedAt(x: Holder, k: nat): Holder
    requires k < |x.value| && k < |x.transmit|
  {
    x.(value := x.value[k := Empty], transmit := x.transmit[k := Empty])
  }

  /** The holder with its first n slots empty. */
  function Cleared(x: Holder, n: nat): Holder
    requires |x.value| == |x.transmit| == MAX_KINDS && n <= MAX_KINDS
  {
    x.(value := NULL[..n] + x.value[n..], transmit := NULL[..n] + x.transmit[n..])
  }

  lemma ClearedLater(x: Holder, n: nat)
    requires |x.value| == |x.transmit| == MAX_KINDS && n < MAX_KINDS
    ensures |Cleared(x, n).value| == |Cleared(x, n).transmit| == MAX_KINDS
    ensures Cleared(x, n).value[n] == x.value[n] && Cleared(x, n).transmit[n] == x.transmit[n]
    ensures Contents(Cleared(x, n), n) == Contents(x, n)
  {}

  lemma ClearedStep(x: Holder, n: nat)
    requires |x.value| == |x.transmit| == MAX_KINDS && n < MAX_KINDS
    ensures ClearedAt(Cleared(x, n), n) == Cleared(x, n + 1)
  {
    assert NULL[..n + 1] == NULL[..n] + [Empty];
    assert (NULL[..n] + x.value[n..])[n := Empty] == NULL[..n + 1] + x.value[n + 1..];
    assert (NULL[..n] + x.transmit[n..])[n := Empty] == NULL[..n + 1] + x.transmit[n + 1..];
  }

  lemma InvShape(st: State)
    requires Inv(st)
    ensures Shape(st)
  {}

  /** Clearing slots that are empty changes nothing. */
  lemma ClearEmpty(x: Holder, n: nat)
    requires |x.value| == |x.transmit| == MAX_KINDS && n <= MAX_KINDS
    ensures (forall k :: 0 <= k < n ==> x.value[k] == x.transmit[k] == Empty) ==> Cleared(x, n) == x
    ensures (forall k :: n <= k < MAX_KINDS ==> x.value[k] == x.transmit[k] == Empty) ==>
            Cleared(x, n) == x.(value := NULL, transmit := NULL)
  {
    if forall k :: 0 <= k < n ==> x.value[k] == x.transmit[k] == Empty {
      assert NULL[..n] + x.value[n..] == x.value && NULL[..n] + x.transmit[n..] == x.transmit;
    }
    if forall k :: n <= k < MAX_KINDS ==> x.value[k] == x.transmit[k] == Empty {
      assert NULL[..n] + x.value[n..] == NULL && NULL[..n] + x.transmit[n..] == NULL;
    }
  }

  /** Slots that stand for no registered kind are empty. */
  lemma EmptyEnds(st: State, h: nat)
    requires Inv(st) && h < |st.holders|
    ensures Shape(st) && Cleared(st.holders[h], 1) == st.holders[h]
    ensures Cleared(st.holders[h], st.index + 1) == st.holders[h].(value := NULL, transmit := NULL)
    ensures forall k :: 0 <= k < MAX_KINDS && !(1 <= k <= st.index) ==> Contents(st.holders[h], k) == multiset{}
    ensures st.holders[h].inUse ==> h !in st.freeHolders
  {
    hide Cleared;
    var x := st.holders[h];
    forall k | 0 <= k < MAX_KINDS && !(1 <= k <= st.index)
      ensures x.value[k] == x.transmit[k] == Empty
    {
      assert SlotOk(st, k, SlotAt(st.holders, h, Value, k)) && SlotOk(st, k, SlotAt(st.holders, h, Transmit, k));
    }
    ClearEmpty(x, 1);
    ClearEmpty(x, st.index + 1);
  }

  lemma ReleaseKeepsInv(st: State, h: nat)
    requires Inv(st) && h < |st.holders| && st.holders[h] == Holder(NULL, NULL, true) && h !in st.freeHolders
    ensures Inv(st.(holders := st.holders[h := Holder(NULL, NULL, false)], freeHolders := st.freeHolders + multiset{h}))
  {
    var end := st.(holders := st.holders[h := Holder(NULL, NULL, false)], freeHolders := st.freeHolders + multiset{h});
    forall h', row, k | 0 <= h' < |end.holders| && 0 <= k < MAX_KINDS
      ensures SlotAt(end.holders, h', row, k) == SlotAt(st.holders, h', row, k)
    {}
    forall k | 0 <= k < MAX_KINDS ensures PoolOk(end.free[k], end.buffers, k) {
      assert PoolOk(st.free[k], st.buffers, k);
    }
  }

  lemma NewHolderKeepsInv(st: State)
    requires Inv(st)
    ensures Inv(st.(holders := st.holders + [Holder(NULL, NULL, true)]))
  {
    var end := st.(holders := st.holders + [Holder(NULL, NULL, true)]);
    forall h, row, k | 0 <= h < |end.holders| && 0 <= k < MAX_KINDS
      ensures SlotAt(end.holders, h, row, k) == if h == |st.holders| then Empty else SlotAt(st.holders, h, row, k)
    {}
    forall k | 0 <= k < MAX_KINDS ensures PoolOk(end.free[k], end.buffers, k) {
      assert PoolOk(st.free[k], st.buffers, k);
    }
  }

  lemma AcquireKeepsInv(st: State, h: nat)
    requires Inv(st) && h in st.freeHolders
    ensures h < |st.holders|
    ensures Inv(st.(holders := st.holders[h := st.holders[h].(inUse := true)],
            freeHolders := st.freeHolders - multiset{h}))
  {
    hide PoolOk;
    var end := st.(holders := st.holders[h := st.holders[h].(inUse := true)],
        freeHolders := st.freeHolders - multiset{h});
    forall h', row, k | 0 <= h' < |end.holders| && 0 <= k < MAX_KINDS
      ensures SlotAt(end.holders, h', row, k) == SlotAt(st.holders, h', row, k)
    {}
  }

  lemma TouchKeepsInv(st: State, b: nat)
    requires Inv(st) && b < |st.buffers|
    requires exists h, row, k :: 0 <= h < |st.holders| && 0 <= k < MAX_KINDS && SlotAt(st.holders, h, row, k) == Full(b)
    ensures Inv(st.(buffers := st.buffers[b := st.buffers[b].(clean := false)]))
  {
    var end := st.(buffers := st.buffers[b := st.buffers[b].(clean := false)]);
    var h, row, k :| 0 <= h < |st.holders| && 0 <= k < MAX_KINDS && SlotAt(st.holders, h, row, k) == Full(b);
    assert SlotOk(st, k, SlotAt(st.holders, h, row, k));
    forall k' | 0 <= k' < MAX_KINDS ensures PoolOk(end.free[k'], end.buffers, k') {
      assert PoolOk(st.free[k'], st.buffers, k');
    }
    forall h', row', k' | 0 <= h' < |end.holders| && 0 <= k' < MAX_KINDS
      ensures SlotOk(end, k', SlotAt(end.holders, h', row', k'))
    {
      assert SlotOk(st, k', SlotAt(st.holders, h', row', k'));
    }
  }
}
