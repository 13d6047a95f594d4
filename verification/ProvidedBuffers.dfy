/** The provided buffer ring behind multishot receive: filled once, then
    refilled one buffer at a time as the worker processes completions, while
    the kernel takes buffers from the other end for any connection. */
module ProvidedBuffers {
  import opened Bits
  import opened Rings

  const COUNTER_BITS: nat := 16
  const MAX_ENTRIES: nat := 32768

  datatype Entry = Entry(addr: nat, len: nat, bid: nat)

  /** The ring together with the memory block its buffers are cut from. */
  datatype Pool = Pool(ring: Ring<Entry>, base: nat, size: nat)

  function DataAddr(base: nat, size: nat, bid: nat): nat {
    base + bid * size
  }

  function EntryFor(p: Pool, bid: nat): Entry {
    Entry(DataAddr(p.base, p.size, bid), p.size, bid)
  }

  function Ids(w: seq<Entry>): seq<nat> {
    seq(|w|, i requires 0 <= i < |w| => w[i].bid)
  }

  function AllIds(count: nat): multiset<nat> {
    multiset(seq(count, i => i))
  }

  /** Kernel side: take the oldest buffer. */
  function Take(p: Pool): Pool {
    p.(ring := Drop(p.ring, 1))
  }

  /** Worker side: hand buffer `bid` back. */
  function Return(p: Pool, bid: nat): Pool
    requires |p.ring.slots| > 0
  {
    p.(ring := Push(p.ring, EntryFor(p, bid)))
  }

  /** `held` are the buffers named by completions nobody has processed yet. */
  ghost predicate PoolInv(p: Pool, held: multiset<nat>) {
    && Valid(p.ring)
    && |p.ring.slots| > 0
    && (forall i :: 0 <= i < Len(p.ring) ==> Window(p.ring)[i] == EntryFor(p, Window(p.ring)[i].bid))
    && multiset(Ids(Window(p.ring))) + held == AllIds(|p.ring.slots|)
  }

  lemma IdsSplit(w: seq<Entry>)
    requires |w| > 0
    ensures multiset(Ids(w)) == multiset{w[0].bid} + multiset(Ids(w[1..]))
  {
    assert Ids(w) == [w[0].bid] + Ids(w[1..]);
  }

  lemma IdsAppend(w: seq<Entry>, e: Entry)
    ensures multiset(Ids(w + [e])) == multiset(Ids(w)) + multiset{e.bid}
  {
    assert Ids(w + [e]) == Ids(w) + [e.bid];
  }

  lemma {:induction false} EachIdOnce(count: nat, id: nat)
    ensures AllIds(count)[id] == if id < count then 1 else 0
  {
    if count > 0 {
      assert seq(count, i => i) == seq(count - 1, i => i) + [count - 1];
      EachIdOnce(count - 1, id);
    }
  }

  /** A kernel take moves one buffer from the window to a completion. */
  lemma TakeKeepsPool(p: Pool, held: multiset<nat>)
    requires PoolInv(p, held) && Len(p.ring) > 0
    ensures PoolInv(Take(p), held + multiset{Window(p.ring)[0].bid})
  {
    var w := Window(p.ring);
    DropRemoves(p.ring, 1);
    IdsSplit(w);
    assert Window(Take(p).ring) == w[1..];
    forall i | 0 <= i < Len(Take(p).ring)
      ensures w[1..][i] == EntryFor(p, w[1..][i].bid)
    {
      assert w[1..][i] == w[i + 1];
    }
  }

  lemma HeldLeavesRoom(p: Pool, held: multiset<nat>)
    requires PoolInv(p, held)
    ensures Len(p.ring) + |held| == |p.ring.slots|
  {
    var ids := multiset(Ids(Window(p.ring)));
    assert |ids + held| == |AllIds(|p.ring.slots|)|;
  }

  /** Returning a held buffer never finds the ring full, appends that buffer's
      own entry to the window and overwrites no unread slot. */
  lemma ReturnKeepsPool(p: Pool, held: multiset<nat>, bid: nat)
    requires PoolInv(p, held) && bid in held
    ensures Len(p.ring) < |p.ring.slots|
    ensures Window(Return(p, bid).ring) == Window(p.ring) + [EntryFor(p, bid)]
    ensures PoolInv(Return(p, bid), held - multiset{bid})
  {
    HeldLeavesRoom(p, held);
    assert held == (held - multiset{bid}) + multiset{bid};
    PushAppends(p.ring, EntryFor(p, bid));
    IdsAppend(Window(p.ring), EntryFor(p, bid));
  }

  /** Every buffer is in exactly one place, each window slot points at its own
      buffer's memory, and the window never exceeds the count. */
  lemma ExactlyOnePlace(p: Pool, held: multiset<nat>, id: nat)
    requires PoolInv(p, held) && id < |p.ring.slots|
    ensures multiset(Ids(Window(p.ring)))[id] + held[id] == 1
    ensures Len(p.ring) == |p.ring.slots| - |held|
  {
    EachIdOnce(|p.ring.slots|, id);
    HeldLeavesRoom(p, held);
    assert (multiset(Ids(Window(p.ring))) + held)[id] == 1;
  }

  lemma OwnAddresses(p: Pool, held: multiset<nat>)
    requires PoolInv(p, held)
    ensures forall i :: 0 <= i < Len(p.ring) ==> Window(p.ring)[i].addr == p.base + Window(p.ring)[i].bid * p.size
  {
    forall i | 0 <= i < Len(p.ring) ensures Window(p.ring)[i].addr == p.base + Window(p.ring)[i].bid * p.size {
      assert Window(p.ring)[i] == EntryFor(p, Window(p.ring)[i].bid);
    }
  }

  /** The ring right after setup: every buffer in the window, in order. */
  ghost predicate Filled(p: Pool) {
    && p.ring.width == COUNTER_BITS
    && IsPow2(|p.ring.slots|) && 0 < |p.ring.slots| <= MAX_ENTRIES
    && p.ring.head == 0 && p.ring.tail == |p.ring.slots|
    && forall i :: 0 <= i < |p.ring.slots| ==> p.ring.slots[i] == EntryFor(p, i)
  }

  lemma WordSizes()
    ensures Pow2(15) == MAX_ENTRIES && Pow2(16) == 65536
  {
    assert Pow2(7) == 128 && Pow2(8) == 256;
    Pow2Add(8, 7);
    Pow2Add(8, 8);
  }

  lemma FilledHoldsAll(p: Pool)
    requires Filled(p)
    ensures PoolInv(p, multiset{})
    ensures Ids(Window(p.ring)) == seq(|p.ring.slots|, i => i)
  {
    var n := |p.ring.slots|;
    FilledLen(p);
    forall i | 0 <= i < n ensures Window(p.ring)[i] == p.ring.slots[i] {
      FillIndex(i, n);
    }
    assert Ids(Window(p.ring)) == seq(n, i => i);
  }

  lemma FilledLen(p: Pool)
    requires Filled(p)
    ensures Valid(p.ring) && Len(p.ring) == |p.ring.slots|
  {
    WordSizes();
    Distance(0, |p.ring.slots|, Pow2(16));
  }

  /** The smallest full ring. */
  const ONE_BUFFER := Pool(Ring([Entry(0, 0, 0)], 0, 1, COUNTER_BITS), 0, 0)

  lemma OneBufferFilled()
    ensures Filled(ONE_BUFFER)
  {
    assert Pow2(0) == 1;
  }

  // ------------------------------------------------------------ engine code

  datatype Allocation = NoMemory | Block(addr: nat)

  /** The multishot part of the engine. `head` is the kernel's own cursor. */
  class RecvBuffers {
    var ready: bool
    var slots: array<Entry>
    var head: nat
    var tail: nat
    var base: nat
    var size: nat

    ghost function View(): Pool
      reads this, slots
    {
      Pool(Ring(slots[..], head, tail, COUNTER_BITS), base, size)
    }

    constructor ()
      ensures !ready && fresh(slots)
    {
      ready := false;
      slots := new Entry[0];
      head, tail, base, size := 0, 0, 0, 0;
    }

    /** `setup_multishot_recv`. The kernel grants a ring only for a power of two
        up to 32768 entries, and hands it over zeroed. */
    method Setup(bufCount: nat, bufSize: nat, granted: bool, mem: Allocation) returns (ok: bool)
      requires bufCount < Pow2(WORD)
      modifies this
      ensures ok == ready
      ensures ok ==> fresh(slots) && Filled(View()) && IsLeastPow2(slots.Length, bufCount)
      ensures ok ==> mem.Block? && base == mem.addr && size == bufSize
      ensures ok <== granted && mem.Block? && bufCount <= MAX_ENTRIES
    {
      var count := NextPow2(bufCount);
      CountFits(bufCount, count);
      if !granted || count == 0 || count > MAX_ENTRIES {
        ready := false;
        return false;
      }
      if mem.NoMemory? {
        ready := false;
        return false;
      }
      Install(count, bufSize, mem.addr);
      ok := true;
    }

    method Install(count: nat, bufSize: nat, addr: nat)
      requires 0 < count <= MAX_ENTRIES && IsPow2(count)
      modifies this
      ensures ready && fresh(slots) && slots.Length == count
      ensures Filled(View()) && base == addr && size == bufSize
    {
      ready := true;
      base, size := addr, bufSize;
      slots := new Entry[count];
      head, tail := 0, 0;
      Fill(count);
      PublishAll(count);
      FilledSlots(slots[..], base, size);
    }

    method PublishAll(count: nat)
      requires count <= MAX_ENTRIES && tail == 0
      modifies this`tail
      ensures tail == count
    {
      FullTail(count);
      tail := (tail + count) % Pow2(COUNTER_BITS);
    }

    /** Every buffer goes into the slot of its own index. */
    method Fill(count: nat)
      requires slots.Length == count <= MAX_ENTRIES && IsPow2(count) && tail == 0
      modifies slots
      ensures forall j :: 0 <= j < count ==> slots[j] == Entry(DataAddr(base, size, j), size, j)
    {
      for i := 0 to count
        invariant forall j :: 0 <= j < i ==> slots[j] == Entry(DataAddr(base, size, j), size, j)
      {
        FillIndex(i, count);
        Add(DataAddr(base, size, i), i % Pow2(16), i);
      }
    }

    /** `io_uring_buf_ring_add`: fill the slot `offset` past the tail. */
    method Add(addr: nat, bid: nat, offset: nat)
      requires slots.Length > 0
      modifies slots
      ensures slots[..] == old(slots[..])[Slot(tail + offset, slots.Length) := Entry(addr, size, bid)]
    {
      slots[Slot(tail + offset, slots.Length)] := Entry(addr, size, bid);
    }

    /** `return_recv_buffer`. */
    method ReturnRecvBuffer(bid: nat)
      requires ready && slots.Length > 0
      modifies this, slots
      ensures View() == Return(old(View()), bid)
      ensures ready && slots == old(slots)
    {
      Add(DataAddr(base, size, bid), bid, 0);
      tail := (tail + 1) % Pow2(COUNTER_BITS);
    }

    /** The kernel's side of the ring. */
    predicate HasBuffer()
      reads this
    {
      (tail - head) % Pow2(COUNTER_BITS) > 0
    }

    method KernelTake() returns (bid: nat)
      requires ready && slots.Length > 0 && Valid(View().ring) && Len(View().ring) > 0
      modifies this`head
      ensures bid == Window(old(View()).ring)[0].bid
      ensures View() == Take(old(View()))
    {
      Advance(head, 0, Pow2(COUNTER_BITS));
      bid := slots[Slot(head, slots.Length)].bid;
      head := (head + 1) % Pow2(COUNTER_BITS);
    }
  }

  lemma FilledSlots(slots: seq<Entry>, base: nat, size: nat)
    requires IsPow2(|slots|) && 0 < |slots| <= MAX_ENTRIES
    requires forall j :: 0 <= j < |slots| ==> slots[j] == Entry(DataAddr(base, size, j), size, j)
    ensures Filled(Pool(Ring(slots, 0, |slots|, COUNTER_BITS), base, size))
  {
  }

  lemma FillIndex(i: nat, count: nat)
    requires i < count <= MAX_ENTRIES && IsPow2(count)
    ensures Slot(i, count) == i && i % Pow2(16) == i
  {
    WordSizes();
    SlotIsModulo(i, count, 16);
    DivideOnce(i, count, 0, i);
    DivideOnce(i, Pow2(16), 0, i);
  }

  lemma FullTail(count: nat)
    requires count <= MAX_ENTRIES
    ensures count % Pow2(COUNTER_BITS) == count
  {
    WordSizes();
    DivideOnce(count, Pow2(16), 0, count);
  }

  lemma CountFits(v: nat, count: nat)
    requires v < Pow2(WORD)
    requires v <= Pow2(WORD - 1) ==> IsLeastPow2(count, v)
    requires v > Pow2(WORD - 1) ==> count == 0
    ensures v <= MAX_ENTRIES ==> 0 < count <= MAX_ENTRIES
    ensures count > 0 ==> IsLeastPow2(count, v)
  {
    WordSizes();
    Pow2Monotone(15, WORD - 1);
    assert IsPow2(MAX_ENTRIES);
  }
}

/** Runs of a shared pool under arbitrary interleaving. */
module BufferRuns {
  import opened Rings
  import opened Runs
  import opened ProvidedBuffers

  /** A shared pool under arbitrary interleaving: `held` collects the buffers
      in unprocessed completions of all connections together. */
  datatype State = State(pool: Pool, held: multiset<nat>)

  datatype Step = KernelTakes | WorkerReturns(bid: nat)

  ghost predicate Next(s: State, step: Step, s': State)
    requires |s.pool.ring.slots| > 0
  {
    match step
    case KernelTakes =>
      && Len(s.pool.ring) > 0
      && s' == State(Take(s.pool), s.held + multiset{Window(s.pool.ring)[0].bid})
    case WorkerReturns(bid) =>
      && bid in s.held
      && s' == State(Return(s.pool, bid), s.held - multiset{bid})
  }

  ghost function Steps(): (State, Step, State) -> bool {
    (s: State, step: Step, s': State) => |s.pool.ring.slots| > 0 && Next(s, step, s')
  }

  ghost function Starts(p: Pool): State -> bool { (s: State) => s == State(p, multiset{}) && Filled(p) }

  ghost predicate Reachable(p: Pool, s: State) { Reached(Starts(p), Steps(), s) }

  /** The pool is in order and still the one cut from the block of `p`. */
  ghost predicate Inv(p: Pool, s: State) {
    PoolInv(s.pool, s.held) && |s.pool.ring.slots| == |p.ring.slots| && s.pool.base == p.base && s.pool.size == p.size
  }

  lemma StepKeepsPool(p: Pool, s: State, step: Step, s': State)
    requires Inv(p, s) && Next(s, step, s')
    ensures Inv(p, s')
  {
    match step
    case KernelTakes => TakeKeepsPool(s.pool, s.held);
    case WorkerReturns(bid) => ReturnKeepsPool(s.pool, s.held, bid);
  }

  lemma ReachableInv(p: Pool, s: State)
    requires Reachable(p, s)
    ensures Inv(p, s)
  {
    var inv := (s: State) => Inv(p, s);
    forall s | Starts(p)(s) ensures inv(s) { FilledHoldsAll(p); }
    forall s, step, s' | inv(s) && Steps()(s, step, s') ensures inv(s') { StepKeepsPool(p, s, step, s'); }
    Always(Starts(p), Steps(), inv, s);
  }

  /** Buffer conservation over every run: at every point of every interleaving
      each id is in the window or in one unprocessed completion, never both, and
      every window slot holds the address of its own id in the block. */
  lemma BufferConservation(p: Pool, s: State, id: nat)
    requires Reachable(p, s) && id < |p.ring.slots|
    ensures |s.pool.ring.slots| == |p.ring.slots|
    ensures multiset(Ids(Window(s.pool.ring)))[id] + s.held[id] == 1
    ensures Len(s.pool.ring) <= |p.ring.slots|
    ensures forall i :: 0 <= i < Len(s.pool.ring) ==> Window(s.pool.ring)[i].addr == p.base + Window(s.pool.ring)[i].bid * p.size
  {
    ReachableInv(p, s);
    ExactlyOnePlace(s.pool, s.held, id);
    OwnAddresses(s.pool, s.held);
  }
}
