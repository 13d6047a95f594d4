/** The zero-copy receive server. Its operations carry nothing but a 64-bit
    word: 1 for the accept, the address of a connection object with a tag in its
    low bits for a receive. A completion is turned back into a connection by
    clearing the tag bits, so everything depends on the object still being there.

    Objects are modelled by `heap`, which maps the address of every live
    connection object to the descriptor stored in it. */
module Zcrx {
  import opened Uring
  import opened Bits
  import opened Bags
  import opened Runs
  import opened Stats
  import RefillQueue

  const TAG_BITS: nat := 3
  const ACCEPT_TAG: nat := 1
  const RX_TAG: nat := 2

  /** `width` is the number of bits of an address, 64 in the source. */
  datatype Config = Config(listenFd: int, width: nat, refill: RefillQueue.Config)

  datatype Op = AcceptOp(fd: int, word: nat) | RecvOp(fd: int, word: nat)

  /** `op` is the operation the kernel answers; of it the worker sees the word. */
  datatype Cqe = Cqe(op: Op, res: int, more: bool, off: nat)

  /** `wild` counts uses of an address no live object has. */
  datatype Worker = Worker(
    conns: map<int, nat>, heap: map<nat, int>, sq: seq<Op>, wild: nat, open: set<int>,
    accepted: multiset<int>, closed: multiset<int>, stats: Counters)

  function Acc(c: Config): Op { AcceptOp(c.listenFd, ACCEPT_TAG) }
  function Rx(fd: int, addr: nat): Op { RecvOp(fd, Tagged(addr, RX_TAG)) }

  // ------------------------------------------------- processing a completion

  function Queued(w: Worker, op: Op): Worker { w.(sq := w.sq + [op]) }

  /** `conns[fd] = std::move(conn)`: an object already there is destroyed. */
  function Insert(w: Worker, fd: int, addr: nat): Worker {
    var kept := if fd in w.conns then w.heap - {w.conns[fd]} else w.heap;
    w.(conns := w.conns[fd := addr], heap := kept[addr := fd], accepted := w.accepted + multiset{fd})
  }

  function OnAccept(c: Config, w: Worker, res: int, stop: bool, addr: nat): Worker {
    var a := if res >= 0 then Insert(Queued(w, Rx(res, addr)), res, addr) else w;
    if stop then a else Queued(a, Acc(c))
  }

  function Erase(w: Worker, fd: int): Worker {
    if fd in w.conns then
      w.(conns := w.conns - {fd}, heap := w.heap - {w.conns[fd]},
         closed := w.closed + multiset{fd}, open := w.open - {fd})
    else w
  }

  function OnReceive(w: Worker, addr: nat, x: Cqe): Worker {
    if !x.more then
      if addr !in w.heap then w.(wild := w.wild + 1)
      else if x.res == -ENOSPC || x.res == -ENOMEM then Queued(w, Rx(w.heap[addr], addr))
      else Erase(if x.res < 0 then w.(stats := w.stats.AddError()) else w, w.heap[addr])
    else if x.res > 0 then w.(stats := w.stats.AddBytes(x.res, 1).AddZc())
    else w
  }

  /** The address left when the tag bits of a word are cleared. */
  function AddrOf(c: Config, word: nat): nat
    requires TAG_BITS <= c.width
  {
    Pow2Monotone(TAG_BITS, c.width);
    Untagged(word, TAG_BITS, c.width)
  }

  function Process(c: Config, w: Worker, x: Cqe, stop: bool, addr: nat): Worker
    requires TAG_BITS <= c.width
  {
    var tag := TagOf(x.op.word, TAG_BITS);
    if tag == ACCEPT_TAG then OnAccept(c, w, x.res, stop, addr)
    else if tag == RX_TAG then OnReceive(w, AddrOf(c, x.op.word), x)
    else w
  }

  /** The delivery, if any, that processing `x` hands to `zcrx_return_buffer`. */
  function Returns(x: Cqe): seq<RefillQueue.Delivery> {
    if TagOf(x.op.word, TAG_BITS) == RX_TAG && x.more && x.res > 0 then [RefillQueue.Delivery(x.off, x.res)] else []
  }

  predicate Aligned(c: Config, addr: nat) { addr < Pow2(c.width) && addr % Pow2(TAG_BITS) == 0 }

  /** The accept word is read as an accept. */
  lemma ProcessAccept(c: Config, w: Worker, x: Cqe, stop: bool, addr: nat)
    requires TAG_BITS <= c.width && x.op == Acc(c)
    ensures Process(c, w, x, stop, addr) == OnAccept(c, w, x.res, stop, addr)
  {
    MaskIsMod(ACCEPT_TAG, TAG_BITS);
    assert Pow2(3) == 8;
  }

  /** A tagged address keeps its tag and its address. */
  lemma RxDecodes(c: Config, fd: int, a: nat)
    requires TAG_BITS <= c.width && Aligned(c, a)
    ensures TagOf(Rx(fd, a).word, TAG_BITS) == RX_TAG && AddrOf(c, Rx(fd, a).word) == a
  {
    assert Pow2(3) == 8;
    TagRoundTrip(a, RX_TAG, TAG_BITS, c.width);
  }

  /** A tagged address is read as that address. */
  lemma ProcessReceive(c: Config, w: Worker, x: Cqe, fd: int, a: nat, stop: bool, addr: nat)
    requires TAG_BITS <= c.width && x.op == Rx(fd, a) && Aligned(c, a)
    ensures Process(c, w, x, stop, addr) == OnReceive(w, a, x)
  {
    RxDecodes(c, fd, a);
  }

  // -------------------------------------------------------------- the system

  datatype Phase = Head | Batch | Done

  /** `base` is the number of connections when the current batch began, `j` the
      kernel's books and `rq` the refill queue. */
  datatype State = State(
    w: Worker, inflight: multiset<Op>, cq: seq<Cqe>, phase: Phase, base: nat, stop: bool, seen: seq<Cqe>,
    j: Journal<Cqe>, rq: RefillQueue.State)

  datatype Step =
    | KernelAccept(res: int)
    | KernelData(op: Op, res: int, off: nat)   // MORE set: the operation stays
    | KernelEnd(op: Op, res: int)
    | KernelRefill                             // consumes from the refill queue
    | Stop
    | Submit
    | ProcessOne(addr: nat)
    | Return(step: RefillQueue.Step)           // stores and publishes an entry
    | EndBatch
    | Quit

  /** A completion with MORE set and a positive result delivers a buffer. */
  function DeliveryOf(x: Cqe): seq<RefillQueue.Delivery> {
    if x.op.RecvOp? && x.more && x.res > 0 then [RefillQueue.Delivery(x.off, x.res)] else []
  }

  /** The refill queue when deliveries arrive, and when the worker's full check
      is made for one. */
  function Arrived(rq: RefillQueue.State, ds: seq<RefillQueue.Delivery>): RefillQueue.State {
    if ds == [] then rq else RefillQueue.Delivered(rq, ds[0])
  }

  function Begun(rq: RefillQueue.State, ds: seq<RefillQueue.Delivery>): RefillQueue.State {
    if ds == [] then rq else RefillQueue.Checked(rq, ds[0])
  }

  ghost predicate KernelNext(c: Config, s: State, step: Step, s': State)
    requires |s.rq.ring.slots| > 0
  {
    match step
    case KernelAccept(res) =>
      && Acc(c) in s.inflight && (res >= 0 ==> res !in s.w.open)
      && var x := Cqe(Acc(c), res, false, 0);
         s' == s.(inflight := s.inflight - multiset{Acc(c)}, cq := s.cq + [x], j := Log(s.j, x, 0, 0),
                  w := if res >= 0 then s.w.(open := s.w.open + {res}) else s.w)
    case KernelData(op, res, off) =>
      && op in s.inflight && op.RecvOp?
      && (res > 0 ==> RefillQueue.Allows(c.refill.limit, s.rq, RefillQueue.Deliver(RefillQueue.Delivery(off, res))))
      && var x := Cqe(op, res, true, off);
         s' == s.(cq := s.cq + [x], j := Log(s.j, x, Moved(res), 0), rq := Arrived(s.rq, DeliveryOf(x)))
    case KernelEnd(op, res) =>
      && op in s.inflight && op.RecvOp?
      && var x := Cqe(op, res, false, 0);
         s' == s.(inflight := s.inflight - multiset{op}, cq := s.cq + [x], j := Log(s.j, x, 0, 0))
    case KernelRefill => s' == s.(rq := s'.rq) && RefillQueue.Next(c.refill, s.rq, RefillQueue.Consume, s'.rq)
    case Stop => s' == s.(stop := true)
    case _ => false
  }

  function Processed(c: Config, s: State, addr: nat): State
    requires TAG_BITS <= c.width && s.cq != []
  {
    s.(w := Process(c, s.w, s.cq[0], s.stop, addr), cq := s.cq[1..], seen := s.seen + [s.cq[0]],
       rq := Begun(s.rq, Returns(s.cq[0])))
  }

  function CloseAll(w: Worker): Worker {
    w.(conns := map[], heap := map[], closed := w.closed + multiset(w.conns.Keys), open := w.open - w.conns.Keys)
  }

  predicate IsNewConnection(x: Cqe) { x.op.AcceptOp? && x.res >= 0 }

  /** What the allocator may return. */
  predicate Unused(c: Config, w: Worker, addr: nat) { Aligned(c, addr) && addr !in w.heap }

  /** A batch may end after any number of completions; the loop may be left on
      stop or because waiting failed. The worker goes on only once the return of
      a delivered buffer is over. */
  ghost predicate WorkerNext(c: Config, s: State, step: Step, s': State)
    requires TAG_BITS <= c.width && |s.rq.ring.slots| > 0
  {
    match step
    case Submit =>
      && s.phase.Head? && !s.stop
      && s' == s.(w := s.w.(sq := []), inflight := s.inflight + multiset(s.w.sq), phase := Batch, base := |s.w.conns|)
    case ProcessOne(addr) =>
      && s.phase.Batch? && s.cq != [] && s.rq.pc.Idle?
      && (IsNewConnection(s.cq[0]) ==> Unused(c, s.w, addr))
      && (Returns(s.cq[0]) != [] ==> RefillQueue.Allows(c.refill.limit, s.rq, RefillQueue.Check))
      && s' == Processed(c, s, addr)
    case Return(step) =>
      && s.phase.Batch? && (step.StoreOff? || step.StoreLen? || step.PublishTail?)
      && s' == s.(rq := s'.rq) && RefillQueue.Next(c.refill, s.rq, step, s'.rq)
    case EndBatch => s.phase.Batch? && s.rq.pc.Idle? && s' == s.(phase := Head)
    case Quit => s.phase.Head? && s' == s.(w := CloseAll(s.w), phase := Done)
    case _ => false
  }

  ghost predicate Next(c: Config, s: State, step: Step, s': State)
    requires TAG_BITS <= c.width && |s.rq.ring.slots| > 0
  {
    !s.phase.Done? && (KernelNext(c, s, step, s') || WorkerNext(c, s, step, s'))
  }

  /** Right after the first accept has been submitted. */
  ghost predicate Init(c: Config, s: State) {
    && TAG_BITS <= c.width && c.listenFd in s.w.open && RefillQueue.Init(c.refill, s.rq)
    && s == State(Worker(map[], map[], [], 0, s.w.open, multiset{}, multiset{}, ZERO),
                  multiset{Acc(c)}, [], Head, 0, s.stop, [], Journal([], [], 0), s.rq)
  }

  ghost function Steps(c: Config): (State, Step, State) -> bool {
    (s: State, step: Step, s': State) => TAG_BITS <= c.width && |s.rq.ring.slots| > 0 && Next(c, s, step, s')
  }

  ghost function Starts(c: Config): State -> bool { (s: State) => Init(c, s) }

  ghost predicate Reachable(c: Config, s: State) { Reached(Starts(c), Steps(c), s) }

  // --------------------------------------------------------------- invariants

  /** The operation a completion retires. */
  function TokenOf(x: Cqe): multiset<Op> { if x.more then multiset{} else multiset{x.op} }

  /** Every operation between its preparation and the processing of the
      completion that retires it. */
  function Tokens(s: State): multiset<Op> { multiset(s.w.sq) + s.inflight + Bag(s.cq, TokenOf) }

  /** The map and the live objects point at each other. */
  ghost predicate Linked(c: Config, w: Worker) {
    && (forall fd :: fd in w.conns ==> w.conns[fd] in w.heap && w.heap[w.conns[fd]] == fd)
    && (forall a :: a in w.heap ==> Aligned(c, a) && w.heap[a] in w.conns && w.conns[w.heap[a]] == a)
  }

  /** The accept, or the receive of a connection in the map, on its own
      descriptor and with its own address. */
  predicate Owned(c: Config, conns: map<int, nat>, op: Op) {
    op == Acc(c) || (op.fd in conns && op == Rx(op.fd, conns[op.fd]))
  }

  ghost predicate OneEach(c: Config, conns: map<int, nat>, toks: multiset<Op>, stop: bool) {
    && (forall op :: op in toks ==> Owned(c, conns, op) && toks[op] == 1)
    && (forall fd :: fd in conns ==> Rx(fd, conns[fd]) in toks)
    && (!stop ==> Acc(c) in toks)
  }

  /** A completion with MORE set is followed by its operation: still with the
      kernel, or terminated further back in the queue. */
  ghost predicate Continues(inflight: multiset<Op>, cq: seq<Cqe>) {
    forall i :: 0 <= i < |cq| && cq[i].more ==> cq[i].op.RecvOp? && cq[i].op in inflight + Bag(cq[i + 1..], TokenOf)
  }

  ghost predicate FdsApart(c: Config, w: Worker, cq: seq<Cqe>) {
    && c.listenFd in w.open && c.listenFd !in w.conns && w.conns.Keys <= w.open
    && forall i :: 0 <= i < |cq| && IsNewConnection(cq[i]) ==>
         cq[i].res in w.open && cq[i].res !in w.conns && cq[i].res != c.listenFd
  }

  /** Until the accept of this batch has been processed no connection is new. */
  ghost predicate Grown(c: Config, s: State) {
    s.phase.Batch? ==> |s.w.conns| <= s.base + if Acc(c) in s.inflight + Bag(s.cq, TokenOf) then 0 else 1
  }

  ghost predicate Inv(c: Config, s: State) {
    && TAG_BITS <= c.width
    && s.w.wild == 0
    && s.w.accepted == s.w.closed + multiset(s.w.conns.Keys)
    && |s.w.sq| <= s.base + 2
    && Linked(c, s.w) && FdsApart(c, s.w, s.cq)
    && (s.phase.Done? ==> s.w.conns == map[])
    && (!s.phase.Done? ==>
          && OneEach(c, s.w.conns, Tokens(s), s.stop)
          && Continues(s.inflight, s.cq)
          && Grown(c, s))
  }

  // ------------------------------------------------------------- kernel steps

  lemma ContinuesAppend(inflight: multiset<Op>, cq: seq<Cqe>, x: Cqe, inflight': multiset<Op>)
    requires Continues(inflight, cq) && inflight' + TokenOf(x) == inflight
    requires x.more ==> x.op.RecvOp? && x.op in inflight'
    ensures Continues(inflight', cq + [x])
  {
    var cq' := cq + [x];
    forall i | 0 <= i < |cq'| && cq'[i].more
      ensures cq'[i].op.RecvOp? && cq'[i].op in inflight' + Bag(cq'[i + 1..], TokenOf)
    {
      if i < |cq| {
        assert cq'[i + 1..] == cq[i + 1..] + [x];
        BagAppend(cq[i + 1..], x, TokenOf);
        StaysIn(cq[i].op, inflight, Bag(cq[i + 1..], TokenOf), TokenOf(x), inflight');
      }
    }
  }

  /** Posting a completion moves a token from the kernel to the queue. */
  lemma PostKeepsTokens(s: State, x: Cqe, s': State)
    requires s'.inflight + TokenOf(x) == s.inflight && s'.cq == s.cq + [x] && s'.w.sq == s.w.sq
    ensures s'.inflight + Bag(s'.cq, TokenOf) == s.inflight + Bag(s.cq, TokenOf)
    ensures Tokens(s') == Tokens(s)
  {
    BagAppend(s.cq, x, TokenOf);
    MoveOne(multiset(s.w.sq), s'.inflight, TokenOf(x), Bag(s.cq, TokenOf));
  }

  lemma MoveOne(a: multiset<Op>, b: multiset<Op>, t: multiset<Op>, d: multiset<Op>)
    ensures b + (d + t) == b + t + d
    ensures a + b + (d + t) == a + (b + t) + d
  {
  }

  lemma PostKeepsFds(c: Config, w: Worker, cq: seq<Cqe>, x: Cqe, w': Worker)
    requires FdsApart(c, w, cq) && w'.conns == w.conns
    requires w'.open == if IsNewConnection(x) then w.open + {x.res} else w.open
    requires IsNewConnection(x) ==> x.res !in w.open
    ensures FdsApart(c, w', cq + [x])
  {
    forall i | 0 <= i < |cq + [x]| && IsNewConnection((cq + [x])[i])
      ensures (cq + [x])[i].res in w'.open && (cq + [x])[i].res !in w'.conns && (cq + [x])[i].res != c.listenFd
    {
      if i < |cq| { assert (cq + [x])[i] == cq[i]; }
    }
  }

  predicate Posting(step: Step) { step.KernelAccept? || step.KernelData? || step.KernelEnd? }

  /** The kernel steps that append a completion. */
  ghost predicate Posts(s: State, x: Cqe, s': State) {
    && s'.inflight + TokenOf(x) == s.inflight
    && (x.more ==> x.op.RecvOp? && x.op in s'.inflight)
    && (IsNewConnection(x) ==> x.res !in s.w.open)
    && s' == s.(inflight := s'.inflight, cq := s.cq + [x], j := Log(s.j, x, BytesOf(x), 0), rq := Arrived(s.rq, DeliveryOf(x)),
                w := s.w.(open := if IsNewConnection(x) then s.w.open + {x.res} else s.w.open))
  }

  function BytesOf(x: Cqe): nat { if x.op.RecvOp? && x.more then Moved(x.res) else 0 }

  lemma KernelPosts(c: Config, s: State, step: Step, s': State) returns (x: Cqe)
    requires |s.rq.ring.slots| > 0 && KernelNext(c, s, step, s') && Posting(step)
    ensures Posts(s, x, s')
    ensures DeliveryOf(x) != [] ==> RefillQueue.Allows(c.refill.limit, s.rq, RefillQueue.Deliver(DeliveryOf(x)[0]))
  {
    match step
    case KernelAccept(res) => x := Cqe(Acc(c), res, false, 0);
    case KernelData(op, res, off) => x := DataPosts(c, s, op, res, off, s');
    case KernelEnd(op, res) => x := Cqe(op, res, false, 0);
  }

  lemma DataPosts(c: Config, s: State, op: Op, res: int, off: nat, s': State) returns (x: Cqe)
    requires |s.rq.ring.slots| > 0 && KernelNext(c, s, KernelData(op, res, off), s')
    ensures Posts(s, x, s') && x == Cqe(op, res, true, off)
    ensures DeliveryOf(x) != [] ==> RefillQueue.Allows(c.refill.limit, s.rq, RefillQueue.Deliver(DeliveryOf(x)[0]))
  {
    x := Cqe(op, res, true, off);
    assert BytesOf(x) == Moved(res);
  }

  lemma PostKeeps(c: Config, s: State, x: Cqe, s': State)
    requires Inv(c, s) && !s.phase.Done? && Posts(s, x, s')
    ensures Inv(c, s')
  {
    ContinuesAppend(s.inflight, s.cq, x, s'.inflight);
    PostKeepsTokens(s, x, s');
    PostKeepsFds(c, s.w, s.cq, x, s'.w);
    assert Linked(c, s'.w);
  }

  lemma KernelKeeps(c: Config, s: State, step: Step, s': State)
    requires Inv(c, s) && !s.phase.Done? && |s.rq.ring.slots| > 0 && KernelNext(c, s, step, s')
    ensures Inv(c, s')
  {
    if Posting(step) {
      var x := KernelPosts(c, s, step, s');
      PostKeeps(c, s, x, s');
    }
  }

  // ------------------------------------------------- one completion processed

  /** What the head completion leaves behind. */
  ghost function Rest(s: State): multiset<Op>
    requires s.cq != []
  {
    multiset(s.w.sq) + s.inflight + Bag(s.cq[1..], TokenOf)
  }

  lemma TokensSplit(s: State)
    requires s.cq != []
    ensures Tokens(s) == Rest(s) + TokenOf(s.cq[0])
  {
  }

  lemma ContinuesTail(inflight: multiset<Op>, cq: seq<Cqe>)
    requires cq != [] && Continues(inflight, cq)
    ensures Continues(inflight, cq[1..])
  {
    forall i | 0 <= i < |cq[1..]| && cq[1..][i].more
      ensures cq[1..][i].op.RecvOp? && cq[1..][i].op in inflight + Bag(cq[1..][i + 1..], TokenOf)
    {
      assert cq[1..][i] == cq[i + 1] && cq[1..][i + 1..] == cq[i + 2..];
    }
  }

  /** Whatever operation an unread completion names is still owned. */
  lemma NamedIsToken(c: Config, s: State, j: nat)
    requires Inv(c, s) && !s.phase.Done? && j < |s.cq|
    ensures s.cq[j].op in Tokens(s) && Owned(c, s.w.conns, s.cq[j].op)
  {
    if s.cq[j].more {
      if s.cq[j].op !in s.inflight { InSuffix(s.cq, j + 1, s.cq[j].op, TokenOf); }
    } else {
      InBag(s.cq, j, s.cq[j].op, TokenOf);
    }
  }

  lemma AcceptOwns(c: Config, conns: map<int, nat>, toks: multiset<Op>, rest: multiset<Op>, fd: int, addr: nat, stop: bool)
    requires OneEach(c, conns, toks, stop) && toks == rest + multiset{Acc(c)} && fd !in conns
    ensures OneEach(c, conns[fd := addr], rest + multiset{Rx(fd, addr)} + (if stop then multiset{} else multiset{Acc(c)}), stop)
    ensures Acc(c) !in rest
  {
    var rx := Rx(fd, addr);
    assert rx !in toks by { assert rx in toks ==> Owned(c, conns, rx); }
    assert toks[Acc(c)] == 1;
    assert forall op :: op in rest ==> op in toks && rest[op] <= toks[op];
    forall f | f in conns ensures Rx(f, conns[f]) in rest { assert Rx(f, conns[f]) in toks; }
  }

  lemma EraseOwns(c: Config, conns: map<int, nat>, toks: multiset<Op>, rest: multiset<Op>, fd: int, stop: bool)
    requires OneEach(c, conns, toks, stop) && fd in conns && toks == rest + multiset{Rx(fd, conns[fd])}
    ensures OneEach(c, conns - {fd}, rest, stop)
  {
    var rx := Rx(fd, conns[fd]);
    assert toks[rx] == 1;
    assert forall op :: op in rest ==> op in toks && rest[op] <= toks[op] && op != rx;
    forall f | f in conns - {fd} ensures Rx(f, conns[f]) in rest {
      assert Rx(f, conns[f]) in toks;
    }
  }

  lemma InsertLinks(c: Config, w: Worker, fd: int, addr: nat)
    requires Linked(c, w) && fd !in w.conns && addr !in w.heap && Aligned(c, addr)
    ensures Linked(c, Insert(w, fd, addr))
  {
  }

  lemma EraseLinks(c: Config, w: Worker, fd: int)
    requires Linked(c, w)
    ensures Linked(c, Erase(w, fd))
  {
  }

  lemma KeysErase(keys: set<int>, fd: int)
    requires fd in keys
    ensures multiset(keys) == multiset{fd} + multiset(keys - {fd})
  {
  }

  /** Owned operations that are all different are at most one per connection,
      and the accept. */
  lemma {:induction false} DistinctOwned(c: Config, conns: map<int, nat>, sq: seq<Op>)
    requires forall op :: op in sq ==> Owned(c, conns, op)
    requires forall i, j :: 0 <= i < j < |sq| ==> sq[i] != sq[j]
    ensures |sq| <= |conns| + if Acc(c) in sq then 1 else 0
  {
    if sq != [] {
      var n := |sq| - 1;
      var op, front := sq[n], sq[..n];
      assert forall p :: p in front ==> p in sq && p != op;
      if op == Acc(c) {
        DistinctOwned(c, conns, front);
      } else {
        assert Owned(c, conns, op);
        forall p | p in front ensures Owned(c, conns - {op.fd}, p) { assert Owned(c, conns, p); }
        DistinctOwned(c, conns - {op.fd}, front);
        FewerKeys(conns, op.fd);
      }
    }
  }

  lemma FewerKeys(conns: map<int, nat>, fd: int)
    requires fd in conns
    ensures |conns - {fd}| == |conns| - 1
  {
    var fewer := conns - {fd};
    assert conns.Keys == fewer.Keys + {fd};
    assert |conns.Keys| == |fewer.Keys| + 1;
  }

  lemma NoRepeats(sq: seq<Op>, i: nat, j: nat)
    requires i < j < |sq| && multiset(sq)[sq[i]] <= 1
    ensures sq[i] != sq[j]
  {
    assert sq == sq[..j] + sq[j..];
    assert sq[i] == sq[..j][i] && sq[j] == sq[j..][0];
    assert sq[i] in multiset(sq[..j]) && sq[j] in multiset(sq[j..]);
    assert multiset(sq) == multiset(sq[..j]) + multiset(sq[j..]);
  }

  lemma QueueBound(c: Config, s: State)
    requires OneEach(c, s.w.conns, Tokens(s), s.stop) && Grown(c, s) && s.phase.Batch?
    ensures |s.w.sq| <= s.base + 2
  {
    var sq, toks := s.w.sq, Tokens(s);
    forall op | op in sq ensures Owned(c, s.w.conns, op) && multiset(sq)[op] <= 1 {
      assert op in multiset(sq) && op in toks;
      assert multiset(sq)[op] <= toks[op];
    }
    forall i, j | 0 <= i < j < |sq| ensures sq[i] != sq[j] {
      NoRepeats(sq, i, j);
    }
    DistinctOwned(c, s.w.conns, sq);
  }

  /** Once the accept completion is at the head, no other one is behind it. */
  lemma LastAccept(c: Config, s: State, i: nat)
    requires Inv(c, s) && !s.phase.Done? && s.cq != [] && s.cq[0].op == Acc(c) && i < |s.cq[1..]|
    ensures !IsNewConnection(s.cq[1..][i])
  {
    var x := s.cq[1..][i];
    assert x == s.cq[i + 1];
    NamedIsToken(c, s, i + 1);
    NamedIsToken(c, s, 0);
    TokensSplit(s);
    assert Tokens(s)[Acc(c)] == Rest(s)[Acc(c)] + 1;
    assert Acc(c) !in Bag(s.cq[1..], TokenOf);
    if x.op.AcceptOp? { InBag(s.cq[1..], i, x.op, TokenOf); }
  }

  /** The queue after a completion that prepares `ops`. */
  lemma TokensAfter(s: State, s': State, ops: seq<Op>)
    requires s.cq != [] && s'.cq == s.cq[1..] && s'.inflight == s.inflight && s'.w.sq == s.w.sq + ops
    ensures Tokens(s') == Rest(s) + multiset(ops)
  {
    assert multiset(s.w.sq + ops) == multiset(s.w.sq) + multiset(ops);
    MoveOne(multiset(s.w.sq), multiset(ops), s.inflight, Bag(s.cq[1..], TokenOf));
  }

  /** What an accept completion prepares. */
  function AcceptOps(c: Config, res: int, stop: bool, addr: nat): seq<Op> {
    (if res >= 0 then [Rx(res, addr)] else []) + (if stop then [] else [Acc(c)])
  }

  lemma AcceptQueue(c: Config, w: Worker, res: int, stop: bool, addr: nat)
    ensures OnAccept(c, w, res, stop, addr).sq == w.sq + AcceptOps(c, res, stop, addr)
  {
  }

  lemma AcceptOwnsAll(c: Config, conns: map<int, nat>, toks: multiset<Op>, rest: multiset<Op>, res: int, addr: nat, stop: bool)
    requires OneEach(c, conns, toks, stop) && toks == rest + multiset{Acc(c)} && (res >= 0 ==> res !in conns)
    ensures OneEach(c, if res >= 0 then conns[res := addr] else conns, rest + multiset(AcceptOps(c, res, stop, addr)), stop)
    ensures Acc(c) !in rest
  {
    var last := if stop then [] else [Acc(c)];
    if res >= 0 {
      AcceptOwns(c, conns, toks, rest, res, addr, stop);
      assert multiset([Rx(res, addr)] + last) == multiset{Rx(res, addr)} + multiset(last);
      Regroup(rest, multiset{Rx(res, addr)}, multiset(last));
    } else {
      AcceptRefused(c, conns, toks, rest, stop);
      assert [] + last == last;
    }
  }

  lemma AcceptKeepsTokens(c: Config, s: State, addr: nat, s': State)
    requires Inv(c, s) && s.phase.Batch? && s.cq != [] && s.cq[0].op == Acc(c)
    requires s.cq[0].res >= 0 ==> s.cq[0].res !in s.w.conns
    requires s'.w == OnAccept(c, s.w, s.cq[0].res, s.stop, addr)
    requires s'.cq == s.cq[1..] && s'.inflight == s.inflight && s'.stop == s.stop
    ensures OneEach(c, s'.w.conns, Tokens(s'), s'.stop)
    ensures Acc(c) in s.inflight + Bag(s.cq, TokenOf) && Acc(c) !in s.inflight + Bag(s'.cq, TokenOf)
  {
    var x := s.cq[0];
    assert !x.more;
    TokensSplit(s);
    AcceptQueue(c, s.w, x.res, s.stop, addr);
    TokensAfter(s, s', AcceptOps(c, x.res, s.stop, addr));
    AcceptOwnsAll(c, s.w.conns, Tokens(s), Rest(s), x.res, addr, s.stop);
  }

  lemma AcceptRefused(c: Config, conns: map<int, nat>, toks: multiset<Op>, rest: multiset<Op>, stop: bool)
    requires OneEach(c, conns, toks, stop) && toks == rest + multiset{Acc(c)}
    ensures OneEach(c, conns, rest + multiset(if stop then [] else [Acc(c)]), stop)
    ensures Acc(c) !in rest
  {
    assert toks[Acc(c)] == 1;
    assert forall op :: op in rest ==> op in toks && rest[op] <= toks[op];
    forall fd | fd in conns ensures Rx(fd, conns[fd]) in rest { assert Rx(fd, conns[fd]) in toks; }
    if !stop { assert rest + multiset([Acc(c)]) == toks; }
  }

  lemma AcceptKeepsFds(c: Config, s: State, addr: nat, w': Worker)
    requires Inv(c, s) && s.phase.Batch? && s.cq != [] && s.cq[0].op == Acc(c)
    requires w' == OnAccept(c, s.w, s.cq[0].res, s.stop, addr)
    ensures s.cq[0].res >= 0 ==> s.cq[0].res !in s.w.conns
    ensures FdsApart(c, w', s.cq[1..])
  {
    assert IsNewConnection(s.cq[0]) <==> s.cq[0].res >= 0;
    forall i | 0 <= i < |s.cq[1..]| ensures !IsNewConnection(s.cq[1..][i]) {
      LastAccept(c, s, i);
    }
  }

  lemma InsertLedger(w: Worker, fd: int, addr: nat)
    requires w.accepted == w.closed + multiset(w.conns.Keys) && fd !in w.conns
    ensures var w' := Insert(w, fd, addr);
      w'.accepted == w'.closed + multiset(w'.conns.Keys) && |w'.conns| == |w.conns| + 1
  {
    assert w.conns[fd := addr].Keys == w.conns.Keys + {fd};
    KeysInsert(w.conns.Keys, fd);
    Regroup(w.closed, multiset(w.conns.Keys), multiset{fd});
  }

  lemma AcceptKeepsWorker(c: Config, w: Worker, res: int, stop: bool, addr: nat)
    requires Linked(c, w) && w.wild == 0 && w.accepted == w.closed + multiset(w.conns.Keys)
    requires res >= 0 ==> Unused(c, w, addr) && res !in w.conns
    ensures var w' := OnAccept(c, w, res, stop, addr);
      && Linked(c, w') && w'.wild == 0 && w'.accepted == w'.closed + multiset(w'.conns.Keys)
      && |w'.conns| <= |w.conns| + 1
  {
    if res >= 0 {
      InsertLinks(c, Queued(w, Rx(res, addr)), res, addr);
      InsertLedger(Queued(w, Rx(res, addr)), res, addr);
    }
  }

  lemma AcceptKeeps(c: Config, s: State, addr: nat, s': State)
    requires Inv(c, s) && s.phase.Batch? && s.cq != [] && s.cq[0].op == Acc(c)
    requires s.cq[0].res >= 0 ==> Unused(c, s.w, addr)
    requires s'.w == OnAccept(c, s.w, s.cq[0].res, s.stop, addr)
    requires s' == s.(w := s'.w, cq := s.cq[1..], seen := s'.seen, rq := s'.rq)
    ensures Inv(c, s')
  {
    ContinuesTail(s.inflight, s.cq);
    AcceptKeepsFds(c, s, addr, s'.w);
    AcceptKeepsTokens(c, s, addr, s');
    AcceptKeepsWorker(c, s.w, s.cq[0].res, s.stop, addr);
    QueueBound(c, s');
  }

  /** The head completion of a receive names a live connection object. */
  lemma HeadReceive(c: Config, s: State) returns (fd: int, a: nat)
    requires Inv(c, s) && !s.phase.Done? && s.cq != [] && s.cq[0].op != Acc(c)
    ensures fd in s.w.conns && a == s.w.conns[fd] && s.cq[0].op == Rx(fd, a)
    ensures a in s.w.heap && s.w.heap[a] == fd && Aligned(c, a)
  {
    NamedIsToken(c, s, 0);
    fd := s.cq[0].op.fd;
    a := s.w.conns[fd];
  }

  lemma TailFds(c: Config, w: Worker, cq: seq<Cqe>)
    requires FdsApart(c, w, cq) && cq != []
    ensures FdsApart(c, w, cq[1..])
  {
  }

  /** Processing a receive leaves the accept where it was. */
  lemma AcceptStays(c: Config, s: State)
    requires s.cq != [] && s.cq[0].op != Acc(c)
    ensures Acc(c) in s.inflight + Bag(s.cq, TokenOf) <==> Acc(c) in s.inflight + Bag(s.cq[1..], TokenOf)
  {
  }

  /** Data, or a termination that is rearmed: the connection keeps its one
      receive. */
  lemma ServedKeeps(c: Config, s: State, s': State, fd: int, a: nat)
    requires Inv(c, s) && s.phase.Batch? && s.cq != [] && s.cq[0].op == Rx(fd, a)
    requires s'.w.conns == s.w.conns && s'.w.heap == s.w.heap && s'.w.wild == 0 && s'.w.open == s.w.open
    requires s'.w.accepted == s.w.accepted && s'.w.closed == s.w.closed
    requires s'.w.sq == s.w.sq + if s.cq[0].more then [] else [Rx(fd, a)]
    requires s' == s.(w := s'.w, cq := s.cq[1..], seen := s'.seen, rq := s'.rq)
    ensures Inv(c, s')
  {
    var ops := if s.cq[0].more then [] else [Rx(fd, a)];
    ContinuesTail(s.inflight, s.cq);
    TokensSplit(s);
    TokensAfter(s, s', ops);
    assert TokenOf(s.cq[0]) == multiset(ops);
    TailFds(c, s.w, s.cq);
    AcceptStays(c, s);
    QueueBound(c, s');
  }

  lemma EraseKeepsWorker(c: Config, w: Worker, fd: int)
    requires Linked(c, w) && fd in w.conns && w.accepted == w.closed + multiset(w.conns.Keys)
    ensures var w' := Erase(w, fd);
      Linked(c, w') && w'.accepted == w'.closed + multiset(w'.conns.Keys) && |w'.conns| <= |w.conns|
  {
    EraseLinks(c, w, fd);
    KeysErase(w.conns.Keys, fd);
    assert (w.conns - {fd}).Keys == w.conns.Keys - {fd};
    FewerKeys(w.conns, fd);
  }

  lemma EraseKeepsFds(c: Config, w: Worker, cq: seq<Cqe>, fd: int)
    requires FdsApart(c, w, cq) && fd in w.conns
    ensures FdsApart(c, Erase(w, fd), cq)
  {
  }

  lemma EndedKeeps(c: Config, s: State, s': State, fd: int, stats: Counters)
    requires Inv(c, s) && s.phase.Batch? && s.cq != [] && !s.cq[0].more
    requires fd in s.w.conns && s.cq[0].op == Rx(fd, s.w.conns[fd])
    requires s' == s.(w := Erase(s.w.(stats := stats), fd), cq := s.cq[1..], seen := s'.seen, rq := s'.rq)
    ensures Inv(c, s')
  {
    ContinuesTail(s.inflight, s.cq);
    TokensSplit(s);
    EraseOwns(c, s.w.conns, Tokens(s), Rest(s), fd, s.stop);
    TailFds(c, s.w, s.cq);
    EraseKeepsFds(c, s.w.(stats := stats), s.cq[1..], fd);
    AcceptStays(c, s);
    EraseKeepsWorker(c, s.w.(stats := stats), fd);
    assert Tokens(s') == Rest(s);
    QueueBound(c, s');
  }

  lemma ReceiveKeeps(c: Config, s: State, addr: nat)
    requires Inv(c, s) && s.phase.Batch? && s.cq != [] && s.cq[0].op != Acc(c)
    ensures Inv(c, Processed(c, s, addr))
  {
    var x, s' := s.cq[0], Processed(c, s, addr);
    var fd, a := HeadReceive(c, s);
    ProcessReceive(c, s.w, x, fd, a, s.stop, addr);
    if x.more || x.res == -ENOSPC || x.res == -ENOMEM {
      if x.more { assert s.w.sq == s.w.sq + []; }
      ServedKeeps(c, s, s', fd, a);
    } else {
      EndedKeeps(c, s, s', fd, if x.res < 0 then s.w.stats.AddError() else s.w.stats);
    }
  }

  lemma StepKeeps(c: Config, s: State, step: Step, s': State)
    requires Inv(c, s) && |s.rq.ring.slots| > 0 && Next(c, s, step, s')
    ensures Inv(c, s')
  {
    if KernelNext(c, s, step, s') {
      KernelKeeps(c, s, step, s');
    } else if step.ProcessOne? {
      if s.cq[0].op == Acc(c) {
        ProcessAccept(c, s.w, s.cq[0], s.stop, step.addr);
        AcceptKeeps(c, s, step.addr, s');
      } else {
        ReceiveKeeps(c, s, step.addr);
      }
    } else if step.Submit? {
      SubmitKeeps(c, s, s');
    }
  }

  /** The queue goes to the kernel. */
  ghost predicate Hands(s: State, s': State) {
    && s.phase.Head? && s'.inflight == s.inflight + multiset(s.w.sq)
    && s' == s.(w := s.w.(sq := []), inflight := s'.inflight, phase := Batch, base := |s.w.conns|)
  }

  lemma SubmitKeeps(c: Config, s: State, s': State)
    requires Inv(c, s) && Hands(s, s')
    ensures Inv(c, s')
  {
    HandsKeepsTokens(s, s');
    HandsContinues(s, s');
  }

  lemma HandsKeepsTokens(s: State, s': State)
    requires Hands(s, s')
    ensures Tokens(s') == Tokens(s)
  {
    var none: seq<Op> := [];
    assert multiset(none) == multiset{};
    MoveOne(multiset{}, s.inflight, multiset(s.w.sq), Bag(s.cq, TokenOf));
  }

  lemma HandsContinues(s: State, s': State)
    requires Hands(s, s') && Continues(s.inflight, s.cq)
    ensures Continues(s'.inflight, s'.cq)
  {
    forall i | 0 <= i < |s.cq| && s.cq[i].more
      ensures s.cq[i].op.RecvOp? && s.cq[i].op in s'.inflight + Bag(s.cq[i + 1..], TokenOf)
    {
      assert s.cq[i].op in s.inflight + Bag(s.cq[i + 1..], TokenOf);
    }
  }

  lemma ReachableInv(c: Config, s: State)
    requires Reachable(c, s)
    ensures Inv(c, s)
  {
    var inv := (s: State) => Inv(c, s);
    forall s | Starts(c)(s) ensures inv(s) { InitHolds(c, s); }
    forall s, step, s' | inv(s) && Steps(c)(s, step, s') ensures inv(s') { StepKeeps(c, s, step, s'); }
    Always(Starts(c), Steps(c), inv, s);
  }

  lemma InitHolds(c: Config, s: State)
    requires Init(c, s)
    ensures Inv(c, s)
  {
    var none: seq<Op> := [];
    assert multiset(none) == multiset{};
    assert Tokens(s) == multiset{Acc(c)};
  }

  // ------------------------------------------------------------ main theorems

  /** A receive word leads back to the object of a connection that is in the map
      now, under the descriptor the operation was issued on. */
  ghost predicate LeadsHome(c: Config, w: Worker, op: Op)
    requires TAG_BITS <= c.width
  {
    && TagOf(op.word, TAG_BITS) == RX_TAG
    && var a := AddrOf(c, op.word);
       a in w.heap && w.heap[a] == op.fd && op.fd in w.conns && w.conns[op.fd] == a
  }

  lemma OwnedLeadsHome(c: Config, w: Worker, op: Op)
    requires TAG_BITS <= c.width && Linked(c, w) && Owned(c, w.conns, op) && op.RecvOp?
    ensures LeadsHome(c, w, op)
  {
    RxDecodes(c, op.fd, w.conns[op.fd]);
  }

  /** Connection ownership at every point of every run: whatever receive is
      queued, in flight or named by an unread completion leads back to a live
      connection; every connection has exactly one receive, through any series
      of rearms; there is one accept until stop is seen; and no dead object has
      ever been used. */
  lemma ConnectionOwnership(c: Config, s: State)
    requires Reachable(c, s) && !s.phase.Done?
    ensures TAG_BITS <= c.width && s.w.wild == 0
    ensures forall op :: op in Tokens(s) && op.RecvOp? ==> LeadsHome(c, s.w, op) && Tokens(s)[op] == 1
    ensures forall j :: 0 <= j < |s.cq| && s.cq[j].op.RecvOp? ==> LeadsHome(c, s.w, s.cq[j].op)
    ensures forall fd :: fd in s.w.conns ==> Tokens(s)[Rx(fd, s.w.conns[fd])] == 1
    ensures Tokens(s)[Acc(c)] <= 1 && (!s.stop ==> Tokens(s)[Acc(c)] == 1)
  {
    ReachableInv(c, s);
    forall op | op in Tokens(s) && op.RecvOp? ensures LeadsHome(c, s.w, op) { OwnedLeadsHome(c, s.w, op); }
    forall j | 0 <= j < |s.cq| && s.cq[j].op.RecvOp? ensures LeadsHome(c, s.w, s.cq[j].op) {
      NamedIsToken(c, s, j);
      OwnedLeadsHome(c, s.w, s.cq[j].op);
    }
  }

  /** A batch prepares at most two operations more than there were connections
      when it began. */
  lemma BatchBudget(c: Config, s: State)
    requires Reachable(c, s)
    ensures |s.w.sq| <= s.base + 2
  {
    ReachableInv(c, s);
  }

  /** Every accepted descriptor is closed once, and by the end all of them are. */
  lemma ExactlyOnceClose(c: Config, s: State)
    requires Reachable(c, s)
    ensures s.w.accepted == s.w.closed + multiset(s.w.conns.Keys)
    ensures s.phase.Done? ==> s.w.accepted == s.w.closed
  {
    ReachableInv(c, s);
  }

  // --------------------------------------------------- books and refill queue

  function FailureOf(x: Cqe): nat {
    if x.op.RecvOp? && !x.more && x.res < 0 && x.res != -ENOSPC && x.res != -ENOMEM then 1 else 0
  }

  /** The descriptor a completion hands over. */
  function NewFd(x: Cqe): multiset<int> { if IsNewConnection(x) then multiset{x.res} else multiset{} }

  /** The refill queue runs as it does on its own, and what it has to expect are
      the deliveries among the unread completions. */
  ghost predicate Refilled(c: Config, s: State) {
    RefillQueue.Reachable(c.refill, s.rq) && s.rq.outstanding == Gather(s.cq, DeliveryOf)
  }

  /** The worker's counters against the kernel's books: whatever is not counted
      yet waits in the completion queue. */
  ghost predicate Balanced(s: State) {
    && s.j.posted == s.seen + s.cq
    && s.w.stats.bytes + Total(s.cq, BytesOf) == Sum(s.j.transfers)
    && s.w.stats.packets == s.w.stats.zc && s.w.stats.zc + |Gather(s.cq, DeliveryOf)| == |s.rq.delivered|
    && s.w.stats.errors + Total(s.cq, FailureOf) == Total(s.j.posted, FailureOf)
    && s.w.accepted + Bag(s.cq, NewFd) == Bag(s.j.posted, NewFd)
  }

  lemma RefillSlots(c: Config, s: State)
    requires Refilled(c, s)
    ensures |s.rq.ring.slots| > 0
  {
    RefillQueue.ReachableInv(c.refill, s.rq);
  }

  /** What the worker hands to the refill queue is what the completion delivered:
      the tag of a pending word tells the kinds apart. */
  lemma ReturnsWhatWasDelivered(c: Config, s: State)
    requires Inv(c, s) && !s.phase.Done? && s.cq != []
    ensures Returns(s.cq[0]) == DeliveryOf(s.cq[0])
  {
    if s.cq[0].op != Acc(c) {
      var fd, a := HeadReceive(c, s);
      RxDecodes(c, fd, a);
    }
  }

  lemma RefillNext(c: Config, rq: RefillQueue.State, step: RefillQueue.Step, rq': RefillQueue.State)
    requires RefillQueue.Reachable(c.refill, rq) && |rq.ring.slots| > 0 && RefillQueue.Next(c.refill, rq, step, rq')
    ensures RefillQueue.Reachable(c.refill, rq')
  {
    ReachedNext(RefillQueue.Starts(c.refill), RefillQueue.Steps(c.refill), rq, step, rq');
  }

  lemma PostKeepsRefill(c: Config, s: State, x: Cqe, s': State)
    requires Refilled(c, s) && Posts(s, x, s')
    requires DeliveryOf(x) != [] ==> RefillQueue.Allows(c.refill.limit, s.rq, RefillQueue.Deliver(DeliveryOf(x)[0]))
    ensures Refilled(c, s')
  {
    RefillSlots(c, s);
    GatherAppend(s.cq, x, DeliveryOf);
    if DeliveryOf(x) != [] {
      RefillNext(c, s.rq, RefillQueue.Deliver(DeliveryOf(x)[0]), s'.rq);
    } else {
      assert s.rq.outstanding + [] == s.rq.outstanding;
    }
  }

  lemma ProcessKeepsRefill(c: Config, s: State, addr: nat)
    requires Inv(c, s) && Refilled(c, s) && !s.phase.Done? && s.cq != [] && s.rq.pc.Idle?
    requires Returns(s.cq[0]) != [] ==> RefillQueue.Allows(c.refill.limit, s.rq, RefillQueue.Check)
    ensures Refilled(c, Processed(c, s, addr))
  {
    RefillSlots(c, s);
    ReturnsWhatWasDelivered(c, s);
    var ds, rest := DeliveryOf(s.cq[0]), Gather(s.cq[1..], DeliveryOf);
    if ds != [] {
      assert s.rq.outstanding[0] == ds[0] && s.rq.outstanding[1..] == rest;
      RefillNext(c, s.rq, RefillQueue.Check, RefillQueue.Checked(s.rq, ds[0]));
    } else {
      assert [] + rest == rest;
    }
  }

  lemma StepKeepsRefill(c: Config, s: State, step: Step, s': State)
    requires Inv(c, s) && Refilled(c, s) && |s.rq.ring.slots| > 0 && Next(c, s, step, s')
    ensures Refilled(c, s')
  {
    if KernelNext(c, s, step, s') {
      if Posting(step) {
        var x := KernelPosts(c, s, step, s');
        PostKeepsRefill(c, s, x, s');
      } else if step.KernelRefill? {
        RefillNext(c, s.rq, RefillQueue.Consume, s'.rq);
      }
    } else if step.ProcessOne? {
      ProcessKeepsRefill(c, s, step.addr);
    } else if step.Return? {
      RefillNext(c, s.rq, step.step, s'.rq);
    }
  }

  lemma PostBalances(c: Config, s: State, x: Cqe, s': State)
    requires Balanced(s) && Posts(s, x, s')
    ensures Balanced(s')
  {
    assert s.seen + s'.cq == (s.seen + s.cq) + [x];
    TotalAppend(s.cq, x, BytesOf);
    TotalAppend(s.cq, x, FailureOf);
    TotalAppend(s.j.posted, x, FailureOf);
    SumAppend(s.j.transfers, BytesOf(x));
    GatherAppend(s.cq, x, DeliveryOf);
    BagAppend(s.cq, x, NewFd);
    BagAppend(s.j.posted, x, NewFd);
    Regroup(s.w.accepted, Bag(s.cq, NewFd), NewFd(x));
  }

  /** The worker counts a completion for what it is. */
  ghost predicate Counted(w: Worker, x: Cqe, w': Worker) {
    && w'.stats.bytes == w.stats.bytes + BytesOf(x) && w'.stats.packets == w.stats.packets + |DeliveryOf(x)|
    && w'.stats.zc == w.stats.zc + |DeliveryOf(x)| && w'.stats.errors == w.stats.errors + FailureOf(x)
    && w'.accepted == w.accepted + NewFd(x)
  }

  lemma ReceiveCounts(w: Worker, a: nat, x: Cqe)
    requires a in w.heap && x.op.RecvOp?
    ensures Counted(w, x, OnReceive(w, a, x))
  {
  }

  lemma AcceptCounts(c: Config, w: Worker, x: Cqe, stop: bool, addr: nat)
    requires x.op == Acc(c)
    ensures Counted(w, x, OnAccept(c, w, x.res, stop, addr))
  {
  }

  lemma ProcessCounts(c: Config, s: State, addr: nat)
    requires Inv(c, s) && !s.phase.Done? && s.cq != []
    ensures Counted(s.w, s.cq[0], Process(c, s.w, s.cq[0], s.stop, addr))
  {
    var x := s.cq[0];
    if x.op == Acc(c) {
      ProcessAccept(c, s.w, x, s.stop, addr);
      AcceptCounts(c, s.w, x, s.stop, addr);
    } else {
      var fd, a := HeadReceive(c, s);
      ProcessReceive(c, s.w, x, fd, a, s.stop, addr);
      ReceiveCounts(s.w, a, x);
    }
  }

  /** A completion counted leaves the books balanced. */
  lemma CountedBalances(s: State, s': State)
    requires Balanced(s) && s.cq != [] && Counted(s.w, s.cq[0], s'.w)
    requires s'.cq == s.cq[1..] && s'.seen == s.seen + [s.cq[0]] && s'.j == s.j && s'.rq.delivered == s.rq.delivered
    ensures Balanced(s')
  {
    var x, tail := s.cq[0], s.cq[1..];
    assert (s.seen + [x]) + tail == s.seen + s.cq;
    assert Gather(s.cq, DeliveryOf) == DeliveryOf(x) + Gather(tail, DeliveryOf);
    Regroup(s.w.accepted, NewFd(x), Bag(tail, NewFd));
  }

  lemma ProcessBalances(c: Config, s: State, addr: nat)
    requires Inv(c, s) && Balanced(s) && !s.phase.Done? && s.cq != []
    ensures Balanced(Processed(c, s, addr))
  {
    ProcessCounts(c, s, addr);
    CountedBalances(s, Processed(c, s, addr));
  }

  lemma RefillKeepsDelivered(c: Config, rq: RefillQueue.State, step: RefillQueue.Step, rq': RefillQueue.State)
    requires |rq.ring.slots| > 0 && RefillQueue.Next(c.refill, rq, step, rq') && !step.Deliver?
    ensures rq'.delivered == rq.delivered
  {
  }

  lemma StepBalances(c: Config, s: State, step: Step, s': State)
    requires Inv(c, s) && Balanced(s) && |s.rq.ring.slots| > 0 && Next(c, s, step, s')
    ensures Balanced(s')
  {
    if KernelNext(c, s, step, s') {
      if Posting(step) {
        var x := KernelPosts(c, s, step, s');
        PostBalances(c, s, x, s');
      } else if step.KernelRefill? {
        RefillKeepsDelivered(c, s.rq, RefillQueue.Consume, s'.rq);
      }
    } else if step.ProcessOne? {
      ProcessBalances(c, s, step.addr);
    } else if step.Return? {
      RefillKeepsDelivered(c, s.rq, step.step, s'.rq);
    }
  }

  lemma InitBalanced(c: Config, s: State)
    requires Init(c, s)
    ensures Refilled(c, s) && Balanced(s)
  {
    ReachedStart(RefillQueue.Starts(c.refill), RefillQueue.Steps(c.refill), s.rq);
  }

  lemma ReachableBooks(c: Config, s: State)
    requires Reachable(c, s)
    ensures Inv(c, s) && Refilled(c, s) && Balanced(s)
  {
    var inv := (s: State) => Inv(c, s) && Refilled(c, s) && Balanced(s);
    forall s | Starts(c)(s) ensures inv(s) {
      InitHolds(c, s);
      InitBalanced(c, s);
    }
    forall s, step, s' | inv(s) && Steps(c)(s, step, s') ensures inv(s') {
      StepKeeps(c, s, step, s');
      StepKeepsRefill(c, s, step, s');
      StepBalances(c, s, step, s');
    }
    Always(Starts(c), Steps(c), inv, s);
  }

  /** Delivery conservation in every run of the server: what the kernel has
      delivered is, in order, what was handed to the refill queue, the delivery
      being returned and what the unread completions carry; each one handed over
      was queued once or dropped because its check saw a full queue; and the
      kernel has consumed, or finds in the ring, exactly those queued. */
  lemma ServerDeliveryConservation(c: Config, s: State)
    requires Reachable(c, s)
    ensures |s.rq.ring.slots| == c.refill.entries > 0
    ensures RefillQueue.All(s.rq.handled) + RefillQueue.Returning(s.rq.pc) + Gather(s.cq, DeliveryOf) == s.rq.delivered
    ensures forall i :: 0 <= i < |s.rq.handled| ==>
      && s.rq.handled[i].queued <= c.refill.entries
      && (s.rq.handled[i].kept <==> s.rq.handled[i].queued < c.refill.entries)
    ensures s.rq.consumed + RefillQueue.Unconsumed(s.rq) == RefillQueue.Rqes(c.refill, RefillQueue.Kept(s.rq.handled))
    ensures RefillQueue.Fits(c.refill) ==> RefillQueue.Lost(s.rq.handled) == []
  {
    ReachableBooks(c, s);
    RefillQueue.DeliveryConservation(c.refill, s.rq);
    if RefillQueue.Fits(c.refill) { RefillQueue.NothingDropped(c.refill, s.rq); }
  }

  /** In every run what has been counted and what waits in the completion queue
      make up what the kernel transferred and delivered. */
  lemma CountsWhatMoved(c: Config, s: State)
    requires Reachable(c, s)
    ensures s.j.posted == s.seen + s.cq
    ensures s.w.stats.bytes + Total(s.cq, BytesOf) == Sum(s.j.transfers)
    ensures s.w.stats.packets == s.w.stats.zc
    ensures s.w.stats.zc + |Gather(s.cq, DeliveryOf)| == |s.rq.delivered|
    ensures s.w.stats.errors + Total(s.cq, FailureOf) == Total(s.j.posted, FailureOf)
  {
    ReachableBooks(c, s);
  }

  /** The descriptors the kernel ever handed out have been closed, belong to a
      connection, or wait in an unread accept completion; so once the server has
      quit, exactly the waiting ones are left open. */
  lemma LeftOpen(c: Config, s: State)
    requires Reachable(c, s)
    ensures Bag(s.j.posted, NewFd) == s.w.closed + multiset(s.w.conns.Keys) + Bag(s.cq, NewFd)
    ensures s.phase.Done? ==> Bag(s.j.posted, NewFd) == s.w.closed + Bag(s.cq, NewFd)
    ensures forall fd :: fd in Bag(s.cq, NewFd) ==> fd in s.w.open
  {
    ReachableBooks(c, s);
    forall fd | fd in Bag(s.cq, NewFd) ensures fd in s.w.open { PendingIsOpen(c, s.w, s.cq, fd); }
  }

  lemma {:induction false} PendingIsOpen(c: Config, w: Worker, cq: seq<Cqe>, fd: int)
    requires FdsApart(c, w, cq) && fd in Bag(cq, NewFd)
    ensures fd in w.open
  {
    if fd !in NewFd(cq[0]) {
      TailFds(c, w, cq);
      PendingIsOpen(c, w, cq[1..], fd);
    } else {
      assert IsNewConnection(cq[0]);
    }
  }
}
