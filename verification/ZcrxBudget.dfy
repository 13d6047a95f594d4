/** How deep the submission queue of the zero-copy receive server must be. */
module ZcrxBudget {
  import opened Uring
  import opened Bits
  import opened Bags
  import RefillQueue
  import opened Runs
  import opened Stats
  import opened Zcrx

  lemma Extend(c: Config, s: State, step: Step, s': State)
    requires Reachable(c, s) && TAG_BITS <= c.width && |s.rq.ring.slots| > 0 && Next(c, s, step, s')
    ensures Reachable(c, s')
  {
    ReachedNext(Starts(c), Steps(c), s, step, s');
  }

  /** The kernel accepts only such queues. */
  ghost predicate Sized(c: Config) {
    && TAG_BITS <= c.width && c.listenFd >= 0
    && IsPow2(c.refill.entries) && 0 < c.refill.entries < Pow2(WORD)
  }

  lemma HasSlots(c: Config, s: State)
    requires Reachable(c, s)
    ensures |s.rq.ring.slots| > 0
  {
    ServerDeliveryConservation(c, s);
  }

  /** At the start of a batch: `n` connections, everything with the kernel, and
      larger descriptors and addresses still unused. */
  ghost predicate Ready(c: Config, s: State, n: nat) {
    && Reachable(c, s) && s.phase.Batch? && !s.stop && s.cq == [] && s.w.sq == [] && s.rq.pc.Idle?
    && |s.w.conns| == n == s.base && Spare(c, s.w, n)
  }

  ghost predicate Spare(c: Config, w: Worker, n: nat) {
    && (forall fd :: fd in w.open ==> fd <= c.listenFd + n)
    && (forall a :: a in w.heap ==> a < 8 * n)
  }

  lemma NextAligned(c: Config, w: Worker, n: nat)
    requires Spare(c, w, n) && 8 * (n + 1) <= Pow2(c.width)
    ensures Aligned(c, 8 * n) && 8 * n !in w.heap
  {
    assert Pow2(3) == 8;
  }

  /** A new connection arrives. */
  lemma Connect(c: Config, s: State, fd: int) returns (s': State)
    requires TAG_BITS <= c.width && Reachable(c, s) && s.phase.Batch? && Acc(c) in s.inflight && fd >= 0 && fd !in s.w.open
    ensures Reachable(c, s') && s' == s.(inflight := s.inflight - multiset{Acc(c)}, j := s'.j,
                                         cq := s.cq + [Cqe(Acc(c), fd, false, 0)], w := s.w.(open := s.w.open + {fd}))
  {
    var x := Cqe(Acc(c), fd, false, 0);
    HasSlots(c, s);
    s' := s.(inflight := s.inflight - multiset{Acc(c)}, cq := s.cq + [x], j := Log(s.j, x, 0, 0),
             w := s.w.(open := s.w.open + {fd}));
    Extend(c, s, KernelAccept(fd), s');
  }

  /** Its completion is processed. */
  lemma Admit(c: Config, s: State, fd: int, addr: nat) returns (s': State)
    requires TAG_BITS <= c.width && Reachable(c, s) && s.phase.Batch? && s.rq.pc.Idle?
    requires |s.cq| == 1 && s.cq[0] == Cqe(Acc(c), fd, false, 0) && Unused(c, s.w, addr)
    ensures Reachable(c, s') && s'.cq == []
    ensures s' == s.(w := OnAccept(c, s.w, fd, s.stop, addr), cq := s'.cq, seen := s'.seen)
  {
    HasSlots(c, s);
    s' := Processed(c, s, addr);
    ProcessAccept(c, s.w, s.cq[0], s.stop, addr);
    NothingReturned(s.cq[0]);
    Extend(c, s, ProcessOne(addr), s');
  }

  /** In a batch with an empty completion queue a new connection arrives and is
      processed. */
  lemma Arrive(c: Config, s: State, n: nat) returns (s': State)
    requires Sized(c) && 8 * (n + 1) <= Pow2(c.width)
    requires Reachable(c, s) && s.phase.Batch? && !s.stop && s.cq == [] && Spare(c, s.w, n) && Acc(c) in s.inflight
    requires s.rq.pc.Idle?
    ensures Reachable(c, s') && s'.phase.Batch? && !s'.stop && s'.cq == [] && s'.base == s.base && s'.rq.pc.Idle?
    ensures |s'.w.sq| == |s.w.sq| + 2 && |s'.w.conns| == |s.w.conns| + 1 && Spare(c, s'.w, n + 1)
  {
    var fd := c.listenFd + n + 1;
    NextAligned(c, s.w, n);
    NotConnected(c, s, fd);
    var t := Connect(c, s, fd);
    s' := Admit(c, t, fd, 8 * n);
  }

  lemma NotConnected(c: Config, s: State, fd: int)
    requires Reachable(c, s) && fd !in s.w.open
    ensures fd !in s.w.conns
  {
    ReachableInv(c, s);
  }

  lemma NothingReturned(x: Cqe)
    requires !x.more
    ensures Returns(x) == []
  {
  }

  /** The next iteration of the loop begins. */
  lemma NextBatch(c: Config, s: State) returns (s': State)
    requires TAG_BITS <= c.width && Reachable(c, s) && s.phase.Batch? && !s.stop && s.rq.pc.Idle?
    ensures Reachable(c, s') && s'.phase.Batch? && !s'.stop && s'.cq == s.cq && s'.rq.pc.Idle?
    ensures s'.w == s.w.(sq := []) && s'.base == |s.w.conns|
  {
    var t := s.(phase := Head);
    HasSlots(c, s);
    Extend(c, s, EndBatch, t);
    s' := Submitted(t);
    Extend(c, t, Submit, s');
  }

  function Submitted(s: State): State {
    s.(w := s.w.(sq := []), inflight := s.inflight + multiset(s.w.sq), phase := Batch, base := |s.w.conns|)
  }

  /** With both queues empty the kernel holds everything there is. */
  lemma AllWithKernel(c: Config, s: State)
    requires Reachable(c, s) && !s.phase.Done? && s.cq == [] && s.w.sq == []
    ensures forall fd :: fd in s.w.conns ==> Rx(fd, s.w.conns[fd]) in s.inflight
    ensures !s.stop ==> Acc(c) in s.inflight
  {
    ReachableInv(c, s);
    assert Tokens(s) == s.inflight;
  }

  function Start(c: Config): State {
    State(Worker(map[], map[], [], 0, {c.listenFd}, multiset{}, multiset{}, ZERO),
          multiset{Acc(c)}, [], Head, 0, false, [], Journal([], [], 0), RefillQueue.Start(c.refill))
  }

  lemma {:induction false} ReachReady(c: Config, n: nat) returns (s: State)
    requires Sized(c) && 8 * n <= Pow2(c.width)
    ensures Ready(c, s, n)
  {
    if n == 0 {
      var t := Start(c);
      RefillQueue.StartIsInit(c.refill);
      ReachedStart(Starts(c), Steps(c), t);
      s := Submitted(t);
      Extend(c, t, Submit, s);
    } else {
      var t := ReachReady(c, n - 1);
      AllWithKernel(c, t);
      var u := Arrive(c, t, n - 1);
      s := NextBatch(c, u);
    }
  }

  /** The receives of the connections in `left` are still with the kernel; the
      others have run out of space in this batch and wait in the queue again. */
  ghost predicate Rearming(c: Config, s: State, n: nat, left: set<int>) {
    && Reachable(c, s) && s.phase.Batch? && !s.stop && s.cq == [] && s.rq.pc.Idle? && Spare(c, s.w, n)
    && |s.w.conns| == n == s.base && |s.w.sq| + |left| == n
    && left <= s.w.conns.Keys && Acc(c) in s.inflight
    && forall fd :: fd in left ==> Rx(fd, s.w.conns[fd]) in s.inflight
  }

  lemma RearmOne(c: Config, s: State, n: nat, left: set<int>, fd: int) returns (s': State)
    requires TAG_BITS <= c.width && Rearming(c, s, n, left) && fd in left
    ensures Rearming(c, s', n, left - {fd})
  {
    var op := Rx(fd, s.w.conns[fd]);
    var t := RunOut(c, s, op);
    s' := Rearm(c, t, fd);
  }

  /** A receive ends for lack of space. */
  lemma RunOut(c: Config, s: State, op: Op) returns (t: State)
    requires TAG_BITS <= c.width && Reachable(c, s) && s.phase.Batch? && op in s.inflight && op.RecvOp?
    ensures var x := Cqe(op, -ENOSPC, false, 0);
      Reachable(c, t) && t == s.(inflight := s.inflight - multiset{op}, cq := s.cq + [x], j := t.j)
  {
    var x := Cqe(op, -ENOSPC, false, 0);
    HasSlots(c, s);
    t := s.(inflight := s.inflight - multiset{op}, cq := s.cq + [x], j := Log(s.j, x, 0, 0));
    Extend(c, s, KernelEnd(op, -ENOSPC), t);
  }

  /** Its completion is processed. */
  lemma Rearm(c: Config, s: State, fd: int) returns (s': State)
    requires TAG_BITS <= c.width && Reachable(c, s) && s.phase.Batch? && s.rq.pc.Idle? && fd in s.w.conns
    requires |s.cq| == 1 && s.cq[0] == Cqe(Rx(fd, s.w.conns[fd]), -ENOSPC, false, 0)
    ensures Reachable(c, s') && s'.cq == []
    ensures s' == s.(w := Queued(s.w, s.cq[0].op), cq := s'.cq, seen := s'.seen)
  {
    var a := LiveObject(c, s, fd);
    HasSlots(c, s);
    s' := Processed(c, s, 0);
    ProcessReceive(c, s.w, s.cq[0], fd, a, s.stop, 0);
    NothingReturned(s.cq[0]);
    Extend(c, s, ProcessOne(0), s');
  }

  lemma LiveObject(c: Config, s: State, fd: int) returns (a: nat)
    requires Reachable(c, s) && fd in s.w.conns
    ensures a == s.w.conns[fd] && a in s.w.heap && s.w.heap[a] == fd && Aligned(c, a)
  {
    ReachableInv(c, s);
    a := s.w.conns[fd];
  }

  lemma {:induction false} RearmAll(c: Config, s: State, n: nat, left: set<int>) returns (s': State)
    requires TAG_BITS <= c.width && Rearming(c, s, n, left)
    ensures Rearming(c, s', n, {})
    decreases |left|
  {
    if left == {} {
      s' := s;
    } else {
      SomeMember(left);
      var fd :| fd in left;
      var t := RearmOne(c, s, n, left, fd);
      s' := RearmAll(c, t, n, left - {fd});
    }
  }

  /** The worst batch: every receive of `n` connections runs out of space, and a
      new connection arrives. */
  lemma WorstBatch(c: Config, n: nat) returns (s: State)
    requires Sized(c) && 8 * (n + 1) <= Pow2(c.width)
    ensures Reachable(c, s) && s.base == n && |s.w.sq| == n + 2
  {
    var t := ReachReady(c, n);
    AllWithKernel(c, t);
    var u := RearmAll(c, t, n, t.w.conns.Keys);
    s := Arrive(c, u, n);
  }

  /** A batch that begins with `n` connections can always prepare its operations
      exactly when the queue has `n + 2` slots. */
  lemma BudgetIsTight(c: Config, n: nat, depth: nat)
    requires Sized(c) && 8 * (n + 1) <= Pow2(c.width)
    ensures (forall s :: Reachable(c, s) && s.base == n ==> |s.w.sq| <= depth) <==> n + 2 <= depth
  {
    if n + 2 <= depth {
      forall s | Reachable(c, s) && s.base == n ensures |s.w.sq| <= depth { BatchBudget(c, s); }
    } else {
      var s := WorstBatch(c, n);
    }
  }
}
