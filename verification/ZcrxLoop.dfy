/** The zero-copy receive server's loop as a run of the machine: the worker's
    code with the kernel at work between any two of its steps. */
module ZcrxLoop {
  import opened Uring
  import opened Bits
  import opened Rings
  import opened Bags
  import opened Runs
  import opened Stats
  import opened Zcrx
  import opened CompletionRing
  import RefillQueue

  /** The locals of `run_server_zcrx`; the ledgers are ghosts, and `heap` stands
      for the connection objects the map owns. */
  class Server {
    const cfg: Config
    const ring: Queue<Cqe>
    const rq: RefillQueue.Queue
    var conns: map<int, nat>
    var heap: map<nat, int>
    var sq: seq<Op>
    var open: set<int>
    var stats: Counters
    ghost var wild: nat
    ghost var accepted: multiset<int>
    ghost var closed: multiset<int>

    ghost function View(): Worker
      reads this
    {
      Worker(conns, heap, sq, wild, open, accepted, closed, stats)
    }

    ghost predicate Ok()
      reads ring, ring.cqes
    {
      && TAG_BITS <= cfg.width && ring.Ok() && rq.rqes.Length > 0
      && rq.token == cfg.refill.token && rq.shift == cfg.refill.shift
    }

    /** Up to the first submit. */
    constructor (c: Config, q: Queue<Cqe>, r: RefillQueue.Queue, fds: set<int>)
      ensures cfg == c && ring == q && rq == r
      ensures View() == Queued(Worker(map[], map[], [], 0, fds, multiset{}, multiset{}, ZERO), Acc(c))
    {
      cfg, ring, rq, conns, heap, sq, open, stats := c, q, r, map[], map[], [Acc(c)], fds, ZERO;
      wild, accepted, closed := 0, multiset{}, multiset{};
    }

    method SubmitAccept()
      modifies this`sq
      ensures sq == old(sq) + [Acc(cfg)]
    {
      sq := sq + [AcceptOp(cfg.listenFd, ACCEPT_TAG)];
    }

    method SubmitRecv(fd: int, addr: nat)
      modifies this`sq
      ensures sq == old(sq) + [Rx(fd, addr)]
    {
      sq := sq + [RecvOp(fd, Tagged(addr, RX_TAG))];
    }

    method AcceptDone(res: int, stop: bool, addr: nat)
      modifies this
      ensures View() == OnAccept(cfg, old(View()), res, stop, addr)
    {
      if res >= 0 {
        accepted := accepted + multiset{res};
        SubmitRecv(res, addr);
        if res in conns { heap := heap - {conns[res]}; }
        heap := heap[addr := res];
        conns := conns[res := addr];
      }
      if !stop { SubmitAccept(); }
    }

    method CloseConn(fd: int)
      modifies this`conns, this`heap, this`closed, this`open
      ensures View() == Erase(old(View()), fd)
    {
      if fd in conns {
        CloseFd(fd);
        heap := heap - {conns[fd]};
        conns := conns - {fd};
      }
    }

    /** The end of a multishot receive. */
    method ReceiveEnded(addr: nat, ptr: nat)
      requires ptr < ring.cqes.Length && !ring.cqes[ptr].more
      modifies this
      ensures View() == OnReceive(old(View()), addr, ring.cqes[ptr])
    {
      if addr !in heap {
        wild := wild + 1;
      } else if ring.cqes[ptr].res == -ENOSPC || ring.cqes[ptr].res == -ENOMEM {
        SubmitRecv(heap[addr], addr);
      } else {
        if ring.cqes[ptr].res < 0 { stats := stats.AddError(); }
        CloseConn(heap[addr]);
      }
    }

    /** A delivery: counted twice; it is returned unless the check finds the
        refill queue full. */
    method ReceiveData(ptr: nat) returns (room: bool)
      requires ptr < ring.cqes.Length && ring.cqes[ptr].more && ring.cqes[ptr].res > 0
      modifies this`stats
      ensures View() == old(View()).(stats := old(stats).AddBytes(ring.cqes[ptr].res, 1).AddZc())
      ensures room <==> Len(rq.View()) != rq.rqes.Length
    {
      stats := stats.AddBytes(ring.cqes[ptr].res, 1);
      stats := stats.AddZc();
      room := rq.NrQueued() != rq.rqes.Length;
    }

    /** The body of the completion loop, up to and including the full check: of
        the operation it reads the word. */
    method Completion(ptr: nat, stop: bool, addr: nat) returns (returning: bool)
      requires Ok() && ptr < ring.cqes.Length
      modifies this
      ensures View() == Process(cfg, old(View()), ring.cqes[ptr], stop, addr)
      ensures returning <==> Returns(ring.cqes[ptr]) != [] && Len(rq.View()) != rq.rqes.Length
    {
      returning := false;
      var tag := TagOf(ring.cqes[ptr].op.word, TAG_BITS);
      if tag == ACCEPT_TAG {
        AcceptDone(ring.cqes[ptr].res, stop, addr);
      } else if tag == RX_TAG {
        if !ring.cqes[ptr].more {
          ReceiveEnded(AddrOf(cfg, ring.cqes[ptr].op.word), ptr);
        } else if ring.cqes[ptr].res > 0 {
          returning := ReceiveData(ptr);
        }
      }
    }

    method CloseFd(fd: int)
      modifies this`closed, this`open
      ensures closed == old(closed) + multiset{fd} && open == old(open) - {fd}
    {
      closed, open := closed + multiset{fd}, open - {fd};
    }

    /** The final loop closes every connection; the map then destroys them. */
    method Cleanup()
      modifies this`conns, this`heap, this`closed, this`open
      ensures View() == CloseAll(old(View()))
    {
      var todo := conns.Keys;
      ghost var keys, wasClosed, wasOpen := conns.Keys, closed, open;
      NoneClosed(keys, closed, open);
      while todo != {}
        modifies this`closed, this`open
        invariant todo <= keys
        invariant closed == wasClosed + multiset(keys - todo) && open == wasOpen - (keys - todo)
        decreases todo
      {
        SomeMember(todo);
        var fd :| fd in todo;
        OneMoreClosed(keys, todo, fd, wasClosed, wasOpen);
        CloseFd(fd);
        todo := todo - {fd};
      }
      assert keys - todo == keys;
      conns, heap := map[], map[];
    }
  }

  lemma NoneClosed(keys: set<int>, closed: multiset<int>, open: set<int>)
    ensures closed + multiset(keys - keys) == closed && open - (keys - keys) == open
  {
    assert keys - keys == {};
  }

  lemma OneMoreClosed(keys: set<int>, todo: set<int>, fd: int, closed: multiset<int>, open: set<int>)
    requires fd in todo && todo <= keys
    ensures closed + multiset(keys - (todo - {fd})) == closed + multiset(keys - todo) + multiset{fd}
    ensures open - (keys - (todo - {fd})) == open - (keys - todo) - {fd}
  {
    assert keys - (todo - {fd}) == (keys - todo) + {fd};
    KeysInsert(keys - todo, fd);
  }

  // ----------------------------------------------------------------- the loop

  /** The worker's part of a path. */
  function WorkOf(step: Step): seq<Step> {
    if step.Submit? || step.ProcessOne? || step.Return? || step.EndBatch? || step.Quit? then [step] else []
  }

  function Work(steps: seq<Step>): seq<Step> { Gather(steps, WorkOf) }

  ghost predicate Good(c: Config, tr: Trace<State, Step>) {
    Traced(Starts(c), Steps(c), tr) && TAG_BITS <= c.width && |tr.now.rq.ring.slots| > 0
  }

  lemma Go(c: Config, tr: Trace<State, Step>, step: Step, s: State) returns (tr': Trace<State, Step>)
    requires Good(c, tr) && Next(c, tr.now, step, s)
    ensures Good(c, tr') && tr'.start == tr.start && tr'.now == s && Work(tr'.taken) == Work(tr.taken) + WorkOf(step)
  {
    Onward(Starts(c), Steps(c), tr, step, s);
    GatherAppend(tr.taken, step, WorkOf);
    tr' := Then(tr, step, s);
    ServerDeliveryConservation(c, s);
  }

  lemma KernelGo(c: Config, tr: Trace<State, Step>, step: Step, s: State) returns (tr': Trace<State, Step>)
    requires Good(c, tr) && !tr.now.phase.Done? && KernelNext(c, tr.now, step, s)
    ensures Good(c, tr') && tr'.start == tr.start && tr'.now == s && Work(tr'.taken) == Work(tr.taken)
    ensures Onwards(tr.now, s)
  {
    KernelOnwards(c, tr.now, step, s);
    tr' := Go(c, tr, step, s);
    assert Work(tr.taken) + [] == Work(tr.taken);
  }

  lemma KernelOnwards(c: Config, s: State, step: Step, s': State)
    requires |s.rq.ring.slots| > 0 && KernelNext(c, s, step, s')
    ensures Onwards(s, s') && WorkOf(step) == []
  {
    if Posting(step) {
      var x := KernelPosts(c, s, step, s');
      PostsOnwards(s, x, s');
    }
  }

  lemma PostsOnwards(s: State, x: Cqe, s': State)
    requires Posts(s, x, s')
    ensures Onwards(s, s')
  {
    ArrivedKeepsPc(s.rq, DeliveryOf(x));
  }

  lemma ArrivedKeepsPc(rq: RefillQueue.State, ds: seq<RefillQueue.Delivery>)
    ensures Arrived(rq, ds).pc == rq.pc
  {
  }

  /** What kernel steps leave alone. */
  ghost predicate Onwards(s: State, s': State) {
    s'.phase == s.phase && s'.rq.pc == s.rq.pc && s'.seen == s.seen && s.cq <= s'.cq
  }

  /** What the outside contributes to a pass: what the kernel attempts before the
      i-th test and, when the i-th completion returns a buffer, before each of
      the three stores; and the allocator's choice given the objects in use, if
      there is any memory left. */
  datatype World = World(
    early: nat -> seq<Step>, late: (nat, nat) -> seq<Step>, alloc: (nat, set<nat>) -> Option<nat>)

  ghost predicate Sound(c: Config, o: World) {
    forall i: nat, used: set<nat> :: o.alloc(i, used).Some? ==>
      Aligned(c, o.alloc(i, used).value) && o.alloc(i, used).value !in used
  }

  /** Steps that process completions and return buffers. */
  ghost predicate Handling(steps: seq<Step>) {
    forall i :: 0 <= i < |steps| ==> steps[i].ProcessOne? || steps[i].Return?
  }

  lemma HandlingMore(w: seq<Step>, done: seq<Step>, more: seq<Step>)
    requires Handling(done) && Handling(more)
    ensures Handling(done + more) && (w + done) + more == w + (done + more)
  {
  }

  /** A refill queue that the kernel may deliver to without promising anything. */
  lemma DataStep(c: Config, s: State, op: Op, res: int, off: nat, s': State)
    requires |s.rq.ring.slots| > 0 && c.refill.limit.Free? && op in s.inflight && op.RecvOp?
    requires var x := Cqe(op, res, true, off);
      s' == s.(cq := s.cq + [x], j := Log(s.j, x, Moved(res), 0), rq := Arrived(s.rq, DeliveryOf(x)))
    ensures KernelNext(c, s, KernelData(op, res, off), s') && s'.rq.ring == s.rq.ring && s'.rq.pc == s.rq.pc
  {
  }

  class Loop {
    const srv: Server
    var inflight: multiset<Op>
    var stop: bool

    /** The machine is in state `s`; of the unread completions the first `n` have
        been processed and not released. */
    ghost predicate At(s: State, n: nat)
      reads this, srv, srv.ring, srv.ring.cqes, srv.rq, srv.rq.rqes
    {
      && srv.Ok() && srv.cfg.refill.limit.Free? && n <= |srv.ring.Unread()|
      && s.w == srv.View() && s.cq == srv.ring.Unread()[n..] && s.inflight == inflight && s.stop == stop
      && s.rq.ring == srv.rq.View() && !s.phase.Done?
    }

    /** The machine's state, if nothing has completed yet. */
    ghost function Begun(): State
      requires srv.ring.cqes.Length > 0
      reads this, srv, srv.ring, srv.ring.cqes, srv.rq, srv.rq.rqes
    {
      State(srv.View(), inflight, srv.ring.Unread(), Head, 0, stop, [], Journal([], [], 0),
            RefillQueue.State(srv.rq.View(), RefillQueue.Idle, [], [], [], []))
    }

    /** Set-up, up to and including the first submit. */
    constructor (c: Config, q: Queue<Cqe>, r: RefillQueue.Queue, fds: set<int>)
      requires TAG_BITS <= c.width && c.refill.limit.Free? && c.listenFd in fds && q.Ok() && q.Unread() == []
      requires r.Ok() && Window(r.View()) == [] && r.width == WORD && r.rqes.Length == c.refill.entries
      requires r.token == c.refill.token && r.shift == c.refill.shift
      ensures srv.cfg == c && srv.ring == q && srv.rq == r && fresh(srv)
      ensures srv.Ok() && At(Begun(), 0) && Init(c, Begun())
    {
      var server := new Server(c, q, r, fds);
      inflight := multiset(server.sq);
      server.sq := [];
      srv, stop := server, false;
    }

    /** A kernel step is taken if it is possible and the completion ring has
        room for what it posts. */
    method KernelStep(step: Step, ghost held: seq<nat>, ghost n: nat, ghost s: State)
      returns (taken: bool, ghost s': State)
      requires At(s, n) && srv.ring.Points(held)
      modifies this, srv`open, srv.ring`ktail, srv.ring.cqes, srv.rq`khead
      ensures At(s', n) && srv.ring.Points(held) && old(srv.ring.Unread()) <= srv.ring.Unread()
      ensures if taken then KernelNext(srv.cfg, s, step, s') else s' == s
    {
      taken, s' := false, s;
      match step {
        case KernelAccept(res) => taken, s' := Connect(res, held, n, s);
        case KernelData(op, res, off) => taken, s' := Deliver(op, res, off, held, n, s);
        case KernelEnd(op, res) => taken, s' := Terminate(op, res, held, n, s);
        case KernelRefill => taken, s' := Consume(n, s);
        case Stop =>
          stop, taken, s' := true, true, s.(stop := true);
        case _ =>
      }
    }

    method Post(x: Cqe, ghost held: seq<nat>, ghost n: nat)
      requires srv.ring.Ok() && srv.ring.Points(held) && srv.ring.HasRoom() && n <= |srv.ring.Unread()|
      modifies srv.ring`ktail, srv.ring.cqes
      ensures srv.ring.Ok() && srv.ring.Points(held) && old(srv.ring.Unread()) <= srv.ring.Unread()
      ensures n <= |srv.ring.Unread()| && srv.ring.Unread()[n..] == old(srv.ring.Unread())[n..] + [x]
    {
      srv.ring.Post(x, held);
    }

    /** A completion that retires its operation. */
    method Retire(op: Op, x: Cqe, ghost held: seq<nat>, ghost n: nat, ghost s: State) returns (ghost s': State)
      requires At(s, n) && srv.ring.Points(held) && op in inflight && srv.ring.HasRoom()
      modifies this`inflight, srv.ring`ktail, srv.ring.cqes
      ensures At(s', n) && srv.ring.Points(held) && old(srv.ring.Unread()) <= srv.ring.Unread()
      ensures s' == s.(inflight := s.inflight - multiset{op}, cq := s.cq + [x], j := Log(s.j, x, 0, 0))
    {
      Post(x, held, n);
      inflight := inflight - multiset{op};
      s' := s.(inflight := inflight, cq := s.cq + [x], j := Log(s.j, x, 0, 0));
    }

    method Connect(res: int, ghost held: seq<nat>, ghost n: nat, ghost s: State) returns (taken: bool, ghost s': State)
      requires At(s, n) && srv.ring.Points(held)
      modifies this`inflight, srv`open, srv.ring`ktail, srv.ring.cqes
      ensures At(s', n) && srv.ring.Points(held) && old(srv.ring.Unread()) <= srv.ring.Unread()
      ensures if taken then KernelNext(srv.cfg, s, KernelAccept(res), s') else s' == s
    {
      taken, s' := false, s;
      var op := Acc(srv.cfg);
      if op in inflight && (res >= 0 ==> res !in srv.open) && srv.ring.HasRoom() {
        s' := Retire(op, Cqe(op, res, false, 0), held, n, s);
        taken := true;
        if res >= 0 {
          srv.open := srv.open + {res};
          s' := s'.(w := srv.View());
        }
      }
    }

    method Deliver(op: Op, res: int, off: nat, ghost held: seq<nat>, ghost n: nat, ghost s: State)
      returns (taken: bool, ghost s': State)
      requires At(s, n) && srv.ring.Points(held)
      modifies srv.ring`ktail, srv.ring.cqes
      ensures At(s', n) && srv.ring.Points(held) && old(srv.ring.Unread()) <= srv.ring.Unread()
      ensures if taken then KernelNext(srv.cfg, s, KernelData(op, res, off), s') else s' == s
    {
      taken, s' := false, s;
      if op in inflight && op.RecvOp? && srv.ring.HasRoom() {
        ghost var x := Cqe(op, res, true, off);
        Post(Cqe(op, res, true, off), held, n);
        taken := true;
        s' := s.(cq := s.cq + [x], j := Log(s.j, x, Moved(res), 0), rq := Arrived(s.rq, DeliveryOf(x)));
        DataStep(srv.cfg, s, op, res, off, s');
      }
    }

    method Terminate(op: Op, res: int, ghost held: seq<nat>, ghost n: nat, ghost s: State)
      returns (taken: bool, ghost s': State)
      requires At(s, n) && srv.ring.Points(held)
      modifies this`inflight, srv.ring`ktail, srv.ring.cqes
      ensures At(s', n) && srv.ring.Points(held) && old(srv.ring.Unread()) <= srv.ring.Unread()
      ensures if taken then KernelNext(srv.cfg, s, KernelEnd(op, res), s') else s' == s
    {
      taken, s' := false, s;
      if op in inflight && op.RecvOp? && srv.ring.HasRoom() {
        s' := Retire(op, Cqe(op, res, false, 0), held, n, s);
        taken := true;
      }
    }

    method Consume(ghost n: nat, ghost s: State) returns (taken: bool, ghost s': State)
      requires At(s, n)
      modifies srv.rq`khead
      ensures At(s', n)
      ensures if taken then KernelNext(srv.cfg, s, KernelRefill, s') else s' == s
    {
      taken, s' := false, s;
      if srv.rq.NrQueued() > 0 {
        srv.rq.KernelDrop(1);
        taken := true;
        s' := s.(rq := s.rq.(ring := Drop(s.rq.ring, 1), consumed := s.rq.consumed + [Window(s.rq.ring)[0]]));
      }
    }

    /** The kernel attempts some steps, while the pointers in `held` are out. */
    method Kernel(plan: seq<Step>, ghost held: seq<nat>, ghost n: nat, ghost tr: Trace<State, Step>)
      returns (ghost tr': Trace<State, Step>)
      requires At(tr.now, n) && srv.ring.Points(held) && Good(srv.cfg, tr)
      modifies this, srv`open, srv.ring`ktail, srv.ring.cqes, srv.rq`khead
      ensures At(tr'.now, n) && srv.ring.Points(held) && old(srv.ring.Unread()) <= srv.ring.Unread()
      ensures Good(srv.cfg, tr') && tr'.start == tr.start && Work(tr'.taken) == Work(tr.taken) && Onwards(tr.now, tr'.now)
    {
      tr' := tr;
      for i := 0 to |plan|
        invariant At(tr'.now, n) && srv.ring.Points(held) && old(srv.ring.Unread()) <= srv.ring.Unread()
        invariant Good(srv.cfg, tr') && tr'.start == tr.start && Work(tr'.taken) == Work(tr.taken) && Onwards(tr.now, tr'.now)
      {
        var taken;
        ghost var s;
        taken, s := KernelStep(plan[i], held, n, tr'.now);
        if taken { tr' := KernelGo(srv.cfg, tr', plan[i], s); }
      }
    }

    /** The last of the held pointers is to the next completion to process. */
    lemma PointsAtNext(held: seq<nat>, s: State)
      requires held != [] && At(s, |held| - 1) && srv.ring.Points(held)
      ensures held[|held| - 1] < srv.ring.cqes.Length && s.cq != [] && srv.ring.cqes[held[|held| - 1]] == s.cq[0]
      ensures |held| <= |srv.ring.Unread()| && srv.ring.Unread()[|held|..] == s.cq[1..]
    {
    }

    /** Processing up to and including the full check. */
    method ProcessHeld(ptr: nat, ghost held: seq<nat>, addr: nat, ghost tr: Trace<State, Step>)
      returns (returning: bool, ghost tr': Trace<State, Step>)
      requires held != [] && held[|held| - 1] == ptr && At(tr.now, |held| - 1) && srv.ring.Points(held)
      requires Good(srv.cfg, tr) && tr.now.phase.Batch? && tr.now.rq.pc.Idle? && tr.now.cq != []
      requires IsNewConnection(tr.now.cq[0]) ==> Unused(srv.cfg, tr.now.w, addr)
      modifies srv
      ensures At(tr'.now, |held|) && srv.ring.Points(held) && Good(srv.cfg, tr') && tr'.start == tr.start
      ensures Work(tr'.taken) == Work(tr.taken) + [ProcessOne(addr)]
      ensures tr'.now.phase.Batch? && tr'.now.seen == tr.now.seen + [tr.now.cq[0]] && tr'.now.cq == tr.now.cq[1..]
      ensures !returning ==> tr'.now.rq.pc.Idle?
      ensures returning ==> tr'.now.rq.pc.At? && tr'.now.rq.pc.stage.Passed? && Returns(tr.now.cq[0]) == [tr'.now.rq.pc.d]
    {
      PointsAtNext(held, tr.now);
      returning := srv.Completion(ptr, stop, addr);
      tr' := Go(srv.cfg, tr, ProcessOne(addr), Processed(srv.cfg, tr.now, addr));
    }

    /** The rest of `zcrx_return_buffer`: two stores and the publication, with the
        kernel at work before each. */
    method GiveBack(d: RefillQueue.Delivery, i: nat, o: World, ghost held: seq<nat>, ghost tr: Trace<State, Step>)
      returns (ghost tr': Trace<State, Step>)
      requires At(tr.now, |held|) && srv.ring.Points(held) && Good(srv.cfg, tr) && tr.now.phase.Batch?
      requires tr.now.rq.pc.At? && tr.now.rq.pc.stage.Passed? && tr.now.rq.pc.d == d
      modifies this, srv`open, srv.ring`ktail, srv.ring.cqes, srv.rq`khead, srv.rq`rqTail, srv.rq.rqes
      ensures At(tr'.now, |held|) && srv.ring.Points(held) && Good(srv.cfg, tr') && tr'.start == tr.start
      ensures tr'.now.phase.Batch? && tr'.now.rq.pc.Idle? && tr'.now.seen == tr.now.seen && tr.now.cq <= tr'.now.cq
      ensures Work(tr'.taken) == Work(tr.taken) + GIVING_BACK
    {
      tr' := StoreEntry(d, i, o, held, tr);
      tr' := PublishTail(o.late(i, 2), held, tr');
      Three(Work(tr.taken));
    }

    method StoreEntry(d: RefillQueue.Delivery, i: nat, o: World, ghost held: seq<nat>, ghost tr: Trace<State, Step>)
      returns (ghost tr': Trace<State, Step>)
      requires At(tr.now, |held|) && srv.ring.Points(held) && Good(srv.cfg, tr) && tr.now.phase.Batch?
      requires tr.now.rq.pc.At? && tr.now.rq.pc.stage.Passed? && tr.now.rq.pc.d == d
      modifies this, srv`open, srv.ring`ktail, srv.ring.cqes, srv.rq`khead, srv.rq.rqes
      ensures At(tr'.now, |held|) && srv.ring.Points(held) && Good(srv.cfg, tr') && tr'.start == tr.start
      ensures tr'.now.rq.pc.At? && tr'.now.rq.pc.stage.LenStored?
      ensures tr'.now.phase.Batch? && tr'.now.seen == tr.now.seen && tr.now.cq <= tr'.now.cq
      ensures Work(tr'.taken) == Work(tr.taken) + [Return(RefillQueue.StoreOff)] + [Return(RefillQueue.StoreLen)]
    {
      tr' := StoreOff(d, o.late(i, 0), held, tr);
      tr' := StoreLen(d, o.late(i, 1), held, tr');
    }

    method StoreOff(d: RefillQueue.Delivery, plan: seq<Step>, ghost held: seq<nat>, ghost tr: Trace<State, Step>)
      returns (ghost tr': Trace<State, Step>)
      requires At(tr.now, |held|) && srv.ring.Points(held) && Good(srv.cfg, tr) && tr.now.phase.Batch?
      requires tr.now.rq.pc.At? && tr.now.rq.pc.stage.Passed? && tr.now.rq.pc.d == d
      modifies this, srv`open, srv.ring`ktail, srv.ring.cqes, srv.rq`khead, srv.rq.rqes
      ensures At(tr'.now, |held|) && srv.ring.Points(held) && Good(srv.cfg, tr') && tr'.start == tr.start
      ensures tr'.now.rq.pc == tr.now.rq.pc.(stage := RefillQueue.OffStored)
      ensures tr'.now.phase.Batch? && tr'.now.seen == tr.now.seen && tr.now.cq <= tr'.now.cq
      ensures Work(tr'.taken) == Work(tr.taken) + [Return(RefillQueue.StoreOff)]
    {
      tr' := Kernel(plan, held, |held|, tr);
      srv.rq.StoreOff(d);
      ghost var rq := tr'.now.rq;
      tr' := ReturnGo(srv.cfg, tr', RefillQueue.StoreOff,
                      rq.(pc := rq.pc.(stage := RefillQueue.OffStored), ring := srv.rq.View()));
    }

    method StoreLen(d: RefillQueue.Delivery, plan: seq<Step>, ghost held: seq<nat>, ghost tr: Trace<State, Step>)
      returns (ghost tr': Trace<State, Step>)
      requires At(tr.now, |held|) && srv.ring.Points(held) && Good(srv.cfg, tr) && tr.now.phase.Batch?
      requires tr.now.rq.pc.At? && tr.now.rq.pc.stage.OffStored? && tr.now.rq.pc.d == d
      modifies this, srv`open, srv.ring`ktail, srv.ring.cqes, srv.rq`khead, srv.rq.rqes
      ensures At(tr'.now, |held|) && srv.ring.Points(held) && Good(srv.cfg, tr') && tr'.start == tr.start
      ensures tr'.now.rq.pc == tr.now.rq.pc.(stage := RefillQueue.LenStored)
      ensures tr'.now.phase.Batch? && tr'.now.seen == tr.now.seen && tr.now.cq <= tr'.now.cq
      ensures Work(tr'.taken) == Work(tr.taken) + [Return(RefillQueue.StoreLen)]
    {
      tr' := Kernel(plan, held, |held|, tr);
      srv.rq.StoreLen(d);
      ghost var rq := tr'.now.rq;
      tr' := ReturnGo(srv.cfg, tr', RefillQueue.StoreLen,
                      rq.(pc := rq.pc.(stage := RefillQueue.LenStored), ring := srv.rq.View()));
    }

    method PublishTail(plan: seq<Step>, ghost held: seq<nat>, ghost tr: Trace<State, Step>)
      returns (ghost tr': Trace<State, Step>)
      requires At(tr.now, |held|) && srv.ring.Points(held) && Good(srv.cfg, tr) && tr.now.phase.Batch?
      requires tr.now.rq.pc.At? && tr.now.rq.pc.stage.LenStored?
      modifies this, srv`open, srv.ring`ktail, srv.ring.cqes, srv.rq`khead, srv.rq`rqTail
      ensures At(tr'.now, |held|) && srv.ring.Points(held) && Good(srv.cfg, tr') && tr'.start == tr.start
      ensures tr'.now.rq.pc.Idle? && tr'.now.phase.Batch? && tr'.now.seen == tr.now.seen && tr.now.cq <= tr'.now.cq
      ensures Work(tr'.taken) == Work(tr.taken) + [Return(RefillQueue.PublishTail)]
    {
      tr' := Kernel(plan, held, |held|, tr);
      srv.rq.PublishTail();
      ghost var rq := tr'.now.rq;
      ghost var done := RefillQueue.Outcome(rq.pc.d, rq.pc.queued, true);
      tr' := ReturnGo(srv.cfg, tr', RefillQueue.PublishTail,
                      rq.(pc := RefillQueue.Idle, ring := srv.rq.View(), handled := rq.handled + [done]));
    }

    /** The next completion is processed, and its buffer returned if it carries
        one and the refill queue has room. Without memory for a new connection
        the worker gives up. */
    method ProcessNext(ptr: nat, ghost held: seq<nat>, i: nat, o: World, ghost tr: Trace<State, Step>)
      returns (ok: bool, ghost held': seq<nat>, ghost done: seq<Step>, ghost tr': Trace<State, Step>)
      requires Walking(held, tr) && tr.now.cq != [] && srv.ring.Points(held + [ptr]) && Sound(srv.cfg, o)
      modifies this, srv, srv.ring`ktail, srv.ring.cqes, srv.rq`khead, srv.rq`rqTail, srv.rq.rqes
      ensures Walking(held', tr') && tr'.start == tr.start && Carried(tr.now, tr'.now)
      ensures held' == if ok then held + [ptr] else held
      ensures Handling(done) && Work(tr'.taken) == Work(tr.taken) + done
    {
      held' := held + [ptr];
      PointsAtNext(held', tr.now);
      var addr := Allocate(ptr, i, o, tr.now);
      ok := addr.Some?;
      if ok {
        done, tr' := ProcessAndReturn(ptr, held', addr.value, i, o, tr);
        Carry(tr.now, tr'.now);
      } else {
        held', done, tr' := held, [], tr;
        assert Work(tr.taken) + [] == Work(tr.taken);
      }
    }

    /** Memory for the connection object, if the completion needs one. */
    method Allocate(ptr: nat, i: nat, o: World, ghost s: State) returns (addr: Option<nat>)
      requires Reachable(srv.cfg, s) && !s.phase.Done? && s.cq != [] && s.w == srv.View() && Sound(srv.cfg, o)
      requires ptr < srv.ring.cqes.Length && srv.ring.cqes[ptr] == s.cq[0]
      ensures addr.None? ==> TagOf(s.cq[0].op.word, TAG_BITS) == ACCEPT_TAG && s.cq[0].res >= 0
      ensures addr.Some? && IsNewConnection(s.cq[0]) ==> Unused(srv.cfg, s.w, addr.value)
    {
      AcceptWord(srv.cfg, s);
      addr := Some(0);
      if TagOf(srv.ring.cqes[ptr].op.word, TAG_BITS) == ACCEPT_TAG && srv.ring.cqes[ptr].res >= 0 {
        addr := o.alloc(i, srv.heap.Keys);
      }
    }

    method ProcessAndReturn(ptr: nat, ghost held: seq<nat>, addr: nat, i: nat, o: World, ghost tr: Trace<State, Step>)
      returns (ghost done: seq<Step>, ghost tr': Trace<State, Step>)
      requires held != [] && held[|held| - 1] == ptr && At(tr.now, |held| - 1) && srv.ring.Points(held)
      requires Good(srv.cfg, tr) && tr.now.phase.Batch? && tr.now.rq.pc.Idle? && tr.now.cq != []
      requires IsNewConnection(tr.now.cq[0]) ==> Unused(srv.cfg, tr.now.w, addr)
      modifies this, srv, srv.ring`ktail, srv.ring.cqes, srv.rq`khead, srv.rq`rqTail, srv.rq.rqes
      ensures At(tr'.now, |held|) && srv.ring.Points(held) && Good(srv.cfg, tr') && tr'.start == tr.start
      ensures tr'.now.phase.Batch? && tr'.now.rq.pc.Idle?
      ensures tr'.now.seen == tr.now.seen + [tr.now.cq[0]] && tr.now.cq[1..] <= tr'.now.cq
      ensures Handling(done) && Work(tr'.taken) == Work(tr.taken) + done
    {
      PointsAtNext(held, tr.now);
      var returning;
      returning, tr' := ProcessHeld(ptr, held, addr, tr);
      ghost var back;
      back, tr' := ReturnIf(returning, ptr, i, o, held, tr');
      done := [ProcessOne(addr)] + back;
      HandlingMore(Work(tr.taken), [ProcessOne(addr)], back);
    }

    method ReturnIf(returning: bool, ptr: nat, i: nat, o: World, ghost held: seq<nat>, ghost tr: Trace<State, Step>)
      returns (ghost back: seq<Step>, ghost tr': Trace<State, Step>)
      requires At(tr.now, |held|) && srv.ring.Points(held) && Good(srv.cfg, tr) && tr.now.phase.Batch?
      requires ptr < srv.ring.cqes.Length && (!returning ==> tr.now.rq.pc.Idle?)
      requires returning ==> tr.now.rq.pc.At? && tr.now.rq.pc.stage.Passed? && Returns(srv.ring.cqes[ptr]) == [tr.now.rq.pc.d]
      modifies this, srv`open, srv.ring`ktail, srv.ring.cqes, srv.rq`khead, srv.rq`rqTail, srv.rq.rqes
      ensures At(tr'.now, |held|) && srv.ring.Points(held) && Good(srv.cfg, tr') && tr'.start == tr.start
      ensures tr'.now.phase.Batch? && tr'.now.rq.pc.Idle? && tr'.now.seen == tr.now.seen && tr.now.cq <= tr'.now.cq
      ensures Handling(back) && Work(tr'.taken) == Work(tr.taken) + back
    {
      if returning {
        var d := RefillQueue.Delivery(srv.ring.cqes[ptr].off, srv.ring.cqes[ptr].res);
        tr' := GiveBack(d, i, o, held, tr);
        back := GIVING_BACK;
      } else {
        back, tr' := [], tr;
        assert Work(tr.taken) + [] == Work(tr.taken);
      }
    }

    /** The test of the loop and its body: the kernel is at work, then the worker
        looks for one more entry and processes it. */
    method WalkOne(count: nat, o: World, ghost held: seq<nat>, ghost tr: Trace<State, Step>)
      returns (more: bool, ok: bool, ghost held': seq<nat>, ghost done: seq<Step>, ghost tr': Trace<State, Step>)
      requires count == |held| && Walking(held, tr) && Sound(srv.cfg, o)
      modifies this, srv, srv.ring`ktail, srv.ring.cqes, srv.rq`khead, srv.rq`rqTail, srv.rq.rqes
      ensures Walking(held', tr') && tr'.start == tr.start && Carried(tr.now, tr'.now)
      ensures |held'| == if more && ok then count + 1 else count
      ensures ok && !more ==> tr'.now.cq == []
      ensures Handling(done) && Work(tr'.taken) == Work(tr.taken) + done
    {
      var ptr;
      more, ptr, tr' := Look(count, o.early(count), held, tr);
      if more {
        ghost var mid := tr'.now;
        ok, held', done, tr' := ProcessNext(ptr, held, count, o, tr');
        CarryOn(tr.now, mid, tr'.now);
      } else {
        ok, done, held' := true, [], held;
        assert Work(tr.taken) + [] == Work(tr.taken);
      }
    }

    method Look(count: nat, plan: seq<Step>, ghost held: seq<nat>, ghost tr: Trace<State, Step>)
      returns (more: bool, ptr: nat, ghost tr': Trace<State, Step>)
      requires count == |held| && Walking(held, tr)
      modifies this, srv`open, srv.ring`ktail, srv.ring.cqes, srv.rq`khead
      ensures Walking(held, tr') && tr'.start == tr.start && Work(tr'.taken) == Work(tr.taken) && Carried(tr.now, tr'.now)
      ensures more <==> tr'.now.cq != []
      ensures more ==> srv.ring.Points(held + [ptr])
    {
      tr' := Kernel(plan, held, count, tr);
      CarryWaiting(tr.now, tr'.now);
      more, ptr := srv.ring.Peek(held, count);
    }

    /** In the middle of a pass, with the pointers in `held` processed. */
    ghost predicate Walking(held: seq<nat>, tr: Trace<State, Step>)
      reads this, srv, srv.ring, srv.ring.cqes, srv.rq, srv.rq.rqes
    {
      && At(tr.now, |held|) && srv.ring.Points(held) && Good(srv.cfg, tr)
      && tr.now.phase.Batch? && tr.now.rq.pc.Idle?
    }

    /** `io_uring_for_each_cqe`: nothing is released yet. */
    method ForEach(o: World, ghost tr: Trace<State, Step>)
      returns (count: nat, ok: bool, ghost held: seq<nat>, ghost done: seq<Step>, ghost tr': Trace<State, Step>)
      requires Walking([], tr) && Sound(srv.cfg, o)
      modifies this, srv, srv.ring`ktail, srv.ring.cqes, srv.rq`khead, srv.rq`rqTail, srv.rq.rqes
      ensures count == |held| && Walking(held, tr') && tr'.start == tr.start && Carried(tr.now, tr'.now)
      ensures ok ==> tr'.now.cq == []
      ensures Handling(done) && Work(tr'.taken) == Work(tr.taken) + done
    {
      var more := true;
      count, ok, held, done, tr' := 0, true, [], [], tr;
      assert Work(tr.taken) + [] == Work(tr.taken);
      while more && ok
        invariant count == |held| && Walking(held, tr') && tr'.start == tr.start && Carried(tr.now, tr'.now)
        invariant ok && !more ==> tr'.now.cq == []
        invariant Handling(done) && Work(tr'.taken) == Work(tr.taken) + done
        decreases more && ok, srv.ring.cqes.Length - count
      {
        ghost var d, was := [], tr'.now;
        more, ok, held, d, tr' := WalkOne(count, o, held, tr');
        HandlingMore(Work(tr.taken), done, d);
        CarryOn(tr.now, was, tr'.now);
        done := done + d;
        if more && ok { count := count + 1; }
      }
    }

    /** One iteration: a submit and a pass over the completions, all released at
        its end. It is a run of the machine in which every completion that was
        unread at its beginning has been processed, once and in order; unless
        memory runs out. */
    method Iterate(o: World, ghost tr: Trace<State, Step>)
      returns (ok: bool, ghost done: seq<Step>, ghost tr': Trace<State, Step>)
      requires At(tr.now, 0) && Good(srv.cfg, tr) && tr.now.phase.Head? && tr.now.rq.pc.Idle? && !stop && Sound(srv.cfg, o)
      modifies this, srv, srv.ring`khead, srv.ring`ktail, srv.ring.cqes, srv.rq`khead, srv.rq`rqTail, srv.rq.rqes
      ensures Good(srv.cfg, tr') && tr'.start == tr.start && tr'.now.rq.pc.Idle? && Carried(tr.now, tr'.now)
      ensures ok ==> At(tr'.now, 0) && tr'.now.phase.Head? && tr'.now.cq == [] && tr.now.seen + tr.now.cq <= tr'.now.seen
      ensures Handling(done) && Work(tr'.taken) == Work(tr.taken) + [Submit] + done + (if ok then [EndBatch] else [])
    {
      tr' := SubmitQueue(tr);
      var count;
      ghost var held;
      count, ok, held, done, tr' := ForEach(o, tr');
      if ok { tr' := ReleaseAll(count, held, tr'); }
    }

    method SubmitQueue(ghost tr: Trace<State, Step>) returns (ghost tr': Trace<State, Step>)
      requires At(tr.now, 0) && Good(srv.cfg, tr) && tr.now.phase.Head? && tr.now.rq.pc.Idle? && !stop
      modifies this`inflight, srv`sq
      ensures Walking([], tr') && tr'.start == tr.start && Work(tr'.taken) == Work(tr.taken) + [Submit]
      ensures tr'.now.seen == tr.now.seen && tr'.now.cq == tr.now.cq
    {
      inflight := inflight + multiset(srv.sq);
      srv.sq := [];
      tr' := Go(srv.cfg, tr, Submit,
                tr.now.(w := srv.View(), inflight := inflight, phase := Batch, base := |tr.now.w.conns|));
    }

    /** `io_uring_cq_advance` by everything processed. */
    method ReleaseAll(count: nat, ghost held: seq<nat>, ghost tr: Trace<State, Step>)
      returns (ghost tr': Trace<State, Step>)
      requires count == |held| && Walking(held, tr)
      modifies srv.ring`khead, srv.ring.cqes
      ensures At(tr'.now, 0) && Good(srv.cfg, tr') && tr'.start == tr.start && tr'.now == tr.now.(phase := Head)
      ensures Work(tr'.taken) == Work(tr.taken) + [EndBatch]
    {
      srv.ring.Advance(count, held);
      tr' := Go(srv.cfg, tr, EndBatch, tr.now.(phase := Head));
    }

    /** The whole loop and the clean-up after it; it ends on stop, when waiting
        fails, or with the worlds. */
    method Serve(os: seq<World>, fails: nat -> bool, ghost tr: Trace<State, Step>)
      returns (ok: bool, ghost tr': Trace<State, Step>)
      requires At(tr.now, 0) && Good(srv.cfg, tr) && tr.now.phase.Head? && tr.now.rq.pc.Idle?
      requires forall i :: 0 <= i < |os| ==> Sound(srv.cfg, os[i])
      modifies this, srv, srv.ring`khead, srv.ring`ktail, srv.ring.cqes, srv.rq`khead, srv.rq`rqTail, srv.rq.rqes
      ensures Good(srv.cfg, tr') && tr'.start == tr.start
      ensures ok ==> tr'.now.w == srv.View() && tr'.now.phase.Done?
    {
      ok, tr' := true, tr;
      var i := 0;
      while ok && !stop && i < |os| && !fails(i)
        invariant Good(srv.cfg, tr') && tr'.start == tr.start
        invariant ok ==> At(tr'.now, 0) && tr'.now.phase.Head? && tr'.now.rq.pc.Idle?
        decreases |os| - i
      {
        ghost var done;
        ok, done, tr' := Iterate(os[i], tr');
        i := i + 1;
      }
      if ok { tr' := Finish(tr'); }
    }

    method Finish(ghost tr: Trace<State, Step>) returns (ghost tr': Trace<State, Step>)
      requires At(tr.now, 0) && Good(srv.cfg, tr) && tr.now.phase.Head?
      modifies srv`conns, srv`heap, srv`closed, srv`open
      ensures Good(srv.cfg, tr') && tr'.start == tr.start && tr'.now.w == srv.View() && tr'.now.phase.Done?
    {
      srv.Cleanup();
      tr' := Go(srv.cfg, tr, Quit, tr.now.(w := srv.View(), phase := Done));
    }
  }

  const GIVING_BACK := [Return(RefillQueue.StoreOff), Return(RefillQueue.StoreLen), Return(RefillQueue.PublishTail)]

  /** What had been posted before is processed first. */
  ghost predicate Carried(s: State, s': State) { s.seen + s.cq <= s'.seen + s'.cq }

  lemma CarryOn(s: State, t: State, u: State)
    requires Carried(s, t) && Carried(t, u)
    ensures Carried(s, u)
  {
  }

  lemma CarryWaiting(s: State, s': State)
    requires s'.seen == s.seen && s.cq <= s'.cq
    ensures Carried(s, s')
  {
  }

  /** One completion is processed, the kernel goes on. */
  lemma Carry(s: State, s': State)
    requires s.cq != [] && s'.seen == s.seen + [s.cq[0]] && s.cq[1..] <= s'.cq
    ensures Carried(s, s')
  {
    assert s.cq == [s.cq[0]] + s.cq[1..];
    assert s.seen + s.cq == s'.seen + s.cq[1..];
  }

  lemma Three(w: seq<Step>)
    ensures w + [Return(RefillQueue.StoreOff)] + [Return(RefillQueue.StoreLen)] + [Return(RefillQueue.PublishTail)]
      == w + GIVING_BACK
  {
  }

  lemma ReturnGo(c: Config, tr: Trace<State, Step>, step: RefillQueue.Step, rq: RefillQueue.State)
    returns (tr': Trace<State, Step>)
    requires Good(c, tr) && tr.now.phase.Batch? && (step.StoreOff? || step.StoreLen? || step.PublishTail?)
    requires RefillQueue.Next(c.refill, tr.now.rq, step, rq)
    ensures Good(c, tr') && tr'.start == tr.start && tr'.now == tr.now.(rq := rq)
    ensures Work(tr'.taken) == Work(tr.taken) + [Return(step)]
  {
    tr' := Go(c, tr, Return(step), tr.now.(rq := rq));
  }

  /** A connection arrives under the accept's word. */
  lemma AcceptWord(c: Config, s: State)
    requires Reachable(c, s) && !s.phase.Done? && s.cq != []
    ensures TAG_BITS <= c.width && (IsNewConnection(s.cq[0]) ==> TagOf(s.cq[0].op.word, TAG_BITS) == ACCEPT_TAG)
  {
    ReachableInv(c, s);
    NamedIsToken(c, s, 0);
    MaskIsMod(ACCEPT_TAG, TAG_BITS);
    assert Pow2(3) == 8;
  }
}
