/** The receiving client's loop as a run of the machine: the worker's code with
    the kernel at work between any two of its steps. */
module ReceiveLoop {
  import opened Uring
  import opened Rings
  import opened ProvidedBuffers
  import opened Stats
  import opened Bags
  import opened Runs
  import opened ClientLoop
  import opened ReverseClient
  import opened CompletionRing

  /** The receive loop over the engine's buffers and its completion ring. */
  class Receiver {
    const cfg: Config
    const engine: RecvBuffers
    const ring: Queue<Cqe>
    var op: Op
    var sq: seq<nat>
    var closed: bool
    var stats: Counters
    ghost var failed: nat

    ghost predicate Ok()
      reads this, engine, engine.slots
    {
      cfg.multishot ==> engine.ready && engine.slots.Length > 0
    }

    ghost function View(): Worker
      reads this, engine, engine.slots
    {
      Worker(engine.View(), op, sq, failed, closed, stats)
    }

    constructor (c: Config, e: RecvBuffers, q: Queue<Cqe>)
      requires c.multishot ==> e.ready && e.slots.Length > 0
      ensures cfg == c && engine == e && ring == q && Ok()
      ensures View() == SetUp(c, e.View())
    {
      cfg, engine, ring := c, e, q;
      op, sq, closed, stats, failed := if c.multishot then Queued else Idle, [], false, ZERO, 0;
      new;
      if !c.multishot {
        for i := 0 to c.inFlight
          invariant cfg == c && engine == e && ring == q && Ok()
          invariant engine.View() == old(e.View()) && engine.slots == old(e.slots)
          invariant View() == Primed(c, Worker(e.View(), Idle, [], 0, false, ZERO), i)
        {
          PrepRecv(i);
        }
      }
    }

    method PrepRecv(slot: nat)
      modifies this`sq, this`failed
      ensures View() == Prep(cfg, old(View()), slot)
    {
      if |sq| < cfg.capacity { sq := sq + [slot]; } else { failed := failed + 1; }
    }

    method OnMultishot(ptr: nat)
      requires Ok() && cfg.multishot && ptr < ring.cqes.Length
      modifies this, engine, engine.slots
      ensures Ok() && engine.slots == old(engine.slots)
      ensures View() == HandleMulti(old(View()), ring.cqes[ptr])
    {
      if ring.cqes[ptr].res > 0 && ring.cqes[ptr].buf.Some? {
        stats := stats.AddBytes(ring.cqes[ptr].res, 1);
        engine.ReturnRecvBuffer(ring.cqes[ptr].buf.value);
      }
      if !ring.cqes[ptr].more {
        if ring.cqes[ptr].res == -ENOBUFS {
          op := Queued;
        } else {
          if ring.cqes[ptr].res < 0 { stats := stats.AddError(); }
          closed := true;
        }
      }
    }

    method OnSingle(ptr: nat, slot: nat, stop: bool)
      requires ptr < ring.cqes.Length
      modifies this
      ensures View() == HandleSingle(cfg, old(View()), slot, ring.cqes[ptr].res, stop)
    {
      if ring.cqes[ptr].res > 0 {
        stats := stats.AddBytes(ring.cqes[ptr].res, 1);
        if !stop { PrepRecv(slot); }
      } else if ring.cqes[ptr].res == -EAGAIN {
        if !stop { PrepRecv(slot); }
      } else {
        if ring.cqes[ptr].res < 0 { stats := stats.AddError(); }
        closed := true;
      }
    }

    method Submit()
      modifies this`op, this`sq
      ensures View() == old(View()).(op := if old(op).Queued? then Armed else old(op), sq := [])
    {
      if op.Queued? { op := Armed; }
      sq := [];
    }

    /** The loop body, from the pointer to the release. */
    method Completion(ptr: nat, ghost held: seq<nat>, stop: bool)
      requires Ok() && ring.Ok() && held != [] && held[0] == ptr && ring.Points(held) && ring.Unread() != []
      modifies this, engine, engine.slots, ring`khead, ring.cqes
      ensures Ok() && engine.slots == old(engine.slots) && ring.Ok() && ring.Points(held[1..])
      ensures View() == Handle(cfg, old(View()), old(ring.Unread())[0], stop)
      ensures ring.Unread() == old(ring.Unread())[1..]
    {
      ring.PointsAtOldest(held);
      if ring.cqes[ptr].ctx.None? {
        ring.CqeSeen(held);
        return;
      }
      if cfg.multishot { OnMultishot(ptr); } else { OnSingle(ptr, ring.cqes[ptr].ctx.value, stop); }
      ring.CqeSeen(held);
    }
  }

  /** The worker's part of a path. */
  function WorkOf(step: Step): seq<Step> {
    if step.Enter? || step.Reap? || step.Process? || step.EndBatch? then [step] else []
  }

  function Work(steps: seq<Step>): seq<Step> { Gather(steps, WorkOf) }

  ghost predicate Good(c: Config, tr: Trace<State, Step>) {
    Traced(Starts(c), Steps(c), tr) && (c.multishot ==> |tr.now.w.pool.ring.slots| > 0)
  }

  lemma Go(c: Config, tr: Trace<State, Step>, step: Step, s: State) returns (tr': Trace<State, Step>)
    requires Good(c, tr) && Next(c, tr.now, step, s)
    ensures Good(c, tr') && tr'.start == tr.start && tr'.now == s && Work(tr'.taken) == Work(tr.taken) + WorkOf(step)
  {
    Onward(Starts(c), Steps(c), tr, step, s);
    GatherAppend(tr.taken, step, WorkOf);
    tr' := Then(tr, step, s);
    if c.multishot { ReachableInv(c, s); }
  }

  lemma KernelGo(c: Config, tr: Trace<State, Step>, step: Step, s: State) returns (tr': Trace<State, Step>)
    requires Good(c, tr) && KernelNext(c, tr.now, step, s)
    ensures Good(c, tr') && tr'.start == tr.start && tr'.now == s && Work(tr'.taken) == Work(tr.taken)
    ensures s.phase == tr.now.phase && tr.now.cq <= s.cq
  {
    tr' := Go(c, tr, step, s);
    assert Work(tr.taken) + [] == Work(tr.taken);
  }

  /** The worker's steps in an iteration that harvests `k` completions. */
  function Iteration(k: nat): seq<Step> { [Enter] + Response(k) }

  function Response(k: nat): seq<Step> {
    if k == 0 then [Reap(0)] else [Reap(k)] + seq(k, _ => Process) + [EndBatch]
  }

  lemma OneMoreStep(w: seq<Step>, i: nat)
    ensures (w + seq(i, _ => Process)) + [Process] == w + seq(i + 1, _ => Process)
  {
  }

  lemma BatchPieces(w: seq<Step>, k: nat)
    requires k > 0
    ensures w + [Reap(k)] + seq(k, _ => Process) + [EndBatch] == w + Response(k)
  {
  }

  lemma Pieces(w: seq<Step>, k: nat)
    ensures w + [Enter] + Response(k) == w + Iteration(k)
  {
  }

  lemma BuffersInOrder(c: Config, s: State)
    requires Reachable(c, s) && c.multishot
    ensures Valid(s.w.pool.ring)
  {
    ReachableInv(c, s);
  }

  /** What the kernel attempts before the i-th test of the harvest, and before the
      i-th completion is processed. */
  datatype World = World(early: nat -> seq<Step>, late: nat -> seq<Step>)

  class Loop {
    const rcv: Receiver
    var inflight: multiset<nat>
    var stop: bool

    /** The machine is in state `s`. */
    ghost predicate At(s: State)
      reads this, rcv, rcv.engine, rcv.engine.slots, rcv.ring, rcv.ring.cqes
    {
      && rcv.Ok() && rcv.ring.Ok() && s.w == rcv.View() && s.cq == rcv.ring.Unread()
      && s.inflight == inflight && s.stop == stop
    }

    /** The machine's state, if nothing has completed yet. */
    ghost function Begun(): State
      requires rcv.ring.cqes.Length > 0
      reads this, rcv, rcv.engine, rcv.engine.slots, rcv.ring, rcv.ring.cqes
    {
      State(rcv.View(), inflight, rcv.ring.Unread(), Head, stop, [])
    }

    /** Set-up, up to and including the first submit. */
    constructor (c: Config, e: RecvBuffers, q: Queue<Cqe>)
      requires c.multishot ==> e.ready && e.slots.Length > 0 && Filled(e.View())
      requires q.Ok() && q.Unread() == []
      ensures rcv.cfg == c && rcv.engine == e && rcv.ring == q && fresh(rcv) && At(Begun()) && Init(c, Begun())
    {
      var receiver := new Receiver(c, e, q);
      inflight := multiset(receiver.sq);
      receiver.Submit();
      rcv, stop := receiver, false;
    }

    /** A kernel step is taken if it is possible and the completion ring has
        room for what it posts. */
    method KernelStep(step: Step, ghost held: seq<nat>, ghost s: State) returns (taken: bool, ghost s': State)
      requires At(s) && Reachable(rcv.cfg, s) && rcv.ring.Points(held)
      modifies this, rcv`op, rcv.engine`head, rcv.ring`ktail, rcv.ring.cqes
      ensures At(s') && rcv.ring.Points(held)
      ensures if taken then KernelNext(rcv.cfg, s, step, s') else s' == s
    {
      taken, s' := false, s;
      match step {
        case KernelData(res) => taken, s' := Deliver(res, true, held, s);
        case KernelEnd(res, withBuffer) =>
          if withBuffer { taken, s' := Deliver(res, false, held, s); } else { taken, s' := Terminate(res, held, s); }
        case KernelRecv(slot, res) => taken, s' := CompleteRecv(slot, res, held, s);
        case Stop =>
          stop, taken, s' := true, true, s.(stop := true);
        case _ =>
      }
    }

    /** A completion that carries the oldest buffer of the ring. */
    method Deliver(res: int, more: bool, ghost held: seq<nat>, ghost s: State) returns (taken: bool, ghost s': State)
      requires At(s) && Reachable(rcv.cfg, s) && rcv.ring.Points(held)
      modifies rcv`op, rcv.engine`head, rcv.ring`ktail, rcv.ring.cqes
      ensures At(s') && rcv.ring.Points(held)
      ensures if taken then KernelNext(rcv.cfg, s, if more then KernelData(res) else KernelEnd(res, true), s') else s' == s
    {
      taken, s' := false, s;
      if rcv.cfg.multishot && rcv.op.Armed? && res > 0 && rcv.engine.HasBuffer() && rcv.ring.HasRoom() {
        var bid := TakeAndPost(res, more, held, s);
        if !more { rcv.op := Idle; }
        taken, s' := true, s.(w := rcv.View(), cq := s.cq + [Cqe(Some(0), res, more, Some(bid))]);
      }
    }

    method TakeAndPost(res: int, more: bool, ghost held: seq<nat>, ghost s: State) returns (bid: nat)
      requires At(s) && Reachable(rcv.cfg, s) && rcv.ring.Points(held)
      requires rcv.cfg.multishot && rcv.engine.HasBuffer() && rcv.ring.HasRoom()
      modifies rcv.engine`head, rcv.ring`ktail, rcv.ring.cqes
      ensures rcv.Ok() && rcv.ring.Ok() && rcv.ring.Points(held) && Len(s.w.pool.ring) > 0
      ensures bid == Window(s.w.pool.ring)[0].bid && rcv.View() == s.w.(pool := Take(s.w.pool))
      ensures rcv.ring.Unread() == s.cq + [Cqe(Some(0), res, more, Some(bid))]
    {
      BuffersInOrder(rcv.cfg, s);
      bid := rcv.engine.KernelTake();
      rcv.ring.Post(Cqe(Some(0), res, more, Some(bid)), held);
    }

    method Terminate(res: int, ghost held: seq<nat>, ghost s: State) returns (taken: bool, ghost s': State)
      requires At(s) && rcv.ring.Points(held)
      modifies rcv`op, rcv.ring`ktail, rcv.ring.cqes
      ensures At(s') && rcv.ring.Points(held)
      ensures if taken then KernelNext(rcv.cfg, s, KernelEnd(res, false), s') else s' == s
    {
      taken, s' := false, s;
      if rcv.cfg.multishot && rcv.op.Armed? && rcv.ring.HasRoom() {
        rcv.ring.Post(Cqe(Some(0), res, false, None), held);
        rcv.op := Idle;
        taken, s' := true, s.(w := rcv.View(), cq := s.cq + [Cqe(Some(0), res, false, None)]);
      }
    }

    method CompleteRecv(slot: nat, res: int, ghost held: seq<nat>, ghost s: State)
      returns (taken: bool, ghost s': State)
      requires At(s) && rcv.ring.Points(held)
      modifies this`inflight, rcv.ring`ktail, rcv.ring.cqes
      ensures At(s') && rcv.ring.Points(held)
      ensures if taken then KernelNext(rcv.cfg, s, KernelRecv(slot, res), s') else s' == s
    {
      taken, s' := false, s;
      if !rcv.cfg.multishot && slot in inflight && rcv.ring.HasRoom() {
        rcv.ring.Post(Cqe(Some(slot), res, false, None), held);
        inflight := inflight - multiset{slot};
        taken, s' := true, s.(inflight := inflight, cq := s.cq + [Cqe(Some(slot), res, false, None)]);
      }
    }

    /** The kernel attempts some steps, while the pointers in `held` are out. */
    method Kernel(plan: seq<Step>, ghost held: seq<nat>, ghost tr: Trace<State, Step>)
      returns (ghost tr': Trace<State, Step>)
      requires At(tr.now) && rcv.ring.Points(held) && Good(rcv.cfg, tr)
      modifies this, rcv`op, rcv.engine`head, rcv.ring`ktail, rcv.ring.cqes
      ensures At(tr'.now) && rcv.ring.Points(held) && Good(rcv.cfg, tr')
      ensures tr'.start == tr.start && Work(tr'.taken) == Work(tr.taken)
      ensures tr'.now.phase == tr.now.phase && tr.now.cq <= tr'.now.cq
    {
      tr' := tr;
      for i := 0 to |plan|
        invariant At(tr'.now) && rcv.ring.Points(held) && Good(rcv.cfg, tr')
        invariant tr'.start == tr.start && Work(tr'.taken) == Work(tr.taken)
        invariant tr'.now.phase == tr.now.phase && tr.now.cq <= tr'.now.cq
      {
        var taken;
        ghost var s;
        taken, s := KernelStep(plan[i], held, tr'.now);
        if taken { tr' := KernelGo(rcv.cfg, tr', plan[i], s); }
      }
    }

    /** `reap_completions`, with the kernel at work before every test. */
    method Harvest(o: World, ghost tr: Trace<State, Step>) returns (out: seq<nat>, ghost tr': Trace<State, Step>)
      requires At(tr.now) && Good(rcv.cfg, tr)
      modifies this, rcv`op, rcv.engine`head, rcv.ring`ktail, rcv.ring.cqes
      ensures At(tr'.now) && rcv.ring.Points(out) && Good(rcv.cfg, tr')
      ensures tr'.start == tr.start && Work(tr'.taken) == Work(tr.taken)
      ensures tr'.now.phase == tr.now.phase && tr.now.cq <= tr'.now.cq
      ensures |out| == if rcv.cfg.inFlight < |tr'.now.cq| then rcv.cfg.inFlight else |tr'.now.cq|
    {
      out, tr' := [], tr;
      while true
        invariant At(tr'.now) && rcv.ring.Points(out) && Good(rcv.cfg, tr') && |out| <= rcv.cfg.inFlight
        invariant tr'.start == tr.start && Work(tr'.taken) == Work(tr.taken)
        invariant tr'.now.phase == tr.now.phase && tr.now.cq <= tr'.now.cq
        decreases rcv.cfg.inFlight - |out|
      {
        tr' := Kernel(o.early(|out|), out, tr');
        var more, ptr := rcv.ring.Peek(out, |out|);
        if !more || |out| >= rcv.cfg.inFlight { break; }
        out := out + [ptr];
      }
    }

    /** The kernel is at work, then the next completion of the batch is processed. */
    method ProcessNext(out: seq<nat>, i: nat, plan: seq<Step>, ghost tr: Trace<State, Step>)
      returns (ghost tr': Trace<State, Step>)
      requires At(tr.now) && Good(rcv.cfg, tr) && i < |out| && tr.now.phase == Batch(|out| - i) && rcv.ring.Points(out[i..])
      modifies this, rcv, rcv.engine, rcv.engine.slots, rcv.ring`khead, rcv.ring`ktail, rcv.ring.cqes
      ensures At(tr'.now) && rcv.engine.slots == old(rcv.engine.slots) && rcv.ring.Points(out[i + 1..])
      ensures Good(rcv.cfg, tr') && tr'.now.phase == Batch(|out| - i - 1)
      ensures tr'.start == tr.start && Work(tr'.taken) == Work(tr.taken) + [Process]
    {
      ghost var held := out[i..];
      assert held[1..] == out[i + 1..];
      tr' := Kernel(plan, held, tr);
      tr' := ProcessHeld(out[i], held, tr');
    }

    method ProcessHeld(ptr: nat, ghost held: seq<nat>, ghost tr: Trace<State, Step>)
      returns (ghost tr': Trace<State, Step>)
      requires At(tr.now) && Good(rcv.cfg, tr) && tr.now.phase == Batch(|held|)
      requires held != [] && held[0] == ptr && rcv.ring.Points(held)
      modifies rcv, rcv.engine, rcv.engine.slots, rcv.ring`khead, rcv.ring`ktail, rcv.ring.cqes
      ensures At(tr'.now) && rcv.engine.slots == old(rcv.engine.slots) && rcv.ring.Points(held[1..])
      ensures Good(rcv.cfg, tr') && tr'.now.phase == Batch(|held| - 1)
      ensures tr'.start == tr.start && Work(tr'.taken) == Work(tr.taken) + [Process]
    {
      rcv.ring.PointsAtOldest(held);
      rcv.Completion(ptr, held, stop);
      ghost var s := tr.now;
      tr' := Go(rcv.cfg, tr, Process,
                s.(w := rcv.View(), cq := s.cq[1..], phase := Batch(|held| - 1), seen := s.seen + [s.cq[0]]));
    }

    /** The batch is processed to its end, also once the peer has closed. */
    method ProcessBatch(out: seq<nat>, o: World, ghost tr: Trace<State, Step>)
      returns (ghost tr': Trace<State, Step>)
      requires At(tr.now) && Good(rcv.cfg, tr) && tr.now.phase == Batch(|out|) && rcv.ring.Points(out)
      modifies this, rcv, rcv.engine, rcv.engine.slots, rcv.ring`khead, rcv.ring`ktail, rcv.ring.cqes
      ensures At(tr'.now) && rcv.engine.slots == old(rcv.engine.slots)
      ensures Good(rcv.cfg, tr') && tr'.now.phase == Batch(0)
      ensures tr'.start == tr.start && Work(tr'.taken) == Work(tr.taken) + seq(|out|, _ => Process)
    {
      tr' := tr;
      for i := 0 to |out|
        invariant At(tr'.now) && rcv.engine.slots == old(rcv.engine.slots) && rcv.ring.Points(out[i..])
        invariant Good(rcv.cfg, tr') && tr'.now.phase == Batch(|out| - i)
        invariant tr'.start == tr.start && Work(tr'.taken) == Work(tr.taken) + seq(i, _ => Process)
      {
        tr' := ProcessNext(out, i, o.late(i), tr');
        OneMoreStep(Work(tr.taken), i);
      }
    }

    /** The submit, after a batch or when there was nothing to process. */
    method Submit(step: Step, ghost tr: Trace<State, Step>) returns (ghost tr': Trace<State, Step>)
      requires At(tr.now) && Good(rcv.cfg, tr)
      requires (step == Reap(0) && tr.now.phase.Entered?) || (step == EndBatch && tr.now.phase == Batch(0))
      modifies this`inflight, rcv`sq, rcv`op
      ensures At(tr'.now) && Good(rcv.cfg, tr') && tr'.now.phase.Head?
      ensures tr'.start == tr.start && Work(tr'.taken) == Work(tr.taken) + [step]
    {
      inflight := inflight + multiset(rcv.sq);
      rcv.Submit();
      tr' := Go(rcv.cfg, tr, step, Submitted(tr.now).(phase := Head));
    }

    /** One iteration of the loop. It is a run of the machine: a harvest of `k`
        completions, as many as there are up to `inFlight`, the processing of
        each of them, and a submit, with kernel steps anywhere in between. */
    method Iterate(o: World, ghost tr: Trace<State, Step>) returns (ghost k: nat, ghost tr': Trace<State, Step>)
      requires At(tr.now) && Good(rcv.cfg, tr) && tr.now.phase.Head? && !stop && !rcv.closed
      modifies this, rcv, rcv.engine, rcv.engine.slots, rcv.ring`khead, rcv.ring`ktail, rcv.ring.cqes
      ensures At(tr'.now) && rcv.engine.slots == old(rcv.engine.slots)
      ensures Good(rcv.cfg, tr') && tr'.now.phase.Head? && tr'.start == tr.start
      ensures k <= rcv.cfg.inFlight && (k == rcv.cfg.inFlight || k >= |tr.now.cq|)
      ensures Work(tr'.taken) == Work(tr.taken) + Iteration(k)
    {
      tr' := Go(rcv.cfg, tr, Enter, tr.now.(phase := Entered));
      var out;
      out, tr' := Harvest(o, tr');
      k := |out|;
      tr' := Respond(out, o, tr');
      Pieces(Work(tr.taken), k);
    }

    method Respond(out: seq<nat>, o: World, ghost tr: Trace<State, Step>) returns (ghost tr': Trace<State, Step>)
      requires At(tr.now) && Good(rcv.cfg, tr) && tr.now.phase.Entered? && rcv.ring.Points(out)
      requires |out| <= rcv.cfg.inFlight && |out| <= |tr.now.cq|
      modifies this, rcv, rcv.engine, rcv.engine.slots, rcv.ring`khead, rcv.ring`ktail, rcv.ring.cqes
      ensures At(tr'.now) && rcv.engine.slots == old(rcv.engine.slots)
      ensures Good(rcv.cfg, tr') && tr'.now.phase.Head? && tr'.start == tr.start
      ensures Work(tr'.taken) == Work(tr.taken) + Response(|out|)
    {
      if |out| == 0 {
        tr' := Submit(Reap(0), tr);
      } else {
        tr' := RunBatch(out, o, tr);
        BatchPieces(Work(tr.taken), |out|);
      }
    }

    /** A harvested batch and the submit after it. */
    method RunBatch(out: seq<nat>, o: World, ghost tr: Trace<State, Step>) returns (ghost tr': Trace<State, Step>)
      requires At(tr.now) && Good(rcv.cfg, tr) && tr.now.phase.Entered? && rcv.ring.Points(out)
      requires 0 < |out| <= rcv.cfg.inFlight && |out| <= |tr.now.cq|
      modifies this, rcv, rcv.engine, rcv.engine.slots, rcv.ring`khead, rcv.ring`ktail, rcv.ring.cqes
      ensures At(tr'.now) && rcv.engine.slots == old(rcv.engine.slots)
      ensures Good(rcv.cfg, tr') && tr'.now.phase.Head? && tr'.start == tr.start
      ensures Work(tr'.taken) == Work(tr.taken) + [Reap(|out|)] + seq(|out|, _ => Process) + [EndBatch]
    {
      tr' := Go(rcv.cfg, tr, Reap(|out|), tr.now.(phase := Batch(|out|)));
      tr' := ProcessBatch(out, o, tr');
      tr' := EndOfBatch(o.late(|out|), tr');
    }

    method EndOfBatch(plan: seq<Step>, ghost tr: Trace<State, Step>) returns (ghost tr': Trace<State, Step>)
      requires At(tr.now) && Good(rcv.cfg, tr) && tr.now.phase == Batch(0)
      modifies this, rcv`op, rcv`sq, rcv.engine`head, rcv.ring`ktail, rcv.ring.cqes
      ensures At(tr'.now) && Good(rcv.cfg, tr') && tr'.now.phase.Head?
      ensures tr'.start == tr.start && Work(tr'.taken) == Work(tr.taken) + [EndBatch]
    {
      tr' := Kernel(plan, [], tr);
      tr' := Submit(EndBatch, tr');
    }

    /** The whole loop, over as many iterations as there are worlds or until stop
        is seen or the peer has closed. */
    method Run(os: seq<World>, ghost tr: Trace<State, Step>) returns (ghost tr': Trace<State, Step>)
      requires At(tr.now) && Good(rcv.cfg, tr) && tr.now.phase.Head?
      modifies this, rcv, rcv.engine, rcv.engine.slots, rcv.ring`khead, rcv.ring`ktail, rcv.ring.cqes
      ensures At(tr'.now) && Good(rcv.cfg, tr') && tr'.now.phase.Head? && tr'.start == tr.start
    {
      tr' := tr;
      var i := 0;
      while !stop && !rcv.closed && i < |os|
        invariant At(tr'.now) && Good(rcv.cfg, tr') && tr'.now.phase.Head? && tr'.start == tr.start
        invariant rcv.engine.slots == old(rcv.engine.slots)
        decreases |os| - i
      {
        ghost var k;
        k, tr' := Iterate(os[i], tr');
        i := i + 1;
      }
    }
  }
}
