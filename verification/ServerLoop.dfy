/** The server's loop as a run of the machine: the worker's code with the kernel
    at work between any two of its steps. */
module ServerLoop {
  import opened Uring
  import opened Rings
  import opened ProvidedBuffers
  import opened Stats
  import opened Bags
  import opened Runs
  import opened ServerModel
  import opened ServerOwnership
  import opened ServerWorker
  import opened CompletionRing

  /** The worker's part of a path. */
  function WorkOf(step: Step): seq<Step> {
    if step.Expire? || step.Reap? || step.ProcessOne? || step.EndBatch? || step.Quit? then [step] else []
  }

  function Work(steps: seq<Step>): seq<Step> { Gather(steps, WorkOf) }

  ghost predicate Good(c: Config, tr: Trace<State, Step>) {
    Traced(Starts(c), Steps(c), tr) && |tr.now.w.pool.ring.slots| > 0
  }

  lemma Go(c: Config, tr: Trace<State, Step>, step: Step, s: State)
    requires Good(c, tr) && Next(c, tr.now, step, s)
    ensures Good(c, Then(tr, step, s)) && Work(Then(tr, step, s).taken) == Work(tr.taken) + WorkOf(step)
  {
    Onward(Starts(c), Steps(c), tr, step, s);
    GatherAppend(tr.taken, step, WorkOf);
    ReachableInv(c, s);
  }

  /** What the outside contributes to an iteration: what the kernel attempts
      before the i-th test of the harvest and before the i-th completion, the
      handshakes, and the allocator's choice given the addresses in use. */
  datatype World = World(
    early: nat -> seq<Step>, late: nat -> seq<Step>, hs: nat -> Handshake, alloc: (nat, set<nat>) -> nat)

  ghost predicate Sound(o: World) { forall i: nat, used: set<nat> :: o.alloc(i, used) !in used }

  class Loop {
    const srv: Server
    var inflight: multiset<Ctx>
    var notifs: multiset<Ctx>
    var now: nat
    var stop: bool

    ghost predicate Ok()
      reads this, srv, srv.engine, srv.engine.slots, srv.ring, srv.ring.cqes
    {
      srv.Ok() && srv.ring.Ok()
    }

    /** The machine is in state `s`. */
    ghost predicate At(s: State)
      requires srv.ring.cqes.Length > 0
      reads this, srv, srv.engine, srv.engine.slots, srv.ring, srv.ring.cqes
    {
      && s.w == srv.View() && s.cq == srv.ring.Unread() && s.inflight == inflight && s.notifs == notifs
      && s.clock == now && s.stop == stop && !s.phase.Done?
    }

    /** The machine's state, if nothing has completed yet. */
    ghost function Begun(): State
      requires srv.ring.cqes.Length > 0
      reads this, srv, srv.engine, srv.engine.slots, srv.ring, srv.ring.cqes
    {
      State(srv.View(), inflight, notifs, srv.ring.Unread(), Head, now, stop, [], Journal([], [], 0))
    }

    /** Set-up, up to and including the first submit. */
    constructor (c: Config, e: RecvBuffers, q: Queue<Cqe>, fds: set<int>, time: nat)
      requires e.slots.Length > 0 && (c.multishot ==> e.ready && Filled(e.View()))
      requires q.Ok() && q.Unread() == [] && c.listenFd in fds
      ensures srv.cfg == c && srv.engine == e && srv.ring == q && fresh(srv)
      ensures Ok() && At(Begun()) && Init(c, Begun())
    {
      var server := new Server(c, e, q, fds);
      var queued := server.Submit();
      srv, inflight, notifs, now, stop := server, multiset(queued), multiset{}, time, false;
      new;
      Opening(c, e.View(), fds, Begun());
    }

    /** A kernel step is taken if it is possible and the completion ring has
        room for what it posts. */
    method KernelStep(step: Step, ghost held: seq<nat>, ghost s: State) returns (taken: bool, ghost s': State)
      requires Ok() && srv.ring.Points(held) && At(s) && Reachable(srv.cfg, s)
      modifies this, srv`open, srv.engine`head, srv.ring`ktail, srv.ring.cqes
      ensures Ok() && srv.ring.Points(held) && At(s')
      ensures if taken then KernelNext(srv.cfg, s, step, s') else s' == s
    {
      taken, s' := false, s;
      match step {
        case KernelAccept(res) => taken, s' := Connect(res, held, s);
        case KernelSend(ctx, res, notify) => taken, s' := CompleteSend(ctx, res, notify, held, s);
        case KernelNotif(ctx, res) => taken, s' := Notify(ctx, res, held, s);
        case KernelRecv(ctx, res) => taken, s' := CompleteRecv(ctx, res, held, s);
        case KernelData(ctx, res) => taken, s' := Deliver(ctx, res, held, s);
        case KernelEnd(ctx, res, withBuffer) => taken, s' := Terminate(ctx, res, withBuffer, held, s);
        case Tick(t) =>
          if now <= t { now, taken, s' := t, true, s.(clock := t); }
        case Stop =>
          stop, taken, s' := true, true, s.(stop := true);
        case _ =>
      }
    }

    /** A completion without a buffer that retires its operation. */
    method Retire(ctx: Ctx, x: Cqe, ghost n: nat, ghost k: nat, ghost held: seq<nat>, ghost s: State)
      returns (ghost s': State)
      requires Ok() && srv.ring.Points(held) && At(s) && ctx in inflight && srv.ring.HasRoom()
      modifies this`inflight, srv.ring`ktail, srv.ring.cqes
      ensures Ok() && srv.ring.Points(held) && At(s') && s' == Post(s, ctx, x, n, k)
    {
      srv.ring.Post(x, held);
      inflight := inflight - multiset{ctx};
      s' := Post(s, ctx, x, n, k);
    }

    method Connect(res: int, ghost held: seq<nat>, ghost s: State) returns (taken: bool, ghost s': State)
      requires Ok() && srv.ring.Points(held) && At(s)
      modifies this`inflight, srv`open, srv.ring`ktail, srv.ring.cqes
      ensures Ok() && srv.ring.Points(held) && At(s')
      ensures if taken then KernelNext(srv.cfg, s, KernelAccept(res), s') else s' == s
    {
      taken, s' := false, s;
      var ctx := Accepting(srv.cfg);
      if ctx in inflight && (res >= 0 ==> res !in srv.open) && srv.ring.HasRoom() {
        s' := Retire(ctx, Cqe(Some(ctx), res, false, false, None), 0, 0, held, s);
        taken := true;
        if res >= 0 {
          srv.open := srv.open + {res};
          s' := s'.(w := srv.View());
        }
      }
    }

    method CompleteSend(ctx: Ctx, res: int, notify: bool, ghost held: seq<nat>, ghost s: State)
      returns (taken: bool, ghost s': State)
      requires Ok() && srv.ring.Points(held) && At(s)
      modifies this`inflight, this`notifs, srv.ring`ktail, srv.ring.cqes
      ensures Ok() && srv.ring.Points(held) && At(s')
      ensures if taken then KernelNext(srv.cfg, s, KernelSend(ctx, res, notify), s') else s' == s
    {
      taken, s' := false, s;
      if ctx in inflight && ctx.kind.Send? && (notify ==> srv.cfg.zeroCopy) && srv.ring.HasRoom() {
        s' := Retire(ctx, Cqe(Some(ctx), res, notify, false, None), Moved(res), if notify then 1 else 0, held, s);
        taken := true;
        if notify {
          notifs := notifs + multiset{ctx};
          s' := s'.(notifs := notifs);
        }
      }
    }

    method Notify(ctx: Ctx, res: int, ghost held: seq<nat>, ghost s: State) returns (taken: bool, ghost s': State)
      requires Ok() && srv.ring.Points(held) && At(s)
      modifies this`notifs, srv.ring`ktail, srv.ring.cqes
      ensures Ok() && srv.ring.Points(held) && At(s')
      ensures if taken then KernelNext(srv.cfg, s, KernelNotif(ctx, res), s') else s' == s
    {
      taken, s' := false, s;
      if ctx in notifs && ctx.kind.Send? && srv.ring.HasRoom() {
        srv.ring.Post(Cqe(Some(ctx), res, false, true, None), held);
        notifs := notifs - multiset{ctx};
        taken, s' := true, Posted(s, Cqe(Some(ctx), res, false, true, None), 0, 0).(notifs := notifs);
      }
    }

    method CompleteRecv(ctx: Ctx, res: int, ghost held: seq<nat>, ghost s: State)
      returns (taken: bool, ghost s': State)
      requires Ok() && srv.ring.Points(held) && At(s)
      modifies this`inflight, srv.ring`ktail, srv.ring.cqes
      ensures Ok() && srv.ring.Points(held) && At(s')
      ensures if taken then KernelNext(srv.cfg, s, KernelRecv(ctx, res), s') else s' == s
    {
      taken, s' := false, s;
      if !srv.cfg.multishot && ctx in inflight && ctx.kind.Recv? && srv.ring.HasRoom() {
        s' := Retire(ctx, Cqe(Some(ctx), res, false, false, None), Moved(res), 0, held, s);
        taken := true;
      }
    }

    /** A completion that carries the oldest buffer of the ring. */
    method TakeAndPost(ctx: Ctx, res: int, more: bool, ghost held: seq<nat>, ghost s: State) returns (bid: nat)
      requires Ok() && srv.ring.Points(held) && At(s) && Reachable(srv.cfg, s)
      requires srv.cfg.multishot && srv.engine.HasBuffer() && srv.ring.HasRoom()
      modifies srv.engine`head, srv.ring`ktail, srv.ring.cqes
      ensures Ok() && srv.ring.Points(held) && Len(s.w.pool.ring) > 0
      ensures bid == Window(s.w.pool.ring)[0].bid && srv.View() == s.w.(pool := Take(s.w.pool))
      ensures srv.ring.Unread() == s.cq + [Cqe(Some(ctx), res, more, false, Some(bid))]
    {
      BuffersInOrder(srv.cfg, s);
      bid := srv.engine.KernelTake();
      srv.ring.Post(Cqe(Some(ctx), res, more, false, Some(bid)), held);
    }

    method Deliver(ctx: Ctx, res: int, ghost held: seq<nat>, ghost s: State) returns (taken: bool, ghost s': State)
      requires Ok() && srv.ring.Points(held) && At(s) && Reachable(srv.cfg, s)
      modifies srv.engine`head, srv.ring`ktail, srv.ring.cqes
      ensures Ok() && srv.ring.Points(held) && At(s')
      ensures if taken then KernelNext(srv.cfg, s, KernelData(ctx, res), s') else s' == s
    {
      taken, s' := false, s;
      if srv.cfg.multishot && ctx in inflight && ctx.kind.Recv? && res > 0
         && srv.engine.HasBuffer() && srv.ring.HasRoom() {
        var bid := TakeAndPost(ctx, res, true, held, s);
        taken := true;
        s' := Posted(s, Cqe(Some(ctx), res, true, false, Some(bid)), Moved(res), 0).(w := srv.View());
      }
    }

    method Terminate(ctx: Ctx, res: int, withBuffer: bool, ghost held: seq<nat>, ghost s: State)
      returns (taken: bool, ghost s': State)
      requires Ok() && srv.ring.Points(held) && At(s) && Reachable(srv.cfg, s)
      modifies this`inflight, srv.engine`head, srv.ring`ktail, srv.ring.cqes
      ensures Ok() && srv.ring.Points(held) && At(s')
      ensures if taken then KernelNext(srv.cfg, s, KernelEnd(ctx, res, withBuffer), s') else s' == s
    {
      taken, s' := false, s;
      if srv.cfg.multishot && ctx in inflight && ctx.kind.Recv? && srv.ring.HasRoom() {
        if withBuffer {
          taken, s' := EndWithData(ctx, res, held, s);
        } else {
          s' := Retire(ctx, Cqe(Some(ctx), res, false, false, None), 0, 0, held, s);
          taken := true;
        }
      }
    }

    method EndWithData(ctx: Ctx, res: int, ghost held: seq<nat>, ghost s: State)
      returns (taken: bool, ghost s': State)
      requires Ok() && srv.ring.Points(held) && At(s) && Reachable(srv.cfg, s)
      requires srv.cfg.multishot && ctx in inflight && srv.ring.HasRoom()
      modifies this`inflight, srv.engine`head, srv.ring`ktail, srv.ring.cqes
      ensures Ok() && srv.ring.Points(held) && At(s')
      ensures if taken then Takes(s, ctx, res, false, s') else s' == s
    {
      taken, s' := false, s;
      if res > 0 && srv.engine.HasBuffer() {
        var bid := TakeAndPost(ctx, res, false, held, s);
        inflight := inflight - multiset{ctx};
        taken, s' := true, EndTaken(s, ctx, res, bid);
      }
    }

    /** The kernel attempts some steps, while the pointers in `held` are out. */
    method Kernel(plan: seq<Step>, ghost held: seq<nat>, ghost tr: Trace<State, Step>)
      returns (ghost tr': Trace<State, Step>)
      requires Ok() && srv.ring.Points(held) && Good(srv.cfg, tr) && At(tr.now)
      modifies this, srv`open, srv.engine`head, srv.ring`ktail, srv.ring.cqes
      ensures Ok() && srv.ring.Points(held) && Good(srv.cfg, tr') && At(tr'.now)
      ensures tr'.start == tr.start && Work(tr'.taken) == Work(tr.taken)
      ensures tr'.now.phase == tr.now.phase && tr.now.cq <= tr'.now.cq
    {
      tr' := tr;
      for i := 0 to |plan|
        invariant Ok() && srv.ring.Points(held) && Good(srv.cfg, tr') && At(tr'.now)
        invariant tr'.start == tr.start && Work(tr'.taken) == Work(tr.taken)
        invariant tr'.now.phase == tr.now.phase && tr.now.cq <= tr'.now.cq
      {
        var taken;
        ghost var s;
        taken, s := KernelStep(plan[i], held, tr'.now);
        if taken {
          KernelGo(srv.cfg, tr', plan[i], s);
          tr' := Then(tr', plan[i], s);
        }
      }
    }

    /** The kernel is at work, then the worker looks for one more entry. */
    method Another(plan: seq<Step>, out: seq<nat>, ghost tr: Trace<State, Step>)
      returns (more: bool, ptr: nat, ghost tr': Trace<State, Step>)
      requires Ok() && srv.ring.Points(out) && Good(srv.cfg, tr) && At(tr.now)
      modifies this, srv`open, srv.engine`head, srv.ring`ktail, srv.ring.cqes
      ensures Ok() && srv.ring.Points(out) && Good(srv.cfg, tr') && At(tr'.now)
      ensures tr'.start == tr.start && Work(tr'.taken) == Work(tr.taken)
      ensures tr'.now.phase == tr.now.phase && tr.now.cq <= tr'.now.cq
      ensures |out| <= |tr'.now.cq| && (more <==> |out| < |tr'.now.cq|)
      ensures more ==> srv.ring.Points(out + [ptr])
    {
      tr' := Kernel(plan, out, tr);
      more, ptr := srv.ring.Peek(out, |out|);
    }

    /** `reap_completions`, with the kernel at work before every test. */
    method Harvest(o: World, ghost tr: Trace<State, Step>) returns (out: seq<nat>, ghost tr': Trace<State, Step>)
      requires Ok() && Good(srv.cfg, tr) && At(tr.now)
      modifies this, srv`open, srv.engine`head, srv.ring`ktail, srv.ring.cqes
      ensures Ok() && srv.ring.Points(out) && Good(srv.cfg, tr') && At(tr'.now)
      ensures tr'.start == tr.start && Work(tr'.taken) == Work(tr.taken)
      ensures tr'.now.phase == tr.now.phase && tr.now.cq <= tr'.now.cq
      ensures |out| == if srv.cfg.inFlight < |tr'.now.cq| then srv.cfg.inFlight else |tr'.now.cq|
    {
      out, tr' := [], tr;
      while true
        invariant Ok() && srv.ring.Points(out) && Good(srv.cfg, tr') && At(tr'.now) && |out| <= srv.cfg.inFlight
        invariant tr'.start == tr.start && Work(tr'.taken) == Work(tr.taken)
        invariant tr'.now.phase == tr.now.phase && tr.now.cq <= tr'.now.cq
        decreases srv.cfg.inFlight - |out|
      {
        var more, ptr;
        more, ptr, tr' := Another(o.early(|out|), out, tr');
        if !more || |out| >= srv.cfg.inFlight { break; }
        out := out + [ptr];
      }
    }

    /** The kernel is at work, then the i-th completion of the batch is processed. */
    method ProcessNext(out: seq<nat>, i: nat, o: World, ghost tr: Trace<State, Step>)
      returns (ghost step: Step, ghost tr': Trace<State, Step>)
      requires Ok() && i < |out| && srv.ring.Points(out[i..]) && Good(srv.cfg, tr) && At(tr.now)
      requires tr.now.phase == Batch(|out| - i) && Sound(o)
      modifies this, srv, srv.engine, srv.engine.slots, srv.ring`khead, srv.ring`ktail, srv.ring.cqes
      ensures Ok() && srv.engine.slots == old(srv.engine.slots) && srv.ring.Points(out[i + 1..])
      ensures Good(srv.cfg, tr') && At(tr'.now) && tr'.start == tr.start && tr'.now.phase == Batch(|out| - i - 1)
      ensures step.ProcessOne? && step.hs == o.hs(i) && Work(tr'.taken) == Work(tr.taken) + [step]
    {
      ghost var held := out[i..];
      assert held[1..] == out[i + 1..];
      tr' := Kernel(o.late(i), held, tr);
      step, tr' := ProcessHeld(out[i], held, o, i, tr');
    }

    method ProcessHeld(ptr: nat, ghost held: seq<nat>, o: World, i: nat, ghost tr: Trace<State, Step>)
      returns (ghost step: Step, ghost tr': Trace<State, Step>)
      requires Ok() && held != [] && held[0] == ptr && srv.ring.Points(held) && Good(srv.cfg, tr) && At(tr.now)
      requires tr.now.phase == Batch(|held|) && Sound(o)
      modifies srv, srv.engine, srv.engine.slots, srv.ring`khead, srv.ring`ktail, srv.ring.cqes
      ensures Ok() && srv.engine.slots == old(srv.engine.slots) && srv.ring.Points(held[1..])
      ensures Good(srv.cfg, tr') && At(tr'.now) && tr'.start == tr.start && tr'.now.phase == Batch(|held| - 1)
      ensures step.ProcessOne? && step.hs == o.hs(i) && Work(tr'.taken) == Work(tr.taken) + [step]
    {
      var addr := o.alloc(i, srv.Live());
      assert FreshAddr(srv.View(), addr);
      srv.ring.PointsAtOldest(held);
      var env := Env(now, stop, o.hs(i), addr);
      srv.Completion(ptr, held, env);
      step := ProcessOne(o.hs(i), addr);
      ghost var s := Processed(srv.cfg, tr.now, env);
      Go(srv.cfg, tr, step, s);
      tr' := Then(tr, step, s);
    }

    /** The completions of a batch, with the kernel at work before each. */
    method ProcessBatch(out: seq<nat>, o: World, ghost tr: Trace<State, Step>)
      returns (ghost done: seq<Step>, ghost tr': Trace<State, Step>)
      requires Ok() && srv.ring.Points(out) && Good(srv.cfg, tr) && At(tr.now)
      requires tr.now.phase == Batch(|out|) && Sound(o)
      modifies this, srv, srv.engine, srv.engine.slots, srv.ring`khead, srv.ring`ktail, srv.ring.cqes
      ensures Ok() && srv.engine.slots == old(srv.engine.slots)
      ensures Good(srv.cfg, tr') && At(tr'.now) && tr'.start == tr.start && tr'.now.phase == Batch(0)
      ensures AllProcessed(done, |out|, o) && Work(tr'.taken) == Work(tr.taken) + done
    {
      done, tr' := [], tr;
      for i := 0 to |out|
        invariant Ok() && srv.engine.slots == old(srv.engine.slots) && srv.ring.Points(out[i..])
        invariant Good(srv.cfg, tr') && At(tr'.now) && tr'.start == tr.start && tr'.now.phase == Batch(|out| - i)
        invariant AllProcessed(done, i, o) && Work(tr'.taken) == Work(tr.taken) + done
      {
        ghost var step;
        step, tr' := ProcessNext(out, i, o, tr');
        OneMoreStep(Work(tr.taken), done, i, o, step);
        done := done + [step];
      }
    }

    /** The submit: everything queued goes to the kernel. */
    method Submit(ghost s: State)
      requires Ok() && At(s)
      modifies this`inflight, srv`sq
      ensures Ok() && At(Submitted(s))
    {
      var queued := srv.Submit();
      inflight := inflight + multiset(queued);
    }

    method SweepOnce(ghost tr: Trace<State, Step>) returns (ghost tr': Trace<State, Step>)
      requires Ok() && Good(srv.cfg, tr) && At(tr.now) && tr.now.phase.Head? && !stop
      modifies srv`sessions, srv`closed, srv`open, srv`freed
      ensures Ok() && Good(srv.cfg, tr') && At(tr'.now) && tr'.start == tr.start
      ensures tr'.now.phase.Swept? && tr'.now.cq == tr.now.cq && Work(tr'.taken) == Work(tr.taken) + [Expire]
    {
      srv.SweepSessions(now);
      tr' := SweptOnce(srv.cfg, tr);
    }

    /** Nothing to process: straight to the submit. */
    method Idle(ghost tr: Trace<State, Step>) returns (ghost tr': Trace<State, Step>)
      requires Ok() && Good(srv.cfg, tr) && At(tr.now) && tr.now.phase.Swept?
      modifies this`inflight, srv`sq
      ensures Ok() && Good(srv.cfg, tr') && At(tr'.now) && tr'.start == tr.start
      ensures tr'.now.phase.Head? && Work(tr'.taken) == Work(tr.taken) + [Reap(0)]
    {
      Submit(tr.now);
      tr' := Reaped(srv.cfg, tr, 0);
    }

    /** A harvested batch and the submit after it. */
    method RunBatch(out: seq<nat>, o: World, ghost tr: Trace<State, Step>)
      returns (ghost done: seq<Step>, ghost tr': Trace<State, Step>)
      requires Ok() && srv.ring.Points(out) && Good(srv.cfg, tr) && At(tr.now) && tr.now.phase.Swept? && Sound(o)
      requires 0 < |out| <= srv.cfg.inFlight && |out| <= |tr.now.cq|
      modifies this, srv, srv.engine, srv.engine.slots, srv.ring`khead, srv.ring`ktail, srv.ring.cqes
      ensures Ok() && srv.engine.slots == old(srv.engine.slots)
      ensures Good(srv.cfg, tr') && At(tr'.now) && tr'.start == tr.start && tr'.now.phase.Head?
      ensures AllProcessed(done, |out|, o) && Work(tr'.taken) == Work(tr.taken) + [Reap(|out|)] + done + [EndBatch]
    {
      tr' := Reaped(srv.cfg, tr, |out|);
      done, tr' := FinishBatch(out, o, tr');
    }

    method FinishBatch(out: seq<nat>, o: World, ghost tr: Trace<State, Step>)
      returns (ghost done: seq<Step>, ghost tr': Trace<State, Step>)
      requires Ok() && srv.ring.Points(out) && Good(srv.cfg, tr) && At(tr.now) && Sound(o)
      requires tr.now.phase == Batch(|out|)
      modifies this, srv, srv.engine, srv.engine.slots, srv.ring`khead, srv.ring`ktail, srv.ring.cqes
      ensures Ok() && srv.engine.slots == old(srv.engine.slots)
      ensures Good(srv.cfg, tr') && At(tr'.now) && tr'.start == tr.start && tr'.now.phase.Head?
      ensures AllProcessed(done, |out|, o) && Work(tr'.taken) == Work(tr.taken) + done + [EndBatch]
    {
      done, tr' := ProcessBatch(out, o, tr);
      tr' := EndOfBatch(o.late(|out|), tr');
    }

    method EndOfBatch(plan: seq<Step>, ghost tr: Trace<State, Step>) returns (ghost tr': Trace<State, Step>)
      requires Ok() && Good(srv.cfg, tr) && At(tr.now) && tr.now.phase == Batch(0)
      modifies this, srv`open, srv`sq, srv.engine`head, srv.ring`ktail, srv.ring.cqes
      ensures Ok() && Good(srv.cfg, tr') && At(tr'.now) && tr'.start == tr.start
      ensures tr'.now.phase.Head? && Work(tr'.taken) == Work(tr.taken) + [EndBatch]
    {
      tr' := Kernel(plan, [], tr);
      Submit(tr'.now);
      tr' := Ended(srv.cfg, tr');
    }

    /** One iteration of the loop. It is a run of the machine: a sweep, a harvest
        of `k` completions, as many as there are up to `inFlight`, the processing
        of each of them, and a submit, with kernel steps anywhere in between. */
    method Iterate(o: World, ghost tr: Trace<State, Step>)
      returns (ghost k: nat, ghost done: seq<Step>, ghost tr': Trace<State, Step>)
      requires Ok() && Good(srv.cfg, tr) && At(tr.now) && tr.now.phase.Head? && !stop && Sound(o)
      modifies this, srv, srv.engine, srv.engine.slots, srv.ring`khead, srv.ring`ktail, srv.ring.cqes
      ensures Ok() && srv.engine.slots == old(srv.engine.slots)
      ensures Good(srv.cfg, tr') && At(tr'.now) && tr'.start == tr.start && tr'.now.phase.Head?
      ensures k <= srv.cfg.inFlight && (k == srv.cfg.inFlight || k >= |tr.now.cq|)
      ensures AllProcessed(done, k, o) && Work(tr'.taken) == Work(tr.taken) + Iteration(k, done)
    {
      var out;
      out, tr' := Collect(o, tr);
      k := |out|;
      done, tr' := Respond(out, o, tr');
      Pieces(Work(tr.taken), k, done);
    }

    method Respond(out: seq<nat>, o: World, ghost tr: Trace<State, Step>)
      returns (ghost done: seq<Step>, ghost tr': Trace<State, Step>)
      requires Ok() && srv.ring.Points(out) && Good(srv.cfg, tr) && At(tr.now) && tr.now.phase.Swept? && Sound(o)
      requires |out| <= srv.cfg.inFlight && |out| <= |tr.now.cq|
      modifies this, srv, srv.engine, srv.engine.slots, srv.ring`khead, srv.ring`ktail, srv.ring.cqes
      ensures Ok() && srv.engine.slots == old(srv.engine.slots)
      ensures Good(srv.cfg, tr') && At(tr'.now) && tr'.start == tr.start && tr'.now.phase.Head?
      ensures AllProcessed(done, |out|, o)
      ensures Work(tr'.taken) == Work(tr.taken) + [Reap(|out|)] + done + Closing(|out|)
    {
      if |out| == 0 {
        done := [];
        tr' := Idle(tr);
        assert Work(tr.taken) + [Reap(0)] + [] + [] == Work(tr.taken) + [Reap(0)];
      } else {
        done, tr' := RunBatch(out, o, tr);
      }
    }

    method Collect(o: World, ghost tr: Trace<State, Step>) returns (out: seq<nat>, ghost tr': Trace<State, Step>)
      requires Ok() && Good(srv.cfg, tr) && At(tr.now) && tr.now.phase.Head? && !stop
      modifies this, srv`sessions, srv`closed, srv`open, srv`freed, srv.engine`head, srv.ring`ktail, srv.ring.cqes
      ensures Ok() && srv.ring.Points(out)
      ensures Good(srv.cfg, tr') && At(tr'.now) && tr'.start == tr.start && tr'.now.phase.Swept?
      ensures |out| <= srv.cfg.inFlight && |out| <= |tr'.now.cq|
      ensures |out| == srv.cfg.inFlight || |out| >= |tr.now.cq|
      ensures Work(tr'.taken) == Work(tr.taken) + [Expire]
    {
      tr' := SweepOnce(tr);
      out, tr' := Harvest(o, tr');
    }

    /** The whole loop and the clean-up after it, over as many iterations as
        there are worlds or until stop is seen. */
    method Serve(os: seq<World>, ghost tr: Trace<State, Step>) returns (ghost tr': Trace<State, Step>)
      requires Ok() && Good(srv.cfg, tr) && At(tr.now) && tr.now.phase.Head?
      requires forall i :: 0 <= i < |os| ==> Sound(os[i])
      modifies this, srv, srv.engine, srv.engine.slots, srv.ring`khead, srv.ring`ktail, srv.ring.cqes
      ensures Good(srv.cfg, tr') && tr'.start == tr.start && tr'.now.w == srv.View()
      ensures tr'.now.phase == if stop then Done else Head
    {
      tr' := tr;
      var i := 0;
      while !stop && i < |os|
        invariant Ok() && Good(srv.cfg, tr') && At(tr'.now) && tr'.now.phase.Head? && tr'.start == tr.start
        invariant srv.engine.slots == old(srv.engine.slots)
        decreases |os| - i
      {
        ghost var k, done;
        k, done, tr' := Iterate(os[i], tr');
        i := i + 1;
      }
      if stop { tr' := Finish(tr'); }
    }

    method Finish(ghost tr: Trace<State, Step>) returns (ghost tr': Trace<State, Step>)
      requires Ok() && Good(srv.cfg, tr) && At(tr.now) && tr.now.phase.Head? && stop
      modifies srv`sessions, srv`closed, srv`open, srv`freed
      ensures Good(srv.cfg, tr') && tr'.start == tr.start && tr'.now.w == srv.View() && tr'.now.phase.Done?
      ensures Work(tr'.taken) == Work(tr.taken) + [Quit]
    {
      srv.Cleanup();
      tr' := Left(srv.cfg, tr);
    }
  }

  /** The i-th step processes a completion with the i-th handshake. */
  ghost predicate AllProcessed(done: seq<Step>, n: nat, o: World) {
    |done| == n && forall i: nat :: i < n ==> done[i].ProcessOne? && done[i].hs == o.hs(i)
  }

  lemma OneMoreStep(w: seq<Step>, done: seq<Step>, n: nat, o: World, step: Step)
    requires AllProcessed(done, n, o) && step.ProcessOne? && step.hs == o.hs(n)
    ensures AllProcessed(done + [step], n + 1, o) && (w + done) + [step] == w + (done + [step])
  {
  }

  /** The worker's steps in an iteration that harvests `k` completions: an empty
      harvest is submitted at once, a batch at its end. */
  function Iteration(k: nat, done: seq<Step>): seq<Step> { [Expire, Reap(k)] + done + Closing(k) }

  function Closing(k: nat): seq<Step> { if k == 0 then [] else [EndBatch] }

  /** The last completion of a receive, with the oldest buffer. */
  function EndTaken(s: State, ctx: Ctx, res: int, bid: nat): (s': State)
    requires |s.w.pool.ring.slots| > 0 && res > 0 && Len(s.w.pool.ring) > 0 && bid == Window(s.w.pool.ring)[0].bid
    ensures Takes(s, ctx, res, false, s') && s'.w == s.w.(pool := Take(s.w.pool))
    ensures s'.cq == s.cq + [Cqe(Some(ctx), res, false, false, Some(bid))] && s'.inflight == s.inflight - multiset{ctx}
    ensures s' == s.(w := s'.w, cq := s'.cq, inflight := s'.inflight, j := s'.j)
  {
    Post(s, ctx, Cqe(Some(ctx), res, false, false, Some(bid)), Moved(res), 0).(w := s.w.(pool := Take(s.w.pool)))
  }

  /** Right after the first submit. */
  lemma Opening(c: Config, p: Pool, fds: set<int>, s: State)
    requires (c.multishot ==> Filled(p)) && |p.ring.slots| > 0 && c.listenFd in fds
    requires var w := Prep(c, Worker(map[], [], 0, p, fds, multiset{}, multiset{}, 0, multiset{}, ZERO), Accepting(c));
      s == State(w.(sq := []), multiset(w.sq), multiset{}, [], Head, s.clock, s.stop, [], Journal([], [], 0))
    ensures Init(c, s)
  {
  }

  lemma SweptOnce(c: Config, tr: Trace<State, Step>) returns (tr': Trace<State, Step>)
    requires Good(c, tr) && tr.now.phase.Head? && !tr.now.stop
    ensures Good(c, tr') && tr'.start == tr.start && Work(tr'.taken) == Work(tr.taken) + [Expire]
    ensures tr'.now == tr.now.(w := Sweep(tr.now.w, tr.now.clock), phase := Swept)
  {
    var s := tr.now.(w := Sweep(tr.now.w, tr.now.clock), phase := Swept);
    Go(c, tr, Expire, s);
    tr' := Then(tr, Expire, s);
  }

  lemma Left(c: Config, tr: Trace<State, Step>) returns (tr': Trace<State, Step>)
    requires Good(c, tr) && tr.now.phase.Head? && tr.now.stop
    ensures Good(c, tr') && tr'.start == tr.start && Work(tr'.taken) == Work(tr.taken) + [Quit]
    ensures tr'.now == tr.now.(w := DropAll(tr.now.w, tr.now.w.sessions), phase := Done)
  {
    var s := tr.now.(w := DropAll(tr.now.w, tr.now.w.sessions), phase := Done);
    Go(c, tr, Quit, s);
    tr' := Then(tr, Quit, s);
  }

  lemma Reaped(c: Config, tr: Trace<State, Step>, k: nat) returns (tr': Trace<State, Step>)
    requires Good(c, tr) && tr.now.phase.Swept? && k <= c.inFlight && k <= |tr.now.cq|
    ensures Good(c, tr') && tr'.start == tr.start && Work(tr'.taken) == Work(tr.taken) + [Reap(k)]
    ensures tr'.now == if k == 0 then Submitted(tr.now).(phase := Head) else tr.now.(phase := Batch(k))
  {
    var s := if k == 0 then Submitted(tr.now).(phase := Head) else tr.now.(phase := Batch(k));
    Go(c, tr, Reap(k), s);
    tr' := Then(tr, Reap(k), s);
  }

  lemma Ended(c: Config, tr: Trace<State, Step>) returns (tr': Trace<State, Step>)
    requires Good(c, tr) && tr.now.phase == Batch(0)
    ensures Good(c, tr') && tr'.start == tr.start && Work(tr'.taken) == Work(tr.taken) + [EndBatch]
    ensures tr'.now == Submitted(tr.now).(phase := Head)
  {
    Go(c, tr, EndBatch, Submitted(tr.now).(phase := Head));
    tr' := Then(tr, EndBatch, Submitted(tr.now).(phase := Head));
  }

  lemma Pieces(w: seq<Step>, k: nat, done: seq<Step>)
    ensures w + [Expire] + [Reap(k)] + done + Closing(k) == w + Iteration(k, done)
  {
  }

  lemma BuffersInOrder(c: Config, s: State)
    requires Reachable(c, s) && c.multishot && !s.phase.Done?
    ensures Valid(s.w.pool.ring) && |s.w.pool.ring.slots| > 0
  {
    ReachableInv(c, s);
  }

  lemma KernelGo(c: Config, tr: Trace<State, Step>, step: Step, s: State)
    requires Good(c, tr) && !tr.now.phase.Done? && KernelNext(c, tr.now, step, s)
    ensures Good(c, Then(tr, step, s)) && Work(Then(tr, step, s).taken) == Work(tr.taken)
    ensures s.phase == tr.now.phase && tr.now.cq <= s.cq
  {
    Go(c, tr, step, s);
    assert Work(tr.taken) + [] == Work(tr.taken);
  }
}
