/** The sending client's loop as a run of the machine: the worker's code with the
    kernel at work between any two of its steps. */
module SendLoop {
  import opened Uring
  import opened Stats
  import opened Bags
  import opened Runs
  import opened ClientLoop
  import opened SendPool
  import opened CompletionRing

  class Sender {
    const cfg: Config
    const ring: Queue<Cqe>
    var sq: seq<nat>
    var stats: Counters
    ghost var failed: nat
    ghost var dead: nat
    ghost var retired: nat

    ghost function View(): Worker
      reads this
    {
      Worker(sq, failed, dead, retired, stats)
    }

    /** Allocation of the pool and the priming loop. */
    constructor (c: Config, q: Queue<Cqe>)
      ensures cfg == c && ring == q && View() == Primed(c, c.inFlight)
    {
      cfg, ring := c, q;
      sq, stats, failed, dead, retired := [], ZERO, 0, 0, 0;
      new;
      for i := 0 to c.inFlight
        invariant cfg == c && ring == q && View() == Primed(c, i)
      {
        PrepSend(i);
      }
    }

    /** `prep_send_zc` / `prep_send_standard`: take a slot or report false. */
    method PrepSend(ctx: nat)
      modifies this`sq, this`failed
      ensures View() == Prep(cfg, old(View()), ctx)
    {
      if |sq| < cfg.capacity {
        sq := sq + [ctx];
      } else {
        failed := failed + 1;
      }
    }

    /** A result, read through its pointer: everything but the release. */
    method OnResult(ptr: nat, stop: bool)
      requires ptr < ring.cqes.Length && ring.cqes[ptr].Result?
      modifies this
      ensures View() == Handle(cfg, old(View()), ring.cqes[ptr], stop)
    {
      var ctx := ring.cqes[ptr].ctx;
      if ring.cqes[ptr].res > 0 {
        var pkts := 1;
        if cfg.segment > 0 { pkts := PacketEstimate(ring.cqes[ptr].res, cfg.segment); }
        stats := stats.AddBytes(ring.cqes[ptr].res, pkts);
        if !stop { PrepSend(ctx); } else { retired := retired + 1; }
      } else if ring.cqes[ptr].res == -EAGAIN {
        if !stop { PrepSend(ctx); } else { retired := retired + 1; }
      } else {
        dead := dead + 1;
        if ring.cqes[ptr].res < 0 { stats := stats.AddError(); }
      }
    }

    /** The loop body: two early ways out, each releasing its completion, and the
        release at the bottom. */
    method Completion(ptr: nat, ghost held: seq<nat>, stop: bool)
      requires ring.Ok() && held != [] && held[0] == ptr && ring.Points(held) && ring.Unread() != []
      modifies this, ring`khead, ring.cqes
      ensures ring.Ok() && ring.Points(held[1..])
      ensures View() == Handle(cfg, old(View()), old(ring.Unread())[0], stop)
      ensures ring.Unread() == old(ring.Unread())[1..]
    {
      ring.PointsAtOldest(held);
      if ring.cqes[ptr].NoContext? {
        ring.CqeSeen(held);
        return;
      }
      if ring.cqes[ptr].Notif? {
        stats := stats.AddZc();
        ring.CqeSeen(held);
        return;
      }
      OnResult(ptr, stop);
      ring.CqeSeen(held);
    }
  }

  /** The worker's part of a path. */
  function WorkOf(step: Step): seq<Step> {
    if step.Enter? || step.Reap? || step.Process? || step.EndBatch? then [step] else []
  }

  function Work(steps: seq<Step>): seq<Step> { Gather(steps, WorkOf) }

  ghost predicate Good(c: Config, tr: Trace<State, Step>) { Traced(Starts(c), Steps(c), tr) }

  lemma Go(c: Config, tr: Trace<State, Step>, step: Step, s: State) returns (tr': Trace<State, Step>)
    requires Good(c, tr) && Next(c, tr.now, step, s)
    ensures Good(c, tr') && tr'.start == tr.start && tr'.now == s && Work(tr'.taken) == Work(tr.taken) + WorkOf(step)
  {
    Onward(Starts(c), Steps(c), tr, step, s);
    GatherAppend(tr.taken, step, WorkOf);
    tr' := Then(tr, step, s);
  }

  lemma KernelGo(c: Config, tr: Trace<State, Step>, step: Step, s: State) returns (tr': Trace<State, Step>)
    requires Good(c, tr) && Next(c, tr.now, step, s) && WorkOf(step) == []
    ensures Good(c, tr') && tr'.start == tr.start && tr'.now == s && Work(tr'.taken) == Work(tr.taken)
    ensures s.phase == tr.now.phase && tr.now.cq <= s.cq
  {
    tr' := Go(c, tr, step, s);
    assert Work(tr.taken) + [] == Work(tr.taken);
  }

  /** The worker's steps in an iteration that harvests `k` completions. */
  function Iteration(k: nat): seq<Step> { [Enter] + Response(k) }

  function Response(k: nat): seq<Step> {
    if k == 0 then [Reap(0)] else [Reap(k)] + seq(k, _ => Process) + [EndBatch]
  }

  /** What the kernel attempts before the i-th test of the harvest, and before the
      i-th completion is processed. */
  datatype World = World(early: nat -> seq<Step>, late: nat -> seq<Step>)

  class Loop {
    const snd: Sender
    var inflight: multiset<nat>
    var notifs: multiset<nat>
    var stop: bool

    /** The machine is in state `s`. */
    ghost predicate At(s: State)
      reads this, snd, snd.ring, snd.ring.cqes
    {
      && snd.ring.Ok() && s.w == snd.View() && s.cq == snd.ring.Unread()
      && s.inflight == inflight && s.notifs == notifs && s.stop == stop
    }

    /** The machine's state, if nothing has completed yet. */
    ghost function Begun(): State
      requires snd.ring.cqes.Length > 0
      reads this, snd, snd.ring, snd.ring.cqes
    {
      State(snd.View(), inflight, notifs, snd.ring.Unread(), Head, stop, [], Journal([], [], 0))
    }

    /** Set-up, up to and including the first submit. */
    constructor (c: Config, q: Queue<Cqe>)
      requires q.Ok() && q.Unread() == []
      ensures snd.cfg == c && snd.ring == q && fresh(snd) && At(Begun()) && Init(c, Begun())
    {
      var sender := new Sender(c, q);
      inflight := multiset(sender.sq);
      sender.sq := [];
      snd, notifs, stop := sender, multiset{}, false;
    }

    /** A kernel step is taken if it is possible and the completion ring has
        room for what it posts. */
    method KernelStep(step: Step, ghost held: seq<nat>, ghost s: State) returns (taken: bool, ghost s': State)
      requires At(s) && snd.ring.Points(held)
      modifies this, snd.ring`ktail, snd.ring.cqes
      ensures At(s') && snd.ring.Points(held)
      ensures if taken then Next(snd.cfg, s, step, s') && WorkOf(step) == [] else s' == s
    {
      taken, s' := false, s;
      match step {
        case KernelResult(ctx, res, notify) => taken, s' := CompleteSend(ctx, res, notify, held, s);
        case KernelNotif(ctx) => taken, s' := Notify(ctx, held, s);
        case KernelStray => taken, s' := PostStray(held, s);
        case Stop =>
          stop, taken, s' := true, true, s.(stop := true);
        case _ =>
      }
    }

    method CompleteSend(ctx: nat, res: int, notify: bool, ghost held: seq<nat>, ghost s: State)
      returns (taken: bool, ghost s': State)
      requires At(s) && snd.ring.Points(held)
      modifies this`inflight, this`notifs, snd.ring`ktail, snd.ring.cqes
      ensures At(s') && snd.ring.Points(held)
      ensures if taken then Next(snd.cfg, s, KernelResult(ctx, res, notify), s') else s' == s
    {
      taken, s' := false, s;
      if ctx in inflight && (notify ==> snd.cfg.zeroCopy) && snd.ring.HasRoom() {
        snd.ring.Post(Result(ctx, res), held);
        inflight := inflight - multiset{ctx};
        if notify { notifs := notifs + multiset{ctx}; }
        taken := true;
        s' := s.(inflight := inflight, notifs := notifs, cq := s.cq + [Result(ctx, res)],
                 j := Log(s.j, Result(ctx, res), Moved(res), if notify then 1 else 0));
      }
    }

    method Notify(ctx: nat, ghost held: seq<nat>, ghost s: State) returns (taken: bool, ghost s': State)
      requires At(s) && snd.ring.Points(held)
      modifies this`notifs, snd.ring`ktail, snd.ring.cqes
      ensures At(s') && snd.ring.Points(held)
      ensures if taken then Next(snd.cfg, s, KernelNotif(ctx), s') else s' == s
    {
      taken, s' := false, s;
      if ctx in notifs && snd.ring.HasRoom() {
        snd.ring.Post(Notif(ctx), held);
        notifs := notifs - multiset{ctx};
        taken, s' := true, s.(notifs := notifs, cq := s.cq + [Notif(ctx)], j := Log(s.j, Notif(ctx), 0, 0));
      }
    }

    method PostStray(ghost held: seq<nat>, ghost s: State) returns (taken: bool, ghost s': State)
      requires At(s) && snd.ring.Points(held)
      modifies snd.ring`ktail, snd.ring.cqes
      ensures At(s') && snd.ring.Points(held)
      ensures if taken then Next(snd.cfg, s, KernelStray, s') else s' == s
    {
      taken, s' := false, s;
      if snd.ring.HasRoom() {
        snd.ring.Post(NoContext, held);
        taken, s' := true, s.(cq := s.cq + [NoContext], j := Log(s.j, NoContext, 0, 0));
      }
    }

    /** The kernel attempts some steps, while the pointers in `held` are out. */
    method Kernel(plan: seq<Step>, ghost held: seq<nat>, ghost tr: Trace<State, Step>)
      returns (ghost tr': Trace<State, Step>)
      requires At(tr.now) && snd.ring.Points(held) && Good(snd.cfg, tr)
      modifies this, snd.ring`ktail, snd.ring.cqes
      ensures At(tr'.now) && snd.ring.Points(held) && Good(snd.cfg, tr')
      ensures tr'.start == tr.start && Work(tr'.taken) == Work(tr.taken)
      ensures tr'.now.phase == tr.now.phase && tr.now.cq <= tr'.now.cq
    {
      tr' := tr;
      for i := 0 to |plan|
        invariant At(tr'.now) && snd.ring.Points(held) && Good(snd.cfg, tr')
        invariant tr'.start == tr.start && Work(tr'.taken) == Work(tr.taken)
        invariant tr'.now.phase == tr.now.phase && tr.now.cq <= tr'.now.cq
      {
        var taken;
        ghost var s;
        taken, s := KernelStep(plan[i], held, tr'.now);
        if taken { tr' := KernelGo(snd.cfg, tr', plan[i], s); }
      }
    }

    /** `reap_completions`, with the kernel at work before every test. */
    method Harvest(o: World, ghost tr: Trace<State, Step>) returns (out: seq<nat>, ghost tr': Trace<State, Step>)
      requires At(tr.now) && Good(snd.cfg, tr)
      modifies this, snd.ring`ktail, snd.ring.cqes
      ensures At(tr'.now) && snd.ring.Points(out) && Good(snd.cfg, tr')
      ensures tr'.start == tr.start && Work(tr'.taken) == Work(tr.taken)
      ensures tr'.now.phase == tr.now.phase && tr.now.cq <= tr'.now.cq
      ensures |out| == if snd.cfg.inFlight < |tr'.now.cq| then snd.cfg.inFlight else |tr'.now.cq|
    {
      out, tr' := [], tr;
      while true
        invariant At(tr'.now) && snd.ring.Points(out) && Good(snd.cfg, tr') && |out| <= snd.cfg.inFlight
        invariant tr'.start == tr.start && Work(tr'.taken) == Work(tr.taken)
        invariant tr'.now.phase == tr.now.phase && tr.now.cq <= tr'.now.cq
        decreases snd.cfg.inFlight - |out|
      {
        tr' := Kernel(o.early(|out|), out, tr');
        var more, ptr := snd.ring.Peek(out, |out|);
        if !more || |out| >= snd.cfg.inFlight { break; }
        out := out + [ptr];
      }
    }

    /** The kernel is at work, then the i-th completion of the batch is processed. */
    method ProcessNext(out: seq<nat>, i: nat, plan: seq<Step>, ghost tr: Trace<State, Step>)
      returns (ghost tr': Trace<State, Step>)
      requires At(tr.now) && Good(snd.cfg, tr) && i < |out| && tr.now.phase == Batch(|out| - i) && snd.ring.Points(out[i..])
      modifies this, snd, snd.ring`khead, snd.ring`ktail, snd.ring.cqes
      ensures At(tr'.now) && Good(snd.cfg, tr') && tr'.now.phase == Batch(|out| - i - 1) && snd.ring.Points(out[i + 1..])
      ensures tr'.start == tr.start && Work(tr'.taken) == Work(tr.taken) + [Process]
    {
      ghost var held := out[i..];
      assert held[1..] == out[i + 1..];
      tr' := Kernel(plan, held, tr);
      tr' := ProcessHeld(out[i], held, tr');
    }

    method ProcessHeld(ptr: nat, ghost held: seq<nat>, ghost tr: Trace<State, Step>)
      returns (ghost tr': Trace<State, Step>)
      requires At(tr.now) && Good(snd.cfg, tr) && tr.now.phase == Batch(|held|)
      requires held != [] && held[0] == ptr && snd.ring.Points(held)
      modifies snd, snd.ring`khead, snd.ring.cqes
      ensures At(tr'.now) && Good(snd.cfg, tr') && tr'.now.phase == Batch(|held| - 1) && snd.ring.Points(held[1..])
      ensures tr'.start == tr.start && Work(tr'.taken) == Work(tr.taken) + [Process]
    {
      snd.ring.PointsAtOldest(held);
      snd.Completion(ptr, held, stop);
      ghost var s := tr.now;
      tr' := Go(snd.cfg, tr, Process,
                s.(w := snd.View(), cq := s.cq[1..], phase := Batch(|held| - 1), seen := s.seen + [s.cq[0]]));
    }

    method ProcessBatch(out: seq<nat>, o: World, ghost tr: Trace<State, Step>)
      returns (ghost tr': Trace<State, Step>)
      requires At(tr.now) && Good(snd.cfg, tr) && tr.now.phase == Batch(|out|) && snd.ring.Points(out)
      modifies this, snd, snd.ring`khead, snd.ring`ktail, snd.ring.cqes
      ensures At(tr'.now) && Good(snd.cfg, tr') && tr'.now.phase == Batch(0)
      ensures tr'.start == tr.start && Work(tr'.taken) == Work(tr.taken) + seq(|out|, _ => Process)
    {
      tr' := tr;
      for i := 0 to |out|
        invariant At(tr'.now) && Good(snd.cfg, tr') && tr'.now.phase == Batch(|out| - i) && snd.ring.Points(out[i..])
        invariant tr'.start == tr.start && Work(tr'.taken) == Work(tr.taken) + seq(i, _ => Process)
      {
        tr' := ProcessNext(out, i, o.late(i), tr');
        OneMoreStep(Work(tr.taken), i);
      }
    }

    /** The submit, after a batch or when there was nothing to process. */
    method Submit(step: Step, ghost tr: Trace<State, Step>) returns (ghost tr': Trace<State, Step>)
      requires At(tr.now) && Good(snd.cfg, tr)
      requires (step == Reap(0) && tr.now.phase.Entered?) || (step == EndBatch && tr.now.phase == Batch(0))
      modifies this`inflight, snd`sq
      ensures At(tr'.now) && Good(snd.cfg, tr') && tr'.now.phase.Head?
      ensures tr'.start == tr.start && Work(tr'.taken) == Work(tr.taken) + [step]
    {
      inflight := inflight + multiset(snd.sq);
      snd.sq := [];
      tr' := Go(snd.cfg, tr, step, Submitted(tr.now).(phase := Head));
    }

    /** One iteration of the loop. It is a run of the machine: a harvest of `k`
        completions, as many as there are up to `inFlight`, the processing of
        each of them, and a submit, with kernel steps anywhere in between. */
    method Iterate(o: World, ghost tr: Trace<State, Step>) returns (ghost k: nat, ghost tr': Trace<State, Step>)
      requires At(tr.now) && Good(snd.cfg, tr) && tr.now.phase.Head? && !stop
      modifies this, snd, snd.ring`khead, snd.ring`ktail, snd.ring.cqes
      ensures At(tr'.now) && Good(snd.cfg, tr') && tr'.now.phase.Head? && tr'.start == tr.start
      ensures k <= snd.cfg.inFlight && (k == snd.cfg.inFlight || k >= |tr.now.cq|)
      ensures Work(tr'.taken) == Work(tr.taken) + Iteration(k)
    {
      tr' := Go(snd.cfg, tr, Enter, tr.now.(phase := Entered));
      var out;
      out, tr' := Harvest(o, tr');
      k := |out|;
      tr' := Respond(out, o, tr');
      Pieces(Work(tr.taken), k);
    }

    method Respond(out: seq<nat>, o: World, ghost tr: Trace<State, Step>) returns (ghost tr': Trace<State, Step>)
      requires At(tr.now) && Good(snd.cfg, tr) && tr.now.phase.Entered? && snd.ring.Points(out)
      requires |out| <= snd.cfg.inFlight && |out| <= |tr.now.cq|
      modifies this, snd, snd.ring`khead, snd.ring`ktail, snd.ring.cqes
      ensures At(tr'.now) && Good(snd.cfg, tr') && tr'.now.phase.Head? && tr'.start == tr.start
      ensures Work(tr'.taken) == Work(tr.taken) + Response(|out|)
    {
      if |out| == 0 {
        tr' := Submit(Reap(0), tr);
      } else {
        tr' := RunBatch(out, o, tr);
        BatchPieces(Work(tr.taken), |out|);
      }
    }

    /** A harvested batch and the submit after it. */
    method RunBatch(out: seq<nat>, o: World, ghost tr: Trace<State, Step>) returns (ghost tr': Trace<State, Step>)
      requires At(tr.now) && Good(snd.cfg, tr) && tr.now.phase.Entered? && snd.ring.Points(out)
      requires 0 < |out| <= snd.cfg.inFlight && |out| <= |tr.now.cq|
      modifies this, snd, snd.ring`khead, snd.ring`ktail, snd.ring.cqes
      ensures At(tr'.now) && Good(snd.cfg, tr') && tr'.now.phase.Head? && tr'.start == tr.start
      ensures Work(tr'.taken) == Work(tr.taken) + [Reap(|out|)] + seq(|out|, _ => Process) + [EndBatch]
    {
      tr' := Go(snd.cfg, tr, Reap(|out|), tr.now.(phase := Batch(|out|)));
      tr' := ProcessBatch(out, o, tr');
      tr' := Kernel(o.late(|out|), [], tr');
      tr' := Submit(EndBatch, tr');
    }

    /** The whole loop, over as many iterations as there are worlds or until stop
        is seen. */
    method Run(os: seq<World>, ghost tr: Trace<State, Step>) returns (ghost tr': Trace<State, Step>)
      requires At(tr.now) && Good(snd.cfg, tr) && tr.now.phase.Head?
      modifies this, snd, snd.ring`khead, snd.ring`ktail, snd.ring.cqes
      ensures At(tr'.now) && Good(snd.cfg, tr') && tr'.now.phase.Head? && tr'.start == tr.start
    {
      tr' := tr;
      var i := 0;
      while !stop && i < |os|
        invariant At(tr'.now) && Good(snd.cfg, tr') && tr'.now.phase.Head? && tr'.start == tr.start
        decreases |os| - i
      {
        ghost var k;
        k, tr' := Iterate(os[i], tr');
        i := i + 1;
      }
    }
  }

  lemma OneMoreStep(w: seq<Step>, i: nat)
    ensures (w + seq(i, _ => Process)) + [Process] == w + seq(i + 1, _ => Process)
  {
  }

  lemma BatchPieces(w: seq<Step>, k: nat)
    requires k > 0
    ensures w + [Reap(k)] + seq(k, _ => Process) + [EndBatch] == w + Response(k)
  {
  }

  lemma Pieces(w: seq<Step>, k: nat)
    ensures w + [Enter] + Response(k) == w + Iteration(k)
  {
  }
}
