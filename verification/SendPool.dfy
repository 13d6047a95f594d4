/** The client's send loop: a fixed pool of contexts, each kept in rotation by
    resubmitting it when its result arrives. With zero-copy sends a result may
    be followed later by a notification for the same context. */
module SendPool {
  import opened Uring
  import opened Stats
  import opened Bags
  import opened Runs
  import opened ClientLoop

  /** `inFlight` contexts, `capacity` submission slots; `segment` is the UDP wire
      segment, 0 for TCP (one packet per completion). */
  datatype Config = Config(inFlight: nat, capacity: nat, zeroCopy: bool, segment: nat)

  datatype Cqe = Result(ctx: nat, res: int) | Notif(ctx: nat) | NoContext

  /** What the worker owns. `failed` counts preparations that found no slot and
      whose return value the loop ignores; `dead` counts contexts lost to a zero
      or hard-error result, `retired` those not resubmitted because of stop. */
  datatype Worker = Worker(sq: seq<nat>, failed: nat, dead: nat, retired: nat, stats: Counters)

  function Prep(c: Config, w: Worker, ctx: nat): Worker {
    if |w.sq| < c.capacity then w.(sq := w.sq + [ctx]) else w.(failed := w.failed + 1)
  }

  function PacketsFor(c: Config, res: nat): nat {
    if c.segment > 0 then PacketEstimate(res, c.segment) else 1
  }

  /** One completion, as the loop body treats it. */
  function Handle(c: Config, w: Worker, cqe: Cqe, stop: bool): Worker {
    match cqe
    case NoContext => w
    case Notif(_) => w.(stats := w.stats.AddZc())
    case Result(ctx, res) =>
      if res > 0 then
        var counted := w.(stats := w.stats.AddBytes(res, PacketsFor(c, res)));
        if stop then counted.(retired := w.retired + 1) else Prep(c, counted, ctx)
      else if res == -EAGAIN then
        if stop then w.(retired := w.retired + 1) else Prep(c, w, ctx)
      else if res < 0 then w.(dead := w.dead + 1, stats := w.stats.AddError())
      else w.(dead := w.dead + 1)
  }

  // -------------------------------------------------------------- the system

  /** `notifs` are notifications the kernel still owes; `seen` is every
      completion processed so far and `j` the kernel's books. */
  datatype State = State(
    w: Worker, inflight: multiset<nat>, notifs: multiset<nat>, cq: seq<Cqe>,
    phase: Phase, stop: bool, seen: seq<Cqe>, j: Journal<Cqe>)

  datatype Step =
    | KernelResult(ctx: nat, res: int, notify: bool)
    | KernelNotif(ctx: nat)
    | KernelStray
    | Stop
    | Enter
    | Reap(k: nat)
    | Process
    | EndBatch

  function Submitted(s: State): State {
    s.(w := s.w.(sq := []), inflight := s.inflight + multiset(s.w.sq))
  }

  ghost predicate Next(c: Config, s: State, step: Step, s': State) {
    match step
    case KernelResult(ctx, res, notify) =>
      && ctx in s.inflight && (notify ==> c.zeroCopy)
      && s' == s.(inflight := s.inflight - multiset{ctx}, cq := s.cq + [Result(ctx, res)],
                  notifs := if notify then s.notifs + multiset{ctx} else s.notifs,
                  j := Log(s.j, Result(ctx, res), Moved(res), if notify then 1 else 0))
    case KernelNotif(ctx) =>
      && ctx in s.notifs
      && s' == s.(notifs := s.notifs - multiset{ctx}, cq := s.cq + [Notif(ctx)], j := Log(s.j, Notif(ctx), 0, 0))
    case KernelStray => s' == s.(cq := s.cq + [NoContext], j := Log(s.j, NoContext, 0, 0))
    case Stop => s' == s.(stop := true)
    case Enter => s.phase.Head? && !s.stop && s' == s.(phase := Entered)
    case Reap(k) =>
      && s.phase.Entered? && k <= c.inFlight && k <= |s.cq|
      && s' == if k == 0 then Submitted(s).(phase := Head) else s.(phase := Batch(k))
    case Process =>
      && s.phase.Batch? && s.phase.left > 0 && s.cq != []
      && s' == s.(w := Handle(c, s.w, s.cq[0], s.stop), cq := s.cq[1..], phase := Batch(s.phase.left - 1),
                  seen := s.seen + [s.cq[0]])
    case EndBatch => s.phase == Batch(0) && s' == Submitted(s).(phase := Head)
  }

  /** The contexts prepared before the loop starts, in order. */
  function Primed(c: Config, n: nat): Worker {
    if n == 0 then Worker([], 0, 0, 0, ZERO) else Prep(c, Primed(c, n - 1), n - 1)
  }

  ghost predicate Init(c: Config, s: State) {
    s == Submitted(State(Primed(c, c.inFlight), multiset{}, multiset{}, [], Head, s.stop, [], Journal([], [], 0)))
  }

  function ResultOf(x: Cqe): multiset<nat> {
    if x.Result? then multiset{x.ctx} else multiset{}
  }

  /** Results waiting in the completion queue. */
  function ResultBag(cq: seq<Cqe>): multiset<nat> {
    Bag(cq, ResultOf)
  }

  /** Sends between preparation and the processing of their result. */
  function Live(s: State): multiset<nat> {
    multiset(s.w.sq) + s.inflight + ResultBag(s.cq)
  }

  /** How many contexts the pool can keep in rotation at all. */
  function Slots(c: Config): nat {
    if c.inFlight < c.capacity then c.inFlight else c.capacity
  }

  ghost predicate Inv(c: Config, s: State) {
    && (forall ctx :: ctx in Live(s) ==> Live(s)[ctx] == 1)
    && |Live(s)| + s.w.dead + s.w.retired == Slots(c)
    && s.w.failed == c.inFlight - Slots(c)
    && (s.w.retired > 0 ==> s.stop)
  }

  // ------------------------------------------------------------------ lemmas

  lemma {:induction false} PrimedPrefix(c: Config, n: nat)
    ensures var k := if n < c.capacity then n else c.capacity;
      Primed(c, n) == Worker(seq(k, i => i), n - k, 0, 0, ZERO)
  {
    if n > 0 {
      PrimedPrefix(c, n - 1);
      if n - 1 < c.capacity {
        assert seq(n, i => i) == seq(n - 1, i => i) + [n - 1];
      }
    }
  }

  lemma {:induction false} DistinctOnce(n: nat, x: nat)
    ensures multiset(seq(n, i => i))[x] <= 1
    ensures multiset(seq(n, i => i))[x] == 1 ==> x < n
  {
    if n > 0 {
      assert seq(n, i => i) == seq(n - 1, i => i) + [n - 1];
      DistinctOnce(n - 1, x);
    }
  }

  lemma InitHolds(c: Config, s: State)
    requires Init(c, s)
    ensures Inv(c, s)
  {
    PrimedPrefix(c, c.inFlight);
    var all := seq(Slots(c), i => i);
    assert Live(s) == multiset(all);
    forall ctx | ctx in Live(s) ensures Live(s)[ctx] == 1 { DistinctOnce(Slots(c), ctx); }
  }

  /** A live send under processing leaves room for its own resubmission. */
  lemma ResultLeavesRoom(c: Config, s: State)
    requires Inv(c, s) && s.cq != [] && s.cq[0].Result?
    ensures |s.w.sq| < c.capacity
  {
    var rest := multiset(s.w.sq) + (s.inflight + ResultBag(s.cq[1..]));
    assert Live(s) == rest + multiset{s.cq[0].ctx};
    assert |rest| == |s.w.sq| + |s.inflight + ResultBag(s.cq[1..])|;
  }

  /** A processed result either goes back into the queue or is given up. */
  lemma HandleResult(c: Config, w: Worker, x: Cqe, stop: bool)
    requires x.Result? && |w.sq| < c.capacity
    ensures var w' := Handle(c, w, x, stop);
      && w'.failed == w.failed
      && (|| (w'.sq == w.sq + [x.ctx] && w'.dead == w.dead && w'.retired == w.retired)
          || (w'.sq == w.sq && w'.dead == w.dead + 1 && w'.retired == w.retired)
          || (w'.sq == w.sq && w'.dead == w.dead && w'.retired == w.retired + 1 && stop))
  {
  }

  lemma OneFewer(kept: multiset<nat>, ctx: nat, all: multiset<nat>)
    requires all == kept + multiset{ctx} && forall x :: x in all ==> all[x] == 1
    ensures |kept| == |all| - 1
    ensures forall x :: x in kept ==> kept[x] == 1
  {
    forall x | x in kept ensures kept[x] == 1 { assert x in all; }
  }

  /** What processing does. */
  ghost predicate Processes(c: Config, s: State, s': State) {
    && s.cq != [] && s'.w == Handle(c, s.w, s.cq[0], s.stop) && s'.cq == s.cq[1..]
    && s'.inflight == s.inflight && s'.stop == s.stop
  }

  lemma ProcessKeeps(c: Config, s: State, s': State)
    requires Inv(c, s) && Processes(c, s, s')
    ensures Inv(c, s')
  {
    var x := s.cq[0];
    if x.Result? {
      ResultLeavesRoom(c, s);
      HandleResult(c, s.w, x, s.stop);
      ResultMoves(s, s', x.ctx);
      if s'.w.sq == s.w.sq { OneFewer(Live(s'), x.ctx, Live(s)); }
    } else {
      assert Live(s') == Live(s);
    }
  }

  /** A processed result leaves the queue, or goes back into rotation. */
  lemma ResultMoves(s: State, s': State, ctx: nat)
    requires s.cq != [] && ResultOf(s.cq[0]) == multiset{ctx} && s'.cq == s.cq[1..] && s'.inflight == s.inflight
    requires s'.w.sq == s.w.sq || s'.w.sq == s.w.sq + [ctx]
    ensures s'.w.sq == s.w.sq ==> Live(s) == Live(s') + multiset{ctx}
    ensures s'.w.sq == s.w.sq + [ctx] ==> Live(s') == Live(s)
  {
    var bag := ResultBag(s'.cq);
    assert ResultBag(s.cq) == multiset{ctx} + bag;
    if s'.w.sq == s.w.sq + [ctx] {
      assert multiset(s'.w.sq) == multiset(s.w.sq) + multiset{ctx};
    }
  }

  lemma MoveOne(a: multiset<nat>, b: multiset<nat>, x: nat, d: multiset<nat>)
    requires x in b
    ensures a + (b - multiset{x}) + (d + multiset{x}) == a + b + d
  {
  }

  lemma LiveUnchanged(c: Config, s: State, step: Step, s': State)
    requires Next(c, s, step, s') && !step.Process?
    ensures Live(s') == Live(s)
  {
    match step
    case KernelResult(ctx, res, notify) =>
      BagAppend(s.cq, Result(ctx, res), ResultOf);
      MoveOne(multiset(s.w.sq), s.inflight, ctx, ResultBag(s.cq));
    case KernelNotif(ctx) => BagAppend(s.cq, Notif(ctx), ResultOf);
    case KernelStray => BagAppend(s.cq, NoContext, ResultOf);
    case _ =>
  }

  lemma StepKeeps(c: Config, s: State, step: Step, s': State)
    requires Inv(c, s) && Next(c, s, step, s')
    ensures Inv(c, s')
  {
    if step.Process? { ProcessKeeps(c, s, s'); } else { LiveUnchanged(c, s, step, s'); }
  }

  ghost function Steps(c: Config): (State, Step, State) -> bool {
    (s: State, step: Step, s': State) => Next(c, s, step, s')
  }

  ghost function Starts(c: Config): State -> bool { (s: State) => Init(c, s) }

  ghost predicate Reachable(c: Config, s: State) { Reached(Starts(c), Steps(c), s) }

  lemma ReachableInv(c: Config, s: State)
    requires Reachable(c, s)
    ensures Inv(c, s)
  {
    var inv := (s: State) => Inv(c, s);
    forall s | Starts(c)(s) ensures inv(s) { InitHolds(c, s); }
    forall s, step, s' | inv(s) && Steps(c)(s, step, s') ensures inv(s') { StepKeeps(c, s, step, s'); }
    Always(Starts(c), Steps(c), inv, s);
  }

  /** Conservation over every run. No context is ever in rotation twice; before
      stop the live sends are exactly the pool minus the dead contexts; and after
      the priming loop no preparation ever fails. The pool is all of `inFlight`
      exactly when the submission queue is at least that deep. */
  lemma PoolConservation(c: Config, s: State, ctx: nat)
    requires Reachable(c, s)
    ensures Live(s)[ctx] <= 1
    ensures !s.stop ==> |Live(s)| == Slots(c) - s.w.dead
    ensures |Live(s)| + s.w.dead + s.w.retired == Slots(c)
    ensures s.w.failed == c.inFlight - Slots(c)
    ensures s.w.failed == 0 <==> c.capacity >= c.inFlight
  {
    ReachableInv(c, s);
  }

  /** What becomes of a context when a run processes its result: it goes back
      into the queue if the result is positive or a retry and stop is not set
      yet; otherwise nothing is prepared and it is given up. */
  lemma ResultFate(c: Config, s: State, s': State)
    requires Reachable(c, s) && Next(c, s, Process, s') && s.cq[0].Result?
    ensures var ctx, again := s.cq[0].ctx, s.cq[0].res > 0 || s.cq[0].res == -EAGAIN;
      && (again && !s.stop ==> s'.w.sq == s.w.sq + [ctx] && Live(s') == Live(s))
      && (again && s.stop ==> s'.w.sq == s.w.sq && s'.w.retired == s.w.retired + 1 && Live(s) == Live(s') + multiset{ctx})
      && (!again ==> s'.w.sq == s.w.sq && s'.w.dead == s.w.dead + 1 && Live(s) == Live(s') + multiset{ctx})
  {
    ReachableInv(c, s);
    Fate(c, s, s');
  }

  lemma Fate(c: Config, s: State, s': State)
    requires Inv(c, s) && Processes(c, s, s') && s.cq[0].Result?
    ensures var ctx, again := s.cq[0].ctx, s.cq[0].res > 0 || s.cq[0].res == -EAGAIN;
      && (again && !s.stop ==> s'.w.sq == s.w.sq + [ctx] && Live(s') == Live(s))
      && (again && s.stop ==> s'.w.sq == s.w.sq && s'.w.retired == s.w.retired + 1 && Live(s) == Live(s') + multiset{ctx})
      && (!again ==> s'.w.sq == s.w.sq && s'.w.dead == s.w.dead + 1 && Live(s) == Live(s') + multiset{ctx})
  {
    ResultLeavesRoom(c, s);
    ResultMoves(s, s', s.cq[0].ctx);
  }

  /** Nothing is prepared any more once stop is set. */
  ghost predicate Draining(c: Config, s: State, s': State) {
    s'.stop && Live(s') <= Live(s) && s'.w.failed == s.w.failed && Reachable(c, s')
  }

  lemma StepDrains(c: Config, s: State, step: Step, s': State)
    requires Reachable(c, s) && s.stop && Next(c, s, step, s')
    ensures Draining(c, s, s')
  {
    ReachedNext(Starts(c), Steps(c), s, step, s');
    if step.Process? { ProcessDrains(c, s, s'); } else { LiveUnchanged(c, s, step, s'); }
  }

  lemma ProcessDrains(c: Config, s: State, s': State)
    requires Reachable(c, s) && s.stop && Next(c, s, Process, s')
    ensures Live(s') <= Live(s) && s'.w.failed == s.w.failed
  {
    ReachableInv(c, s);
    ProcessKeeps(c, s, s');
    if s.cq[0].Result? { Fate(c, s, s'); } else { OtherFate(c, s, s'); }
  }

  lemma OtherFate(c: Config, s: State, s': State)
    requires Processes(c, s, s') && !s.cq[0].Result?
    ensures Live(s') == Live(s)
  {
  }

  /** From the moment stop is set, on every path, what is in rotation only
      shrinks. */
  lemma StopDrains(c: Config, s: State, steps: seq<Step>, s': State)
    requires Reachable(c, s) && s.stop && Leads(Steps(c), s, steps, s')
    ensures s'.stop && Live(s') <= Live(s) && s'.w.failed == s.w.failed
  {
    var inv := (p: seq<Step>, t: State) => Draining(c, s, t);
    forall p, t, step, t' | inv(p, t) && Steps(c)(t, step, t') ensures inv(p + [step], t') {
      StepDrains(c, t, step, t');
    }
    Along(Steps(c), inv, s, steps, s');
  }

  // -------------------------------------------------------------- accounting

  function BytesOf(x: Cqe): nat { if x.Result? then Moved(x.res) else 0 }
  function NotifOf(x: Cqe): nat { if x.Notif? then 1 else 0 }
  function FailureOf(x: Cqe): nat { if x.Result? && x.res < 0 && x.res != -EAGAIN then 1 else 0 }
  function DeathOf(x: Cqe): nat { if x.Result? && x.res <= 0 && x.res != -EAGAIN then 1 else 0 }
  function PacketsOf(c: Config): Cqe -> nat {
    (x: Cqe) => if x.Result? && x.res > 0 then PacketsFor(c, x.res) else 0
  }

  function PacketSum(c: Config, rs: seq<nat>): nat {
    if c.segment > 0 then EstimateSum(rs, c.segment) else |rs|
  }

  /** The worker's counters against the kernel's books: whatever is not counted
      yet waits in the completion queue or, for notifications, with the kernel. */
  ghost predicate Balanced(c: Config, s: State) {
    && s.j.posted == s.seen + s.cq
    && s.w.stats.bytes + Total(s.cq, BytesOf) == Sum(s.j.transfers)
    && s.w.stats.packets + Total(s.cq, PacketsOf(c)) == PacketSum(c, s.j.transfers)
    && s.w.stats.zc + Total(s.cq, NotifOf) + |s.notifs| == s.j.announced
    && s.w.stats.errors + Total(s.cq, FailureOf) == Total(s.j.posted, FailureOf)
    && s.w.dead + Total(s.cq, DeathOf) == Total(s.j.posted, DeathOf)
  }

  lemma TransfersAppend(c: Config, rs: seq<nat>, r: nat)
    ensures Sum(rs + [r]) == Sum(rs) + r
    ensures PacketSum(c, rs + [r]) == PacketSum(c, rs) + PacketsFor(c, r)
  {
    assert (rs + [r])[..|rs|] == rs;
  }

  lemma HandleStats(c: Config, w: Worker, x: Cqe, stop: bool)
    ensures var w' := Handle(c, w, x, stop);
      && w'.stats.bytes == w.stats.bytes + BytesOf(x) && w'.stats.packets == w.stats.packets + PacketsOf(c)(x)
      && w'.stats.zc == w.stats.zc + NotifOf(x) && w'.stats.errors == w.stats.errors + FailureOf(x)
      && w'.dead == w.dead + DeathOf(x)
  {
  }

  lemma TotalsAppend(c: Config, xs: seq<Cqe>, x: Cqe)
    ensures Total(xs + [x], BytesOf) == Total(xs, BytesOf) + BytesOf(x)
    ensures Total(xs + [x], PacketsOf(c)) == Total(xs, PacketsOf(c)) + PacketsOf(c)(x)
    ensures Total(xs + [x], NotifOf) == Total(xs, NotifOf) + NotifOf(x)
    ensures Total(xs + [x], FailureOf) == Total(xs, FailureOf) + FailureOf(x)
    ensures Total(xs + [x], DeathOf) == Total(xs, DeathOf) + DeathOf(x)
  {
    TotalAppend(xs, x, BytesOf);
    TotalAppend(xs, x, PacketsOf(c));
    TotalAppend(xs, x, NotifOf);
    TotalAppend(xs, x, FailureOf);
    TotalAppend(xs, x, DeathOf);
  }

  /** The kernel posts `x` and writes down what it did. */
  lemma PostBalances(c: Config, s: State, x: Cqe, k: nat, s': State)
    requires Balanced(c, s) && s'.w == s.w && s'.cq == s.cq + [x] && s'.seen == s.seen
    requires s'.j == Log(s.j, x, BytesOf(x), k) && |s'.notifs| + NotifOf(x) == |s.notifs| + k
    ensures Balanced(c, s')
  {
    TotalsAppend(c, s.cq, x);
    TotalsAppend(c, s.j.posted, x);
    TransfersAppend(c, s.j.transfers, BytesOf(x));
    assert s'.j.posted == s'.seen + s'.cq;
  }

  lemma KernelBalances(c: Config, s: State, step: Step, s': State)
    requires Balanced(c, s) && Next(c, s, step, s')
    requires step.KernelResult? || step.KernelNotif? || step.KernelStray?
    ensures Balanced(c, s')
  {
    match step
    case KernelResult(ctx, res, notify) => PostBalances(c, s, Result(ctx, res), if notify then 1 else 0, s');
    case KernelNotif(ctx) => PostBalances(c, s, Notif(ctx), 0, s');
    case KernelStray => PostBalances(c, s, NoContext, 0, s');
  }

  lemma ProcessBalances(c: Config, s: State, s': State)
    requires Balanced(c, s) && Next(c, s, Process, s')
    ensures Balanced(c, s')
  {
    HandleStats(c, s.w, s.cq[0], s.stop);
    assert s'.seen + s'.cq == s.seen + s.cq;
  }

  lemma StepBalances(c: Config, s: State, step: Step, s': State)
    requires Balanced(c, s) && Next(c, s, step, s')
    ensures Balanced(c, s')
  {
    if step.Process? {
      ProcessBalances(c, s, s');
    } else if step.KernelResult? || step.KernelNotif? || step.KernelStray? {
      KernelBalances(c, s, step, s');
    }
  }

  lemma InitBalanced(c: Config, s: State)
    requires Init(c, s)
    ensures Balanced(c, s)
  {
    PrimedPrefix(c, c.inFlight);
  }

  /** In every run what has been counted and what waits in the completion queue
      make up what the kernel transferred, announced and reported. */
  lemma CountsWhatMoved(c: Config, s: State)
    requires Reachable(c, s)
    ensures s.j.posted == s.seen + s.cq
    ensures s.w.stats.bytes + Total(s.cq, BytesOf) == Sum(s.j.transfers)
    ensures s.w.stats.packets + Total(s.cq, PacketsOf(c)) == PacketSum(c, s.j.transfers)
    ensures s.w.stats.zc + Total(s.cq, NotifOf) + |s.notifs| == s.j.announced
    ensures s.w.stats.errors + Total(s.cq, FailureOf) == Total(s.j.posted, FailureOf)
    ensures s.w.dead + Total(s.cq, DeathOf) == Total(s.j.posted, DeathOf)
  {
    var inv := (s: State) => Balanced(c, s);
    forall s | Starts(c)(s) ensures inv(s) { InitBalanced(c, s); }
    forall s, step, s' | inv(s) && Steps(c)(s, step, s') ensures inv(s') { StepBalances(c, s, step, s'); }
    Always(Starts(c), Steps(c), inv, s);
  }

  lemma TransfersPositive(c: Config, s: State)
    requires Reachable(c, s)
    ensures AllPositive(s.j.transfers)
  {
    var inv := (s: State) => AllPositive(s.j.transfers);
    forall s, step, s' | inv(s) && Steps(c)(s, step, s') ensures inv(s') { StepPositive(c, s, step, s'); }
    Always(Starts(c), Steps(c), inv, s);
  }

  predicate AllPositive(rs: seq<nat>) { forall i :: 0 <= i < |rs| ==> rs[i] > 0 }

  lemma StepPositive(c: Config, s: State, step: Step, s': State)
    requires AllPositive(s.j.transfers) && Next(c, s, step, s')
    ensures AllPositive(s'.j.transfers)
  {
  }

  /** With UDP, in every run, the packets counted and waiting fall short of the
      datagrams the kernel took by exactly the transfers that end in a short
      datagram, so by at most one for each. */
  lemma PacketsFallShort(c: Config, s: State)
    requires Reachable(c, s) && c.segment > 0
    ensures s.w.stats.packets + Total(s.cq, PacketsOf(c)) + ShortTails(s.j.transfers, c.segment)
      == DatagramSum(s.j.transfers, c.segment)
    ensures ShortTails(s.j.transfers, c.segment) <= |s.j.transfers|
  {
    CountsWhatMoved(c, s);
    TransfersPositive(c, s);
    EstimateError(s.j.transfers, c.segment);
  }
}
