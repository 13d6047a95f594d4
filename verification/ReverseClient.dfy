/** The client's receive loop in reverse mode: one connection, either one
    multishot receive over the provided buffer ring, or a pool of single-shot
    receives. */
module ReverseClient {
  import opened Uring
  import opened Rings
  import opened ProvidedBuffers
  import opened Stats
  import opened Bags
  import opened Runs
  import opened ClientLoop

  /** Up to `inFlight` completions are harvested at a time; `capacity` is the
      depth of the submission queue. */
  datatype Config = Config(multishot: bool, inFlight: nat, capacity: nat)

  datatype Cqe = Cqe(ctx: Option<nat>, res: int, more: bool, buf: Option<nat>)

  /** The one multishot operation: not prepared, in the submission queue, or with
      the kernel. */
  datatype Op = Idle | Queued | Armed

  /** What the loop itself keeps: `op` for multishot, `sq` (slots waiting for a
      submit) and `failed` for single-shot receives. */
  datatype Worker = Worker(pool: Pool, op: Op, sq: seq<nat>, failed: nat, closed: bool, stats: Counters)

  /** The multishot branch of the loop body. */
  function HandleMulti(w: Worker, x: Cqe): Worker
    requires |w.pool.ring.slots| > 0
  {
    var took := if x.res > 0 && x.buf.Some? then
        w.(stats := w.stats.AddBytes(x.res, 1), pool := Return(w.pool, x.buf.value))
      else w;
    if x.more then took
    else if x.res == -ENOBUFS then took.(op := Queued)
    else if x.res < 0 then took.(stats := took.stats.AddError(), closed := true)
    else took.(closed := true)
  }

  function Prep(c: Config, w: Worker, slot: nat): Worker {
    if |w.sq| < c.capacity then w.(sq := w.sq + [slot]) else w.(failed := w.failed + 1)
  }

  /** The single-shot branch. */
  function HandleSingle(c: Config, w: Worker, slot: nat, res: int, stop: bool): Worker {
    if res > 0 then
      var counted := w.(stats := w.stats.AddBytes(res, 1));
      if stop then counted else Prep(c, counted, slot)
    else if res == -EAGAIN then if stop then w else Prep(c, w, slot)
    else if res < 0 then w.(stats := w.stats.AddError(), closed := true)
    else w.(closed := true)
  }

  function Handle(c: Config, w: Worker, x: Cqe, stop: bool): Worker
    requires c.multishot ==> |w.pool.ring.slots| > 0
  {
    if x.ctx.None? then w
    else if c.multishot then HandleMulti(w, x)
    else HandleSingle(c, w, x.ctx.value, x.res, stop)
  }

  // --------------------------------------------------------------- the system

  /** `inflight` are the single-shot receives the kernel holds, `seen` the
      completions processed so far. */
  datatype State = State(w: Worker, inflight: multiset<nat>, cq: seq<Cqe>, phase: Phase, stop: bool, seen: seq<Cqe>)

  datatype Step =
    | KernelData(res: int)                    // multishot, with MORE set
    | KernelEnd(res: int, withBuffer: bool)   // multishot, terminating
    | KernelRecv(slot: nat, res: int)         // single-shot
    | Stop
    | Enter
    | Reap(k: nat)
    | Process
    | EndBatch

  function Submitted(s: State): State {
    s.(w := s.w.(op := if s.w.op.Queued? then Armed else s.w.op, sq := []), inflight := s.inflight + multiset(s.w.sq))
  }

  /** A completion that carries the oldest buffer of the ring. */
  ghost predicate Takes(s: State, res: int, more: bool, op: Op, s': State)
    requires |s.w.pool.ring.slots| > 0
  {
    && res > 0 && Len(s.w.pool.ring) > 0
    && s' == s.(w := s.w.(pool := Take(s.w.pool), op := op),
                cq := s.cq + [Cqe(Some(0), res, more, Some(Window(s.w.pool.ring)[0].bid))])
  }

  ghost predicate KernelNext(c: Config, s: State, step: Step, s': State)
    requires c.multishot ==> |s.w.pool.ring.slots| > 0
  {
    match step
    case KernelData(res) => c.multishot && s.w.op.Armed? && Takes(s, res, true, Armed, s')
    case KernelEnd(res, withBuffer) =>
      && c.multishot && s.w.op.Armed?
      && (if withBuffer then Takes(s, res, false, Idle, s')
          else s' == s.(w := s.w.(op := Idle), cq := s.cq + [Cqe(Some(0), res, false, None)]))
    case KernelRecv(slot, res) =>
      && !c.multishot && slot in s.inflight
      && s' == s.(inflight := s.inflight - multiset{slot}, cq := s.cq + [Cqe(Some(slot), res, false, None)])
    case Stop => s' == s.(stop := true)
    case _ => false
  }

  ghost predicate WorkerNext(c: Config, s: State, step: Step, s': State)
    requires c.multishot ==> |s.w.pool.ring.slots| > 0
  {
    match step
    case Enter => s.phase.Head? && !s.stop && !s.w.closed && s' == s.(phase := Entered)
    case Reap(k) =>
      && s.phase.Entered? && k <= c.inFlight && k <= |s.cq|
      && s' == if k == 0 then Submitted(s).(phase := Head) else s.(phase := Batch(k))
    case Process =>
      && s.phase.Batch? && s.phase.left > 0 && s.cq != []
      && s' == s.(w := Handle(c, s.w, s.cq[0], s.stop), cq := s.cq[1..], phase := Batch(s.phase.left - 1),
                  seen := s.seen + [s.cq[0]])
    case EndBatch => s.phase == Batch(0) && s' == Submitted(s).(phase := Head)
    case _ => false
  }

  ghost predicate Next(c: Config, s: State, step: Step, s': State)
    requires c.multishot ==> |s.w.pool.ring.slots| > 0
  {
    KernelNext(c, s, step, s') || WorkerNext(c, s, step, s')
  }

  /** The single-shot receives prepared before the loop starts. */
  function Primed(c: Config, w: Worker, n: nat): Worker {
    if n == 0 then w else Prep(c, Primed(c, w, n - 1), n - 1)
  }

  function SetUp(c: Config, p: Pool): Worker {
    if c.multishot then Worker(p, Queued, [], 0, false, ZERO)
    else Primed(c, Worker(p, Idle, [], 0, false, ZERO), c.inFlight)
  }

  /** Right after set-up and the first submit. */
  ghost predicate Init(c: Config, s: State) {
    && (c.multishot ==> Filled(s.w.pool))
    && s == Submitted(State(SetUp(c, s.w.pool), multiset{}, [], Head, s.stop, []))
  }

  ghost function Steps(c: Config): (State, Step, State) -> bool {
    (s: State, step: Step, s': State) => (c.multishot ==> |s.w.pool.ring.slots| > 0) && Next(c, s, step, s')
  }

  ghost function Starts(c: Config): State -> bool { (s: State) => Init(c, s) }

  ghost predicate Reachable(c: Config, s: State) { Reached(Starts(c), Steps(c), s) }

  // ----------------------------------------------------------- multishot runs

  /** The buffers named by completions in the queue. */
  function Held(cq: seq<Cqe>): multiset<nat> {
    Bag(cq, BufOf)
  }

  function BufOf(x: Cqe): multiset<nat> {
    if x.buf.Some? then multiset{x.buf.value} else multiset{}
  }

  ghost predicate Inv(s: State) {
    && PoolInv(s.w.pool, Held(s.cq))
    && AllPostable(s.cq) && (forall i :: 0 <= i < |s.cq| ==> s.cq[i].ctx.Some?)
    // a terminating completion is the last one, and its operation is gone
    && (forall i :: 0 <= i < |s.cq| && !s.cq[i].more ==> i == |s.cq| - 1 && s.w.op.Idle?)
    // the operation is outstanding, or ended unread, or the peer is closed
    && (s.w.op.Idle? ==> s.w.closed || (s.cq != [] && !s.cq[|s.cq| - 1].more))
    && (s.w.closed ==> s.w.op.Idle? && s.cq == [])
    // a rearmed operation waits for submission over a completely full ring
    && (s.w.op.Queued? ==> s.cq == [] && Len(s.w.pool.ring) == |s.w.pool.ring.slots|)
  }

  lemma TakesKeeps(s: State, res: int, more: bool, op: Op, s': State)
    requires Inv(s) && s.w.op.Armed? && Takes(s, res, more, op, s')
    requires op == if more then Armed else Idle
    ensures Inv(s')
  {
    TakeKeepsPool(s.w.pool, Held(s.cq));
    BagAppend(s.cq, s'.cq[|s.cq|], BufOf);
  }

  /** The pool after the head completion has been processed. */
  lemma HandleKeepsPool(s: State, s': State)
    requires Inv(s) && s.cq != [] && s'.w == HandleMulti(s.w, s.cq[0]) && s'.cq == s.cq[1..]
    ensures PoolInv(s'.w.pool, Held(s'.cq))
  {
    var x := s.cq[0];
    if x.buf.Some? {
      ReturnKeepsPool(s.w.pool, Held(s.cq), x.buf.value);
      assert Held(s.cq) - multiset{x.buf.value} == Held(s'.cq);
    } else {
      assert Held(s.cq) == Held(s'.cq);
    }
  }

  /** What processing does in a multishot run. */
  ghost predicate Processes(s: State, s': State) {
    && s.cq != [] && |s.w.pool.ring.slots| > 0 && s'.w == HandleMulti(s.w, s.cq[0]) && s'.cq == s.cq[1..]
    && s'.seen == s.seen + [s.cq[0]]
  }

  lemma StepProcesses(c: Config, s: State, s': State)
    requires c.multishot && Inv(s) && Next(c, s, Process, s')
    ensures Processes(s, s')
  {
  }

  lemma ProcessKeeps(s: State, s': State)
    requires Inv(s) && Processes(s, s')
    ensures Inv(s')
  {
    var x := s.cq[0];
    HandleKeepsPool(s, s');
    if !x.more {
      assert |s.cq| == 1;
      HeldLeavesRoom(s'.w.pool, Held([]));
    } else {
      forall i | 0 <= i < |s'.cq| && !s'.cq[i].more ensures i == |s'.cq| - 1 && s'.w.op.Idle? {
        assert !s.cq[i + 1].more;
      }
    }
  }

  lemma EndKeeps(s: State, res: int, s': State)
    requires Inv(s) && s.w.op.Armed?
    requires s' == s.(w := s.w.(op := Idle), cq := s.cq + [Cqe(Some(0), res, false, None)])
    ensures Inv(s')
  {
    var x := Cqe(Some(0), res, false, None);
    assert Held(s.cq + [x]) == Held(s.cq) by { BagAppend(s.cq, x, BufOf); }
    assert forall i :: 0 <= i < |s.cq| ==> s'.cq[i] == s.cq[i];
  }

  lemma SubmitKeeps(s: State)
    requires Inv(s)
    ensures Inv(Submitted(s).(phase := Head))
  {
  }

  lemma StepKeeps(c: Config, s: State, step: Step, s': State)
    requires c.multishot && Inv(s) && Next(c, s, step, s')
    ensures Inv(s')
  {
    match step
    case KernelData(res) => TakesKeeps(s, res, true, Armed, s');
    case KernelEnd(res, withBuffer) =>
      if withBuffer { TakesKeeps(s, res, false, Idle, s'); } else { EndKeeps(s, res, s'); }
    case Process =>
      StepProcesses(c, s, s');
      ProcessKeeps(s, s');
    case Reap(k) => if k == 0 { SubmitKeeps(s); }
    case EndBatch => SubmitKeeps(s);
    case _ =>
  }

  lemma InitHolds(c: Config, s: State)
    requires c.multishot && Init(c, s)
    ensures Inv(s)
  {
    FilledHoldsAll(s.w.pool);
  }

  lemma ReachableInv(c: Config, s: State)
    requires c.multishot && Reachable(c, s)
    ensures Inv(s)
  {
    var inv := (s: State) => Inv(s);
    forall s | Starts(c)(s) ensures inv(s) { InitHolds(c, s); }
    forall s, step, s' | inv(s) && Steps(c)(s, step, s') ensures inv(s') { StepKeeps(c, s, step, s'); }
    Always(Starts(c), Steps(c), inv, s);
  }

  /** Starvation recovery: whenever a run processes an -ENOBUFS termination, no
      other completion and no operation exists, and once the receive is rearmed
      every buffer is back in the ring; it stays so until the operation is
      submitted, so each rearm starts from a completely full ring. */
  lemma StarvationRecovery(c: Config, s: State, s': State)
    requires c.multishot && Reachable(c, s) && s.cq != [] && s.cq[0].res == -ENOBUFS && !s.cq[0].more
    requires |s.w.pool.ring.slots| > 0 && Next(c, s, Process, s')
    ensures s.w.op.Idle? && |s.cq| == 1 && s'.cq == []
    ensures s'.w.op.Queued? && Len(s'.w.pool.ring) == |s'.w.pool.ring.slots|
    ensures !s'.w.closed && s'.w.stats == s.w.stats
  {
    ReachableInv(c, s);
    StepKeeps(c, s, Process, s');
  }

  /** Every operation the kernel holds again after a rearm found a full ring. */
  lemma RearmStartsFull(c: Config, s: State, step: Step, s': State)
    requires c.multishot && Reachable(c, s) && |s.w.pool.ring.slots| > 0 && Next(c, s, step, s')
    requires s.w.op.Queued? && s'.w.op.Armed?
    ensures s'.cq == [] && Len(s'.w.pool.ring) == |s'.w.pool.ring.slots|
  {
    ReachableInv(c, s);
  }

  // --------------------------------- multishot against single-shot accounting

  /** What the two receive paths account for a connection. */
  datatype Account = Account(bytes: nat, packets: nat, errors: nat, closed: bool)

  const OPEN := Account(0, 0, 0, false)

  function AccountOf(w: Worker): Account {
    Account(w.stats.bytes, w.stats.packets, w.stats.errors, w.closed)
  }

  function Single(a: Account, res: int): Account {
    if res > 0 then a.(bytes := a.bytes + res, packets := a.packets + 1)
    else if res == -EAGAIN then a
    else if res < 0 then a.(errors := a.errors + 1, closed := true)
    else a.(closed := true)
  }

  function SingleAll(rs: seq<int>): Account {
    if rs == [] then OPEN else Single(SingleAll(rs[..|rs| - 1]), rs[|rs| - 1])
  }

  function Multi(a: Account, x: Cqe): Account {
    var b := if x.res > 0 && x.buf.Some? then a.(bytes := a.bytes + x.res, packets := a.packets + 1) else a;
    if x.more || x.res == -ENOBUFS then b
    else b.(errors := if x.res < 0 then b.errors + 1 else b.errors, closed := true)
  }

  function MultiAll(xs: seq<Cqe>): Account {
    if xs == [] then OPEN else Multi(MultiAll(xs[..|xs| - 1]), xs[|xs| - 1])
  }

  /** The two accounts are those of the two branches of the loop. */
  lemma BranchAccounts(c: Config, w: Worker, x: Cqe, slot: nat, stop: bool)
    requires |w.pool.ring.slots| > 0
    ensures AccountOf(HandleMulti(w, x)) == Multi(AccountOf(w), x)
    ensures AccountOf(HandleSingle(c, w, slot, x.res, stop)) == Single(AccountOf(w), x.res)
  {
  }

  /** What a multishot receive over provided buffers can post. */
  predicate Postable(x: Cqe) {
    (x.more ==> x.buf.Some?) && (x.buf.Some? ==> x.res > 0)
  }

  ghost predicate AllPostable(xs: seq<Cqe>) {
    forall i :: 0 <= i < |xs| ==> Postable(xs[i])
  }

  predicate Starved(x: Cqe) { !x.more && x.res == -ENOBUFS }

  /** The same stream as single-shot receives would see it: a starved receive is
      one that has not completed yet. */
  function Results(xs: seq<Cqe>): seq<int> {
    if xs == [] then []
    else Results(xs[..|xs| - 1]) + if Starved(xs[|xs| - 1]) then [] else [xs[|xs| - 1].res]
  }

  /** The ends the two branches disagree on: data that also ends the operation, a
      positive result without a buffer, and a retry. */
  predicate CutShort(x: Cqe) { !x.more && x.res > 0 && x.buf.Some? }
  predicate Bare(x: Cqe) { !x.more && x.res > 0 && x.buf.None? }
  predicate Again(x: Cqe) { !x.more && x.res == -EAGAIN }
  predicate OddEnd(x: Cqe) { CutShort(x) || Bare(x) || Again(x) }

  function BareBytes(x: Cqe): nat { if Bare(x) then x.res else 0 }
  function BareCount(x: Cqe): nat { if Bare(x) then 1 else 0 }
  function AgainCount(x: Cqe): nat { if Again(x) then 1 else 0 }

  ghost predicate Has(xs: seq<Cqe>, p: Cqe -> bool) { exists i :: 0 <= i < |xs| && p(xs[i]) }

  lemma SomeAppend(xs: seq<Cqe>, x: Cqe, p: Cqe -> bool)
    ensures Has(xs + [x], p) <==> Has(xs, p) || p(x)
  {
    var ys := xs + [x];
    assert ys[|xs|] == x && forall i :: 0 <= i < |xs| ==> ys[i] == xs[i];
    if p(x) { assert p(ys[|xs|]); }
    if Has(xs, p) {
      var i :| 0 <= i < |xs| && p(xs[i]);
      assert p(ys[i]);
    }
  }

  lemma ResultsAppend(xs: seq<Cqe>, x: Cqe)
    ensures Starved(x) ==> SingleAll(Results(xs + [x])) == SingleAll(Results(xs))
    ensures !Starved(x) ==> SingleAll(Results(xs + [x])) == Single(SingleAll(Results(xs)), x.res)
    ensures MultiAll(xs + [x]) == Multi(MultiAll(xs), x)
  {
    assert (xs + [x])[..|xs|] == xs;
    var rs := Results(xs);
    if Starved(x) {
      assert rs + [] == rs;
    } else {
      assert (rs + [x.res])[..|rs|] == rs;
    }
  }

  /** Multishot against single-shot on every stream a multishot receive can post,
      with any number of starvations: single-shot also counts the bytes and
      packets of bare ends, multishot also counts a retry as an error, and it is
      closed exactly when single-shot is or some end was odd. */
  lemma {:induction false} MultishotAgainstSingleShot(xs: seq<Cqe>)
    requires AllPostable(xs)
    ensures var m, s := MultiAll(xs), SingleAll(Results(xs));
      && s.bytes == m.bytes + Total(xs, BareBytes) && s.packets == m.packets + Total(xs, BareCount)
      && m.errors == s.errors + Total(xs, AgainCount)
      && (m.closed <==> s.closed || Has(xs, OddEnd))
  {
    if xs != [] {
      var n := |xs| - 1;
      var front, x := xs[..n], xs[n];
      assert xs == front + [x];
      MultishotAgainstSingleShot(front);
      ResultsAppend(front, x);
      TotalAppend(front, x, BareBytes);
      TotalAppend(front, x, BareCount);
      TotalAppend(front, x, AgainCount);
      SomeAppend(front, x, OddEnd);
    }
  }

  lemma {:induction false} TotalZero(xs: seq<Cqe>, f: Cqe -> nat)
    ensures Total(xs, f) == 0 <==> forall i :: 0 <= i < |xs| ==> f(xs[i]) == 0
  {
    if xs != [] {
      TotalZero(xs[1..], f);
      assert forall i :: 0 <= i < |xs| - 1 ==> xs[1..][i] == xs[i + 1];
      if forall i :: 0 <= i < |xs[1..]| ==> f(xs[1..][i]) == 0 {
        forall i | 0 < i < |xs| ensures f(xs[i]) == 0 { assert xs[i] == xs[1..][i - 1]; }
      }
    }
  }

  // ------------------------------------------------------- the same over runs

  /** A completion that closes the multishot path. */
  predicate Final(x: Cqe) { !x.more && x.res != -ENOBUFS }

  ghost predicate History(s: State) {
    && AllPostable(s.seen) && AccountOf(s.w) == MultiAll(s.seen)
    && (forall i :: 0 <= i < |s.seen| && Final(s.seen[i]) ==> i == |s.seen| - 1 && s.w.closed)
  }

  lemma ProcessKeepsHistory(c: Config, s: State, s': State)
    requires Inv(s) && History(s) && Processes(s, s')
    ensures History(s')
  {
    var x := s.cq[0];
    BranchAccounts(c, s.w, x, 0, s.stop);
    ResultsAppend(s.seen, x);
    ClosesWhenFinal(s.w, x);
    FinalLast(s.seen, x, s.w.closed, s'.w.closed);
  }

  lemma ClosesWhenFinal(w: Worker, x: Cqe)
    requires |w.pool.ring.slots| > 0
    ensures HandleMulti(w, x).closed <==> w.closed || Final(x)
  {
  }

  /** A final completion is the last one seen. */
  lemma FinalLast(seen: seq<Cqe>, x: Cqe, was: bool, now: bool)
    requires forall i :: 0 <= i < |seen| && Final(seen[i]) ==> i == |seen| - 1 && was
    requires !was && (Final(x) ==> now)
    ensures forall i :: 0 <= i < |seen + [x]| && Final((seen + [x])[i]) ==> i == |seen| && now
  {
    assert forall i :: 0 <= i < |seen| ==> (seen + [x])[i] == seen[i];
  }

  lemma OthersKeepHistory(c: Config, s: State, step: Step, s': State)
    requires c.multishot && |s.w.pool.ring.slots| > 0 && Next(c, s, step, s') && !step.Process?
    ensures s'.seen == s.seen && AccountOf(s'.w) == AccountOf(s.w)
  {
  }

  lemma StepKeepsHistory(c: Config, s: State, step: Step, s': State)
    requires c.multishot && Inv(s) && History(s) && Next(c, s, step, s')
    ensures History(s')
  {
    if step.Process? {
      StepProcesses(c, s, s');
      ProcessKeepsHistory(c, s, s');
    } else {
      OthersKeepHistory(c, s, step, s');
    }
  }

  lemma ReachableHistory(c: Config, s: State)
    requires c.multishot && Reachable(c, s)
    ensures Inv(s) && History(s)
  {
    var inv := (s: State) => Inv(s) && History(s);
    forall s | Starts(c)(s) ensures inv(s) { InitHolds(c, s); }
    forall s, step, s' | inv(s) && Steps(c)(s, step, s') ensures inv(s') {
      StepKeeps(c, s, step, s');
      StepKeepsHistory(c, s, step, s');
    }
    Always(Starts(c), Steps(c), inv, s);
  }

  lemma {:induction false} OpenWithoutFinal(xs: seq<Cqe>)
    requires AllPostable(xs) && forall i :: 0 <= i < |xs| ==> !Final(xs[i])
    ensures !SingleAll(Results(xs)).closed
  {
    if xs != [] {
      var n := |xs| - 1;
      assert xs == xs[..n] + [xs[n]];
      OpenWithoutFinal(xs[..n]);
      ResultsAppend(xs[..n], xs[n]);
    }
  }

  /** In every run the two paths agree on a column exactly when no completion
      processed so far is one they disagree on: on bytes and packets unless an
      end was bare, on errors unless an end was a retry, on closedness unless an
      end was odd, and hence on everything exactly when no end was odd. */
  lemma RunsAgreeExactly(c: Config, s: State)
    requires c.multishot && Reachable(c, s)
    ensures var m, t := AccountOf(s.w), SingleAll(Results(s.seen));
      && (m.bytes == t.bytes <==> !Has(s.seen, Bare))
      && (m.packets == t.packets <==> !Has(s.seen, Bare))
      && (m.errors == t.errors <==> !Has(s.seen, Again))
      && (m.closed == t.closed <==> !Has(s.seen, OddEnd))
      && (m == t <==> !Has(s.seen, OddEnd))
  {
    ReachableHistory(c, s);
    if Has(s.seen, OddEnd) { OddLeavesOpen(s); }
    Exactly(s.seen);
  }

  lemma Exactly(xs: seq<Cqe>)
    requires AllPostable(xs) && (Has(xs, OddEnd) ==> !SingleAll(Results(xs)).closed)
    ensures var m, t := MultiAll(xs), SingleAll(Results(xs));
      && (m.bytes == t.bytes <==> !Has(xs, Bare))
      && (m.packets == t.packets <==> !Has(xs, Bare))
      && (m.errors == t.errors <==> !Has(xs, Again))
      && (m.closed == t.closed <==> !Has(xs, OddEnd))
      && (m == t <==> !Has(xs, OddEnd))
  {
    MultishotAgainstSingleShot(xs);
    Columns(xs);
  }

  /** Which ends make a column differ. */
  lemma Columns(xs: seq<Cqe>)
    ensures Total(xs, BareBytes) == 0 <==> !Has(xs, Bare)
    ensures Total(xs, BareCount) == 0 <==> !Has(xs, Bare)
    ensures Total(xs, AgainCount) == 0 <==> !Has(xs, Again)
    ensures Has(xs, Bare) || Has(xs, Again) ==> Has(xs, OddEnd)
  {
    TotalZero(xs, BareBytes);
    TotalZero(xs, BareCount);
    TotalZero(xs, AgainCount);
    if Has(xs, Bare) {
      var i :| 0 <= i < |xs| && Bare(xs[i]);
      assert BareBytes(xs[i]) > 0 && BareCount(xs[i]) > 0 && OddEnd(xs[i]);
    }
    if Has(xs, Again) {
      var i :| 0 <= i < |xs| && Again(xs[i]);
      assert AgainCount(xs[i]) > 0 && OddEnd(xs[i]);
    }
  }

  /** An odd end is the last completion of its run, and single-shot receives
      would have gone on. */
  lemma OddLeavesOpen(s: State)
    requires History(s) && Has(s.seen, OddEnd)
    ensures !SingleAll(Results(s.seen)).closed
  {
    var i :| 0 <= i < |s.seen| && OddEnd(s.seen[i]);
    assert Final(s.seen[i]);
    assert s.seen == s.seen[..i] + [s.seen[i]];
    OpenWithoutFinal(s.seen[..i]);
    ResultsAppend(s.seen[..i], s.seen[i]);
  }

  // ----------------------------------------------------- every odd end happens

  function Start(c: Config, p: Pool): State {
    Submitted(State(SetUp(c, p), multiset{}, [], Head, false, []))
  }

  lemma Extend(c: Config, s: State, step: Step, s': State)
    requires Reachable(c, s) && |s.w.pool.ring.slots| > 0 && Next(c, s, step, s')
    ensures Reachable(c, s')
  {
    ReachedNext(Starts(c), Steps(c), s, step, s');
  }

  /** The receive ends at once, with the oldest buffer or without any. */
  lemma ReachPosted(c: Config, p: Pool, res: int, withBuffer: bool) returns (s: State)
    requires c.multishot && Filled(p) && (withBuffer ==> res > 0)
    ensures Reachable(c, s) && s.phase.Head? && !s.stop && !s.w.closed && |s.w.pool.ring.slots| > 0
    ensures s.seen == [] && |s.cq| == 1 && s.cq[0].ctx.Some?
    ensures s.cq[0].res == res && !s.cq[0].more && s.cq[0].buf.Some? == withBuffer
  {
    var a := Start(c, p);
    ReachedStart(Starts(c), Steps(c), a);
    FilledLen(p);
    var x := Cqe(Some(0), res, false, if withBuffer then Some(Window(p.ring)[0].bid) else None);
    s := a.(w := a.w.(op := Idle, pool := if withBuffer then Take(p) else p), cq := [] + [x]);
    Extend(c, a, KernelEnd(res, withBuffer), s);
  }

  /** A lone completion is harvested. */
  lemma ReapLone(c: Config, s: State) returns (s': State)
    requires c.inFlight > 0 && Reachable(c, s) && s.phase.Head? && !s.stop && !s.w.closed
    requires |s.w.pool.ring.slots| > 0 && |s.cq| == 1
    ensures Reachable(c, s') && s' == s.(phase := Batch(1))
  {
    s' := s.(phase := Entered);
    Extend(c, s, Enter, s');
    Extend(c, s', Reap(1), s.(phase := Batch(1)));
    s' := s.(phase := Batch(1));
  }

  lemma ReachEnd(c: Config, res: int, withBuffer: bool) returns (s: State)
    requires c.multishot && c.inFlight > 0 && (withBuffer ==> res > 0)
    ensures Reachable(c, s) && |s.seen| == 1
    ensures s.seen[0].res == res && !s.seen[0].more && s.seen[0].buf.Some? == withBuffer
  {
    OneBufferFilled();
    var a := ReachPosted(c, ONE_BUFFER, res, withBuffer);
    var d := ReapLone(c, a);
    s := d.(w := Handle(c, d.w, d.cq[0], d.stop), cq := d.cq[1..], phase := Batch(0), seen := d.seen + [d.cq[0]]);
    Extend(c, d, Process, s);
  }

  /** Each kind of odd end is processed by some run, and there the two paths
      account differently. */
  lemma OddEndsHappen(c: Config) returns (cut: State, bare: State, again: State)
    requires c.multishot && c.inFlight > 0
    ensures Reachable(c, cut) && Has(cut.seen, CutShort) && AccountOf(cut.w) != SingleAll(Results(cut.seen))
    ensures Reachable(c, bare) && Has(bare.seen, Bare) && AccountOf(bare.w) != SingleAll(Results(bare.seen))
    ensures Reachable(c, again) && Has(again.seen, Again) && AccountOf(again.w) != SingleAll(Results(again.seen))
  {
    cut := ReachEnd(c, 1, true);
    assert CutShort(cut.seen[0]) && OddEnd(cut.seen[0]);
    RunsAgreeExactly(c, cut);
    bare := ReachEnd(c, 1, false);
    assert Bare(bare.seen[0]) && OddEnd(bare.seen[0]);
    RunsAgreeExactly(c, bare);
    again := ReachEnd(c, -EAGAIN, false);
    assert Again(again.seen[0]) && OddEnd(again.seen[0]);
    RunsAgreeExactly(c, again);
  }
}
