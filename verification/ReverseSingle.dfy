/** The receiving client without multishot: a pool of receives, each put back
    into rotation when it delivers, as in the sending client. */
module ReverseSingle {
  import opened Uring
  import opened Stats
  import opened Bags
  import opened Runs
  import opened ReverseClient

  function SlotOf(x: Cqe): multiset<nat> {
    if x.ctx.Some? then multiset{x.ctx.value} else multiset{}
  }

  /** Receives between preparation and the processing of their completion. */
  function Live(s: State): multiset<nat> {
    multiset(s.w.sq) + s.inflight + Bag(s.cq, SlotOf)
  }

  /** How many receives the pool can keep in rotation at all. */
  function Slots(c: Config): nat {
    if c.inFlight < c.capacity then c.inFlight else c.capacity
  }

  function Upto(n: nat): seq<nat> { seq(n, i => i) }

  /** Each slot below `n` once. */
  function Each(n: nat): multiset<nat> { multiset(Upto(n)) }

  /** A completion that delivers nothing and is no retry: end of file or error. */
  function EndOf(x: Cqe): nat { if x.res <= 0 && x.res != -EAGAIN then 1 else 0 }

  function Outcomes(xs: seq<Cqe>): seq<int> { seq(|xs|, i requires 0 <= i < |xs| => xs[i].res) }

  ghost predicate Inv(c: Config, s: State) {
    && Live(s) <= Each(Slots(c))
    && |Live(s)| + Total(s.seen, EndOf) <= Slots(c)
    && (!s.stop ==> |Live(s)| + Total(s.seen, EndOf) == Slots(c))
    && s.w.failed == c.inFlight - Slots(c)
    && AccountOf(s.w) == SingleAll(Outcomes(s.seen))
    && (forall i :: 0 <= i < |s.cq| ==> s.cq[i].ctx.Some?)
  }

  // --------------------------------------------------------------- the pool

  lemma {:induction false} EachHas(n: nat, i: nat)
    ensures Each(n)[i] == (if i < n then 1 else 0) && |Each(n)| == n
  {
    if n > 0 {
      EachHas(n - 1, i);
      assert Upto(n) == Upto(n - 1) + [n - 1];
    }
  }

  /** A part of the pool as large as the pool is the pool. */
  lemma Whole(live: multiset<nat>, n: nat)
    requires live <= Each(n) && |live| == n
    ensures live == Each(n)
  {
    EachHas(n, 0);
    assert Each(n) == live + (Each(n) - live);
    assert |Each(n) - live| == 0;
  }

  lemma {:induction false} PrimedPrefix(c: Config, w: Worker, n: nat)
    requires w.sq == [] && w.failed == 0
    ensures var k := if n < c.capacity then n else c.capacity;
      Primed(c, w, n) == w.(sq := Upto(k), failed := n - k)
  {
    if n > 0 {
      PrimedPrefix(c, w, n - 1);
      if n - 1 < c.capacity {
        assert Upto(n) == Upto(n - 1) + [n - 1];
      }
    } else {
      assert Upto(0) == w.sq;
    }
  }

  lemma Begins(c: Config, s: State)
    requires !c.multishot && Init(c, s)
    ensures s.w.sq == [] && s.cq == [] && s.seen == [] && s.inflight == Each(Slots(c))
    ensures s.w.failed == c.inFlight - Slots(c) && AccountOf(s.w) == OPEN
  {
    PrimedPrefix(c, Worker(s.w.pool, Idle, [], 0, false, ZERO), c.inFlight);
  }

  lemma InitHolds(c: Config, s: State)
    requires !c.multishot && Init(c, s)
    ensures Inv(c, s)
  {
    Begins(c, s);
    BeginsInOrder(c, s);
  }

  lemma BeginsInOrder(c: Config, s: State)
    requires s.w.sq == [] && s.cq == [] && s.seen == [] && s.inflight == Each(Slots(c))
    requires s.w.failed == c.inFlight - Slots(c) && AccountOf(s.w) == OPEN
    ensures Inv(c, s)
  {
    EachHas(Slots(c), 0);
    assert Live(s) == Each(Slots(c));
    assert Outcomes(s.seen) == [];
  }

  // --------------------------------------------------------- one completion

  /** A receive under processing leaves room for its own resubmission. */
  lemma ReceiveLeavesRoom(c: Config, s: State)
    requires Inv(c, s) && s.cq != []
    ensures |s.w.sq| < c.capacity
  {
    var rest := multiset(s.w.sq) + (s.inflight + Bag(s.cq[1..], SlotOf));
    assert Live(s) == rest + multiset{s.cq[0].ctx.value};
    assert |rest| == |s.w.sq| + |s.inflight + Bag(s.cq[1..], SlotOf)|;
  }

  /** A processed receive leaves rotation, or goes back into it. */
  lemma ReceiveMoves(s: State, s': State, slot: nat)
    requires s.cq != [] && s.cq[0].ctx == Some(slot) && s'.cq == s.cq[1..] && s'.inflight == s.inflight
    requires s'.w.sq == s.w.sq || s'.w.sq == s.w.sq + [slot]
    ensures s'.w.sq == s.w.sq ==> Live(s) == Live(s') + multiset{slot}
    ensures s'.w.sq == s.w.sq + [slot] ==> Live(s') == Live(s)
  {
    var bag := Bag(s'.cq, SlotOf);
    assert Bag(s.cq, SlotOf) == multiset{slot} + bag;
    if s'.w.sq == s.w.sq + [slot] {
      assert multiset(s'.w.sq) == multiset(s.w.sq) + multiset{slot};
    }
  }

  /** What the single-shot branch does with a completion. */
  lemma HandleFate(c: Config, w: Worker, slot: nat, x: Cqe, stop: bool)
    requires |w.sq| < c.capacity
    ensures var w' := HandleSingle(c, w, slot, x.res, stop);
      && w'.failed == w.failed
      && w'.sq == (if EndOf(x) == 0 && !stop then w.sq + [slot] else w.sq)
      && (w'.closed <==> w.closed || EndOf(x) == 1)
  {
  }

  /** What becomes of a receive when a run processes its completion: data and
      retries put it back into rotation until stop is set; an end gives it up and
      closes the connection. */
  lemma ReceiveFate(c: Config, s: State, s': State)
    requires !c.multishot && Inv(c, s) && WorkerNext(c, s, Process, s')
    ensures var slot, end := s.cq[0].ctx.value, EndOf(s.cq[0]) == 1;
      && (!end && !s.stop ==> s'.w.sq == s.w.sq + [slot] && Live(s') == Live(s))
      && (end || s.stop ==> s'.w.sq == s.w.sq && Live(s) == Live(s') + multiset{slot})
      && (s'.w.closed <==> s.w.closed || end) && s'.w.failed == s.w.failed
  {
    ReceiveLeavesRoom(c, s);
    HandleFate(c, s.w, s.cq[0].ctx.value, s.cq[0], s.stop);
    ReceiveMoves(s, s', s.cq[0].ctx.value);
  }

  lemma OutcomesAppend(xs: seq<Cqe>, x: Cqe)
    ensures SingleAll(Outcomes(xs + [x])) == Single(SingleAll(Outcomes(xs)), x.res)
  {
    var rs := Outcomes(xs);
    assert Outcomes(xs + [x]) == rs + [x.res];
    assert (rs + [x.res])[..|rs|] == rs;
  }

  lemma Accounted(c: Config, s: State, s': State)
    requires !c.multishot && WorkerNext(c, s, Process, s') && s.cq[0].ctx.Some?
    ensures s'.seen == s.seen + [s.cq[0]] && AccountOf(s'.w) == Single(AccountOf(s.w), s.cq[0].res)
  {
  }

  lemma OneFewer(live: multiset<nat>, slot: nat, all: multiset<nat>)
    requires live + multiset{slot} <= all
    ensures live <= all && |live + multiset{slot}| == |live| + 1
  {
    assert forall i :: live[i] <= (live + multiset{slot})[i];
  }

  lemma ProcessKeeps(c: Config, s: State, s': State)
    requires !c.multishot && Inv(c, s) && WorkerNext(c, s, Process, s')
    ensures Inv(c, s')
  {
    ReceiveFate(c, s, s');
    Accounted(c, s, s');
    OutcomesAppend(s.seen, s.cq[0]);
    TotalAppend(s.seen, s.cq[0], EndOf);
    if EndOf(s.cq[0]) == 1 || s.stop { OneFewer(Live(s'), s.cq[0].ctx.value, Each(Slots(c))); }
  }

  // ------------------------------------------------------------------- runs

  /** Nothing is processed; something may have been posted. */
  ghost predicate Same(s: State, s': State) {
    && Live(s') == Live(s) && s'.seen == s.seen && (s.stop ==> s'.stop)
    && s'.w.failed == s.w.failed && AccountOf(s'.w) == AccountOf(s.w)
    && (s'.cq == s.cq || (|s'.cq| == |s.cq| + 1 && s'.cq == s.cq + [s'.cq[|s.cq|]] && s'.cq[|s.cq|].ctx.Some?))
  }

  lemma SameKeeps(c: Config, s: State, s': State)
    requires Inv(c, s) && Same(s, s')
    ensures Inv(c, s')
  {
  }

  lemma PostSame(s: State, slot: nat, x: Cqe, s': State)
    requires slot in s.inflight && x.ctx == Some(slot)
    requires s' == s.(inflight := s.inflight - multiset{slot}, cq := s.cq + [x])
    ensures Same(s, s')
  {
    BagAppend(s.cq, x, SlotOf);
    MoveSlot(multiset(s.w.sq), s.inflight, slot, Bag(s.cq, SlotOf));
  }

  lemma MoveSlot(a: multiset<nat>, b: multiset<nat>, x: nat, d: multiset<nat>)
    requires x in b
    ensures a + (b - multiset{x}) + (d + multiset{x}) == a + b + d
  {
  }

  lemma SubmitSame(s: State, s': State)
    requires s' == Submitted(s).(phase := s'.phase)
    ensures Same(s, s')
  {
  }

  lemma OthersSame(c: Config, s: State, step: Step, s': State)
    requires !c.multishot && Next(c, s, step, s') && !step.Process?
    ensures Same(s, s')
  {
    match step
    case KernelRecv(slot, res) => PostSame(s, slot, Cqe(Some(slot), res, false, None), s');
    case Reap(k) => if k == 0 { SubmitSame(s, s'); }
    case EndBatch => SubmitSame(s, s');
    case _ =>
  }

  lemma StepKeeps(c: Config, s: State, step: Step, s': State)
    requires !c.multishot && Inv(c, s) && Next(c, s, step, s')
    ensures Inv(c, s')
  {
    if step.Process? {
      ProcessKeeps(c, s, s');
    } else {
      OthersSame(c, s, step, s');
      SameKeeps(c, s, s');
    }
  }

  lemma ReachableInv(c: Config, s: State)
    requires !c.multishot && Reachable(c, s)
    ensures Inv(c, s)
  {
    var inv := (s: State) => Inv(c, s);
    forall s | Starts(c)(s) ensures inv(s) { InitHolds(c, s); }
    forall s, step, s' | inv(s) && Steps(c)(s, step, s') ensures inv(s') { StepKeeps(c, s, step, s'); }
    Always(Starts(c), Steps(c), inv, s);
  }

  lemma {:induction false} NoEndOpen(xs: seq<Cqe>)
    ensures SingleAll(Outcomes(xs)).closed <==> Total(xs, EndOf) > 0
  {
    if xs != [] {
      var n := |xs| - 1;
      NoEndOpen(xs[..n]);
      TotalAppend(xs[..n], xs[n], EndOf);
      assert xs == xs[..n] + [xs[n]];
      assert Outcomes(xs)[..n] == Outcomes(xs[..n]);
    } else {
      assert Outcomes(xs) == [];
    }
  }

  /** Conservation over every single-shot run. No slot is in rotation twice; as
      long as neither stop is set nor an end has been processed every slot of the
      pool is, all of `inFlight` exactly when the queue is at least that deep;
      and before stop each end processed has cost exactly one. */
  lemma ReceivePool(c: Config, s: State)
    requires !c.multishot && Reachable(c, s)
    ensures forall slot: nat :: Live(s)[slot] <= 1 && (slot in Live(s) ==> slot < Slots(c))
    ensures !s.stop && !s.w.closed ==> forall slot: nat :: Live(s)[slot] == if slot < Slots(c) then 1 else 0
    ensures !s.stop ==> |Live(s)| == Slots(c) - Total(s.seen, EndOf)
    ensures s.w.closed <==> Total(s.seen, EndOf) > 0
    ensures s.w.failed == c.inFlight - Slots(c)
  {
    ReachableInv(c, s);
    NoEndOpen(s.seen);
    forall slot: nat ensures Live(s)[slot] <= 1 && (slot in Live(s) ==> slot < Slots(c)) {
      EachHas(Slots(c), slot);
    }
    if !s.stop && !s.w.closed {
      Whole(Live(s), Slots(c));
      forall slot: nat ensures Live(s)[slot] == if slot < Slots(c) then 1 else 0 { EachHas(Slots(c), slot); }
    }
  }

  /** What a run does with the completion it processes next. */
  lemma Rotation(c: Config, s: State, s': State)
    requires !c.multishot && Reachable(c, s) && Next(c, s, Process, s')
    ensures s.cq[0].ctx.Some?
    ensures var slot, end := s.cq[0].ctx.value, EndOf(s.cq[0]) == 1;
      && (!end && !s.stop ==> s'.w.sq == s.w.sq + [slot] && Live(s') == Live(s))
      && (end || s.stop ==> s'.w.sq == s.w.sq && Live(s) == Live(s') + multiset{slot})
      && (s'.w.closed <==> s.w.closed || end)
  {
    ReachableInv(c, s);
    ReceiveFate(c, s, s');
  }

  /** In every single-shot run the counters are the account of what has been
      processed: the one the multishot path is compared with. */
  lemma SingleShotAccount(c: Config, s: State)
    requires !c.multishot && Reachable(c, s)
    ensures AccountOf(s.w) == SingleAll(Outcomes(s.seen))
  {
    ReachableInv(c, s);
  }
}
