/** The server's counters and descriptors against the kernel's books. */
module ServerAccounting {
  import opened Uring
  import opened Stats
  import opened Bags
  import opened Runs
  import opened ServerModel
  import opened ServerLedger
  import opened ServerOwnership

  /** The payload a completion reports. A multishot receive without a buffer has
      nowhere to put any. */
  function BytesOf(c: Config): Cqe -> nat {
    (x: Cqe) =>
      if x.ctx.None? || x.ctx.value.kind.Accept? || x.notif then 0
      else if x.ctx.value.kind.Recv? && c.multishot && x.buf.None? then 0
      else Moved(x.res)
  }

  function TransferOf(c: Config): Cqe -> nat { (x: Cqe) => if BytesOf(c)(x) > 0 then 1 else 0 }

  function NotifOf(x: Cqe): nat { if x.ctx.Some? && x.ctx.value.kind.Send? && x.notif then 1 else 0 }

  /** A failure for good: a send or single-shot receive that is not to be retried,
      or the end of a multishot receive other than by starvation. */
  function FailureOf(c: Config): Cqe -> nat {
    (x: Cqe) =>
      if x.ctx.None? || x.ctx.value.kind.Accept? || x.res >= 0 then 0
      else if x.ctx.value.kind.Send? then if !x.notif && x.res != -EAGAIN then 1 else 0
      else if c.multishot then if !x.more && x.res != -ENOBUFS then 1 else 0
      else if x.res != -EAGAIN then 1 else 0
  }

  /** The descriptor a completion hands over. */
  function NewFd(x: Cqe): multiset<int> { if IsNewConnection(x) then multiset{x.res} else multiset{} }

  /** Whatever is not counted yet waits in the completion queue or, for
      notifications, with the kernel. */
  ghost predicate Balanced(c: Config, s: State) {
    && s.j.posted == s.seen + s.cq
    && s.w.stats.bytes + Total(s.cq, BytesOf(c)) == Sum(s.j.transfers)
    && s.w.stats.packets + Total(s.cq, TransferOf(c)) == |s.j.transfers|
    && s.w.stats.zc + Total(s.cq, NotifOf) + |s.notifs| == s.j.announced
    && s.w.stats.errors + Total(s.cq, FailureOf(c)) == Total(s.j.posted, FailureOf(c))
    && s.w.accepted + Bag(s.cq, NewFd) == Bag(s.j.posted, NewFd)
  }

  // ------------------------------------------------------------- kernel steps

  /** The kernel posts `x`, having moved what it reports and announced `k`. */
  ghost predicate Logged(c: Config, s: State, x: Cqe, k: nat, s': State) {
    && s'.cq == s.cq + [x] && s'.seen == s.seen && s'.j == Log(s.j, x, BytesOf(c)(x), k)
    && |s'.notifs| + NotifOf(x) == |s.notifs| + k
    && s'.w.stats == s.w.stats && s'.w.accepted == s.w.accepted
  }

  lemma TakesLogs(c: Config, s: State, ctx: Ctx, res: int, more: bool, s': State) returns (x: Cqe)
    requires |s.w.pool.ring.slots| > 0 && c.multishot && ctx.kind.Recv? && Takes(s, ctx, res, more, s')
    ensures Logged(c, s, x, 0, s')
  {
    x := s'.cq[|s.cq|];
  }

  lemma SendLogs(c: Config, s: State, step: Step, s': State) returns (x: Cqe, k: nat)
    requires |s.w.pool.ring.slots| > 0 && KernelNext(c, s, step, s') && (step.KernelSend? || step.KernelNotif?)
    ensures Logged(c, s, x, k, s')
  {
    if step.KernelSend? {
      x := Cqe(Some(step.ctx), step.res, step.notify, false, None);
      k := if step.notify then 1 else 0;
    } else {
      x := Cqe(Some(step.ctx), step.res, false, true, None);
      k := 0;
    }
  }

  lemma KernelLogs(c: Config, s: State, step: Step, s': State) returns (x: Cqe, k: nat)
    requires |s.w.pool.ring.slots| > 0 && KernelNext(c, s, step, s') && Posting(step)
    ensures Logged(c, s, x, k, s')
  {
    k := 0;
    match step
    case KernelAccept(res) => x := Cqe(Some(Accepting(c)), res, false, false, None);
    case KernelSend(ctx, res, notify) => x, k := SendLogs(c, s, step, s');
    case KernelNotif(ctx, res) => x, k := SendLogs(c, s, step, s');
    case KernelRecv(ctx, res) => x := Cqe(Some(ctx), res, false, false, None);
    case KernelData(ctx, res) => x := TakesLogs(c, s, ctx, res, true, s');
    case KernelEnd(ctx, res, withBuffer) =>
      if withBuffer { x := TakesLogs(c, s, ctx, res, false, s'); } else { x := Cqe(Some(ctx), res, false, false, None); }
  }

  lemma TransfersLogged(j: Journal<Cqe>, x: Cqe, n: nat, k: nat)
    ensures Sum(Log(j, x, n, k).transfers) == Sum(j.transfers) + n
    ensures |Log(j, x, n, k).transfers| == |j.transfers| + if n > 0 then 1 else 0
  {
    SumAppend(j.transfers, n);
  }

  lemma TotalsAppend(c: Config, xs: seq<Cqe>, x: Cqe)
    ensures Total(xs + [x], BytesOf(c)) == Total(xs, BytesOf(c)) + BytesOf(c)(x)
    ensures Total(xs + [x], TransferOf(c)) == Total(xs, TransferOf(c)) + TransferOf(c)(x)
    ensures Total(xs + [x], NotifOf) == Total(xs, NotifOf) + NotifOf(x)
    ensures Total(xs + [x], FailureOf(c)) == Total(xs, FailureOf(c)) + FailureOf(c)(x)
    ensures Bag(xs + [x], NewFd) == Bag(xs, NewFd) + NewFd(x)
  {
    TotalAppend(xs, x, BytesOf(c));
    TotalAppend(xs, x, TransferOf(c));
    TotalAppend(xs, x, NotifOf);
    TotalAppend(xs, x, FailureOf(c));
    BagAppend(xs, x, NewFd);
  }

  lemma LoggedBalances(c: Config, s: State, x: Cqe, k: nat, s': State)
    requires Balanced(c, s) && Logged(c, s, x, k, s')
    ensures Balanced(c, s')
  {
    assert s.seen + s'.cq == (s.seen + s.cq) + [x];
    TotalsAppend(c, s.cq, x);
    TotalsAppend(c, s.j.posted, x);
    TransfersLogged(s.j, x, BytesOf(c)(x), k);
    Regroup(s.w.accepted, Bag(s.cq, NewFd), NewFd(x));
  }

  // ------------------------------------------------- one completion processed

  /** The worker counts a completion for what it is. */
  ghost predicate Counted(c: Config, w: Worker, x: Cqe, w': Worker) {
    && w'.stats.bytes == w.stats.bytes + BytesOf(c)(x) && w'.stats.packets == w.stats.packets + TransferOf(c)(x)
    && w'.stats.zc == w.stats.zc + NotifOf(x) && w'.stats.errors == w.stats.errors + FailureOf(c)(x)
    && w'.accepted == w.accepted + NewFd(x)
  }

  lemma EndCounts(w: Worker, fd: int, res: int, free: bool)
    ensures var w' := EndSession(w, fd, res, free);
      w'.accepted == w.accepted && w'.stats == if res < 0 then w.stats.AddError() else w.stats
  {
  }

  lemma BaseCounts(c: Config, w: Worker, x: Cqe, env: Env)
    requires |w.pool.ring.slots| > 0 && CqeShape(c, x)
    ensures Counted(c, w, x, Base(c, w, x, env))
  {
    if x.ctx.value.kind.Recv? { RecvCounts(c, w, x, env); }
  }

  lemma RecvCounts(c: Config, w: Worker, x: Cqe, env: Env)
    requires |w.pool.ring.slots| > 0 && CqeShape(c, x) && x.ctx.value.kind.Recv?
    ensures Counted(c, w, x, Base(c, w, x, env))
  {
    if c.multishot {
      EndCounts(Took(w, x), x.ctx.value.fd, x.res, false);
    } else {
      EndCounts(w, x.ctx.value.fd, x.res, true);
    }
  }

  lemma ProcessCounts(c: Config, w: Worker, x: Cqe, env: Env)
    requires |w.pool.ring.slots| > 0 && CqeShape(c, x)
    ensures Counted(c, w, x, Process(c, w, x, env))
  {
    BaseCounts(c, w, x, env);
    PrepAllAdds(c, Base(c, w, x, env), Preps(c, w, x, env));
  }

  lemma CountedBalances(c: Config, s: State, s': State)
    requires Balanced(c, s) && s.cq != [] && Counted(c, s.w, s.cq[0], s'.w)
    requires s'.cq == s.cq[1..] && s'.seen == s.seen + [s.cq[0]] && s'.j == s.j && s'.notifs == s.notifs
    ensures Balanced(c, s')
  {
    var x, tail := s.cq[0], s.cq[1..];
    assert (s.seen + [x]) + tail == s.seen + s.cq;
    Regroup(s.w.accepted, NewFd(x), Bag(tail, NewFd));
  }

  lemma ProcessBalances(c: Config, s: State, env: Env)
    requires Inv(c, s) && Balanced(c, s) && s.phase.Batch? && s.phase.left > 0 && s.cq != []
    ensures Balanced(c, Processed(c, s, env))
  {
    TailShape(c, s.cq);
    ProcessCounts(c, s.w, s.cq[0], env);
    CountedBalances(c, s, Processed(c, s, env));
  }

  lemma StepBalances(c: Config, s: State, step: Step, s': State)
    requires Inv(c, s) && Balanced(c, s) && Next(c, s, step, s')
    ensures Balanced(c, s')
  {
    if Posting(step) {
      var x, k := KernelLogs(c, s, step, s');
      LoggedBalances(c, s, x, k, s');
    } else if step.ProcessOne? {
      ProcessBalances(c, s, Env(s.clock, s.stop, step.hs, step.addr));
    } else {
      OthersBalance(c, s, step, s');
    }
  }

  lemma OthersBalance(c: Config, s: State, step: Step, s': State)
    requires |s.w.pool.ring.slots| > 0 && Balanced(c, s) && Next(c, s, step, s') && !Posting(step) && !step.ProcessOne?
    ensures Balanced(c, s')
  {
    OthersKeepBooks(c, s, step, s');
  }

  lemma OthersKeepBooks(c: Config, s: State, step: Step, s': State)
    requires |s.w.pool.ring.slots| > 0 && Next(c, s, step, s') && !Posting(step) && !step.ProcessOne?
    ensures s'.cq == s.cq && s'.seen == s.seen && s'.j == s.j && s'.notifs == s.notifs
    ensures s'.w.stats == s.w.stats && s'.w.accepted == s.w.accepted
  {
  }

  lemma InitBalanced(c: Config, s: State)
    requires Init(c, s)
    ensures Balanced(c, s)
  {
    EmptyBalanced(c, s);
  }

  lemma EmptyBalanced(c: Config, s: State)
    requires s.cq == [] && s.seen == [] && s.j == Journal([], [], 0) && s.notifs == multiset{}
    requires s.w.stats == ZERO && s.w.accepted == multiset{}
    ensures Balanced(c, s)
  {
  }

  lemma ReachableBalanced(c: Config, s: State)
    requires Reachable(c, s)
    ensures Inv(c, s) && Balanced(c, s)
  {
    var inv := (s: State) => Inv(c, s) && Balanced(c, s);
    forall s | Starts(c)(s) ensures inv(s) {
      InitHolds(c, s);
      InitBalanced(c, s);
    }
    forall s, step, s' | inv(s) && Steps(c)(s, step, s') ensures inv(s') {
      StepKeeps(c, s, step, s');
      StepBalances(c, s, step, s');
    }
    Always(Starts(c), Steps(c), inv, s);
  }

  // ------------------------------------------------------------ main theorems

  /** In every run what has been counted and what waits in the completion queue
      make up what the kernel transferred, announced and reported. */
  lemma CountsWhatMoved(c: Config, s: State)
    requires Reachable(c, s)
    ensures s.j.posted == s.seen + s.cq
    ensures s.w.stats.bytes + Total(s.cq, BytesOf(c)) == Sum(s.j.transfers)
    ensures s.w.stats.packets + Total(s.cq, TransferOf(c)) == |s.j.transfers|
    ensures s.w.stats.zc + Total(s.cq, NotifOf) + |s.notifs| == s.j.announced
    ensures s.w.stats.errors + Total(s.cq, FailureOf(c)) == Total(s.j.posted, FailureOf(c))
  {
    ReachableBalanced(c, s);
  }

  /** The descriptors the kernel ever handed out have been closed, belong to a
      session, or wait in an unread accept completion; so once the worker has
      quit, exactly the waiting ones are left open. */
  lemma LeftOpen(c: Config, s: State)
    requires Reachable(c, s)
    ensures Bag(s.j.posted, NewFd) == s.w.closed + multiset(s.w.sessions.Keys) + Bag(s.cq, NewFd)
    ensures s.phase.Done? ==> Bag(s.j.posted, NewFd) == s.w.closed + Bag(s.cq, NewFd)
    ensures forall fd :: fd in Bag(s.cq, NewFd) ==> fd in s.w.open
  {
    ReachableBalanced(c, s);
    forall fd | fd in Bag(s.cq, NewFd) ensures fd in s.w.open { PendingIsOpen(c, s.w, s.cq, fd); }
  }

  lemma {:induction false} PendingIsOpen(c: Config, w: Worker, cq: seq<Cqe>, fd: int)
    requires FdsApart(c, w, cq) && fd in Bag(cq, NewFd)
    ensures fd in w.open
  {
    if fd !in NewFd(cq[0]) {
      PendingIsOpen(c, w, cq[1..], fd);
    } else {
      assert IsNewConnection(cq[0]);
    }
  }
}
