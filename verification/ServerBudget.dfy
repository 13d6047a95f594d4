/** How deep the submission queue must be for the server never to lose an
    operation: the return values of the `prep_*` calls are ignored, so a full
    queue would silently drop an accept, a send or a receive. */
module ServerBudget {
  import opened Uring
  import opened ProvidedBuffers
  import opened Stats
  import opened Bags
  import opened Runs
  import opened ServerModel
  import opened ServerOwnership

  // ------------------------------------------------------------ the bound holds

  /** Nothing has failed; between batches the queue is empty; inside a batch the
      queue and the completions left fit `inFlight`, or twice that once the one
      accept of the batch has been processed and waits in the queue again. */
  ghost predicate Budget(c: Config, s: State) {
    && s.w.failed == 0
    && (s.phase.Head? || s.phase.Swept? ==> s.w.sq == [])
    && (s.phase.Batch? ==>
          && s.phase.left <= |s.cq|
          && |s.w.sq| + s.phase.left <= (if Accepting(c) in s.w.sq then 2 * c.inFlight else c.inFlight))
  }

  /** What one completion may prepare. */
  lemma PrepsBound(c: Config, w: Worker, x: Cqe, env: Env)
    requires CqeShape(c, x) && c.inFlight > 0
    ensures x.ctx.value.kind.Accept? ==> |Preps(c, w, x, env)| <= c.inFlight + 1 && Accepting(c) in Preps(c, w, x, env)
    ensures !x.ctx.value.kind.Accept? ==> |Preps(c, w, x, env)| <= 1
    ensures !x.ctx.value.kind.Accept? ==> forall p :: p in Preps(c, w, x, env) ==> !p.kind.Accept?
  {
  }

  /** While an accept completion is unread, no accept waits in the queue. */
  lemma AcceptUnreadNotQueued(c: Config, s: State)
    requires s.cq != [] && CqShape(c, s.cq) && AcceptInv(Accepting(c), Tokens(s), s.w.failed)
    requires s.cq[0].ctx.Some? && s.cq[0].ctx.value.kind.Accept?
    ensures Accepting(c) !in s.w.sq
  {
    HeadAccept(c, s);
    TailShape(c, s.cq);
    TokensSplit(s);
    var acc := Accepting(c);
    assert acc in Tokens(s) && Tokens(s)[acc] == Rest(s)[acc] + 1;
    assert Rest(s)[acc] >= multiset(s.w.sq)[acc];
  }

  /** With that depth every preparation of a batch finds a slot. */
  lemma BatchFits(c: Config, s: State, env: Env)
    requires c.inFlight > 0 && c.capacity >= 2 * c.inFlight
    requires Inv(c, s) && Budget(c, s) && s.phase.Batch? && s.phase.left > 0
    ensures |s.w.sq| + |Preps(c, s.w, s.cq[0], env)| <= c.capacity
  {
    var x := s.cq[0];
    TailShape(c, s.cq);
    PrepsBound(c, s.w, x, env);
    if x.ctx.value.kind.Accept? { AcceptUnreadNotQueued(c, s); }
  }

  lemma ProcessKeepsBudget(c: Config, s: State, env: Env)
    requires c.inFlight > 0 && c.capacity >= 2 * c.inFlight
    requires Inv(c, s) && Budget(c, s) && s.phase.Batch? && s.phase.left > 0
    ensures Budget(c, Processed(c, s, env))
  {
    var x := s.cq[0];
    TailShape(c, s.cq);
    PrepsBound(c, s.w, x, env);
    if x.ctx.value.kind.Accept? { AcceptUnreadNotQueued(c, s); }
    BatchFits(c, s, env);
    ProcessFits(c, s.w, x, env);
    BaseKeepsQueue(c, s.w, x, env);
  }

  lemma StepKeepsBudget(c: Config, s: State, step: Step, s': State)
    requires c.inFlight > 0 && c.capacity >= 2 * c.inFlight
    requires Inv(c, s) && Budget(c, s) && Next(c, s, step, s')
    ensures Budget(c, s')
  {
    if KernelNext(c, s, step, s') {
      if Posting(step) { var x := KernelPosts(c, s, step, s'); }
    } else if step.ProcessOne? {
      ProcessKeepsBudget(c, s, Env(s.clock, s.stop, step.hs, step.addr));
    }
  }

  lemma InitBudget(c: Config, s: State)
    requires c.capacity > 0 && Init(c, s)
    ensures Inv(c, s) && Budget(c, s)
  {
    InitHolds(c, s);
  }

  lemma ReachableBudget(c: Config, s: State)
    requires c.inFlight > 0 && c.capacity >= 2 * c.inFlight && Reachable(c, s)
    ensures Budget(c, s)
  {
    var inv := (s: State) => Inv(c, s) && Budget(c, s);
    forall s | Starts(c)(s) ensures inv(s) { InitBudget(c, s); }
    forall s, step, s' | inv(s) && Steps(c)(s, step, s') ensures inv(s') {
      StepKeeps(c, s, step, s');
      StepKeepsBudget(c, s, step, s');
    }
    Always(Starts(c), Steps(c), inv, s);
  }

  // ---------------------------------------------------------- the bound is tight

  function Start(c: Config): State {
    Submitted(State(
      Prep(c, Worker(map[], [], 0, ONE_BUFFER, {c.listenFd}, multiset{}, multiset{}, 0, multiset{}, ZERO), Accepting(c)),
      multiset{}, multiset{}, [], Head, 0, false, [], Journal([], [], 0)))
  }

  lemma ReachStart(c: Config) returns (s: State)
    ensures Reachable(c, s) && Early(s, Head) && |s.w.pool.ring.slots| > 0
    ensures s.cq == [] && s.w.sessions == map[] && s.w.sq == [] && s.w.open == {c.listenFd}
    ensures c.capacity > 0 ==> s.w.failed == 0 && s.inflight == multiset{Accepting(c)}
    ensures c.capacity == 0 ==> s.w.failed > 0
  {
    OneBufferFilled();
    s := Start(c);
    ReachedStart(Starts(c), Steps(c), s);
  }

  /** The descriptors of a first and a second connection. */
  function Peer(c: Config): int { c.listenFd + 1 }
  function Second(c: Config): int { c.listenFd + 2 }

  function SendCtx(fd: int, i: nat): Ctx { Ctx(Send, fd, i, 0) }
  function SentCqe(fd: int, i: nat): Cqe { Cqe(Some(SendCtx(fd, i)), 1, false, false, None) }
  function SentCqes(fd: int, from: nat, to: nat): seq<Cqe>
    requires from <= to
  {
    seq(to - from, i requires 0 <= i => SentCqe(fd, from + i))
  }
  function AcceptedCqe(c: Config, fd: int): Cqe { Cqe(Some(Accepting(c)), fd, false, false, None) }

  const REVERSE := Agreed(true, 1)

  /** A worker with nothing but one reverse session, which sends until time 1. */
  ghost predicate Serving(w: Worker, fd: int) {
    && |w.pool.ring.slots| > 0 && w.failed == 0
    && w.sessions.Keys == {fd} && w.sessions[fd].reverse && w.sessions[fd].deadline == 1
    && w.sessions[fd].ms.None?
  }

  /** Time 0, not stopped, in the given phase. */
  predicate Early(s: State, phase: Phase) {
    !s.stop && s.clock == 0 && s.phase == phase
  }

  lemma NothingExpired(w: Worker, now: nat)
    requires forall fd :: fd in w.sessions ==> !Expired(w.sessions[fd], now)
    ensures Sweep(w, now) == w
  {
    var gone := ExpiredIn(w.sessions, now);
    SomeMember(gone.Keys);
    assert gone.Keys == {};
    assert w.sessions - gone.Keys == w.sessions && w.open - gone.Keys == w.open;
    assert w.closed + multiset(gone.Keys) == w.closed && w.freed + BufBag(gone) == w.freed;
  }

  lemma SweepStep(c: Config, s: State) returns (s': State)
    requires Reachable(c, s) && |s.w.pool.ring.slots| > 0 && s.phase.Head? && !s.stop
    ensures Reachable(c, s') && s' == s.(w := Sweep(s.w, s.clock), phase := Swept)
  {
    s' := s.(w := Sweep(s.w, s.clock), phase := Swept);
    Extend(c, s, Expire, s');
  }

  lemma ReapStep(c: Config, s: State, k: nat) returns (s': State)
    requires Reachable(c, s) && |s.w.pool.ring.slots| > 0 && s.phase.Swept? && k <= c.inFlight && k <= |s.cq|
    ensures Reachable(c, s') && s' == if k == 0 then Submitted(s).(phase := Head) else s.(phase := Batch(k))
  {
    s' := if k == 0 then Submitted(s).(phase := Head) else s.(phase := Batch(k));
    Extend(c, s, Reap(k), s');
  }

  /** Harvest `k` completions with no session expired. */
  lemma Harvest(c: Config, s: State, k: nat) returns (s': State)
    requires Reachable(c, s) && |s.w.pool.ring.slots| > 0 && s.phase.Head? && !s.stop
    requires forall fd :: fd in s.w.sessions ==> !Expired(s.w.sessions[fd], s.clock)
    requires 0 < k <= c.inFlight && k <= |s.cq|
    ensures Reachable(c, s') && s' == s.(phase := Batch(k))
  {
    NothingExpired(s.w, s.clock);
    s' := SweepStep(c, s);
    s' := ReapStep(c, s', k);
  }

  lemma NewConnection(c: Config, s: State, fd: int) returns (s': State)
    requires Reachable(c, s) && |s.w.pool.ring.slots| > 0 && !s.phase.Done?
    requires Accepting(c) in s.inflight && fd >= 0 && fd !in s.w.open
    ensures Reachable(c, s') && s'.w == s.w.(open := s.w.open + {fd})
    ensures s' == s.(w := s'.w, j := s'.j, cq := s.cq + [AcceptedCqe(c, fd)], inflight := s.inflight - multiset{Accepting(c)})
  {
    s' := Post(s, Accepting(c), AcceptedCqe(c, fd), 0, 0).(w := s.w.(open := s.w.open + {fd}));
    Extend(c, s, KernelAccept(fd), s');
  }

  lemma ProcessHead(c: Config, s: State, hs: Handshake) returns (s': State)
    requires Reachable(c, s) && |s.w.pool.ring.slots| > 0 && s.phase.Batch? && s.phase.left > 0 && s.cq != []
    requires FreshAddr(s.w, 0)
    ensures s' == Processed(c, s, Env(s.clock, s.stop, hs, 0)) && Reachable(c, s')
  {
    s' := Processed(c, s, Env(s.clock, s.stop, hs, 0));
    Extend(c, s, ProcessOne(hs, 0), s');
  }

  /** Accepting a reverse connection prepares a whole pool of sends. */
  lemma AdmitsReverse(c: Config, w: Worker, fd: int, env: Env)
    requires |w.pool.ring.slots| > 0 && fd >= 0 && env.hs == REVERSE && env.now == 0
    ensures var w' := Process(c, w, AcceptedCqe(c, fd), env);
      var ps := Pooled(Send, fd, c.inFlight) + [Accepting(c)];
      && (|w.sq| + c.inFlight + 1 > c.capacity ==> w'.failed > 0)
      && (|w.sq| + c.inFlight + 1 <= c.capacity && w.sessions == map[] && w.failed == 0 ==>
            Serving(w', fd) && w'.open == w.open && w'.sq == w.sq + ps)
  {
    var x := AcceptedCqe(c, fd);
    assert Preps(c, w, x, env) == Pooled(Send, fd, c.inFlight) + [Accepting(c)];
    if |w.sq| + c.inFlight + 1 <= c.capacity {
      ProcessFits(c, w, x, env);
    } else {
      ProcessQueue(c, w, x, env);
    }
  }

  /** A positive result is resubmitted while the session lasts. */
  lemma Resubmits(c: Config, w: Worker, fd: int, i: nat, env: Env)
    requires Serving(w, fd) && env.now == 0 && !env.stop && |w.sq| < c.capacity
    ensures var w' := Process(c, w, SentCqe(fd, i), env);
      Serving(w', fd) && w'.open == w.open && w'.sq == w.sq + [SendCtx(fd, i)]
  {
    assert Preps(c, w, SentCqe(fd, i), env) == [SendCtx(fd, i)];
    ProcessFits(c, w, SentCqe(fd, i), env);
  }

  /** A first connection has arrived and is about to be processed. */
  lemma ReachAccepted(c: Config) returns (s: State)
    requires c.capacity > 0 && c.inFlight > 0 && c.listenFd >= 0
    ensures Reachable(c, s) && Early(s, Batch(1)) && |s.w.pool.ring.slots| > 0
    ensures s.cq == [AcceptedCqe(c, Peer(c))] && s.inflight == multiset{}
    ensures s.w.sessions == map[] && s.w.sq == [] && s.w.failed == 0
    ensures s.w.open == {c.listenFd, Peer(c)}
  {
    var t := ReachStart(c);
    var u := NewConnection(c, t, Peer(c));
    s := Harvest(c, u, 1);
  }

  /** After the batch of the first accept, either something has failed already or
      a whole pool of sends and the accept are in the queue. */
  lemma ReachServing(c: Config) returns (s: State)
    requires c.capacity > 0 && c.inFlight > 0 && c.listenFd >= 0
    ensures Reachable(c, s)
    ensures c.capacity <= c.inFlight ==> s.w.failed > 0
    ensures c.capacity > c.inFlight ==>
      && Serving(s.w, Peer(c)) && Early(s, Batch(0)) && s.cq == [] && s.inflight == multiset{}
      && s.w.open == {c.listenFd, Peer(c)}
      && s.w.sq == Pooled(Send, Peer(c), c.inFlight) + [Accepting(c)]
  {
    var t := ReachAccepted(c);
    AdmitsReverse(c, t.w, Peer(c), Env(0, false, REVERSE, 0));
    s := ProcessHead(c, t, REVERSE);
  }

  /** The kernel completes the sends of slots 0 to k-1, in order. */
  lemma {:induction false} ReachSent(c: Config, k: nat) returns (s: State)
    requires c.inFlight < c.capacity && c.inFlight > 0 && c.listenFd >= 0 && k <= c.inFlight
    ensures Reachable(c, s) && Serving(s.w, Peer(c)) && Early(s, Head) && s.w.sq == []
    ensures s.w.open == {c.listenFd, Peer(c)}
    ensures s.cq == SentCqes(Peer(c), 0, k) && Accepting(c) in s.inflight
    ensures forall i :: k <= i < c.inFlight ==> SendCtx(Peer(c), i) in s.inflight
  {
    var fd := Peer(c);
    if k == 0 {
      var t := ReachServing(c);
      s := SubmitBatch(c, t);
      InPool(c, fd);
    } else {
      var t := ReachSent(c, k - 1);
      s := CompleteSend(c, t, SendCtx(fd, k - 1), SentCqe(fd, k - 1));
      assert s.cq == SentCqes(fd, 0, k);
    }
  }

  lemma SubmitBatch(c: Config, s: State) returns (s': State)
    requires Reachable(c, s) && |s.w.pool.ring.slots| > 0 && s.phase == Batch(0)
    ensures Reachable(c, s') && s' == Submitted(s).(phase := Head)
  {
    s' := Submitted(s).(phase := Head);
    Extend(c, s, EndBatch, s');
  }

  lemma InPool(c: Config, fd: int)
    ensures var ps := multiset(Pooled(Send, fd, c.inFlight) + [Accepting(c)]);
      Accepting(c) in ps && forall i :: 0 <= i < c.inFlight ==> SendCtx(fd, i) in ps
  {
    var ps := Pooled(Send, fd, c.inFlight) + [Accepting(c)];
    assert ps[c.inFlight] == Accepting(c);
    forall i | 0 <= i < c.inFlight ensures SendCtx(fd, i) in multiset(ps) { assert ps[i] == SendCtx(fd, i); }
  }

  lemma CompleteSend(c: Config, s: State, ctx: Ctx, x: Cqe) returns (s': State)
    requires Reachable(c, s) && |s.w.pool.ring.slots| > 0 && !s.phase.Done?
    requires ctx in s.inflight && ctx.kind.Send? && x == Cqe(Some(ctx), 1, false, false, None)
    ensures Reachable(c, s') && s' == s.(cq := s.cq + [x], j := s'.j, inflight := s.inflight - multiset{ctx})
  {
    s' := Post(s, ctx, x, 1, 0);
    Extend(c, s, KernelSend(ctx, 1, false), s');
  }

  /** A full batch (all but one of the sends, then a new connection) of which the
      worker has resubmitted the first `k` sends. */
  ghost predicate Resubmitted(c: Config, s: State, k: nat)
    requires k < c.inFlight
  {
    && Reachable(c, s) && Serving(s.w, Peer(c)) && Early(s, Batch(c.inFlight - k)) && |s.w.sq| == k
    && s.cq == SentCqes(Peer(c), k, c.inFlight - 1) + [AcceptedCqe(c, Second(c))]
  }

  lemma ReachFullBatch(c: Config) returns (s: State)
    requires c.inFlight < c.capacity && c.inFlight > 0 && c.listenFd >= 0
    ensures Resubmitted(c, s, 0)
  {
    var t := ReachSent(c, c.inFlight - 1);
    var u := NewConnection(c, t, Second(c));
    s := Harvest(c, u, c.inFlight);
  }

  lemma ResubmitOne(c: Config, t: State, k: nat) returns (s: State)
    requires c.inFlight < c.capacity && k + 1 < c.inFlight && Resubmitted(c, t, k)
    ensures Resubmitted(c, s, k + 1)
  {
    SentTail(Peer(c), k, c.inFlight - 1, AcceptedCqe(c, Second(c)));
    Resubmits(c, t.w, Peer(c), k, Env(0, false, Refused, 0));
    s := ProcessHead(c, t, Refused);
  }

  lemma SentTail(fd: int, k: nat, n: nat, last: Cqe)
    requires k < n
    ensures (SentCqes(fd, k, n) + [last])[0] == SentCqe(fd, k)
    ensures (SentCqes(fd, k, n) + [last])[1..] == SentCqes(fd, k + 1, n) + [last]
  {
  }

  lemma {:induction false} ReachResubmitted(c: Config, k: nat) returns (s: State)
    requires c.inFlight < c.capacity && c.inFlight > 0 && c.listenFd >= 0 && k < c.inFlight
    ensures Resubmitted(c, s, k)
  {
    if k == 0 {
      s := ReachFullBatch(c);
    } else {
      s := ReachResubmitted(c, k - 1);
      s := ResubmitOne(c, s, k - 1);
    }
  }

  /** With fewer than twice `inFlight` slots, some run drops an operation. */
  lemma ReachFailure(c: Config) returns (s: State)
    requires c.inFlight > 0 && c.listenFd >= 0 && c.capacity < 2 * c.inFlight
    ensures Reachable(c, s) && s.w.failed > 0
  {
    if c.capacity == 0 {
      s := ReachStart(c);
    } else if c.capacity <= c.inFlight {
      s := ReachServing(c);
    } else {
      s := ReachResubmitted(c, c.inFlight - 1);
      assert s.cq[0] == AcceptedCqe(c, Second(c));
      AdmitsReverse(c, s.w, Second(c), Env(0, false, REVERSE, 0));
      s := ProcessHead(c, s, REVERSE);
    }
  }

  /** No preparation ever fails, in any run of the server, exactly when the
      submission queue has at least twice `inFlight` slots. */
  lemma BudgetIsTight(c: Config)
    requires c.inFlight > 0 && c.listenFd >= 0
    ensures (forall s :: Reachable(c, s) ==> s.w.failed == 0) <==> c.capacity >= 2 * c.inFlight
  {
    if c.capacity >= 2 * c.inFlight {
      forall s | Reachable(c, s) ensures s.w.failed == 0 {
        ReachableBudget(c, s);
      }
    } else {
      var s := ReachFailure(c);
    }
  }

  /** With that depth the ownership of a run is exact: one accept, one receive per
      receiving session, at every point, and never more than twice `inFlight`
      operations waiting for a submit. */
  lemma DeepQueueOwnership(c: Config, s: State)
    requires c.inFlight > 0 && c.capacity >= 2 * c.inFlight && c.multishot
    requires Reachable(c, s) && !s.phase.Done?
    ensures |s.w.sq| <= 2 * c.inFlight
    ensures Tokens(s)[Accepting(c)] == 1
    ensures forall fd :: fd in s.w.sessions && !s.w.sessions[fd].reverse ==>
      s.w.sessions[fd].ms.Some? && Tokens(s)[MsCtx(fd, s.w.sessions[fd].ms.value)] == 1
  {
    ReachableBudget(c, s);
    ReceiveOwnership(c, s);
  }
}
