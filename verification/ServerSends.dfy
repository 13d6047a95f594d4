/** How many sends a reverse session has under way. A session's contexts are
    found again by descriptor only, so sends left over from a swept session
    count for whatever reverse session its descriptor is given to next. */
module ServerSends {
  import opened Uring
  import opened Bags
  import opened Runs
  import opened ServerModel
  import opened ServerOwnership
  import opened ServerBudget

  /** The outstanding sends on a descriptor with a slot below `n`. */
  function Live(toks: multiset<Ctx>, fd: int, n: nat): nat {
    if n == 0 then 0 else Live(toks, fd, n - 1) + toks[SendCtx(fd, n - 1)]
  }

  function LiveSends(c: Config, s: State, fd: int): nat { Live(Tokens(s), fd, c.inFlight) }

  /** No send on `fd` is outstanding. */
  ghost predicate Clean(toks: multiset<Ctx>, fd: int) {
    forall t :: t in toks && t.kind.Send? ==> t.fd != fd
  }

  /** The step admits a reverse session. */
  predicate Admits(s: State, step: Step) {
    && step.ProcessOne? && step.hs.Agreed? && step.hs.reverse
    && s.cq != [] && s.cq[0].ctx.Some? && s.cq[0].ctx.value.kind.Accept? && s.cq[0].res >= 0
  }

  /** Every reverse session of the run is admitted on a descriptor without sends
      left over. */
  ghost predicate CleanRun(ss: seq<State>, steps: seq<Step>)
    requires |ss| > |steps|
  {
    forall i :: 0 <= i < |steps| && Admits(ss[i], steps[i]) ==> Clean(Tokens(ss[i]), ss[i].cq[0].res)
  }

  ghost predicate Bounded(c: Config, s: State) { forall fd :: LiveSends(c, s, fd) <= c.inFlight }

  // ---------------------------------------------------------------- counting

  lemma {:induction false} LiveAdds(a: multiset<Ctx>, b: multiset<Ctx>, fd: int, n: nat)
    ensures Live(a + b, fd, n) == Live(a, fd, n) + Live(b, fd, n)
  {
    if n > 0 { LiveAdds(a, b, fd, n - 1); }
  }

  lemma {:induction false} LiveZero(a: multiset<Ctx>, fd: int, n: nat)
    requires Clean(a, fd)
    ensures Live(a, fd, n) == 0
  {
    if n > 0 {
      LiveZero(a, fd, n - 1);
      assert SendCtx(fd, n - 1).kind.Send?;
    }
  }

  lemma {:induction false} LiveSome(a: multiset<Ctx>, fd: int, slot: nat, n: nat)
    requires SendCtx(fd, slot) in a && slot < n
    ensures Live(a, fd, n) > 0
  {
    if slot < n - 1 { LiveSome(a, fd, slot, n - 1); }
  }

  lemma {:induction false} LiveWithin(a: multiset<Ctx>, b: multiset<Ctx>, fd: int, n: nat)
    requires a <= b
    ensures Live(a, fd, n) <= Live(b, fd, n)
  {
    if n > 0 { LiveWithin(a, b, fd, n - 1); }
  }

  /** Each slot of a pool once. */
  lemma {:induction false} PoolCount(fd: int, n: nat, i: nat)
    ensures multiset(Pooled(Send, fd, n))[SendCtx(fd, i)] == if i < n then 1 else 0
  {
    if n > 0 {
      PoolCount(fd, n - 1, i);
      assert Pooled(Send, fd, n) == Pooled(Send, fd, n - 1) + [SendCtx(fd, n - 1)];
    } else {
      assert Pooled(Send, fd, n) == [];
    }
  }

  lemma {:induction false} LivePool(fd: int, n: nat, k: nat)
    requires k <= n
    ensures Live(multiset(Pooled(Send, fd, n)), fd, k) == k
  {
    if k > 0 {
      LivePool(fd, n, k - 1);
      PoolCount(fd, n, k - 1);
    }
  }

  // ------------------------------------------------- clean admissions suffice

  /** What a completion prepares weighs no more than what it retires, except for
      the pool of an admitted reverse session. */
  lemma PrepsOf(c: Config, w: Worker, x: Cqe, env: Env, fd: int)
    requires CqeShape(c, x)
    requires x.ctx.value.kind.Accept? && x.res == fd >= 0 ==> env.hs.Refused? || !env.hs.reverse
    ensures Live(multiset(Preps(c, w, x, env)), fd, c.inFlight) <= Live(TokenOf(x), fd, c.inFlight)
  {
    var ps := Preps(c, w, x, env);
    if x.ctx.value.kind.Send? {
      if ps != [] {
        assert multiset(ps) <= TokenOf(x);
        LiveWithin(multiset(ps), TokenOf(x), fd, c.inFlight);
      } else {
        assert multiset(ps) == multiset{};
        LiveZero(multiset(ps), fd, c.inFlight);
      }
    } else {
      assert forall t :: t in ps && t.kind.Send? ==> t.fd != fd;
      LiveZero(multiset(ps), fd, c.inFlight);
    }
  }

  lemma LiveAfter(c: Config, s: State, env: Env, s': State, fd: int)
    requires |s.w.pool.ring.slots| > 0 && s.cq != []
    requires s'.w == Process(c, s.w, s.cq[0], env) && s'.cq == s.cq[1..] && s'.inflight == s.inflight
    ensures LiveSends(c, s, fd) == Live(Rest(s), fd, c.inFlight) + Live(TokenOf(s.cq[0]), fd, c.inFlight)
    ensures LiveSends(c, s', fd) <= Live(Rest(s), fd, c.inFlight) + Live(multiset(Preps(c, s.w, s.cq[0], env)), fd, c.inFlight)
  {
    var ps := Preps(c, s.w, s.cq[0], env);
    TokensSplit(s);
    ProcessTokens(c, s, env, s');
    LiveAdds(Rest(s), TokenOf(s.cq[0]), fd, c.inFlight);
    LivePrefix(Rest(s), ps, Room(c, |s.w.sq|, |ps|), fd, c.inFlight);
  }

  lemma LivePrefix(rest: multiset<Ctx>, ps: seq<Ctx>, k: nat, fd: int, n: nat)
    requires k <= |ps|
    ensures Live(rest + multiset(ps[..k]), fd, n) <= Live(rest, fd, n) + Live(multiset(ps), fd, n)
  {
    LiveAdds(rest, multiset(ps[..k]), fd, n);
    assert ps == ps[..k] + ps[k..];
    LiveWithin(multiset(ps[..k]), multiset(ps), fd, n);
  }

  /** An admitted pool on a clean descriptor. */
  lemma AdmittedWithin(c: Config, s: State, env: Env, s': State, fd: int)
    requires |s.w.pool.ring.slots| > 0 && s.cq != [] && Clean(Tokens(s), fd)
    requires s'.w == Process(c, s.w, s.cq[0], env) && s'.cq == s.cq[1..] && s'.inflight == s.inflight
    requires s.cq[0].ctx == Some(Accepting(c)) && s.cq[0].res == fd >= 0 && env.hs.Agreed? && env.hs.reverse
    ensures LiveSends(c, s', fd) <= c.inFlight
  {
    LiveAfter(c, s, env, s', fd);
    LiveZero(Tokens(s), fd, c.inFlight);
    ReversePreps(c, s.w, s.cq[0], env);
    PoolWeight(Accepting(c), fd, c.inFlight);
  }

  lemma PoolWeight(acc: Ctx, fd: int, n: nat)
    requires acc.kind.Accept?
    ensures Live(multiset(Pooled(Send, fd, n) + [acc]), fd, n) == n
  {
    var pool := multiset(Pooled(Send, fd, n));
    assert multiset(Pooled(Send, fd, n) + [acc]) == pool + multiset{acc};
    LiveAdds(pool, multiset{acc}, fd, n);
    LiveZero(multiset{acc}, fd, n);
    LivePool(fd, n, n);
  }

  lemma ProcessBounded(c: Config, s: State, env: Env, s': State)
    requires Processes(c, s, env, s') && Bounded(c, s) && CqeShape(c, s.cq[0])
    requires s.cq[0].ctx.value.kind.Accept? ==> s.cq[0].ctx == Some(Accepting(c))
    requires s.cq[0].ctx.value.kind.Accept? && s.cq[0].res >= 0 && env.hs.Agreed? && env.hs.reverse ==>
      Clean(Tokens(s), s.cq[0].res)
    ensures Bounded(c, s')
  {
    var x := s.cq[0];
    forall fd ensures LiveSends(c, s', fd) <= c.inFlight {
      assert LiveSends(c, s, fd) <= c.inFlight;
      if x.ctx.value.kind.Accept? && x.res == fd >= 0 && env.hs.Agreed? && env.hs.reverse {
        AdmittedWithin(c, s, env, s', fd);
      } else {
        LiveAfter(c, s, env, s', fd);
        PrepsOf(c, s.w, x, env, fd);
      }
    }
  }

  lemma HeadIsAccept(c: Config, s: State)
    requires Inv(c, s) && !s.phase.Done? && s.cq != []
    ensures CqeShape(c, s.cq[0])
    ensures s.cq[0].ctx.value.kind.Accept? ==> s.cq[0].ctx == Some(Accepting(c))
  {
    TailShape(c, s.cq);
    if s.cq[0].ctx.value.kind.Accept? { HeadAccept(c, s); }
  }

  lemma StepBounded(c: Config, s: State, step: Step, s': State)
    requires Inv(c, s) && Bounded(c, s) && Next(c, s, step, s')
    requires Admits(s, step) ==> Clean(Tokens(s), s.cq[0].res)
    ensures Bounded(c, s')
  {
    if step.ProcessOne? {
      StepProcesses(c, s, step, s');
      HeadIsAccept(c, s);
      ProcessBounded(c, s, Env(s.clock, s.stop, step.hs, step.addr), s');
    } else {
      OthersKeepTokens(c, s, step, s');
      forall fd ensures LiveSends(c, s', fd) <= c.inFlight { assert LiveSends(c, s, fd) <= c.inFlight; }
    }
  }

  /** Only processing changes what is outstanding. */
  lemma OthersKeepTokens(c: Config, s: State, step: Step, s': State)
    requires |s.w.pool.ring.slots| > 0 && Next(c, s, step, s') && !step.ProcessOne?
    ensures Tokens(s') == Tokens(s)
  {
    if KernelNext(c, s, step, s') {
      if Posting(step) {
        var x := KernelPosts(c, s, step, s');
        PostKeepsTokens(s, x, s');
      }
    }
  }

  /** What processing does to the queues. */
  ghost predicate Processes(c: Config, s: State, env: Env, s': State) {
    && |s.w.pool.ring.slots| > 0 && s.phase.Batch? && s.phase.left > 0 && s.cq != []
    && s'.w == Process(c, s.w, s.cq[0], env) && s'.cq == s.cq[1..] && s'.inflight == s.inflight
  }

  lemma StepProcesses(c: Config, s: State, step: Step, s': State)
    requires |s.w.pool.ring.slots| > 0 && Next(c, s, step, s') && step.ProcessOne?
    ensures Processes(c, s, Env(s.clock, s.stop, step.hs, step.addr), s')
  {
  }

  lemma InitBounded(c: Config, s: State)
    requires Init(c, s)
    ensures Inv(c, s) && Bounded(c, s)
  {
    InitHolds(c, s);
    assert Bag(s.cq, TokenOf) == multiset{};
    assert Clean(Tokens(s), c.listenFd) && forall t :: t in Tokens(s) ==> t == Accepting(c);
    forall fd ensures LiveSends(c, s, fd) <= c.inFlight { LiveZero(Tokens(s), fd, c.inFlight); }
  }

  ghost function CleanStep(): (State, Step) -> bool {
    (s: State, step: Step) => Admits(s, step) ==> Clean(Tokens(s), s.cq[0].res)
  }

  lemma CleanRunBounded(c: Config, ss: seq<State>, steps: seq<Step>, i: nat)
    requires IsRun(c, ss, steps) && CleanRun(ss, steps) && i < |ss|
    ensures Bounded(c, ss[i])
  {
    var inv := (s: State) => Inv(c, s) && Bounded(c, s);
    forall s | Starts(c)(s) ensures inv(s) { InitBounded(c, s); }
    forall s, step, s' | inv(s) && CleanStep()(s, step) && Steps(c)(s, step, s') ensures inv(s') {
      StepKeeps(c, s, step, s');
      StepBounded(c, s, step, s');
    }
    forall j | 0 <= j < |steps| ensures CleanStep()(ss[j], steps[j]) {}
    ThroughoutWhere(Starts(c), Steps(c), CleanStep(), inv, ss, steps, i);
  }

  // ------------------------------------------------ and they are necessary

  /** Sends only use the slots of a pool. */
  ghost predicate Slotted(c: Config, toks: multiset<Ctx>) {
    forall t :: t in toks && t.kind.Send? ==> t.slot < c.inFlight && t == SendCtx(t.fd, t.slot)
  }

  lemma PrepsSlotted(c: Config, w: Worker, x: Cqe, env: Env)
    requires CqeShape(c, x) && Slotted(c, TokenOf(x))
    ensures Slotted(c, multiset(Preps(c, w, x, env)))
  {
  }

  lemma ProcessSlotted(c: Config, s: State, env: Env, s': State)
    requires |s.w.pool.ring.slots| > 0 && s.cq != [] && CqeShape(c, s.cq[0]) && Slotted(c, Tokens(s))
    requires s'.w == Process(c, s.w, s.cq[0], env) && s'.cq == s.cq[1..] && s'.inflight == s.inflight
    ensures Slotted(c, Tokens(s'))
  {
    var ps := Preps(c, s.w, s.cq[0], env);
    var k := Room(c, |s.w.sq|, |ps|);
    TokensSplit(s);
    ProcessTokens(c, s, env, s');
    PrepsSlotted(c, s.w, s.cq[0], env);
    assert forall t :: t in ps[..k] ==> t in multiset(ps);
  }

  lemma StepSlotted(c: Config, s: State, step: Step, s': State)
    requires |s.w.pool.ring.slots| > 0 && Slotted(c, Tokens(s)) && Next(c, s, step, s')
    requires !s.phase.Done? && s.cq != [] ==> CqeShape(c, s.cq[0])
    ensures Slotted(c, Tokens(s'))
  {
    if step.ProcessOne? {
      StepProcesses(c, s, step, s');
      ProcessSlotted(c, s, Env(s.clock, s.stop, step.hs, step.addr), s');
    } else {
      OthersKeepTokens(c, s, step, s');
    }
  }

  lemma HeadShape(c: Config, s: State)
    requires Inv(c, s)
    ensures !s.phase.Done? && s.cq != [] ==> CqeShape(c, s.cq[0])
  {
  }

  lemma InitSlotted(c: Config, s: State)
    requires Init(c, s)
    ensures Inv(c, s) && Slotted(c, Tokens(s))
  {
    InitHolds(c, s);
    assert Bag(s.cq, TokenOf) == multiset{};
  }

  lemma ReachableSlotted(c: Config, s: State)
    requires Reachable(c, s)
    ensures Inv(c, s) && Slotted(c, Tokens(s))
  {
    var inv := (s: State) => Inv(c, s) && Slotted(c, Tokens(s));
    forall s | Starts(c)(s) ensures inv(s) { InitSlotted(c, s); }
    forall s, step, s' | inv(s) && Steps(c)(s, step, s') ensures inv(s') {
      StepKeeps(c, s, step, s');
      HeadShape(c, s);
      StepSlotted(c, s, step, s');
    }
    Always(Starts(c), Steps(c), inv, s);
  }

  /** Admitting a reverse session where a send is left over exceeds the bound at
      once, if the queue has room for the whole pool. */
  lemma Overbooks(c: Config, s: State, env: Env, s': State, t: Ctx)
    requires |s.w.pool.ring.slots| > 0 && s.cq != [] && t in Tokens(s) && t == SendCtx(t.fd, t.slot) && t.slot < c.inFlight
    requires s'.w == Process(c, s.w, s.cq[0], env) && s'.cq == s.cq[1..] && s'.inflight == s.inflight
    requires s.cq[0].ctx == Some(Accepting(c)) && s.cq[0].res == t.fd >= 0 && env.hs.Agreed? && env.hs.reverse
    requires |s.w.sq| + c.inFlight + 1 <= c.capacity
    ensures LiveSends(c, s', t.fd) > c.inFlight
  {
    TokensSplit(s);
    StillThere(Rest(s), s.cq[0].ctx.value, t);
    TokensAdmitted(c, s, env, s');
    PoolOnTop(Rest(s), Accepting(c), t.fd, t.slot, c.inFlight);
  }

  lemma TokensAdmitted(c: Config, s: State, env: Env, s': State)
    requires |s.w.pool.ring.slots| > 0 && s.cq != [] && |s.w.sq| + c.inFlight + 1 <= c.capacity
    requires s'.w == Process(c, s.w, s.cq[0], env) && s'.cq == s.cq[1..] && s'.inflight == s.inflight
    requires s.cq[0].ctx == Some(Accepting(c)) && s.cq[0].res >= 0 && env.hs.Agreed? && env.hs.reverse
    ensures Tokens(s') == Rest(s) + multiset(Pooled(Send, s.cq[0].res, c.inFlight) + [Accepting(c)])
  {
    var ps := Pooled(Send, s.cq[0].res, c.inFlight) + [Accepting(c)];
    ReversePreps(c, s.w, s.cq[0], env);
    ProcessTokens(c, s, env, s');
    assert ps[..|ps|] == ps;
  }

  lemma ReversePreps(c: Config, w: Worker, x: Cqe, env: Env)
    requires x.ctx == Some(Accepting(c)) && x.res >= 0 && env.hs.Agreed? && env.hs.reverse
    ensures Preps(c, w, x, env) == Pooled(Send, x.res, c.inFlight) + [Accepting(c)]
    ensures TokenOf(x) == if x.notif then multiset{} else multiset{Accepting(c)}
  {
  }

  lemma StillThere(rest: multiset<Ctx>, acc: Ctx, t: Ctx)
    requires acc.kind.Accept? && t.kind.Send? && (t in rest + multiset{acc} || t in rest + multiset{})
    ensures t in rest
  {
  }

  lemma PoolOnTop(rest: multiset<Ctx>, acc: Ctx, fd: int, slot: nat, n: nat)
    requires SendCtx(fd, slot) in rest && slot < n && acc.kind.Accept?
    ensures Live(rest + multiset(Pooled(Send, fd, n) + [acc]), fd, n) > n
  {
    LiveSome(rest, fd, slot, n);
    LiveAdds(rest, multiset(Pooled(Send, fd, n) + [acc]), fd, n);
    PoolWeight(acc, fd, n);
  }

  /** With that depth the pool of an accept about to be processed fits. */
  lemma PoolFits(c: Config, s: State)
    requires c.inFlight > 0 && c.capacity >= 2 * c.inFlight && Inv(c, s) && Budget(c, s)
    requires s.phase.Batch? && s.phase.left > 0 && s.cq != [] && s.cq[0].ctx.Some? && s.cq[0].ctx.value.kind.Accept?
    ensures s.cq[0].ctx == Some(Accepting(c)) && |s.w.sq| + c.inFlight + 1 <= c.capacity
  {
    HeadAccept(c, s);
    AcceptUnreadNotQueued(c, s);
  }

  lemma UncleanOverbooks(c: Config, s: State, env: Env, s': State)
    requires Slotted(c, Tokens(s)) && Processes(c, s, env, s') && s.cq[0].ctx == Some(Accepting(c)) && s.cq[0].res >= 0
    requires env.hs.Agreed? && env.hs.reverse && |s.w.sq| + c.inFlight + 1 <= c.capacity
    requires !Clean(Tokens(s), s.cq[0].res)
    ensures LiveSends(c, s', s.cq[0].res) > c.inFlight
  {
    var t :| t in Tokens(s) && t.kind.Send? && t.fd == s.cq[0].res;
    Overbooks(c, s, env, s', t);
  }

  lemma BoundedClean(c: Config, s: State, env: Env, s': State)
    requires c.inFlight > 0 && c.capacity >= 2 * c.inFlight && Reachable(c, s) && Processes(c, s, env, s')
    requires s.cq[0].ctx.Some? && s.cq[0].ctx.value.kind.Accept? && s.cq[0].res >= 0 && env.hs.Agreed? && env.hs.reverse
    requires LiveSends(c, s', s.cq[0].res) <= c.inFlight
    ensures Clean(Tokens(s), s.cq[0].res)
  {
    ReachableSlotted(c, s);
    ReachableBudget(c, s);
    PoolFits(c, s);
    if !Clean(Tokens(s), s.cq[0].res) { UncleanOverbooks(c, s, env, s'); }
  }

  lemma BoundedRunClean(c: Config, ss: seq<State>, steps: seq<Step>)
    requires c.inFlight > 0 && c.capacity >= 2 * c.inFlight && IsRun(c, ss, steps)
    requires forall i :: 0 <= i < |ss| ==> Bounded(c, ss[i])
    ensures CleanRun(ss, steps)
  {
    forall i | 0 <= i < |steps| && Admits(ss[i], steps[i]) ensures Clean(Tokens(ss[i]), ss[i].cq[0].res) {
      ChainStep(Steps(c), ss, steps, i);
      OnRun(Starts(c), Steps(c), ss, steps, i);
      StepProcesses(c, ss[i], steps[i], ss[i + 1]);
      assert LiveSends(c, ss[i + 1], ss[i].cq[0].res) <= c.inFlight;
      BoundedClean(c, ss[i], Env(ss[i].clock, ss[i].stop, steps[i].hs, steps[i].addr), ss[i + 1]);
    }
  }

  /** With a queue deep enough for every preparation, a run keeps every
      descriptor within `inFlight` sends exactly when it admits each reverse
      session on a descriptor that has no sends left over. */
  lemma SendsBoundedIffClean(c: Config, ss: seq<State>, steps: seq<Step>)
    requires c.inFlight > 0 && c.capacity >= 2 * c.inFlight && IsRun(c, ss, steps)
    ensures (forall i, fd :: 0 <= i < |ss| ==> LiveSends(c, ss[i], fd) <= c.inFlight) <==> CleanRun(ss, steps)
  {
    if CleanRun(ss, steps) {
      forall i, fd | 0 <= i < |ss| ensures LiveSends(c, ss[i], fd) <= c.inFlight {
        CleanRunBounded(c, ss, steps, i);
      }
    }
    if forall i, fd :: 0 <= i < |ss| ==> LiveSends(c, ss[i], fd) <= c.inFlight {
      BoundedRunClean(c, ss, steps);
    }
  }

  // -------------------------------------------------------- a run that exceeds

  /** A reverse session has been swept at its deadline with all its sends still
      with the kernel. */
  lemma ReachSwept(c: Config) returns (s: State)
    requires c.inFlight > 0 && c.inFlight < c.capacity && c.listenFd >= 0
    ensures Reachable(c, s) && |s.w.pool.ring.slots| > 0 && s.phase.Head? && !s.stop && s.cq == [] && s.w.sq == []
    ensures s.w.sessions == map[] && Peer(c) !in s.w.open
    ensures Accepting(c) in s.inflight && SendCtx(Peer(c), 0) in s.inflight
  {
    var t := ReachSent(c, 0);
    var u := t.(clock := 1);
    Extend(c, t, Tick(1), u);
    var gone := ExpiredIn(u.w.sessions, 1);
    assert gone.Keys == {Peer(c)};
    s := SweepStep(c, u);
    s := ReapStep(c, s, 0);
  }

  /** The descriptor comes back and is given to another reverse session, which
      then has more than `inFlight` sends under way. */
  lemma OverbookedRun(c: Config) returns (s: State)
    requires c.inFlight > 0 && c.inFlight < c.capacity && c.listenFd >= 0
    ensures Reachable(c, s) && LiveSends(c, s, Peer(c)) > c.inFlight
  {
    var v := ReachReused(c);
    s := ProcessHead(c, v, REVERSE);
    assert SendCtx(Peer(c), 0) in Tokens(v);
    Overbooks(c, v, Env(v.clock, v.stop, REVERSE, 0), s, SendCtx(Peer(c), 0));
  }

  /** The descriptor has come back and its accept has been harvested. */
  lemma ReachReused(c: Config) returns (s: State)
    requires c.inFlight > 0 && c.inFlight < c.capacity && c.listenFd >= 0
    ensures Reachable(c, s) && |s.w.pool.ring.slots| > 0 && s.phase == Batch(1) && s.w.sq == [] && s.w.sessions == map[]
    ensures s.cq == [AcceptedCqe(c, Peer(c))] && SendCtx(Peer(c), 0) in s.inflight
  {
    var t := ReachSwept(c);
    var u := NewConnection(c, t, Peer(c));
    s := Harvest(c, u, 1);
  }
}
