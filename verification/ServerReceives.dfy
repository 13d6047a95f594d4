/** The receives of a server run: how single-shot receives stay in rotation, how
    many of them a session has, and what ends a session. */
module ServerReceives {
  import opened Uring
  import opened Bags
  import opened Runs
  import opened ServerModel
  import opened ServerLedger
  import opened ServerOwnership
  import opened ServerBudget
  import opened ServerSends

  function RecvCtx(fd: int, i: nat): Ctx { Ctx(Recv, fd, i, 0) }

  predicate IsRecv(x: Cqe) { x.ctx.Some? && x.ctx.value.kind.Recv? }

  /** The completion ends its receive for good: end of file or an error. */
  predicate Ends(c: Config, x: Cqe) {
    && IsRecv(x)
    && if c.multishot then !x.more && x.res != -ENOBUFS else x.res <= 0 && x.res != -EAGAIN
  }

  // ------------------------------------------------------- what ends a session

  /** What a receive completion does to the sessions and their ledgers. */
  lemma BaseOfReceive(c: Config, w: Worker, x: Cqe, env: Env)
    requires |w.pool.ring.slots| > 0 && IsRecv(x)
    ensures var w', fd := Base(c, w, x, env), x.ctx.value.fd;
      && w'.accepted == w.accepted && w'.sessions == (if Ends(c, x) then w.sessions - {fd} else w.sessions)
      && (!Ends(c, x) || fd !in w.sessions ==> w'.closed == w.closed && w'.freed == w.freed)
      && (Ends(c, x) && fd in w.sessions ==> w'.closed == w.closed + multiset{fd})
      && (Ends(c, x) && fd in w.sessions && !c.multishot ==> w'.freed == w.freed + multiset(w.sessions[fd].buffers))
  {
  }

  /** A final receive completion ends the session of its descriptor in every run:
      the session leaves the map, as many connections under the descriptor have
      been closed as accepted, all buffers of the session have been freed, once,
      and nothing is prepared. Any other receive completion leaves all sessions
      and ledgers alone. */
  lemma ReceiveEndsSession(c: Config, s: State, step: Step, s': State)
    requires Reachable(c, s) && |s.w.pool.ring.slots| > 0 && Next(c, s, step, s')
    requires step.ProcessOne? && IsRecv(s.cq[0])
    ensures var fd := s.cq[0].ctx.value.fd;
      && (Ends(c, s.cq[0]) ==>
            && s'.w.sessions == s.w.sessions - {fd} && s'.w.accepted[fd] == s'.w.closed[fd] && s'.w.sq == s.w.sq
            && (fd in s.w.sessions ==> forall id :: id in s.w.sessions[fd].buffers ==> s'.w.freed[id] == 1))
      && (!Ends(c, s.cq[0]) ==>
            && s'.w.sessions == s.w.sessions && s'.w.closed == s.w.closed && s'.w.freed == s.w.freed)
  {
    var x, env := s.cq[0], Env(s.clock, s.stop, step.hs, step.addr);
    StepProcesses(c, s, step, s');
    ReceiveLedger(c, s, env, s');
    if Ends(c, x) {
      Extend(c, s, step, s');
      ExactlyOnceClose(c, s', x.ctx.value.fd);
      if x.ctx.value.fd in s.w.sessions { EndFrees(c, s, s'); }
    }
  }

  lemma ReceiveLedger(c: Config, s: State, env: Env, s': State)
    requires Processes(c, s, env, s') && IsRecv(s.cq[0])
    ensures var fd := s.cq[0].ctx.value.fd;
      && s'.w.sessions == (if Ends(c, s.cq[0]) then s.w.sessions - {fd} else s.w.sessions)
      && (Ends(c, s.cq[0]) ==> s'.w.sq == s.w.sq)
      && (!Ends(c, s.cq[0]) ==> s'.w.closed == s.w.closed && s'.w.freed == s.w.freed)
      && (Ends(c, s.cq[0]) && fd in s.w.sessions && !c.multishot ==> s'.w.freed == s.w.freed + multiset(s.w.sessions[fd].buffers))
  {
    ProcessQueue(c, s.w, s.cq[0], env);
    BaseOfReceive(c, s.w, s.cq[0], env);
    if Ends(c, s.cq[0]) { EndPreparesNothing(c, s.w, s.cq[0], env); }
  }

  lemma EndFrees(c: Config, s: State, s': State)
    requires Reachable(c, s) && Reachable(c, s') && !s.phase.Done? && s.cq != [] && Ends(c, s.cq[0])
    requires var fd := s.cq[0].ctx.value.fd;
      fd in s.w.sessions && (!c.multishot ==> s'.w.freed == s.w.freed + multiset(s.w.sessions[fd].buffers))
    ensures forall id :: id in s.w.sessions[s.cq[0].ctx.value.fd].buffers ==> s'.w.freed[id] == 1
  {
    if c.multishot { MultishotCloseLosesNothing(c, s); }
    AllFreed(c, s, s', s.cq[0].ctx.value.fd);
  }

  lemma EndPreparesNothing(c: Config, w: Worker, x: Cqe, env: Env)
    requires Ends(c, x)
    ensures Preps(c, w, x, env) == []
  {
  }

  /** A session that has left the map has all its buffers freed. */
  lemma AllFreed(c: Config, s: State, s': State, fd: int)
    requires Reachable(c, s) && Reachable(c, s') && fd in s.w.sessions
    requires s'.w.freed == s.w.freed + multiset(s.w.sessions[fd].buffers) || s.w.sessions[fd].buffers == []
    ensures forall id :: id in s.w.sessions[fd].buffers ==> s'.w.freed[id] == 1
  {
    forall id | id in s.w.sessions[fd].buffers ensures s'.w.freed[id] == 1 {
      ExactlyOnceFree(c, s', id);
      assert id in multiset(s.w.sessions[fd].buffers);
    }
  }

  // ------------------------------------------------------------- rotation

  /** Without multishot no receive completion leaves its receive running, and
      receives only use the slots of a pool. */
  ghost predicate Plain(cq: seq<Cqe>) { forall i :: 0 <= i < |cq| && IsRecv(cq[i]) ==> !cq[i].more }

  ghost predicate InSlots(c: Config, toks: multiset<Ctx>) {
    forall t :: t in toks && t.kind.Recv? ==> t.slot < c.inFlight && t == RecvCtx(t.fd, t.slot)
  }

  lemma PlainAppend(cq: seq<Cqe>, x: Cqe)
    requires Plain(cq) && (IsRecv(x) ==> !x.more)
    ensures Plain(cq + [x])
  {
  }

  lemma StepPlain(c: Config, s: State, step: Step, s': State)
    requires !c.multishot && |s.w.pool.ring.slots| > 0 && Plain(s.cq) && Next(c, s, step, s')
    ensures Plain(s'.cq)
  {
    if KernelNext(c, s, step, s') && Posting(step) {
      var x := KernelPosts(c, s, step, s');
      PostsPlain(c, s, step, x, s');
      PlainAppend(s.cq, x);
    } else if step.ProcessOne? {
      StepProcesses(c, s, step, s');
    }
  }

  lemma PostsPlain(c: Config, s: State, step: Step, x: Cqe, s': State)
    requires !c.multishot && |s.w.pool.ring.slots| > 0 && KernelNext(c, s, step, s') && Posting(step)
    requires s'.cq == s.cq + [x]
    ensures IsRecv(x) ==> !x.more
  {
    assert x == s'.cq[|s.cq|];
  }

  lemma PrepsInSlots(c: Config, w: Worker, x: Cqe, env: Env)
    requires !c.multishot && CqeShape(c, x) && (IsRecv(x) ==> !x.more) && InSlots(c, TokenOf(x))
    ensures InSlots(c, multiset(Preps(c, w, x, env)))
  {
  }

  lemma ProcessInSlots(c: Config, s: State, env: Env, s': State)
    requires !c.multishot && Processes(c, s, env, s') && CqeShape(c, s.cq[0]) && Plain(s.cq) && InSlots(c, Tokens(s))
    ensures InSlots(c, Tokens(s'))
  {
    var ps := Preps(c, s.w, s.cq[0], env);
    var k := Room(c, |s.w.sq|, |ps|);
    TokensSplit(s);
    ProcessTokens(c, s, env, s');
    PrepsInSlots(c, s.w, s.cq[0], env);
    assert forall t :: t in ps[..k] ==> t in multiset(ps);
  }

  lemma StepInSlots(c: Config, s: State, step: Step, s': State)
    requires !c.multishot && |s.w.pool.ring.slots| > 0 && Plain(s.cq) && InSlots(c, Tokens(s)) && Next(c, s, step, s')
    requires s.cq != [] ==> CqeShape(c, s.cq[0])
    ensures InSlots(c, Tokens(s'))
  {
    if step.ProcessOne? {
      StepProcesses(c, s, step, s');
      ProcessInSlots(c, s, Env(s.clock, s.stop, step.hs, step.addr), s');
    } else {
      OthersKeepTokens(c, s, step, s');
    }
  }

  lemma ReachablePlain(c: Config, s: State)
    requires !c.multishot && Reachable(c, s)
    ensures Inv(c, s) && Plain(s.cq) && InSlots(c, Tokens(s))
  {
    var inv := (s: State) => Inv(c, s) && Plain(s.cq) && InSlots(c, Tokens(s));
    forall s | Starts(c)(s) ensures inv(s) { InitPlain(c, s); }
    forall s, step, s' | inv(s) && Steps(c)(s, step, s') ensures inv(s') {
      StepKeeps(c, s, step, s');
      HeadShape(c, s);
      StepPlain(c, s, step, s');
      StepInSlots(c, s, step, s');
    }
    Always(Starts(c), Steps(c), inv, s);
  }

  lemma InitPlain(c: Config, s: State)
    requires Init(c, s)
    ensures Inv(c, s) && Plain(s.cq) && InSlots(c, Tokens(s))
  {
    InitHolds(c, s);
    assert Bag(s.cq, TokenOf) == multiset{};
  }

  /** Rotation in every single-shot run: processing a receive that delivered, or
      has to be retried, prepares the same receive again, so that with room in
      the queue what is outstanding stays as it is. */
  lemma ReceiveRotates(c: Config, s: State, step: Step, s': State)
    requires !c.multishot && Reachable(c, s) && |s.w.pool.ring.slots| > 0 && Next(c, s, step, s')
    requires step.ProcessOne? && IsRecv(s.cq[0]) && (s.cq[0].res > 0 || s.cq[0].res == -EAGAIN)
    ensures |s.w.sq| < c.capacity ==> s'.w.sq == s.w.sq + [s.cq[0].ctx.value] && Tokens(s') == Tokens(s)
    ensures |s.w.sq| >= c.capacity ==> s'.w.sq == s.w.sq && s'.w.failed == s.w.failed + 1
    ensures s'.w.sessions == s.w.sessions
  {
    var x, env := s.cq[0], Env(s.clock, s.stop, step.hs, step.addr);
    ReachablePlain(c, s);
    HeadShape(c, s);
    StepProcesses(c, s, step, s');
    ReceiveLedger(c, s, env, s');
    RotatesToken(c, s, env, s');
  }

  lemma RotatesToken(c: Config, s: State, env: Env, s': State)
    requires !c.multishot && Processes(c, s, env, s') && Plain(s.cq) && CqeShape(c, s.cq[0])
    requires IsRecv(s.cq[0]) && (s.cq[0].res > 0 || s.cq[0].res == -EAGAIN)
    ensures |s.w.sq| < c.capacity ==> s'.w.sq == s.w.sq + [s.cq[0].ctx.value] && Tokens(s') == Tokens(s)
    ensures |s.w.sq| >= c.capacity ==> s'.w.sq == s.w.sq && s'.w.failed == s.w.failed + 1
  {
    var x := s.cq[0];
    var ps := [x.ctx.value];
    assert Preps(c, s.w, x, env) == ps;
    TokensSplit(s);
    ProcessTokens(c, s, env, s');
    assert ps[..1] == ps && ps[..0] == [] && multiset(ps) == TokenOf(x);
  }

  // -------------------------------------------------- one receive per slot

  /** Every single-shot session has each of its slots outstanding once. */
  ghost predicate Complete(c: Config, sessions: map<int, Session>, toks: multiset<Ctx>) {
    forall fd, i: nat :: fd in sessions && !sessions[fd].reverse && i < c.inFlight ==> toks[RecvCtx(fd, i)] == 1
  }

  /** No receive on `fd` is outstanding. */
  ghost predicate NoReceives(toks: multiset<Ctx>, fd: int) {
    forall t :: t in toks && t.kind.Recv? ==> t.fd != fd
  }

  /** The completion admits a receiving session. */
  predicate Opens(x: Cqe, hs: Handshake) {
    x.ctx.Some? && x.ctx.value.kind.Accept? && x.res >= 0 && hs.Agreed? && !hs.reverse
  }

  predicate OpensAt(s: State, step: Step) { step.ProcessOne? && s.cq != [] && Opens(s.cq[0], step.hs) }

  /** Every receiving session of the run is admitted on a descriptor without
      receives left over. */
  ghost predicate FreshRun(ss: seq<State>, steps: seq<Step>)
    requires |ss| > |steps|
  {
    forall i :: 0 <= i < |steps| && OpensAt(ss[i], steps[i]) ==> NoReceives(Tokens(ss[i]), ss[i].cq[0].res)
  }

  lemma {:induction false} PoolHas(fd: int, n: nat, t: Ctx)
    ensures multiset(Pooled(Recv, fd, n))[t] == if t.slot < n && t == RecvCtx(fd, t.slot) then 1 else 0
  {
    if n > 0 {
      PoolHas(fd, n - 1, t);
      assert Pooled(Recv, fd, n) == Pooled(Recv, fd, n - 1) + [RecvCtx(fd, n - 1)];
    } else {
      assert Pooled(Recv, fd, n) == [];
    }
  }

  /** How often a receive is among what a completion prepares. */
  lemma PreparedReceives(c: Config, w: Worker, x: Cqe, env: Env, t: Ctx)
    requires !c.multishot && CqeShape(c, x) && t.kind.Recv?
    requires x.ctx.value.kind.Accept? ==> x.ctx.value == Accepting(c)
    ensures var n := multiset(Preps(c, w, x, env))[t];
      && (Opens(x, env.hs) ==> n == if t.slot < c.inFlight && t == RecvCtx(x.res, t.slot) then 1 else 0)
      && (!Opens(x, env.hs) ==> n == if IsRecv(x) && !Ends(c, x) && t == x.ctx.value then 1 else 0)
  {
    var ps := Preps(c, w, x, env);
    if Opens(x, env.hs) {
      assert ps == Pooled(Recv, x.res, c.inFlight) + [Accepting(c)];
      PoolHas(x.res, c.inFlight, t);
    } else if IsRecv(x) {
      assert ps == if Ends(c, x) then [] else [x.ctx.value];
    } else {
      assert forall p :: p in ps ==> !p.kind.Recv?;
    }
  }

  /** How often a receive is outstanding after a completion. */
  lemma ReceivesAfter(c: Config, s: State, env: Env, s': State, t: Ctx)
    requires !c.multishot && Processes(c, s, env, s') && CqeShape(c, s.cq[0]) && Plain(s.cq) && t.kind.Recv?
    requires s.cq[0].ctx.value.kind.Accept? ==> s.cq[0].ctx.value == Accepting(c)
    requires |s.w.sq| + |Preps(c, s.w, s.cq[0], env)| <= c.capacity
    ensures var x := s.cq[0];
      && (Opens(x, env.hs) ==>
            Tokens(s')[t] == Tokens(s)[t] + if t.slot < c.inFlight && t == RecvCtx(x.res, t.slot) then 1 else 0)
      && (!Opens(x, env.hs) && !(Ends(c, x) && t == x.ctx.value) ==> Tokens(s')[t] == Tokens(s)[t])
      && (!Opens(x, env.hs) && Ends(c, x) && t == x.ctx.value ==> Tokens(s')[t] == Tokens(s)[t] - 1)
  {
    CountsAfter(c, s, env, s', t);
    PreparedReceives(c, s.w, s.cq[0], env, t);
    RetiredReceive(c, s.cq[0], t);
  }

  lemma CountsAfter(c: Config, s: State, env: Env, s': State, t: Ctx)
    requires Processes(c, s, env, s') && |s.w.sq| + |Preps(c, s.w, s.cq[0], env)| <= c.capacity
    ensures Tokens(s')[t] == Tokens(s)[t] - TokenOf(s.cq[0])[t] + multiset(Preps(c, s.w, s.cq[0], env))[t]
  {
    var ps := Preps(c, s.w, s.cq[0], env);
    TokensSplit(s);
    ProcessTokens(c, s, env, s');
    assert ps[..|ps|] == ps;
  }

  lemma RetiredReceive(c: Config, x: Cqe, t: Ctx)
    requires CqeShape(c, x) && (IsRecv(x) ==> !x.more) && t.kind.Recv?
    ensures TokenOf(x)[t] == if IsRecv(x) && t == x.ctx.value then 1 else 0
  {
  }

  /** What a completion does to the sessions. */
  lemma SessionsAfter(c: Config, s: State, env: Env, s': State)
    requires !c.multishot && Processes(c, s, env, s') && CqeShape(c, s.cq[0])
    ensures var x, was, now := s.cq[0], s.w.sessions, s'.w.sessions;
      && (Opens(x, env.hs) ==> x.res in now && now == was[x.res := now[x.res]] && !now[x.res].reverse)
      && (!Opens(x, env.hs) ==> forall fd :: fd in now && !now[fd].reverse ==>
            fd in was && now[fd] == was[fd] && !(Ends(c, x) && fd == x.ctx.value.fd))
  {
    ProcessQueue(c, s.w, s.cq[0], env);
    if IsRecv(s.cq[0]) { BaseOfReceive(c, s.w, s.cq[0], env); }
  }

  /** About to process a completion, with room for everything it prepares. */
  ghost predicate Fits(c: Config, s: State, env: Env, s': State) {
    && !c.multishot && Processes(c, s, env, s') && CqeShape(c, s.cq[0]) && Plain(s.cq)
    && (s.cq[0].ctx.value.kind.Accept? ==> s.cq[0].ctx.value == Accepting(c))
    && |s.w.sq| + |Preps(c, s.w, s.cq[0], env)| <= c.capacity
  }

  lemma ProcessComplete(c: Config, s: State, env: Env, s': State)
    requires Fits(c, s, env, s') && Complete(c, s.w.sessions, Tokens(s))
    requires Opens(s.cq[0], env.hs) ==> NoReceives(Tokens(s), s.cq[0].res)
    ensures Complete(c, s'.w.sessions, Tokens(s'))
  {
    SessionsAfter(c, s, env, s');
    forall fd, i: nat | fd in s'.w.sessions && !s'.w.sessions[fd].reverse && i < c.inFlight
      ensures Tokens(s')[RecvCtx(fd, i)] == 1
    {
      ReceivesAfter(c, s, env, s', RecvCtx(fd, i));
    }
  }

  /** Admitting a session where a receive is left over doubles that receive. */
  lemma LeftoverDoubles(c: Config, s: State, env: Env, s': State)
    requires Fits(c, s, env, s') && InSlots(c, Tokens(s)) && Opens(s.cq[0], env.hs)
    requires Complete(c, s'.w.sessions, Tokens(s'))
    ensures NoReceives(Tokens(s), s.cq[0].res)
  {
    SessionsAfter(c, s, env, s');
    forall t | t in Tokens(s) && t.kind.Recv? ensures t.fd != s.cq[0].res {
      ReceivesAfter(c, s, env, s', t);
    }
  }

  lemma OthersKeepSessions(c: Config, s: State, step: Step, s': State)
    requires |s.w.pool.ring.slots| > 0 && Next(c, s, step, s') && !step.ProcessOne?
    ensures forall fd :: fd in s'.w.sessions ==> fd in s.w.sessions && s'.w.sessions[fd] == s.w.sessions[fd]
  {
  }

  lemma StepFits(c: Config, s: State, step: Step, s': State)
    requires !c.multishot && c.inFlight > 0 && c.capacity >= 2 * c.inFlight
    requires Inv(c, s) && Budget(c, s) && Plain(s.cq) && Next(c, s, step, s') && step.ProcessOne?
    ensures Fits(c, s, Env(s.clock, s.stop, step.hs, step.addr), s')
  {
    StepProcesses(c, s, step, s');
    HeadIsAccept(c, s);
    BatchFits(c, s, Env(s.clock, s.stop, step.hs, step.addr));
  }

  lemma StepComplete(c: Config, s: State, step: Step, s': State)
    requires !c.multishot && c.inFlight > 0 && c.capacity >= 2 * c.inFlight
    requires Inv(c, s) && Budget(c, s) && Plain(s.cq) && Complete(c, s.w.sessions, Tokens(s)) && Next(c, s, step, s')
    requires OpensAt(s, step) ==> NoReceives(Tokens(s), s.cq[0].res)
    ensures Complete(c, s'.w.sessions, Tokens(s'))
  {
    if step.ProcessOne? {
      StepFits(c, s, step, s');
      ProcessComplete(c, s, Env(s.clock, s.stop, step.hs, step.addr), s');
    } else {
      OthersKeepTokens(c, s, step, s');
      OthersKeepSessions(c, s, step, s');
    }
  }

  ghost predicate Kept(c: Config, s: State) {
    Inv(c, s) && Budget(c, s) && Plain(s.cq) && Complete(c, s.w.sessions, Tokens(s))
  }

  lemma StepKept(c: Config, s: State, step: Step, s': State)
    requires !c.multishot && c.inFlight > 0 && c.capacity >= 2 * c.inFlight && Kept(c, s) && Next(c, s, step, s')
    requires OpensAt(s, step) ==> NoReceives(Tokens(s), s.cq[0].res)
    ensures Kept(c, s')
  {
    StepKeeps(c, s, step, s');
    StepKeepsBudget(c, s, step, s');
    StepPlain(c, s, step, s');
    StepComplete(c, s, step, s');
  }

  lemma InitKept(c: Config, s: State)
    requires c.capacity > 0 && Init(c, s)
    ensures Kept(c, s)
  {
    InitBudget(c, s);
    InitPlain(c, s);
    assert s.w.sessions == map[];
  }

  ghost function FreshStep(): (State, Step) -> bool {
    (s: State, step: Step) => OpensAt(s, step) ==> NoReceives(Tokens(s), s.cq[0].res)
  }

  lemma FreshRunComplete(c: Config, ss: seq<State>, steps: seq<Step>, i: nat)
    requires !c.multishot && c.inFlight > 0 && c.capacity >= 2 * c.inFlight
    requires IsRun(c, ss, steps) && FreshRun(ss, steps) && i < |ss|
    ensures Complete(c, ss[i].w.sessions, Tokens(ss[i]))
  {
    var inv := (s: State) => Kept(c, s);
    forall s | Starts(c)(s) ensures inv(s) { InitKept(c, s); }
    forall s, step, s' | inv(s) && FreshStep()(s, step) && Steps(c)(s, step, s') ensures inv(s') {
      StepKept(c, s, step, s');
    }
    forall j | 0 <= j < |steps| ensures FreshStep()(ss[j], steps[j]) {}
    ThroughoutWhere(Starts(c), Steps(c), FreshStep(), inv, ss, steps, i);
  }

  lemma CompleteIsFresh(c: Config, s: State, step: Step, s': State)
    requires !c.multishot && c.inFlight > 0 && c.capacity >= 2 * c.inFlight
    requires Reachable(c, s) && |s.w.pool.ring.slots| > 0 && Next(c, s, step, s') && OpensAt(s, step)
    requires Complete(c, s'.w.sessions, Tokens(s'))
    ensures NoReceives(Tokens(s), s.cq[0].res)
  {
    ReachablePlain(c, s);
    ReachableBudget(c, s);
    StepFits(c, s, step, s');
    LeftoverDoubles(c, s, Env(s.clock, s.stop, step.hs, step.addr), s');
  }

  /** With a queue deep enough for every preparation, throughout a single-shot run
      every receiving session has exactly one receive per slot under way, from
      its admission to its first end, if and only if the run admits each one on
      a descriptor that has no receives left over. */
  lemma CompleteIffFresh(c: Config, ss: seq<State>, steps: seq<Step>)
    requires !c.multishot && c.inFlight > 0 && c.capacity >= 2 * c.inFlight && IsRun(c, ss, steps)
    ensures (forall i :: 0 <= i < |ss| ==> Complete(c, ss[i].w.sessions, Tokens(ss[i]))) <==> FreshRun(ss, steps)
  {
    if FreshRun(ss, steps) {
      forall i | 0 <= i < |ss| ensures Complete(c, ss[i].w.sessions, Tokens(ss[i])) { FreshRunComplete(c, ss, steps, i); }
    }
    if forall i :: 0 <= i < |ss| ==> Complete(c, ss[i].w.sessions, Tokens(ss[i])) {
      forall i | 0 <= i < |steps| && OpensAt(ss[i], steps[i]) ensures NoReceives(Tokens(ss[i]), ss[i].cq[0].res) {
        ChainStep(Steps(c), ss, steps, i);
        OnRun(Starts(c), Steps(c), ss, steps, i);
        CompleteIsFresh(c, ss[i], steps[i], ss[i + 1]);
      }
    }
  }

  // ------------------------------------------------ when descriptors come back

  const RECEIVE := Agreed(false, 0)

  function EofCqe(fd: int): Cqe { Cqe(Some(RecvCtx(fd, 0)), 0, false, false, None) }

  /** A worker with nothing but one receiving session, and its open descriptors. */
  ghost predicate Receiving(w: Worker, fd: int, open: set<int>) {
    && |w.pool.ring.slots| > 0 && w.open == open
    && w.sessions.Keys == {fd} && !w.sessions[fd].reverse && w.sessions[fd].ms.None?
  }

  lemma AdmitsReceiver(c: Config, w: Worker, fd: int, env: Env)
    requires !c.multishot && |w.pool.ring.slots| > 0 && fd >= 0 && env.hs == RECEIVE && w.sessions == map[]
    requires |w.sq| + c.inFlight + 1 <= c.capacity
    ensures var w' := Process(c, w, AcceptedCqe(c, fd), env);
      Receiving(w', fd, w.open) && w'.sq == w.sq + (Pooled(Recv, fd, c.inFlight) + [Accepting(c)])
  {
    assert Preps(c, w, AcceptedCqe(c, fd), env) == Pooled(Recv, fd, c.inFlight) + [Accepting(c)];
    ProcessFits(c, w, AcceptedCqe(c, fd), env);
  }

  lemma EofCloses(c: Config, w: Worker, fd: int, env: Env)
    requires !c.multishot && Receiving(w, fd, w.open)
    ensures var w' := Process(c, w, EofCqe(fd), env);
      && w'.sessions == map[] && w'.open == w.open - {fd} && w'.sq == w.sq && |w'.pool.ring.slots| > 0
  {
    ProcessQueue(c, w, EofCqe(fd), env);
    assert (w.sessions - {fd}).Keys == {};
  }

  lemma InReceivePool(c: Config, fd: int)
    ensures var ps := multiset(Pooled(Recv, fd, c.inFlight) + [Accepting(c)]);
      Accepting(c) in ps && forall i :: 0 <= i < c.inFlight ==> RecvCtx(fd, i) in ps
  {
    var ps := Pooled(Recv, fd, c.inFlight) + [Accepting(c)];
    assert ps[c.inFlight] == Accepting(c);
    forall i | 0 <= i < c.inFlight ensures RecvCtx(fd, i) in multiset(ps) { assert ps[i] == RecvCtx(fd, i); }
  }

  /** A session has been admitted and all its receives are with the kernel. */
  lemma ReachReceiving(c: Config) returns (s: State)
    requires !c.multishot && c.inFlight > 0 && c.capacity > c.inFlight && c.listenFd >= 0
    ensures Reachable(c, s) && Receiving(s.w, Peer(c), {c.listenFd, Peer(c)}) && Early(s, Head)
    ensures s.cq == [] && s.w.sq == [] && Accepting(c) in s.inflight
    ensures forall i :: 0 <= i < c.inFlight ==> RecvCtx(Peer(c), i) in s.inflight
  {
    var t := ReachAccepted(c);
    AdmitsReceiver(c, t.w, Peer(c), Env(0, false, RECEIVE, 0));
    var u := ProcessHead(c, t, RECEIVE);
    InReceivePool(c, Peer(c));
    s := SubmitBatch(c, u);
  }

  lemma CompleteRecv(c: Config, s: State, ctx: Ctx, x: Cqe) returns (s': State)
    requires !c.multishot && Reachable(c, s) && |s.w.pool.ring.slots| > 0 && !s.phase.Done?
    requires ctx in s.inflight && ctx.kind.Recv? && x == Cqe(Some(ctx), 0, false, false, None)
    ensures Reachable(c, s') && s' == s.(cq := s.cq + [x], j := s'.j, inflight := s.inflight - multiset{ctx})
  {
    s' := Post(s, ctx, x, 0, 0);
    Extend(c, s, KernelRecv(ctx, 0), s');
  }

  /** Its first receive has met the end of the stream; the second one is still
      with the kernel. */
  lemma ReachEnded(c: Config) returns (s: State)
    requires !c.multishot && c.inFlight > 1 && c.capacity > c.inFlight && c.listenFd >= 0
    ensures Reachable(c, s) && |s.w.pool.ring.slots| > 0 && s.phase.Head? && !s.stop && s.cq == [] && s.w.sq == []
    ensures s.w.sessions == map[] && Peer(c) !in s.w.open
    ensures Accepting(c) in s.inflight && RecvCtx(Peer(c), 1) in s.inflight
  {
    var t := ReachReceiving(c);
    var u := CompleteRecv(c, t, RecvCtx(Peer(c), 0), EofCqe(Peer(c)));
    var v := Harvest(c, u, 1);
    EofCloses(c, v.w, Peer(c), Env(v.clock, v.stop, RECEIVE, 0));
    var x := ProcessHead(c, v, RECEIVE);
    s := SubmitBatch(c, x);
  }

  /** The descriptor comes back and is given to another receiving session, which
      then has a slot under way twice. */
  lemma DoubledRun(c: Config) returns (s: State)
    requires !c.multishot && c.inFlight > 1 && c.capacity > c.inFlight && c.listenFd >= 0
    ensures Reachable(c, s) && !Complete(c, s.w.sessions, Tokens(s))
  {
    var t := ReachEnded(c);
    var u := NewConnection(c, t, Peer(c));
    var v := Harvest(c, u, 1);
    s := ProcessHead(c, v, RECEIVE);
    Doubled(c, v, s);
  }

  lemma Doubled(c: Config, s: State, s': State)
    requires !c.multishot && c.inFlight > 1 && c.capacity > c.inFlight && Reachable(c, s) && |s.w.pool.ring.slots| > 0
    requires s.phase == Batch(1) && s.w.sq == [] && s.cq == [AcceptedCqe(c, Peer(c))] && Peer(c) >= 0
    requires RecvCtx(Peer(c), 1) in s.inflight && s' == Processed(c, s, Env(s.clock, s.stop, RECEIVE, 0))
    ensures !Complete(c, s'.w.sessions, Tokens(s'))
  {
    var env := Env(s.clock, s.stop, RECEIVE, 0);
    ReachablePlain(c, s);
    assert |Preps(c, s.w, s.cq[0], env)| == c.inFlight + 1;
    assert Fits(c, s, env, s');
    assert RecvCtx(Peer(c), 1) in Tokens(s);
    if Complete(c, s'.w.sessions, Tokens(s')) { LeftoverDoubles(c, s, env, s'); }
  }

  // ---------------------------------------------------- with a single slot

  /** Every receive under way is the only one of a session. */
  ghost predicate Attached(sessions: map<int, Session>, toks: multiset<Ctx>) {
    forall t :: t in toks && t.kind.Recv? ==> t.fd in sessions && !sessions[t.fd].reverse && toks[t] == 1
  }

  /** Which sessions a completion leaves alone. */
  lemma SessionsStay(c: Config, s: State, env: Env, s': State, fd: int)
    requires !c.multishot && Processes(c, s, env, s') && CqeShape(c, s.cq[0]) && fd in s.w.sessions
    requires !(Ends(c, s.cq[0]) && s.cq[0].ctx.value.fd == fd) && !(IsNewConnection(s.cq[0]) && s.cq[0].res == fd)
    ensures fd in s'.w.sessions && s'.w.sessions[fd] == s.w.sessions[fd]
  {
    ProcessQueue(c, s.w, s.cq[0], env);
    if IsRecv(s.cq[0]) { BaseOfReceive(c, s.w, s.cq[0], env); }
  }

  /** A receive under way after a completion. */
  lemma ReceiveAttached(c: Config, s: State, env: Env, s': State, t: Ctx)
    requires c.inFlight == 1 && Fits(c, s, env, s') && InSlots(c, Tokens(s)) && InSlots(c, Tokens(s'))
    requires Attached(s.w.sessions, Tokens(s)) && (IsNewConnection(s.cq[0]) ==> s.cq[0].res !in s.w.sessions)
    requires t in Tokens(s') && t.kind.Recv?
    ensures t.fd in s'.w.sessions && !s'.w.sessions[t.fd].reverse && Tokens(s')[t] == 1
  {
    var x := s.cq[0];
    ReceivesAfter(c, s, env, s', t);
    if Opens(x, env.hs) && t.fd == x.res {
      SessionsAfter(c, s, env, s');
    } else {
      assert t in Tokens(s);
      if Ends(c, x) { EndedReceive(c, s); }
      SessionsStay(c, s, env, s', t.fd);
    }
  }

  lemma EndedReceive(c: Config, s: State)
    requires c.inFlight == 1 && s.cq != [] && CqeShape(c, s.cq[0]) && Plain(s.cq) && IsRecv(s.cq[0])
    requires InSlots(c, Tokens(s))
    ensures s.cq[0].ctx.value == RecvCtx(s.cq[0].ctx.value.fd, 0)
  {
    TokensSplit(s);
    assert s.cq[0].ctx.value in Tokens(s);
  }

  lemma ProcessAttached(c: Config, s: State, env: Env, s': State)
    requires c.inFlight == 1 && Fits(c, s, env, s') && InSlots(c, Tokens(s)) && InSlots(c, Tokens(s'))
    requires Attached(s.w.sessions, Tokens(s)) && (IsNewConnection(s.cq[0]) ==> s.cq[0].res !in s.w.sessions)
    ensures Attached(s'.w.sessions, Tokens(s'))
  {
    forall t | t in Tokens(s') && t.kind.Recv?
      ensures t.fd in s'.w.sessions && !s'.w.sessions[t.fd].reverse && Tokens(s')[t] == 1
    {
      ReceiveAttached(c, s, env, s', t);
    }
  }

  lemma OthersKeepReceivers(c: Config, s: State, step: Step, s': State, fd: int)
    requires |s.w.pool.ring.slots| > 0 && Next(c, s, step, s') && !step.ProcessOne? && !s'.phase.Done?
    requires fd in s.w.sessions && !s.w.sessions[fd].reverse
    ensures fd in s'.w.sessions && s'.w.sessions[fd] == s.w.sessions[fd]
  {
  }

  lemma StepAttached(c: Config, s: State, step: Step, s': State)
    requires !c.multishot && c.inFlight == 1 && c.capacity >= 2
    requires Inv(c, s) && Budget(c, s) && Plain(s.cq) && InSlots(c, Tokens(s)) && InSlots(c, Tokens(s'))
    requires Attached(s.w.sessions, Tokens(s)) && Next(c, s, step, s') && !s'.phase.Done?
    ensures Attached(s'.w.sessions, Tokens(s'))
  {
    if step.ProcessOne? {
      StepFits(c, s, step, s');
      ProcessAttached(c, s, Env(s.clock, s.stop, step.hs, step.addr), s');
    } else {
      OthersKeepTokens(c, s, step, s');
      forall t | t in Tokens(s') && t.kind.Recv?
        ensures t.fd in s'.w.sessions && !s'.w.sessions[t.fd].reverse && Tokens(s')[t] == 1
      {
        OthersKeepReceivers(c, s, step, s', t.fd);
      }
    }
  }

  ghost predicate Sole(c: Config, s: State) {
    && Kept(c, s) && InSlots(c, Tokens(s))
    && (!s.phase.Done? ==> Attached(s.w.sessions, Tokens(s)))
  }

  lemma StepSole(c: Config, s: State, step: Step, s': State)
    requires !c.multishot && c.inFlight == 1 && c.capacity >= 2 && Sole(c, s) && Next(c, s, step, s')
    ensures Sole(c, s')
  {
    if OpensAt(s, step) { AttachedIsFresh(c, s); }
    StepKept(c, s, step, s');
    HeadShape(c, s);
    StepInSlots(c, s, step, s');
    if !s'.phase.Done? { StepAttached(c, s, step, s'); }
  }

  lemma AttachedIsFresh(c: Config, s: State)
    requires s.cq != [] && FdsApart(c, s.w, s.cq) && IsNewConnection(s.cq[0]) && Attached(s.w.sessions, Tokens(s))
    ensures NoReceives(Tokens(s), s.cq[0].res)
  {
  }

  lemma InitSole(c: Config, s: State)
    requires c.capacity > 0 && Init(c, s)
    ensures Sole(c, s)
  {
    InitKept(c, s);
    InitPlain(c, s);
    assert Bag(s.cq, TokenOf) == multiset{};
    assert forall t :: t in Tokens(s) ==> t == Accepting(c);
  }

  lemma SoleComplete(c: Config, s: State)
    requires !c.multishot && c.inFlight == 1 && c.capacity >= 2 && Reachable(c, s)
    ensures Complete(c, s.w.sessions, Tokens(s))
  {
    var inv := (s: State) => Sole(c, s);
    forall s | Starts(c)(s) ensures inv(s) { InitSole(c, s); }
    forall s, step, s' | inv(s) && Steps(c)(s, step, s') ensures inv(s') { StepSole(c, s, step, s'); }
    Always(Starts(c), Steps(c), inv, s);
  }

  /** All runs together: every receiving session always has exactly one receive
      per slot under way exactly when there is a single slot. */
  lemma AlwaysCompleteIffOneSlot(c: Config)
    requires !c.multishot && c.inFlight > 0 && c.capacity >= 2 * c.inFlight && c.listenFd >= 0
    ensures (forall s :: Reachable(c, s) ==> Complete(c, s.w.sessions, Tokens(s))) <==> c.inFlight == 1
  {
    if c.inFlight == 1 {
      forall s | Reachable(c, s) ensures Complete(c, s.w.sessions, Tokens(s)) { SoleComplete(c, s); }
    } else {
      var s := DoubledRun(c);
    }
  }
}
