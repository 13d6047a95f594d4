/** The TCP server worker: one accept operation, a map of sessions, multishot or
    single-shot receives, and reverse sessions that send until a deadline.

    Contexts travel by value (kind, fd, slot); a multishot context also carries
    the address of its session's `ms_ctx`, so that a completion can be matched
    with the session object it was issued for. */
module ServerModel {
  import opened Uring
  import opened Rings
  import opened ProvidedBuffers
  import opened Stats
  import opened Bags
  import opened Runs

  datatype Config = Config(inFlight: nat, capacity: nat, multishot: bool, zeroCopy: bool, listenFd: int)

  datatype Kind = Accept | Send | Recv

  datatype Ctx = Ctx(kind: Kind, fd: int, slot: nat, addr: nat)

  datatype Cqe = Cqe(ctx: Option<Ctx>, res: int, more: bool, notif: bool, buf: Option<nat>)

  /** `deadline` is the clock's epoch, 0, unless the session is reverse. */
  datatype Session = Session(reverse: bool, deadline: nat, buffers: seq<nat>, ms: Option<nat>)

  datatype Handshake = Refused | Agreed(reverse: bool, duration: nat)

  /** What the outside world contributes to processing one completion: the
      clock, the stop flag, the handshake read from a new connection and the
      address the allocator picks for a new context. */
  datatype Env = Env(now: nat, stop: bool, hs: Handshake, addr: nat)

  /** What the worker owns, the descriptors it sees open, and the ledgers of what
      it has accepted, closed, allocated (`nextBuf` buffers) and freed. `failed`
      counts preparations that found no free submission slot. */
  datatype Worker = Worker(
    sessions: map<int, Session>, sq: seq<Ctx>, failed: nat, pool: Pool, open: set<int>,
    accepted: multiset<int>, closed: multiset<int>, nextBuf: nat, freed: multiset<nat>, stats: Counters)

  function Accepting(c: Config): Ctx { Ctx(Accept, c.listenFd, 0, 0) }
  function MsCtx(fd: int, addr: nat): Ctx { Ctx(Recv, fd, 0, addr) }
  function Pooled(kind: Kind, fd: int, n: nat): seq<Ctx> { seq(n, i requires 0 <= i => Ctx(kind, fd, i, 0)) }
  function NewBuffers(next: nat, n: nat): seq<nat> { seq(n, i requires 0 <= i => next + i) }

  // -------------------------------------------------- preparing submissions

  /** Every `prep_*` call: take a slot, or report a failure nobody looks at. */
  function Prep(c: Config, w: Worker, ctx: Ctx): Worker {
    if |w.sq| < c.capacity then w.(sq := w.sq + [ctx]) else w.(failed := w.failed + 1)
  }

  function PrepAll(c: Config, w: Worker, ctxs: seq<Ctx>): Worker {
    if ctxs == [] then w else Prep(c, PrepAll(c, w, ctxs[..|ctxs| - 1]), ctxs[|ctxs| - 1])
  }

  // ------------------------------------------------- processing a completion

  function CloseFd(w: Worker, fd: int): Worker {
    w.(closed := w.closed + multiset{fd}, open := w.open - {fd})
  }

  /** A session as the accept branch builds it. */
  function NewSession(c: Config, w: Worker, env: Env): Session
    requires env.hs.Agreed?
  {
    if env.hs.reverse then
      Session(true, env.now + env.hs.duration, NewBuffers(w.nextBuf, c.inFlight), None)
    else if c.multishot then Session(false, 0, [], Some(env.addr))
    else Session(false, 0, NewBuffers(w.nextBuf, c.inFlight), None)
  }

  function AcceptBase(c: Config, w: Worker, fd: int, env: Env): Worker {
    if fd < 0 then w
    else
      var a := w.(accepted := w.accepted + multiset{fd});
      if env.hs.Refused? then CloseFd(a, fd)
      else
        var s := NewSession(c, w, env);
        a.(sessions := w.sessions[fd := s], nextBuf := w.nextBuf + |s.buffers|)
  }

  function AcceptPreps(c: Config, fd: int, env: Env): seq<Ctx> {
    if fd < 0 || env.hs.Refused? then []
    else if env.hs.reverse then Pooled(Send, fd, c.inFlight)
    else if c.multishot then [MsCtx(fd, env.addr)]
    else Pooled(Recv, fd, c.inFlight)
  }

  /** May a completed send be followed by another one? Only the deadline is
      looked at: a session that is not reverse has deadline 0. */
  predicate KeepSending(w: Worker, fd: int, env: Env) {
    fd in w.sessions && env.now < w.sessions[fd].deadline && !env.stop
  }

  /** The receive branches end a session on EOF or error. The multishot branch
      closes and erases, the single-shot branch frees the buffers as well. */
  function EndSession(w: Worker, fd: int, res: int, free: bool): Worker {
    var e := if res < 0 then w.(stats := w.stats.AddError()) else w;
    if fd in w.sessions then
      CloseFd(e, fd).(sessions := w.sessions - {fd},
                      freed := if free then w.freed + multiset(w.sessions[fd].buffers) else w.freed)
    else e
  }

  /** Multishot data is counted and its buffer given back. */
  function Took(w: Worker, x: Cqe): Worker
    requires |w.pool.ring.slots| > 0
  {
    if x.res > 0 && x.buf.Some? then
      w.(stats := w.stats.AddBytes(x.res, 1), pool := Return(w.pool, x.buf.value))
    else w
  }

  /** Everything a completion changes except the submission queue. */
  function Base(c: Config, w: Worker, x: Cqe, env: Env): Worker
    requires |w.pool.ring.slots| > 0
  {
    if x.ctx.None? then w
    else match x.ctx.value.kind
      case Accept => AcceptBase(c, w, x.res, env)
      case Send =>
        if x.notif then w.(stats := w.stats.AddZc())
        else if x.res > 0 then w.(stats := w.stats.AddBytes(x.res, 1))
        else if x.res < 0 && x.res != -EAGAIN then w.(stats := w.stats.AddError())
        else w
      case Recv =>
        if c.multishot then
          if x.more || x.res == -ENOBUFS then Took(w, x)
          else EndSession(Took(w, x), x.ctx.value.fd, x.res, false)
        else if x.res > 0 then w.(stats := w.stats.AddBytes(x.res, 1))
        else if x.res == -EAGAIN then w
        else EndSession(w, x.ctx.value.fd, x.res, true)
  }

  /** The operations a completion prepares, in order. */
  function Preps(c: Config, w: Worker, x: Cqe, env: Env): seq<Ctx> {
    if x.ctx.None? then []
    else match x.ctx.value.kind
      case Accept => AcceptPreps(c, x.res, env) + [Accepting(c)]
      case Send =>
        if !x.notif && (x.res > 0 || x.res == -EAGAIN) && KeepSending(w, x.ctx.value.fd, env)
        then [x.ctx.value] else []
      case Recv =>
        if c.multishot then if !x.more && x.res == -ENOBUFS then [x.ctx.value] else []
        else if x.res > 0 || x.res == -EAGAIN then [x.ctx.value] else []
  }

  function Process(c: Config, w: Worker, x: Cqe, env: Env): Worker
    requires |w.pool.ring.slots| > 0
  {
    PrepAll(c, Base(c, w, x, env), Preps(c, w, x, env))
  }

  // ------------------------------------------------------- sweep and cleanup

  predicate Expired(s: Session, now: nat) { s.reverse && now >= s.deadline }

  function ExpiredIn(m: map<int, Session>, now: nat): map<int, Session> {
    map fd | fd in m && Expired(m[fd], now) :: m[fd]
  }

  /** All buffers owned by the sessions of a map. */
  ghost function BufBag(m: map<int, Session>): multiset<nat>
    decreases m.Keys
  {
    if m.Keys == {} then multiset{}
    else
      SomeMember(m.Keys);
      var fd :| fd in m.Keys;
      multiset(m[fd].buffers) + BufBag(m - {fd})
  }

  /** Close and free a group of sessions. */
  ghost function DropAll(w: Worker, gone: map<int, Session>): Worker {
    w.(sessions := w.sessions - gone.Keys, closed := w.closed + multiset(gone.Keys),
       open := w.open - gone.Keys, freed := w.freed + BufBag(gone))
  }

  ghost function Sweep(w: Worker, now: nat): Worker { DropAll(w, ExpiredIn(w.sessions, now)) }

  // -------------------------------------------------------------- the system

  /** At the head of the loop, past the sweep, inside a batch, and finished. */
  datatype Phase = Head | Swept | Batch(left: nat) | Done

  /** `inflight` are the operations the kernel holds, `notifs` the zero-copy
      notifications it still owes, `j` its books. */
  datatype State = State(
    w: Worker, inflight: multiset<Ctx>, notifs: multiset<Ctx>, cq: seq<Cqe>,
    phase: Phase, clock: nat, stop: bool, seen: seq<Cqe>, j: Journal<Cqe>)

  datatype Step =
    | KernelAccept(res: int)
    | KernelSend(ctx: Ctx, res: int, notify: bool)
    | KernelNotif(ctx: Ctx, res: int)
    | KernelRecv(ctx: Ctx, res: int)                    // single-shot receive
    | KernelData(ctx: Ctx, res: int)                    // multishot, MORE set
    | KernelEnd(ctx: Ctx, res: int, withBuffer: bool)   // multishot, terminating
    | Tick(now: nat)
    | Stop
    | Expire                                            // the sweep
    | Reap(k: nat)                                      // harvest k, or submit
    | ProcessOne(hs: Handshake, addr: nat)
    | EndBatch
    | Quit

  /** Without SQPOLL a submit hands the whole queue to the kernel. */
  function Submitted(s: State): State {
    s.(w := s.w.(sq := []), inflight := s.inflight + multiset(s.w.sq))
  }

  /** Post `x`, after moving `n` bytes and announcing `k` notifications. */
  function Posted(s: State, x: Cqe, n: nat, k: nat): State {
    s.(cq := s.cq + [x], j := Log(s.j, x, n, k))
  }

  /** The same for a completion that retires its operation. */
  function Post(s: State, ctx: Ctx, x: Cqe, n: nat, k: nat): State {
    Posted(s, x, n, k).(inflight := s.inflight - multiset{ctx})
  }

  ghost predicate Takes(s: State, ctx: Ctx, res: int, more: bool, s': State)
    requires |s.w.pool.ring.slots| > 0
  {
    && res > 0 && Len(s.w.pool.ring) > 0
    && var x := Cqe(Some(ctx), res, more, false, Some(Window(s.w.pool.ring)[0].bid));
       s' == (if more then Posted(s, x, Moved(res), 0) else Post(s, ctx, x, Moved(res), 0))
               .(w := s.w.(pool := Take(s.w.pool)))
  }

  ghost predicate KernelNext(c: Config, s: State, step: Step, s': State)
    requires |s.w.pool.ring.slots| > 0
  {
    match step
    case KernelAccept(res) =>
      && Accepting(c) in s.inflight && (res >= 0 ==> res !in s.w.open)
      && s' == Post(s, Accepting(c), Cqe(Some(Accepting(c)), res, false, false, None), 0, 0)
                 .(w := if res >= 0 then s.w.(open := s.w.open + {res}) else s.w)
    case KernelSend(ctx, res, notify) =>
      && ctx in s.inflight && ctx.kind.Send? && (notify ==> c.zeroCopy)
      && s' == Post(s, ctx, Cqe(Some(ctx), res, notify, false, None), Moved(res), if notify then 1 else 0)
                 .(notifs := if notify then s.notifs + multiset{ctx} else s.notifs)
    case KernelNotif(ctx, res) =>
      && ctx in s.notifs && ctx.kind.Send?
      && s' == Posted(s, Cqe(Some(ctx), res, false, true, None), 0, 0).(notifs := s.notifs - multiset{ctx})
    case KernelRecv(ctx, res) =>
      && !c.multishot && ctx in s.inflight && ctx.kind.Recv?
      && s' == Post(s, ctx, Cqe(Some(ctx), res, false, false, None), Moved(res), 0)
    case KernelData(ctx, res) =>
      c.multishot && ctx in s.inflight && ctx.kind.Recv? && Takes(s, ctx, res, true, s')
    case KernelEnd(ctx, res, withBuffer) =>
      && c.multishot && ctx in s.inflight && ctx.kind.Recv?
      && (if withBuffer then Takes(s, ctx, res, false, s')
          else s' == Post(s, ctx, Cqe(Some(ctx), res, false, false, None), 0, 0))
    case Tick(now) => s.clock <= now && s' == s.(clock := now)
    case Stop => s' == s.(stop := true)
    case _ => false
  }

  /** The allocator never hands out the address of a live context. */
  predicate FreshAddr(w: Worker, addr: nat) {
    forall fd :: fd in w.sessions ==> w.sessions[fd].ms != Some(addr)
  }

  function Processed(c: Config, s: State, env: Env): State
    requires |s.w.pool.ring.slots| > 0 && s.phase.Batch? && s.phase.left > 0 && s.cq != []
  {
    s.(w := Process(c, s.w, s.cq[0], env), cq := s.cq[1..], phase := Batch(s.phase.left - 1),
       seen := s.seen + [s.cq[0]])
  }

  ghost predicate WorkerNext(c: Config, s: State, step: Step, s': State)
    requires |s.w.pool.ring.slots| > 0
  {
    match step
    case Expire => s.phase.Head? && !s.stop && s' == s.(w := Sweep(s.w, s.clock), phase := Swept)
    case Reap(k) =>
      && s.phase.Swept? && k <= c.inFlight && k <= |s.cq|
      && s' == if k == 0 then Submitted(s).(phase := Head) else s.(phase := Batch(k))
    case ProcessOne(hs, addr) =>
      && s.phase.Batch? && s.phase.left > 0 && s.cq != [] && FreshAddr(s.w, addr)
      && s' == Processed(c, s, Env(s.clock, s.stop, hs, addr))
    case EndBatch => s.phase == Batch(0) && s' == Submitted(s).(phase := Head)
    case Quit => s.phase.Head? && s.stop && s' == s.(w := DropAll(s.w, s.w.sessions), phase := Done)
    case _ => false
  }

  ghost predicate Next(c: Config, s: State, step: Step, s': State)
    requires |s.w.pool.ring.slots| > 0
  {
    !s.phase.Done? && (KernelNext(c, s, step, s') || WorkerNext(c, s, step, s'))
  }

  /** Right after the first accept has been prepared and submitted. */
  ghost predicate Init(c: Config, s: State) {
    && (c.multishot ==> Filled(s.w.pool)) && |s.w.pool.ring.slots| > 0
    && c.listenFd in s.w.open
    && s == Submitted(State(
         Prep(c, Worker(map[], [], 0, s.w.pool, s.w.open, multiset{}, multiset{}, 0, multiset{}, ZERO), Accepting(c)),
         multiset{}, multiset{}, [], Head, s.clock, s.stop, [], Journal([], [], 0)))
  }

  ghost function Steps(c: Config): (State, Step, State) -> bool {
    (s: State, step: Step, s': State) => |s.w.pool.ring.slots| > 0 && Next(c, s, step, s')
  }

  ghost function Starts(c: Config): State -> bool { (s: State) => Init(c, s) }

  ghost predicate IsRun(c: Config, ss: seq<State>, steps: seq<Step>) {
    Run(Starts(c), Steps(c), ss, steps)
  }

  /** The states some run of the server is in. */
  ghost predicate Reachable(c: Config, s: State) {
    Reached(Starts(c), Steps(c), s)
  }

  lemma Extend(c: Config, s: State, step: Step, s': State)
    requires Reachable(c, s) && |s.w.pool.ring.slots| > 0 && Next(c, s, step, s')
    ensures Reachable(c, s')
  {
    ReachedNext(Starts(c), Steps(c), s, step, s');
  }

  // ------------------------------------------------- what a state owes to whom

  /** The operation a completion retires: none for a notification, nor for a
      multishot completion that leaves its operation running. */
  function TokenOf(x: Cqe): multiset<Ctx> {
    if x.ctx.Some? && !x.notif && !(x.ctx.value.kind.Recv? && x.more) then multiset{x.ctx.value} else multiset{}
  }

  function BufOf(x: Cqe): multiset<nat> {
    if x.buf.Some? then multiset{x.buf.value} else multiset{}
  }

  /** Every operation between its preparation and the processing of the
      completion that retires it. */
  function Tokens(s: State): multiset<Ctx> {
    multiset(s.w.sq) + s.inflight + Bag(s.cq, TokenOf)
  }

  // ------------------------------------------------------- preparation lemmas

  /** How many of `want` operations find a slot. */
  function Room(c: Config, used: nat, want: nat): (k: nat)
    ensures k <= want
  {
    if used >= c.capacity then 0 else if want < c.capacity - used then want else c.capacity - used
  }

  lemma {:induction false} PrepAllAdds(c: Config, w: Worker, ctxs: seq<Ctx>)
    ensures var k := Room(c, |w.sq|, |ctxs|);
      PrepAll(c, w, ctxs) == w.(sq := w.sq + ctxs[..k], failed := w.failed + |ctxs| - k)
  {
    var n := |ctxs|;
    if n > 0 {
      var front := ctxs[..n - 1];
      PrepAllAdds(c, w, front);
      var j := Room(c, |w.sq|, n - 1);
      assert front[..j] == ctxs[..j];
      if |w.sq| + j < c.capacity {
        assert j == n - 1;
        assert w.sq + ctxs[..j] + [ctxs[n - 1]] == w.sq + ctxs[..n];
      }
    } else {
      assert w.sq + ctxs[..0] == w.sq;
    }
  }

  lemma BaseKeepsQueue(c: Config, w: Worker, x: Cqe, env: Env)
    requires |w.pool.ring.slots| > 0
    ensures Base(c, w, x, env).sq == w.sq && Base(c, w, x, env).failed == w.failed
  {
  }

  /** Processing leaves the rest of the queue alone and appends what fits. */
  lemma ProcessQueue(c: Config, w: Worker, x: Cqe, env: Env)
    requires |w.pool.ring.slots| > 0
    ensures var ps := Preps(c, w, x, env);
      var k := Room(c, |w.sq|, |ps|);
      Process(c, w, x, env) == Base(c, w, x, env).(sq := w.sq + ps[..k], failed := w.failed + |ps| - k)
  {
    BaseKeepsQueue(c, w, x, env);
    PrepAllAdds(c, Base(c, w, x, env), Preps(c, w, x, env));
  }

  lemma ProcessFits(c: Config, w: Worker, x: Cqe, env: Env)
    requires |w.pool.ring.slots| > 0 && |w.sq| + |Preps(c, w, x, env)| <= c.capacity
    ensures Process(c, w, x, env) == Base(c, w, x, env).(sq := w.sq + Preps(c, w, x, env))
  {
    var ps := Preps(c, w, x, env);
    ProcessQueue(c, w, x, env);
    BaseKeepsQueue(c, w, x, env);
    assert ps[..|ps|] == ps;
  }

  /** A completion that prepares at most one operation. */
  lemma SinglePrep(c: Config, w: Worker, x: Cqe, env: Env)
    requires |w.pool.ring.slots| > 0
    ensures var ps := Preps(c, w, x, env);
      && (|ps| == 0 ==> Process(c, w, x, env) == Base(c, w, x, env))
      && (|ps| == 1 ==> Process(c, w, x, env) == Prep(c, Base(c, w, x, env), ps[0]))
  {
    var ps := Preps(c, w, x, env);
    if |ps| == 1 {
      PrepAllOne(c, Base(c, w, x, env), ps[0]);
      assert ps == [ps[0]];
    }
  }

  lemma PrepAllOne(c: Config, w: Worker, p: Ctx)
    ensures PrepAll(c, w, [p]) == Prep(c, w, p)
  {
    assert [p][..0] == [];
  }

  lemma PooledNext(c: Config, w: Worker, kind: Kind, fd: int, b: nat)
    ensures PrepAll(c, w, Pooled(kind, fd, b + 1)) == Prep(c, PrepAll(c, w, Pooled(kind, fd, b)), Ctx(kind, fd, b, 0))
  {
    assert Pooled(kind, fd, b + 1)[..b] == Pooled(kind, fd, b);
  }

  lemma BaseKeepsSlots(c: Config, w: Worker, x: Cqe, env: Env)
    requires |w.pool.ring.slots| > 0
    ensures |Base(c, w, x, env).pool.ring.slots| == |w.pool.ring.slots|
  {
  }
}
