/** The server's loop code, proved against the model. */
module ServerWorker {
  import opened Uring
  import opened ProvidedBuffers
  import opened Stats
  import opened Bags
  import opened ServerModel
  import opened ServerLedger
  import opened CompletionRing

  /** The worker's local state. The ledgers are ghosts; `open` is the part of the
      descriptor table the worker can see, to which the kernel adds. */
  class Server {
    const cfg: Config
    const engine: RecvBuffers
    const ring: Queue<Cqe>
    var sessions: map<int, Session>
    var sq: seq<Ctx>
    var nextBuf: nat
    var stats: Counters
    var open: set<int>
    ghost var failed: nat
    ghost var accepted: multiset<int>
    ghost var closed: multiset<int>
    ghost var freed: multiset<nat>

    ghost function View(): Worker
      reads this, engine, engine.slots
    {
      Worker(sessions, sq, failed, engine.View(), open, accepted, closed, nextBuf, freed, stats)
    }

    ghost predicate Ok()
      reads engine, engine.slots
    {
      engine.slots.Length > 0 && (cfg.multishot ==> engine.ready)
    }

    /** Set-up, up to and including the first accept. */
    constructor (c: Config, e: RecvBuffers, q: Queue<Cqe>, fds: set<int>)
      ensures cfg == c && engine == e && ring == q
      ensures View() == Prep(c, Worker(map[], [], 0, e.View(), fds, multiset{}, multiset{}, 0, multiset{}, ZERO), Accepting(c))
    {
      cfg, engine, ring := c, e, q;
      sessions, sq, nextBuf, stats := map[], [], 0, ZERO;
      failed, open, accepted, closed, freed := 0, fds, multiset{}, multiset{}, multiset{};
      new;
      PrepOp(Accepting(c));
    }

    /** Any `prep_*`: the caller ignores the outcome. */
    method PrepOp(ctx: Ctx)
      modifies this`sq, this`failed
      ensures View() == Prep(cfg, old(View()), ctx)
      ensures old(|sq|) < cfg.capacity ==> sq == old(sq) + [ctx] && failed == old(failed)
      ensures old(|sq|) >= cfg.capacity ==> sq == old(sq) && failed == old(failed) + 1
    {
      if |sq| < cfg.capacity { sq := sq + [ctx]; } else { failed := failed + 1; }
    }

    method Close(fd: int)
      modifies this`closed, this`open
      ensures View() == CloseFd(old(View()), fd)
    {
      closed, open := closed + multiset{fd}, open - {fd};
    }

    /** The loops that allocate a session's buffers and prepare one operation for
        each. */
    method FillPool(kind: Kind, fd: int) returns (buffers: seq<nat>)
      modifies this`sq, this`failed, this`nextBuf
      ensures buffers == NewBuffers(old(nextBuf), cfg.inFlight)
      ensures View() == PrepAll(cfg, old(View()), Pooled(kind, fd, cfg.inFlight)).(nextBuf := old(nextBuf) + cfg.inFlight)
    {
      buffers := [];
      ghost var w := View();
      for b := 0 to cfg.inFlight
        invariant sq == PrepAll(cfg, w, Pooled(kind, fd, b)).sq && failed == PrepAll(cfg, w, Pooled(kind, fd, b)).failed
        invariant nextBuf == w.nextBuf + b && buffers == NewBuffers(w.nextBuf, b)
      {
        buffers := buffers + [nextBuf];
        nextBuf := nextBuf + 1;
        PrepSlot(kind, fd, b, w);
      }
      PrepAllAdds(cfg, w, Pooled(kind, fd, cfg.inFlight));
    }

    method PrepSlot(kind: Kind, fd: int, b: nat, ghost w: Worker)
      requires sq == PrepAll(cfg, w, Pooled(kind, fd, b)).sq && failed == PrepAll(cfg, w, Pooled(kind, fd, b)).failed
      modifies this`sq, this`failed
      ensures sq == PrepAll(cfg, w, Pooled(kind, fd, b + 1)).sq && failed == PrepAll(cfg, w, Pooled(kind, fd, b + 1)).failed
    {
      PooledNext(cfg, w, kind, fd, b);
      PrepOp(Ctx(kind, fd, b, 0));
    }

    method AddSession(fd: int, s: Session)
      modifies this`sessions
      ensures View() == old(View()).(sessions := old(sessions)[fd := s])
    {
      sessions := sessions[fd := s];
    }

    /** A session with buffers of its own. */
    method AdmitPooled(kind: Kind, fd: int, reverse: bool, deadline: nat)
      modifies this`sq, this`failed, this`nextBuf, this`sessions
      ensures View() == PrepAll(cfg, old(View()), Pooled(kind, fd, cfg.inFlight)).(
        sessions := old(sessions)[fd := Session(reverse, deadline, NewBuffers(old(nextBuf), cfg.inFlight), None)],
        nextBuf := old(nextBuf) + cfg.inFlight)
    {
      var buffers := FillPool(kind, fd);
      AddSession(fd, Session(reverse, deadline, buffers, None));
    }

    /** The accept branch past a successful handshake. */
    method Admit(fd: int, env: Env)
      requires env.hs.Agreed? && fd >= 0
      modifies this`sq, this`failed, this`nextBuf, this`sessions
      ensures View() == PrepAll(cfg, old(View()), AcceptPreps(cfg, fd, env)).(
        sessions := old(sessions)[fd := NewSession(cfg, old(View()), env)],
        nextBuf := old(nextBuf) + |NewSession(cfg, old(View()), env).buffers|)
    {
      if env.hs.reverse {
        AdmitPooled(Send, fd, true, env.now + env.hs.duration);
      } else if cfg.multishot {
        PrepAllOne(cfg, View(), MsCtx(fd, env.addr));
        PrepOp(MsCtx(fd, env.addr));
        AddSession(fd, Session(false, 0, [], Some(env.addr)));
      } else {
        AdmitPooled(Recv, fd, false, 0);
      }
    }

    /** A new connection: the handshake is refused, or the session admitted. */
    method OnConnection(fd: int, env: Env)
      requires fd >= 0
      modifies this
      ensures View() == PrepAll(cfg, AcceptBase(cfg, old(View()), fd, env), AcceptPreps(cfg, fd, env))
    {
      QueueCommutes(cfg, View(), fd, env);
      accepted := accepted + multiset{fd};
      if env.hs.Refused? { Close(fd); } else { Admit(fd, env); }
    }

    method OnAccept(fd: int, env: Env)
      modifies this
      ensures View() == PrepAll(cfg, AcceptBase(cfg, old(View()), fd, env), AcceptPreps(cfg, fd, env) + [Accepting(cfg)])
    {
      AcceptLast(cfg, View(), fd, env);
      if fd >= 0 { OnConnection(fd, env); }
      PrepOp(Accepting(cfg));
    }

    method OnSend(ptr: nat, ctx: Ctx, env: Env)
      requires Ok() && ptr < ring.cqes.Length && ring.cqes[ptr].ctx == Some(ctx) && ctx.kind.Send?
      modifies this`stats, this`sq, this`failed
      ensures View() == Process(cfg, old(View()), ring.cqes[ptr], env)
    {
      var keep := ctx.fd in sessions && env.now < sessions[ctx.fd].deadline && !env.stop;
      SinglePrep(cfg, View(), ring.cqes[ptr], env);
      if ring.cqes[ptr].notif {
        stats := stats.AddZc();
      } else if ring.cqes[ptr].res > 0 {
        stats := stats.AddBytes(ring.cqes[ptr].res, 1);
        if keep { PrepOp(ctx); }
      } else if ring.cqes[ptr].res == -EAGAIN {
        if keep { PrepOp(ctx); }
      } else if ring.cqes[ptr].res < 0 {
        stats := stats.AddError();
      }
    }

    method End(fd: int, res: int, free: bool)
      modifies this
      ensures View() == EndSession(old(View()), fd, res, free)
    {
      if res < 0 { stats := stats.AddError(); }
      if fd in sessions {
        Close(fd);
        if free { FreeAll(sessions[fd].buffers); }
        sessions := sessions - {fd};
      }
    }

    method FreeAll(buffers: seq<nat>)
      modifies this`freed
      ensures View() == old(View()).(freed := old(freed) + multiset(buffers))
    {
      for i := 0 to |buffers|
        invariant View() == old(View()).(freed := old(freed) + multiset(buffers[..i]))
      {
        assert buffers[..i + 1] == buffers[..i] + [buffers[i]];
        freed := freed + multiset{buffers[i]};
      }
      assert buffers[..|buffers|] == buffers;
    }

    method TakeData(ptr: nat)
      requires Ok() && cfg.multishot && ptr < ring.cqes.Length
      modifies this`stats, engine, engine.slots
      ensures Ok() && engine.slots == old(engine.slots) && View() == Took(old(View()), ring.cqes[ptr])
    {
      if ring.cqes[ptr].res > 0 && ring.cqes[ptr].buf.Some? {
        stats := stats.AddBytes(ring.cqes[ptr].res, 1);
        engine.ReturnRecvBuffer(ring.cqes[ptr].buf.value);
      }
    }

    method OnMultishot(ptr: nat, ctx: Ctx, env: Env)
      requires Ok() && cfg.multishot && ptr < ring.cqes.Length && ring.cqes[ptr].ctx == Some(ctx) && ctx.kind.Recv?
      modifies this, engine, engine.slots
      ensures Ok() && engine.slots == old(engine.slots)
      ensures View() == Process(cfg, old(View()), ring.cqes[ptr], env)
    {
      SinglePrep(cfg, View(), ring.cqes[ptr], env);
      TakeData(ptr);
      if !ring.cqes[ptr].more {
        if ring.cqes[ptr].res == -ENOBUFS { PrepOp(ctx); } else { End(ctx.fd, ring.cqes[ptr].res, false); }
      }
    }

    method OnRecv(ptr: nat, ctx: Ctx, env: Env)
      requires Ok() && !cfg.multishot && ptr < ring.cqes.Length && ring.cqes[ptr].ctx == Some(ctx) && ctx.kind.Recv?
      modifies this
      ensures View() == Process(cfg, old(View()), ring.cqes[ptr], env)
    {
      SinglePrep(cfg, View(), ring.cqes[ptr], env);
      if ring.cqes[ptr].res > 0 {
        stats := stats.AddBytes(ring.cqes[ptr].res, 1);
        PrepOp(ctx);
      } else if ring.cqes[ptr].res == -EAGAIN {
        PrepOp(ctx);
      } else {
        End(ctx.fd, ring.cqes[ptr].res, true);
      }
    }

    /** The branches of the loop body, for a completion that names a context. */
    method Dispatch(ptr: nat, env: Env)
      requires Ok() && ptr < ring.cqes.Length && ring.cqes[ptr].ctx.Some?
      modifies this, engine, engine.slots
      ensures Ok() && engine.slots == old(engine.slots)
      ensures View() == Process(cfg, old(View()), ring.cqes[ptr], env)
    {
      var ctx := ring.cqes[ptr].ctx.value;
      match ctx.kind {
        case Accept => OnAccept(ring.cqes[ptr].res, env);
        case Send => OnSend(ptr, ctx, env);
        case Recv => if cfg.multishot { OnMultishot(ptr, ctx, env); } else { OnRecv(ptr, ctx, env); }
      }
    }

    /** The loop body, from the pointer to the release: at once for a completion
        without a context, at the bottom for all others. */
    method Completion(ptr: nat, ghost held: seq<nat>, env: Env)
      requires Ok() && ring.Ok() && held != [] && held[0] == ptr && ring.Points(held) && ring.Unread() != []
      modifies this, engine, engine.slots, ring`khead, ring.cqes
      ensures Ok() && engine.slots == old(engine.slots) && ring.Ok() && ring.Points(held[1..])
      ensures View() == Process(cfg, old(View()), old(ring.Unread())[0], env)
      ensures ring.Unread() == old(ring.Unread())[1..]
    {
      ring.PointsAtOldest(held);
      if ring.cqes[ptr].ctx.None? {
        ring.CqeSeen(held);
        return;
      }
      Dispatch(ptr, env);
      ring.CqeSeen(held);
    }

    /** The submit hands over everything queued. */
    method Submit() returns (queued: seq<Ctx>)
      modifies this`sq
      ensures View() == old(View()).(sq := []) && queued == old(sq)
    {
      queued := sq;
      sq := [];
    }

    /** The addresses of the contexts in use. */
    function Live(): set<nat>
      reads this
    {
      set fd | fd in sessions && sessions[fd].ms.Some? :: sessions[fd].ms.value
    }

    /** Close and free one session. */
    method Remove(fd: int)
      requires fd in sessions
      modifies this`sessions, this`closed, this`open, this`freed
      ensures View() == CloseFd(old(View()), fd).(sessions := old(sessions) - {fd},
                          freed := old(freed) + multiset(old(sessions)[fd].buffers))
    {
      Close(fd);
      FreeAll(sessions[fd].buffers);
      sessions := sessions - {fd};
    }

    /** One step of the sweep, after the sessions in `visited`. */
    method Visit(fd: int, now: nat, ghost w: Worker, ghost visited: set<int>)
      requires View() == DropAll(w, GoneIn(w.sessions, visited, now))
      requires fd in w.sessions && fd !in visited
      modifies this`sessions, this`closed, this`open, this`freed
      ensures View() == DropAll(w, GoneIn(w.sessions, visited + {fd}, now))
    {
      DropOneMore(w, visited, fd, now);
      assert fd in sessions && sessions[fd] == w.sessions[fd];
      if sessions[fd].reverse && now >= sessions[fd].deadline { Remove(fd); }
    }

    /** The erase-while-iterating sweep, in whatever order the map is visited. */
    method SweepSessions(now: nat)
      modifies this`sessions, this`closed, this`open, this`freed
      ensures View() == Sweep(old(View()), now)
    {
      var todo := sessions.Keys;
      ghost var w, visited: set<int> := View(), {};
      DropNothing(w, now);
      while todo != {}
        invariant Parts(w.sessions.Keys, todo, visited)
        invariant View() == DropAll(w, GoneIn(w.sessions, visited, now))
        decreases todo
      {
        SomeMember(todo);
        var fd :| fd in todo;
        NextPart(w.sessions.Keys, todo, visited, fd);
        Visit(fd, now, w, visited);
        todo, visited := todo - {fd}, visited + {fd};
      }
      VisitedAll(w, visited, now);
    }

    /** The final loop closes and frees every session still in the map, which is
        then destroyed. */
    method Cleanup()
      modifies this`sessions, this`closed, this`open, this`freed
      ensures View() == DropAll(old(View()), old(sessions))
    {
      ghost var w := View();
      NothingVisited(w, {});
      VisitAll(w);
      AllVisited(w);
      sessions := map[];
    }

    method VisitAll(ghost w: Worker)
      requires Visited(w, {})
      modifies this`closed, this`open, this`freed
      ensures Visited(w, w.sessions.Keys)
    {
      var todo := sessions.Keys;
      ghost var visited: set<int> := {};
      while todo != {}
        invariant Parts(w.sessions.Keys, todo, visited) && Visited(w, visited)
        decreases todo
      {
        SomeMember(todo);
        var fd :| fd in todo;
        NextPart(w.sessions.Keys, todo, visited, fd);
        CloseAndFree(fd, w, visited);
        todo, visited := todo - {fd}, visited + {fd};
      }
      assert visited == w.sessions.Keys;
    }

    /** The ledgers after the sessions in `visited` have been closed and freed. */
    ghost predicate Visited(w: Worker, visited: set<int>)
      reads this
    {
      && sessions == w.sessions
      && closed == w.closed + multiset(visited) && open == w.open - visited
      && freed == w.freed + BufBag(Part(w.sessions, visited))
    }

    method CloseAndFree(fd: int, ghost w: Worker, ghost visited: set<int>)
      requires Visited(w, visited) && fd in sessions && fd !in visited
      modifies this`closed, this`open, this`freed
      ensures Visited(w, visited + {fd})
    {
      VisitOneMore(w, visited, fd);
      Close(fd);
      FreeAll(sessions[fd].buffers);
    }
  }

  lemma AllVisited(w: Worker)
    ensures Part(w.sessions, w.sessions.Keys) == w.sessions && w.sessions - w.sessions.Keys == map[]
  {
  }

  /** The keys still to be visited and those visited already. */
  ghost predicate Parts(keys: set<int>, todo: set<int>, visited: set<int>) {
    todo + visited == keys && todo !! visited
  }

  lemma NextPart(keys: set<int>, todo: set<int>, visited: set<int>, fd: int)
    requires Parts(keys, todo, visited) && fd in todo
    ensures Parts(keys, todo - {fd}, visited + {fd}) && fd in keys && fd !in visited
  {
  }

  /** The sessions visited so far. */
  function Part(m: map<int, Session>, visited: set<int>): map<int, Session> {
    map fd | fd in m && fd in visited :: m[fd]
  }

  lemma NothingVisited(w: Worker, visited: set<int>)
    requires visited == {}
    ensures w.closed + multiset(visited) == w.closed && w.open - visited == w.open
    ensures w.freed + BufBag(Part(w.sessions, visited)) == w.freed
  {
    assert Part(w.sessions, visited).Keys == {};
  }

  lemma VisitOneMore(w: Worker, visited: set<int>, fd: int)
    requires fd in w.sessions && fd !in visited
    ensures w.closed + multiset(visited + {fd}) == w.closed + multiset(visited) + multiset{fd}
    ensures w.open - (visited + {fd}) == w.open - visited - {fd}
    ensures w.freed + BufBag(Part(w.sessions, visited + {fd}))
      == w.freed + BufBag(Part(w.sessions, visited)) + multiset(w.sessions[fd].buffers)
  {
    KeysInsert(visited, fd);
    var part := Part(w.sessions, visited);
    BufBagInsert(part, fd, w.sessions[fd]);
    assert Part(w.sessions, visited + {fd}) == part[fd := w.sessions[fd]];
  }

  /** The expired sessions among those visited. */
  function GoneIn(m: map<int, Session>, visited: set<int>, now: nat): map<int, Session> {
    map fd | fd in m && fd in visited && Expired(m[fd], now) :: m[fd]
  }

  lemma DropNothing(w: Worker, now: nat)
    ensures DropAll(w, GoneIn(w.sessions, {}, now)) == w
  {
    var gone := GoneIn(w.sessions, {}, now);
    assert gone.Keys == {};
    assert w.sessions - gone.Keys == w.sessions && w.open - gone.Keys == w.open;
    assert w.closed + multiset(gone.Keys) == w.closed && w.freed + BufBag(gone) == w.freed;
  }

  lemma VisitedAll(w: Worker, visited: set<int>, now: nat)
    requires visited == w.sessions.Keys
    ensures DropAll(w, GoneIn(w.sessions, visited, now)) == Sweep(w, now)
  {
    assert GoneIn(w.sessions, visited, now) == ExpiredIn(w.sessions, now);
  }

  /** Visiting one more session drops it if it has expired. */
  lemma DropOneMore(w: Worker, visited: set<int>, fd: int, now: nat)
    requires fd in w.sessions && fd !in visited
    ensures var before := DropAll(w, GoneIn(w.sessions, visited, now));
      var after := DropAll(w, GoneIn(w.sessions, visited + {fd}, now));
      after == if Expired(w.sessions[fd], now)
        then CloseFd(before, fd).(sessions := before.sessions - {fd},
                                  freed := before.freed + multiset(w.sessions[fd].buffers))
        else before
  {
    var g, h := GoneIn(w.sessions, visited, now), GoneIn(w.sessions, visited + {fd}, now);
    if Expired(w.sessions[fd], now) {
      assert h == g[fd := w.sessions[fd]];
      assert h.Keys == g.Keys + {fd};
      BufBagInsert(g, fd, w.sessions[fd]);
      assert w.sessions - h.Keys == (w.sessions - g.Keys) - {fd};
      assert w.open - h.Keys == (w.open - g.Keys) - {fd};
      KeysInsert(g.Keys, fd);
      assert w.closed + multiset(h.Keys) == (w.closed + multiset(g.Keys)) + multiset{fd};
      assert w.freed + BufBag(h) == (w.freed + BufBag(g)) + multiset(w.sessions[fd].buffers);
    } else {
      assert h == g;
    }
  }

  /** Preparing before or after the session is recorded comes to the same. */
  lemma QueueCommutes(c: Config, w: Worker, fd: int, env: Env)
    requires fd >= 0
    ensures env.hs.Agreed? ==>
      var a, ps := w.(accepted := w.accepted + multiset{fd}), AcceptPreps(c, fd, env);
      PrepAll(c, AcceptBase(c, w, fd, env), ps) == PrepAll(c, a, ps).(
        sessions := w.sessions[fd := NewSession(c, w, env)],
        nextBuf := w.nextBuf + |NewSession(c, w, env).buffers|)
  {
    var ps := AcceptPreps(c, fd, env);
    PrepAllAdds(c, AcceptBase(c, w, fd, env), ps);
    PrepAllAdds(c, w.(accepted := w.accepted + multiset{fd}), ps);
  }

  lemma AcceptLast(c: Config, w: Worker, fd: int, env: Env)
    ensures var b, ps := AcceptBase(c, w, fd, env), AcceptPreps(c, fd, env);
      PrepAll(c, b, ps + [Accepting(c)]) == Prep(c, PrepAll(c, b, ps), Accepting(c))
  {
    var ps := AcceptPreps(c, fd, env);
    assert (ps + [Accepting(c)])[..|ps|] == ps;
  }
}
