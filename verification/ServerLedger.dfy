/** Exactly-once close and free, and the descriptor discipline behind them. */
module ServerLedger {
  import opened Uring
  import opened ProvidedBuffers
  import opened Bags
  import opened ServerModel

  // ------------------------------------------------------ bags of map entries

  /** The bag of a map does not depend on the order its entries are visited. */
  lemma {:induction false} BufBagRemove(m: map<int, Session>, fd: int)
    requires fd in m
    ensures BufBag(m) == multiset(m[fd].buffers) + BufBag(m - {fd})
    decreases m.Keys
  {
    var k :| k in m.Keys && BufBag(m) == multiset(m[k].buffers) + BufBag(m - {k});
    if k != fd {
      var rest := m - {k} - {fd};
      BufBagRemove(m - {k}, fd);
      assert m - {fd} - {k} == rest;
      BufBagRemove(m - {fd}, k);
      Exchange(multiset(m[k].buffers), multiset(m[fd].buffers), BufBag(rest));
    }
  }

  lemma BufBagInsert(m: map<int, Session>, fd: int, s: Session)
    requires fd !in m
    ensures BufBag(m[fd := s]) == multiset(s.buffers) + BufBag(m)
  {
    BufBagRemove(m[fd := s], fd);
    assert m[fd := s] - {fd} == m;
  }

  /** Splitting a map splits its bag. */
  lemma {:induction false} BufBagSplit(m: map<int, Session>, gone: map<int, Session>)
    requires gone.Keys <= m.Keys && forall fd :: fd in gone ==> gone[fd] == m[fd]
    ensures BufBag(m) == BufBag(gone) + BufBag(m - gone.Keys)
    decreases gone.Keys
  {
    if gone.Keys == {} {
      assert m - gone.Keys == m;
    } else {
      SomeMember(gone.Keys);
      var fd :| fd in gone.Keys;
      BufBagRemove(gone, fd);
      BufBagRemove(m, fd);
      BufBagSplit(m - {fd}, gone - {fd});
      assert m - {fd} - (gone - {fd}).Keys == m - gone.Keys;
      Regroup(multiset(m[fd].buffers), BufBag(gone - {fd}), BufBag(m - gone.Keys));
    }
  }

  // ---------------------------------------------------------------- the ledger

  /** Every accepted descriptor has been closed once, or belongs to one session. */
  ghost predicate ClosedOnce(w: Worker) {
    w.accepted == w.closed + multiset(w.sessions.Keys)
  }

  /** Every allocated buffer has been freed once, or belongs to one session. */
  ghost predicate FreedOnce(w: Worker) {
    AllIds(w.nextBuf) == w.freed + BufBag(w.sessions)
  }

  /** A session has the shape its path gives it. */
  predicate WellShaped(c: Config, s: Session) {
    && (!s.reverse ==> s.deadline == 0)
    && (s.ms.Some? ==> c.multishot && !s.reverse && s.buffers == [])
    && (c.multishot && !s.reverse ==> s.ms.Some?)
  }

  ghost predicate AllShaped(c: Config, w: Worker) {
    forall fd :: fd in w.sessions ==> WellShaped(c, w.sessions[fd])
  }

  /** The descriptors of the listener, of the sessions and of accepted
      connections still waiting in the queue are open and all different. */
  ghost predicate FdsApart(c: Config, w: Worker, cq: seq<Cqe>) {
    && c.listenFd in w.open && c.listenFd !in w.sessions
    && w.sessions.Keys <= w.open
    && forall i :: 0 <= i < |cq| && IsNewConnection(cq[i]) ==>
         cq[i].res in w.open && cq[i].res !in w.sessions && cq[i].res != c.listenFd
  }

  predicate IsNewConnection(x: Cqe) {
    x.ctx.Some? && x.ctx.value.kind.Accept? && x.res >= 0
  }

  ghost predicate Ledger(c: Config, w: Worker) {
    ClosedOnce(w) && FreedOnce(w) && AllShaped(c, w)
  }

  lemma {:induction false} NewBuffersExtend(next: nat, n: nat)
    ensures AllIds(next + n) == AllIds(next) + multiset(NewBuffers(next, n))
  {
    if n > 0 {
      NewBuffersExtend(next, n - 1);
      assert seq(next + n, i => i) == seq(next + n - 1, i => i) + [next + n - 1];
      assert NewBuffers(next, n) == NewBuffers(next, n - 1) + [next + n - 1];
    } else {
      assert NewBuffers(next, 0) == [];
    }
  }

  lemma KeysSplit(keys: set<int>, gone: set<int>)
    requires gone <= keys
    ensures multiset(keys) == multiset(gone) + multiset(keys - gone)
  {
  }

  lemma NewSessionFits(c: Config, w: Worker, env: Env)
    requires env.hs.Agreed?
    ensures var s := NewSession(c, w, env);
      WellShaped(c, s) && AllIds(w.nextBuf + |s.buffers|) == AllIds(w.nextBuf) + multiset(s.buffers)
  {
    NewBuffersExtend(w.nextBuf, c.inFlight);
  }

  function Admitted(w: Worker, fd: int, s: Session): Worker {
    w.(accepted := w.accepted + multiset{fd}, sessions := w.sessions[fd := s],
       nextBuf := w.nextBuf + |s.buffers|)
  }

  lemma AdmitKeepsLedger(c: Config, w: Worker, fd: int, s: Session)
    requires Ledger(c, w) && fd !in w.sessions && WellShaped(c, s)
    requires AllIds(w.nextBuf + |s.buffers|) == AllIds(w.nextBuf) + multiset(s.buffers)
    ensures Ledger(c, Admitted(w, fd, s))
  {
    var w' := Admitted(w, fd, s);
    BufBagInsert(w.sessions, fd, s);
    FreedGrows(w.freed, BufBag(w.sessions), multiset(s.buffers));
    assert w'.sessions.Keys == w.sessions.Keys + {fd};
    KeysInsert(w.sessions.Keys, fd);
    Regroup(w.closed, multiset(w.sessions.Keys), multiset{fd});
  }

  lemma RefuseKeepsLedger(c: Config, w: Worker, fd: int)
    requires Ledger(c, w)
    ensures Ledger(c, CloseFd(w.(accepted := w.accepted + multiset{fd}), fd))
  {
    assert (w.closed + multiset(w.sessions.Keys)) + multiset{fd} == (w.closed + multiset{fd}) + multiset(w.sessions.Keys);
  }

  lemma AcceptKeepsLedger(c: Config, w: Worker, fd: int, env: Env)
    requires Ledger(c, w) && (fd >= 0 ==> fd !in w.sessions)
    ensures Ledger(c, AcceptBase(c, w, fd, env))
  {
    if fd >= 0 {
      if env.hs.Refused? {
        RefuseKeepsLedger(c, w, fd);
      } else {
        NewSessionFits(c, w, env);
        AdmitKeepsLedger(c, w, fd, NewSession(c, w, env));
      }
    }
  }

  lemma FreedGrows(freed: multiset<nat>, owned: multiset<nat>, fresh_: multiset<nat>)
    ensures (freed + owned) + fresh_ == freed + (fresh_ + owned)
  {
  }

  /** Ending a session keeps the ledger exactly because a session that is not
      freed owns no buffers. */
  lemma EndKeepsLedger(c: Config, w: Worker, fd: int, res: int, free: bool)
    requires Ledger(c, w) && (!free && fd in w.sessions ==> w.sessions[fd].buffers == [])
    ensures Ledger(c, EndSession(w, fd, res, free))
  {
    if fd in w.sessions {
      EndClosesOnce(w, fd, res, free);
      EndFreesOnce(w, fd, res, free);
    }
  }

  lemma EndClosesOnce(w: Worker, fd: int, res: int, free: bool)
    requires ClosedOnce(w) && fd in w.sessions
    ensures ClosedOnce(EndSession(w, fd, res, free))
  {
    KeysSplit(w.sessions.Keys, {fd});
    assert (w.sessions - {fd}).Keys == w.sessions.Keys - {fd};
    Regroup(w.closed, multiset({fd}), multiset(w.sessions.Keys - {fd}));
  }

  lemma EndFreesOnce(w: Worker, fd: int, res: int, free: bool)
    requires FreedOnce(w) && fd in w.sessions && (free || w.sessions[fd].buffers == [])
    ensures FreedOnce(EndSession(w, fd, res, free))
  {
    BufBagRemove(w.sessions, fd);
    Regroup(w.freed, multiset(w.sessions[fd].buffers), BufBag(w.sessions - {fd}));
  }

  lemma DropKeepsLedger(c: Config, w: Worker, gone: map<int, Session>)
    requires Ledger(c, w)
    requires gone.Keys <= w.sessions.Keys && forall fd :: fd in gone ==> gone[fd] == w.sessions[fd]
    ensures Ledger(c, DropAll(w, gone))
  {
    BufBagSplit(w.sessions, gone);
    KeysSplit(w.sessions.Keys, gone.Keys);
    assert (w.sessions - gone.Keys).Keys == w.sessions.Keys - gone.Keys;
    Regroup(w.freed, BufBag(gone), BufBag(w.sessions - gone.Keys));
    Regroup(w.closed, multiset(gone.Keys), multiset(w.sessions.Keys - gone.Keys));
  }

  /** The sweep leaves exactly the sessions that are not both reverse and past
      their deadline, unchanged, and closes exactly the others. */
  lemma SweepIsExact(w: Worker, now: nat)
    ensures var w' := Sweep(w, now);
      && (forall fd :: fd in w'.sessions <==> fd in w.sessions && !(w.sessions[fd].reverse && now >= w.sessions[fd].deadline))
      && (forall fd :: fd in w'.sessions ==> w'.sessions[fd] == w.sessions[fd])
      && w'.closed == w.closed + multiset(w.sessions.Keys - w'.sessions.Keys)
      && w'.sq == w.sq
  {
    var gone := ExpiredIn(w.sessions, now);
    assert w.sessions.Keys - (w.sessions - gone.Keys).Keys == gone.Keys;
  }

  /** A session admitted at some time survives a sweep at any time `now`, except
      a reverse one from the end of the agreed duration on. */
  lemma AdmittedUntilDeadline(c: Config, w: Worker, fd: int, env: Env, now: nat)
    requires |w.pool.ring.slots| > 0 && fd >= 0 && env.hs.Agreed?
    ensures var w' := Process(c, w, Cqe(Some(Accepting(c)), fd, false, false, None), env);
      fd in Sweep(w', now).sessions <==> !env.hs.reverse || now < env.now + env.hs.duration
  {
    var x := Cqe(Some(Accepting(c)), fd, false, false, None);
    ProcessQueue(c, w, x, env);
    SweepIsExact(Process(c, w, x, env), now);
  }

  /** Reverse-session gating: a send completion prepares another send exactly when
      it carries a result worth retrying and its descriptor now belongs to a
      reverse session whose deadline has not passed; never otherwise, whatever
      session the descriptor may have been reused for. */
  lemma SendGating(c: Config, w: Worker, x: Cqe, env: Env)
    requires AllShaped(c, w) && x.ctx.Some? && x.ctx.value.kind.Send?
    ensures Preps(c, w, x, env) ==
      if && !x.notif && (x.res > 0 || x.res == -EAGAIN) && !env.stop
         && x.ctx.value.fd in w.sessions
         && w.sessions[x.ctx.value.fd].reverse && env.now < w.sessions[x.ctx.value.fd].deadline
      then [x.ctx.value] else []
  {
    var fd := x.ctx.value.fd;
    if fd in w.sessions { assert WellShaped(c, w.sessions[fd]); }
  }
}
