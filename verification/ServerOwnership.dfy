/** Who owns which operation in a server run: one accept, one multishot receive
    per session, and every completion naming a session that is still in the map,
    even though the system reuses closed descriptors and freed addresses. */
module ServerOwnership {
  import opened Uring
  import opened Rings
  import opened ProvidedBuffers
  import opened Bags
  import opened Runs
  import opened ServerModel
  import opened ServerLedger

  // ------------------------------------------------------------- invariants

  /** What the kernel contract allows in the queue. */
  predicate CqeShape(c: Config, x: Cqe) {
    && x.ctx.Some?
    && (x.notif ==> x.ctx.value.kind.Send?)
    && (x.buf.Some? ==> x.res > 0 && x.ctx.value.kind.Recv? && c.multishot && !x.notif)
  }

  ghost predicate CqShape(c: Config, cq: seq<Cqe>) {
    forall i :: 0 <= i < |cq| ==> CqeShape(c, cq[i])
  }

  /** The accept operation exists at most once, and exactly once as long as every
      preparation has found a slot. */
  ghost predicate AcceptInv(acc: Ctx, toks: multiset<Ctx>, failed: nat) {
    && (forall t :: t in toks && t.kind.Accept? ==> t == acc && toks[t] == 1)
    && (failed == 0 ==> acc in toks)
  }

  predicate Owned(sessions: map<int, Session>, t: Ctx) {
    t.fd in sessions && sessions[t.fd].ms == Some(t.addr) && t == MsCtx(t.fd, t.addr)
  }

  /** Every receive belongs to the session it was issued for and exists once; as
      long as every preparation has found a slot, every multishot session has
      its receive. */
  ghost predicate MsInv(sessions: map<int, Session>, toks: multiset<Ctx>, failed: nat) {
    && (forall t :: t in toks && t.kind.Recv? ==> Owned(sessions, t) && toks[t] == 1)
    && (failed == 0 ==> forall fd :: fd in sessions && sessions[fd].ms.Some? ==>
          MsCtx(fd, sessions[fd].ms.value) in toks)
  }

  predicate Running(x: Cqe) { x.ctx.Some? && x.ctx.value.kind.Recv? && x.more }

  /** A completion with MORE set is followed by its operation: still with the
      kernel, or terminated further back in the queue. */
  ghost predicate MoreInv(inflight: multiset<Ctx>, cq: seq<Cqe>) {
    forall i :: 0 <= i < |cq| && Running(cq[i]) ==>
      cq[i].ctx.value in inflight + Bag(cq[i + 1..], TokenOf)
  }

  ghost predicate MultishotInv(s: State) {
    && MsInv(s.w.sessions, Tokens(s), s.w.failed)
    && MoreInv(s.inflight, s.cq)
    && PoolInv(s.w.pool, Bag(s.cq, BufOf))
  }

  ghost predicate Inv(c: Config, s: State) {
    && |s.w.pool.ring.slots| > 0
    && Ledger(c, s.w) && FdsApart(c, s.w, s.cq)
    && (s.phase.Done? ==> s.w.sessions == map[])
    && (!s.phase.Done? ==>
          && CqShape(c, s.cq)
          && AcceptInv(Accepting(c), Tokens(s), s.w.failed)
          && (c.multishot ==> MultishotInv(s)))
  }

  // ------------------------------------------------------- posting completions

  lemma MoreAppend(inflight: multiset<Ctx>, cq: seq<Cqe>, x: Cqe, inflight': multiset<Ctx>)
    requires MoreInv(inflight, cq) && inflight' + TokenOf(x) == inflight
    requires Running(x) ==> x.ctx.value in inflight'
    ensures MoreInv(inflight', cq + [x])
  {
    var cq' := cq + [x];
    forall i | 0 <= i < |cq'| && Running(cq'[i])
      ensures cq'[i].ctx.value in inflight' + Bag(cq'[i + 1..], TokenOf)
    {
      if i < |cq| {
        assert cq'[i + 1..] == cq[i + 1..] + [x];
        BagAppend(cq[i + 1..], x, TokenOf);
        StaysIn(cq[i].ctx.value, inflight, Bag(cq[i + 1..], TokenOf), TokenOf(x), inflight');
      }
    }
  }

  /** Posting a completion moves a token from the kernel to the queue. */
  lemma PostKeepsTokens(s: State, x: Cqe, s': State)
    requires s'.cq == s.cq + [x] && s'.w.sq == s.w.sq && s'.inflight + TokenOf(x) == s.inflight
    ensures Tokens(s') == Tokens(s)
  {
    BagAppend(s.cq, x, TokenOf);
    Regroup(multiset(s.w.sq) + s'.inflight, TokenOf(x), Bag(s.cq, TokenOf));
    assert Bag(s.cq, TokenOf) + TokenOf(x) == TokenOf(x) + Bag(s.cq, TokenOf);
    Regroup(multiset(s.w.sq), s'.inflight, TokenOf(x));
  }

  lemma PostKeepsFds(c: Config, w: Worker, cq: seq<Cqe>, x: Cqe, w': Worker)
    requires FdsApart(c, w, cq) && w'.sessions == w.sessions
    requires w'.open == if IsNewConnection(x) then w.open + {x.res} else w.open
    requires IsNewConnection(x) ==> x.res !in w.open
    ensures FdsApart(c, w', cq + [x])
  {
    forall i | 0 <= i < |cq + [x]| && IsNewConnection((cq + [x])[i])
      ensures (cq + [x])[i].res in w'.open && (cq + [x])[i].res !in w'.sessions && (cq + [x])[i].res != c.listenFd
    {
      if i < |cq| { assert (cq + [x])[i] == cq[i]; }
    }
  }

  lemma PostKeepsPool(s: State, x: Cqe, s': State)
    requires PoolInv(s.w.pool, Bag(s.cq, BufOf)) && s'.cq == s.cq + [x]
    requires x.buf.None? ==> s'.w.pool == s.w.pool
    requires x.buf.Some? ==> Len(s.w.pool.ring) > 0 && s'.w.pool == Take(s.w.pool)
                             && x.buf.value == Window(s.w.pool.ring)[0].bid
    ensures PoolInv(s'.w.pool, Bag(s'.cq, BufOf))
  {
    BagAppend(s.cq, x, BufOf);
    if x.buf.Some? {
      TakeKeepsPool(s.w.pool, Bag(s.cq, BufOf));
    } else {
      assert Bag(s'.cq, BufOf) == Bag(s.cq, BufOf);
    }
  }

  /** A kernel step that posts `x`. */
  ghost predicate Posts(c: Config, s: State, x: Cqe, s': State)
    requires |s.w.pool.ring.slots| > 0
  {
    && CqeShape(c, x) && s'.cq == s.cq + [x] && s'.inflight + TokenOf(x) == s.inflight
    && (Running(x) ==> x.ctx.value in s'.inflight)
    && (x.buf.None? ==> s'.w.pool == s.w.pool)
    && (x.buf.Some? ==> Len(s.w.pool.ring) > 0 && s'.w.pool == Take(s.w.pool)
                        && x.buf.value == Window(s.w.pool.ring)[0].bid)
    && (IsNewConnection(x) ==> x.res !in s.w.open)
    && s'.w == s.w.(pool := s'.w.pool, open := if IsNewConnection(x) then s.w.open + {x.res} else s.w.open)
    && s'.phase == s.phase
  }

  lemma PostsKeeps(c: Config, s: State, x: Cqe, s': State)
    requires Inv(c, s) && !s.phase.Done? && Posts(c, s, x, s')
    ensures Inv(c, s')
  {
    PostKeepsTokens(s, x, s');
    PostKeepsFds(c, s.w, s.cq, x, s'.w);
    if c.multishot {
      MoreAppend(s.inflight, s.cq, x, s'.inflight);
      PostKeepsPool(s, x, s');
    }
  }

  lemma TakesPosts(c: Config, s: State, ctx: Ctx, res: int, more: bool, s': State) returns (x: Cqe)
    requires |s.w.pool.ring.slots| > 0 && c.multishot && ctx in s.inflight && ctx.kind.Recv?
    requires Takes(s, ctx, res, more, s')
    ensures Posts(c, s, x, s')
  {
    x := Cqe(Some(ctx), res, more, false, Some(Window(s.w.pool.ring)[0].bid));
    assert s.inflight == (s.inflight - multiset{ctx}) + multiset{ctx};
  }

  lemma RetirePosts(c: Config, s: State, ctx: Ctx, x: Cqe, s': State)
    requires |s.w.pool.ring.slots| > 0 && ctx in s.inflight && CqeShape(c, x)
    requires TokenOf(x) == multiset{ctx} && x.buf.None? && !Running(x)
    requires s'.cq == s.cq + [x] && s'.inflight == s.inflight - multiset{ctx} && s'.phase == s.phase
    requires IsNewConnection(x) ==> x.res !in s.w.open
    requires s'.w == s.w.(open := if IsNewConnection(x) then s.w.open + {x.res} else s.w.open)
    ensures Posts(c, s, x, s')
  {
    assert s.inflight == (s.inflight - multiset{ctx}) + multiset{ctx};
  }

  predicate Posting(step: Step) {
    step.KernelAccept? || step.KernelSend? || step.KernelNotif? || step.KernelRecv? || step.KernelData? || step.KernelEnd?
  }

  lemma KernelPosts(c: Config, s: State, step: Step, s': State) returns (x: Cqe)
    requires |s.w.pool.ring.slots| > 0 && KernelNext(c, s, step, s') && Posting(step)
    ensures Posts(c, s, x, s')
  {
    match step
    case KernelAccept(res) =>
      x := Cqe(Some(Accepting(c)), res, false, false, None);
      RetirePosts(c, s, Accepting(c), x, s');
    case KernelSend(ctx, res, notify) =>
      x := Cqe(Some(ctx), res, notify, false, None);
      RetirePosts(c, s, ctx, x, s');
    case KernelNotif(ctx, res) => x := Cqe(Some(ctx), res, false, true, None);
    case KernelRecv(ctx, res) =>
      x := Cqe(Some(ctx), res, false, false, None);
      RetirePosts(c, s, ctx, x, s');
    case KernelData(ctx, res) => x := TakesPosts(c, s, ctx, res, true, s');
    case KernelEnd(ctx, res, withBuffer) =>
      if withBuffer {
        x := TakesPosts(c, s, ctx, res, false, s');
      } else {
        x := Cqe(Some(ctx), res, false, false, None);
        RetirePosts(c, s, ctx, x, s');
      }
  }

  lemma KernelKeeps(c: Config, s: State, step: Step, s': State)
    requires Inv(c, s) && !s.phase.Done? && KernelNext(c, s, step, s')
    ensures Inv(c, s')
  {
    if Posting(step) {
      var x := KernelPosts(c, s, step, s');
      PostsKeeps(c, s, x, s');
    } else {
      assert Tokens(s') == Tokens(s);
    }
  }

  // ------------------------------------------------- submitting and sweeping

  lemma MoreGrows(inflight: multiset<Ctx>, extra: multiset<Ctx>, cq: seq<Cqe>)
    requires MoreInv(inflight, cq)
    ensures MoreInv(inflight + extra, cq)
  {
    forall i | 0 <= i < |cq| && Running(cq[i])
      ensures cq[i].ctx.value in (inflight + extra) + Bag(cq[i + 1..], TokenOf)
    {
      assert cq[i].ctx.value in inflight + Bag(cq[i + 1..], TokenOf);
    }
  }

  lemma SubmitKeeps(c: Config, s: State, phase: Phase)
    requires Inv(c, s) && !s.phase.Done? && !phase.Done?
    ensures Inv(c, Submitted(s).(phase := phase))
  {
    var s' := Submitted(s).(phase := phase);
    assert Tokens(s') == Tokens(s);
    if c.multishot { MoreGrows(s.inflight, multiset(s.w.sq), s.cq); }
  }

  /** A sweep removes reverse sessions only, so it orphans no receive. */
  lemma SweepKeeps(c: Config, s: State, phase: Phase)
    requires Inv(c, s) && !s.phase.Done? && !phase.Done?
    ensures Inv(c, s.(w := Sweep(s.w, s.clock), phase := phase))
  {
    var s' := s.(w := Sweep(s.w, s.clock), phase := phase);
    var gone := ExpiredIn(s.w.sessions, s.clock);
    DropKeepsLedger(c, s.w, gone);
    assert Tokens(s') == Tokens(s);
    if c.multishot {
      forall t | t in Tokens(s) && t.kind.Recv? ensures Owned(s'.w.sessions, t) {
        assert WellShaped(c, s.w.sessions[t.fd]);
      }
    }
  }

  // ----------------------------------------------------- processing: the accept

  /** The tokens of a state without the completion at the head of the queue. */
  function Rest(s: State): multiset<Ctx>
    requires s.cq != []
  {
    multiset(s.w.sq) + s.inflight + Bag(s.cq[1..], TokenOf)
  }

  lemma TokensSplit(s: State)
    requires s.cq != []
    ensures Tokens(s) == Rest(s) + TokenOf(s.cq[0])
  {
  }

  lemma ProcessTokens(c: Config, s: State, env: Env, s': State)
    requires |s.w.pool.ring.slots| > 0 && s.cq != []
    requires s'.w == Process(c, s.w, s.cq[0], env) && s'.cq == s.cq[1..] && s'.inflight == s.inflight
    ensures var ps := Preps(c, s.w, s.cq[0], env);
      var k := Room(c, |s.w.sq|, |ps|);
      && Tokens(s') == Rest(s) + multiset(ps[..k])
      && s'.w.failed == s.w.failed + |ps| - k
      && s'.w.sq == s.w.sq + ps[..k]
  {
    ProcessQueue(c, s.w, s.cq[0], env);
    var ps := Preps(c, s.w, s.cq[0], env);
    var k := Room(c, |s.w.sq|, |ps|);
    assert multiset(s.w.sq + ps[..k]) == multiset(s.w.sq) + multiset(ps[..k]);
  }

  /** A prefix of `front + [last]` holds `last` only when it is everything. */
  lemma PrefixCount(front: seq<Ctx>, last: Ctx, k: nat)
    requires k <= |front| + 1 && forall i :: 0 <= i < |front| ==> front[i] != last
    ensures multiset((front + [last])[..k])[last] == if k == |front| + 1 then 1 else 0
  {
    var all := front + [last];
    if k == |front| + 1 {
      assert all[..k] == front + [last];
      assert last !in front;
    } else {
      assert all[..k] == front[..k];
      assert last !in front[..k];
    }
  }

  lemma AcceptKeeps(c: Config, w: Worker, x: Cqe, env: Env, rest: multiset<Ctx>, k: nat, failed: nat)
    requires CqeShape(c, x) && k <= |Preps(c, w, x, env)|
    requires AcceptInv(Accepting(c), rest + TokenOf(x), failed)
    ensures AcceptInv(Accepting(c), rest + multiset(Preps(c, w, x, env)[..k]),
                      failed + |Preps(c, w, x, env)| - k)
    ensures x.ctx.value.kind.Accept? ==> forall t :: t in rest ==> !t.kind.Accept?
  {
    var acc, ps, toks := Accepting(c), Preps(c, w, x, env), rest + TokenOf(x);
    if x.ctx.value.kind.Accept? {
      assert x.ctx.value in toks;
      forall t | t in rest ensures !t.kind.Accept? { assert t in toks; }
      PrefixCount(AcceptPreps(c, x.res, env), acc, k);
      forall t | t in rest + multiset(ps[..k]) && t.kind.Accept?
        ensures t == acc && (rest + multiset(ps[..k]))[t] == 1
      {
        assert t in ps[..k];
      }
    } else {
      assert forall i :: 0 <= i < k ==> ps[..k][i] == x.ctx.value;
      forall t | t in rest + multiset(ps[..k]) && t.kind.Accept?
        ensures t == acc && (rest + multiset(ps[..k]))[t] == 1
      {
        assert t !in ps[..k];
        assert t in toks;
      }
    }
  }

  // --------------------------------------------- processing: multishot receives

  predicate NoRecv(ps: seq<Ctx>) { forall i :: 0 <= i < |ps| ==> !ps[i].kind.Recv? }

  /** Completions and preparations that are no receives, and new sessions that
      have none, do not touch the ownership of receives. */
  lemma MsUnrelated(sessions: map<int, Session>, sessions': map<int, Session>, tok: multiset<Ctx>,
                    rest: multiset<Ctx>, extra: seq<Ctx>, failed: nat, failed': nat)
    requires MsInv(sessions, rest + tok, failed) && failed <= failed'
    requires (forall t :: t in tok ==> !t.kind.Recv?) && NoRecv(extra)
    requires sessions.Keys <= sessions'.Keys && forall fd :: fd in sessions ==> sessions'[fd] == sessions[fd]
    requires forall fd :: fd in sessions' && fd !in sessions ==> sessions'[fd].ms.None?
    ensures MsInv(sessions', rest + multiset(extra), failed')
  {
    var toks, toks' := rest + tok, rest + multiset(extra);
    forall t | t in toks' && t.kind.Recv? ensures Owned(sessions', t) && toks'[t] == 1 {
      assert t !in extra;
      assert t in toks;
    }
    if failed' == 0 {
      forall fd | fd in sessions' && sessions'[fd].ms.Some? ensures MsCtx(fd, sessions'[fd].ms.value) in toks' {
        assert MsCtx(fd, sessions[fd].ms.value) in toks;
      }
    }
  }

  /** A new multishot session brings its own receive, if that found a slot. */
  lemma MsAdmitted(sessions: map<int, Session>, fd: int, s: Session, acc: Ctx, rest: multiset<Ctx>,
                   k: nat, failed: nat)
    requires fd !in sessions && s.ms.Some? && acc.kind.Accept? && k <= 2
    requires MsInv(sessions, rest + multiset{acc}, failed)
    ensures MsInv(sessions[fd := s], rest + multiset([MsCtx(fd, s.ms.value), acc][..k]), failed + 2 - k)
  {
    var m, sessions', toks := MsCtx(fd, s.ms.value), sessions[fd := s], rest + multiset{acc};
    var extra := [m, acc][..k];
    var toks' := rest + multiset(extra);
    assert extra == [] || extra == [m] || extra == [m, acc];
    assert multiset(extra)[m] <= 1;
    forall t | t in toks' && t.kind.Recv? ensures Owned(sessions', t) && toks'[t] == 1 {
      if t in rest { assert t in toks; } else { assert t in extra; }
    }
    if failed + 2 - k == 0 {
      forall d | d in sessions' && sessions'[d].ms.Some? ensures MsCtx(d, sessions'[d].ms.value) in toks' {
        if d == fd { assert extra[0] == m; } else { assert MsCtx(d, sessions[d].ms.value) in toks; }
      }
    }
  }

  lemma MsAfterAccept(c: Config, w: Worker, x: Cqe, env: Env, rest: multiset<Ctx>, k: nat, failed: nat)
    requires c.multishot && |w.pool.ring.slots| > 0
    requires CqeShape(c, x) && x.ctx.value.kind.Accept? && k <= |Preps(c, w, x, env)|
    requires x.ctx.value == Accepting(c)
    requires MsInv(w.sessions, rest + TokenOf(x), failed) && (x.res >= 0 ==> x.res !in w.sessions)
    ensures MsInv(Base(c, w, x, env).sessions, rest + multiset(Preps(c, w, x, env)[..k]),
                  failed + |Preps(c, w, x, env)| - k)
  {
    var ps := Preps(c, w, x, env);
    if x.res >= 0 && env.hs.Agreed? && !env.hs.reverse {
      assert ps == [MsCtx(x.res, env.addr), Accepting(c)];
      MsAdmitted(w.sessions, x.res, NewSession(c, w, env), Accepting(c), rest, k, failed);
    } else {
      AcceptWithoutRecv(c, w, x, env, k);
      MsUnrelated(w.sessions, Base(c, w, x, env).sessions, TokenOf(x), rest, ps[..k], failed, failed + |ps| - k);
    }
  }

  /** A refused connection and a reverse one bring no receive. */
  lemma AcceptWithoutRecv(c: Config, w: Worker, x: Cqe, env: Env, k: nat)
    requires c.multishot && |w.pool.ring.slots| > 0 && x.ctx == Some(Accepting(c)) && k <= |Preps(c, w, x, env)|
    requires x.res >= 0 && env.hs.Agreed? ==> env.hs.reverse && x.res !in w.sessions
    ensures NoRecv(Preps(c, w, x, env)[..k])
    ensures var m, m' := w.sessions, Base(c, w, x, env).sessions;
      && m.Keys <= m'.Keys && (forall fd :: fd in m ==> m'[fd] == m[fd])
      && (forall fd :: fd in m' && fd !in m ==> m'[fd].ms.None?)
  {
  }

  lemma MsAfterSend(c: Config, w: Worker, x: Cqe, env: Env, rest: multiset<Ctx>, k: nat, failed: nat)
    requires |w.pool.ring.slots| > 0
    requires CqeShape(c, x) && x.ctx.value.kind.Send? && k <= |Preps(c, w, x, env)|
    requires MsInv(w.sessions, rest + TokenOf(x), failed)
    ensures MsInv(Base(c, w, x, env).sessions, rest + multiset(Preps(c, w, x, env)[..k]),
                  failed + |Preps(c, w, x, env)| - k)
  {
    var ps := Preps(c, w, x, env);
    assert NoRecv(ps[..k]);
    MsUnrelated(w.sessions, Base(c, w, x, env).sessions, TokenOf(x), rest, ps[..k], failed, failed + |ps| - k);
  }

  /** A terminating completion holds its receive's only token, so nothing else
      names the session it ends. */
  lemma LastToken(sessions: map<int, Session>, x: Cqe, rest: multiset<Ctx>, failed: nat)
    requires MsInv(sessions, rest + TokenOf(x), failed)
    requires x.ctx.Some? && x.ctx.value.kind.Recv? && !x.more && !x.notif
    ensures Owned(sessions, x.ctx.value)
    ensures forall t :: t in rest && t.kind.Recv? ==> t.fd != x.ctx.value.fd && rest[t] == 1 && Owned(sessions, t)
  {
    var ctx, toks := x.ctx.value, rest + TokenOf(x);
    assert ctx in toks;
    forall t | t in rest && t.kind.Recv? ensures t.fd != ctx.fd && rest[t] == 1 && Owned(sessions, t) {
      assert t in toks;
    }
  }

  lemma MsAfterRecv(c: Config, w: Worker, x: Cqe, env: Env, rest: multiset<Ctx>, k: nat, failed: nat)
    requires c.multishot && |w.pool.ring.slots| > 0
    requires CqeShape(c, x) && x.ctx.value.kind.Recv? && k <= |Preps(c, w, x, env)|
    requires MsInv(w.sessions, rest + TokenOf(x), failed)
    ensures MsInv(Base(c, w, x, env).sessions, rest + multiset(Preps(c, w, x, env)[..k]),
                  failed + |Preps(c, w, x, env)| - k)
  {
    var ps, toks, ctx := Preps(c, w, x, env), rest + TokenOf(x), x.ctx.value;
    if x.more {
      assert ps[..k] == [];
      assert toks == rest == rest + multiset(ps[..k]);
    } else {
      LastToken(w.sessions, x, rest, failed);
      if x.res == -ENOBUFS {
        MsRearmed(w.sessions, ctx, rest, k, failed);
        assert [ctx][..k] == ps[..k];
      } else {
        assert ps[..k] == [];
        assert rest + multiset(ps[..k]) == rest;
        MsEnded(w.sessions, ctx, rest, failed);
      }
    }
  }

  lemma MsRearmed(sessions: map<int, Session>, ctx: Ctx, rest: multiset<Ctx>, k: nat, failed: nat)
    requires k <= 1 && Owned(sessions, ctx)
    requires MsInv(sessions, rest + multiset{ctx}, failed)
    requires forall t :: t in rest && t.kind.Recv? ==> t.fd != ctx.fd && rest[t] == 1 && Owned(sessions, t)
    ensures MsInv(sessions, rest + multiset([ctx][..k]), failed + 1 - k)
  {
    if k == 1 {
      assert [ctx][..1] == [ctx];
      assert multiset([ctx]) == multiset{ctx};
    } else {
      assert [ctx][..0] == [];
      assert rest + multiset([ctx][..0]) == rest;
    }
  }

  lemma MsEnded(sessions: map<int, Session>, ctx: Ctx, rest: multiset<Ctx>, failed: nat)
    requires MsInv(sessions, rest + multiset{ctx}, failed)
    requires forall t :: t in rest && t.kind.Recv? ==> t.fd != ctx.fd && rest[t] == 1 && Owned(sessions, t)
    ensures MsInv(sessions - {ctx.fd}, rest, failed)
  {
    var toks, left := rest + multiset{ctx}, sessions - {ctx.fd};
    if failed == 0 {
      forall fd | fd in left && left[fd].ms.Some? ensures MsCtx(fd, left[fd].ms.value) in rest {
        assert MsCtx(fd, sessions[fd].ms.value) in toks;
      }
    }
  }

  lemma MsKeeps(c: Config, w: Worker, x: Cqe, env: Env, rest: multiset<Ctx>, k: nat, failed: nat)
    requires c.multishot && |w.pool.ring.slots| > 0
    requires CqeShape(c, x) && k <= |Preps(c, w, x, env)|
    requires MsInv(w.sessions, rest + TokenOf(x), failed)
    requires IsNewConnection(x) ==> x.res !in w.sessions
    requires x.ctx.value.kind.Accept? ==> x.ctx.value == Accepting(c)
    ensures MsInv(Base(c, w, x, env).sessions, rest + multiset(Preps(c, w, x, env)[..k]),
                  failed + |Preps(c, w, x, env)| - k)
  {
    match x.ctx.value.kind
    case Accept => MsAfterAccept(c, w, x, env, rest, k, failed);
    case Send => MsAfterSend(c, w, x, env, rest, k, failed);
    case Recv => MsAfterRecv(c, w, x, env, rest, k, failed);
  }

  // ------------------------------- processing: descriptors, ledger and buffers

  lemma EndKeepsFds(c: Config, w: Worker, fd: int, res: int, free: bool, tail: seq<Cqe>)
    requires FdsApart(c, w, tail)
    ensures FdsApart(c, EndSession(w, fd, res, free), tail)
  {
  }

  lemma AcceptKeepsFds(c: Config, w: Worker, fd: int, env: Env, tail: seq<Cqe>)
    requires FdsApart(c, w, tail) && (fd >= 0 ==> fd in w.open && fd !in w.sessions && fd != c.listenFd)
    requires forall i :: 0 <= i < |tail| ==> !IsNewConnection(tail[i])
    ensures FdsApart(c, AcceptBase(c, w, fd, env), tail)
  {
  }

  lemma FdsAfterProcess(c: Config, w: Worker, x: Cqe, env: Env, tail: seq<Cqe>)
    requires |w.pool.ring.slots| > 0 && CqeShape(c, x) && FdsApart(c, w, [x] + tail)
    requires x.ctx.value.kind.Accept? ==> forall i :: 0 <= i < |tail| ==> !IsNewConnection(tail[i])
    ensures FdsApart(c, Base(c, w, x, env), tail)
  {
    assert FdsApart(c, w, tail) by {
      forall i | 0 <= i < |tail| && IsNewConnection(tail[i])
        ensures tail[i].res in w.open && tail[i].res !in w.sessions && tail[i].res != c.listenFd
      {
        assert ([x] + tail)[i + 1] == tail[i];
      }
    }
    match x.ctx.value.kind
    case Accept =>
      assert ([x] + tail)[0] == x;
      AcceptKeepsFds(c, w, x.res, env, tail);
    case Send =>
    case Recv =>
      EndKeepsFds(c, w, x.ctx.value.fd, x.res, !c.multishot, tail);
  }

  lemma LedgerAfterProcess(c: Config, w: Worker, x: Cqe, env: Env)
    requires |w.pool.ring.slots| > 0 && CqeShape(c, x) && Ledger(c, w)
    requires IsNewConnection(x) ==> x.res !in w.sessions
    requires c.multishot && x.ctx.value.kind.Recv? && !x.more && x.ctx.value.fd in w.sessions ==>
      w.sessions[x.ctx.value.fd].ms.Some?
    ensures Ledger(c, Base(c, w, x, env))
  {
    match x.ctx.value.kind
    case Accept => AcceptKeepsLedger(c, w, x.res, env);
    case Send =>
    case Recv =>
      var fd := x.ctx.value.fd;
      if !c.multishot || !x.more {
        if fd in w.sessions { assert WellShaped(c, w.sessions[fd]); }
        EndKeepsLedger(c, w, fd, x.res, !c.multishot);
      }
  }

  lemma PoolAfterProcess(c: Config, w: Worker, x: Cqe, env: Env, held: multiset<nat>)
    requires c.multishot && CqeShape(c, x) && PoolInv(w.pool, BufOf(x) + held)
    ensures PoolInv(Base(c, w, x, env).pool, held)
  {
    if x.buf.Some? {
      ReturnKeepsPool(w.pool, BufOf(x) + held, x.buf.value);
      assert (BufOf(x) + held) - multiset{x.buf.value} == held;
    } else {
      assert BufOf(x) + held == held;
    }
  }

  lemma MoreTail(inflight: multiset<Ctx>, cq: seq<Cqe>)
    requires cq != [] && MoreInv(inflight, cq)
    ensures MoreInv(inflight, cq[1..])
  {
    forall i | 0 <= i < |cq[1..]| && Running(cq[1..][i])
      ensures cq[1..][i].ctx.value in inflight + Bag(cq[1..][i + 1..], TokenOf)
    {
      assert cq[1..][i] == cq[i + 1] && cq[1..][i + 1..] == cq[i + 1 + 1..];
    }
  }

  // --------------------------------------------------------- processing: whole

  lemma NoConnectionsIn(c: Config, tail: seq<Cqe>)
    requires CqShape(c, tail) && forall t :: t in Bag(tail, TokenOf) ==> !t.kind.Accept?
    ensures forall i :: 0 <= i < |tail| ==> !IsNewConnection(tail[i])
  {
    forall i | 0 <= i < |tail| ensures !IsNewConnection(tail[i]) {
      assert CqeShape(c, tail[i]);
      if tail[i].ctx.value.kind.Accept? { InBag(tail, i, tail[i].ctx.value, TokenOf); }
    }
  }

  lemma TailShape(c: Config, cq: seq<Cqe>)
    requires cq != [] && CqShape(c, cq)
    ensures CqeShape(c, cq[0]) && CqShape(c, cq[1..])
  {
  }

  /** The head completion is an accept: it is the accept, and the only one. */
  lemma HeadAccept(c: Config, s: State)
    requires s.cq != [] && CqShape(c, s.cq) && AcceptInv(Accepting(c), Tokens(s), s.w.failed)
    requires s.cq[0].ctx.Some? && s.cq[0].ctx.value.kind.Accept?
    ensures s.cq[0].ctx.value == Accepting(c)
    ensures forall i :: 0 <= i < |s.cq[1..]| ==> !IsNewConnection(s.cq[1..][i])
  {
    var tok := s.cq[0].ctx.value;
    TailShape(c, s.cq);
    TokensSplit(s);
    assert tok in Tokens(s);
    forall t | t in Bag(s.cq[1..], TokenOf) ensures !t.kind.Accept? {
      assert t in Tokens(s);
      assert Tokens(s)[t] == Rest(s)[t] + TokenOf(s.cq[0])[t];
    }
    NoConnectionsIn(c, s.cq[1..]);
  }

  lemma ProcessKeepsMultishot(c: Config, s: State, env: Env, s': State)
    requires c.multishot && Inv(c, s) && !s.phase.Done? && s.cq != []
    requires s'.w == Process(c, s.w, s.cq[0], env) && s'.cq == s.cq[1..] && s'.inflight == s.inflight
    ensures MultishotInv(s')
  {
    var x := s.cq[0];
    var ps := Preps(c, s.w, x, env);
    var k := Room(c, |s.w.sq|, |ps|);
    TokensSplit(s);
    ProcessTokens(c, s, env, s');
    ProcessQueue(c, s.w, x, env);
    assert CqeShape(c, x);
    if x.ctx.value.kind.Accept? { HeadAccept(c, s); }
    MsKeeps(c, s.w, x, env, Rest(s), k, s.w.failed);
    MoreTail(s.inflight, s.cq);
    PoolAfterProcess(c, s.w, x, env, Bag(s.cq[1..], BufOf));
  }

  lemma ProcessKeepsAccept(c: Config, s: State, env: Env, s': State)
    requires Inv(c, s) && !s.phase.Done? && s.cq != []
    requires s'.w == Process(c, s.w, s.cq[0], env) && s'.cq == s.cq[1..] && s'.inflight == s.inflight
    ensures AcceptInv(Accepting(c), Tokens(s'), s'.w.failed)
  {
    var ps := Preps(c, s.w, s.cq[0], env);
    TokensSplit(s);
    ProcessTokens(c, s, env, s');
    AcceptKeeps(c, s.w, s.cq[0], env, Rest(s), Room(c, |s.w.sq|, |ps|), s.w.failed);
  }

  lemma ProcessKeepsFds(c: Config, s: State, env: Env, s': State)
    requires Inv(c, s) && !s.phase.Done? && s.cq != []
    requires s'.w == Process(c, s.w, s.cq[0], env) && s'.cq == s.cq[1..]
    ensures FdsApart(c, s'.w, s'.cq)
  {
    var x, tail := s.cq[0], s.cq[1..];
    ProcessQueue(c, s.w, x, env);
    TailShape(c, s.cq);
    assert s.cq == [x] + tail;
    if x.ctx.value.kind.Accept? { HeadAccept(c, s); }
    FdsAfterProcess(c, s.w, x, env, tail);
  }

  lemma HeadEndsOwnSession(c: Config, s: State)
    requires Inv(c, s) && !s.phase.Done? && s.cq != [] && c.multishot
    requires s.cq[0].ctx.Some? && s.cq[0].ctx.value.kind.Recv? && !s.cq[0].more
    ensures Owned(s.w.sessions, s.cq[0].ctx.value)
  {
    TailShape(c, s.cq);
    TokensSplit(s);
    LastToken(s.w.sessions, s.cq[0], Rest(s), s.w.failed);
  }

  lemma ProcessKeepsLedger(c: Config, s: State, env: Env, s': State)
    requires Inv(c, s) && !s.phase.Done? && s.cq != []
    requires s'.w == Process(c, s.w, s.cq[0], env)
    ensures Ledger(c, s'.w) && |s'.w.pool.ring.slots| > 0
  {
    var x := s.cq[0];
    ProcessQueue(c, s.w, x, env);
    TailShape(c, s.cq);
    if c.multishot && x.ctx.value.kind.Recv? && !x.more { HeadEndsOwnSession(c, s); }
    LedgerAfterProcess(c, s.w, x, env);
    BaseKeepsSlots(c, s.w, x, env);
  }

  lemma WorkerKeeps(c: Config, s: State, step: Step, s': State)
    requires Inv(c, s) && !s.phase.Done? && WorkerNext(c, s, step, s')
    ensures Inv(c, s')
  {
    match step
    case Expire => SweepKeeps(c, s, Swept);
    case Reap(k) => if k == 0 { SubmitKeeps(c, s, Head); }
    case ProcessOne(hs, addr) =>
      var env := Env(s.clock, s.stop, hs, addr);
      ProcessKeepsAccept(c, s, env, s');
      ProcessKeepsLedger(c, s, env, s');
      ProcessKeepsFds(c, s, env, s');
      TailShape(c, s.cq);
      if c.multishot { ProcessKeepsMultishot(c, s, env, s'); }
    case EndBatch => SubmitKeeps(c, s, Head);
    case Quit => DropKeepsLedger(c, s.w, s.w.sessions);
  }

  // ------------------------------------------------------------------- runs

  lemma InitHolds(c: Config, s: State)
    requires Init(c, s)
    ensures Inv(c, s)
  {
    assert Bag(s.cq, TokenOf) == multiset{} && Bag(s.cq, BufOf) == multiset{};
    assert Tokens(s) == if c.capacity > 0 then multiset{Accepting(c)} else multiset{};
    assert AllIds(0) == multiset{};
    if c.multishot { FilledHoldsAll(s.w.pool); }
  }

  lemma StepKeeps(c: Config, s: State, step: Step, s': State)
    requires Inv(c, s) && Next(c, s, step, s')
    ensures Inv(c, s')
  {
    if KernelNext(c, s, step, s') { KernelKeeps(c, s, step, s'); } else { WorkerKeeps(c, s, step, s'); }
  }

  lemma ReachableInv(c: Config, s: State)
    requires Reachable(c, s)
    ensures Inv(c, s)
  {
    var inv := (s: State) => Inv(c, s);
    forall s | Starts(c)(s) ensures inv(s) { InitHolds(c, s); }
    forall s, step, s' | inv(s) && Steps(c)(s, step, s') ensures inv(s') { StepKeeps(c, s, step, s'); }
    Always(Starts(c), Steps(c), inv, s);
  }

  /** Ownership at every point of every multishot run, with reverse sessions
      mixed in: whatever receive is queued, in flight or named by an unread
      completion belongs to a session that is in the map now, under its own
      descriptor and with its own context; and as long as no preparation has
      failed there is exactly one accept, and exactly one receive per receiving
      session. */
  lemma ReceiveOwnership(c: Config, s: State)
    requires Reachable(c, s) && !s.phase.Done? && c.multishot
    ensures forall t :: t in Tokens(s) && t.kind.Recv? ==> Owned(s.w.sessions, t) && Tokens(s)[t] == 1
    ensures forall j :: 0 <= j < |s.cq| && s.cq[j].ctx.Some? && s.cq[j].ctx.value.kind.Recv? ==>
      Owned(s.w.sessions, s.cq[j].ctx.value)
    ensures s.w.failed == 0 ==> Tokens(s)[Accepting(c)] == 1
    ensures s.w.failed == 0 ==> forall fd :: fd in s.w.sessions && !s.w.sessions[fd].reverse ==>
      s.w.sessions[fd].ms.Some? && Tokens(s)[MsCtx(fd, s.w.sessions[fd].ms.value)] == 1
  {
    ReachableInv(c, s);
    forall j | 0 <= j < |s.cq| && s.cq[j].ctx.Some? && s.cq[j].ctx.value.kind.Recv?
      ensures Owned(s.w.sessions, s.cq[j].ctx.value)
    {
      NamedIsToken(c, s, j);
    }
    if s.w.failed == 0 { OneReceiveEach(c, s); }
  }

  lemma OneReceiveEach(c: Config, s: State)
    requires AllShaped(c, s.w) && c.multishot && MsInv(s.w.sessions, Tokens(s), 0)
    ensures forall fd :: fd in s.w.sessions && !s.w.sessions[fd].reverse ==>
      s.w.sessions[fd].ms.Some? && Tokens(s)[MsCtx(fd, s.w.sessions[fd].ms.value)] == 1
  {
    forall fd | fd in s.w.sessions && !s.w.sessions[fd].reverse
      ensures s.w.sessions[fd].ms.Some? && Tokens(s)[MsCtx(fd, s.w.sessions[fd].ms.value)] == 1
    {
      assert WellShaped(c, s.w.sessions[fd]);
    }
  }

  /** A receive named in the queue is outstanding. */
  lemma NamedIsToken(c: Config, s: State, j: nat)
    requires CqShape(c, s.cq) && MoreInv(s.inflight, s.cq)
    requires j < |s.cq| && s.cq[j].ctx.Some? && s.cq[j].ctx.value.kind.Recv?
    ensures s.cq[j].ctx.value in Tokens(s)
  {
    var t := s.cq[j].ctx.value;
    assert CqeShape(c, s.cq[j]);
    if s.cq[j].more {
      if t in Bag(s.cq[j + 1..], TokenOf) { InSuffix(s.cq, j + 1, t, TokenOf); }
    } else {
      InBag(s.cq, j, t, TokenOf);
    }
  }

  /** Exactly-once close in every run, whatever the mix of session kinds: a
      descriptor has been accepted once more than it has been closed exactly
      while it belongs to a session; when the worker has quit, every accepted
      descriptor has been closed as often as it was accepted. */
  lemma ExactlyOnceClose(c: Config, s: State, fd: int)
    requires Reachable(c, s)
    ensures s.w.accepted[fd] == s.w.closed[fd] + if fd in s.w.sessions then 1 else 0
    ensures s.phase.Done? ==> s.w.accepted[fd] == s.w.closed[fd]
  {
    ReachableInv(c, s);
    assert s.w.accepted[fd] == (s.w.closed + multiset(s.w.sessions.Keys))[fd];
  }

  /** Exactly-once free in every run: each buffer ever allocated has been freed
      once or is owned by the sessions once; after quitting all are freed. */
  lemma ExactlyOnceFree(c: Config, s: State, id: nat)
    requires Reachable(c, s)
    ensures s.w.freed[id] + BufBag(s.w.sessions)[id] == if id < s.w.nextBuf then 1 else 0
    ensures s.phase.Done? ==> s.w.freed[id] == if id < s.w.nextBuf then 1 else 0
  {
    ReachableInv(c, s);
    EachIdOnce(s.w.nextBuf, id);
    assert AllIds(s.w.nextBuf)[id] == (s.w.freed + BufBag(s.w.sessions))[id];
  }

  /** The multishot branch erases a session without freeing anything; in every
      run the session it finds is its own and owns no buffers. */
  lemma MultishotCloseLosesNothing(c: Config, s: State)
    requires Reachable(c, s) && !s.phase.Done? && c.multishot && s.cq != []
    requires s.cq[0].ctx.Some? && s.cq[0].ctx.value.kind.Recv? && !s.cq[0].more
    ensures var fd := s.cq[0].ctx.value.fd;
      fd in s.w.sessions && s.w.sessions[fd].buffers == [] && !s.w.sessions[fd].reverse
  {
    ReachableInv(c, s);
    HeadEndsOwnSession(c, s);
    assert WellShaped(c, s.w.sessions[s.cq[0].ctx.value.fd]);
  }

  /** Gating in every run: processing a send completion prepares the same send
      again exactly when its result allows it and the descriptor belongs, at that
      moment, to a reverse session before its deadline. A completion left over
      from a swept session thus never sends on a reused descriptor that now
      receives. */
  lemma ReverseGating(c: Config, s: State, hs: Handshake, addr: nat)
    requires Reachable(c, s) && s.phase.Batch? && s.phase.left > 0 && s.cq != []
    requires s.cq[0].ctx.Some? && s.cq[0].ctx.value.kind.Send?
    ensures |s.w.pool.ring.slots| > 0
    ensures var x, w' := s.cq[0], Processed(c, s, Env(s.clock, s.stop, hs, addr)).w;
      var fd := x.ctx.value.fd;
      var again := && !x.notif && (x.res > 0 || x.res == -EAGAIN) && !s.stop
                   && fd in s.w.sessions && s.w.sessions[fd].reverse && s.clock < s.w.sessions[fd].deadline;
      && w'.sessions == s.w.sessions
      && w'.sq == (if again && |s.w.sq| < c.capacity then s.w.sq + [x.ctx.value] else s.w.sq)
      && w'.failed == s.w.failed + (if again && |s.w.sq| >= c.capacity then 1 else 0)
  {
    ReachableInv(c, s);
    var env := Env(s.clock, s.stop, hs, addr);
    SendGating(c, s.w, s.cq[0], env);
    SinglePrep(c, s.w, s.cq[0], env);
    BaseKeepsQueue(c, s.w, s.cq[0], env);
  }

  /** The shared buffer ring in every multishot run: each buffer is in the ring
      or in exactly one unread completion, and every slot of the window holds the
      address of its own buffer. */
  lemma SharedRingConservation(c: Config, s: State, id: nat)
    requires Reachable(c, s) && !s.phase.Done? && c.multishot && id < |s.w.pool.ring.slots|
    ensures multiset(Ids(Window(s.w.pool.ring)))[id] + Bag(s.cq, BufOf)[id] == 1
    ensures forall i :: 0 <= i < Len(s.w.pool.ring) ==>
      Window(s.w.pool.ring)[i].addr == s.w.pool.base + Window(s.w.pool.ring)[i].bid * s.w.pool.size
  {
    ReachableInv(c, s);
    ExactlyOnePlace(s.w.pool, Bag(s.cq, BufOf), id);
    OwnAddresses(s.w.pool, Bag(s.cq, BufOf));
  }
}
