/** The zero-copy receive refill queue. The worker hands each delivered buffer
    back through a ring the kernel consumes; the kernel may advance its head at
    any moment, also between the worker's full check and its stores. */
module RefillQueue {
  import opened Bits
  import opened Rings
  import opened Runs

  /** A completion with MORE set and a positive result. */
  datatype Delivery = Delivery(off: nat, res: int)

  datatype Rqe = Rqe(off: nat, len: int)

  /** Where the worker is inside `zcrx_return_buffer`, with which delivery, and
      how many entries its full check saw. */
  datatype Stage = Passed | OffStored | LenStored
  datatype Pc = Idle | At(stage: Stage, d: Delivery, queued: nat)

  /** What became of a delivery whose return is over. */
  datatype Outcome = Outcome(d: Delivery, queued: nat, kept: bool)

  /** How far the kernel goes. Nothing is promised; or every delivery takes one
      whole buffer of an area, which is not delivered again before it has come
      back; or no check finds more than `bound` deliveries pending and queued. */
  datatype Limit = Free | Area(buffers: nat) | Pending(bound: nat)

  /** `token` is the area token, `shift` the bit where the area id starts. */
  datatype Config = Config(token: nat, shift: nat, entries: nat, limit: Limit)

  /** `outstanding` are deliveries not yet processed. `delivered` and `consumed`
      are the kernel's histories, `handled` is the worker's. */
  datatype State = State(
    ring: Ring<Rqe>, pc: Pc, outstanding: seq<Delivery>,
    delivered: seq<Delivery>, handled: seq<Outcome>, consumed: seq<Rqe>)

  datatype Step = Deliver(d: Delivery) | Check | StoreOff | StoreLen | PublishTail | Consume

  function RqeFor(c: Config, d: Delivery): Rqe {
    Rqe(Splice(d.off, c.token, c.shift), d.res)
  }

  function Rqes(c: Config, ds: seq<Delivery>): seq<Rqe> {
    seq(|ds|, i requires 0 <= i < |ds| => RqeFor(c, ds[i]))
  }

  function TailEntry(r: Ring<Rqe>): Rqe
    requires |r.slots| > 0
  {
    r.slots[Slot(r.tail, |r.slots|)]
  }

  ghost predicate Allows(limit: Limit, s: State, step: Step) {
    match limit
    case Free => true
    case Area(n) => step.Deliver? ==> |s.delivered| < |s.consumed| + n
    case Pending(b) => step.Check? ==> |s.outstanding| + Len(s.ring) <= b
  }

  function Delivered(s: State, d: Delivery): State {
    s.(outstanding := s.outstanding + [d], delivered := s.delivered + [d])
  }

  /** The full check for the delivery `d`. */
  function Checked(s: State, d: Delivery): State {
    var n := Len(s.ring);
    var t := s.(outstanding := if s.outstanding == [] then [] else s.outstanding[1..]);
    if n == |s.ring.slots| then t.(handled := s.handled + [Outcome(d, n, false)])
    else t.(pc := At(Passed, d, n))
  }

  ghost predicate Next(c: Config, s: State, step: Step, s': State)
    requires |s.ring.slots| > 0
  {
    && Allows(c.limit, s, step)
    && match step
       case Deliver(d) => d.res > 0 && s' == Delivered(s, d)
       case Check => s.pc.Idle? && s.outstanding != [] && s' == Checked(s, s.outstanding[0])
       case StoreOff =>
         && s.pc.At? && s.pc.stage.Passed?
         && s' == s.(pc := s.pc.(stage := OffStored),
                     ring := Store(s.ring, TailEntry(s.ring).(off := RqeFor(c, s.pc.d).off)))
       case StoreLen =>
         && s.pc.At? && s.pc.stage.OffStored?
         && s' == s.(pc := s.pc.(stage := LenStored), ring := Store(s.ring, TailEntry(s.ring).(len := s.pc.d.res)))
       case PublishTail =>
         && s.pc.At? && s.pc.stage.LenStored?
         && s' == s.(pc := Idle, ring := Publish(s.ring), handled := s.handled + [Outcome(s.pc.d, s.pc.queued, true)])
       case Consume =>
         Len(s.ring) > 0 && s' == s.(ring := Drop(s.ring, 1), consumed := s.consumed + [Window(s.ring)[0]])
  }

  ghost predicate Init(c: Config, s: State) {
    && s.ring.width == WORD && Valid(s.ring) && |s.ring.slots| == c.entries > 0 && Len(s.ring) == 0
    && s.pc.Idle? && s.outstanding == [] && s.delivered == [] && s.handled == [] && s.consumed == []
  }

  ghost function Steps(c: Config): (State, Step, State) -> bool {
    (s: State, step: Step, s': State) => |s.ring.slots| > 0 && Next(c, s, step, s')
  }

  ghost function Starts(c: Config): State -> bool { (s: State) => Init(c, s) }

  ghost predicate Reachable(c: Config, s: State) { Reached(Starts(c), Steps(c), s) }

  // --------------------------------------------------------------- histories

  /** The deliveries behind a history of outcomes, all of them, those that were
      queued and those that were dropped. */
  function All(h: seq<Outcome>): seq<Delivery> {
    seq(|h|, i requires 0 <= i < |h| => h[i].d)
  }

  function Kept(h: seq<Outcome>): seq<Delivery> {
    if h == [] then []
    else Kept(h[..|h| - 1]) + if h[|h| - 1].kept then [h[|h| - 1].d] else []
  }

  function Lost(h: seq<Outcome>): seq<Delivery> {
    if h == [] then []
    else Lost(h[..|h| - 1]) + if h[|h| - 1].kept then [] else [h[|h| - 1].d]
  }

  /** The entries the kernel has not consumed yet. */
  function Unconsumed(s: State): seq<Rqe>
    requires |s.ring.slots| > 0
  {
    Window(s.ring)
  }

  function Returning(pc: Pc): seq<Delivery> {
    if pc.Idle? then [] else [pc.d]
  }

  lemma OutcomeAppend(h: seq<Outcome>, o: Outcome)
    ensures All(h + [o]) == All(h) + [o.d]
    ensures Kept(h + [o]) == Kept(h) + if o.kept then [o.d] else []
    ensures Lost(h + [o]) == Lost(h) + if o.kept then [] else [o.d]
  {
    assert (h + [o])[..|h|] == h;
  }

  lemma {:induction false} Halves(h: seq<Outcome>)
    ensures |Kept(h)| + |Lost(h)| == |h|
  {
    if h != [] { Halves(h[..|h| - 1]); }
  }

  // --------------------------------------------------------------- invariants

  /** The queue is a bounded FIFO of the deliveries kept, and what the worker has
      stored so far is there; the full check still holds behind it. */
  ghost predicate Fifo(c: Config, s: State) {
    && Valid(s.ring) && |s.ring.slots| == c.entries > 0
    && s.consumed + Window(s.ring) == Rqes(c, Kept(s.handled))
    && (s.pc.At? ==>
          && Len(s.ring) <= s.pc.queued < c.entries
          && (s.pc.stage.OffStored? ==> TailEntry(s.ring).off == RqeFor(c, s.pc.d).off)
          && (s.pc.stage.LenStored? ==> TailEntry(s.ring) == RqeFor(c, s.pc.d)))
  }

  /** Nothing delivered is lost from sight, duplicated or reordered, and a
      delivery was dropped exactly when its check saw a full queue. */
  ghost predicate Conserved(c: Config, s: State) {
    && All(s.handled) + Returning(s.pc) + s.outstanding == s.delivered
    && forall i :: 0 <= i < |s.handled| ==>
         s.handled[i].queued <= c.entries && (s.handled[i].kept <==> s.handled[i].queued < c.entries)
  }

  ghost predicate Inv(c: Config, s: State) {
    && Fifo(c, s) && Conserved(c, s)
    && (c.limit.Area? ==> |s.delivered| <= |s.consumed| + c.limit.buffers)
  }

  /** Deliveries that have not come back to the kernel. */
  lemma InUse(c: Config, s: State)
    requires Inv(c, s)
    ensures |s.delivered| == |s.consumed| + Len(s.ring) + |Lost(s.handled)| + |Returning(s.pc)| + |s.outstanding|
  {
    Halves(s.handled);
    assert |s.consumed + Window(s.ring)| == |Kept(s.handled)|;
  }

  lemma RqesAppend(c: Config, ds: seq<Delivery>, d: Delivery)
    ensures Rqes(c, ds + [d]) == Rqes(c, ds) + [RqeFor(c, d)]
  {
  }

  lemma DeliverKeeps(c: Config, s: State, d: Delivery)
    requires Inv(c, s) && Allows(c.limit, s, Deliver(d))
    ensures Inv(c, Delivered(s, d))
  {
    assert (All(s.handled) + Returning(s.pc)) + (s.outstanding + [d]) == s.delivered + [d];
  }

  lemma CheckKeeps(c: Config, s: State)
    requires Inv(c, s) && s.pc.Idle? && s.outstanding != []
    ensures Inv(c, Checked(s, s.outstanding[0]))
  {
    var d := s.outstanding[0];
    OutcomeAppend(s.handled, Outcome(d, Len(s.ring), false));
    TakeFirst(All(s.handled), s.outstanding);
    assert Kept(s.handled) + [] == Kept(s.handled);
  }

  lemma TakeFirst<T>(all: seq<T>, ds: seq<T>)
    requires ds != []
    ensures all + [ds[0]] + ds[1..] == all + [] + ds
    ensures (all + [ds[0]]) + [] + ds[1..] == all + [] + ds
  {
  }

  lemma StoreKeeps(c: Config, s: State, step: Step, s': State)
    requires Inv(c, s) && Next(c, s, step, s') && (step.StoreOff? || step.StoreLen?)
    ensures Inv(c, s')
  {
    StoreInvisible(s.ring, TailEntry(s'.ring));
  }

  lemma PublishKeeps(c: Config, s: State, s': State)
    requires Inv(c, s) && Next(c, s, PublishTail, s')
    ensures Inv(c, s')
  {
    var d := s.pc.d;
    PublishAppends(s.ring);
    OutcomeAppend(s.handled, Outcome(d, s.pc.queued, true));
    RqesAppend(c, Kept(s.handled), d);
    assert s.consumed + (Window(s.ring) + [RqeFor(c, d)]) == (s.consumed + Window(s.ring)) + [RqeFor(c, d)];
    assert All(s'.handled) + [] == All(s.handled) + [d];
  }

  lemma ConsumeKeeps(c: Config, s: State, s': State)
    requires Inv(c, s) && Next(c, s, Consume, s')
    ensures Inv(c, s')
  {
    DropRemoves(s.ring, 1);
    ShiftOne(s.consumed, Window(s.ring));
  }

  lemma ShiftOne<T>(a: seq<T>, w: seq<T>)
    requires w != []
    ensures (a + [w[0]]) + w[1..] == a + w
  {
  }

  lemma StepKeeps(c: Config, s: State, step: Step, s': State)
    requires Inv(c, s) && Next(c, s, step, s')
    ensures Inv(c, s')
  {
    match step
    case Deliver(d) => DeliverKeeps(c, s, d);
    case Check => CheckKeeps(c, s);
    case StoreOff => StoreKeeps(c, s, step, s');
    case StoreLen => StoreKeeps(c, s, step, s');
    case PublishTail => PublishKeeps(c, s, s');
    case Consume => ConsumeKeeps(c, s, s');
  }

  lemma InitHolds(c: Config, s: State)
    requires Init(c, s)
    ensures Inv(c, s)
  {
    assert Rqes(c, []) == [] && All([]) == [];
  }

  lemma ReachableInv(c: Config, s: State)
    requires Reachable(c, s)
    ensures Inv(c, s)
  {
    var inv := (s: State) => Inv(c, s);
    forall s | Starts(c)(s) ensures inv(s) { InitHolds(c, s); }
    forall s, step, s' | inv(s) && Steps(c)(s, step, s') ensures inv(s') { StepKeeps(c, s, step, s'); }
    Always(Starts(c), Steps(c), inv, s);
  }

  // ------------------------------------------------------------ main theorems

  /** On every interleaving the queue is a bounded FIFO of the deliveries kept:
      never more than its entry count, the kernel reads them in the order they
      were returned, each with its own offset bits and the token above them. */
  lemma RefinesBoundedFifo(c: Config, s: State, j: nat)
    requires Reachable(c, s)
    ensures |s.ring.slots| == c.entries > 0 && Len(s.ring) <= c.entries
    ensures |s.consumed| + Len(s.ring) == |Kept(s.handled)|
    ensures j < |s.consumed| ==> s.consumed[j].len == Kept(s.handled)[j].res
    ensures j < |s.consumed| && c.token % Pow2(c.shift) == 0 ==>
      s.consumed[j].off == Kept(s.handled)[j].off % Pow2(c.shift) + c.token
  {
    ReachableInv(c, s);
    var kept := Kept(s.handled);
    assert |s.consumed + Window(s.ring)| == |Rqes(c, kept)|;
    if j < |s.consumed| {
      assert s.consumed[j] == (s.consumed + Window(s.ring))[j] == RqeFor(c, kept[j]);
      SpliceKeepsOffset(kept[j].off, c.token, c.shift);
    }
  }

  /** Delivery conservation in every run: what the kernel has delivered is, in
      this order, what has been handled, the delivery being returned and what is
      still to be processed. Each delivery handled was queued once, or dropped
      because its check saw a full queue; those queued are what the kernel has
      consumed and what waits in the ring. */
  lemma DeliveryConservation(c: Config, s: State)
    requires Reachable(c, s)
    ensures |s.ring.slots| == c.entries > 0
    ensures All(s.handled) + Returning(s.pc) + s.outstanding == s.delivered
    ensures |Kept(s.handled)| + |Lost(s.handled)| == |s.handled|
    ensures forall i :: 0 <= i < |s.handled| ==>
      s.handled[i].queued <= c.entries && (s.handled[i].kept <==> s.handled[i].queued < c.entries)
    ensures s.consumed + Window(s.ring) == Rqes(c, Kept(s.handled))
  {
    ReachableInv(c, s);
    Halves(s.handled);
  }

  /** With the area id in the bits from 48 up, as in the kernel's interface, every
      offset below 2^48 comes back next to the token. */
  lemma OffsetSurvives(off: nat, token: nat)
    requires off < Pow2(48) && token % Pow2(48) == 0
    ensures Splice(off, token, AREA_SHIFT) == off + token
  {
    SpliceKeepsOffset(off, token, AREA_SHIFT);
    DivideOnce(off, Pow2(48), 0, off);
  }

  // -------------------------------------------------- when buffers are dropped

  /** The limits under which nothing is ever dropped. */
  predicate Fits(c: Config) {
    match c.limit
    case Free => false
    case Area(n) => n <= c.entries
    case Pending(b) => b <= c.entries
  }

  lemma StepDropsNothing(c: Config, s: State, step: Step, s': State)
    requires Fits(c) && Inv(c, s) && Next(c, s, step, s') && Lost(s.handled) == []
    ensures Lost(s'.handled) == []
  {
    match step
    case Check =>
      InUse(c, s);
      OutcomeAppend(s.handled, Outcome(s.outstanding[0], Len(s.ring), false));
    case PublishTail => OutcomeAppend(s.handled, Outcome(s.pc.d, s.pc.queued, true));
    case _ =>
  }

  lemma NothingDropped(c: Config, s: State)
    requires Fits(c) && Reachable(c, s)
    ensures Lost(s.handled) == []
  {
    var inv := (s: State) => Inv(c, s) && Lost(s.handled) == [];
    forall s | Starts(c)(s) ensures inv(s) { InitHolds(c, s); }
    forall s, step, s' | inv(s) && Steps(c)(s, step, s') ensures inv(s') {
      StepKeeps(c, s, step, s');
      StepDropsNothing(c, s, step, s');
    }
    Always(Starts(c), Steps(c), inv, s);
  }

  lemma Walk(c: Config, s: State, step: Step, s': State)
    requires Reachable(c, s) && Inv(c, s) && Next(c, s, step, s')
    ensures Reachable(c, s') && Inv(c, s')
  {
    StepKeeps(c, s, step, s');
    ReachedNext(Starts(c), Steps(c), s, step, s');
  }

  /** `k` deliveries wait in the ring, nothing else is on its way. */
  ghost predicate Filling(c: Config, s: State, k: nat) {
    && Reachable(c, s) && Inv(c, s) && s.pc.Idle? && s.outstanding == [] && s.consumed == []
    && |s.delivered| == k == Len(s.ring) && Lost(s.handled) == []
  }

  /** What the limit leaves room for. */
  predicate Roomy(c: Config, k: nat) {
    match c.limit
    case Free => true
    case Area(n) => k <= n
    case Pending(b) => k <= b
  }

  const PROBE := Delivery(0, 1)

  /** One more delivery arrives and is checked. */
  lemma ArriveAndCheck(c: Config, s: State, k: nat) returns (t: State)
    requires Filling(c, s, k) && Roomy(c, k + 1)
    ensures Reachable(c, t) && Inv(c, t) && t == Checked(Delivered(s, PROBE), PROBE)
  {
    var u := Delivered(s, PROBE);
    Walk(c, s, Deliver(PROBE), u);
    t := Checked(u, PROBE);
    Walk(c, u, Check, t);
  }

  /** A delivery that passed its check is stored and published. */
  lemma StoreAndPublish(c: Config, s: State) returns (t: State)
    requires Reachable(c, s) && Inv(c, s) && s.pc.At? && s.pc.stage.Passed?
    ensures Reachable(c, t) && Inv(c, t) && t.pc.Idle? && Len(t.ring) == Len(s.ring) + 1
    ensures t == s.(pc := Idle, ring := t.ring, handled := s.handled + [Outcome(s.pc.d, s.pc.queued, true)])
  {
    var u := s.(pc := s.pc.(stage := OffStored),
                ring := Store(s.ring, TailEntry(s.ring).(off := RqeFor(c, s.pc.d).off)));
    StoreInvisible(s.ring, TailEntry(u.ring));
    Walk(c, s, StoreOff, u);
    var v := u.(pc := u.pc.(stage := LenStored), ring := Store(u.ring, TailEntry(u.ring).(len := u.pc.d.res)));
    StoreInvisible(u.ring, TailEntry(v.ring));
    Walk(c, u, StoreLen, v);
    t := v.(pc := Idle, ring := Publish(v.ring), handled := v.handled + [Outcome(v.pc.d, v.pc.queued, true)]);
    PublishAppends(v.ring);
    Walk(c, v, PublishTail, t);
  }

  lemma FillOne(c: Config, s: State, k: nat) returns (t: State)
    requires Filling(c, s, k) && k < c.entries && Roomy(c, k + 1)
    ensures Filling(c, t, k + 1)
  {
    var u := ArriveAndCheck(c, s, k);
    t := StoreAndPublish(c, u);
    OutcomeAppend(u.handled, Outcome(u.pc.d, u.pc.queued, true));
  }

  function Start(c: Config): State {
    State(Ring(seq(c.entries, _ => Rqe(0, 0)), 0, 0, WORD), Idle, [], [], [], [])
  }

  lemma StartIsInit(c: Config)
    requires IsPow2(c.entries) && 0 < c.entries < Pow2(WORD)
    ensures Init(c, Start(c))
  {
    EmptyRing(Start(c).ring);
  }

  lemma ReachStart(c: Config)
    requires IsPow2(c.entries) && 0 < c.entries < Pow2(WORD)
    ensures Filling(c, Start(c), 0)
  {
    StartIsInit(c);
    ReachedStart(Starts(c), Steps(c), Start(c));
    InitHolds(c, Start(c));
  }

  lemma {:induction false} ReachFilled(c: Config, k: nat) returns (s: State)
    requires IsPow2(c.entries) && 0 < c.entries < Pow2(WORD) && k <= c.entries && Roomy(c, k)
    ensures Filling(c, s, k)
  {
    if k == 0 {
      s := Start(c);
      ReachStart(c);
    } else {
      s := ReachFilled(c, k - 1);
      s := FillOne(c, s, k - 1);
    }
  }

  /** When the limit leaves room for one delivery more than there are entries,
      filling the queue makes the next delivery a drop. */
  lemma ReachDrop(c: Config) returns (s: State)
    requires IsPow2(c.entries) && 0 < c.entries < Pow2(WORD) && !Fits(c)
    ensures Reachable(c, s) && Lost(s.handled) != []
  {
    var t := ReachFilled(c, c.entries);
    s := ArriveAndCheck(c, t, c.entries);
    OutcomeAppend(t.handled, Outcome(PROBE, c.entries, false));
  }

  /** No run ever drops a buffer exactly when the limit fits the queue: an area
      of no more buffers than entries, or never more deliveries pending and
      queued at a check than entries. Without any promise some run drops. */
  lemma NoDropIffFits(c: Config)
    requires IsPow2(c.entries) && 0 < c.entries < Pow2(WORD)
    ensures (forall s :: Reachable(c, s) ==> Lost(s.handled) == []) <==> Fits(c)
  {
    if Fits(c) {
      forall s | Reachable(c, s) ensures Lost(s.handled) == [] { NothingDropped(c, s); }
    } else {
      var s := ReachDrop(c);
    }
  }

  // ------------------------------------------------------------ worker code

  lemma Joined<T>(t: seq<T>, u: seq<T>, w: seq<T>, before: seq<T>, e: seq<T>)
    requires u + w == before + e
    ensures (t + u) + w == (t + before) + e
  {
    assert (t + u) + w == t + (u + w);
  }

  /** `struct io_uring_zcrx_rq` together with the kernel's head. */
  class Queue {
    const rqes: array<Rqe>
    var khead: nat
    var rqTail: nat
    const width: nat
    const token: nat
    const shift: nat

    ghost function View(): Ring<Rqe>
      reads this, rqes
    {
      Ring(rqes[..], khead, rqTail, width)
    }

    ghost predicate Ok()
      reads this, rqes
    {
      rqes.Length > 0 && Valid(View())
    }

    function Entry(d: Delivery): Rqe { Rqe(Splice(d.off, token, shift), d.res) }

    constructor (entries: nat, token: nat)
      requires IsPow2(entries) && 0 < entries < Pow2(WORD)
      ensures width == WORD && shift == AREA_SHIFT && this.token == token
      ensures fresh(rqes) && rqes.Length == entries && Ok() && Window(View()) == []
    {
      rqes := new Rqe[entries](_ => Rqe(0, 0));
      khead, rqTail, width, shift := 0, 0, WORD, AREA_SHIFT;
      this.token := token;
      new;
      EmptyRing(View());
    }

    /** `zcrx_rq_nr_queued`. */
    function NrQueued(): (n: nat)
      reads this, rqes
      ensures n == Len(View())
    {
      (rqTail - khead) % Pow2(width)
    }

    /** The kernel reads and releases up to `n` entries. */
    method KernelConsume(n: nat) returns (ghost taken: seq<Rqe>)
      requires Ok()
      modifies this`khead
      ensures Ok() && taken + Window(View()) == old(Window(View()))
      ensures Len(View()) <= old(Len(View()))
    {
      var k := if n < NrQueued() then n else NrQueued();
      ghost var before := View();
      DropSplits(before, k);
      taken := Window(before)[..k];
      KernelDrop(k);
    }

    method KernelDrop(k: nat)
      modifies this`khead
      ensures View() == Drop(old(View()), k)
    {
      khead := (khead + k) % Pow2(width);
    }

    /** `zcrx_return_buffer`, with the kernel running before the check (`k0`),
        between the check and the store (`k1`) and before the publication
        (`k2`). The check sees `queued` entries: the buffer is dropped exactly
        when that is all of them, and otherwise appended, whatever the kernel
        consumed meanwhile. */
    method ReturnBuffer(d: Delivery, k0: nat, k1: nat, k2: nat) returns (ghost queued: nat, ghost taken: seq<Rqe>)
      requires Ok()
      modifies this`khead, this`rqTail, rqes
      ensures Ok() && queued <= rqes.Length && queued <= old(Len(View()))
      ensures queued < rqes.Length ==> taken + Window(View()) == old(Window(View())) + [Entry(d)]
      ensures queued == rqes.Length ==> taken + Window(View()) == old(Window(View())) && Len(View()) == rqes.Length
    {
      taken := KernelConsume(k0);
      queued := NrQueued();
      if NrQueued() == rqes.Length { return; }
      ghost var t0, w0 := taken, Window(View());
      ghost var t1 := Append(d, k1, k2);
      taken := t0 + t1;
      Joined(t0, t1, Window(View()), w0, [Entry(d)]);
    }

    /** The part of `zcrx_return_buffer` past the full check. */
    method Append(d: Delivery, k1: nat, k2: nat) returns (ghost taken: seq<Rqe>)
      requires Ok() && Len(View()) < rqes.Length
      modifies this`khead, this`rqTail, rqes
      ensures Ok()
      ensures taken + Window(View()) == old(Window(View())) + [Entry(d)]
    {
      ghost var t1 := KernelConsume(k1);
      StoreEntry(d);
      ghost var w1 := Window(View());
      ghost var t2 := KernelConsume(k2);
      PublishAppends(View());
      PublishTail();
      taken := t1 + t2;
      Joined(t1, t2, Window(View()), w1, [Entry(d)]);
    }

    method StoreEntry(d: Delivery)
      requires Ok() && Len(View()) < rqes.Length
      modifies rqes
      ensures Ok() && Window(View()) == old(Window(View())) && Len(View()) == old(Len(View()))
      ensures rqes[Slot(rqTail, rqes.Length)] == Entry(d)
    {
      StoreInvisible(View(), Entry(d));
      StoreOff(d);
      StoreLen(d);
      assert View() == Store(old(View()), Entry(d));
    }

    method StoreOff(d: Delivery)
      requires rqes.Length > 0
      modifies rqes
      ensures View() == Store(old(View()), TailEntry(old(View())).(off := Entry(d).off))
    {
      var slot := Slot(rqTail, rqes.Length);
      rqes[slot] := rqes[slot].(off := Splice(d.off, token, shift));
    }

    method StoreLen(d: Delivery)
      requires rqes.Length > 0
      modifies rqes
      ensures View() == Store(old(View()), TailEntry(old(View())).(len := d.res))
    {
      var slot := Slot(rqTail, rqes.Length);
      rqes[slot] := rqes[slot].(len := d.res);
    }

    method PublishTail()
      modifies this`rqTail
      ensures View() == Publish(old(View()))
    {
      rqTail := (rqTail + 1) % Pow2(width);
    }
  }
}
