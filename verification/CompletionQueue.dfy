/** Harvesting completions. A batch of pointers into the completion ring is
    taken without moving the head; the entries are then processed in place and
    released, one at a time by the ordinary loops, all together at the end of a
    pass by the zero-copy receive loops. The kernel keeps posting throughout. */
module CompletionQueue {
  import opened Bits
  import opened Rings
  import opened Runs

  /** `ptrs` are the slots harvested and not yet released, oldest first; the
      first `done` of them have been processed. `posted` and `processed` record
      the whole history. */
  datatype State<T> = State(ring: Ring<T>, ptrs: seq<nat>, done: nat, posted: seq<T>, processed: seq<T>)

  datatype Step<T> = Post(x: T) | Harvest | Process | Release(n: nat)

  ghost predicate Next<T>(s: State<T>, step: Step<T>, s': State<T>)
    requires |s.ring.slots| > 0
  {
    match step
    case Post(x) =>
      && Len(s.ring) < |s.ring.slots|
      && s' == s.(ring := Push(s.ring, x), posted := s.posted + [x])
    case Harvest =>
      && (s.ring.head + |s.ptrs|) % Pow2(s.ring.width) != s.ring.tail
      && s' == s.(ptrs := s.ptrs + [SlotAt(s.ring, |s.ptrs|)])
    case Process =>
      && s.done < |s.ptrs|
      && s.ptrs[s.done] < |s.ring.slots|
      && s' == s.(done := s.done + 1, processed := s.processed + [s.ring.slots[s.ptrs[s.done]]])
    case Release(n) =>
      && n <= s.done <= |s.ptrs|
      && s' == s.(ring := Drop(s.ring, n), ptrs := s.ptrs[n..], done := s.done - n)
  }

  ghost predicate Init<T>(s: State<T>) {
    && s.ring.width == WORD && Valid(s.ring) && Len(s.ring) == 0
    && s.ptrs == [] && s.done == 0 && s.posted == [] && s.processed == []
  }

  /** Entries released to the kernel so far. */
  function Released<T>(s: State<T>): int {
    |s.processed| - s.done
  }

  ghost predicate Inv<T>(s: State<T>) {
    && Valid(s.ring) && |s.ring.slots| > 0
    && s.done <= |s.ptrs| <= Len(s.ring)
    && (forall j :: 0 <= j < |s.ptrs| ==> s.ptrs[j] == SlotAt(s.ring, j))
    && 0 <= Released(s)
    && |s.posted| == Released(s) + Len(s.ring)
    && s.posted[Released(s)..] == Window(s.ring)
    && s.processed == s.posted[..|s.processed|]
  }

  /** Every pointer still held refers to the entry it was harvested for: the
      kernel has not been able to reuse its slot. */
  lemma HeldPointersStable<T>(s: State<T>, j: nat)
    requires Inv(s) && j < |s.ptrs|
    ensures s.ptrs[j] < |s.ring.slots|
    ensures s.ring.slots[s.ptrs[j]] == s.posted[Released(s) + j]
  {
    assert s.posted[Released(s)..][j] == Window(s.ring)[j];
  }

  lemma PostKeeps<T>(s: State<T>, x: T, s': State<T>)
    requires Inv(s) && Next(s, Post(x), s')
    ensures Inv(s')
  {
    PushAppends(s.ring, x);
    assert Window(s'.ring) == Window(s.ring) + [x];
    assert |Window(s'.ring)| == Len(s.ring) + 1;
    assert s'.posted[Released(s)..] == s.posted[Released(s)..] + [x];
    forall j | 0 <= j < |s.ptrs| ensures s'.ptrs[j] == SlotAt(s'.ring, j) {}
  }

  /** The loop test compares counters for inequality only; that is enough to
      stay inside the unread window. */
  lemma HarvestStaysInside<T>(r: Ring<T>, n: nat)
    requires Valid(r) && n <= Len(r)
    ensures (r.head + n) % Pow2(r.width) != r.tail <==> n < Len(r)
  {
    Distance(r.head, r.tail, Pow2(r.width));
    Advance(r.head, n, Pow2(r.width));
  }

  lemma ReleaseKeeps<T>(s: State<T>, n: nat, s': State<T>)
    requires Inv(s) && Next(s, Release(n), s')
    ensures Inv(s')
  {
    DropRemoves(s.ring, n);
    assert Released(s') == Released(s) + n;
    assert s.posted[Released(s)..][n..] == s.posted[Released(s')..];
    forall j | 0 <= j < |s'.ptrs| ensures s'.ptrs[j] == SlotAt(s'.ring, j) {
      SlotAfterDrop(s.ring, n, j);
      assert s'.ptrs[j] == s.ptrs[n + j];
    }
  }

  lemma StepKeeps<T>(s: State<T>, step: Step<T>, s': State<T>)
    requires Inv(s) && Next(s, step, s')
    ensures Inv(s')
  {
    match step
    case Post(x) => PostKeeps(s, x, s');
    case Harvest => HarvestStaysInside(s.ring, |s.ptrs|);
    case Process =>
      HeldPointersStable(s, s.done);
      assert s'.processed == s.posted[..|s.processed| + 1];
    case Release(n) => ReleaseKeeps(s, n, s');
  }

  /** The abstract queue: what has been posted and not yet processed. */
  ghost function Unread<T>(s: State<T>): seq<T>
    requires |s.processed| <= |s.posted|
  {
    s.posted[|s.processed|..]
  }

  /** Refinement of a plain FIFO: posting appends to the abstract queue,
      processing removes its first element and sees exactly that element, and
      harvesting and releasing are invisible. */
  lemma RefinesFifo<T>(s: State<T>, step: Step<T>, s': State<T>)
    requires Inv(s) && Next(s, step, s')
    ensures Inv(s') && |s.processed| <= |s.posted| && |s'.processed| <= |s'.posted|
    ensures step.Post? ==> Unread(s') == Unread(s) + [step.x] && s'.processed == s.processed
    ensures step.Process? ==> |Unread(s)| > 0 && Unread(s') == Unread(s)[1..]
                              && s'.processed == s.processed + [Unread(s)[0]]
    ensures step.Harvest? || step.Release? ==> Unread(s') == Unread(s) && s'.processed == s.processed
  {
    StepKeeps(s, step, s');
    if step.Process? { HeldPointersStable(s, s.done); }
  }

  ghost function Steps<T(!new)>(): (State<T>, Step<T>, State<T>) -> bool {
    (s: State<T>, step: Step<T>, s': State<T>) => |s.ring.slots| > 0 && Next(s, step, s')
  }

  ghost function Starts<T(!new)>(): State<T> -> bool { (s: State<T>) => Init(s) }

  ghost predicate Reachable<T(!new)>(s: State<T>) { Reached(Starts<T>(), Steps<T>(), s) }

  lemma InitHolds<T>(s: State<T>)
    requires Init(s)
    ensures Inv(s)
  {
    SlotIsModulo(0, |s.ring.slots|, s.ring.width);
  }

  lemma ReachableInv<T(!new)>(s: State<T>)
    requires Reachable(s)
    ensures Inv(s)
  {
    var inv := (s: State<T>) => Inv(s);
    forall s: State<T> | Starts<T>()(s) ensures inv(s) { InitHolds(s); }
    forall s: State<T>, step: Step<T>, s': State<T> | inv(s) && Steps<T>()(s, step, s') ensures inv(s') {
      StepKeeps(s, step, s');
    }
    Always(Starts<T>(), Steps<T>(), inv, s);
  }

  /** Over every run, across counter wrap: what has been processed is exactly a
      prefix of what was posted, so nothing is skipped, repeated or reordered,
      and no slot behind a held pointer has been overwritten. */
  lemma ProcessedInOrder<T(!new)>(s: State<T>)
    requires Reachable(s)
    ensures s.processed <= s.posted
    ensures forall j :: 0 <= j < |s.ptrs| ==>
      && 0 <= Released(s) + j < |s.posted|
      && s.ptrs[j] < |s.ring.slots|
      && s.ring.slots[s.ptrs[j]] == s.posted[Released(s) + j]
  {
    ReachableInv(s);
    forall j | 0 <= j < |s.ptrs| ensures
      && s.ptrs[j] < |s.ring.slots|
      && s.ring.slots[s.ptrs[j]] == s.posted[Released(s) + j]
    {
      HeldPointersStable(s, j);
    }
  }

}

/** The engine's side of the completion ring, shared with a kernel that posts at
    any moment. */
module CompletionRing {
  import opened Bits
  import opened Rings
  import opened CompletionQueue

  lemma OnePointerMore<T>(r: Ring<T>, held: seq<nat>)
    requires |r.slots| > 0 && forall j :: 0 <= j < |held| ==> held[j] == SlotAt(r, j)
    ensures forall j :: 0 <= j < |held| + 1 ==> (held + [SlotAt(r, |held|)])[j] == SlotAt(r, j)
  {
  }

  /** The mapped completion ring: `khead` is the worker's, `ktail` the kernel's. */
  class Queue<T> {
    const cqes: array<T>
    var khead: nat
    var ktail: nat
    const width: nat

    /** A fresh ring of 32-bit counters. */
    constructor (entries: nat, blank: T)
      requires IsPow2(entries) && 0 < entries < Pow2(WORD)
      ensures width == WORD && fresh(cqes) && cqes.Length == entries && Ok() && Unread() == []
    {
      cqes := new T[entries](_ => blank);
      khead, ktail, width := 0, 0, WORD;
      new;
      EmptyRing(View());
    }

    ghost function View(): Ring<T>
      reads this, cqes
    {
      Ring(cqes[..], khead, ktail, width)
    }

    ghost predicate Ok()
      reads this, cqes
    {
      cqes.Length > 0 && Valid(View())
    }

    /** The entries not yet released, oldest first. */
    ghost function Unread(): seq<T>
      requires cqes.Length > 0
      reads this, cqes
    {
      Window(View())
    }

    /** The pointers in `held` are to the oldest unread entries, in order. */
    ghost predicate Points(held: seq<nat>)
      requires cqes.Length > 0
      reads this, cqes
    {
      && |held| <= Len(View())
      && forall j :: 0 <= j < |held| ==> held[j] == SlotAt(View(), j)
    }

    lemma PointsAtOldest(held: seq<nat>)
      requires Ok() && held != [] && Points(held)
      ensures held[0] < cqes.Length && |Unread()| > 0 && cqes[held[0]] == Unread()[0]
    {
    }

    predicate HasRoom()
      reads this
    {
      (ktail - khead) % Pow2(width) < cqes.Length
    }

    /** The kernel posts one entry. Pointers held stay good. */
    method Post(x: T, ghost held: seq<nat>)
      requires Ok() && Points(held) && HasRoom()
      modifies cqes, this`ktail
      ensures Ok() && Points(held) && Unread() == old(Unread()) + [x]
    {
      ghost var before := View();
      PushAppends(before, x);
      cqes[Slot(ktail, cqes.Length)] := x;
      ktail := (ktail + 1) % Pow2(width);
      assert View() == Push(before, x);
      assert |Unread()| == |old(Unread())| + 1;
    }

    /** The test of `io_uring_for_each_cqe`, past the entries held: is there one
        more, and where? */
    method Peek(ghost held: seq<nat>, count: nat) returns (more: bool, ptr: nat)
      requires Ok() && Points(held) && |held| == count
      ensures count <= |Unread()| && (more <==> count < |Unread()|)
      ensures more ==> Points(held + [ptr])
    {
      var head := (khead + count) % Pow2(width);
      more, ptr := head != ktail, Slot(head, cqes.Length);
      HarvestStaysInside(View(), count);
      if more { OnePointerMore(View(), held); }
    }

    /** `io_uring_cq_advance`: from here on the kernel may write over the slots
        given back. */
    method Advance(n: nat, ghost held: seq<nat>)
      requires Ok() && n <= |held| && Points(held)
      modifies cqes, this`khead
      ensures Ok() && Points(held[n..]) && n <= |old(Unread())| && Unread() == old(Unread())[n..]
    {
      ghost var before := View();
      DropRemoves(before, n);
      forall j | 0 <= j < |held| - n ensures held[n..][j] == SlotAt(Drop(before, n), j) {
        SlotAfterDrop(before, n, j);
      }
      khead := (khead + n) % Pow2(width);
      assert View() == Drop(before, n);
    }

    /** `cqe_seen`. */
    method CqeSeen(ghost held: seq<nat>)
      requires Ok() && held != [] && Points(held)
      modifies cqes, this`khead
      ensures Ok() && Points(held[1..]) && |old(Unread())| > 0 && Unread() == old(Unread())[1..]
    {
      Advance(1, held);
    }
  }
}
