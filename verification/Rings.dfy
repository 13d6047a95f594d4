/** A single-producer single-consumer ring over a power-of-two slot array with
    free-running counters of a fixed width. The provided-buffer ring (16-bit
    counters), the completion queue and the zero-copy refill queue (32-bit
    counters) are all instances. */
module Rings {
  import opened Bits

  datatype Ring<T> = Ring(slots: seq<T>, head: nat, tail: nat, width: nat)

  /** How many entries lie between the two wrapped counters. */
  function Len<T>(r: Ring<T>): nat {
    (r.tail - r.head) % Pow2(r.width)
  }

  /** `counter & (entries - 1)`. */
  function Slot(counter: nat, entries: nat): (i: nat)
    requires entries > 0
    ensures i < entries
  {
    AndBelow(counter, entries - 1);
    And(counter, entries - 1)
  }

  ghost predicate Valid<T>(r: Ring<T>) {
    && IsPow2(|r.slots|)
    && |r.slots| < Pow2(r.width)
    && r.head < Pow2(r.width)
    && r.tail < Pow2(r.width)
    && Len(r) <= |r.slots|
  }

  /** The slot of the i-th unread entry. */
  function SlotAt<T>(r: Ring<T>, i: nat): nat
    requires |r.slots| > 0
  {
    Slot((r.head + i) % Pow2(r.width), |r.slots|)
  }

  /** The unread entries, oldest first. */
  function Window<T>(r: Ring<T>): (w: seq<T>)
    requires |r.slots| > 0
  {
    seq(Len(r), (i: int) requires 0 <= i => r.slots[SlotAt(r, i)])
  }

  /** Store at the tail index without advancing the tail. */
  function Store<T>(r: Ring<T>, x: T): Ring<T>
    requires |r.slots| > 0
  {
    r.(slots := r.slots[Slot(r.tail, |r.slots|) := x])
  }

  /** Advance the tail over the slot it indexes. */
  function Publish<T>(r: Ring<T>): Ring<T> {
    r.(tail := (r.tail + 1) % Pow2(r.width))
  }

  function Push<T>(r: Ring<T>, x: T): Ring<T>
    requires |r.slots| > 0
  {
    Publish(Store(r, x))
  }

  /** Advance the head by `n`. */
  function Drop<T>(r: Ring<T>, n: nat): Ring<T> {
    r.(head := (r.head + n) % Pow2(r.width))
  }

  // ------------------------------------------------------ modular arithmetic

  lemma {:induction false} AndBelow(a: nat, b: nat)
    ensures And(a, b) <= b
  {
    if a > 0 && b > 0 { AndBelow(a / 2, b / 2); }
  }

  /** The distance between two wrapped counters, without a modulus. */
  lemma Distance(head: nat, tail: nat, m: nat)
    requires head < m && tail < m
    ensures (tail - head) % m == if head <= tail then tail - head else tail - head + m
  {
    if head <= tail {
      DivideOnce(tail - head, m, 0, tail - head);
    } else {
      DivideOnce(tail - head, m, -1, tail - head + m);
    }
  }

  lemma Advance(c: nat, n: nat, m: nat)
    requires c < m && n <= m
    ensures (c + n) % m == if c + n < m then c + n else c + n - m
  {
    DivideOnce(c + n, m, if c + n < m then 0 else 1, if c + n < m then c + n else c + n - m);
  }

  /** Wrapping at every increment is the same as wrapping once. */
  lemma WrapOnce(c: nat, n: nat, m: nat)
    requires m > 0
    ensures (c % m + n) % m == (c + n) % m
  {
    assert c == c / m * m + c % m;
    var s := c % m + n;
    assert s == s / m * m + s % m;
    assert (c / m + s / m) * m == c / m * m + s / m * m;
    DivideOnce(c + n, m, c / m + s / m, s % m);
  }

  lemma WrapTwice(c: nat, n: nat, i: nat, m: nat)
    requires m > 0
    ensures ((c + n) % m + i) % m == (c + (n + i)) % m
  {
    WrapOnce(c + n, i, m);
    assert c + n + i == c + (n + i);
  }

  lemma IndicesDiffer(a: nat, b: nat, n: nat)
    requires a < b < a + n
    ensures a % n != b % n
  {
    if a % n == b % n {
      assert a == a / n * n + a % n && b == b / n * n + b % n;
      if a / n < b / n { MultiplesApart(a / n, b / n, n); }
      if b / n < a / n { MultiplesApart(b / n, a / n, n); }
    }
  }

  // ------------------------------------------------------------ ring lemmas

  /** Mask indexing of a wrapped counter is the unwrapped index modulo the
      entry count, even across the wrap. */
  lemma SlotIsModulo(counter: nat, entries: nat, width: nat)
    requires IsPow2(entries) && entries <= Pow2(width)
    ensures entries > 0
    ensures Slot(counter % Pow2(width), entries) == counter % entries
  {
    var k: nat :| entries == Pow2(k);
    if k > width { Pow2Monotone(width, k); }
    MaskIsMod(counter % Pow2(width), k);
    TruncationKeepsIndex(counter, k, width);
  }

  /** No two positions at most the entry count apart share a slot. */
  lemma SlotsDistinct<T>(r: Ring<T>, i: nat, j: nat)
    requires Valid(r) && i < j < i + |r.slots|
    ensures |r.slots| > 0 && SlotAt(r, i) != SlotAt(r, j)
  {
    SlotsApart(r.head + i, r.head + j, |r.slots|, r.width);
  }

  lemma SlotsApart(a: nat, b: nat, entries: nat, width: nat)
    requires IsPow2(entries) && entries <= Pow2(width) && a < b < a + entries
    ensures Slot(a % Pow2(width), entries) != Slot(b % Pow2(width), entries)
  {
    SlotIsModulo(a, entries, width);
    SlotIsModulo(b, entries, width);
    IndicesDiffer(a, b, entries);
  }

  /** The tail index is the slot one past the unread window. */
  lemma TailSlot<T>(r: Ring<T>)
    requires Valid(r)
    ensures |r.slots| > 0 && Slot(r.tail, |r.slots|) == SlotAt(r, Len(r))
  {
    Distance(r.head, r.tail, Pow2(r.width));
    Advance(r.head, Len(r), Pow2(r.width));
    SlotIsModulo(0, |r.slots|, r.width);
  }

  /** Below capacity, a store at the tail touches no unread entry. */
  lemma StoreInvisible<T>(r: Ring<T>, x: T)
    requires Valid(r) && Len(r) < |r.slots|
    ensures Valid(Store(r, x)) && Len(Store(r, x)) == Len(r)
    ensures Window(Store(r, x)) == Window(r)
  {
    TailSlot(r);
    forall i | 0 <= i < Len(r) ensures Window(Store(r, x))[i] == Window(r)[i] {
      SlotsDistinct(r, i, Len(r));
    }
  }

  /** Advancing the tail makes the entry under it the newest unread one. */
  lemma PublishAppends<T>(r: Ring<T>)
    requires Valid(r) && Len(r) < |r.slots|
    ensures Valid(Publish(r)) && Len(Publish(r)) == Len(r) + 1
    ensures Window(Publish(r)) == Window(r) + [r.slots[Slot(r.tail, |r.slots|)]]
  {
    var p, m := Publish(r), Pow2(r.width);
    Distance(r.head, r.tail, m);
    Advance(r.tail, 1, m);
    Distance(p.head, p.tail, m);
    TailSlot(r);
  }

  /** Below capacity, a push appends to the window and overwrites no unread
      entry. */
  lemma PushAppends<T>(r: Ring<T>, x: T)
    requires Valid(r) && Len(r) < |r.slots|
    ensures Valid(Push(r, x)) && Len(Push(r, x)) == Len(r) + 1
    ensures Window(Push(r, x)) == Window(r) + [x]
  {
    StoreInvisible(r, x);
    PublishAppends(Store(r, x));
  }

  /** At capacity the tail index is the slot of the oldest unread entry: the
      full check of a producer is what keeps that entry. */
  lemma FullTailHitsOldest<T>(r: Ring<T>)
    requires Valid(r) && Len(r) == |r.slots|
    ensures |r.slots| > 0 && Slot(r.tail, |r.slots|) == SlotAt(r, 0)
  {
    TailSlot(r);
    var n := |r.slots|;
    SlotIsModulo(r.head, n, r.width);
    SlotIsModulo(r.head + n, n, r.width);
    OnePeriod(r.head, n);
  }

  lemma OnePeriod(a: nat, n: nat)
    requires n > 0
    ensures (a + n) % n == a % n
  {
    assert a == a / n * n + a % n;
    assert (a / n + 1) * n == a / n * n + n;
    DivideOnce(a + n, n, a / n + 1, a % n);
  }

  lemma SlotAfterDrop<T>(r: Ring<T>, n: nat, i: nat)
    requires |r.slots| > 0
    ensures SlotAt(Drop(r, n), i) == SlotAt(r, n + i)
  {
    DropCounter(r, n, i, Pow2(r.width));
  }

  /** The counter of an entry does not move with the head. */
  lemma DropCounter<T>(r: Ring<T>, n: nat, i: nat, m: nat)
    requires m == Pow2(r.width)
    ensures (Drop(r, n).head + i) % m == (r.head + (n + i)) % m
  {
    WrapTwice(r.head, n, i, m);
  }

  lemma DropShortens<T>(r: Ring<T>, n: nat)
    requires Valid(r) && n <= Len(r)
    ensures Valid(Drop(r, n)) && Len(Drop(r, n)) == Len(r) - n
  {
    var p, m := Drop(r, n), Pow2(r.width);
    Distance(r.head, r.tail, m);
    Advance(r.head, n, m);
    Distance(p.head, p.tail, m);
  }

  /** Advancing the head removes the oldest entries and changes no other. */
  lemma DropRemoves<T>(r: Ring<T>, n: nat)
    requires Valid(r) && n <= Len(r)
    ensures Valid(Drop(r, n)) && |r.slots| > 0
    ensures Len(Drop(r, n)) == Len(r) - n
    ensures Window(Drop(r, n)) == Window(r)[n..]
  {
    DropShortens(r, n);
    SlotIsModulo(0, |r.slots|, r.width);
    forall i | 0 <= i < Len(r) - n ensures Window(Drop(r, n))[i] == Window(r)[n + i] {
      SlotAfterDrop(r, n, i);
    }
  }

  lemma DropSplits<T>(r: Ring<T>, n: nat)
    requires Valid(r) && |r.slots| > 0 && n <= Len(r)
    ensures Valid(Drop(r, n)) && Len(Drop(r, n)) <= Len(r)
    ensures Window(r)[..n] + Window(Drop(r, n)) == Window(r)
  {
    DropRemoves(r, n);
  }

  /** A ring whose counters are both zero. */
  lemma EmptyRing<T>(r: Ring<T>)
    requires IsPow2(|r.slots|) && 0 < |r.slots| < Pow2(r.width) && r.head == r.tail == 0
    ensures Valid(r) && Len(r) == 0 && Window(r) == []
  {
    Distance(0, 0, Pow2(r.width));
  }
}
