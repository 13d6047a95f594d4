/** Bitwise arithmetic on naturals, and the bit tricks of the engine:
    rounding up to a power of two, aligning up, mask indexing, pointer tagging
    and splicing an area token into a buffer offset.

    Machine words are naturals below `Pow2(width)`; every truncation is written
    out as `% Pow2(width)`. */
module Bits {

  function Pow2(k: nat): (p: nat)
    ensures p >= 1
  {
    if k == 0 then 1 else 2 * Pow2(k - 1)
  }

  ghost predicate IsPow2(n: nat) {
    exists k: nat :: n == Pow2(k)
  }

  function And(a: nat, b: nat): nat {
    if a == 0 || b == 0 then 0
    else (if a % 2 + b % 2 == 2 then 1 else 0) + 2 * And(a / 2, b / 2)
  }

  function Or(a: nat, b: nat): nat {
    if a == 0 then b
    else if b == 0 then a
    else (if a % 2 + b % 2 > 0 then 1 else 0) + 2 * Or(a / 2, b / 2)
  }

  function Shr(a: nat, s: nat): nat {
    if s == 0 then a else Shr(a / 2, s - 1)
  }

  /** Complement within a word of `w` bits. */
  function Not(a: nat, w: nat): nat
    requires a < Pow2(w)
  {
    Pow2(w) - 1 - a
  }

  /** The low `k` bits of `a`. */
  function Low(a: nat, k: nat): nat {
    if k == 0 then 0 else a % 2 + 2 * Low(a / 2, k - 1)
  }

  /** The width of an unsigned int, and where the area id of a zero-copy
      receive offset starts. */
  const WORD: nat := 32
  const AREA_SHIFT: nat := 48

  function Bit(a: nat, i: nat): nat {
    if i == 0 then a % 2 else Bit(a / 2, i - 1)
  }

  // ---------------------------------------------------------------- powers

  lemma {:induction false} Pow2Monotone(j: nat, k: nat)
    requires j <= k
    ensures Pow2(j) <= Pow2(k)
    ensures j < k ==> Pow2(j) < Pow2(k)
  {
    if j < k { Pow2Monotone(j, k - 1); }
  }

  lemma {:induction false} Pow2Add(j: nat, k: nat)
    ensures Pow2(j + k) == Pow2(j) * Pow2(k)
  {
    if k > 0 {
      Pow2Add(j, k - 1);
      assert j + k - 1 == j + (k - 1);
      DoubleProduct(Pow2(j), Pow2(k - 1));
    }
  }

  lemma DoubleProduct(a: nat, b: nat)
    ensures a * (2 * b) == 2 * (a * b)
  {
  }

  lemma MultiplesApart(a: int, b: int, m: nat)
    requires a < b
    ensures a * m + m <= b * m
  {
    var d := b - a - 1;
    assert b * m == (a + 1 + d) * m == a * m + m + d * m;
  }

  /** Quotient and remainder are determined by the division equation. */
  lemma DivideOnce(x: int, m: nat, q: int, r: int)
    requires m > 0 && x == q * m + r && 0 <= r < m
    ensures x / m == q && x % m == r
  {
    var p, s := x / m, x % m;
    assert x == p * m + s;
    if p < q { MultiplesApart(p, q, m); }
    if q < p { MultiplesApart(q, p, m); }
  }

  lemma ModDouble(x: nat, m: nat)
    requires m > 0
    ensures x % (2 * m) == x % 2 + 2 * ((x / 2) % m)
  {
    var h := x / 2;
    assert h == (h / m) * m + h % m;
    var q := h / m;
    assert x == 2 * (q * m + h % m) + x % 2;
    assert 2 * (q * m) == q * (2 * m);
    DivideOnce(x, 2 * m, q, x % 2 + 2 * (h % m));
  }

  // --------------------------------------------------------- masks and words

  lemma {:induction false} LowIsMod(x: nat, k: nat)
    ensures Low(x, k) == x % Pow2(k)
  {
    if k > 0 {
      LowIsMod(x / 2, k - 1);
      ModDouble(x, Pow2(k - 1));
    }
  }

  lemma {:induction false} LowOfWord(x: nat, k: nat)
    requires x < Pow2(k)
    ensures Low(x, k) == x
  {
    if k > 0 { LowOfWord(x / 2, k - 1); }
  }

  lemma {:induction false} LowBounds(x: nat, k: nat)
    ensures Low(x, k) <= x && Low(x, k) < Pow2(k)
  {
    if k > 0 { LowBounds(x / 2, k - 1); }
  }

  lemma {:induction false} MaskIsLow(x: nat, k: nat)
    ensures And(x, Pow2(k) - 1) == Low(x, k)
  {
    if k > 0 {
      var m := Pow2(k - 1);
      assert (2 * m - 1) / 2 == m - 1 && (2 * m - 1) % 2 == 1;
      MaskIsLow(x / 2, k - 1);
    }
  }

  /** A mask of low ones is a remainder: `x & (2^k - 1) == x % 2^k`. */
  lemma MaskIsMod(x: nat, k: nat)
    ensures And(x, Pow2(k) - 1) == x % Pow2(k)
  {
    MaskIsLow(x, k);
    LowIsMod(x, k);
  }

  lemma AndEven(x: nat, m: nat)
    ensures And(x, 2 * m) == 2 * And(x / 2, m)
  {
  }

  lemma EvenMaskStep(x: nat, m: nat, low: nat)
    requires And(x / 2, m) == x / 2 - low
    ensures And(x, 2 * m) == x - (x % 2 + 2 * low)
  {
    AndEven(x, m);
  }

  lemma HighMaskEven(k: nat, w: nat)
    requires 0 < k <= w && Pow2(k - 1) <= Pow2(w - 1)
    ensures Not(Pow2(k) - 1, w) == 2 * Not(Pow2(k - 1) - 1, w - 1)
  {
  }

  lemma HighMaskStep(x: nat, k: nat, w: nat)
    requires 0 < k <= w && Pow2(k) <= Pow2(w) && Pow2(k - 1) <= Pow2(w - 1)
    requires And(x / 2, Not(Pow2(k - 1) - 1, w - 1)) == x / 2 - Low(x / 2, k - 1)
    ensures And(x, Not(Pow2(k) - 1, w)) == x - Low(x, k)
  {
    HighMaskEven(k, w);
    EvenMaskStep(x, Not(Pow2(k - 1) - 1, w - 1), Low(x / 2, k - 1));
  }

  lemma FullMaskKeeps(x: nat, w: nat)
    requires x < Pow2(w)
    ensures And(x, Pow2(w) - 1) == x
  {
    MaskIsLow(x, w);
    LowOfWord(x, w);
  }

  /** A mask of high ones within a word clears the low bits. */
  lemma {:induction false} HighMaskClears(x: nat, k: nat, w: nat)
    requires k <= w && x < Pow2(w)
    ensures Pow2(k) <= Pow2(w)
    ensures And(x, Not(Pow2(k) - 1, w)) == x - Low(x, k)
    decreases k
  {
    Pow2Monotone(k, w);
    if k == 0 {
      FullMaskKeeps(x, w);
    } else {
      HighMaskClears(x / 2, k - 1, w - 1);
      HighMaskStep(x, k, w);
    }
  }

  /** Or-ing low bits into a word whose low bits are clear is addition. */
  lemma {:induction false} OrDisjointIsAdd(a: nat, b: nat, k: nat)
    requires Low(a, k) == 0 && b < Pow2(k)
    ensures Or(a, b) == a + b
  {
    if k > 0 { OrDisjointIsAdd(a / 2, b / 2, k - 1); }
  }

  lemma OrHalf(a: nat, b: nat)
    ensures Or(a, b) / 2 == Or(a / 2, b / 2)
    ensures Or(a, b) % 2 == if a % 2 + b % 2 > 0 then 1 else 0
  {
  }

  lemma {:induction false} OrCommutes(a: nat, b: nat)
    ensures Or(a, b) == Or(b, a)
  {
    if a > 0 && b > 0 { OrCommutes(a / 2, b / 2); }
  }

  lemma {:induction false} LowOfOr(a: nat, b: nat, k: nat)
    ensures Low(Or(a, b), k) == Or(Low(a, k), Low(b, k))
  {
    if k > 0 {
      LowOfOr(a / 2, b / 2, k - 1);
      OrHalf(a, b);
      var x, y := Low(a, k), Low(b, k);
      assert x / 2 == Low(a / 2, k - 1) && y / 2 == Low(b / 2, k - 1);
      OrHalf(x, y);
      assert Or(x, y) == Or(x, y) % 2 + 2 * (Or(x, y) / 2);
    }
  }

  lemma {:induction false} LowOfLow(x: nat, k: nat, w: nat)
    requires k <= w
    ensures Low(Low(x, w), k) == Low(x, k)
  {
    if k > 0 { LowOfLow(x / 2, k - 1, w - 1); }
  }

  /** Truncating a counter to `w` bits does not change its index modulo a
      smaller power of two: this is why a free-running counter may wrap. */
  lemma TruncationKeepsIndex(x: nat, k: nat, w: nat)
    requires k <= w
    ensures (x % Pow2(w)) % Pow2(k) == x % Pow2(k)
  {
    LowIsMod(x, w);
    LowIsMod(x, k);
    LowIsMod(Low(x, w), k);
    LowOfLow(x, k, w);
  }

  // ----------------------------------------------------------- single bits

  lemma {:induction false} BitOfOr(a: nat, b: nat, i: nat)
    ensures Bit(Or(a, b), i) == if Bit(a, i) + Bit(b, i) > 0 then 1 else 0
    decreases i
  {
    BitRange(a, i);
    BitRange(b, i);
    if i > 0 {
      BitOfOr(a / 2, b / 2, i - 1);
    }
    OrHalf(a, b);
  }

  lemma {:induction false} BitRange(a: nat, i: nat)
    ensures Bit(a, i) == 0 || Bit(a, i) == 1
  {
    if i > 0 { BitRange(a / 2, i - 1); }
  }

  lemma {:induction false} BitOfShr(a: nat, s: nat, i: nat)
    ensures Bit(Shr(a, s), i) == Bit(a, i + s)
  {
    if s > 0 { BitOfShr(a / 2, s - 1, i); }
  }

  lemma {:induction false} ShrShrinks(a: nat, s: nat)
    ensures Shr(a, s) <= a
  {
    if s > 0 { ShrShrinks(a / 2, s - 1); }
  }

  lemma {:induction false} OrFits(a: nat, b: nat, w: nat)
    requires a < Pow2(w) && b < Pow2(w)
    ensures Or(a, b) < Pow2(w)
  {
    if w > 0 && a > 0 && b > 0 { OrFits(a / 2, b / 2, w - 1); }
  }

  lemma {:induction false} TopBitIsSet(x: nat, len: nat)
    requires len > 0 && Pow2(len - 1) <= x < Pow2(len)
    ensures Bit(x, len - 1) == 1
  {
    if len > 1 { TopBitIsSet(x / 2, len - 1); }
  }

  lemma {:induction false} AllBitsSet(x: nat, len: nat)
    requires x < Pow2(len)
    requires forall i: nat :: i < len ==> Bit(x, i) == 1
    ensures x == Pow2(len) - 1
  {
    if len > 0 {
      assert Bit(x, 0) == 1;
      forall i: nat | i < len - 1 ensures Bit(x / 2, i) == 1 {
        assert Bit(x, i + 1) == 1;
      }
      AllBitsSet(x / 2, len - 1);
    }
  }

  /** Every positive number has a bit length. */
  lemma {:induction false} BitLength(x: nat, w: nat) returns (len: nat)
    requires 0 < x < Pow2(w)
    ensures 0 < len <= w && Pow2(len - 1) <= x < Pow2(len)
  {
    if x == 1 { return 1; }
    len := BitLength(x / 2, w - 1);
    len := len + 1;
  }

  // --------------------------------------------------- next_pow2, align_up

  /** The top `run` bits of a number of bit length `len` are all ones. */
  ghost predicate TopOnes(x: nat, len: nat, run: nat) {
    x < Pow2(len) && forall i: nat :: len - run <= i < len ==> Bit(x, i) == 1
  }

  /** One smearing step `v |= v >> run` doubles the run of leading ones. */
  lemma SmearDoubles(x: nat, len: nat, run: nat)
    requires TopOnes(x, len, run)
    ensures TopOnes(Or(x, Shr(x, run)), len, 2 * run)
  {
    ShrShrinks(x, run);
    OrFits(x, Shr(x, run), len);
    forall i: nat | len - 2 * run <= i < len ensures Bit(Or(x, Shr(x, run)), i) == 1 {
      BitOfOr(x, Shr(x, run), i);
      BitOfShr(x, run, i);
      BitRange(x, i);
      BitRange(Shr(x, run), i);
    }
  }

  /** The least power of two that is at least `v`. */
  ghost predicate IsLeastPow2(r: nat, v: nat) {
    && IsPow2(r)
    && v <= r
    && forall p: nat :: IsPow2(p) && v <= p ==> r <= p
  }

  method Smear(v: nat, run: nat, ghost len: nat) returns (y: nat)
    requires TopOnes(v, len, run)
    ensures TopOnes(y, len, 2 * run)
  {
    SmearDoubles(v, len, run);
    y := Or(v, Shr(v, run));
  }

  /** The five smearing steps of `next_pow2`, which cover words up to 32 bits. */
  method RoundUp(v: nat, w: nat) returns (r: nat)
    requires 0 < w <= 32 && v < Pow2(w)
    ensures v <= Pow2(w - 1) ==> IsLeastPow2(r, v)
    ensures v > Pow2(w - 1) ==> r == 0
  {
    if v == 0 { LeastPow2(0, 0); return 1; }
    var x := v - 1;
    ghost var len := LeadingOne(x, w);
    x := Smear(x, 1, len);
    x := Smear(x, 2, len);
    x := Smear(x, 4, len);
    x := Smear(x, 8, len);
    x := Smear(x, 16, len);
    AllBitsSet(x, len);
    r := (x + 1) % Pow2(w);
    RoundedUp(v, len, r, w);
  }

  method NextPow2(v: nat) returns (r: nat)
    requires v < Pow2(WORD)
    ensures v <= Pow2(WORD - 1) ==> IsLeastPow2(r, v)
    ensures v > Pow2(WORD - 1) ==> r == 0
  {
    r := RoundUp(v, WORD);
  }

  lemma LeadingOne(x: nat, w: nat) returns (len: nat)
    requires x < Pow2(w)
    ensures len <= w && TopOnes(x, len, 1)
    ensures len > 0 ==> Pow2(len - 1) <= x
  {
    if x > 0 {
      len := BitLength(x, w);
      TopBitIsSet(x, len);
    } else {
      len := 0;
    }
  }

  lemma LeastPow2(v: nat, len: nat)
    requires v <= Pow2(len) && (len > 0 ==> Pow2(len - 1) < v)
    ensures IsLeastPow2(Pow2(len), v)
  {
    forall p: nat | IsPow2(p) && v <= p ensures Pow2(len) <= p {
      var k: nat :| p == Pow2(k);
      if k < len { Pow2Monotone(k, len - 1); } else { Pow2Monotone(len, k); }
    }
  }

  lemma RoundedUp(v: nat, len: nat, r: nat, w: nat)
    requires 0 < v <= Pow2(len) && len <= w && w > 0
    requires len > 0 ==> Pow2(len - 1) < v
    requires r == Pow2(len) % Pow2(w)
    ensures v <= Pow2(w - 1) ==> IsLeastPow2(r, v)
    ensures v > Pow2(w - 1) ==> r == 0
  {
    if len == w {
      DivideOnce(Pow2(w), Pow2(w), 1, 0);
    } else {
      Pow2Monotone(len, w - 1);
      Pow2Monotone(len, w);
      DivideOnce(Pow2(len), Pow2(w), 0, Pow2(len));
      LeastPow2(v, len);
    }
  }

  /** `(v + a - 1) & ~(a - 1)` on words of `w` bits. */
  function AlignUp(v: nat, a: nat, w: nat): nat
    requires 0 < a < Pow2(w)
  {
    And((v + a - 1) % Pow2(w), Not(a - 1, w))
  }

  ghost predicate IsLeastMultiple(r: nat, v: nat, a: nat)
    requires a > 0
  {
    r % a == 0 && v <= r < v + a
  }

  lemma RoundDown(x: nat, k: nat)
    ensures (x - x % Pow2(k)) % Pow2(k) == 0
    ensures x - Pow2(k) < x - x % Pow2(k) <= x
  {
    var a := Pow2(k);
    assert x == x / a * a + x % a;
    DivideOnce(x - x % a, a, x / a, 0);
  }

  lemma AlignUpFits(v: nat, k: nat, w: nat)
    requires Pow2(k) < Pow2(w) && k < w && v + Pow2(k) - 1 < Pow2(w)
    ensures IsLeastMultiple(AlignUp(v, Pow2(k), w), v, Pow2(k))
  {
    var sum := v + Pow2(k) - 1;
    DivideOnce(sum, Pow2(w), 0, sum);
    HighMaskClears(sum, k, w);
    LowIsMod(sum, k);
    RoundDown(sum, k);
  }

  lemma AlignUpOverflows(v: nat, k: nat, w: nat)
    requires Pow2(k) < Pow2(w) && k < w && v < Pow2(w) <= v + Pow2(k) - 1
    ensures AlignUp(v, Pow2(k), w) == 0
  {
    var sum := v + Pow2(k) - 1;
    DivideOnce(sum, Pow2(w), 1, sum - Pow2(w));
    HighMaskClears(sum - Pow2(w), k, w);
    LowOfWord(sum - Pow2(w), k);
  }

  /** The result is the least multiple of `a` at or above `v` exactly when the
      intermediate sum does not overflow the word. */
  lemma AlignUpIsLeastMultiple(v: nat, k: nat, w: nat)
    requires v < Pow2(w) && k < w
    ensures Pow2(k) < Pow2(w)
    ensures IsLeastMultiple(AlignUp(v, Pow2(k), w), v, Pow2(k)) <==> v + Pow2(k) - 1 < Pow2(w)
  {
    Pow2Monotone(k, w);
    if v + Pow2(k) - 1 < Pow2(w) {
      AlignUpFits(v, k, w);
    } else {
      AlignUpOverflows(v, k, w);
    }
  }

  // ------------------------------------------------------------- pointer tags

  function Tagged(addr: nat, tag: nat): nat { Or(addr, tag) }

  function TagOf(word: nat, k: nat): nat { And(word, Pow2(k) - 1) }

  function Untagged(word: nat, k: nat, w: nat): nat
    requires Pow2(k) <= Pow2(w)
  {
    And(word, Not(Pow2(k) - 1, w))
  }

  lemma {:induction false} ClearedLow(x: nat, k: nat)
    ensures Low(x, k) <= x && Low(x - Low(x, k), k) == 0
  {
    if k > 0 {
      ClearedLow(x / 2, k - 1);
      assert (x - Low(x, k)) / 2 == x / 2 - Low(x / 2, k - 1);
    }
  }

  lemma TaggedLow(addr: nat, tag: nat, k: nat)
    requires tag < Pow2(k) && Low(addr, k) == 0
    ensures Tagged(addr, tag) == addr + tag && Low(Tagged(addr, tag), k) == tag
  {
    OrDisjointIsAdd(addr, tag, k);
    LowOfOr(addr, tag, k);
    LowOfWord(tag, k);
  }

  /** A tag in the low `k` bits loses nothing exactly on addresses whose low
      `k` bits are clear; the engine uses k = 3 and 64-bit addresses. */
  lemma TagRoundTrip(addr: nat, tag: nat, k: nat, w: nat)
    requires k <= w && addr < Pow2(w) && tag < Pow2(k)
    ensures Pow2(k) <= Pow2(w)
    ensures Tagged(addr, tag) < Pow2(w)
    ensures Untagged(Tagged(addr, tag), k, w) == addr <==> addr % Pow2(k) == 0
    ensures addr % Pow2(k) == 0 ==> TagOf(Tagged(addr, tag), k) == tag
  {
    Pow2Monotone(k, w);
    OrFits(addr, tag, w);
    var word := Tagged(addr, tag);
    HighMaskClears(word, k, w);
    MaskIsLow(word, k);
    LowIsMod(addr, k);
    if Low(addr, k) == 0 {
      TaggedLow(addr, tag, k);
    } else {
      ClearedLow(word, k);
    }
  }

  // ------------------------------------------------- area token in an offset

  /** `(off & ~AREA_MASK) | token`: the mask covers the bits from `shift` up. */
  function Splice(off: nat, token: nat, shift: nat): nat {
    Or(And(off, Pow2(shift) - 1), token)
  }

  /** Every offset keeps its low bits, and the token fills the bits above,
      exactly when the token itself has no low bits. */
  lemma SpliceKeepsOffset(off: nat, token: nat, shift: nat)
    ensures token % Pow2(shift) == 0 ==> Splice(off, token, shift) == off % Pow2(shift) + token
    ensures token % Pow2(shift) != 0 ==> Splice(0, token, shift) % Pow2(shift) != 0
  {
    MaskIsLow(off, shift);
    LowIsMod(off, shift);
    LowIsMod(token, shift);
    LowBounds(off, shift);
    if token % Pow2(shift) == 0 {
      OrDisjointIsAdd(token, Low(off, shift), shift);
      OrCommutes(Low(off, shift), token);
    }
  }
}
