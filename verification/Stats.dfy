/** Per-thread statistics: what a worker adds, and what the reporter makes of
    counters it reads one at a time while the workers keep adding. */
module Stats {
  import opened Bits

  /** One thread's counters, or a worker's contribution to them. */
  datatype Counters = Counters(bytes: nat, packets: nat, zc: nat, errors: nat) {
    function AddBytes(n: nat, k: nat): Counters { this.(bytes := bytes + n, packets := packets + k) }
    function AddZc(): Counters { this.(zc := zc + 1) }
    function AddError(): Counters { this.(errors := errors + 1) }
  }

  const ZERO := Counters(0, 0, 0, 0)

  // ------------------------------------------------------------------- sums

  function Sum(xs: seq<nat>): nat {
    if xs == [] then 0 else Sum(xs[..|xs| - 1]) + xs[|xs| - 1]
  }

  lemma {:induction false} SumUpdate(xs: seq<nat>, i: nat, v: nat)
    requires i < |xs|
    ensures Sum(xs[i := v]) == Sum(xs) - xs[i] + v
  {
    var n := |xs| - 1;
    if i < n {
      SumUpdate(xs[..n], i, v);
      assert xs[i := v][..n] == xs[..n][i := v];
    } else {
      assert xs[i := v][..n] == xs[..n];
    }
  }

  lemma {:induction false} SumLeq(xs: seq<nat>, ys: seq<nat>)
    requires |xs| == |ys| && forall i :: 0 <= i < |xs| ==> xs[i] <= ys[i]
    ensures Sum(xs) <= Sum(ys)
  {
    if xs != [] { SumLeq(xs[..|xs| - 1], ys[..|ys| - 1]); }
  }

  lemma SumAppend(xs: seq<nat>, x: nat)
    ensures Sum(xs + [x]) == Sum(xs) + x
  {
    assert (xs + [x])[..|xs|] == xs;
  }

  lemma SumNext(xs: seq<nat>, i: nat)
    requires i < |xs|
    ensures Sum(xs[..i + 1]) == Sum(xs[..i]) + xs[i]
  {
    assert xs[..i + 1] == xs[..i] + [xs[i]];
    SumAppend(xs[..i], xs[i]);
  }

  lemma ModSum(a: int, b: int, m: nat)
    requires m > 0
    ensures (a % m + b) % m == (a + b) % m
  {
    var q, s := a / m, a % m + b;
    assert a == q * m + a % m && s == s / m * m + s % m;
    assert (q + s / m) * m == q * m + s / m * m;
    DivideOnce(a + b, m, q + s / m, s % m);
  }

  lemma ModDifference(a: nat, b: nat, m: nat)
    requires m > 0
    ensures (a % m - b % m) % m == (a - b) % m
  {
    ModSum(a, -(b % m), m);
    var d, q := a - b, b / m;
    assert b == q * m + b % m && d == d / m * m + d % m;
    assert (d / m + q) * m == d / m * m + q * m;
    DivideOnce(a - b % m, m, d / m + q, d % m);
  }

  // ------------------------------------------------- packets of UDP batches

  /** One completion of a segmented UDP batch counts as `max(1, res / segment)`. */
  function PacketEstimate(res: nat, segment: nat): nat
    requires segment > 0
  {
    if res / segment > 1 then res / segment else 1
  }

  /** The datagrams the batch really takes. */
  function Datagrams(res: nat, segment: nat): nat
    requires segment > 0
  {
    (res + segment - 1) / segment
  }

  function EstimateSum(rs: seq<nat>, segment: nat): nat
    requires segment > 0
  {
    if rs == [] then 0
    else EstimateSum(rs[..|rs| - 1], segment) + PacketEstimate(rs[|rs| - 1], segment)
  }

  function DatagramSum(rs: seq<nat>, segment: nat): nat
    requires segment > 0
  {
    if rs == [] then 0
    else DatagramSum(rs[..|rs| - 1], segment) + Datagrams(rs[|rs| - 1], segment)
  }

  /** Results longer than one segment that end in a short datagram. */
  function ShortTails(rs: seq<nat>, segment: nat): nat
    requires segment > 0
  {
    if rs == [] then 0
    else ShortTails(rs[..|rs| - 1], segment)
         + if rs[|rs| - 1] > segment && rs[|rs| - 1] % segment != 0 then 1 else 0
  }

  lemma DatagramsOf(res: nat, segment: nat)
    requires segment > 0 && res > 0
    ensures Datagrams(res, segment) == PacketEstimate(res, segment)
      + if res > segment && res % segment != 0 then 1 else 0
  {
    var q, r := res / segment, res % segment;
    assert res == q * segment + r;
    if r == 0 {
      assert q != 0;
      DivideOnce(res + segment - 1, segment, q, segment - 1);
    } else {
      assert (q + 1) * segment == q * segment + segment;
      DivideOnce(res + segment - 1, segment, q + 1, r - 1);
    }
    if q >= 1 { MultiplesApart(0, q, segment); }
    if q >= 2 { MultiplesApart(1, q, segment); }
  }

  /** Over any run of positive results the estimate falls short of the true
      datagram count by exactly the number of short tails, so by at most one per
      completion, and by nothing when every result is a whole multiple. */
  lemma {:induction false} EstimateError(rs: seq<nat>, segment: nat)
    requires segment > 0 && forall i :: 0 <= i < |rs| ==> rs[i] > 0
    ensures DatagramSum(rs, segment) == EstimateSum(rs, segment) + ShortTails(rs, segment)
    ensures ShortTails(rs, segment) <= |rs|
    ensures (forall i :: 0 <= i < |rs| ==> rs[i] % segment == 0) ==> ShortTails(rs, segment) == 0
  {
    if rs != [] {
      EstimateError(rs[..|rs| - 1], segment);
      DatagramsOf(rs[|rs| - 1], segment);
    }
  }
}

/** The reporter's scan running beside the workers. */
module StatsScan {
  import opened Bits
  import opened Stats
  import opened Runs
  import opened Bags

  /** One column of the shared table (bytes, packets or zero-copy count; the
      columns share nothing, so a run of the collector is one such run per
      column). `words` are the wrapped 64-bit cells; `truth` the true totals
      behind them. During a scan `pos` cells have been loaded into `total`;
      `seen` is the true value loaded and `base` the truth when it began.
      `reports` are the interval values printed so far. */
  datatype Column = Column(
    words: seq<nat>, truth: seq<nat>, added: nat,
    scanning: bool, pos: nat, total: nat, seen: nat, base: seq<nat>,
    prev: nat, prevSeen: nat, reports: seq<nat>)

  datatype Step = Add(thread: nat, amount: nat) | Begin | LoadCell | Finish

  /** An id outside the table is ignored. */
  function Added(m: nat, s: Column, t: nat, k: nat): Column
    requires m > 0
  {
    if t < |s.words| && t < |s.truth| then
      s.(words := s.words[t := (s.words[t] + k) % m], truth := s.truth[t := s.truth[t] + k], added := s.added + k)
    else s
  }

  function Begun(s: Column): Column {
    s.(scanning := true, pos := 0, total := 0, seen := 0, base := s.truth)
  }

  function Loaded(m: nat, s: Column): Column
    requires m > 0 && s.pos < |s.words| && s.pos < |s.truth|
  {
    s.(pos := s.pos + 1, total := (s.total + s.words[s.pos]) % m, seen := s.seen + s.truth[s.pos])
  }

  function Finished(m: nat, s: Column): Column
    requires m > 0
  {
    s.(scanning := false, prev := s.total, prevSeen := s.seen, reports := s.reports + [(s.total - s.prev) % m])
  }

  /** `m` is the modulus of the counter type, 2^64 in the program. */
  ghost predicate Next(m: nat, s: Column, step: Step, s': Column)
    requires m > 0
  {
    match step
    case Add(t, k) => s' == Added(m, s, t, k)
    case Begin => !s.scanning && s' == Begun(s)
    case LoadCell => s.scanning && s.pos < |s.words| && s.pos < |s.truth| && s' == Loaded(m, s)
    case Finish => s.scanning && s.pos == |s.words| && s' == Finished(m, s)
  }

  ghost predicate Init(s: Column) {
    && |s.words| == |s.truth|
    && (forall i :: 0 <= i < |s.words| ==> s.words[i] == 0 && s.truth[i] == 0)
    && s.added == 0 && !s.scanning && s.prev == 0 && s.prevSeen == 0 && s.reports == []
  }

  /** Each cell is its true total modulo `m`. */
  ghost predicate Stored(m: nat, s: Column)
    requires m > 0
  {
    && |s.words| == |s.truth|
    && (forall i :: 0 <= i < |s.words| ==> s.words[i] == s.truth[i] % m)
    && s.added == Sum(s.truth)
  }

  /** A scan in progress lies between what was true when it began and now. */
  ghost predicate Between(m: nat, s: Column)
    requires m > 0
  {
    s.scanning ==>
      && s.pos <= |s.truth| == |s.base|
      && (forall i :: 0 <= i < |s.base| ==> s.base[i] <= s.truth[i])
      && s.total == s.seen % m
      && Sum(s.base[..s.pos]) <= s.seen <= Sum(s.truth[..s.pos])
      && s.prevSeen <= Sum(s.base)
  }

  /** What has been reported adds up to the last scanned total. */
  ghost predicate Telescoped(m: nat, s: Column)
    requires m > 0
  {
    && s.prev == s.prevSeen % m
    && s.prevSeen <= Sum(s.truth)
    && Sum(s.reports) % m == s.prev
    && (Sum(s.truth) < m ==> Sum(s.reports) == s.prevSeen)
  }

  ghost predicate Inv(m: nat, s: Column)
    requires m > 0
  {
    Stored(m, s) && Between(m, s) && Telescoped(m, s)
  }

  lemma AddKeeps(m: nat, s: Column, t: nat, k: nat, s': Column)
    requires m > 0 && Inv(m, s) && Next(m, s, Add(t, k), s')
    ensures Inv(m, s')
  {
    if t < |s.words| {
      SumUpdate(s.truth, t, s.truth[t] + k);
      ModSum(s.truth[t], k, m);
      if s.scanning {
        SumLeq(s.truth[..s.pos], s'.truth[..s.pos]);
      }
    }
  }

  lemma LoadKeeps(m: nat, s: Column, s': Column)
    requires m > 0 && Inv(m, s) && Next(m, s, LoadCell, s')
    ensures Inv(m, s')
  {
    SumNext(s.base, s.pos);
    SumNext(s.truth, s.pos);
    ModSum(s.seen, s.words[s.pos], m);
    ModSum(s.truth[s.pos], s.seen, m);
  }

  /** The printed interval is the true difference modulo `m`, and the true
      difference itself while the totals stay below `m`. */
  lemma IntervalIsDifference(m: nat, s: Column)
    requires m > 0 && Inv(m, s) && s.scanning && s.pos == |s.words|
    ensures Sum(s.base) <= s.seen <= Sum(s.truth) && s.prevSeen <= s.seen
    ensures (s.total - s.prev) % m == (s.seen - s.prevSeen) % m
    ensures Sum(s.truth) < m ==> s.total == s.seen && (s.total - s.prev) % m == s.seen - s.prevSeen
  {
    assert s.base[..s.pos] == s.base && s.truth[..s.pos] == s.truth;
    ModDifference(s.seen, s.prevSeen, m);
    if Sum(s.truth) < m {
      DivideOnce(s.seen, m, 0, s.seen);
      DivideOnce(s.prevSeen, m, 0, s.prevSeen);
      DivideOnce(s.seen - s.prevSeen, m, 0, s.seen - s.prevSeen);
    }
  }

  lemma FinishKeeps(m: nat, s: Column, s': Column)
    requires m > 0 && Inv(m, s) && Next(m, s, Finish, s')
    ensures Inv(m, s')
  {
    IntervalIsDifference(m, s);
    FinishTelescopes(m, s);
  }

  lemma FinishTelescopes(m: nat, s: Column)
    requires m > 0 && Telescoped(m, s) && s.total == s.seen % m && s.prevSeen <= s.seen <= Sum(s.truth)
    requires Sum(s.truth) < m ==> (s.total - s.prev) % m == s.seen - s.prevSeen
    ensures Telescoped(m, Finished(m, s))
  {
    SumAppend(s.reports, (s.total - s.prev) % m);
    ReportAdds(m, Sum(s.reports), s.total, s.prev, s.seen);
  }

  /** A wrapped difference added to a wrapped sum. */
  lemma ReportAdds(m: nat, sum: nat, total: nat, prev: nat, seen: nat)
    requires m > 0 && sum % m == prev && total == seen % m
    ensures (sum + (total - prev) % m) % m == total
  {
    // (sum + r) % m == (prev + (total - prev)) % m == total
    ModSum(sum, (total - prev) % m, m);
    ModSum(total - prev, prev, m);
    ModSum(seen, 0, m);
  }

  lemma StepKeeps(m: nat, s: Column, step: Step, s': Column)
    requires m > 0 && Inv(m, s) && Next(m, s, step, s')
    ensures Inv(m, s')
  {
    match step
    case Add(t, k) => AddKeeps(m, s, t, k, s');
    case Begin => DivideOnce(0, m, 0, 0);
    case LoadCell => LoadKeeps(m, s, s');
    case Finish => FinishKeeps(m, s, s');
  }

  ghost function Steps(m: nat): (Column, Step, Column) -> bool {
    (s: Column, step: Step, s': Column) => m > 0 && Next(m, s, step, s')
  }

  ghost function Starts(): Column -> bool { (s: Column) => Init(s) }

  ghost predicate Reachable(m: nat, s: Column) { Reached(Starts(), Steps(m), s) }

  lemma {:induction false} SumZero(xs: seq<nat>)
    requires forall i :: 0 <= i < |xs| ==> xs[i] == 0
    ensures Sum(xs) == 0
  {
    if xs != [] { SumZero(xs[..|xs| - 1]); }
  }

  lemma InitHolds(m: nat, s: Column)
    requires m > 0 && Init(s)
    ensures Inv(m, s)
  {
    SumZero(s.truth);
    DivideOnce(0, m, 0, 0);
  }

  lemma ReachableInv(m: nat, s: Column)
    requires m > 0 && Reachable(m, s)
    ensures Inv(m, s)
  {
    var inv := (s: Column) => Inv(m, s);
    forall s | Starts()(s) ensures inv(s) { InitHolds(m, s); }
    forall s, step, s' | inv(s) && Steps(m)(s, step, s') ensures inv(s') { StepKeeps(m, s, step, s'); }
    Always(Starts(), Steps(m), inv, s);
  }

  // ------------------------------------------------ what was added, by the steps

  /** What a step adds to a table of `n` threads, and to the cell of thread `t`. */
  function Amount(n: nat): Step -> nat {
    (step: Step) => if step.Add? && step.thread < n then step.amount else 0
  }

  function AmountFor(t: nat): Step -> nat {
    (step: Step) => if step.Add? && step.thread == t then step.amount else 0
  }

  /** The books after the steps `p`, which began in `s`. */
  ghost predicate Logged(s: Column, p: seq<Step>, t: Column) {
    && |t.words| == |t.truth| == |s.words| == |s.truth|
    && t.added == s.added + Total(p, Amount(|s.words|))
    && forall k :: 0 <= k < |s.truth| ==> t.truth[k] == s.truth[k] + Total(p, AmountFor(k))
  }

  lemma StepLogged(m: nat, s: Column, p: seq<Step>, t: Column, step: Step, t': Column)
    requires m > 0 && Logged(s, p, t) && Next(m, t, step, t')
    ensures Logged(s, p + [step], t')
  {
    TotalAppend(p, step, Amount(|s.words|));
    forall k | 0 <= k < |s.truth| ensures t'.truth[k] == s.truth[k] + Total(p + [step], AmountFor(k)) {
      TotalAppend(p, step, AmountFor(k));
    }
  }

  lemma PathLogged(m: nat, s: Column, steps: seq<Step>, t: Column)
    requires m > 0 && |s.words| == |s.truth| && Leads(Steps(m), s, steps, t)
    ensures Logged(s, steps, t)
  {
    var inv := (p: seq<Step>, t: Column) => Logged(s, p, t);
    forall p, t, step, t' | inv(p, t) && Steps(m)(t, step, t') ensures inv(p + [step], t') {
      StepLogged(m, s, p, t, step, t');
    }
    Along(Steps(m), inv, s, steps, t);
  }

  /** The steps so far, from an empty table of `n` threads. */
  ghost predicate Ran(m: nat, n: nat, steps: seq<Step>, s: Column) {
    Leads(Steps(m), Empty(n), steps, s)
  }

  function Empty(n: nat): Column {
    Column(seq(n, _ => 0), seq(n, _ => 0), 0, false, 0, 0, 0, [], 0, 0, [])
  }

  lemma RanInv(m: nat, n: nat, steps: seq<Step>, s: Column)
    requires m > 0 && Ran(m, n, steps, s)
    ensures Reachable(m, s) && Inv(m, s)
  {
    ReachedStart(Starts(), Steps(m), Empty(n));
    LeadsReach(Starts(), Steps(m), Empty(n), steps, s);
    ReachableInv(m, s);
  }

  /** In every run the true totals are what the additions amount to: those with a
      thread of the table, each in the cell of its own thread. */
  lemma EveryAdditionCounts(m: nat, n: nat, steps: seq<Step>, s: Column)
    requires m > 0 && Ran(m, n, steps, s)
    ensures |s.truth| == |s.words| == n
    ensures s.added == Sum(s.truth) == Total(steps, Amount(n))
    ensures forall t :: 0 <= t < n ==> s.truth[t] == Total(steps, AmountFor(t)) && s.words[t] == s.truth[t] % m
  {
    RanInv(m, n, steps, s);
    PathLogged(m, Empty(n), steps, s);
  }

  /** Until another scan begins the base stays. */
  lemma BaseStays(m: nat, s: Column, steps: seq<Step>, t: Column)
    requires Leads(Steps(m), s, steps, t) && forall i :: 0 <= i < |steps| ==> !steps[i].Begin?
    ensures t.base == s.base
  {
    var inv := (p: seq<Step>, t: Column) => (forall i :: 0 <= i < |p| ==> !p[i].Begin?) ==> t.base == s.base;
    forall p, t, step, t' | inv(p, t) && Steps(m)(t, step, t') ensures inv(p + [step], t') {
      if forall i :: 0 <= i < |p + [step]| ==> !(p + [step])[i].Begin? {
        assert forall i :: 0 <= i < |p| ==> (p + [step])[i] == p[i];
        assert (p + [step])[|p|] == step;
      }
    }
    Along(Steps(m), inv, s, steps, t);
  }

  /** A whole scan: it begins after the steps `before`, the steps `during` follow
      and it finishes in `s'`. */
  ghost predicate Scan(m: nat, n: nat, before: seq<Step>, a: Column, during: seq<Step>, s: Column, s': Column)
    requires m > 0
  {
    && Ran(m, n, before, a) && !a.scanning && Leads(Steps(m), Begun(a), during, s)
    && (forall i :: 0 <= i < |during| ==> !during[i].Begin?) && Next(m, s, Finish, s')
  }

  lemma ScanPath(m: nat, n: nat, before: seq<Step>, a: Column, during: seq<Step>, s: Column, s': Column)
    requires m > 0 && Scan(m, n, before, a, during, s, s')
    ensures Reachable(m, s) && Inv(m, s) && Sum(s.base) == Total(before, Amount(n))
    ensures Sum(s.truth) == Total(before, Amount(n)) + Total(during, Amount(n))
  {
    EveryAdditionCounts(m, n, before, a);
    LeadsOn(Steps(m), Empty(n), before, a, Begin, Begun(a));
    LeadsVia(Steps(m), Empty(n), before + [Begin], Begun(a), during, s);
    RanInv(m, n, before + [Begin] + during, s);
    BaseStays(m, Begun(a), during, s);
    PathLogged(m, Begun(a), during, s);
  }

  /** Whenever a scan completes, in any run: its total lies between what had been
      added when it began and what has been added when it ends, and is not below
      the previous total; below the wrap the printed interval is exactly the
      difference of the two totals. */
  lemma ScanIsBetween(m: nat, n: nat, before: seq<Step>, a: Column, during: seq<Step>, s: Column, s': Column)
    requires m > 0 && Scan(m, n, before, a, during, s, s')
    ensures Total(before, Amount(n)) <= s'.prevSeen <= Total(before, Amount(n)) + Total(during, Amount(n))
    ensures s.prevSeen <= s'.prevSeen && s'.prev == s'.prevSeen % m
    ensures Total(before, Amount(n)) + Total(during, Amount(n)) < m ==>
      s'.prev == s'.prevSeen && s'.reports == s.reports + [s'.prev - s.prev]
  {
    ScanPath(m, n, before, a, during, s, s');
    FinishIsBetween(m, s, s');
  }

  lemma FinishIsBetween(m: nat, s: Column, s': Column)
    requires m > 0 && Inv(m, s) && Next(m, s, Finish, s')
    ensures Sum(s.base) <= s'.prevSeen <= Sum(s.truth)
    ensures s.prevSeen <= s'.prevSeen && s'.prev == s'.prevSeen % m
    ensures Sum(s.truth) < m ==> s'.prev == s'.prevSeen && s'.reports == s.reports + [s'.prev - s.prev]
  {
    IntervalIsDifference(m, s);
    if Sum(s.truth) < m { DivideOnce(s.prevSeen, m, 0, s.prevSeen); }
  }

  /** The printed intervals telescope: modulo `m` always, exactly below it. */
  lemma ReportsTelescope(m: nat, s: Column)
    requires m > 0 && Reachable(m, s)
    ensures Sum(s.reports) % m == s.prev
    ensures Sum(s.truth) < m ==> Sum(s.reports) == s.prev
  {
    ReachableInv(m, s);
    if Sum(s.truth) < m { DivideOnce(s.prevSeen, m, 0, s.prevSeen); }
  }

  /** A scan during which nothing is added yields the exact sum of everything
      ever added (modulo `m`). */
  lemma QuietScanIsExact(m: nat, n: nat, before: seq<Step>, a: Column, during: seq<Step>, s: Column, s': Column)
    requires m > 0 && Scan(m, n, before, a, during, s, s') && Total(during, Amount(n)) == 0
    ensures s'.prev == Total(before, Amount(n)) % m
  {
    ScanIsBetween(m, n, before, a, during, s, s');
    assert s'.prevSeen == Total(before, Amount(n));
  }

  // ------------------------------------------------------------- the classes

  /** One column of the shared table and the reporter's locals for it. The ghosts
      are the additions so far and the state of the run these belong to. */
  class Counter {
    const m: nat
    const cells: array<nat>
    var total: nat
    var prev: nat
    ghost var log: seq<Step>
    ghost var col: Column

    ghost predicate Ok()
      reads this, cells
    {
      && m > 0 && Reachable(m, col) && cells[..] == col.words && prev == col.prev
      && (col.scanning ==> total == col.total)
      && col.added == Total(log, Amount(cells.Length))
    }

    constructor (threads: nat, m: nat)
      requires m > 0
      ensures Ok() && this.m == m && cells.Length == threads && fresh(cells) && log == []
    {
      this.m, total, prev := m, 0, 0;
      cells := new nat[threads](_ => 0);
      log, col := [], Empty(threads);
      new;
      ReachedStart(Starts(), Steps(m), col);
    }

    /** `fetch_add` on the cell of a thread. */
    method Add(thread: nat, amount: nat)
      requires Ok()
      modifies cells, this`col, this`log
      ensures Ok() && col == Added(m, old(col), thread, amount) && log == old(log) + [Step.Add(thread, amount)]
      ensures Kept(col, old(col))
    {
      ReachableInv(m, col);
      if thread < cells.Length { cells[thread] := (cells[thread] + amount) % m; }
      ghost var was := col;
      col := Added(m, col, thread, amount);
      ReachedNext(Starts(), Steps(m), was, Step.Add(thread, amount), col);
      TotalAppend(log, Step.Add(thread, amount), Amount(cells.Length));
      log := log + [Step.Add(thread, amount)];
    }

    method Begin()
      requires Ok() && !col.scanning
      modifies this`total, this`col
      ensures Ok() && col == Begun(old(col))
    {
      total := 0;
      ghost var was := col;
      col := Begun(col);
      ReachedNext(Starts(), Steps(m), was, Step.Begin, col);
    }

    method Load(i: nat)
      requires Ok() && col.scanning && i == col.pos < |col.words|
      modifies this`total, this`col
      ensures Ok() && |old(col).truth| == |old(col).words| && col == Loaded(m, old(col))
    {
      ReachableInv(m, col);
      total := (total + cells[i]) % m;
      ghost var was := col;
      col := Loaded(m, col);
      ReachedNext(Starts(), Steps(m), was, LoadCell, col);
    }

    method Finish() returns (interval: nat)
      requires Ok() && col.scanning && col.pos == |col.words|
      modifies this`prev, this`col
      ensures Ok() && col == Finished(m, old(col)) && interval == (prev - old(prev)) % m
    {
      interval := (total - prev) % m;
      prev := total;
      ghost var was := col;
      col := Finished(m, col);
      ReachedNext(Starts(), Steps(m), was, Step.Finish, col);
    }

    /** The loop of `print_summary`, when no worker adds any more: exactly what
        was ever added, in the counter type. */
    method Summary() returns (sum: nat)
      requires Ok()
      ensures sum == Total(log, Amount(cells.Length)) % m
    {
      ReachableInv(m, col);
      sum := 0;
      DivideOnce(0, m, 0, 0);
      for i := 0 to cells.Length
        invariant sum == Sum(col.truth[..i]) % m
      {
        SumNext(col.truth, i);
        ModSum(Sum(col.truth[..i]), col.truth[i] % m, m);
        ModSum(col.truth[i], Sum(col.truth[..i]), m);
        sum := (sum + cells[i]) % m;
      }
      assert col.truth[..cells.Length] == col.truth;
    }
  }

  /** What a worker adds: payload, a notification or an error. */
  datatype Addition = Payload(thread: nat, bytes: nat, packets: nat) | Notification(thread: nat) | Error(thread: nat)

  /** What each column has to do for an addition. */
  function ByteSteps(a: Addition): seq<Step> { if a.Payload? then [Step.Add(a.thread, a.bytes)] else [] }
  function PacketSteps(a: Addition): seq<Step> { if a.Payload? then [Step.Add(a.thread, a.packets)] else [] }
  function ZcSteps(a: Addition): seq<Step> { if a.Notification? then [Step.Add(a.thread, 1)] else [] }
  function ErrorSteps(a: Addition): seq<Step> { if a.Error? then [Step.Add(a.thread, 1)] else [] }

  /** A column's log after some additions. */
  function LogFrom(log: seq<Step>, adds: seq<Addition>, f: Addition -> seq<Step>): seq<Step> { log + Gather(adds, f) }

  lemma LogMore(log: seq<Step>, adds: seq<Addition>, i: nat, f: Addition -> seq<Step>)
    requires i < |adds|
    ensures LogFrom(log, adds[..i + 1], f) == LogFrom(log, adds[..i], f) + f(adds[i])
  {
    var front := adds[..i];
    assert adds[..i + 1] == front + [adds[i]];
    GatherAppend(front, adds[i], f);
    assert log + (Gather(front, f) + f(adds[i])) == (log + Gather(front, f)) + f(adds[i]);
  }

  lemma NoLog(b: seq<Step>, p: seq<Step>, z: seq<Step>, adds: seq<Addition>)
    ensures LogFrom(b, adds[..0], ByteSteps) == b && LogFrom(p, adds[..0], PacketSteps) == p
    ensures LogFrom(z, adds[..0], ZcSteps) == z
  {
  }

  /** The collector: four columns over the same threads. */
  class Collector {
    const bytes: Counter
    const packets: Counter
    const zc: Counter
    const errors: Counter

    ghost predicate Apart()
      reads {}
    {
      && bytes != packets && bytes != zc && bytes != errors && packets != zc && packets != errors && zc != errors
      && bytes.cells != packets.cells && bytes.cells != zc.cells && bytes.cells != errors.cells
      && packets.cells != zc.cells && packets.cells != errors.cells && zc.cells != errors.cells
      && bytes.cells.Length == packets.cells.Length == zc.cells.Length
    }

    ghost predicate Ok()
      reads bytes, bytes.cells, packets, packets.cells, zc, zc.cells, errors, errors.cells
    {
      Apart() && bytes.Ok() && packets.Ok() && zc.Ok() && errors.Ok()
    }

    constructor (threads: nat, m: nat)
      requires m > 0
      ensures Ok() && fresh({bytes, packets, zc, errors}) && fresh({bytes.cells, packets.cells, zc.cells, errors.cells})
    {
      bytes := new Counter(threads, m);
      packets := new Counter(threads, m);
      zc := new Counter(threads, m);
      errors := new Counter(threads, m);
    }

    /** `add_bytes`, `add_zc_notification` and `add_error`. */
    method Record(a: Addition)
      requires Ok()
      modifies bytes`col, bytes`log, bytes.cells, packets`col, packets`log, packets.cells
      modifies zc`col, zc`log, zc.cells, errors`col, errors`log, errors.cells
      ensures Ok()
      ensures bytes.log == old(bytes.log) + ByteSteps(a) && packets.log == old(packets.log) + PacketSteps(a)
      ensures zc.log == old(zc.log) + ZcSteps(a) && errors.log == old(errors.log) + ErrorSteps(a)
      ensures Kept(bytes.col, old(bytes.col)) && Kept(packets.col, old(packets.col)) && Kept(zc.col, old(zc.col))
    {
      match a {
        case Payload(t, b, p) => AddBytes(t, b, p);
        case Notification(t) => zc.Add(t, 1);
        case Error(t) => errors.Add(t, 1);
      }
    }

    /** Two separate atomic additions. */
    method AddBytes(t: nat, b: nat, p: nat)
      requires Ok()
      modifies bytes`col, bytes`log, bytes.cells, packets`col, packets`log, packets.cells
      ensures Ok() && Kept(bytes.col, old(bytes.col)) && Kept(packets.col, old(packets.col))
      ensures bytes.log == old(bytes.log) + [Step.Add(t, b)] && packets.log == old(packets.log) + [Step.Add(t, p)]
    {
      bytes.Add(t, b);
      packets.Add(t, p);
    }

    /** The logs after `adds` have been recorded, from the given ones on. */
    ghost predicate Logs(b: seq<Step>, p: seq<Step>, z: seq<Step>, adds: seq<Addition>)
      reads bytes, packets, zc
    {
      && bytes.log == LogFrom(b, adds, ByteSteps) && packets.log == LogFrom(p, adds, PacketSteps)
      && zc.log == LogFrom(z, adds, ZcSteps)
    }

    method RecordNext(adds: seq<Addition>, i: nat, ghost b: seq<Step>, ghost p: seq<Step>, ghost z: seq<Step>)
      requires Ok() && i < |adds| && Logs(b, p, z, adds[..i])
      modifies bytes`col, bytes`log, bytes.cells, packets`col, packets`log, packets.cells
      modifies zc`col, zc`log, zc.cells, errors`col, errors`log, errors.cells
      ensures Ok() && Logs(b, p, z, adds[..i + 1])
      ensures Kept(bytes.col, old(bytes.col)) && Kept(packets.col, old(packets.col)) && Kept(zc.col, old(zc.col))
    {
      LogMore(b, adds, i, ByteSteps);
      LogMore(p, adds, i, PacketSteps);
      LogMore(z, adds, i, ZcSteps);
      Record(adds[i]);
    }

    /** What the workers do meanwhile, one addition after the other. */
    method RecordAll(adds: seq<Addition>)
      requires Ok()
      modifies bytes`col, bytes`log, bytes.cells, packets`col, packets`log, packets.cells
      modifies zc`col, zc`log, zc.cells, errors`col, errors`log, errors.cells
      ensures Ok()
      ensures Logs(old(bytes.log), old(packets.log), old(zc.log), adds)
      ensures Kept(bytes.col, old(bytes.col)) && Kept(packets.col, old(packets.col)) && Kept(zc.col, old(zc.col))
    {
      ghost var b, p, z := bytes.log, packets.log, zc.log;
      NoLog(b, p, z, adds);
      for i := 0 to |adds|
        invariant Ok() && Logs(b, p, z, adds[..i])
        invariant Kept(bytes.col, old(bytes.col)) && Kept(packets.col, old(packets.col)) && Kept(zc.col, old(zc.col))
      {
        RecordNext(adds, i, b, p, z);
      }
      assert adds[..|adds|] == adds;
    }

    /** One report of `reporter_loop`: the cells are loaded one after the other
        while workers record `adds(i)` before the i-th load. Each printed total
        lies between what had been recorded before and what has been since. */
    method Report(adds: nat -> seq<Addition>) returns (b: nat, p: nat, z: nat)
      requires Ok() && !bytes.col.scanning && !packets.col.scanning && !zc.col.scanning
      modifies bytes, bytes.cells, packets, packets.cells, zc, zc.cells, errors`col, errors`log, errors.cells
      ensures Ok() && !bytes.col.scanning && !packets.col.scanning && !zc.col.scanning
      ensures Reported(bytes.m, Recorded(bytes, old(bytes.log)), Recorded(bytes, bytes.log), old(bytes.col), bytes.col, b)
      ensures Reported(packets.m, Recorded(packets, old(packets.log)), Recorded(packets, packets.log),
                       old(packets.col), packets.col, p)
      ensures Reported(zc.m, Recorded(zc, old(zc.log)), Recorded(zc, zc.log), old(zc.col), zc.col, z)
    {
      ReachableInv(bytes.m, bytes.col);
      ReachableInv(packets.m, packets.col);
      ReachableInv(zc.m, zc.col);
      b, p, z := LoadAll(adds);
      ReachableInv(bytes.m, bytes.col);
      ReachableInv(packets.m, packets.col);
      ReachableInv(zc.m, zc.col);
    }

    /** What the additions to a column come to. */
    ghost function Recorded(k: Counter, log: seq<Step>): nat { Total(log, Amount(k.cells.Length)) }

    method LoadAll(adds: nat -> seq<Addition>) returns (b: nat, p: nat, z: nat)
      requires Ok() && !bytes.col.scanning && !packets.col.scanning && !zc.col.scanning
      modifies bytes, bytes.cells, packets, packets.cells, zc, zc.cells, errors`col, errors`log, errors.cells
      ensures Ok() && !bytes.col.scanning && !packets.col.scanning && !zc.col.scanning
      ensures Printed(bytes.m, old(bytes.col), bytes.col, b)
      ensures Printed(packets.m, old(packets.col), packets.col, p)
      ensures Printed(zc.m, old(zc.col), zc.col, z)
    {
      ghost var s, t, u := bytes.col, packets.col, zc.col;
      BeginAll();
      for i := 0 to bytes.cells.Length
        invariant Ok()
        invariant Underway(bytes.col, s, i) && Underway(packets.col, t, i) && Underway(zc.col, u, i)
      {
        LoadThread(i, adds, s, t, u);
      }
      b, p, z := FinishAll(s, t, u);
    }

    method BeginAll()
      requires Ok() && !bytes.col.scanning && !packets.col.scanning && !zc.col.scanning
      modifies bytes`total, bytes`col, packets`total, packets`col, zc`total, zc`col
      ensures Ok()
      ensures Underway(bytes.col, old(bytes.col), 0) && Underway(packets.col, old(packets.col), 0)
      ensures Underway(zc.col, old(zc.col), 0)
    {
      bytes.Begin();
      packets.Begin();
      zc.Begin();
    }

    /** The three loads of one thread. */
    method LoadThread(i: nat, adds: nat -> seq<Addition>, ghost s: Column, ghost t: Column, ghost u: Column)
      requires Ok() && i < bytes.cells.Length
      requires Underway(bytes.col, s, i) && Underway(packets.col, t, i) && Underway(zc.col, u, i)
      modifies bytes`total, bytes`col, bytes`log, bytes.cells, packets`total, packets`col, packets`log, packets.cells
      modifies zc`total, zc`col, zc`log, zc.cells, errors`col, errors`log, errors.cells
      ensures Ok()
      ensures Underway(bytes.col, s, i + 1) && Underway(packets.col, t, i + 1) && Underway(zc.col, u, i + 1)
    {
      LoadBytes(i, adds(3 * i), s, t, u);
      LoadPackets(i, adds(3 * i + 1), s, t, u);
      LoadZc(i, adds(3 * i + 2), s, t, u);
    }

    method LoadBytes(i: nat, adds: seq<Addition>, ghost s: Column, ghost t: Column, ghost u: Column)
      requires Ok() && i < bytes.cells.Length
      requires Underway(bytes.col, s, i) && Underway(packets.col, t, i) && Underway(zc.col, u, i)
      modifies bytes`total, bytes`col, bytes`log, bytes.cells, packets`total, packets`col, packets`log, packets.cells
      modifies zc`total, zc`col, zc`log, zc.cells, errors`col, errors`log, errors.cells
      ensures Ok()
      ensures Underway(bytes.col, s, i + 1) && Underway(packets.col, t, i) && Underway(zc.col, u, i)
    {
      RecordAll(adds);
      bytes.Load(i);
    }

    method LoadPackets(i: nat, adds: seq<Addition>, ghost s: Column, ghost t: Column, ghost u: Column)
      requires Ok() && i < bytes.cells.Length
      requires Underway(bytes.col, s, i + 1) && Underway(packets.col, t, i) && Underway(zc.col, u, i)
      modifies bytes`total, bytes`col, bytes`log, bytes.cells, packets`total, packets`col, packets`log, packets.cells
      modifies zc`total, zc`col, zc`log, zc.cells, errors`col, errors`log, errors.cells
      ensures Ok()
      ensures Underway(bytes.col, s, i + 1) && Underway(packets.col, t, i + 1) && Underway(zc.col, u, i)
    {
      RecordAll(adds);
      packets.Load(i);
    }

    method LoadZc(i: nat, adds: seq<Addition>, ghost s: Column, ghost t: Column, ghost u: Column)
      requires Ok() && i < bytes.cells.Length
      requires Underway(bytes.col, s, i + 1) && Underway(packets.col, t, i + 1) && Underway(zc.col, u, i)
      modifies bytes`total, bytes`col, bytes`log, bytes.cells, packets`total, packets`col, packets`log, packets.cells
      modifies zc`total, zc`col, zc`log, zc.cells, errors`col, errors`log, errors.cells
      ensures Ok()
      ensures Underway(bytes.col, s, i + 1) && Underway(packets.col, t, i + 1) && Underway(zc.col, u, i + 1)
    {
      RecordAll(adds);
      zc.Load(i);
    }

    method FinishAll(ghost s: Column, ghost t: Column, ghost u: Column) returns (b: nat, p: nat, z: nat)
      requires Ok()
      requires Underway(bytes.col, s, |bytes.col.words|) && Underway(packets.col, t, |packets.col.words|)
      requires Underway(zc.col, u, |zc.col.words|)
      modifies bytes`prev, bytes`col, packets`prev, packets`col, zc`prev, zc`col
      ensures Ok() && !bytes.col.scanning && !packets.col.scanning && !zc.col.scanning
      ensures Printed(bytes.m, s, bytes.col, b) && Printed(packets.m, t, packets.col, p) && Printed(zc.m, u, zc.col, z)
    {
      Ended(bytes.m, s, bytes.col);
      Ended(packets.m, t, packets.col);
      Ended(zc.m, u, zc.col);
      b := bytes.Finish();
      p := packets.Finish();
      z := zc.Finish();
    }
  }

  /** Additions change nothing but cells and true totals. */
  ghost predicate Kept(s': Column, s: Column) { Scanner(s') == Scanner(s) && |s'.words| == |s.words| }

  /** A column without its cells. */
  function Scanner(s: Column): Column { s.(words := [], truth := [], added := 0) }

  /** A scan that began in `s` has loaded `i` cells. */
  ghost predicate Underway(s': Column, s: Column, i: nat) {
    && s'.scanning && s'.pos == i && s'.base == s.truth && |s'.words| == |s.words|
    && s'.prev == s.prev && s'.prevSeen == s.prevSeen && s'.reports == s.reports
  }

  /** A report has been printed between `s` and `s'`: a total between `lo` and
      `hi`, not below the last one, and as interval the exact difference while
      the sums stay below the counter type. */
  ghost predicate Reported(m: nat, lo: nat, hi: nat, s: Column, s': Column, interval: nat) {
    && lo <= s'.prevSeen <= hi && s.prevSeen <= s'.prevSeen
    && s'.reports == s.reports + [interval]
    && (hi < m ==> interval == s'.prevSeen - s.prevSeen)
  }

  ghost predicate Printed(m: nat, s: Column, s': Column, interval: nat) {
    Reported(m, Sum(s.truth), Sum(s'.truth), s, s', interval)
  }

  lemma Ended(m: nat, s: Column, t: Column)
    requires m > 0 && Reachable(m, t) && Underway(t, s, |t.words|)
    ensures Printed(m, s, Finished(m, t), (t.total - t.prev) % m)
  {
    ReachableInv(m, t);
    IntervalIsDifference(m, t);
  }
}
