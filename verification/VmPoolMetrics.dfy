/** Memory metrics of the VM pool (crates/peer-metrics/src/vm_pool.rs): the
    cumulative moving average in integer arithmetic, the extremes and the total. */
module VmPoolMetrics {
  const TWO63: nat := 0x8000_0000_0000_0000

  type U64 = n: nat | n < 0x1_0000_0000_0000_0000

  function Wrap64(n: nat): U64 {
    n % 0x1_0000_0000_0000_0000
  }

  /** Reads 64 bits as a signed number. */
  function Signed(n: U64): int {
    if n < TWO63 then n else n - 0x1_0000_0000_0000_0000
  }

  /** Wraps a sum of signed numbers to 64 bits. */
  function WrapSigned(x: int): int {
    Signed(x % 0x1_0000_0000_0000_0000)
  }

  function UnsignedAbs(x: int): nat {
    if x < 0 then -x else x
  }

  /** How often `b` goes into `m`. */
  function Quotient(m: nat, b: nat): nat
    requires b > 0
  {
    if m < b then 0 else 1 + Quotient(m - b, b)
  }

  lemma {:induction false} QuotientIs(m: nat, b: nat)
    requires b > 0
    ensures Quotient(m, b) <= m
    ensures b * Quotient(m, b) <= m < b * Quotient(m, b) + b
  {
    if m >= b {
      QuotientIs(m - b, b);
      assert b * (1 + Quotient(m - b, b)) == b + b * Quotient(m - b, b);
    }
  }

  lemma {:induction false} MultipleIsLarger(b: nat, d: nat)
    requires d > 0
    ensures b * d >= b
  {
    if d > 1 {
      MultipleIsLarger(b, d - 1);
      assert b * d == b * (d - 1) + b;
    }
  }

  lemma NotLess(b: nat, q: int, r: nat, q': int, r': nat)
    requires b * q + r == b * q' + r' && r < b
    ensures q >= q'
  {
    assert b * (q' - q) == b * q' - b * q;
    if q < q' { MultipleIsLarger(b, q' - q); }
  }

  lemma QuotientIsDivision(m: nat, b: nat)
    requires b > 0
    ensures Quotient(m, b) == m / b
  {
    QuotientIs(m, b);
    var q := Quotient(m, b);
    NotLess(b, q, m - b * q, m / b, m % b);
    NotLess(b, m / b, m % b, q, m - b * q);
  }

  /** Division that truncates towards zero. */
  function Truncated(a: int, b: int): int
    requires b != 0
  {
    var q := Quotient(UnsignedAbs(a), UnsignedAbs(b));
    if (a < 0) == (b < 0) then q else 0 - q
  }

  /** It is the division of magnitudes with the sign of the quotient. */
  lemma TruncatedIsDivision(a: int, b: int)
    requires b != 0
    ensures var q := UnsignedAbs(a) / UnsignedAbs(b); Truncated(a, b) == if (a < 0) == (b < 0) then q else 0 - q
  {
    QuotientIsDivision(UnsignedAbs(a), UnsignedAbs(b));
  }

  /** Signed division fails for a zero divisor, and when its result has no 64-bit value. */
  predicate DivisionPanics(a: int, b: int) {
    b == 0 || (b == -1 && a == 0 - TWO63)
  }

  // ---------------------------------------------------------------- the moving average

  /** The dividend and the divisor of the correction, in signed 64-bit arithmetic. */
  function Deviation(cma: U64, x: U64): int {
    WrapSigned(Signed(x) - Signed(cma))
  }

  function Divisor(before: nat): int {
    Signed(Wrap64(before + 1))
  }

  /** The average after one more measurement than `before`; unchanged if the
      division panics. */
  function NextCma(cma: U64, before: nat, x: U64): U64 {
    if DivisionPanics(Deviation(cma, x), Divisor(before)) then cma
    else Wrap64(UnsignedAbs(WrapSigned(Signed(cma) + Truncated(Deviation(cma, x), Divisor(before)))))
  }

  /** Truncation stays between zero and the dividend and loses less than the divisor. */
  lemma TruncatedIs(a: int, b: nat)
    requires b > 0
    ensures a >= 0 ==> 0 <= Truncated(a, b) <= a
    ensures a <= 0 ==> a <= Truncated(a, b) <= 0
    ensures a - b * Truncated(a, b) < b
    ensures b * Truncated(a, b) - a < b
  {
    var m := if a >= 0 then a else -a;
    QuotientIs(m, b);
    if a < 0 { assert b * Truncated(a, b) == -(b * Quotient(m, b)); }
  }

  lemma NextCmaValue(cma: U64, n: nat, x: U64)
    requires cma < TWO63 && x < TWO63 && n + 1 < TWO63 && 0 <= cma + Truncated(x - cma, n + 1) < TWO63
    ensures NextCma(cma, n, x) == cma + Truncated(x - cma, n + 1)
  {
    CorrectionIs(cma, n, x);
    AddsUp(cma, Truncated(x - cma, n + 1));
  }

  /** For samples below 2^63 the signed arithmetic is exact: nothing wraps, and
      taking the absolute value changes nothing. */
  lemma NextCmaIs(cma: U64, n: nat, x: U64)
    requires cma < TWO63 && x < TWO63 && n + 1 < TWO63
    ensures NextCma(cma, n, x) == cma + Truncated(x - cma, n + 1)
    ensures (cma <= NextCma(cma, n, x) <= x) || (x <= NextCma(cma, n, x) <= cma)
  {
    TruncatedIs(x - cma, n + 1);
    NextCmaValue(cma, n, x);
  }

  lemma CorrectionIs(cma: U64, n: nat, x: U64)
    requires cma < TWO63 && x < TWO63 && n + 1 < TWO63
    ensures Deviation(cma, x) == x - cma && Divisor(n) == n + 1 && !DivisionPanics(x - cma, n + 1)
  {
    NothingWraps(x - cma);
    DivisorIs(n);
  }

  lemma DivisorIs(n: nat)
    requires n + 1 < TWO63
    ensures Divisor(n) == n + 1
  {
  }

  lemma AddsUp(cma: U64, t: int)
    requires cma < TWO63 && 0 <= cma + t < TWO63
    ensures Wrap64(UnsignedAbs(WrapSigned(Signed(cma) + t))) == cma + t
  {
    NothingWraps(cma + t);
  }

  lemma NothingWraps(x: int)
    requires 0 - TWO63 <= x < TWO63
    ensures WrapSigned(x) == x
  {
  }

  /** One step of the average drops less than the number of samples. */
  lemma StepError(cma: nat, t: int, n: nat, x: nat)
    requires t == Truncated(x - cma, n + 1)
    ensures n * cma + x - (n + 1) * (cma + t) <= n
    ensures (n + 1) * (cma + t) - (n * cma + x) <= n
  {
    TruncatedIs(x - cma, n + 1);
    assert (n + 1) * (cma + t) == n * cma + cma + (n + 1) * t;
  }

  ghost predicate Small(xs: seq<U64>) {
    forall i :: 0 <= i < |xs| ==> xs[i] < TWO63
  }

  /** A way to compute the next average from the last, the number of samples so
      far and the next sample. */
  type Averaging = (U64, nat, U64) -> U64

  /** The averages of a sequence of samples, one after the other. */
  function Average(next: Averaging, xs: seq<U64>): U64 {
    if xs == [] then 0 else next(Average(next, xs[..|xs| - 1]), |xs| - 1, xs[|xs| - 1])
  }

  function Sum(xs: seq<U64>): nat {
    if xs == [] then 0 else Sum(xs[..|xs| - 1]) + xs[|xs| - 1]
  }

  /** A first sample is its own average, and each later average lies between
      the last one and the sample. */
  ghost predicate Moderate(next: Averaging, c: U64, n: nat, x: U64) {
    && (n == 0 && c == 0 ==> next(c, n, x) == x)
    && ((c <= next(c, n, x) <= x) || (x <= next(c, n, x) <= c))
  }

  /** Each step adds an error of at most the number of samples before it. */
  ghost predicate Precise(next: Averaging, c: U64, n: nat, x: U64) {
    && n * c + x - (n + 1) * next(c, n, x) <= n
    && (n + 1) * next(c, n, x) - (n * c + x) <= n
  }

  ghost predicate Good(next: Averaging) {
    forall c: U64, n: nat, x: U64 :: c < TWO63 && x < TWO63 && n + 1 < TWO63 ==>
      Moderate(next, c, n, x) && Precise(next, c, n, x)
  }

  lemma CmaIsGood()
    ensures Good(NextCma)
  {
    forall c: U64, n: nat, x: U64 | c < TWO63 && x < TWO63 && n + 1 < TWO63
      ensures Moderate(NextCma, c, n, x) && Precise(NextCma, c, n, x)
    {
      CmaIsModerate(c, n, x);
      CmaIsPrecise(c, n, x);
    }
  }

  lemma CmaIsModerate(c: U64, n: nat, x: U64)
    requires c < TWO63 && x < TWO63 && n + 1 < TWO63
    ensures Moderate(NextCma, c, n, x)
  {
    NextCmaIs(c, n, x);
    TruncatedIs(x - c, n + 1);
  }

  lemma CmaIsPrecise(c: U64, n: nat, x: U64)
    requires c < TWO63 && x < TWO63 && n + 1 < TWO63
    ensures Precise(NextCma, c, n, x)
  {
    NextCmaIs(c, n, x);
    StepError(c, Truncated(x - c, n + 1), n, x);
  }

  lemma {:induction false} AverageIsBetween(next: Averaging, xs: seq<U64>, lo: nat, hi: nat)
    requires Good(next) && 0 < |xs| < TWO63 && hi < TWO63 && forall i :: 0 <= i < |xs| ==> lo <= xs[i] <= hi
    ensures lo <= Average(next, xs) <= hi
  {
    var init := xs[..|xs| - 1];
    if init != [] { AverageIsBetween(next, init, lo, hi); }
    assert Moderate(next, Average(next, init), |init|, xs[|xs| - 1]);
  }

  lemma {:induction false} AverageError(next: Averaging, xs: seq<U64>)
    requires Good(next) && 0 < |xs| < TWO63 && Small(xs)
    ensures var n, e := |xs|, |xs| * Average(next, xs) - Sum(xs); 0 - n * (n - 1) <= 2 * e <= n * (n - 1)
  {
    var init, n := xs[..|xs| - 1], |xs|;
    if init == [] {
      assert Sum(init) == 0 && Moderate(next, 0, 0, xs[0]);
    } else {
      AverageIsBetween(next, init, 0, TWO63 - 1);
      AverageError(next, init);
      assert Precise(next, Average(next, init), |init|, xs[|xs| - 1]);
      ErrorStep(n, (n - 1) * Average(next, init) - Sum(init), n * Average(next, xs) - Sum(xs));
    }
  }

  lemma ErrorStep(n: int, before: int, after: int)
    requires n > 1
    requires 0 - (n - 1) * (n - 2) <= 2 * before <= (n - 1) * (n - 2)
    requires 0 - n < before - after < n
    ensures 0 - n * (n - 1) <= 2 * after <= n * (n - 1)
  {
    assert (n - 1) * (n - 2) + 2 * (n - 1) == n * (n - 1);
  }

  // ---------------------------------------------------------------- the metrics

  datatype Metrics = Metrics(maxValue: U64, minValue: U64, mems: seq<U64>, total: U64, cma: U64, measures: U64)

  function New(): Metrics {
    Metrics(0, 0, [], 0, 0, 0)
  }

  function Resized(mems: seq<U64>, size: nat): seq<U64> {
    if size <= |mems| then mems[..size] else Resized(mems, size - 1) + [0]
  }

  function SetPoolSize(m: Metrics, size: nat): Metrics {
    m.(mems := Resized(m.mems, size))
  }

  function Max(a: U64, b: U64): U64 {
    if a < b then b else a
  }

  function Min(a: U64, b: U64): U64 {
    if a < b then a else b
  }

  /** A measurement panics when the division of the correction does. */
  predicate MeasurePanics(m: Metrics, size: U64) {
    size != 0 && DivisionPanics(Deviation(m.cma, size), Divisor(m.measures))
  }

  /** Measurements of zero are ignored; one for an unknown VM counts for the
      average and the extremes but not for the total; one that panics has only
      been counted. */
  function Measure(next: Averaging, m: Metrics, idx: nat, size: U64): Metrics {
    if size == 0 then m
    else if MeasurePanics(m, size) then m.(measures := Wrap64(m.measures + 1))
    else
      var n := m.(measures := Wrap64(m.measures + 1),
                  cma := next(m.cma, m.measures, size),
                  maxValue := Max(m.maxValue, size),
                  minValue := Min(m.minValue, size));
      if idx < |m.mems| && m.mems[idx] != size then
        n.(mems := m.mems[idx := size], total := Wrap64(Sum(m.mems[idx := size])))
      else n
  }

  datatype Sample = Sample(idx: nat, size: U64)

  function Run(next: Averaging, size: nat, xs: seq<Sample>): Metrics {
    if xs == [] then SetPoolSize(New(), size)
    else Measure(next, Run(next, size, xs[..|xs| - 1]), xs[|xs| - 1].idx, xs[|xs| - 1].size)
  }

  /** Too few measurements for any of them to panic. */
  ghost predicate Few(xs: seq<Sample>) {
    |xs| + 2 < 0x1_0000_0000_0000_0000
  }

  /** The sizes that count. */
  function Sizes(xs: seq<Sample>): seq<U64> {
    if xs == [] then []
    else Sizes(xs[..|xs| - 1]) + if xs[|xs| - 1].size == 0 then [] else [xs[|xs| - 1].size]
  }

  /** The last size other than zero measured for a VM. */
  function Last(xs: seq<Sample>, idx: nat): U64 {
    if xs == [] then 0
    else
      var last := xs[|xs| - 1];
      if last.idx == idx && last.size != 0 then last.size else Last(xs[..|xs| - 1], idx)
  }

  lemma {:induction false} SizesShorter(xs: seq<Sample>)
    ensures |Sizes(xs)| <= |xs|
    ensures forall x :: x in Sizes(xs) ==> x > 0
  {
    if xs != [] { SizesShorter(xs[..|xs| - 1]); }
  }

  lemma AverageOneMore(next: Averaging, ys: seq<U64>, y: U64)
    ensures Average(next, ys + [y]) == next(Average(next, ys), |ys|, y)
  {
    assert (ys + [y])[..|ys|] == ys;
  }

  lemma MeasureAverages(next: Averaging, m: Metrics, x: Sample, ys: seq<U64>)
    requires m.measures + 2 < 0x1_0000_0000_0000_0000 && m.measures == |ys| && m.cma == Average(next, ys)
    ensures var n, zs := Measure(next, m, x.idx, x.size), ys + if x.size == 0 then [] else [x.size];
            n.measures == |zs| && n.cma == Average(next, zs)
  {
    if x.size == 0 {
      assert ys + [] == ys;
    } else {
      AverageOneMore(next, ys, x.size);
    }
  }

  /** The counter and the average are those of the sizes other than zero, and
      no measurement panics. */
  lemma {:induction false} AverageOf(next: Averaging, size: nat, xs: seq<Sample>)
    requires Few(xs)
    ensures Run(next, size, xs).measures == |Sizes(xs)| <= |xs|
    ensures Run(next, size, xs).cma == Average(next, Sizes(xs))
  {
    SizesShorter(xs);
    if xs != [] {
      var init, last := xs[..|xs| - 1], xs[|xs| - 1];
      AverageOf(next, size, init);
      MeasureAverages(next, Run(next, size, init), last, Sizes(init));
    }
  }

  lemma NeverPanics(m: Metrics, size: U64)
    requires m.measures + 2 < 0x1_0000_0000_0000_0000
    ensures !MeasurePanics(m, size)
  {
  }

  lemma {:induction false} ResizedNew(size: nat)
    ensures |Resized([], size)| == size && forall i :: 0 <= i < size ==> Resized([], size)[i] == 0
    ensures Sum(Resized([], size)) == 0
  {
    if size > 0 {
      ResizedNew(size - 1);
      var r := Resized([], size - 1);
      assert (r + [0])[..|r|] == r;
    }
  }

  /** The total is the sum, over the VMs of the pool, of the last size other than
      zero measured for each. */
  lemma {:induction false} TotalIsSumOfLast(next: Averaging, size: nat, xs: seq<Sample>)
    requires Few(xs)
    ensures var m := Run(next, size, xs);
            && |m.mems| == size
            && (forall i :: 0 <= i < size ==> m.mems[i] == Last(xs, i))
            && m.total == Wrap64(Sum(m.mems))
  {
    if xs == [] {
      ResizedNew(size);
    } else {
      var init, last := xs[..|xs| - 1], xs[|xs| - 1];
      TotalIsSumOfLast(next, size, init);
      AverageOf(next, size, init);
      NeverPanics(Run(next, size, init), last.size);
    }
  }

  lemma MeasureExtremes(next: Averaging, m: Metrics, x: Sample)
    requires !MeasurePanics(m, x.size) && x.size != 0
    ensures Measure(next, m, x.idx, x.size).maxValue == Max(m.maxValue, x.size)
    ensures Measure(next, m, x.idx, x.size).minValue == Min(m.minValue, x.size)
  {
  }

  /** The extremes: the maximum is that of the sizes; the minimum starts at zero
      and therefore stays zero whatever is measured. */
  lemma {:induction false} Extremes(next: Averaging, size: nat, xs: seq<Sample>)
    requires Few(xs)
    ensures var m := Run(next, size, xs);
            && m.minValue == 0
            && (forall x :: x in Sizes(xs) ==> x <= m.maxValue)
            && (if Sizes(xs) == [] then m.maxValue == 0 else m.maxValue in Sizes(xs))
  {
    if xs != [] {
      var init, last := xs[..|xs| - 1], xs[|xs| - 1];
      Extremes(next, size, init);
      AverageOf(next, size, init);
      NeverPanics(Run(next, size, init), last.size);
      if last.size != 0 { MeasureExtremes(next, Run(next, size, init), last); }
    }
  }

  /** Whatever the pool measures, with sizes below 2^63: the average lies between
      the smallest and the largest size, and its n-fold is off the true sum by at
      most n(n - 1)/2. */
  lemma AverageWithinBounds(size: nat, xs: seq<Sample>, lo: nat, hi: nat)
    requires 0 < |Sizes(xs)| <= |xs| < TWO63
    requires hi < TWO63 && forall i :: 0 <= i < |Sizes(xs)| ==> lo <= Sizes(xs)[i] <= hi
    ensures var m := Run(NextCma, size, xs);
            && m.measures == |Sizes(xs)|
            && lo <= m.cma <= hi
            && var n, e := m.measures, m.measures * m.cma - Sum(Sizes(xs));
               0 - n * (n - 1) <= 2 * e <= n * (n - 1)
  {
    CmaIsGood();
    AverageOf(NextCma, size, xs);
    AverageIsBetween(NextCma, Sizes(xs), lo, hi);
    AverageError(NextCma, Sizes(xs));
  }

  lemma {:induction false} SumSplit(xs: seq<U64>, k: nat)
    requires k <= |xs|
    ensures Sum(xs) == Sum(xs[..k]) + Sum(xs[k..])
  {
    if k == |xs| {
      assert xs[..k] == xs;
    } else {
      SumSplit(xs[..|xs| - 1], k);
      assert xs[..|xs| - 1][..k] == xs[..k];
      assert xs[k..][..|xs[k..]| - 1] == xs[..|xs| - 1][k..];
    }
  }

  lemma {:induction false} ResizedSum(mems: seq<U64>, size: nat)
    requires size >= |mems|
    ensures Sum(Resized(mems, size)) == Sum(mems)
  {
    if size == |mems| {
      assert mems[..size] == mems;
    } else {
      ResizedSum(mems, size - 1);
      var r := Resized(mems, size - 1);
      assert (r + [0])[..|r|] == r;
    }
  }

  /** Resizing does not recompute the total: it stays right exactly when the
      VMs that are dropped account for nothing. */
  lemma ResizeKeepsTotalIff(m: Metrics, size: nat)
    requires m.total == Wrap64(Sum(m.mems))
    ensures var n := SetPoolSize(m, size);
            n.total == Wrap64(Sum(n.mems)) <==>
              size >= |m.mems| || Sum(m.mems[size..]) % 0x1_0000_0000_0000_0000 == 0
  {
    if size >= |m.mems| {
      ResizedSum(m.mems, size);
    } else {
      SumSplit(m.mems, size);
    }
  }

  /** A pool of one that measured 5 and is resized to none still reports 5 in all. */
  lemma ResizeLeavesTotal()
    ensures var m := SetPoolSize(Run(NextCma, 1, [Sample(0, 5)]), 0);
            m.mems == [] && m.total == 5 && Wrap64(Sum(m.mems)) == 0
  {
    var xs := [Sample(0, 5)];
    TotalIsSumOfLast(NextCma, 1, xs);
    assert Last(xs, 0) == 5;
    LoneTotal(Run(NextCma, 1, xs));
  }

  lemma LoneTotal(m: Metrics)
    requires |m.mems| == 1 && m.mems[0] == 5 && m.total == Wrap64(Sum(m.mems))
    ensures var n := SetPoolSize(m, 0); n.mems == [] && n.total == 5 && Wrap64(Sum(n.mems)) == 0
  {
    assert m.mems[..0] == [];
    assert Sum(m.mems) == Sum([]) + 5;
  }

  // ---------------------------------------------------------------- the object

  class VmPoolMetrics {
    var maxValue: U64
    var minValue: U64
    var mems: seq<U64>
    var total: U64
    var cma: U64
    var measures: U64

    ghost function View(): Metrics
      reads this
    {
      Metrics(maxValue, minValue, mems, total, cma, measures)
    }

    constructor ()
      ensures View() == New()
    {
      maxValue, minValue, mems, total, cma, measures := 0, 0, [], 0, 0, 0;
    }

    method ChangePoolSize(size: nat)
      modifies this`mems
      ensures View() == old(SetPoolSize(View(), size))
    {
      if size <= |mems| {
        mems := mems[..size];
      } else {
        assert Resized(mems, |mems|) == mems[..|mems|] == mems;
        for i := |mems| to size
          invariant mems == Resized(old(mems), i)
          invariant View() == old(View()).(mems := mems)
        {
          mems := mems + [0];
        }
      }
    }

    method TotalMemory() returns (sum: U64)
      ensures sum == Wrap64(Sum(mems))
    {
      sum := 0;
      for i := 0 to |mems|
        invariant sum == Wrap64(Sum(mems[..i]))
      {
        assert mems[..i + 1][..i] == mems[..i];
        sum := Wrap64(sum + mems[i]);
      }
      assert mems[..|mems|] == mems;
    }

    /** Records the size of a VM of the pool and, if it changed, the new total. */
    method StoreSize(idx: nat, size: U64)
      modifies this`mems, this`total
      ensures idx < |old(mems)| && old(mems)[idx] != size ==>
                mems == old(mems)[idx := size] && total == Wrap64(Sum(mems))
      ensures !(idx < |old(mems)| && old(mems)[idx] != size) ==> mems == old(mems) && total == old(total)
    {
      if idx < |mems| && mems[idx] != size {
        mems := mems[idx := size];
        total := TotalMemory();
      }
    }

    /** Counts a measurement and corrects the average, unless the division panics. */
    method Correct(size: U64) returns (panicked: bool)
      requires size != 0
      modifies this`measures, this`cma
      ensures panicked == old(MeasurePanics(View(), size))
      ensures measures == Wrap64(old(measures) + 1)
      ensures cma == if panicked then old(cma) else NextCma(old(cma), old(measures), size)
    {
      measures := Wrap64(measures + 1);
      var change, divisor := Deviation(cma, size), Signed(measures);
      panicked := divisor == 0 || (divisor == -1 && change == 0 - TWO63);
      if !panicked {
        cma := Wrap64(UnsignedAbs(WrapSigned(Signed(cma) + Truncated(change, divisor))));
      }
    }

    method MeasureMemory(idx: nat, size: U64) returns (panicked: bool)
      modifies this
      ensures panicked == old(MeasurePanics(View(), size))
      ensures View() == old(Measure(NextCma, View(), idx, size))
    {
      if size == 0 {
        return false;
      }
      panicked := Correct(size);
      if panicked {
        return;
      }
      maxValue := if maxValue < size then size else maxValue;
      minValue := if minValue < size then minValue else size;
      StoreSize(idx, size);
    }
  }
}
