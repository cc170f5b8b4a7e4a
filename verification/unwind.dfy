/** What a chunked unwind does to a position (strategies/src/arbitrage/types.rs, `UnwindSchedule`;
    quantities are floored to the lot by the order manager, core/src/manager/order.rs). */
module UnwindArithmetic {
  import opened Types
  import opened Instruments
  import opened ArbitrageTypes
  import opened EngineLoop

  /** Lots left of `m` after `i` of `n` chunks, each floored and fully filled. */
  function LotsLeft(m: nat, n: nat, i: nat): nat
    requires i <= n
  {
    if i == 0 then m
    else
      var before := LotsLeft(m, n, i - 1);
      assert before / (n - i + 1) <= before by { QuotientBelow(before, n - i + 1); }
      before - before / (n - i + 1)
  }

  /** Size in lots of the chunk that follows `i` earlier ones. */
  function ChunkLots(m: nat, n: nat, i: nat): nat
    requires i < n
  {
    LotsLeft(m, n, i) / (n - i)
  }

  lemma QuotientBelow(r: nat, k: nat)
    requires k >= 1
    ensures 0 <= r / k <= r
  {}

  lemma ProductOrder(a: int, b: int, k: int)
    requires k >= 1
    ensures a < b <==> a * k < b * k
  {}

  lemma UniqueQuotient(r: nat, k: nat, q: nat, s: nat)
    requires k >= 1 && r == q * k + s && s < k
    ensures r / k == q
  {
    var d := r / k;
    assert d * k <= r < d * k + k;
    assert (d + 1) * k == d * k + k && (q + 1) * k == q * k + k;
    ProductOrder(d, q + 1, k);
    ProductOrder(q, d + 1, k);
  }

  /** With m = q*n + s, what is left after `i` chunks: the first n - s chunks close q lots each and
      the last s chunks q + 1. */
  lemma {:induction false} LotsLeftClosedForm(m: nat, n: nat, i: nat, q: nat, s: nat)
    requires i <= n && m == q * n + s && s < n
    ensures LotsLeft(m, n, i) == if i <= n - s then q * (n - i) + s else (q + 1) * (n - i)
  {
    if i > 0 {
      LotsLeftClosedForm(m, n, i - 1, q, s);
      ChunkClosedForm(m, n, i - 1, q, s);
      LeftAfterChunk(m, n, i - 1);
      OneMore(q, n - i);
      OneMore(q + 1, n - i);
      if i == n - s + 1 {
        assert n - i == s - 1 && n - (i - 1) == s;
        assert (q + 1) * s == q * s + s;
      }
    }
  }

  lemma LeftAfterChunk(m: nat, n: nat, i: nat)
    requires i < n
    ensures LotsLeft(m, n, i + 1) == LotsLeft(m, n, i) - ChunkLots(m, n, i)
  {}

  lemma OneMore(q: nat, k: nat)
    ensures q * (k + 1) == q * k + q
  {}

  lemma ChunkClosedForm(m: nat, n: nat, i: nat, q: nat, s: nat)
    requires i < n && s < n
    requires LotsLeft(m, n, i) == if i <= n - s then q * (n - i) + s else (q + 1) * (n - i)
    ensures ChunkLots(m, n, i) == if i < n - s then q else q + 1
  {
    DividedLots(LotsLeft(m, n, i), n - i, q, s);
  }

  lemma DividedLots(left: nat, k: nat, q: nat, s: nat)
    requires k >= 1 && left == if s <= k then q * k + s else (q + 1) * k
    ensures left / k == if s < k then q else q + 1
  {
    assert (q + 1) * k == q * k + k;
    if s < k {
      UniqueQuotient(left, k, q, s);
    } else {
      UniqueQuotient(left, k, q + 1, 0);
    }
  }

  /** After all n chunks nothing is left, and not before; every chunk is floor(m/n) or ceil(m/n)
      lots, the smaller ones first. */
  lemma UnwindClosesExactly(m: nat, n: nat, i: nat)
    requires i < n
    ensures LotsLeft(m, n, n) == 0
    ensures m > 0 ==> LotsLeft(m, n, i) > 0
    ensures ChunkLots(m, n, i) == if i < n - m % n then m / n else m / n + 1
  {
    var q, s := m / n, m % n;
    assert m == q * n + s;
    LotsLeftClosedForm(m, n, n, q, s);
    LotsLeftClosedForm(m, n, i, q, s);
    ChunkClosedForm(m, n, i, q, s);
    if q >= 1 {
      ProductOrder(0, q, n - i);
    }
  }

  /** A real quotient of whole lots floors to the integer quotient. */
  lemma FlooredQuotient(r: nat, k: nat, lot: real)
    requires k >= 1 && lot > 0.0
    ensures (Steps(r, lot) / k as real / lot).Floor == r / k
  {
    var a := Steps(r, lot) / k as real;
    var c := a / lot;
    assert c * lot == a && a * k as real == Steps(r, lot);
    CancelLot(c, k as real, r as real, lot);
    var q := r / k;
    assert q * k <= r < q * k + k;
    assert q as real * k as real == (q * k) as real;
    Between(c, k as real, q as real, r as real);
    assert (q + 1) as real == q as real + 1.0;
  }

  lemma CancelLot(c: real, k: real, r: real, lot: real)
    requires lot != 0.0 && c * lot * k == r * lot
    ensures c * k == r
  {}

  lemma Between(c: real, k: real, q: real, r: real)
    requires k > 0.0 && c * k == r && q * k <= r < q * k + k
    ensures q <= c < q + 1.0
  {
    ScaleOrder(q, c, k);
    ScaleOrder(q + 1.0, c, k);
    assert (q + 1.0) * k == q * k + k;
  }

  /** A whole-lot position of one leg: `sign` is 1 for a long, -1 for a short leg. */
  function LotPosition(sign: int, r: nat, lot: real): real {
    sign as real * Steps(r, lot)
  }

  /** One fully filled chunk of a whole-lot position leaves a whole-lot position. */
  lemma FilledChunk(i: Instrument, sched: Schedule, sign: int, r: nat)
    requires i.Valid() && !sched.IsComplete() && (sign == 1 || sign == -1)
    ensures var k := sched.numChunks - sched.chunksDispatched;
            var position := LotPosition(sign, r, i.lotSize);
            && r / k <= r
            && position + FilledAmount(i, sched.Chunk(-position)) == LotPosition(sign, r - r / k, i.lotSize)
  {
    var k := sched.numChunks - sched.chunksDispatched;
    QuotientBelow(r, k);
    ChunkFill(i, r, k);
    NegatedQuotient(Steps(r, i.lotSize), k as real);
    assert Steps(r, i.lotSize) - Steps(r / k, i.lotSize) == Steps(r - r / k, i.lotSize);
  }

  /** What a chunk of `r` lots fills, buying or selling. */
  lemma ChunkFill(i: Instrument, r: nat, k: nat)
    requires i.Valid() && k >= 1
    ensures var chunk := Steps(r, i.lotSize) / k as real;
            && FilledAmount(i, chunk) == Steps(r / k, i.lotSize)
            && FilledAmount(i, -chunk) == -Steps(r / k, i.lotSize)
  {
    FlooredQuotient(r, k, i.lotSize);
    var whole := Steps(r, i.lotSize);
    assert whole >= 0.0;
    assert whole / k as real >= 0.0;
  }

  lemma NegatedQuotient(a: real, k: real)
    requires k != 0.0
    ensures -a / k == -(a / k)
  {}

  // ---- arbitrary partial fills ------------------------------------------------------------------

  /** The schedule that is in force when dispatch number `j` is made. */
  function ScheduleAt(s: Option<Schedule>, j: nat): Option<Schedule> {
    if j == 0 then s else NextUnwind(ScheduleAt(s, j - 1), 0.0, 0.0).0
  }

  /** Chunks among which a dispatch spreads what is left; an exhausted schedule closes everything. */
  function ChunksLeft(s: Option<Schedule>): real {
    if s.Some? && !s.value.IsComplete() then (s.value.numChunks - s.value.chunksDispatched) as real else 1.0
  }

  /** Every unwind order points towards zero and does not exceed the position it was sized on. */
  lemma DispatchTowardsZero(s: Option<Schedule>, position: real)
    ensures Within(-NextUnwind(s, -position, 0.0).1.sizeLong, position)
  {}

  lemma DispatchIsShare(s: Option<Schedule>, reported: real)
    ensures ChunksLeft(s) >= 1.0 && NextUnwind(s, -reported, 0.0).1.sizeLong == -reported / ChunksLeft(s)
  {}

  /** The reports from which on a dispatch sends something at all, and more than there is. */
  function SendsFrom(i: Instrument, s: Option<Schedule>): real {
    ChunksLeft(s) * i.lotSize
  }

  function ExceedsFrom(i: Instrument, s: Option<Schedule>, actual: real): real
    requires i.Valid()
  {
    ChunksLeft(s) * FirstTooLarge(i, actual)
  }

  /** What a dispatch sends: its share of the reported position, floored to the lot. */
  function SentOrder(i: Instrument, s: Option<Schedule>, reported: real): real
    requires i.Valid()
  {
    FilledAmount(i, NextUnwind(s, -reported, 0.0).1.sizeLong)
  }

  /** The first size that is floored to more than a position. */
  function FirstTooLarge(i: Instrument, position: real): real
    requires i.Valid()
  {
    Steps((Abs(position) / i.lotSize).Floor + 1, i.lotSize)
  }

  lemma FlooredExceedsIff(i: Instrument, size: real, position: real)
    requires i.Valid()
    ensures Abs(FilledAmount(i, size)) > Abs(position) <==> Abs(size) >= FirstTooLarge(i, position)
  {
    var lot := i.lotSize;
    var q, m := (Abs(size) / lot).Floor, (Abs(position) / lot).Floor;
    FloorTowardsZero(i, size);
    assert Abs(FilledAmount(i, size)) == Steps(q, lot);
    LotsExceedIff(q, Abs(position), lot);
    LotsReachIff(m + 1, Abs(size), lot);
  }

  lemma LotsExceedIff(q: int, x: real, lot: real)
    requires lot > 0.0
    ensures Steps(q, lot) > x <==> q >= (x / lot).Floor + 1
  {
    var c := x / lot;
    assert c * lot == x;
    ScaleOrder(q as real, c, lot);
  }

  lemma LotsReachIff(n: int, x: real, lot: real)
    requires lot > 0.0
    ensures x >= Steps(n, lot) <==> (x / lot).Floor >= n
  {
    var c := x / lot;
    assert c * lot == x;
    ScaleOrder(n as real, c, lot);
  }

  /** The order that a dispatch sends is larger than the position exactly if the report, spread over the
      chunks left, reaches one lot more than the position has. */
  lemma DispatchExceedsIff(i: Instrument, s: Option<Schedule>, reported: real, actual: real)
    requires i.Valid()
    ensures Abs(SentOrder(i, s, reported)) > Abs(actual) <==>
            Abs(reported) >= ExceedsFrom(i, s, actual)
  {
    DispatchIsShare(s, reported);
    FlooredExceedsIff(i, -reported / ChunksLeft(s), actual);
    QuotientReaches(-reported, ChunksLeft(s), FirstTooLarge(i, actual));
  }

  lemma QuotientReaches(x: real, k: real, bound: real)
    requires k >= 1.0
    ensures Abs(x / k) >= bound <==> Abs(x) >= k * bound
  {
    var c := x / k;
    assert c * k == x;
    AbsProduct(c, k);
    ScaleOrder(bound, Abs(c), k);
  }

  lemma AbsProduct(x: real, k: real)
    requires k > 0.0
    ensures Abs(x * k) == Abs(x) * k
  {}

  /** The order that a dispatch sends closes no more than there is: it is floored to nothing, or the report
      has the side of the position and is not that much too large. */
  predicate Fits(i: Instrument, s: Option<Schedule>, reported: real, actual: real)
    requires i.Valid()
  {
    || Abs(reported) < SendsFrom(i, s)
    || ((reported > 0.0 <==> actual > 0.0) && Abs(reported) < ExceedsFrom(i, s, actual))
  }

  lemma NothingSentIff(i: Instrument, s: Option<Schedule>, reported: real)
    requires i.Valid()
    ensures SentOrder(i, s, reported) == 0.0 <==> Abs(reported) < SendsFrom(i, s)
  {
    DispatchIsShare(s, reported);
    RemainderBelowOneLot(i, -reported / ChunksLeft(s));
    QuotientReaches(-reported, ChunksLeft(s), i.lotSize);
  }

  lemma SentTowardsZero(i: Instrument, s: Option<Schedule>, reported: real)
    requires i.Valid()
    ensures Within(-SentOrder(i, s, reported), reported)
  {
    DispatchTowardsZero(s, reported);
    FloorTowardsZero(i, NextUnwind(s, -reported, 0.0).1.sizeLong);
  }

  /** What is known of the order of a dispatch, without its arithmetic. */
  predicate KnownOrder(order: real, reported: real, actual: real, some: real, tooMuch: real) {
    && Within(-order, reported)
    && (order == 0.0 <==> Abs(reported) < some) && (Abs(order) > Abs(actual) <==> Abs(reported) >= tooMuch)
  }

  /** An order against what was reported, applied to what there is; `some` and `tooMuch` are the reports
      from which on it is for something and for too much. */
  lemma OrderStaysIff(reported: real, actual: real, order: real, some: real, tooMuch: real)
    requires KnownOrder(order, reported, actual, some, tooMuch)
    ensures Within(actual + order, actual) <==>
            Abs(reported) < some || ((reported > 0.0 <==> actual > 0.0) && Abs(reported) < tooMuch)
  {}

  lemma SentIsKnown(i: Instrument, s: Option<Schedule>, reported: real, actual: real)
    requires i.Valid()
    ensures KnownOrder(SentOrder(i, s, reported), reported, actual, SendsFrom(i, s),
                       ExceedsFrom(i, s, actual))
  {
    SentTowardsZero(i, s, reported);
    NothingSentIff(i, s, reported);
    DispatchExceedsIff(i, s, reported, actual);
  }

  /** A dispatch that fills completely, with no regard to any flag, leaves the position between zero and
      what it was exactly if its order fits. */
  lemma FullFillStaysIff(i: Instrument, s: Option<Schedule>, reported: real, actual: real)
    requires i.Valid()
    ensures Within(actual + SentOrder(i, s, reported), actual) <==> Fits(i, s, reported, actual)
  {
    SentIsKnown(i, s, reported, actual);
    OrderStaysIff(reported, actual, SentOrder(i, s, reported), SendsFrom(i, s),
                  ExceedsFrom(i, s, actual));
  }

  lemma PartOfFillStays(actual: real, order: real, fill: real)
    requires Within(actual + order, actual) && Within(fill, order)
    ensures Within(actual + fill, actual)
  {}

  /** Positions of one leg over a run of unwind dispatches: each order is sized on what had been reported,
      which may be anything, and fills between nothing and all of its floored size. */
  ghost predicate UnwindRun(i: Instrument, s: Option<Schedule>, reported: seq<real>, actual: seq<real>)
    requires i.Valid()
  {
    |actual| == |reported| + 1 && forall n :: 0 <= n < |reported| ==> FillsAt(i, s, reported, actual, n)
  }

  predicate FillsAt(i: Instrument, s: Option<Schedule>, reported: seq<real>, actual: seq<real>, n: nat)
    requires i.Valid() && n < |reported| < |actual|
  {
    Within(actual[n + 1] - actual[n], SentOrder(i, ScheduleAt(s, n), reported[n]))
  }

  predicate FitsAt(i: Instrument, s: Option<Schedule>, reported: seq<real>, actual: seq<real>, n: nat)
    requires i.Valid() && n < |reported| < |actual|
  {
    Fits(i, ScheduleAt(s, n), reported[n], actual[n])
  }

  lemma FittingStep(i: Instrument, s: Option<Schedule>, reported: seq<real>, actual: seq<real>, n: nat)
    requires i.Valid() && n < |reported| < |actual|
    requires FillsAt(i, s, reported, actual, n) && FitsAt(i, s, reported, actual, n)
    ensures Within(actual[n + 1], actual[n])
  {
    FullFillStaysIff(i, ScheduleAt(s, n), reported[n], actual[n]);
    PartOfFillStays(actual[n], SentOrder(i, ScheduleAt(s, n), reported[n]), actual[n + 1] - actual[n]);
  }

  /** As long as its orders fit, the position never changes sign and never grows, however they fill. */
  lemma {:induction false} FittingUnwindNeverGrows(
    i: Instrument, s: Option<Schedule>, reported: seq<real>, actual: seq<real>, j: nat, k: nat)
    requires i.Valid() && UnwindRun(i, s, reported, actual) && j <= k < |actual|
    requires forall n :: 0 <= n < |reported| ==> FitsAt(i, s, reported, actual, n)
    ensures Within(actual[k], actual[j])
    decreases k
  {
    if j < k {
      FittingUnwindNeverGrows(i, s, reported, actual, j, k - 1);
      FittingStep(i, s, reported, actual, k - 1);
    }
  }

  /** With an up-to-date report the order always fits. */
  lemma UpToDateOrderFits(i: Instrument, s: Option<Schedule>, position: real)
    requires i.Valid()
    ensures Fits(i, s, position, position)
  {
    SentTowardsZero(i, s, position);
    DispatchExceedsIff(i, s, position, position);
  }

  /** So under arbitrary partial fills a position whose orders are sized on what it is never changes sign
      and never grows. */
  lemma PartialUnwindNeverGrows(i: Instrument, s: Option<Schedule>, positions: seq<real>, j: nat, k: nat)
    requires i.Valid() && j <= k < |positions| && UnwindRun(i, s, positions[..|positions| - 1], positions)
    ensures Within(positions[k], positions[j])
  {
    var reported := positions[..|positions| - 1];
    forall n | 0 <= n < |reported| ensures FitsAt(i, s, reported, positions, n) {
      UpToDateOrderFits(i, ScheduleAt(s, n), positions[n]);
    }
    FittingUnwindNeverGrows(i, s, reported, positions, j, k);
  }

  // ---- reports that lag behind the fills ------------------------------------------------------------

  function Min(a: nat, b: nat): nat {
    if a < b then a else b
  }

  /** Whole lots over a complete schedule of `n` chunks whose orders fill as far as the position goes,
      each sized on a report that may miss any of the earlier fills. */
  ghost predicate LaggingUnwind(n: nat, reported: seq<nat>, left: seq<nat>) {
    |reported| == n && |left| == n + 1 &&
    forall i :: 0 <= i < n ==> LaggingChunk(n - i, reported[i], left[i], left[i + 1])
  }

  predicate LaggingChunk(chunks: nat, reported: nat, before: nat, after: nat)
    requires chunks >= 1
  {
    reported >= before && after == before - Min(before, reported / chunks)
  }

  /** Reports that lag make the chunks larger and never smaller: at every point no more is left than
      with up-to-date reports, and after the last chunk the position is closed exactly. */
  lemma {:induction false} LaggingReportsCloseNoLater(n: nat, reported: seq<nat>, left: seq<nat>, i: nat)
    requires LaggingUnwind(n, reported, left) && i <= n
    ensures left[i] <= LotsLeft(left[0], n, i)
    ensures n >= 1 && i == n ==> left[i] == 0
  {
    if i > 0 {
      LaggingReportsCloseNoLater(n, reported, left, i - 1);
      assert LaggingChunk(n - (i - 1), reported[i - 1], left[i - 1], left[i - 1 + 1]);
      RemainderMonotone(left[i - 1], LotsLeft(left[0], n, i - 1), n - i + 1);
      QuotientMonotone(left[i - 1], reported[i - 1], n - i + 1);
      if i == n {
        UnwindClosesExactly(left[0], n, n - 1);
      }
    }
  }

  /** Lots ordered by the first `i` of `n` chunks if no fill is ever reported. */
  function StaleLots(m: nat, n: nat, i: nat): nat
    requires i <= n
  {
    if i == 0 then 0 else StaleLots(m, n, i - 1) + m / (n - i + 1)
  }

  /** If no fill is reported at all, and nothing keeps the orders from filling, they close more than there
      is exactly if there are several chunks and at least two lots. */
  lemma StaleReportsOvershootIff(m: nat, n: nat)
    requires n >= 1
    ensures StaleLots(m, n, n) > m <==> n >= 2 && m >= 2
  {
    assert StaleLots(m, n, n) == StaleLots(m, n, n - 1) + m / 1;
    if n >= 2 {
      assert StaleLots(m, n, n - 1) == StaleLots(m, n, n - 2) + m / 2;
      if m < 2 { NoStaleLots(m, n, n - 1); }
    }
  }

  lemma {:induction false} NoStaleLots(m: nat, n: nat, i: nat)
    requires m < 2 && i < n
    ensures StaleLots(m, n, i) == 0
  {
    if i > 0 {
      NoStaleLots(m, n, i - 1);
      UniqueQuotient(m, n - i + 1, 0, m);
    }
  }

  lemma QuotientMonotone(a: nat, b: nat, k: nat)
    requires a <= b && k >= 1
    ensures a / k <= b / k
  {
    assert a / k * k <= a && b < b / k * k + k == (b / k + 1) * k;
    ProductOrder(a / k, b / k + 1, k);
  }

  lemma RemainderMonotone(a: nat, b: nat, k: nat)
    requires a <= b && k >= 1
    ensures a - a / k <= b - b / k
  {
    var d, r := b - a, a / k;
    assert a < r * k + k;
    AtLeastOnce(d, k);
    assert (r + d + 1) * k == r * k + k + d * k;
    ProductOrder(b / k, r + d + 1, k);
  }

  lemma AtLeastOnce(d: nat, k: nat)
    requires k >= 1
    ensures d * k >= d
  {}
}
