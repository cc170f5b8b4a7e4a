/** Tick and lot rounding (core/src/types.rs, `Instrument`). */
module Instruments {
  import opened Types

  datatype Instrument = Instrument(
    key: InstrumentKey, exchangeSymbol: string, tickSize: real, lotSize: real,
    minNotional: Option<real>)
  {
    /** The precondition of the two `normalize_*` divisions. */
    predicate Valid() {
      tickSize > 0.0 && lotSize > 0.0
    }

    function NormalizePrice(price: real): real
      requires Valid()
    {
      Steps(RoundHalfEven(price / tickSize), tickSize)
    }

    function NormalizeQuantity(quantity: real): real
      requires Valid()
    {
      Steps((quantity / lotSize).Floor, lotSize)
    }

    predicate IsNotionalValid(price: real, quantity: real) {
      match minNotional
      case None => true
      case Some(min) => price * quantity == 0.0 || price * quantity >= min
    }
  }

  /** `Decimal::round`: to the nearest integer, ties to the even one. */
  function RoundHalfEven(x: real): (n: int)
    ensures n as real - 0.5 <= x <= n as real + 0.5
    ensures x - x.Floor as real == 0.5 ==> n % 2 == 0
  {
    var f := x.Floor;
    var d := x - f as real;
    if d < 0.5 then f else if d > 0.5 then f + 1 else if f % 2 == 0 then f else f + 1
  }

  /** `n` ticks or lots. */
  function Steps(n: int, unit: real): real {
    n as real * unit
  }

  ghost predicate IsMultiple(x: real, unit: real) {
    exists n: int :: x == Steps(n, unit)
  }

  /** Scaling bounds on a quotient back to bounds on the dividend. */
  lemma QuotientBound(x: real, unit: real, lo: real, hi: real)
    requires unit > 0.0 && lo <= x / unit <= hi
    ensures lo * unit <= x <= hi * unit
    ensures x / unit < hi ==> x < hi * unit
  {}

  lemma StepsDivide(n: int, unit: real)
    requires unit > 0.0
    ensures Steps(n, unit) / unit == n as real && (Steps(n, unit) / unit).Floor == n
    ensures RoundHalfEven(Steps(n, unit) / unit) == n
  {}

  lemma QuantityFloored(i: Instrument, x: real)
    requires i.Valid()
    ensures IsMultiple(i.NormalizeQuantity(x), i.lotSize)
    ensures i.NormalizeQuantity(x) <= x < i.NormalizeQuantity(x) + i.lotSize
  {
    var q := (x / i.lotSize).Floor;
    QuotientBound(x, i.lotSize, q as real, q as real + 1.0);
  }

  lemma PriceWithinHalfTick(i: Instrument, p: real)
    requires i.Valid()
    ensures IsMultiple(i.NormalizePrice(p), i.tickSize)
    ensures Abs(i.NormalizePrice(p) - p) <= i.tickSize / 2.0
  {
    var n := RoundHalfEven(p / i.tickSize);
    QuotientBound(p, i.tickSize, n as real - 0.5, n as real + 0.5);
  }

  /** What the exchange client computes again from an order that the manager already rounded:
      the order that was checked is the order that is sent. */
  lemma NormalizingTwice(i: Instrument, x: real)
    requires i.Valid()
    ensures i.NormalizeQuantity(i.NormalizeQuantity(x)) == i.NormalizeQuantity(x)
    ensures i.NormalizePrice(i.NormalizePrice(x)) == i.NormalizePrice(x)
  {
    StepsDivide((x / i.lotSize).Floor, i.lotSize);
    StepsDivide(RoundHalfEven(x / i.tickSize), i.tickSize);
  }

  /** Rounding down gives the largest lot multiple that is not above the request. */
  lemma QuantityIsGreatest(i: Instrument, x: real, n: int)
    requires i.Valid() && Steps(n, i.lotSize) <= x
    ensures Steps(n, i.lotSize) <= i.NormalizeQuantity(x)
  {
    AtLeastSteps(n, x, i.lotSize);
    var q := (x / i.lotSize).Floor;
    assert n <= q;
    ScaleOrder(n as real, q as real, i.lotSize);
  }

  lemma AtLeastSteps(n: int, x: real, unit: real)
    requires unit > 0.0 && Steps(n, unit) <= x
    ensures n as real <= x / unit
  {}

  lemma ScaleOrder(a: real, b: real, unit: real)
    requires unit > 0.0
    ensures a <= b <==> a * unit <= b * unit
  {}

  // ---- filled orders --------------------------------------------------------------------------------

  /** `x` lies between zero and `bound`. */
  predicate Within(x: real, bound: real) {
    0.0 <= x <= bound || bound <= x <= 0.0
  }

  /** Signed amount by which an order for `size` moves the position when it fills completely: the order
      manager floors every size to the lot before it is sent. */
  function FilledAmount(i: Instrument, size: real): real
    requires i.Valid()
  {
    if size >= 0.0 then i.NormalizeQuantity(size) else -i.NormalizeQuantity(-size)
  }

  /** What the flooring takes off a size. */
  function Remainder(i: Instrument, size: real): real
    requires i.Valid()
  {
    size - FilledAmount(i, size)
  }

  lemma FloorTowardsZero(i: Instrument, size: real)
    requires i.Valid()
    ensures Within(FilledAmount(i, size), size)
  {
    QuantityFloored(i, Abs(size));
    QuantityIsGreatest(i, Abs(size), 0);
  }

  /** An order is floored by less than a lot, not at all exactly if it is for whole lots, and to nothing
      exactly if it is for less than one. */
  lemma RemainderBelowOneLot(i: Instrument, size: real)
    requires i.Valid()
    ensures Within(Remainder(i, size), size) && Abs(Remainder(i, size)) < i.lotSize
    ensures Remainder(i, size) == 0.0 <==> IsMultiple(size, i.lotSize)
    ensures FilledAmount(i, size) == 0.0 <==> Abs(size) < i.lotSize
  {
    FloorTowardsZero(i, size);
    QuantityFloored(i, Abs(size));
    WholeLotsIff(i, size);
    SizeZeroIffBelowOneLot(i, Abs(size));
  }

  lemma WholeLotsIff(i: Instrument, size: real)
    requires i.Valid()
    ensures Remainder(i, size) == 0.0 <==> IsMultiple(size, i.lotSize)
  {
    if Remainder(i, size) == 0.0 {
      var n := (Abs(size) / i.lotSize).Floor;
      assert size == Steps(if size >= 0.0 then n else -n, i.lotSize);
    }
    if IsMultiple(size, i.lotSize) {
      var n :| size == Steps(n, i.lotSize);
      StepsDivide(n, i.lotSize);
      StepsDivide(-n, i.lotSize);
      assert -size == Steps(-n, i.lotSize);
    }
  }

  /** A quantity is floored to zero exactly if it is below one lot. */
  lemma SizeZeroIffBelowOneLot(i: Instrument, size: real)
    requires i.Valid()
    ensures i.NormalizeQuantity(size) == 0.0 <==> 0.0 <= size < i.lotSize
  {
    QuantityFloored(i, size);
    if 0.0 <= size < i.lotSize {
      BelowOneLot(i, size);
    }
  }

  lemma BelowOneLot(i: Instrument, size: real)
    requires i.Valid() && 0.0 <= size < i.lotSize
    ensures (size / i.lotSize).Floor == 0
  {
    var c := size / i.lotSize;
    assert c * i.lotSize == size;
    ScaleOrder(0.0, c, i.lotSize);
    ScaleOrder(1.0, c, i.lotSize);
  }
}
