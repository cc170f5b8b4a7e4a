/** Balances and effective collateral (core/src/manager/types.rs and the query side of
    core/src/manager/account.rs). */
module Collateral {
  import opened Types

  datatype AccountModel = Unified | Segmented

  datatype PartitionKind =
    | UnifiedKind | SpotKind | SwapKind | MarginKind | FundingKind | OptionsKind | Other(name: string)

  datatype PartitionRef = PartitionRef(exchange: Exchange, kind: PartitionKind, accountId: Option<string>)

  datatype CollateralScope = SharedAcrossPartitions | PartitionOnly

  datatype BalanceView = BalanceView(
    exchange: Exchange, partition: Option<PartitionRef>, asset: Currency, total: real, free: real,
    locked: real, borrowed: real, unrealizedPnl: real, scope: CollateralScope)
  {
    function NetEquity(): real {
      total + unrealizedPnl - borrowed
    }
  }

  datatype AccountSnapshot = AccountSnapshot(
    exchange: Exchange, model: AccountModel, partitions: seq<PartitionRef>, balances: seq<BalanceView>)

  datatype CollateralSummary = CollateralSummary(
    exchange: Exchange, model: AccountModel, quoteAsset: Currency, partition: Option<PartitionRef>,
    effectiveCollateral: real, totalBalance: real, totalBorrowed: real, totalUnrealizedPnl: real)

  function Filter<T>(p: T -> bool, s: seq<T>): seq<T> {
    if s == [] then [] else (if p(s[0]) then [s[0]] else []) + Filter(p, s[1..])
  }

  function Sum<T>(f: T -> real, s: seq<T>): real {
    if s == [] then 0.0 else f(s[0]) + Sum(f, s[1..])
  }

  // ---- the two implementations --------------------------------------------------------------------

  /** Selection used by the snapshot's own method. */
  predicate CountsForSnapshot(model: AccountModel, partition: Option<PartitionRef>, b: BalanceView) {
    match model
    case Unified =>
      (match partition
       case None => true
       case Some(p) => b.scope.SharedAcrossPartitions? || b.partition == Some(p))
    case Segmented =>
      (match (b.partition, partition)
       case (Some(own), Some(p)) => own == p
       case _ => false)
  }

  /** `AccountSnapshot::effective_collateral`. */
  function EffectiveCollateral(s: AccountSnapshot, asset: Currency, partition: Option<PartitionRef>): real {
    Sum((b: BalanceView) => b.NetEquity(),
        Filter(b => CountsForSnapshot(s.model, partition, b), Filter((b: BalanceView) => b.asset == asset, s.balances)))
  }

  /** Selection used by the actor's query. */
  predicate CountsForQuery(model: AccountModel, partition: Option<PartitionRef>, b: BalanceView) {
    match model
    case Unified => partition.None? || b.scope.SharedAcrossPartitions? || b.partition == partition
    case Segmented => partition.Some? && b.partition == partition
  }

  predicate UnknownPartition(s: AccountSnapshot, partition: Option<PartitionRef>) {
    partition.Some? && partition.value !in s.partitions
  }

  /** `get_effective_collateral_impl`; no result for a partition that is not listed. */
  function Summarize(s: AccountSnapshot, exchange: Exchange, asset: Currency, partition: Option<PartitionRef>)
    : Option<CollateralSummary>
  {
    if UnknownPartition(s, partition) then None
    else
      var held := Filter((b: BalanceView) => b.asset == asset, s.balances);
      var relevant := Filter(b => CountsForQuery(s.model, partition, b), held);
      Some(CollateralSummary(exchange, s.model, asset, partition,
        Sum((b: BalanceView) => b.NetEquity(), relevant), Sum((b: BalanceView) => b.total, relevant),
        Sum((b: BalanceView) => b.borrowed, relevant), Sum((b: BalanceView) => b.unrealizedPnl, relevant)))
  }

  lemma {:induction false} SameFilter<T>(p: T -> bool, q: T -> bool, s: seq<T>)
    requires forall x <- s :: p(x) == q(x)
    ensures Filter(p, s) == Filter(q, s)
  {
    if s != [] {
      assert forall x <- s[1..] :: x in s;
      SameFilter(p, q, s[1..]);
    }
  }

  lemma {:induction false} EquitySplits(s: seq<BalanceView>)
    ensures Sum((b: BalanceView) => b.NetEquity(), s) ==
            Sum((b: BalanceView) => b.total, s) + Sum((b: BalanceView) => b.unrealizedPnl, s)
            - Sum((b: BalanceView) => b.borrowed, s)
  {
    if s != [] {
      EquitySplits(s[1..]);
    }
  }

  /** Both implementations agree, and the collateral is what is held plus unrealized profit minus
      what is borrowed. */
  lemma ImplementationsAgree(s: AccountSnapshot, exchange: Exchange, asset: Currency, partition: Option<PartitionRef>)
    ensures Summarize(s, exchange, asset, partition).Some? <==> partition.None? || partition.value in s.partitions
    ensures var r := Summarize(s, exchange, asset, partition);
            r.Some? ==>
              && r.value.effectiveCollateral == EffectiveCollateral(s, asset, partition)
              && r.value.effectiveCollateral ==
                 r.value.totalBalance + r.value.totalUnrealizedPnl - r.value.totalBorrowed
  {
    var held := Filter((b: BalanceView) => b.asset == asset, s.balances);
    SameFilter(b => CountsForSnapshot(s.model, partition, b), b => CountsForQuery(s.model, partition, b), held);
    EquitySplits(Filter(b => CountsForQuery(s.model, partition, b), held));
  }

  /** Seen from no partition, a unified account counts all balances of the asset and a segmented one none. */
  lemma {:induction false} CollateralWithoutPartition(model: AccountModel, asset: Currency, bs: seq<BalanceView>)
    ensures Sum((b: BalanceView) => b.NetEquity(),
                Filter(b => CountsForSnapshot(model, None, b), Filter((b: BalanceView) => b.asset == asset, bs))) ==
            if model.Segmented? then 0.0
            else Sum((b: BalanceView) => b.NetEquity(), Filter((b: BalanceView) => b.asset == asset, bs))
  {
    var held := Filter((b: BalanceView) => b.asset == asset, bs);
    SameFilter(b => CountsForSnapshot(model, None, b), (b: BalanceView) => model.Unified?, held);
    AllOrNothing(model.Unified?, held);
  }

  lemma {:induction false} AllOrNothing<T>(all: bool, s: seq<T>)
    ensures Filter((x: T) => all, s) == if all then s else []
  {
    if s != [] {
      AllOrNothing(all, s[1..]);
    }
  }

  // ---- summing over partitions ----------------------------------------------------------------------

  /** What one balance adds to the collateral seen from `partition`. */
  function Share(model: AccountModel, asset: Currency, partition: Option<PartitionRef>, b: BalanceView): real {
    if b.asset == asset && CountsForSnapshot(model, partition, b) then b.NetEquity() else 0.0
  }

  function Shares(model: AccountModel, asset: Currency, partition: Option<PartitionRef>, bs: seq<BalanceView>): real {
    if bs == [] then 0.0 else Share(model, asset, partition, bs[0]) + Shares(model, asset, partition, bs[1..])
  }

  lemma FilterStep<T>(p: T -> bool, x: T, rest: seq<T>)
    ensures Filter(p, [x] + rest) == (if p(x) then [x] else []) + Filter(p, rest)
  {}

  lemma SumStep<T>(f: T -> real, x: T, rest: seq<T>)
    ensures Sum(f, [x] + rest) == f(x) + Sum(f, rest)
  {}

  /** What the first element adds to a sum over two filters. */
  lemma SumOfFilters<T>(f: T -> real, p: T -> bool, q: T -> bool, x: T, rest: seq<T>)
    ensures Sum(f, Filter(p, Filter(q, [x] + rest))) ==
            (if q(x) && p(x) then f(x) else 0.0) + Sum(f, Filter(p, Filter(q, rest)))
  {
    FilterStep(q, x, rest);
    var kept := Filter(q, rest);
    assert [] + kept == kept && [] + Filter(p, kept) == Filter(p, kept);
    FilterStep(p, x, kept);
    SumStep(f, x, Filter(p, kept));
  }

  lemma {:induction false} CollateralIsShares(
    model: AccountModel, asset: Currency, partition: Option<PartitionRef>, bs: seq<BalanceView>)
    ensures Sum((b: BalanceView) => b.NetEquity(),
                Filter(b => CountsForSnapshot(model, partition, b), Filter((b: BalanceView) => b.asset == asset, bs)))
            == Shares(model, asset, partition, bs)
  {
    if bs != [] {
      CollateralIsShares(model, asset, partition, bs[1..]);
      SumOfFilters((b: BalanceView) => b.NetEquity(), b => CountsForSnapshot(model, partition, b),
                   (b: BalanceView) => b.asset == asset, bs[0], bs[1..]);
      assert [bs[0]] + bs[1..] == bs;
    }
  }

  /** Collateral of an asset added up over a list of partitions. */
  function OverPartitions(s: AccountSnapshot, asset: Currency, ps: seq<PartitionRef>): real {
    if ps == [] then 0.0 else EffectiveCollateral(s, asset, Some(ps[0])) + OverPartitions(s, asset, ps[1..])
  }

  function ShareOver(model: AccountModel, asset: Currency, ps: seq<PartitionRef>, b: BalanceView): real {
    if ps == [] then 0.0 else Share(model, asset, Some(ps[0]), b) + ShareOver(model, asset, ps[1..], b)
  }

  function SharesOver(model: AccountModel, asset: Currency, ps: seq<PartitionRef>, bs: seq<BalanceView>): real {
    if bs == [] then 0.0 else ShareOver(model, asset, ps, bs[0]) + SharesOver(model, asset, ps, bs[1..])
  }

  lemma {:induction false} AddPartition(
    model: AccountModel, asset: Currency, ps: seq<PartitionRef>, bs: seq<BalanceView>)
    requires ps != []
    ensures SharesOver(model, asset, ps, bs) ==
            Shares(model, asset, Some(ps[0]), bs) + SharesOver(model, asset, ps[1..], bs)
  {
    if bs != [] {
      AddPartition(model, asset, ps, bs[1..]);
    }
  }

  lemma {:induction false} NoPartitions(model: AccountModel, asset: Currency, bs: seq<BalanceView>)
    ensures SharesOver(model, asset, [], bs) == 0.0
  {
    if bs != [] {
      NoPartitions(model, asset, bs[1..]);
    }
  }

  lemma {:induction false} ExchangeSums(s: AccountSnapshot, asset: Currency, ps: seq<PartitionRef>)
    ensures OverPartitions(s, asset, ps) == SharesOver(s.model, asset, ps, s.balances)
  {
    if ps == [] {
      NoPartitions(s.model, asset, s.balances);
    } else {
      ExchangeSums(s, asset, ps[1..]);
      CollateralIsShares(s.model, asset, Some(ps[0]), s.balances);
      AddPartition(s.model, asset, ps, s.balances);
    }
  }

  predicate Listed(ps: seq<PartitionRef>, b: BalanceView) {
    b.partition.Some? && b.partition.value in ps
  }

  /** How often a balance is seen when looking from each of the listed partitions once. */
  function Weight(model: AccountModel, ps: seq<PartitionRef>, b: BalanceView): nat {
    if model.Unified? && b.scope.SharedAcrossPartitions? then |ps| else if Listed(ps, b) then 1 else 0
  }

  function Repeated(n: nat, x: real): real {
    if n == 0 then 0.0 else x + Repeated(n - 1, x)
  }

  lemma {:induction false} RepeatedIsProduct(n: nat, x: real)
    ensures Repeated(n, x) == n as real * x
  {
    if n > 0 {
      RepeatedIsProduct(n - 1, x);
      assert n as real * x == x + (n - 1) as real * x;
    }
  }

  /** A balance's equity as often as it is seen. */
  function WeightedEquity(model: AccountModel, asset: Currency, ps: seq<PartitionRef>, b: BalanceView): real {
    if b.asset == asset then Repeated(Weight(model, ps, b), b.NetEquity()) else 0.0
  }

  lemma {:induction false} ShareIsWeighted(model: AccountModel, asset: Currency, ps: seq<PartitionRef>, b: BalanceView)
    requires Distinct(ps)
    ensures ShareOver(model, asset, ps, b) == WeightedEquity(model, asset, ps, b)
  {
    if ps != [] {
      var p, rest := ps[0], ps[1..];
      assert Distinct(rest) && p !in rest;
      ShareIsWeighted(model, asset, rest, b);
      assert Weight(model, ps, b) == Weight(model, rest, b) + (if CountsForSnapshot(model, Some(p), b) then 1 else 0);
    }
  }

  function Weighted(model: AccountModel, asset: Currency, ps: seq<PartitionRef>, bs: seq<BalanceView>): real {
    if bs == [] then 0.0
    else WeightedEquity(model, asset, ps, bs[0]) + Weighted(model, asset, ps, bs[1..])
  }

  lemma {:induction false} SharesAreWeighted(
    model: AccountModel, asset: Currency, ps: seq<PartitionRef>, bs: seq<BalanceView>)
    requires Distinct(ps)
    ensures SharesOver(model, asset, ps, bs) == Weighted(model, asset, ps, bs)
  {
    if bs != [] {
      SharesAreWeighted(model, asset, ps, bs[1..]);
      ShareIsWeighted(model, asset, ps, bs[0]);
    }
  }

  /** Adding up over distinct partitions counts each balance of a segmented account exactly once if
      its partition is listed, and otherwise not at all; in a unified account every shared balance
      is counted once per partition. */
  lemma PartitionsCountBalances(s: AccountSnapshot, asset: Currency, ps: seq<PartitionRef>)
    requires Distinct(ps)
    ensures OverPartitions(s, asset, ps) == Weighted(s.model, asset, ps, s.balances)
    ensures s.model.Segmented? ==>
              OverPartitions(s, asset, ps) ==
              Sum((b: BalanceView) => b.NetEquity(),
                  Filter((b: BalanceView) => b.asset == asset && Listed(ps, b), s.balances))
  {
    ExchangeSums(s, asset, ps);
    SharesAreWeighted(s.model, asset, ps, s.balances);
    if s.model.Segmented? {
      SegmentedWeights(asset, ps, s.balances);
    }
  }

  lemma {:induction false} SegmentedWeights(asset: Currency, ps: seq<PartitionRef>, bs: seq<BalanceView>)
    ensures Weighted(Segmented, asset, ps, bs) ==
            Sum((b: BalanceView) => b.NetEquity(), Filter((b: BalanceView) => b.asset == asset && Listed(ps, b), bs))
  {
    if bs != [] {
      SegmentedWeights(asset, ps, bs[1..]);
      assert Repeated(1, bs[0].NetEquity()) == bs[0].NetEquity() + Repeated(0, bs[0].NetEquity());
      var listed := (b: BalanceView) => b.asset == asset && Listed(ps, b);
      var rest := Filter(listed, bs[1..]);
      if listed(bs[0]) {
        assert Filter(listed, bs) == [bs[0]] + rest;
        assert ([bs[0]] + rest)[1..] == rest;
      } else {
        assert Filter(listed, bs) == [] + rest == rest;
      }
    }
  }
}
