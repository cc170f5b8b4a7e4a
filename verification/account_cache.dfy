/** The snapshot cache of the account manager over every run, and what its queries are answered from it
    (core/src/manager/account.rs). */
module AccountCache {
  import opened Types
  import opened Collateral
  import opened SingleFlight
  import opened AccountManager

  // ---- the cache -----------------------------------------------------------------------------------

  /** The snapshot that the last successful fetch for `e` brought. */
  function LastFetched(messages: seq<Message>, e: Exchange): Option<AccountSnapshot> {
    if messages == [] then None
    else
      var n := |messages| - 1;
      if messages[n].Deliver? && messages[n].exchange == e && messages[n].result.Ok?
      then Some(messages[n].result.value)
      else LastFetched(messages[..n], e)
  }

  predicate Caches(a: Actor, e: Exchange, s: Option<AccountSnapshot>) {
    if s.Some? then e in a.snapshots && a.snapshots[e] == s.value else e !in a.snapshots
  }

  lemma StepCaches(a: Actor, m: Message, e: Exchange, s: Option<AccountSnapshot>)
    requires Caches(a, e, s)
    ensures Caches(Handle(a, m).0, e,
                   if m.Deliver? && m.exchange == e && m.result.Ok? then Some(m.result.value) else s)
  {}

  lemma LastFetchedNext(messages: seq<Message>, n: nat, e: Exchange)
    requires n < |messages|
    ensures LastFetched(messages[..n + 1], e) ==
            if messages[n].Deliver? && messages[n].exchange == e && messages[n].result.Ok?
            then Some(messages[n].result.value) else LastFetched(messages[..n], e)
  {
    assert messages[..n + 1][..n] == messages[..n];
  }

  /** In every reachable state an exchange is cached exactly if a fetch for it has succeeded, with the snapshot
      of the last one that did; failed fetches and commands change nothing. */
  lemma {:induction false} CacheIsLastFetched(states: seq<System>, messages: seq<Message>, n: nat, e: Exchange)
    requires IsRun(states, messages) && n <= |messages|
    ensures Caches(states[n].actor, e, LastFetched(messages[..n], e))
  {
    if n > 0 {
      CacheIsLastFetched(states, messages, n - 1, e);
      assert StepAt(states, messages, n - 1);
      LastFetchedNext(messages, n - 1, e);
      StepCaches(states[n - 1].actor, messages[n - 1], e, LastFetched(messages[..n - 1], e));
    }
  }

  /** A command is answered in its own step exactly if it is no reconcile and a fetch for its exchange has ever
      succeeded, from the last snapshot, however old. It starts a fetch exactly if it had to wait or the
      snapshot is stale, and none is under way. */
  lemma AnsweredAtOnceIff(states: seq<System>, messages: seq<Message>, n: nat, c: Command, stale: bool)
    requires IsRun(states, messages) && n < |messages| && messages[n] == Receive(c, stale)
    ensures var out := Handle(states[n].actor, messages[n]).1;
            var cached := LastFetched(messages[..n], c.exchange);
            var waits := c.query.ReconcileQuery? || cached == None;
            && (waits ==> out.answers == [] && c in states[n + 1].actor.Queue(c.exchange))
            && (!waits ==> |out.answers| == 1 && out.answers[0].command == c
                           && Answers(out.answers[0].reply, c, cached.value))
            && out.events == []
            && out.started == (if (waits || stale) && states[n].inFlight[c.exchange] == 0 then [c.exchange] else [])
  {
    CacheIsLastFetched(states, messages, n, c.exchange);
    CommandsNeverLost(states, messages, n);
    assert StepAt(states, messages, n);
    var cached := LastFetched(messages[..n], c.exchange);
    if cached.Some? { RepliesAnswer(cached.value, c); }
    assert FlowOf(states[n]).inFlight[c.exchange] == if c.exchange in states[n].actor.fetching then 1 else 0;
  }

  // ---- what the answers say ------------------------------------------------------------------------

  /** Place `i` of the selection: where its element comes from. */
  ghost predicate PickedAt<T(!new)>(s: seq<T>, r: seq<T>, p: T -> bool, places: seq<nat>, i: int)
    requires |places| == |r| && 0 <= i < |r|
  {
    places[i] < |s| && r[i] == s[places[i]] && p(r[i]) && forall j :: i < j < |places| ==> places[i] < places[j]
  }

  ghost predicate IsPicked<T(!new)>(s: seq<T>, p: T -> bool, places: seq<nat>, k: int)
    requires 0 <= k < |s|
  {
    p(s[k]) ==> k in places
  }

  /** The places, in ascending order, of the elements from `from` on that `p` holds of. */
  ghost predicate Picks<T(!new)>(s: seq<T>, from: nat, r: seq<T>, p: T -> bool, places: seq<nat>) {
    && |places| == |r| && (forall i :: 0 <= i < |r| ==> PickedAt(s, r, p, places, i) && from <= places[i])
    && (forall k :: from <= k < |s| ==> IsPicked(s, p, places, k))
  }

  /** `r` lists exactly the elements of `s` that `p` holds of, as often and in the order as `s` does. */
  ghost predicate Selects<T(!new)>(s: seq<T>, r: seq<T>, p: T -> bool) {
    exists places :: Picks(s, 0, r, p, places)
  }

  lemma OnePickMore<T(!new)>(p: T -> bool, s: seq<T>, from: nat, r: seq<T>, rest: seq<nat>)
    requires from < |s| && p(s[from]) && Picks(s, from + 1, r, p, rest)
    ensures Picks(s, from, [s[from]] + r, p, [from] + rest)
  {
    var places, more := [from] + rest, [s[from]] + r;
    forall i | 0 <= i < |more| ensures PickedAt(s, more, p, places, i) && from <= places[i] {
      if i > 0 { assert PickedAt(s, r, p, rest, i - 1); }
      forall j | i < j < |places| ensures places[i] < places[j] {
        assert PickedAt(s, r, p, rest, j - 1);
      }
    }
    forall k | from <= k < |s| ensures IsPicked(s, p, places, k) {
      if k == from { assert places[0] == k; } else { assert IsPicked(s, p, rest, k); }
    }
  }

  lemma NoPickMore<T(!new)>(p: T -> bool, s: seq<T>, from: nat, r: seq<T>, rest: seq<nat>)
    requires from < |s| && !p(s[from]) && Picks(s, from + 1, r, p, rest)
    ensures Picks(s, from, r, p, rest)
  {
    forall k | from <= k < |s| ensures IsPicked(s, p, rest, k) {
      if k > from { assert IsPicked(s, p, rest, k); }
    }
  }

  lemma {:induction false} FilterPicks<T(!new)>(p: T -> bool, s: seq<T>, from: nat) returns (places: seq<nat>)
    requires from <= |s|
    ensures Picks(s, from, Filter(p, s[from..]), p, places)
    decreases |s| - from
  {
    if from == |s| {
      places := [];
    } else {
      places := FilterPicks(p, s, from + 1);
      var kept := Filter(p, s[from + 1..]);
      assert s[from..] == [s[from]] + s[from + 1..];
      FilterStep(p, s[from], s[from + 1..]);
      if p(s[from]) {
        OnePickMore(p, s, from, kept, places);
        places := [from] + places;
      } else {
        NoPickMore(p, s, from, kept, places);
        assert [] + kept == kept;
      }
    }
  }

  lemma FilterSelects<T(!new)>(p: T -> bool, s: seq<T>)
    ensures Selects(s, Filter(p, s), p)
  {
    var places := FilterPicks(p, s, 0);
    assert s[0..] == s;
  }

  lemma {:induction false} FiltersCompose<T>(p: T -> bool, q: T -> bool, both: T -> bool, s: seq<T>)
    requires forall x <- s :: both(x) <==> q(x) && p(x)
    ensures Filter(p, Filter(q, s)) == Filter(both, s)
  {
    if s != [] {
      assert forall x <- s[1..] :: x in s;
      FiltersCompose(p, q, both, s[1..]);
      var kept := Filter(q, s[1..]);
      assert s[0] in s && [s[0]] + s[1..] == s;
      FilterStep(q, s[0], s[1..]);
      FilterStep(p, s[0], kept);
      assert [] + kept == kept && [] + Filter(p, kept) == Filter(p, kept);
    }
  }

  /** The balance is of the asked asset and partition, and it is not empty unless empty ones are asked for. */
  predicate Wanted(asset: Option<Currency>, partition: Option<PartitionRef>, includeZero: bool, b: BalanceView) {
    && (asset == None || asset == Some(b.asset))
    && (partition == None || partition == b.partition)
    && (includeZero || b.total != 0.0 || b.unrealizedPnl != 0.0)
  }

  /** What a query is answered when `s` is the cached snapshot. */
  ghost predicate Answers(reply: Reply, c: Command, s: AccountSnapshot) {
    match c.query
    case ModelQuery => reply == ModelReply(s.model)
    case PartitionsQuery => reply == PartitionsReply(s.partitions)
    case BalancesQuery(asset, partition, zero) =>
      reply.BalancesReply? && Selects(s.balances, reply.balances, b => Wanted(asset, partition, zero, b))
    case CollateralQuery(asset, partition) =>
      if partition == None || partition.value in s.partitions then
        reply.CollateralReply? && SummaryOf(reply.summary, s, asset, partition) && reply.summary.exchange == c.exchange
      else reply == ErrorReply(PartitionNotFound)
    case MarginQuery(partition) =>
      if partition == None || partition.value in s.partitions then
        reply == MarginReply(match s.model case Unified => Portfolio case Segmented => Cross)
      else reply == ErrorReply(PartitionNotFound)
    case ReconcileQuery => reply == SnapshotReply(s)
    case SnapshotQuery => reply == SnapshotReply(s)
  }

  /** The summary holds the effective collateral seen from the partition and how it is made up. */
  predicate SummaryOf(r: CollateralSummary, s: AccountSnapshot, asset: Currency, partition: Option<PartitionRef>) {
    && r.model == s.model && r.quoteAsset == asset && r.partition == partition
    && r.effectiveCollateral == EffectiveCollateral(s, asset, partition)
    && r.effectiveCollateral == r.totalBalance + r.totalUnrealizedPnl - r.totalBorrowed
  }

  lemma BalancesSelected(s: AccountSnapshot, asset: Option<Currency>, partition: Option<PartitionRef>, zero: bool)
    ensures Selects(s.balances, SelectBalances(s, asset, partition, zero), b => Wanted(asset, partition, zero, b))
  {
    var byAsset := (b: BalanceView) => asset.None? || b.asset == asset.value;
    var byPartition := (b: BalanceView) => partition.None? || b.partition == partition;
    var byBoth := (b: BalanceView) => byAsset(b) && byPartition(b);
    var byZero := (b: BalanceView) => zero || b.total != 0.0 || b.unrealizedPnl != 0.0;
    var wanted := (b: BalanceView) => Wanted(asset, partition, zero, b);
    FiltersCompose(byPartition, byAsset, byBoth, s.balances);
    FiltersCompose(byZero, byBoth, wanted, s.balances);
    FilterSelects(wanted, s.balances);
  }

  /** Every query gets the answer that the snapshot holds: balances exactly those of the asked asset and
      partition, in order; collateral the effective one of the asked partition; an error exactly for a
      partition that is not listed. */
  lemma RepliesAnswer(s: AccountSnapshot, c: Command)
    ensures Answers(ReplyFrom(s, c), c, s)
  {
    match c.query {
      case BalancesQuery(asset, partition, zero) => BalancesSelected(s, asset, partition, zero);
      case CollateralQuery(asset, partition) => ImplementationsAgree(s, c.exchange, asset, partition);
      case _ =>
    }
  }

  /** A successful fetch answers everybody who waits, in order and in this sense, from what it brought. */
  lemma FetchAnswers(states: seq<System>, messages: seq<Message>, n: nat, e: Exchange, s: AccountSnapshot, i: nat)
    requires IsRun(states, messages) && n < |messages| && messages[n] == Deliver(e, Ok(s))
    requires i < |states[n].actor.Queue(e)|
    ensures var answers, c := Handle(states[n].actor, messages[n]).1.answers, states[n].actor.Queue(e)[i];
            |answers| > i && answers[i].command == c && Answers(answers[i].reply, c, s)
  {
    FetchServesTheQueue(states, messages, n, e, Ok(s));
    RepliesAnswer(s, states[n].actor.Queue(e)[i]);
  }
}
