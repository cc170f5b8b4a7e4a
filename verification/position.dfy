/** The position manager actor (core/src/manager/position.rs): a store merged from two sources. The
    websocket owns size, entry price and profit; REST owns leverage and liquidation price. */
module PositionManager {
  import opened Types

  datatype WsPatch = WsPatch(key: InstrumentKey, size: real, entryPrice: real, unrealizedPnl: real)

  type Store = map<InstrumentKey, Position>

  function Get(s: Store, k: InstrumentKey): Option<Position> {
    if k in s then Some(s[k]) else None
  }

  function KeysOf(ps: seq<Position>): set<InstrumentKey> {
    set p <- ps :: p.key
  }

  function MergeRest(own: Position, rest: Position): Position {
    own.(leverage := rest.leverage, liquidationPrice := rest.liquidationPrice)
  }

  /** The last report for `k`. */
  function LastFor(ps: seq<Position>, k: InstrumentKey): Position
    requires k in KeysOf(ps)
  {
    var n := |ps| - 1;
    if ps[n].key == k then ps[n]
    else
      assert k in KeysOf(ps[..n]) by {
        var p :| p in ps && p.key == k;
        var i :| 0 <= i < |ps| && ps[i] == p;
        assert ps[..n][i] == p;
      }
      LastFor(ps[..n], k)
  }

  /** The first report for `k` with a position. */
  function FirstOpen(ps: seq<Position>, k: InstrumentKey): Option<Position> {
    if ps == [] then None
    else
      var n := |ps| - 1;
      var earlier := FirstOpen(ps[..n], k);
      if earlier.Some? then earlier
      else if ps[n].key == k && ps[n].size != 0.0 then Some(ps[n]) else None
  }

  /** What one REST synchronization makes of one key: what REST does not report is dropped, what is
      held keeps its websocket fields, and the rest is taken over from REST. */
  function SyncOne(held: Option<Position>, ps: seq<Position>, k: InstrumentKey): Option<Position> {
    if k !in KeysOf(ps) then None
    else
      var own := if held.Some? then held else FirstOpen(ps, k);
      if own.Some? then Some(MergeRest(own.value, LastFor(ps, k))) else None
  }

  function Synced(s: Store, ps: seq<Position>): Store {
    map k | k in KeysOf(ps) && SyncOne(Get(s, k), ps, k).Some? :: SyncOne(Get(s, k), ps, k).value
  }

  function FromPatch(patch: WsPatch, held: Option<Position>): Position {
    Position(patch.key, patch.size, patch.entryPrice, patch.unrealizedPnl,
             if held.Some? then held.value.leverage else 1.0,
             if held.Some? then held.value.liquidationPrice else None)
  }

  function Patched(s: Store, patch: WsPatch): Store {
    if patch.size == 0.0 then s - {patch.key}
    else s[patch.key := FromPatch(patch, Get(s, patch.key))]
  }

  // ---- the actor ------------------------------------------------------------------------------------

  class PositionStore {
    var positions: Store

    constructor ()
      ensures positions == map[]
    {
      positions := map[];
    }

    method Update(p: Position)
      modifies this
      ensures positions == if p.size == 0.0 then old(positions) - {p.key} else old(positions)[p.key := p]
    {
      if p.size == 0.0 {
        positions := positions - {p.key};
      } else {
        positions := positions[p.key := p];
      }
    }

    method RetainKeys(keys: set<InstrumentKey>)
      modifies this
      ensures positions == map k | k in old(positions) && k in keys :: old(positions)[k]
    {
      positions := map k | k in positions && k in keys :: positions[k];
    }
  }

  /** The synchronization loop seen from one key: `held` before, `ps` processed. */
  function Merged(held: Option<Position>, ps: seq<Position>, k: InstrumentKey): Option<Position> {
    if ps == [] then held
    else
      var n := |ps| - 1;
      var before, p := Merged(held, ps[..n], k), ps[n];
      if p.key != k then before
      else if before.Some? then Some(MergeRest(before.value, p))
      else if p.size != 0.0 then Some(p) else None
  }

  lemma {:induction false} MergedIsSyncOne(held: Option<Position>, ps: seq<Position>, k: InstrumentKey)
    ensures k in KeysOf(ps) ==> Merged(held, ps, k) == SyncOne(held, ps, k)
    ensures k !in KeysOf(ps) ==> Merged(held, ps, k) == held && FirstOpen(ps, k) == None
  {
    if ps != [] {
      var n := |ps| - 1;
      var init := ps[..n];
      MergedIsSyncOne(held, init, k);
      assert ps == init + [ps[n]];
      assert k in KeysOf(ps) <==> k in KeysOf(init) || ps[n].key == k;
    }
  }

  class PositionManagerActor {
    const store: PositionStore

    constructor ()
      ensures fresh(store) && store.positions == map[]
    {
      store := new PositionStore();
    }

    method SyncPositions(restPositions: seq<Position>)
      modifies store
      ensures store.positions == Synced(old(store.positions), restPositions)
    {
      ghost var before := store.positions;
      var restKeys := KeysOf(restPositions);
      store.RetainKeys(restKeys);
      for i := 0 to |restPositions|
        invariant store.positions.Keys <= restKeys
        invariant forall k <- restKeys :: Get(store.positions, k) == Merged(Get(before, k), restPositions[..i], k)
      {
        var p := restPositions[i];
        assert restPositions[..i + 1][..i] == restPositions[..i];
        if p.key in store.positions {
          var existing := store.positions[p.key];
          store.positions := store.positions[p.key :=
            existing.(liquidationPrice := p.liquidationPrice, leverage := p.leverage)];
        } else {
          store.Update(p);
        }
      }
      assert restPositions[..|restPositions|] == restPositions;
      forall k | k in restKeys ensures Get(store.positions, k) == SyncOne(Get(before, k), restPositions, k) {
        MergedIsSyncOne(Get(before, k), restPositions, k);
      }
      assert store.positions == Synced(before, restPositions);
    }

    /** The broadcast position carries the held REST fields, also when it announces a close. */
    method ApplyWsPatch(patch: WsPatch) returns (broadcast: Position)
      modifies store
      ensures store.positions == Patched(old(store.positions), patch)
      ensures broadcast == FromPatch(patch, Get(old(store.positions), patch.key))
    {
      var leverage, liquidationPrice := 1.0, None;
      if patch.key in store.positions {
        leverage, liquidationPrice := store.positions[patch.key].leverage, store.positions[patch.key].liquidationPrice;
      }
      var position :=
        Position(patch.key, patch.size, patch.entryPrice, patch.unrealizedPnl, leverage, liquidationPrice);
      if patch.size == 0.0 {
        store.Update(Position(patch.key, patch.size, 0.0, 0.0, 1.0, None));
        return position;
      }
      store.Update(position);
      broadcast := position;
    }
  }

  // ---- every run --------------------------------------------------------------------------------------

  datatype Message = Sync(positions: seq<Position>) | Patch(patch: WsPatch)

  function StoreAfter(h: seq<Message>): Store {
    if h == [] then map[]
    else
      var s := StoreAfter(h[..|h| - 1]);
      match h[|h| - 1]
      case Sync(ps) => Synced(s, ps)
      case Patch(p) => Patched(s, p)
  }

  datatype WsFields = WsFields(size: real, entryPrice: real, unrealizedPnl: real)

  datatype RestFields = RestFields(leverage: real, liquidationPrice: Option<real>)

  const DEFAULT_REST := RestFields(1.0, None)

  function WsOf(p: Position): WsFields {
    WsFields(p.size, p.entryPrice, p.unrealizedPnl)
  }

  function RestOf(p: Position): RestFields {
    RestFields(p.leverage, p.liquidationPrice)
  }

  /** The websocket half of the store for one key, defined without looking at REST fields. */
  function WsHalf(h: seq<Message>, k: InstrumentKey): Option<WsFields> {
    if h == [] then None
    else
      var before := WsHalf(h[..|h| - 1], k);
      match h[|h| - 1]
      case Patch(p) =>
        if p.key != k then before
        else if p.size == 0.0 then None else Some(WsFields(p.size, p.entryPrice, p.unrealizedPnl))
      case Sync(ps) =>
        if k !in KeysOf(ps) then None
        else if before.Some? then before
        else if FirstOpen(ps, k).Some? then Some(WsOf(FirstOpen(ps, k).value)) else None
  }

  /** The REST half of a held key; websocket patches only matter in that a close resets it. */
  function RestHalf(h: seq<Message>, k: InstrumentKey): RestFields {
    if h == [] || WsHalf(h, k).None? then DEFAULT_REST
    else
      match h[|h| - 1]
      case Patch(_) => RestHalf(h[..|h| - 1], k)
      case Sync(ps) => if k in KeysOf(ps) then RestOf(LastFor(ps, k)) else DEFAULT_REST
  }

  /** The merged store is its two halves: neither source ever writes the other's fields, and no
      position of size zero is held. */
  lemma {:induction false} StoreIsMerge(h: seq<Message>, k: InstrumentKey)
    ensures k in StoreAfter(h) <==> WsHalf(h, k).Some?
    ensures k in StoreAfter(h) ==>
              && StoreAfter(h)[k].key == k && StoreAfter(h)[k].size != 0.0
              && WsOf(StoreAfter(h)[k]) == WsHalf(h, k).value && RestOf(StoreAfter(h)[k]) == RestHalf(h, k)
  {
    if h != [] {
      var init, last := h[..|h| - 1], h[|h| - 1];
      StoreIsMerge(init, k);
      if last.Sync? {
        FirstOpenIsOpen(last.positions, k);
      }
    }
  }

  /** Of several reports for one key a synchronization opens the position with the first that has a size. */
  lemma {:induction false} FirstOpenIsOpen(ps: seq<Position>, k: InstrumentKey)
    ensures FirstOpen(ps, k).Some? ==>
              exists i :: 0 <= i < |ps| && ps[i] == FirstOpen(ps, k).value && ps[i].key == k && ps[i].size != 0.0 &&
                          forall j :: 0 <= j < i ==> ps[j].key != k || ps[j].size == 0.0
    ensures FirstOpen(ps, k).None? ==> forall j :: 0 <= j < |ps| ==> ps[j].key != k || ps[j].size == 0.0
  {
    if ps != [] {
      var n := |ps| - 1;
      FirstOpenIsOpen(ps[..n], k);
      if FirstOpen(ps[..n], k).Some? {
        var i :| 0 <= i < n && ps[..n][i] == FirstOpen(ps, k).value && ps[..n][i].key == k && ps[..n][i].size != 0.0 &&
                 forall j :: 0 <= j < i ==> ps[..n][j].key != k || ps[..n][j].size == 0.0;
        assert ps[i] == ps[..n][i] && forall j :: 0 <= j < i ==> ps[j] == ps[..n][j];
      } else {
        assert forall j :: 0 <= j < n ==> ps[j] == ps[..n][j];
      }
    }
  }

  /** And takes its REST fields from the last. */
  lemma {:induction false} LastForIsLast(ps: seq<Position>, k: InstrumentKey) returns (i: nat)
    requires k in KeysOf(ps)
    ensures i < |ps| && ps[i] == LastFor(ps, k) && ps[i].key == k && forall j :: i < j < |ps| ==> ps[j].key != k
  {
    var n := |ps| - 1;
    if ps[n].key == k {
      i := n;
    } else {
      assert ps == ps[..n] + [ps[n]];
      i := LastForIsLast(ps[..n], k);
    }
  }

  /** `m` sets the websocket fields of `k`: a patch with a position, or a REST bootstrap. */
  predicate Supplies(m: Message, k: InstrumentKey, w: WsFields) {
    match m
    case Patch(p) => p.key == k && p.size != 0.0 && w == WsFields(p.size, p.entryPrice, p.unrealizedPnl)
    case Sync(ps) => FirstOpen(ps, k).Some? && w == WsOf(FirstOpen(ps, k).value)
  }

  /** `m` leaves the websocket fields of a held `k` alone. */
  predicate Preserves(m: Message, k: InstrumentKey) {
    match m
    case Patch(p) => p.key != k
    case Sync(ps) => k in KeysOf(ps)
  }

  /** Size, entry price and profit of a held position come from one message, and nothing since then
      was a patch for it or a synchronization without it. */
  lemma {:induction false} WsFieldsProvenance(h: seq<Message>, k: InstrumentKey)
    requires k in StoreAfter(h)
    ensures exists i :: 0 <= i < |h| && Supplies(h[i], k, WsOf(StoreAfter(h)[k])) &&
                        forall j :: i < j < |h| ==> Preserves(h[j], k)
  {
    StoreIsMerge(h, k);
    var n := |h| - 1;
    var init := h[..n];
    StoreIsMerge(init, k);
    if Supplies(h[n], k, WsHalf(h, k).value) && (h[n].Patch? || WsHalf(init, k).None?) {
    } else {
      WsFieldsProvenance(init, k);
      var i :| 0 <= i < |init| && Supplies(init[i], k, WsOf(StoreAfter(init)[k])) &&
               forall j :: i < j < |init| ==> Preserves(init[j], k);
      assert Supplies(h[i], k, WsOf(StoreAfter(h)[k]));
      forall j | i < j < |h| ensures Preserves(h[j], k) {
        if j < n { assert Preserves(init[j], k); }
      }
    }
  }

  predicate IsClose(m: Message, k: InstrumentKey) {
    m.Patch? && m.patch.key == k && m.patch.size == 0.0
  }

  /** Leverage and liquidation price of a held position come from the last synchronization, or are
      the defaults if it was opened by a patch after that. */
  lemma {:induction false} RestFieldsProvenance(h: seq<Message>, k: InstrumentKey)
    requires k in StoreAfter(h)
    ensures exists i :: 0 <= i < |h| && RestSource(h[i], k, RestOf(StoreAfter(h)[k])) &&
                        forall j :: i < j < |h| ==> !h[j].Sync? && !IsClose(h[j], k)
  {
    StoreIsMerge(h, k);
    var n := |h| - 1;
    var init := h[..n];
    StoreIsMerge(init, k);
    if h[n].Sync? {
      assert RestSource(h[n], k, RestOf(StoreAfter(h)[k]));
    } else if k !in StoreAfter(init) {
      assert RestSource(h[n], k, RestOf(StoreAfter(h)[k]));
    } else {
      RestFieldsProvenance(init, k);
      var i :| 0 <= i < |init| && RestSource(init[i], k, RestOf(StoreAfter(init)[k])) &&
               forall j :: i < j < |init| ==> !init[j].Sync? && !IsClose(init[j], k);
      assert RestSource(h[i], k, RestOf(StoreAfter(h)[k]));
      forall j | i < j < |h| ensures !h[j].Sync? && !IsClose(h[j], k) {
        if j < n { assert !init[j].Sync? && !IsClose(init[j], k); }
      }
    }
  }

  predicate RestSource(m: Message, k: InstrumentKey, r: RestFields) {
    match m
    case Sync(ps) => k in KeysOf(ps) && r == RestOf(LastFor(ps, k))
    case Patch(p) => p.key == k && p.size != 0.0 && r == DEFAULT_REST
  }

  /** After any history a patch is broadcast with its own size, entry price and profit, also when it closes the
      position, and with the REST fields held so far. */
  lemma PatchBroadcast(h: seq<Message>, patch: WsPatch)
    ensures var b := FromPatch(patch, Get(StoreAfter(h), patch.key));
            && b.key == patch.key && WsOf(b) == WsFields(patch.size, patch.entryPrice, patch.unrealizedPnl)
            && RestOf(b) == RestHalf(h, patch.key)
  {
    StoreIsMerge(h, patch.key);
  }

  // ---- racing sources -----------------------------------------------------------------------------------

  /** A non-zero patch and a synchronization commute exactly when REST reports the key and either the
      position was held, or REST opens it as well, or REST's last report has the default fields. */
  lemma PatchAndSyncCommute(s: Store, patch: WsPatch, ps: seq<Position>)
    requires patch.size != 0.0
    ensures Synced(Patched(s, patch), ps) == Patched(Synced(s, ps), patch) <==>
            patch.key in KeysOf(ps) &&
            (patch.key in s || FirstOpen(ps, patch.key).Some? || RestOf(LastFor(ps, patch.key)) == DEFAULT_REST)
  {
    var k := patch.key;
    var patchFirst, syncFirst := Synced(Patched(s, patch), ps), Patched(Synced(s, ps), patch);
    forall x | x != k ensures Get(patchFirst, x) == Get(syncFirst, x) {
      assert Get(Patched(s, patch), x) == Get(s, x);
    }
    assert Get(Patched(s, patch), k) == Some(FromPatch(patch, Get(s, k)));
    assert Get(syncFirst, k) == Some(FromPatch(patch, SyncOne(Get(s, k), ps, k)));
    assert Get(patchFirst, k) == SyncOne(Some(FromPatch(patch, Get(s, k))), ps, k);
    if Get(patchFirst, k) == Get(syncFirst, k) {
      SameStore(patchFirst, syncFirst);
    }
  }

  lemma SameStore(a: Store, b: Store)
    requires forall x :: Get(a, x) == Get(b, x)
    ensures a == b
  {
    assert forall x :: x in a <==> Get(a, x).Some?;
    assert forall x :: x in b <==> Get(b, x).Some?;
    assert a.Keys == b.Keys;
    assert forall x <- a :: Get(a, x) == Some(a[x]) && Get(b, x) == Some(b[x]);
  }
}
