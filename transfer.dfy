/** Transfer to the store (transferToStore, src/lib/actions.ts): the whole stock of each
    selected roasted item moves, at its unit cost, into the store item of the same name. */
module Transfer {
  import opened Definitions
  import opened Seqs
  import opened Roasting
  import opened Store

  /** The two inventories a transfer works on. */
  datatype Shelves = Shelves(roasted: seq<RoastedItem>, store: seq<StoreItem>)

  /** Value moved out of a roasted item: its whole stock at its unit cost. */
  function TransferValue(r: RoastedItem): real
  {
    r.stockKg * r.hppPerKg
  }

  /** Category a new store item takes: the roasted item's, "Roasted Beans" when it has none. */
  function CategoryOf(r: RoastedItem): string
  {
    if r.category == "" then "Roasted Beans" else r.category
  }

  /** The store item a transfer creates for a product the store does not hold yet. */
  function NewStoreItemFrom(r: RoastedItem, now: string): StoreItem
  {
    StoreItem(StoreId(r.product, now), r.product, CategoryOf(r), r.stockKg, r.hppPerKg,
              Markup(r.hppPerKg), TransferValue(r))
  }

  /** The store after one roasted item's whole stock `r` arrives in it. */
  function StoreAfter(ss: seq<StoreItem>, r: RoastedItem, now: string): seq<StoreItem>
  {
    match FindProduct(ss, r.product)
    case Some(j) => ss[j := Receive(ss[j], r.stockKg, TransferValue(r), r.hppPerKg)]
    case None => ss + [NewStoreItemFrom(r, now)]
  }

  /** The selection of one roasted item: an unknown id or an item without positive stock is
      skipped; otherwise its stock and value go to the store and it is left empty. */
  function TransferOne(sh: Shelves, id: string, now: string): Shelves
  {
    match FindRoastedId(sh.roasted, id)
    case None => sh
    case Some(k) =>
      var r := sh.roasted[k];
      if r.stockKg <= 0.0 then sh
      else Shelves(sh.roasted[k := r.(stockKg := 0.0, totalValue := 0.0)], StoreAfter(sh.store, r, now))
  }

  function TransferAll(sh: Shelves, ids: seq<string>, now: string): Shelves
    decreases |ids|
  {
    if |ids| == 0 then sh else TransferAll(TransferOne(sh, ids[0], now), ids[1..], now)
  }

  /** transferToStore: an empty selection is refused; otherwise the selected items are
      transferred one after the other and nothing but the two inventories changes. */
  function Transferred(db: Snapshot, ids: seq<string>, now: string): (r: Result<Snapshot>)
    ensures r.Failure? <==> |ids| == 0
    ensures r.Failure? ==> r.error == NothingToTransfer
    ensures r.Success? ==> r.value == db.(roastedInventory := r.value.roastedInventory,
                                          storeInventory := r.value.storeInventory)
  {
    if |ids| == 0 then Failure(NothingToTransfer)
    else
      var sh := TransferAll(Shelves(db.roastedInventory, db.storeInventory), ids, now);
      Success(db.(roastedInventory := sh.roasted, storeInventory := sh.store))
  }

  /** The source's loop over the selection, overwriting the records it moves stock between. */
  method TransferToStore(db: Snapshot, ids: seq<string>, now: string) returns (r: Result<Snapshot>)
    ensures r == Transferred(db, ids, now)
  {
    if |ids| == 0 {
      return Failure(NothingToTransfer);
    }
    var roasted := db.roastedInventory;
    var store := db.storeInventory;
    var i := 0;
    while i < |ids|
      invariant 0 <= i <= |ids|
      invariant TransferAll(Shelves(roasted, store), ids[i..], now)
             == TransferAll(Shelves(db.roastedInventory, db.storeInventory), ids, now)
    {
      assert ids[i..][1..] == ids[i + 1..];
      ghost var before := Shelves(roasted, store);
      var roastedIndex := FindRoastedId(roasted, ids[i]);
      if roastedIndex.Some? {
        var roastedDoc := roasted[roastedIndex.value];
        var stockToTransfer := roastedDoc.stockKg;
        if stockToTransfer > 0.0 {
          var storeIndex := FindProduct(store, roastedDoc.product);
          var hpp := roastedDoc.hppPerKg;
          var valueToTransfer := TransferValue(roastedDoc);
          if storeIndex.Some? {
            var j := storeIndex.value;
            store := store[j := Receive(store[j], stockToTransfer, valueToTransfer, hpp)];
          } else {
            store := store + [NewStoreItemFrom(roastedDoc, now)];
          }
          roasted := roasted[roastedIndex.value := roastedDoc.(stockKg := 0.0, totalValue := 0.0)];
        }
      }
      assert Shelves(roasted, store) == TransferOne(before, ids[i], now);
      i := i + 1;
    }
    r := Success(db.(roastedInventory := roasted, storeInventory := store));
  }

  // ---------------------------------------------------------------------------
  // Properties

  /** The store item of the arriving product's name (a new one when there is none) receives
      its whole stock at its unit cost, keeps its id and category, takes the average cost of
      its new stock (0 when it has none), keeps a positive sell price or takes 1.5 × the
      arriving unit cost; no other store item changes. */
  lemma StoreAfterReceives(ss: seq<StoreItem>, r: RoastedItem, now: string)
    ensures var t := StoreAfter(ss, r, now);
            match FindProduct(ss, r.product)
            case Some(j) =>
              && |t| == |ss|
              && t[j].id == ss[j].id && t[j].product == r.product && t[j].category == ss[j].category
              && t[j].stockKg == ss[j].stockKg + r.stockKg
              && t[j].totalValue == ss[j].totalValue + r.stockKg * r.hppPerKg
              && (t[j].stockKg > 0.0 ==> t[j].hppPerKg * t[j].stockKg == t[j].totalValue)
              && (t[j].stockKg <= 0.0 ==> t[j].hppPerKg == 0.0)
              && t[j].sellPricePerKg
                 == (if ss[j].sellPricePerKg > 0.0 then ss[j].sellPricePerKg else r.hppPerKg * 1.5)
              && (forall i :: 0 <= i < |ss| && i != j ==> t[i] == ss[i])
            case None =>
              t == ss + [StoreItem(StoreId(r.product, now), r.product, CategoryOf(r),
                                   r.stockKg, r.hppPerKg, r.hppPerKg * 1.5, r.stockKg * r.hppPerKg)]
  {
    if FindProduct(ss, r.product).None? {
      assert NewStoreItemFrom(r, now) == StoreItem(StoreId(r.product, now), r.product, CategoryOf(r),
                                                   r.stockKg, r.hppPerKg, r.hppPerKg * 1.5,
                                                   r.stockKg * r.hppPerKg);
    }
  }

  /** What one selection does: skipped ids change nothing; otherwise the roasted item ends
      with no stock and no value, no other roasted item changes, and its stock arrives in
      the store as StoreAfterReceives describes. */
  lemma TransferMovesWholeStock(sh: Shelves, id: string, now: string)
    ensures var t := TransferOne(sh, id, now);
            var f := FindRoastedId(sh.roasted, id);
            && (f.None? || sh.roasted[f.value].stockKg <= 0.0 ==> t == sh)
            && (f.Some? && sh.roasted[f.value].stockKg > 0.0 ==>
                  var k := f.value;
                  var r := sh.roasted[k];
                  && |t.roasted| == |sh.roasted|
                  && t.roasted[k] == r.(stockKg := 0.0, totalValue := 0.0)
                  && (forall i :: 0 <= i < |sh.roasted| && i != k ==> t.roasted[i] == sh.roasted[i])
                  && t.store == StoreAfter(sh.store, r, now))
  {
  }

  /** Total quantity of both inventories. */
  function Quantity(sh: Shelves): real
  {
    SumOf(sh.roasted, RoastedStockOf) + SumOf(sh.store, StoreStockOf)
  }

  /** Total value of both inventories. */
  function Worth(sh: Shelves): real
  {
    SumOf(sh.roasted, RoastedValueOf) + SumOf(sh.store, StoreValueOf)
  }

  ghost predicate ShelvesOk(sh: Shelves)
  {
    RoastedOk(sh.roasted) && StoreOk(sh.store)
  }

  lemma StoreAfterTotals(ss: seq<StoreItem>, r: RoastedItem, now: string)
    ensures SumOf(StoreAfter(ss, r, now), StoreStockOf) == SumOf(ss, StoreStockOf) + r.stockKg
    ensures SumOf(StoreAfter(ss, r, now), StoreValueOf) == SumOf(ss, StoreValueOf) + TransferValue(r)
  {
    match FindProduct(ss, r.product)
    case Some(j) =>
      var s := Receive(ss[j], r.stockKg, TransferValue(r), r.hppPerKg);
      SumUpdate(ss, j, s, StoreStockOf);
      SumUpdate(ss, j, s, StoreValueOf);
    case None =>
      var n := NewStoreItemFrom(r, now);
      SumAppend(ss, [n], StoreStockOf);
      SumAppend(ss, [n], StoreValueOf);
  }

  lemma StoreAfterOk(ss: seq<StoreItem>, r: RoastedItem, now: string)
    requires StoreOk(ss) && RoastedItemOk(r)
    ensures StoreOk(StoreAfter(ss, r, now))
  {
    match FindProduct(ss, r.product)
    case Some(j) =>
      assert StoreItemOk(ss[j]);
      ReceiveKeepsOk(ss[j], r.stockKg, r.hppPerKg);
      StoreOkUpdate(ss, j, Receive(ss[j], r.stockKg, TransferValue(r), r.hppPerKg));
    case None =>
      assert StoreItemOk(NewStoreItemFrom(r, now));
      StoreOkAppend(ss, NewStoreItemFrom(r, now));
  }

  lemma EmptiedTotals(rs: seq<RoastedItem>, k: nat)
    requires k < |rs|
    ensures var e := rs[k := rs[k].(stockKg := 0.0, totalValue := 0.0)];
            && SumOf(e, RoastedStockOf) == SumOf(rs, RoastedStockOf) - rs[k].stockKg
            && SumOf(e, RoastedValueOf) == SumOf(rs, RoastedValueOf) - rs[k].totalValue
            && (RoastedOk(rs) ==> RoastedOk(e))
  {
    var emptied := rs[k].(stockKg := 0.0, totalValue := 0.0);
    SumUpdate(rs, k, emptied, RoastedStockOf);
    SumUpdate(rs, k, emptied, RoastedValueOf);
    if RoastedOk(rs) {
      assert RoastedItemOk(rs[k]);
      assert RoastedItemOk(emptied);
    }
  }

  /** One selection moves quantity without creating or losing any, and moves value
      without creating or losing any from items at rest; it keeps both inventories at rest. */
  lemma TransferOneConserves(sh: Shelves, id: string, now: string)
    ensures Quantity(TransferOne(sh, id, now)) == Quantity(sh)
    ensures ShelvesOk(sh) ==> Worth(TransferOne(sh, id, now)) == Worth(sh)
    ensures ShelvesOk(sh) ==> ShelvesOk(TransferOne(sh, id, now))
  {
    match FindRoastedId(sh.roasted, id)
    case None =>
    case Some(k) =>
      var r := sh.roasted[k];
      if r.stockKg > 0.0 {
        EmptiedTotals(sh.roasted, k);
        StoreAfterTotals(sh.store, r, now);
        if ShelvesOk(sh) {
          assert RoastedItemOk(r);
          StoreAfterOk(sh.store, r, now);
        }
      }
  }

  /** A whole transfer conserves quantity, conserves value when both inventories are at
      rest, and keeps them at rest. */
  lemma {:induction false} TransferAllConserves(sh: Shelves, ids: seq<string>, now: string)
    ensures Quantity(TransferAll(sh, ids, now)) == Quantity(sh)
    ensures ShelvesOk(sh) ==> Worth(TransferAll(sh, ids, now)) == Worth(sh)
    ensures ShelvesOk(sh) ==> ShelvesOk(TransferAll(sh, ids, now))
    decreases |ids|
  {
    if |ids| > 0 {
      TransferOneConserves(sh, ids[0], now);
      TransferAllConserves(TransferOne(sh, ids[0], now), ids[1..], now);
    }
  }
}
