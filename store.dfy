/** Store stock (src/lib/actions.ts): finding a product by name, taking stock in at a
    weighted-average cost (shared by transfer and blending), and the record edits
    addManualStock, updateStoreItem and deleteStoreItem. */
module Store {
  import opened Definitions
  import opened Seqs

  function StoreId(product: string, now: string): string
  {
    "si-" + product + "-" + now
  }

  /** Index of the first store item called `name`. */
  function FindProduct(ss: seq<StoreItem>, name: string): (r: Option<nat>)
    ensures r.Some? ==> r.value < |ss| && ss[r.value].product == name
    ensures r.Some? ==> forall j :: 0 <= j < r.value ==> ss[j].product != name
    ensures r.None? <==> forall j :: 0 <= j < |ss| ==> ss[j].product != name
  {
    if |ss| == 0 then None
    else if ss[0].product == name then Some(0)
    else match FindProduct(ss[1..], name)
      case None => None
      case Some(i) => Some(i + 1)
  }

  /** Index of the first store item with the id. */
  function FindStoreId(ss: seq<StoreItem>, id: string): (r: Option<nat>)
    ensures r.Some? ==> r.value < |ss| && ss[r.value].id == id
    ensures r.Some? ==> forall j :: 0 <= j < r.value ==> ss[j].id != id
    ensures r.None? <==> forall j :: 0 <= j < |ss| ==> ss[j].id != id
  {
    if |ss| == 0 then None
    else if ss[0].id == id then Some(0)
    else match FindStoreId(ss[1..], id)
      case None => None
      case Some(i) => Some(i + 1)
  }

  function StoreStockOf(s: StoreItem): real
  {
    s.stockKg
  }

  function StoreValueOf(s: StoreItem): real
  {
    s.totalValue
  }

  /** Suggested sell price of stock arriving at unit cost `hpp`: 1.5 × hpp. */
  function Markup(hpp: real): real
  {
    hpp * 1.5
  }

  /** A store item after `qty` arrives worth `value`: stock and value add up, the unit cost
      becomes the new value over the new stock (0 when that is not positive), and a positive
      sell price is kept, otherwise it becomes 1.5 × `hpp`, the arriving stock's unit cost. */
  function Receive(s: StoreItem, qty: real, value: real, hpp: real): (r: StoreItem)
    ensures r.id == s.id && r.product == s.product && r.category == s.category
    ensures r.stockKg == s.stockKg + qty && r.totalValue == s.totalValue + value
    ensures r.stockKg > 0.0 ==> r.hppPerKg * r.stockKg == r.totalValue
    ensures r.stockKg <= 0.0 ==> r.hppPerKg == 0.0
    ensures s.sellPricePerKg > 0.0 ==> r.sellPricePerKg == s.sellPricePerKg
    ensures s.sellPricePerKg <= 0.0 ==> r.sellPricePerKg == hpp * 1.5
  {
    var stock := s.stockKg + qty;
    var total := s.totalValue + value;
    s.(stockKg := stock, totalValue := total, hppPerKg := AverageCost(total, stock),
       sellPricePerKg := if s.sellPricePerKg > 0.0 then s.sellPricePerKg else Markup(hpp))
  }

  /** Receiving `qty` at unit cost `hpp` into a record at rest leaves it at rest. */
  lemma ReceiveKeepsOk(s: StoreItem, qty: real, hpp: real)
    requires StoreItemOk(s) && qty >= 0.0 && hpp >= 0.0
    ensures StoreItemOk(Receive(s, qty, qty * hpp, hpp))
  {
    AccumulateKeepsOk(s.stockKg, s.hppPerKg, qty, hpp);
  }

  // ---------------------------------------------------------------------------
  // addManualStock

  /** The manual-stock form: productName, category, stock, hpp, sellPrice. */
  datatype ManualStock = ManualStock(product: string, category: string, stockKg: real,
                                     hppPerKg: real, sellPricePerKg: real)

  /** addManualStock: the first item of that name gets the form's stock, unit cost, sell price
      and category and a value of stock × cost; without one, such an item is appended. */
  function ManualStockAdded(ss: seq<StoreItem>, m: ManualStock, now: string): (r: seq<StoreItem>)
    ensures FindProduct(ss, m.product).Some? ==>
              var k := FindProduct(ss, m.product).value;
              && |r| == |ss|
              && r[k] == StoreItem(ss[k].id, m.product, m.category, m.stockKg, m.hppPerKg,
                                   m.sellPricePerKg, m.stockKg * m.hppPerKg)
              && forall j :: 0 <= j < |ss| && j != k ==> r[j] == ss[j]
    ensures FindProduct(ss, m.product).None? ==>
              r == ss + [StoreItem(StoreId(m.product, now), m.product, m.category, m.stockKg,
                                   m.hppPerKg, m.sellPricePerKg, m.stockKg * m.hppPerKg)]
  {
    var value := m.stockKg * m.hppPerKg;
    match FindProduct(ss, m.product)
    case Some(k) =>
      ss[k := ss[k].(stockKg := m.stockKg, hppPerKg := m.hppPerKg, sellPricePerKg := m.sellPricePerKg,
                     totalValue := value, category := m.category)]
    case None =>
      ss + [StoreItem(StoreId(m.product, now), m.product, m.category, m.stockKg, m.hppPerKg,
                      m.sellPricePerKg, value)]
  }

  /** After a manual entry the product is stocked with exactly the entered figures,
      whatever it held before. */
  lemma ManualStockOverwrites(ss: seq<StoreItem>, m: ManualStock, now: string)
    ensures var r := ManualStockAdded(ss, m, now);
            var k := FindProduct(r, m.product);
            && k.Some?
            && r[k.value].stockKg == m.stockKg && r[k.value].hppPerKg == m.hppPerKg
            && r[k.value].sellPricePerKg == m.sellPricePerKg
            && r[k.value].totalValue == m.stockKg * m.hppPerKg
  {
    var r := ManualStockAdded(ss, m, now);
    match FindProduct(ss, m.product)
    case Some(k) =>
      FindProductAt(r, k, m.product);
    case None =>
      FindProductAt(r, |ss|, m.product);
  }

  /** The first item carrying the name is the one FindProduct finds. */
  lemma FindProductAt(ss: seq<StoreItem>, k: nat, name: string)
    requires k < |ss| && ss[k].product == name
    requires forall j :: 0 <= j < k ==> ss[j].product != name
    ensures FindProduct(ss, name) == Some(k)
  {
  }

  /** A manual entry with non-negative stock and unit cost keeps the store at rest. */
  lemma ManualStockKeepsOk(ss: seq<StoreItem>, m: ManualStock, now: string)
    requires StoreOk(ss) && m.stockKg >= 0.0 && m.hppPerKg >= 0.0
    ensures StoreOk(ManualStockAdded(ss, m, now))
  {
  }

  // ---------------------------------------------------------------------------
  // updateStoreItem and deleteStoreItem

  /** The store-item edit form: itemId and the new name, category and sell price. */
  datatype StoreEdit = StoreEdit(id: string, product: string, category: string, sellPricePerKg: real)

  /** updateStoreItem: every item with the id takes the new name, category and sell price;
      its stock, unit cost and value, and every other item, stay. */
  function StoreItemUpdated(ss: seq<StoreItem>, e: StoreEdit): (r: seq<StoreItem>)
    ensures |r| == |ss|
    ensures forall j :: 0 <= j < |ss| && ss[j].id == e.id ==>
              && r[j].id == e.id && r[j].product == e.product && r[j].category == e.category
              && r[j].sellPricePerKg == e.sellPricePerKg
              && r[j].stockKg == ss[j].stockKg && r[j].hppPerKg == ss[j].hppPerKg
              && r[j].totalValue == ss[j].totalValue
    ensures forall j :: 0 <= j < |ss| && ss[j].id != e.id ==> r[j] == ss[j]
  {
    seq(|ss|, j requires 0 <= j < |ss| =>
      if ss[j].id == e.id
      then ss[j].(product := e.product, category := e.category, sellPricePerKg := e.sellPricePerKg)
      else ss[j])
  }

  /** An edit changes neither the stock nor the value held in the store. */
  lemma StoreItemUpdateKeepsTotals(ss: seq<StoreItem>, e: StoreEdit)
    ensures SumOf(StoreItemUpdated(ss, e), StoreStockOf) == SumOf(ss, StoreStockOf)
    ensures SumOf(StoreItemUpdated(ss, e), StoreValueOf) == SumOf(ss, StoreValueOf)
    ensures StoreOk(ss) ==> StoreOk(StoreItemUpdated(ss, e))
    decreases |ss|
  {
    if |ss| > 0 {
      StoreItemUpdateKeepsTotals(ss[1..], e);
      assert StoreItemUpdated(ss, e)[1..] == StoreItemUpdated(ss[1..], e);
    }
  }

  /** The items whose id differs (`filter(item => item.id !== id)`). */
  function RemoveStoreItem(ss: seq<StoreItem>, id: string): (r: seq<StoreItem>)
    ensures forall s :: s in r <==> s in ss && s.id != id
    ensures (forall j :: 0 <= j < |ss| ==> ss[j].id != id) ==> r == ss
  {
    if |ss| == 0 then []
    else if ss[0].id != id then [ss[0]] + RemoveStoreItem(ss[1..], id)
    else RemoveStoreItem(ss[1..], id)
  }

  lemma {:induction false} RemoveStoreItemAppend(a: seq<StoreItem>, b: seq<StoreItem>, id: string)
    ensures RemoveStoreItem(a + b, id) == RemoveStoreItem(a, id) + RemoveStoreItem(b, id)
  {
    if |a| == 0 {
      assert a + b == b;
    } else {
      assert (a + b)[1..] == a[1..] + b;
      RemoveStoreItemAppend(a[1..], b, id);
    }
  }

  /** deleteStoreItem: fails when no item has the id or the first one with it still holds
      stock; otherwise drops every item with the id. */
  function StoreItemDeleted(ss: seq<StoreItem>, id: string): (r: Result<seq<StoreItem>>)
    ensures FindStoreId(ss, id).None? ==> r == Failure(StoreItemNotFound)
    ensures FindStoreId(ss, id).Some? ==>
              (r == Failure(StockNotZero) <==> ss[FindStoreId(ss, id).value].stockKg > 0.0)
    ensures r.Success? ==> forall s :: s in r.value <==> s in ss && s.id != id
    ensures r.Success? ==> r.value == RemoveStoreItem(ss, id)
  {
    match FindStoreId(ss, id)
    case None => Failure(StoreItemNotFound)
    case Some(k) =>
      if ss[k].stockKg > 0.0 then Failure(StockNotZero) else Success(RemoveStoreItem(ss, id))
  }

  /** Deleting an empty item loses no stock and, when every item with the id is empty and
      at rest, no value either; the store stays at rest. */
  lemma {:induction false} RemoveKeepsTotals(ss: seq<StoreItem>, id: string)
    requires StoreOk(ss)
    requires forall j :: 0 <= j < |ss| && ss[j].id == id ==> ss[j].stockKg <= 0.0
    ensures SumOf(RemoveStoreItem(ss, id), StoreStockOf) == SumOf(ss, StoreStockOf)
    ensures SumOf(RemoveStoreItem(ss, id), StoreValueOf) == SumOf(ss, StoreValueOf)
    ensures StoreOk(RemoveStoreItem(ss, id))
  {
    if |ss| > 0 {
      assert StoreItemOk(ss[0]);
      assert StoreOk(ss[1..]) by {
        forall j | 0 <= j < |ss[1..]| ensures StoreItemOk(ss[1..][j]) {
          assert ss[1..][j] == ss[j + 1];
        }
      }
      RemoveKeepsTotals(ss[1..], id);
      if ss[0].id == id {
        assert ss[0].stockKg == 0.0;
      } else {
        var rest := RemoveStoreItem(ss[1..], id);
        assert RemoveStoreItem(ss, id) == [ss[0]] + rest;
        assert ([ss[0]] + rest)[1..] == rest;
      }
    }
  }
}
