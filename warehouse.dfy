/** The green-bean warehouse: weighted-average purchase intake (`applyItemsToWarehouse`),
    the clamped reversal (`revertItemsFromWarehouse`, which nothing in the source calls)
    and the rebuild of the whole warehouse from a list of purchase invoices that purchase
    update and delete perform (src/lib/actions.ts). */
module Warehouse {
  import opened Definitions
  import opened Seqs

  /** Id of a record created by intake: "wh-<name>-<now>". */
  function WarehouseId(name: string, now: string): string
  {
    "wh-" + name + "-" + now
  }

  /** Index of the first record of the green bean `name`. */
  function FindBean(ws: seq<WarehouseItem>, name: string): (r: Option<nat>)
    ensures r.Some? ==> r.value < |ws| && ws[r.value].beanName == name
    ensures r.Some? ==> forall j :: 0 <= j < r.value ==> ws[j].beanName != name
    ensures r.None? <==> forall j :: 0 <= j < |ws| ==> ws[j].beanName != name
  {
    if |ws| == 0 then None
    else if ws[0].beanName == name then Some(0)
    else match FindBean(ws[1..], name)
      case None => None
      case Some(i) => Some(i + 1)
  }

  function LineQty(item: PurchaseItem): real
  {
    item.qty
  }

  /** Value of one purchase line, qty × price. */
  function LineValue(item: PurchaseItem): real
  {
    item.qty * item.price
  }

  function StockOf(w: WarehouseItem): real
  {
    w.stockKg
  }

  function ValueOf(w: WarehouseItem): real
  {
    w.totalValue
  }

  /** The record of a bean already held, after `item` is bought at its price: stock and
      value grow by the line's quantity and value, the average cost is the new value over the
      new stock (0 when that is not positive), and Last_Update becomes the invoice date. */
  function Accumulate(w: WarehouseItem, item: PurchaseItem, date: string): (r: WarehouseItem)
    ensures r.id == w.id && r.beanName == w.beanName && r.lastUpdate == date
    ensures r.stockKg == w.stockKg + item.qty
    ensures r.totalValue == w.totalValue + item.qty * item.price
    ensures r.stockKg > 0.0 ==> r.avgHpp * r.stockKg == r.totalValue
    ensures r.stockKg <= 0.0 ==> r.avgHpp == 0.0
  {
    var stock := w.stockKg + item.qty;
    var value := w.totalValue + LineValue(item);
    w.(stockKg := stock, totalValue := value, avgHpp := AverageCost(value, stock), lastUpdate := date)
  }

  /** The record intake creates for a bean not yet held: the line's quantity at its price. */
  function NewBeanRecord(item: PurchaseItem, date: string, now: string): WarehouseItem
  {
    WarehouseItem(WarehouseId(item.name, now), item.name, item.qty, item.price, LineValue(item), date)
  }

  /** One purchase line taken into the warehouse: the first record of the bean accumulates it,
      or a new record is appended. */
  function Intake(ws: seq<WarehouseItem>, item: PurchaseItem, date: string, now: string)
    : seq<WarehouseItem>
  {
    match FindBean(ws, item.name)
    case Some(k) => ws[k := Accumulate(ws[k], item, date)]
    case None => ws + [NewBeanRecord(item, date, now)]
  }

  /** Intake of every line of one invoice, in order. */
  function ApplyItems(ws: seq<WarehouseItem>, items: seq<PurchaseItem>, date: string, now: string)
    : seq<WarehouseItem>
    decreases |items|
  {
    if |items| == 0 then ws
    else ApplyItems(Intake(ws, items[0], date, now), items[1..], date, now)
  }

  /** The source's loop: each line overwrites the fields of the bean's record in place,
      or appends a new record for a bean not yet in the warehouse. */
  method ApplyItemsToWarehouse(warehouse: seq<WarehouseItem>, items: seq<PurchaseItem>,
                               date: string, now: string)
    returns (ws: seq<WarehouseItem>)
    ensures ws == ApplyItems(warehouse, items, date, now)
  {
    ws := warehouse;
    var i := 0;
    while i < |items|
      invariant 0 <= i <= |items|
      invariant ApplyItems(ws, items[i..], date, now) == ApplyItems(warehouse, items, date, now)
    {
      ApplyItemsStep(ws, items, i, date, now);
      ws := IntakeLine(ws, items[i], date, now);
      i := i + 1;
    }
  }

  /** The body of the loop above for one line. */
  method IntakeLine(ws: seq<WarehouseItem>, item: PurchaseItem, date: string, now: string)
    returns (r: seq<WarehouseItem>)
    ensures r == Intake(ws, item, date, now)
  {
    var found := FindBean(ws, item.name);
    var totalValueItem := LineValue(item);
    if found.Some? {
      var k := found.value;
      var newStock := ws[k].stockKg + item.qty;
      var newTotalValue := ws[k].totalValue + totalValueItem;
      var updated := ws[k].(stockKg := newStock, totalValue := newTotalValue,
                            avgHpp := AverageCost(newTotalValue, newStock),
                            lastUpdate := date);
      AccumulateInPlace(ws[k], item, date);
      r := ws[k := updated];
    } else {
      r := ws + [WarehouseItem(WarehouseId(item.name, now), item.name, item.qty, item.price,
                               totalValueItem, date)];
    }
  }

  /** One more line of the loop above: the rest of the lines after the intake of line i. */
  lemma ApplyItemsStep(ws: seq<WarehouseItem>, items: seq<PurchaseItem>, i: nat, date: string, now: string)
    requires i < |items|
    ensures ApplyItems(ws, items[i..], date, now)
            == ApplyItems(Intake(ws, items[i], date, now), items[i + 1..], date, now)
  {
    assert items[i..][1..] == items[i + 1..];
  }

  /** Accumulate, field by field as the loop above writes it. */
  lemma AccumulateInPlace(w: WarehouseItem, item: PurchaseItem, date: string)
    ensures var stock := w.stockKg + item.qty;
            var value := w.totalValue + LineValue(item);
            Accumulate(w, item, date)
            == w.(stockKg := stock, totalValue := value, avgHpp := AverageCost(value, stock), lastUpdate := date)
  {
  }

  /** max(0, x): the reversal never leaves a negative figure. */
  function Clamp(x: real): (r: real)
    ensures r >= 0.0 && r >= x
    ensures x >= 0.0 ==> r == x
  {
    if x < 0.0 then 0.0 else x
  }

  /** A record after `item` is taken back out: stock and value drop by the line's quantity
      and value but never below 0, and the average cost is recomputed from them;
      id, name and Last_Update stay. */
  function Deduct(w: WarehouseItem, item: PurchaseItem): (r: WarehouseItem)
    ensures r.id == w.id && r.beanName == w.beanName && r.lastUpdate == w.lastUpdate
    ensures r.stockKg == Clamp(w.stockKg - item.qty)
    ensures r.totalValue == Clamp(w.totalValue - item.qty * item.price)
    ensures r.stockKg > 0.0 ==> r.avgHpp * r.stockKg == r.totalValue
    ensures r.stockKg == 0.0 ==> r.avgHpp == 0.0
  {
    var stock := Clamp(w.stockKg - item.qty);
    var value := Clamp(w.totalValue - LineValue(item));
    w.(stockKg := stock, totalValue := value, avgHpp := AverageCost(value, stock))
  }

  /** One purchase line taken back out of the warehouse; an unknown bean is skipped. */
  function Revert(ws: seq<WarehouseItem>, item: PurchaseItem): seq<WarehouseItem>
  {
    match FindBean(ws, item.name)
    case None => ws
    case Some(k) => ws[k := Deduct(ws[k], item)]
  }

  function RevertItems(ws: seq<WarehouseItem>, items: seq<PurchaseItem>): seq<WarehouseItem>
    decreases |items|
  {
    if |items| == 0 then ws else RevertItems(Revert(ws, items[0]), items[1..])
  }

  /** Reverting an invoice keeps the records, their ids, names and dates, and never leaves
      a negative stock or value behind when there was none. */
  lemma {:induction false} RevertItemsShape(ws: seq<WarehouseItem>, items: seq<PurchaseItem>)
    ensures |RevertItems(ws, items)| == |ws|
    ensures forall j :: 0 <= j < |ws| ==>
              && RevertItems(ws, items)[j].id == ws[j].id
              && RevertItems(ws, items)[j].beanName == ws[j].beanName
              && RevertItems(ws, items)[j].lastUpdate == ws[j].lastUpdate
    ensures (forall j :: 0 <= j < |ws| ==> ws[j].stockKg >= 0.0 && ws[j].totalValue >= 0.0) ==>
              forall j :: 0 <= j < |ws| ==>
                RevertItems(ws, items)[j].stockKg >= 0.0 && RevertItems(ws, items)[j].totalValue >= 0.0
    decreases |items|
  {
    if |items| > 0 {
      RevertItemsShape(Revert(ws, items[0]), items[1..]);
    }
  }

  method RevertItemsFromWarehouse(warehouse: seq<WarehouseItem>, items: seq<PurchaseItem>)
    returns (ws: seq<WarehouseItem>)
    ensures ws == RevertItems(warehouse, items)
  {
    ws := warehouse;
    var i := 0;
    while i < |items|
      invariant 0 <= i <= |items|
      invariant RevertItems(ws, items[i..]) == RevertItems(warehouse, items)
    {
      var item := items[i];
      assert items[i..][1..] == items[i + 1..];
      ghost var before := ws;
      var found := FindBean(ws, item.name);
      if found.Some? {
        var k := found.value;
        var totalValueItem := LineValue(item);
        var revertedStock := ws[k].stockKg - item.qty;
        var revertedTotalValue := ws[k].totalValue - totalValueItem;
        var stock := if revertedStock < 0.0 then 0.0 else revertedStock;
        var value := if revertedTotalValue < 0.0 then 0.0 else revertedTotalValue;
        ws := ws[k := ws[k].(stockKg := stock, totalValue := value,
                             avgHpp := AverageCost(value, stock))];
      }
      assert ws == Revert(before, item);
      i := i + 1;
    }
  }

  /** Intake of the invoices' lines, invoice by invoice in list order. */
  function RebuildFrom(ws: seq<WarehouseItem>, invoices: seq<PurchaseInvoice>, now: string)
    : seq<WarehouseItem>
    decreases |invoices|
  {
    if |invoices| == 0 then ws
    else RebuildFrom(ApplyItems(ws, invoices[0].items, invoices[0].date, now), invoices[1..], now)
  }

  /** The warehouse recomputed from an empty one and the invoice list alone. */
  function Rebuild(invoices: seq<PurchaseInvoice>, now: string): seq<WarehouseItem>
  {
    RebuildFrom([], invoices, now)
  }

  method RebuildWarehouse(invoices: seq<PurchaseInvoice>, now: string)
    returns (ws: seq<WarehouseItem>)
    ensures ws == Rebuild(invoices, now)
  {
    ws := [];
    var i := 0;
    while i < |invoices|
      invariant 0 <= i <= |invoices|
      invariant RebuildFrom(ws, invoices[i..], now) == Rebuild(invoices, now)
    {
      assert invoices[i..][1..] == invoices[i + 1..];
      ws := ApplyItemsToWarehouse(ws, invoices[i].items, invoices[i].date, now);
      i := i + 1;
    }
  }

  // ---------------------------------------------------------------------------
  // Properties

  /** Purchase lines as the purchase form admits them: non-negative quantity and price. */
  ghost predicate ItemsOk(items: seq<PurchaseItem>)
  {
    forall i :: 0 <= i < |items| ==> items[i].qty >= 0.0 && items[i].price >= 0.0
  }

  ghost predicate InvoicesOk(invoices: seq<PurchaseInvoice>)
  {
    forall i :: 0 <= i < |invoices| ==> ItemsOk(invoices[i].items)
  }

  /** Intake keeps every record at rest: value = stock × average cost, nothing negative. */
  lemma IntakeKeepsOk(ws: seq<WarehouseItem>, item: PurchaseItem, date: string, now: string)
    requires WarehouseOk(ws) && item.qty >= 0.0 && item.price >= 0.0
    ensures WarehouseOk(Intake(ws, item, date, now))
  {
    match FindBean(ws, item.name)
    case None =>
      ProductNonNegative(item.qty, item.price);
      WarehouseOkAppend(ws, NewBeanRecord(item, date, now));
    case Some(k) =>
      var w := ws[k];
      assert WarehouseItemOk(w);
      AccumulateOk(w, item, date);
      WarehouseOkUpdate(ws, k, Accumulate(w, item, date));
  }

  /** A record at rest that takes in a line with non-negative quantity and price stays at rest. */
  lemma AccumulateOk(w: WarehouseItem, item: PurchaseItem, date: string)
    requires WarehouseItemOk(w) && item.qty >= 0.0 && item.price >= 0.0
    ensures WarehouseItemOk(Accumulate(w, item, date))
  {
    AccumulateKeepsOk(w.stockKg, w.avgHpp, item.qty, item.price);
  }

  lemma {:induction false} ApplyItemsKeepsOk(ws: seq<WarehouseItem>, items: seq<PurchaseItem>,
                                             date: string, now: string)
    requires WarehouseOk(ws) && ItemsOk(items)
    ensures WarehouseOk(ApplyItems(ws, items, date, now))
    decreases |items|
  {
    if |items| > 0 {
      IntakeKeepsOk(ws, items[0], date, now);
      ApplyItemsKeepsOk(Intake(ws, items[0], date, now), items[1..], date, now);
    }
  }

  lemma {:induction false} RebuildFromKeepsOk(ws: seq<WarehouseItem>, invoices: seq<PurchaseInvoice>,
                                              now: string)
    requires WarehouseOk(ws) && InvoicesOk(invoices)
    ensures WarehouseOk(RebuildFrom(ws, invoices, now))
    decreases |invoices|
  {
    if |invoices| > 0 {
      ApplyItemsKeepsOk(ws, invoices[0].items, invoices[0].date, now);
      RebuildFromKeepsOk(ApplyItems(ws, invoices[0].items, invoices[0].date, now),
                         invoices[1..], now);
    }
  }

  /** A rebuilt warehouse satisfies the stock invariant whatever it replaced. */
  lemma RebuildOk(invoices: seq<PurchaseInvoice>, now: string)
    requires InvoicesOk(invoices)
    ensures WarehouseOk(Rebuild(invoices, now))
  {
    RebuildFromKeepsOk([], invoices, now);
  }

  /** Intake puts exactly the invoice's quantity and value into the warehouse. */
  lemma IntakeTotals(ws: seq<WarehouseItem>, item: PurchaseItem, date: string, now: string)
    ensures SumOf(Intake(ws, item, date, now), StockOf) == SumOf(ws, StockOf) + item.qty
    ensures SumOf(Intake(ws, item, date, now), ValueOf) == SumOf(ws, ValueOf) + LineValue(item)
  {
    var r := Intake(ws, item, date, now);
    match FindBean(ws, item.name)
    case None =>
      var w := WarehouseItem(WarehouseId(item.name, now), item.name, item.qty, item.price,
                             item.qty * item.price, date);
      SumAppend(ws, [w], StockOf);
      SumAppend(ws, [w], ValueOf);
      assert SumOf([w], StockOf) == item.qty;
      assert SumOf([w], ValueOf) == LineValue(item);
    case Some(k) =>
      assert r == ws[k := r[k]];
      SumUpdate(ws, k, r[k], StockOf);
      SumUpdate(ws, k, r[k], ValueOf);
  }

  lemma {:induction false} ApplyItemsTotals(ws: seq<WarehouseItem>, items: seq<PurchaseItem>,
                                            date: string, now: string)
    ensures SumOf(ApplyItems(ws, items, date, now), StockOf)
         == SumOf(ws, StockOf) + SumOf(items, LineQty)
    ensures SumOf(ApplyItems(ws, items, date, now), ValueOf)
         == SumOf(ws, ValueOf) + SumOf(items, LineValue)
    decreases |items|
  {
    if |items| > 0 {
      IntakeTotals(ws, items[0], date, now);
      ApplyItemsTotals(Intake(ws, items[0], date, now), items[1..], date, now);
    }
  }

  /** The warehouse without its generated record ids. */
  function WithoutIds(ws: seq<WarehouseItem>): (r: seq<WarehouseItem>)
    ensures |r| == |ws|
    ensures forall i :: 0 <= i < |ws| ==> r[i] == ws[i].(id := "")
  {
    seq(|ws|, i requires 0 <= i < |ws| => ws[i].(id := ""))
  }

  lemma {:induction false} FindBeanIgnoresIds(ws1: seq<WarehouseItem>, ws2: seq<WarehouseItem>, name: string)
    requires WithoutIds(ws1) == WithoutIds(ws2)
    ensures FindBean(ws1, name) == FindBean(ws2, name)
    decreases |ws1|
  {
    if |ws1| > 0 {
      assert WithoutIds(ws1)[0] == WithoutIds(ws2)[0];
      WithoutIdsTail(ws1);
      WithoutIdsTail(ws2);
      FindBeanIgnoresIds(ws1[1..], ws2[1..], name);
    }
  }

  lemma WithoutIdsTail(ws: seq<WarehouseItem>)
    requires |ws| > 0
    ensures WithoutIds(ws[1..]) == WithoutIds(ws)[1..]
  {
  }

  lemma WithoutIdsUpdate(ws: seq<WarehouseItem>, k: nat, w: WarehouseItem)
    requires k < |ws|
    ensures WithoutIds(ws[k := w]) == WithoutIds(ws)[k := w.(id := "")]
  {
  }

  lemma WithoutIdsAppend(ws: seq<WarehouseItem>, w: WarehouseItem)
    ensures WithoutIds(ws + [w]) == WithoutIds(ws) + [w.(id := "")]
  {
    assert forall i :: 0 <= i < |ws| ==> (ws + [w])[i] == ws[i];
  }

  lemma AccumulateIgnoresId(w1: WarehouseItem, w2: WarehouseItem, item: PurchaseItem, date: string)
    requires w1.(id := "") == w2.(id := "")
    ensures Accumulate(w1, item, date).(id := "") == Accumulate(w2, item, date).(id := "")
  {
    assert w1.stockKg == w2.stockKg && w1.totalValue == w2.totalValue;
  }

  /** The clock reading only reaches the ids of the records intake creates. */
  lemma IntakeIgnoresIds(ws1: seq<WarehouseItem>, ws2: seq<WarehouseItem>, item: PurchaseItem,
                         date: string, now1: string, now2: string)
    requires WithoutIds(ws1) == WithoutIds(ws2)
    ensures WithoutIds(Intake(ws1, item, date, now1)) == WithoutIds(Intake(ws2, item, date, now2))
  {
    FindBeanIgnoresIds(ws1, ws2, item.name);
    match FindBean(ws1, item.name)
    case None =>
      WithoutIdsAppend(ws1, NewBeanRecord(item, date, now1));
      WithoutIdsAppend(ws2, NewBeanRecord(item, date, now2));
    case Some(k) =>
      assert WithoutIds(ws1)[k] == WithoutIds(ws2)[k];
      AccumulateIgnoresId(ws1[k], ws2[k], item, date);
      WithoutIdsUpdate(ws1, k, Accumulate(ws1[k], item, date));
      WithoutIdsUpdate(ws2, k, Accumulate(ws2[k], item, date));
  }

  lemma {:induction false} ApplyItemsIgnoresIds(ws1: seq<WarehouseItem>, ws2: seq<WarehouseItem>,
                                                items: seq<PurchaseItem>, date: string,
                                                now1: string, now2: string)
    requires WithoutIds(ws1) == WithoutIds(ws2)
    ensures WithoutIds(ApplyItems(ws1, items, date, now1))
         == WithoutIds(ApplyItems(ws2, items, date, now2))
    decreases |items|
  {
    if |items| > 0 {
      IntakeIgnoresIds(ws1, ws2, items[0], date, now1, now2);
      ApplyItemsIgnoresIds(Intake(ws1, items[0], date, now1), Intake(ws2, items[0], date, now2),
                           items[1..], date, now1, now2);
    }
  }

  lemma {:induction false} RebuildFromIgnoresIds(ws1: seq<WarehouseItem>, ws2: seq<WarehouseItem>,
                                                 invoices: seq<PurchaseInvoice>,
                                                 now1: string, now2: string)
    requires WithoutIds(ws1) == WithoutIds(ws2)
    ensures WithoutIds(RebuildFrom(ws1, invoices, now1)) == WithoutIds(RebuildFrom(ws2, invoices, now2))
    decreases |invoices|
  {
    if |invoices| > 0 {
      var inv := invoices[0];
      ApplyItemsIgnoresIds(ws1, ws2, inv.items, inv.date, now1, now2);
      RebuildFromIgnoresIds(ApplyItems(ws1, inv.items, inv.date, now1),
                            ApplyItems(ws2, inv.items, inv.date, now2), invoices[1..], now1, now2);
    }
  }

  /** Rebuilding the same invoice list twice gives the same stock, whenever it is done. */
  lemma RebuildIsDeterministic(invoices: seq<PurchaseInvoice>, now1: string, now2: string)
    ensures WithoutIds(Rebuild(invoices, now1)) == WithoutIds(Rebuild(invoices, now2))
  {
    RebuildFromIgnoresIds([], [], invoices, now1, now2);
  }

  /** A record at rest holding positive stock has average cost value / stock. */
  lemma AverageOfRestingRecord(w: WarehouseItem)
    requires WarehouseItemOk(w) && w.stockKg > 0.0
    ensures AverageCost(w.totalValue, w.stockKg) == w.avgHpp
  {
    var c := AverageCost(w.totalValue, w.stockKg);
    assert c * w.stockKg == w.avgHpp * w.stockKg;
  }

  /** Taking back out the line just bought restores a record at rest with positive stock,
      all but its Last_Update. */
  lemma DeductUndoesAccumulate(w: WarehouseItem, item: PurchaseItem, date: string)
    requires WarehouseItemOk(w) && w.stockKg > 0.0
    requires item.qty >= 0.0 && item.price >= 0.0
    ensures Deduct(Accumulate(w, item, date), item) == w.(lastUpdate := date)
  {
    var a := Accumulate(w, item, date);
    var d := Deduct(a, item);
    assert w.totalValue >= 0.0;
    assert d.stockKg == w.stockKg;
    assert d.totalValue == w.totalValue;
    AverageOfRestingRecord(w);
  }

  /** Reverting a line just taken in restores the bean's stock, value and average cost,
      provided the bean was already held with positive stock. */
  lemma RevertUndoesIntake(ws: seq<WarehouseItem>, item: PurchaseItem, date: string, now: string)
    requires FindBean(ws, item.name).Some?
    requires WarehouseItemOk(ws[FindBean(ws, item.name).value])
    requires ws[FindBean(ws, item.name).value].stockKg > 0.0
    requires item.qty >= 0.0 && item.price >= 0.0
    ensures var k := FindBean(ws, item.name).value;
            Revert(Intake(ws, item, date, now), item) == ws[k := ws[k].(lastUpdate := date)]
  {
    var k := FindBean(ws, item.name).value;
    var mid := Intake(ws, item, date, now);
    assert mid == ws[k := Accumulate(ws[k], item, date)];
    assert mid[k].beanName == item.name;
    assert forall j :: 0 <= j < k ==> mid[j] == ws[j];
    assert FindBean(mid, item.name) == Some(k);
    DeductUndoesAccumulate(ws[k], item, date);
  }

  /** The reversal does not undo the intake of a bean the warehouse did not hold:
      a zero record for it remains, which a rebuild would not create. */
  lemma RevertLeavesEmptyRecord(ws: seq<WarehouseItem>, item: PurchaseItem, date: string, now: string)
    requires FindBean(ws, item.name).None?
    ensures var r := Revert(Intake(ws, item, date, now), item);
            && |r| == |ws| + 1 && r[..|ws|] == ws
            && r[|ws|].beanName == item.name
            && r[|ws|].stockKg == 0.0 && r[|ws|].totalValue == 0.0 && r[|ws|].avgHpp == 0.0
  {
    var mid := Intake(ws, item, date, now);
    assert mid[|ws|].beanName == item.name;
    assert FindBean(mid, item.name) == Some(|ws|);
  }
}
