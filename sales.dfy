/** Sales (createSale, src/lib/actions.ts): the invoice is recorded, each line takes its
    quantity out of the store item of its name at that item's unit cost, and the ledger
    receives a revenue debit when the invoice is paid and a cost-of-goods credit when there
    is any cost. Both entries go to the account "cash", whatever account was paid into. */
module Sales {
  import opened Definitions
  import opened Seqs
  import opened Store

  /** The sales form: invoiceNumber, customerName, date, dueDate, paymentStatus, lines. */
  datatype SaleForm = SaleForm(number: string, customer: string, date: string, dueDate: string,
                               status: PaymentStatus, items: seq<SalesItem>)

  function SaleQty(item: SalesItem): real
  {
    item.qty
  }

  function SaleLineValue(item: SalesItem): real
  {
    item.qty * item.price
  }

  /** Total_Invoice: Σ qty × price over the lines. */
  function SaleTotal(items: seq<SalesItem>): real
  {
    SumOf(items, SaleLineValue)
  }

  predicate IsPaid(status: PaymentStatus)
  {
    status == Paid || status == Lunas
  }

  /** The store and the cost of goods sold so far. */
  datatype Sold = Sold(store: seq<StoreItem>, cogs: real)

  /** A store item after `qty` is sold: stock drops by it and the value is recomputed at the
      unchanged unit cost. */
  function Deplete(s: StoreItem, qty: real): StoreItem
  {
    var stock := s.stockKg - qty;
    s.(stockKg := stock, totalValue := stock * s.hppPerKg)
  }

  /** Cost of one line at the unit cost of the store item it is sold from. */
  function LineCost(s: StoreItem, qty: real): real
  {
    qty * s.hppPerKg
  }

  /** The lines taken out of the store one after the other; the first line whose product is
      missing or short of stock fails the whole sale. */
  function SellAll(ss: seq<StoreItem>, items: seq<SalesItem>, cogs: real): Result<Sold>
    decreases |items|
  {
    if |items| == 0 then Success(Sold(ss, cogs))
    else
      var item := items[0];
      match FindProduct(ss, item.name)
      case None => Failure(ProductNotFound(item.name))
      case Some(k) =>
        if ss[k].stockKg < item.qty then Failure(InsufficientStoreStock(item.name))
        else SellAll(ss[k := Deplete(ss[k], item.qty)], items[1..], cogs + LineCost(ss[k], item.qty))
  }

  function SaleInvoiceOf(form: SaleForm, now: string): SalesInvoice
  {
    SalesInvoice("sale-" + now, form.number, form.customer, form.date, form.dueDate,
                 SaleTotal(form.items), form.status, form.items)
  }

  /** Revenue entry: a debit of the invoice total to "cash". */
  function RevenueEntry(form: SaleForm, now: string): Transaction
  {
    Transaction("trx-" + now + "-sale", form.date, "Penjualan kepada " + form.customer, form.number,
                SalesRevenue, SaleTotal(form.items), 0.0, "cash")
  }

  /** Cost-of-goods entry: a credit of the cost to "cash". */
  function CogsEntry(form: SaleForm, cogs: real, now: string): Transaction
  {
    Transaction("trx-" + now + "-cogs", form.date, "Beban Pokok Penjualan untuk " + form.number,
                form.number, CostOfGoodsSold, 0.0, cogs, "cash")
  }

  function SaleEntries(form: SaleForm, cogs: real, now: string): seq<Transaction>
  {
    (if IsPaid(form.status) then [RevenueEntry(form, now)] else [])
    + (if cogs > 0.0 then [CogsEntry(form, cogs, now)] else [])
  }

  /** createSale: fails as the lines do; otherwise the invoice is appended, the store is the
      one the lines leave, the ledger grows by the sale's entries, and nothing else changes. */
  function SaleMade(db: Snapshot, form: SaleForm, now: string): (r: Result<Snapshot>)
    ensures r.Failure? <==> SellAll(db.storeInventory, form.items, 0.0).Failure?
    ensures r.Success? ==> r.value == db.(salesInvoices := db.salesInvoices + [SaleInvoiceOf(form, now)],
                                          storeInventory := r.value.storeInventory,
                                          transactions := r.value.transactions)
    ensures r.Success? ==> |r.value.storeInventory| == |db.storeInventory|
    ensures r.Success? ==> forall j :: 0 <= j < |db.storeInventory| ==>
              r.value.storeInventory[j] == AfterSaleAt(db.storeInventory, form.items, j)
  {
    match SellAll(db.storeInventory, form.items, 0.0)
    case Failure(e) => Failure(e)
    case Success(sold) =>
      SellAllStore(db.storeInventory, form.items, 0.0);
      Success(db.(salesInvoices := db.salesInvoices + [SaleInvoiceOf(form, now)],
                  storeInventory := sold.store,
                  transactions := db.transactions + SaleEntries(form, sold.cogs, now)))
  }

  /** The source's loop: each line overwrites the store record it sells from and adds its
      cost to the running total; a missing product or short stock aborts the sale. */
  method CreateSale(db: Snapshot, form: SaleForm, now: string) returns (r: Result<Snapshot>)
    ensures r == SaleMade(db, form, now)
  {
    var items := form.items;
    var revenue := if IsPaid(form.status) then [RevenueEntry(form, now)] else [];
    var store := db.storeInventory;
    var totalCogs := 0.0;
    var i := 0;
    while i < |items|
      invariant 0 <= i <= |items|
      invariant SellAll(store, items[i..], totalCogs) == SellAll(db.storeInventory, items, 0.0)
    {
      SellAllStep(store, items, i, totalCogs);
      var step := SellLine(store, items[i], totalCogs);
      if step.Failure? {
        return Failure(step.error);
      }
      store, totalCogs := step.value.store, step.value.cogs;
      i := i + 1;
    }
    assert items[i..] == [];
    var cogsEntries := if totalCogs > 0.0 then [CogsEntry(form, totalCogs, now)] else [];
    assert revenue + cogsEntries == SaleEntries(form, totalCogs, now);
    r := Success(db.(salesInvoices := db.salesInvoices + [SaleInvoiceOf(form, now)],
                     storeInventory := store,
                     transactions := db.transactions + (revenue + cogsEntries)));
  }

  /** One pass of the source's loop: find the line's store item, check its stock, add the
      line's cost and overwrite the item. */
  method SellLine(store: seq<StoreItem>, item: SalesItem, cogs: real) returns (r: Result<Sold>)
    ensures r == SellOne(store, item, cogs)
  {
    var storeItemIndex := FindProduct(store, item.name);
    if storeItemIndex.None? {
      return Failure(ProductNotFound(item.name));
    }
    var k := storeItemIndex.value;
    if store[k].stockKg < item.qty {
      return Failure(InsufficientStoreStock(item.name));
    }
    r := Success(Sold(store[k := Deplete(store[k], item.qty)], cogs + LineCost(store[k], item.qty)));
  }

  /** The sale of one line, as SellAll takes it. */
  function SellOne(ss: seq<StoreItem>, item: SalesItem, cogs: real): Result<Sold>
  {
    match FindProduct(ss, item.name)
    case None => Failure(ProductNotFound(item.name))
    case Some(k) =>
      if ss[k].stockKg < item.qty then Failure(InsufficientStoreStock(item.name))
      else Success(Sold(ss[k := Deplete(ss[k], item.qty)], cogs + LineCost(ss[k], item.qty)))
  }

  /** SellAll from line i on is the sale of line i followed by the rest. */
  lemma SellAllStep(ss: seq<StoreItem>, items: seq<SalesItem>, i: nat, cogs: real)
    requires i < |items|
    ensures SellAll(ss, items[i..], cogs)
            == match SellOne(ss, items[i], cogs)
               case Failure(e) => Failure(e)
               case Success(d) => SellAll(d.store, items[i + 1..], d.cogs)
  {
    assert items[i..][1..] == items[i + 1..];
    assert items[i..][0] == items[i];
    SellAllHead(ss, items[i..], cogs);
  }

  // ---------------------------------------------------------------------------
  // Properties

  /** Lines naming pairwise different products. */
  ghost predicate DistinctNames(items: seq<SalesItem>)
  {
    forall i, j :: 0 <= i < j < |items| ==> items[i].name != items[j].name
  }

  /** Every line's product is in the store with at least the line's quantity. */
  ghost predicate Available(ss: seq<StoreItem>, items: seq<SalesItem>)
  {
    forall i :: 0 <= i < |items| ==>
      FindProduct(ss, items[i].name).Some? &&
      ss[FindProduct(ss, items[i].name).value].stockKg >= items[i].qty
  }

  /** Replacing a record by one of the same name leaves every search by name unchanged. */
  lemma FindProductSameName(ss: seq<StoreItem>, k: nat, x: StoreItem, name: string)
    requires k < |ss| && x.product == ss[k].product
    ensures FindProduct(ss[k := x], name) == FindProduct(ss, name)
  {
    var t := ss[k := x];
    assert forall j :: 0 <= j < |ss| ==> t[j].product == ss[j].product;
  }

  lemma AvailableCons(ss: seq<StoreItem>, items: seq<SalesItem>)
    requires |items| > 0
    ensures Available(ss, items) <==>
              && FindProduct(ss, items[0].name).Some?
              && ss[FindProduct(ss, items[0].name).value].stockKg >= items[0].qty
              && Available(ss, items[1..])
  {
    var rest := items[1..];
    if Available(ss, rest) && FindProduct(ss, items[0].name).Some?
       && ss[FindProduct(ss, items[0].name).value].stockKg >= items[0].qty {
      forall i | 0 <= i < |items|
        ensures FindProduct(ss, items[i].name).Some? &&
                ss[FindProduct(ss, items[i].name).value].stockKg >= items[i].qty
      {
        if i > 0 {
          assert items[i] == rest[i - 1];
        }
      }
    }
    if Available(ss, items) {
      forall i | 0 <= i < |rest|
        ensures FindProduct(ss, rest[i].name).Some? &&
                ss[FindProduct(ss, rest[i].name).value].stockKg >= rest[i].qty
      {
        assert rest[i] == items[i + 1];
      }
    }
  }

  /** Selling from one record does not change what is available for lines naming other
      products. */
  lemma AvailableAfterDeplete(ss: seq<StoreItem>, k: nat, qty: real, rest: seq<SalesItem>)
    requires k < |ss|
    requires forall i :: 0 <= i < |rest| ==> rest[i].name != ss[k].product
    ensures Available(ss[k := Deplete(ss[k], qty)], rest) <==> Available(ss, rest)
  {
    var t := ss[k := Deplete(ss[k], qty)];
    forall i | 0 <= i < |rest|
      ensures FindProduct(t, rest[i].name) == FindProduct(ss, rest[i].name)
      ensures FindProduct(ss, rest[i].name).Some? ==>
                t[FindProduct(ss, rest[i].name).value] == ss[FindProduct(ss, rest[i].name).value]
    {
      FindProductSameName(ss, k, Deplete(ss[k], qty), rest[i].name);
    }
  }

  lemma DistinctTail(items: seq<SalesItem>)
    requires |items| > 0 && DistinctNames(items)
    ensures DistinctNames(items[1..])
    ensures forall i :: 0 <= i < |items[1..]| ==> items[1..][i].name != items[0].name
  {
    var rest := items[1..];
    forall i, j | 0 <= i < j < |rest| ensures rest[i].name != rest[j].name {
      assert rest[i] == items[i + 1] && rest[j] == items[j + 1];
    }
    forall i | 0 <= i < |rest| ensures rest[i].name != items[0].name {
      assert rest[i] == items[i + 1];
    }
  }

  /** A first line the store can serve from record `k` leaves the rest of the lines to the
      store it depletes. */
  lemma SellAllCons(ss: seq<StoreItem>, items: seq<SalesItem>, cogs: real, k: nat)
    requires |items| > 0 && FindProduct(ss, items[0].name) == Some(k) && ss[k].stockKg >= items[0].qty
    ensures SellAll(ss, items, cogs)
            == SellAll(ss[k := Deplete(ss[k], items[0].qty)], items[1..], cogs + LineCost(ss[k], items[0].qty))
  {
  }

  /** With lines naming different products, a sale goes through exactly when every product
      is in the store with enough stock. */
  lemma {:induction false} SaleSucceedsIffAvailable(ss: seq<StoreItem>, items: seq<SalesItem>, cogs: real)
    requires DistinctNames(items)
    ensures SellAll(ss, items, cogs).Success? <==> Available(ss, items)
    decreases |items|
  {
    if |items| > 0 {
      var item := items[0];
      var f := FindProduct(ss, item.name);
      if f.Some? && ss[f.value].stockKg >= item.qty {
        var k := f.value;
        var t := ss[k := Deplete(ss[k], item.qty)];
        var c := cogs + LineCost(ss[k], item.qty);
        assert SellAll(ss, items, cogs) == SellAll(t, items[1..], c) by {
          SellAllCons(ss, items, cogs, k);
        }
        assert Available(ss, items) <==> Available(ss, items[1..]) by {
          AvailableCons(ss, items);
        }
        assert Available(t, items[1..]) <==> Available(ss, items[1..]) by {
          DistinctTail(items);
          AvailableAfterDeplete(ss, k, item.qty, items[1..]);
        }
        assert DistinctNames(items[1..]) by {
          DistinctTail(items);
        }
        SaleSucceedsIffAvailable(t, items[1..], c);
      } else {
        assert !Available(ss, items) by {
          AvailableCons(ss, items);
        }
        assert SellAll(ss, items, cogs).Failure?;
      }
    }
  }

  /** Cost of the lines at the unit costs of the store items they name (0 for a missing one). */
  function CostAt(ss: seq<StoreItem>, items: seq<SalesItem>): real
    decreases |items|
  {
    if |items| == 0 then 0.0 else LineCostIn(ss, items[0]) + CostAt(ss, items[1..])
  }

  /** Cost of one line at the unit cost of the store item it names (0 for a missing one). */
  function LineCostIn(ss: seq<StoreItem>, item: SalesItem): real
  {
    match FindProduct(ss, item.name)
    case None => 0.0
    case Some(k) => LineCost(ss[k], item.qty)
  }

  lemma {:induction false} CostAtDeplete(ss: seq<StoreItem>, k: nat, qty: real, items: seq<SalesItem>)
    requires k < |ss|
    ensures CostAt(ss[k := Deplete(ss[k], qty)], items) == CostAt(ss, items)
    decreases |items|
  {
    if |items| > 0 {
      FindProductSameName(ss, k, Deplete(ss[k], qty), items[0].name);
      assert LineCostIn(ss[k := Deplete(ss[k], qty)], items[0]) == LineCostIn(ss, items[0]);
      CostAtDeplete(ss, k, qty, items[1..]);
    }
  }

  /** SellAll on at least one line is the sale of the first followed by the rest. */
  lemma SellAllHead(ss: seq<StoreItem>, items: seq<SalesItem>, cogs: real)
    requires |items| > 0
    ensures SellAll(ss, items, cogs)
            == match SellOne(ss, items[0], cogs)
               case Failure(e) => Failure(e)
               case Success(d) => SellAll(d.store, items[1..], d.cogs)
  {
    match FindProduct(ss, items[0].name)
    case None =>
    case Some(k) =>
  }

  /** One line sold takes its quantity out of the store and adds its cost at the store's
      unit cost before the sale; the store's unit costs, and so the cost of any lines, stay. */
  lemma SellOneStock(ss: seq<StoreItem>, item: SalesItem, cogs: real)
    requires SellOne(ss, item, cogs).Success?
    ensures var d := SellOne(ss, item, cogs).value;
            && SumOf(d.store, StoreStockOf) == SumOf(ss, StoreStockOf) - item.qty
            && d.cogs == cogs + LineCostIn(ss, item)
            && forall items :: CostAt(d.store, items) == CostAt(ss, items)
  {
    var k := FindProduct(ss, item.name).value;
    SumUpdate(ss, k, Deplete(ss[k], item.qty), StoreStockOf);
    forall items ensures CostAt(ss[k := Deplete(ss[k], item.qty)], items) == CostAt(ss, items) {
      CostAtDeplete(ss, k, item.qty, items);
    }
  }

  /** One line sold from a store at rest lowers its value by the line's cost and leaves it
      at rest. */
  lemma SellOneValue(ss: seq<StoreItem>, item: SalesItem, cogs: real)
    requires SellOne(ss, item, cogs).Success? && StoreOk(ss)
    ensures var d := SellOne(ss, item, cogs).value;
            && StoreOk(d.store)
            && SumOf(d.store, StoreValueOf) == SumOf(ss, StoreValueOf) - (d.cogs - cogs)
  {
    var k := FindProduct(ss, item.name).value;
    var d := Deplete(ss[k], item.qty);
    SumUpdate(ss, k, d, StoreValueOf);
    assert StoreItemOk(ss[k]);
    assert d.totalValue == ss[k].stockKg * ss[k].hppPerKg - item.qty * ss[k].hppPerKg;
    assert StoreItemOk(d);
    StoreOkUpdate(ss, k, d);
  }

  /** A sale that goes through takes exactly the lines' quantities out of the store, and its
      cost of goods is the lines' cost at the store's unit costs before the sale, which
      selling does not change. */
  lemma {:induction false} SaleMovesStock(ss: seq<StoreItem>, items: seq<SalesItem>, cogs: real)
    requires SellAll(ss, items, cogs).Success?
    ensures var sold := SellAll(ss, items, cogs).value;
            && SumOf(sold.store, StoreStockOf) == SumOf(ss, StoreStockOf) - SumOf(items, SaleQty)
            && sold.cogs == cogs + CostAt(ss, items)
    decreases |items|
  {
    if |items| > 0 {
      SellAllHead(ss, items, cogs);
      var d := SellOne(ss, items[0], cogs).value;
      SellOneStock(ss, items[0], cogs);
      SaleMovesStock(d.store, items[1..], d.cogs);
    }
  }

  /** A sale from a store at rest lowers its value by exactly the cost of goods sold, and
      leaves it at rest. */
  lemma {:induction false} SaleKeepsStoreOk(ss: seq<StoreItem>, items: seq<SalesItem>, cogs: real)
    requires SellAll(ss, items, cogs).Success? && StoreOk(ss)
    ensures var sold := SellAll(ss, items, cogs).value;
            && StoreOk(sold.store)
            && SumOf(sold.store, StoreValueOf) == SumOf(ss, StoreValueOf) - (sold.cogs - cogs)
    decreases |items|
  {
    if |items| > 0 {
      SellAllHead(ss, items, cogs);
      var d := SellOne(ss, items[0], cogs).value;
      SellOneValue(ss, items[0], cogs);
      SaleKeepsStoreOk(d.store, items[1..], d.cogs);
    }
  }

  /** One line sold changes only the first store item of its product: its stock drops by
      the line's quantity, its unit cost stays, and its value is recomputed at that cost. */
  lemma SellOneRecord(ss: seq<StoreItem>, item: SalesItem, cogs: real)
    requires SellOne(ss, item, cogs).Success?
    ensures var k := FindProduct(ss, item.name).value;
            var t := SellOne(ss, item, cogs).value.store;
            && |t| == |ss|
            && t[k].stockKg == ss[k].stockKg - item.qty
            && t[k].hppPerKg == ss[k].hppPerKg
            && t[k].totalValue == t[k].stockKg * t[k].hppPerKg
            && t[k].(stockKg := ss[k].stockKg, totalValue := ss[k].totalValue) == ss[k]
            && forall j :: 0 <= j < |ss| && j != k ==> t[j] == ss[j]
  {
    var k := FindProduct(ss, item.name).value;
    assert SellOne(ss, item, cogs).value.store == ss[k := Deplete(ss[k], item.qty)];
    DepleteValue(ss[k], item.qty);
  }

  /** The products the lines name. */
  function NamesOf(items: seq<SalesItem>): set<string>
    decreases |items|
  {
    if |items| == 0 then {} else {items[0].name} + NamesOf(items[1..])
  }

  /** Σ qty over the lines naming the product; 0 for a product no line names. */
  function QtyFor(items: seq<SalesItem>, name: string): (r: real)
    ensures name !in NamesOf(items) ==> r == 0.0
    decreases |items|
  {
    if |items| == 0 then 0.0
    else (if items[0].name == name then items[0].qty else 0.0) + QtyFor(items[1..], name)
  }

  /** The item at index `j` after a sale: the first item of each product the lines name
      loses the quantities of all the lines naming it, at its unit cost; every other item
      is as it was. */
  function AfterSaleAt(ss: seq<StoreItem>, items: seq<SalesItem>, j: nat): StoreItem
    requires j < |ss|
  {
    if ss[j].product in NamesOf(items) && FindProduct(ss, ss[j].product) == Some(j)
    then Deplete(ss[j], QtyFor(items, ss[j].product))
    else ss[j]
  }

  lemma DepleteTwice(s: StoreItem, a: real, b: real)
    ensures Deplete(Deplete(s, a), b) == Deplete(s, a + b)
  {
    assert s.stockKg - a - b == s.stockKg - (a + b);
  }

  /** Selling the first line from the first item of its product and then the rest leaves
      each item as the whole sale leaves it. */
  lemma {:induction false} AfterSaleCons(ss: seq<StoreItem>, items: seq<SalesItem>, k: nat, j: nat)
    requires |items| > 0 && FindProduct(ss, items[0].name) == Some(k) && j < |ss|
    ensures AfterSaleAt(ss[k := Deplete(ss[k], items[0].qty)], items[1..], j)
            == AfterSaleAt(ss, items, j)
  {
    var q0 := items[0].qty;
    var t := ss[k := Deplete(ss[k], q0)];
    var rest := items[1..];
    var p := ss[j].product;
    assert NamesOf(items) == {items[0].name} + NamesOf(rest);
    assert t[j].product == p;
    FindProductSameName(ss, k, Deplete(ss[k], q0), p);
    assert QtyFor(items, p) == (if items[0].name == p then q0 else 0.0) + QtyFor(rest, p);
    if j == k {
      DepleteTwice(ss[k], q0, QtyFor(rest, p));
    }
  }

  /** A sale that goes through leaves each item as `AfterSaleAt` describes. */
  lemma {:induction false} SellAllStore(ss: seq<StoreItem>, items: seq<SalesItem>, cogs: real)
    requires SellAll(ss, items, cogs).Success?
    ensures |SellAll(ss, items, cogs).value.store| == |ss|
    ensures forall j :: 0 <= j < |ss| ==>
              SellAll(ss, items, cogs).value.store[j] == AfterSaleAt(ss, items, j)
    decreases |items|
  {
    if |items| > 0 {
      var k := FindProduct(ss, items[0].name).value;
      var t := ss[k := Deplete(ss[k], items[0].qty)];
      SellAllCons(ss, items, cogs, k);
      SellAllStore(t, items[1..], cogs + LineCost(ss[k], items[0].qty));
      forall j | 0 <= j < |ss|
        ensures SellAll(ss, items, cogs).value.store[j] == AfterSaleAt(ss, items, j)
      {
        AfterSaleCons(ss, items, k, j);
      }
    }
  }

  /** What `AfterSaleAt` makes of one item: the first item of a product the lines name is
      depleted by their quantities; every other item is as it was. */
  lemma AfterSaleAtEffect(ss: seq<StoreItem>, items: seq<SalesItem>, j: nat)
    requires j < |ss|
    ensures var x := AfterSaleAt(ss, items, j);
            && x.(stockKg := ss[j].stockKg, totalValue := ss[j].totalValue) == ss[j]
            && (ss[j].product in NamesOf(items) && FindProduct(ss, ss[j].product) == Some(j) ==>
                  x == Deplete(ss[j], QtyFor(items, ss[j].product)))
            && (ss[j].product !in NamesOf(items) ==> x == ss[j])
            && (FindProduct(ss, ss[j].product) != Some(j) ==> x == ss[j])
  {
  }

  /** Item by item, a sale that goes through lowers the stock of the first item of each
      product the lines name by the quantities of those lines, keeps its unit cost and
      recomputes its value at it (`Deplete`, see `DepleteValue`), and leaves every other
      item as it was. */
  lemma SaleItemEffect(ss: seq<StoreItem>, items: seq<SalesItem>, cogs: real, j: nat)
    requires SellAll(ss, items, cogs).Success? && j < |ss|
    ensures var t := SellAll(ss, items, cogs).value.store;
            && |t| == |ss|
            && t[j].(stockKg := ss[j].stockKg, totalValue := ss[j].totalValue) == ss[j]
            && (ss[j].product in NamesOf(items) && FindProduct(ss, ss[j].product) == Some(j) ==>
                  && t[j] == Deplete(ss[j], QtyFor(items, ss[j].product))
                  && t[j].stockKg == ss[j].stockKg - QtyFor(items, ss[j].product))
            && (ss[j].product !in NamesOf(items) ==> t[j] == ss[j])
            && (FindProduct(ss, ss[j].product) != Some(j) ==> t[j] == ss[j])
  {
    var t := SellAll(ss, items, cogs).value.store;
    assert |t| == |ss| && t[j] == AfterSaleAt(ss, items, j) by {
      SellAllStore(ss, items, cogs);
    }
    AfterSaleAtEffect(ss, items, j);
  }

  /** Depleting an item lowers its stock by the quantity and values the rest at its
      unchanged unit cost. */
  lemma DepleteValue(s: StoreItem, qty: real)
    ensures Deplete(s, qty).stockKg == s.stockKg - qty
    ensures Deplete(s, qty).hppPerKg == s.hppPerKg
    ensures Deplete(s, qty).totalValue == Deplete(s, qty).stockKg * s.hppPerKg
    ensures Deplete(s, qty).(stockKg := s.stockKg, totalValue := s.totalValue) == s
  {
  }

  /** Selling exactly the stock a product has leaves it empty; asking for more fails. */
  lemma SellBoundary(ss: seq<StoreItem>, name: string, k: nat, price: real, extra: real)
    requires FindProduct(ss, name) == Some(k) && extra > 0.0
    ensures var all := SellAll(ss, [SalesItem(name, ss[k].stockKg, price)], 0.0);
            && all.Success?
            && all.value.store == ss[k := ss[k].(stockKg := 0.0, totalValue := 0.0)]
            && SellAll(ss, [SalesItem(name, ss[k].stockKg + extra, price)], 0.0)
               == Failure(InsufficientStoreStock(name))
  {
    SellWholeStock(ss, name, k, price);
    SellBeyondStock(ss, name, k, price, extra);
  }

  lemma SellWholeStock(ss: seq<StoreItem>, name: string, k: nat, price: real)
    requires FindProduct(ss, name) == Some(k)
    ensures var all := SellAll(ss, [SalesItem(name, ss[k].stockKg, price)], 0.0);
            && all.Success?
            && all.value.store == ss[k := ss[k].(stockKg := 0.0, totalValue := 0.0)]
  {
    var one := [SalesItem(name, ss[k].stockKg, price)];
    assert one[1..] == [];
    assert Deplete(ss[k], ss[k].stockKg) == ss[k].(stockKg := 0.0, totalValue := 0.0);
  }

  lemma SellBeyondStock(ss: seq<StoreItem>, name: string, k: nat, price: real, extra: real)
    requires FindProduct(ss, name) == Some(k) && extra > 0.0
    ensures SellAll(ss, [SalesItem(name, ss[k].stockKg + extra, price)], 0.0)
            == Failure(InsufficientStoreStock(name))
  {
  }

  /** The ledger entries of a sale that goes through: a revenue debit of the invoice total
      exactly when it is Paid or Lunas, a cost-of-goods credit of the cost exactly when that
      is positive, both on "cash" and referencing the invoice number. */
  lemma SalePostsToCash(db: Snapshot, form: SaleForm, now: string)
    requires SaleMade(db, form, now).Success?
    ensures var txs := SaleMade(db, form, now).value.transactions;
            var cogs := SellAll(db.storeInventory, form.items, 0.0).value.cogs;
            var n := |db.transactions|;
            && txs[..n] == db.transactions
            && |txs| == n + (if IsPaid(form.status) then 1 else 0) + (if cogs > 0.0 then 1 else 0)
            && (forall j :: n <= j < |txs| ==> txs[j].accountId == "cash" && txs[j].reference == form.number)
            && (IsPaid(form.status) ==> txs[n].category == SalesRevenue && txs[n].debit == SaleTotal(form.items)
                                        && txs[n].credit == 0.0)
            && (cogs > 0.0 ==> txs[|txs| - 1].category == CostOfGoodsSold && txs[|txs| - 1].credit == cogs
                               && txs[|txs| - 1].debit == 0.0)
  {
  }
}
