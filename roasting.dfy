/** Roasting (createRoastingBatch, src/lib/actions.ts): green beans leave the warehouse at
    their unchanged average cost, and the output is accumulated into the roasted item named
    "<bean> - <profile>" at the unit cost the caller supplies.

    That unit cost is an input of the action: the roasting form computes it as
    Avg_HPP × input / output (src/components/sections/roasting-form.tsx) and the action takes
    it as given, so the value of the two inventories is conserved only when the caller passes
    that figure (RoastingConservesValue below). */
module Roasting {
  import opened Definitions
  import opened Seqs
  import opened Warehouse

  /** The roasting form's fields: batchId, date, greenBeans, inputQty, yieldPercent, profile,
      and the unit cost hppPerKg the form computed. */
  datatype RoastForm = RoastForm(batchId: string, date: string, greenBeans: string,
                                 inputKg: real, yieldPercent: real, profile: string,
                                 hppPerKg: real)

  function RoastedName(bean: string, profile: string): string
  {
    bean + " - " + profile
  }

  /** Output_Kg = input × yield / 100. */
  function OutputKg(inputKg: real, yieldPercent: real): real
  {
    inputKg * (yieldPercent / 100.0)
  }

  /** The unit cost the roasting form computes and passes in: the green beans' cost
      (Avg_HPP × input) spread over the output, 0 when there is no output. */
  function ClientHppPerKg(avgHpp: real, inputKg: real, yieldPercent: real): (r: real)
    ensures OutputKg(inputKg, yieldPercent) > 0.0 ==> r * OutputKg(inputKg, yieldPercent) == avgHpp * inputKg
    ensures OutputKg(inputKg, yieldPercent) <= 0.0 ==> r == 0.0
  {
    var output := OutputKg(inputKg, yieldPercent);
    if output > 0.0 then avgHpp * inputKg / output else 0.0
  }

  /** Index of the first roasted item called `name`. */
  function FindRoastedProduct(rs: seq<RoastedItem>, name: string): (r: Option<nat>)
    ensures r.Some? ==> r.value < |rs| && rs[r.value].product == name
    ensures r.Some? ==> forall j :: 0 <= j < r.value ==> rs[j].product != name
    ensures r.None? <==> forall j :: 0 <= j < |rs| ==> rs[j].product != name
  {
    if |rs| == 0 then None
    else if rs[0].product == name then Some(0)
    else match FindRoastedProduct(rs[1..], name)
      case None => None
      case Some(i) => Some(i + 1)
  }

  /** Index of the first roasted item with the id. */
  function FindRoastedId(rs: seq<RoastedItem>, id: string): (r: Option<nat>)
    ensures r.Some? ==> r.value < |rs| && rs[r.value].id == id
    ensures r.Some? ==> forall j :: 0 <= j < r.value ==> rs[j].id != id
    ensures r.None? <==> forall j :: 0 <= j < |rs| ==> rs[j].id != id
  {
    if |rs| == 0 then None
    else if rs[0].id == id then Some(0)
    else match FindRoastedId(rs[1..], id)
      case None => None
      case Some(i) => Some(i + 1)
  }

  function RoastedStockOf(r: RoastedItem): real
  {
    r.stockKg
  }

  function RoastedValueOf(r: RoastedItem): real
  {
    r.totalValue
  }

  /** The green-bean record after `inputKg` is roasted: stock drops by the input, the average
      cost stays, and the value is recomputed at that cost. */
  function Consume(w: WarehouseItem, inputKg: real, date: string): WarehouseItem
  {
    var stock := w.stockKg - inputKg;
    w.(stockKg := stock, totalValue := stock * w.avgHpp, lastUpdate := date)
  }

  /** A roasted item after `outputKg` more is roasted at unit cost `hpp`. */
  function AccumulateRoast(ri: RoastedItem, outputKg: real, hpp: real): (r: RoastedItem)
    ensures r.id == ri.id && r.product == ri.product && r.category == ri.category
    ensures r.sellPricePerKg == ri.sellPricePerKg
    ensures r.stockKg == ri.stockKg + outputKg
    ensures r.totalValue == ri.totalValue + hpp * outputKg
    ensures r.stockKg > 0.0 ==> r.hppPerKg * r.stockKg == r.totalValue
    ensures r.stockKg <= 0.0 ==> r.hppPerKg == 0.0
  {
    var value := ri.totalValue + hpp * outputKg;
    var stock := ri.stockKg + outputKg;
    ri.(stockKg := stock, totalValue := value, hppPerKg := AverageCost(value, stock))
  }

  function NewRoastedItem(name: string, outputKg: real, hpp: real, now: string): RoastedItem
  {
    RoastedItem("ri-" + name + "-" + now, name, "Roasted Beans", outputKg, hpp, 0.0, hpp * outputKg)
  }

  /** The roasted inventory after the batch's output is taken in. */
  function TakeInRoast(rs: seq<RoastedItem>, name: string, outputKg: real, hpp: real, now: string)
    : seq<RoastedItem>
  {
    match FindRoastedProduct(rs, name)
    case Some(j) => rs[j := AccumulateRoast(rs[j], outputKg, hpp)]
    case None => rs + [NewRoastedItem(name, outputKg, hpp, now)]
  }

  function BatchOf(form: RoastForm, now: string): RoastingBatch
  {
    RoastingBatch("rb-" + now, form.batchId, form.date, form.greenBeans, form.inputKg,
                  OutputKg(form.inputKg, form.yieldPercent), form.yieldPercent, form.profile,
                  form.hppPerKg, 0.0, "Completed")
  }

  /** createRoastingBatch: fails when the bean is not in the warehouse or holds less than the
      input; otherwise consumes the input from the bean's first record, takes the output into
      the roasted inventory, appends one batch and changes nothing else. */
  function RoastingDone(db: Snapshot, form: RoastForm, now: string): (r: Result<Snapshot>)
    ensures FindBean(db.warehouse, form.greenBeans).None? ==> r == Failure(BeanNotFound(form.greenBeans))
    ensures FindBean(db.warehouse, form.greenBeans).Some? ==>
              var w := db.warehouse[FindBean(db.warehouse, form.greenBeans).value];
              (r.Failure? <==> w.stockKg < form.inputKg) &&
              (r.Failure? ==> r.error == InsufficientBeanStock(form.greenBeans, w.stockKg))
    ensures r.Success? ==> r.value == db.(warehouse := r.value.warehouse,
                                          roastedInventory := r.value.roastedInventory,
                                          roastingBatches := db.roastingBatches + [BatchOf(form, now)])
  {
    match FindBean(db.warehouse, form.greenBeans)
    case None => Failure(BeanNotFound(form.greenBeans))
    case Some(k) =>
      var w := db.warehouse[k];
      if w.stockKg < form.inputKg then Failure(InsufficientBeanStock(form.greenBeans, w.stockKg))
      else
        var output := OutputKg(form.inputKg, form.yieldPercent);
        Success(db.(warehouse := db.warehouse[k := Consume(w, form.inputKg, form.date)],
                    roastedInventory := TakeInRoast(db.roastedInventory,
                                                    RoastedName(form.greenBeans, form.profile),
                                                    output, form.hppPerKg, now),
                    roastingBatches := db.roastingBatches + [BatchOf(form, now)]))
  }

  // ---------------------------------------------------------------------------
  // Properties

  /** A successful roast takes exactly the input out of the bean's first record, keeps its
      average cost, leaves its value at stock × cost, and touches no other record. */
  lemma RoastingConsumesBeans(db: Snapshot, form: RoastForm, now: string)
    requires RoastingDone(db, form, now).Success?
    ensures var k := FindBean(db.warehouse, form.greenBeans).value;
            var ws := RoastingDone(db, form, now).value.warehouse;
            && |ws| == |db.warehouse|
            && ws[k].beanName == form.greenBeans
            && ws[k].id == db.warehouse[k].id
            && ws[k].lastUpdate == form.date
            && ws[k].stockKg == db.warehouse[k].stockKg - form.inputKg
            && ws[k].avgHpp == db.warehouse[k].avgHpp
            && ws[k].totalValue == ws[k].stockKg * ws[k].avgHpp
            && ws[k].stockKg >= 0.0
            && forall j :: 0 <= j < |ws| && j != k ==> ws[j] == db.warehouse[j]
  {
  }

  /** The roasted item "<bean> - <profile>" receives the batch's output: an existing one adds
      stock and value at the given unit cost, otherwise exactly one item is appended. */
  lemma RoastingTakesInOutput(db: Snapshot, form: RoastForm, now: string)
    requires RoastingDone(db, form, now).Success?
    ensures var rs := RoastingDone(db, form, now).value.roastedInventory;
            var name := RoastedName(form.greenBeans, form.profile);
            var output := form.inputKg * (form.yieldPercent / 100.0);
            match FindRoastedProduct(db.roastedInventory, name)
            case Some(j) =>
              && |rs| == |db.roastedInventory|
              && rs[j].id == db.roastedInventory[j].id && rs[j].product == name
              && rs[j].category == db.roastedInventory[j].category
              && rs[j].sellPricePerKg == db.roastedInventory[j].sellPricePerKg
              && rs[j].stockKg == db.roastedInventory[j].stockKg + output
              && rs[j].totalValue == db.roastedInventory[j].totalValue + form.hppPerKg * output
              && (rs[j].stockKg > 0.0 ==> rs[j].hppPerKg * rs[j].stockKg == rs[j].totalValue)
              && forall i :: 0 <= i < |rs| && i != j ==> rs[i] == db.roastedInventory[i]
            case None =>
              && rs[..|db.roastedInventory|] == db.roastedInventory
              && rs[|db.roastedInventory|] == RoastedItem("ri-" + name + "-" + now, name,
                                                          "Roasted Beans", output, form.hppPerKg,
                                                          0.0, form.hppPerKg * output)
  {
    var rs := RoastingDone(db, form, now).value.roastedInventory;
    var name := RoastedName(form.greenBeans, form.profile);
    if FindRoastedProduct(db.roastedInventory, name).None? {
      assert rs == db.roastedInventory + [NewRoastedItem(name, OutputKg(form.inputKg, form.yieldPercent), form.hppPerKg, now)];
    }
  }

  /** What a roast that goes through is made of: the bean's first record consumed, and the
      output taken into the roasted inventory. */
  lemma RoastingParts(db: Snapshot, form: RoastForm, now: string, k: nat)
    requires RoastingDone(db, form, now).Success? && FindBean(db.warehouse, form.greenBeans) == Some(k)
    ensures var r := RoastingDone(db, form, now).value;
            && db.warehouse[k].stockKg >= form.inputKg
            && r.warehouse == db.warehouse[k := Consume(db.warehouse[k], form.inputKg, form.date)]
            && r.roastedInventory == TakeInRoast(db.roastedInventory, RoastedName(form.greenBeans, form.profile),
                                                 OutputKg(form.inputKg, form.yieldPercent), form.hppPerKg, now)
  {
  }

  /** Consuming no more than record `k` holds keeps a warehouse at rest at rest. */
  lemma ConsumeKeepsOk(ws: seq<WarehouseItem>, k: nat, inputKg: real, date: string)
    requires WarehouseOk(ws) && k < |ws| && ws[k].stockKg >= inputKg
    ensures WarehouseOk(ws[k := Consume(ws[k], inputKg, date)])
  {
    assert WarehouseItemOk(ws[k]);
    WarehouseOkUpdate(ws, k, Consume(ws[k], inputKg, date));
  }

  /** Consuming `inputKg` from record `k` at rest takes input × average cost out of the
      warehouse's value. */
  lemma ConsumeValue(ws: seq<WarehouseItem>, k: nat, inputKg: real, date: string)
    requires k < |ws| && WarehouseItemOk(ws[k])
    ensures SumOf(ws[k := Consume(ws[k], inputKg, date)], ValueOf) == SumOf(ws, ValueOf) - inputKg * ws[k].avgHpp
  {
    SumUpdate(ws, k, Consume(ws[k], inputKg, date), ValueOf);
    Distribute(ws[k].stockKg, inputKg, ws[k].avgHpp);
  }

  /** Taking the output in adds output × unit cost to the roasted inventory's value. */
  lemma TakeInRoastValue(rs: seq<RoastedItem>, name: string, outputKg: real, hpp: real, now: string)
    ensures SumOf(TakeInRoast(rs, name, outputKg, hpp, now), RoastedValueOf) == SumOf(rs, RoastedValueOf) + hpp * outputKg
  {
    match FindRoastedProduct(rs, name)
    case Some(j) =>
      SumUpdate(rs, j, AccumulateRoast(rs[j], outputKg, hpp), RoastedValueOf);
    case None =>
      SumAppend(rs, [NewRoastedItem(name, outputKg, hpp, now)], RoastedValueOf);
  }

  /** (s - i) × a = s × a - i × a. */
  lemma Distribute(s: real, i: real, a: real)
    ensures (s - i) * a == s * a - i * a
  {
  }

  /** A change of `h × o - i × a` cancels when `h × o = a × i`. */
  lemma ChangeCancels(before: real, after: real, i: real, a: real, h: real, o: real)
    requires after == before - i * a + h * o
    requires h * o == a * i
    ensures after == before
  {
    assert i * a == a * i;
  }

  /** With the unit cost the roasting form computes, and some output, roasting moves value
      from the warehouse to the roasted inventory without creating or losing any. */
  lemma RoastingConservesValue(db: Snapshot, form: RoastForm, now: string)
    requires RoastingDone(db, form, now).Success?
    requires WarehouseItemOk(db.warehouse[FindBean(db.warehouse, form.greenBeans).value])
    requires OutputKg(form.inputKg, form.yieldPercent) > 0.0
    requires form.hppPerKg == ClientHppPerKg(db.warehouse[FindBean(db.warehouse, form.greenBeans).value].avgHpp,
                                             form.inputKg, form.yieldPercent)
    ensures var r := RoastingDone(db, form, now).value;
            SumOf(r.warehouse, ValueOf) + SumOf(r.roastedInventory, RoastedValueOf)
            == SumOf(db.warehouse, ValueOf) + SumOf(db.roastedInventory, RoastedValueOf)
  {
    var k := FindBean(db.warehouse, form.greenBeans).value;
    RoastingParts(db, form, now, k);
    PartsConserveValue(db.warehouse, k, db.roastedInventory, form, now);
  }

  /** Consuming the input from record `k` at rest and taking the output in at the unit cost
      the roasting form computes leaves the value of the two inventories unchanged. */
  lemma PartsConserveValue(ws: seq<WarehouseItem>, k: nat, rs: seq<RoastedItem>, form: RoastForm, now: string)
    requires k < |ws| && WarehouseItemOk(ws[k])
    requires OutputKg(form.inputKg, form.yieldPercent) > 0.0
    requires form.hppPerKg == ClientHppPerKg(ws[k].avgHpp, form.inputKg, form.yieldPercent)
    ensures SumOf(ws[k := Consume(ws[k], form.inputKg, form.date)], ValueOf)
            + SumOf(TakeInRoast(rs, RoastedName(form.greenBeans, form.profile),
                                OutputKg(form.inputKg, form.yieldPercent), form.hppPerKg, now), RoastedValueOf)
            == SumOf(ws, ValueOf) + SumOf(rs, RoastedValueOf)
  {
    var o := OutputKg(form.inputKg, form.yieldPercent);
    ConsumeValue(ws, k, form.inputKg, form.date);
    TakeInRoastValue(rs, RoastedName(form.greenBeans, form.profile), o, form.hppPerKg, now);
    ChangeCancels(SumOf(ws, ValueOf) + SumOf(rs, RoastedValueOf),
                  SumOf(ws[k := Consume(ws[k], form.inputKg, form.date)], ValueOf)
                  + SumOf(TakeInRoast(rs, RoastedName(form.greenBeans, form.profile), o, form.hppPerKg, now), RoastedValueOf),
                  form.inputKg, ws[k].avgHpp, form.hppPerKg, o);
  }

  /** A batch's output is never negative for a non-negative input and yield. */
  lemma OutputNonNegative(inputKg: real, yieldPercent: real)
    requires inputKg >= 0.0 && yieldPercent >= 0.0
    ensures OutputKg(inputKg, yieldPercent) >= 0.0
  {
    var share := yieldPercent / 100.0;
    assert share >= 0.0;
    assert OutputKg(inputKg, yieldPercent) == inputKg * share;
  }

  /** A roasted item at rest stays at rest after a non-negative output arrives at a
      non-negative unit cost. */
  lemma AccumulateRoastOk(ri: RoastedItem, outputKg: real, hpp: real)
    requires RoastedItemOk(ri) && outputKg >= 0.0 && hpp >= 0.0
    ensures RoastedItemOk(AccumulateRoast(ri, outputKg, hpp))
  {
    AccumulateKeepsOk(ri.stockKg, ri.hppPerKg, outputKg, hpp);
    assert outputKg * hpp == hpp * outputKg;
  }

  /** Taking a non-negative output in at a non-negative unit cost keeps the roasted inventory
      at rest. */
  lemma TakeInRoastKeepsOk(rs: seq<RoastedItem>, name: string, outputKg: real, hpp: real, now: string)
    requires RoastedOk(rs) && outputKg >= 0.0 && hpp >= 0.0
    ensures RoastedOk(TakeInRoast(rs, name, outputKg, hpp, now))
  {
    match FindRoastedProduct(rs, name)
    case Some(j) =>
      AccumulateRoastOk(rs[j], outputKg, hpp);
    case None =>
      var n := NewRoastedItem(name, outputKg, hpp, now);
      assert hpp * outputKg == outputKg * hpp;
      assert RoastedItemOk(n);
      assert TakeInRoast(rs, name, outputKg, hpp, now) == rs + [n];
  }

  /** Roasting keeps the stock invariant of both inventories, for a non-negative input,
      yield and unit cost. */
  lemma RoastingKeepsOk(db: Snapshot, form: RoastForm, now: string)
    requires WarehouseOk(db.warehouse) && RoastedOk(db.roastedInventory)
    requires form.inputKg >= 0.0 && form.yieldPercent >= 0.0 && form.hppPerKg >= 0.0
    requires RoastingDone(db, form, now).Success?
    ensures WarehouseOk(RoastingDone(db, form, now).value.warehouse)
    ensures RoastedOk(RoastingDone(db, form, now).value.roastedInventory)
  {
    var k := FindBean(db.warehouse, form.greenBeans).value;
    RoastingParts(db, form, now, k);
    ConsumeKeepsOk(db.warehouse, k, form.inputKg, form.date);
    OutputNonNegative(form.inputKg, form.yieldPercent);
    TakeInRoastKeepsOk(db.roastedInventory, RoastedName(form.greenBeans, form.profile),
                       OutputKg(form.inputKg, form.yieldPercent), form.hppPerKg, now);
  }
}
