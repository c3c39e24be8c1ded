/** Blending (createBlend, src/lib/actions.ts): roasted components are drawn in their
    percentages of the blend quantity, the blend enters the store at the drawn cost per kg,
    and one ledger entry with neither debit nor credit records it. */
module Blending {
  import opened Definitions
  import opened Seqs
  import opened Roasting
  import opened Store

  /** A blend component: the roasted item's id and its share in percent. */
  datatype BlendComponent = BlendComponent(id: string, percentage: real)

  /** The blend form: blendName, totalQty and the components. */
  datatype BlendForm = BlendForm(name: string, totalQty: real, components: seq<BlendComponent>)

  function Pct(c: BlendComponent): real
  {
    c.percentage
  }

  /** Σ percentage over the components. */
  function PercentTotal(cs: seq<BlendComponent>): real
  {
    SumOf(cs, Pct)
  }

  /** `Math.round(total) === 100` for a real total: round half up. */
  predicate RoundsTo100(total: real)
  {
    99.5 <= total < 100.5
  }

  /** Quantity a component contributes: totalQty × percentage / 100. */
  function Need(totalQty: real, c: BlendComponent): real
  {
    totalQty * (c.percentage / 100.0)
  }

  /** Σ Need over the components. */
  function NeedTotal(totalQty: real, cs: seq<BlendComponent>): real
    decreases |cs|
  {
    if |cs| == 0 then 0.0 else Need(totalQty, cs[0]) + NeedTotal(totalQty, cs[1..])
  }

  /** The roasted inventory and the cost drawn so far. */
  datatype Drawn = Drawn(roasted: seq<RoastedItem>, cost: real)

  /** A roasted item after `qty` is drawn from it: stock drops by it and the value is
      recomputed at the unchanged unit cost. */
  function Draw(r: RoastedItem, qty: real): RoastedItem
  {
    var stock := r.stockKg - qty;
    r.(stockKg := stock, totalValue := stock * r.hppPerKg)
  }

  function DrawCost(r: RoastedItem, qty: real): real
  {
    qty * r.hppPerKg
  }

  /** The components drawn one after the other; the first unknown id or short component
      fails the whole blend. */
  function DrawAll(rs: seq<RoastedItem>, cs: seq<BlendComponent>, totalQty: real, cost: real)
    : Result<Drawn>
    decreases |cs|
  {
    if |cs| == 0 then Success(Drawn(rs, cost))
    else
      var need := Need(totalQty, cs[0]);
      match FindRoastedId(rs, cs[0].id)
      case None => Failure(ComponentNotFound)
      case Some(k) =>
        if rs[k].stockKg < need then Failure(InsufficientComponentStock(rs[k].product))
        else DrawAll(rs[k := Draw(rs[k], need)], cs[1..], totalQty, cost + DrawCost(rs[k], need))
  }

  /** The blend's unit cost: the drawn cost over the blend quantity. */
  function BlendHpp(cost: real, totalQty: real): (r: real)
    ensures totalQty > 0.0 ==> totalQty * r == cost
  {
    if totalQty > 0.0 then cost / totalQty else 0.0
  }

  /** The store after the blend arrives: into the item of its name, or as a new "Blend" item. */
  function BlendIntoStore(ss: seq<StoreItem>, name: string, totalQty: real, hpp: real, now: string)
    : seq<StoreItem>
  {
    var value := totalQty * hpp;
    match FindProduct(ss, name)
    case Some(j) => ss[j := Receive(ss[j], totalQty, value, hpp)]
    case None => ss + [StoreItem(StoreId(name, now), name, "Blend", totalQty, hpp, Markup(hpp), value)]
  }

  /** The ledger entry of a blend: no debit, no credit, on "cash". */
  function BlendEntry(name: string, now: string, today: string): Transaction
  {
    Transaction("trx-" + now + "-blend", today, "Pembuatan blend: " + name, "BLND-" + now,
                InternalProduction, 0.0, 0.0, "cash")
  }

  /** createBlend: fails on a missing name, a non-positive quantity or no component, on
      percentages that do not round to 100, and as the components fail; otherwise the
      components are drawn, the blend enters the store, one entry is appended, and nothing
      else changes. `today` is the date the entry carries. */
  function Blended(db: Snapshot, form: BlendForm, now: string, today: string): (r: Result<Snapshot>)
    ensures form.name == "" || form.totalQty <= 0.0 || |form.components| == 0 ==>
              r == Failure(IncompleteBlend)
    ensures !(form.name == "" || form.totalQty <= 0.0 || |form.components| == 0)
            && !RoundsTo100(PercentTotal(form.components)) ==>
              r == Failure(PercentageNot100(PercentTotal(form.components)))
    ensures r.Success? <==>
              && form.name != "" && form.totalQty > 0.0 && |form.components| > 0
              && RoundsTo100(PercentTotal(form.components))
              && DrawAll(db.roastedInventory, form.components, form.totalQty, 0.0).Success?
    ensures r.Success? ==> r.value == db.(roastedInventory := r.value.roastedInventory,
                                          storeInventory := r.value.storeInventory,
                                          transactions := db.transactions + [BlendEntry(form.name, now, today)])
    ensures r.Success? ==> |r.value.roastedInventory| == |db.roastedInventory|
    ensures r.Success? ==> forall j :: 0 <= j < |db.roastedInventory| ==>
              r.value.roastedInventory[j] == AfterDrawAt(db.roastedInventory, form.components, form.totalQty, j)
    ensures r.Success? ==>
              r.value.storeInventory
              == BlendIntoStore(db.storeInventory, form.name, form.totalQty,
                                BlendHpp(DrawCostOf(db.roastedInventory, form.components, form.totalQty),
                                         form.totalQty), now)
  {
    if form.name == "" || form.totalQty <= 0.0 || |form.components| == 0 then Failure(IncompleteBlend)
    else if !RoundsTo100(PercentTotal(form.components)) then
      Failure(PercentageNot100(PercentTotal(form.components)))
    else
      match DrawAll(db.roastedInventory, form.components, form.totalQty, 0.0)
      case Failure(e) => Failure(e)
      case Success(drawn) =>
        DrawAllRoasted(db.roastedInventory, form.components, form.totalQty, 0.0);
        DrawAllCost(db.roastedInventory, form.components, form.totalQty, 0.0);
        var hpp := BlendHpp(drawn.cost, form.totalQty);
        Success(db.(roastedInventory := drawn.roasted,
                    storeInventory := BlendIntoStore(db.storeInventory, form.name, form.totalQty, hpp, now),
                    transactions := db.transactions + [BlendEntry(form.name, now, today)]))
  }

  /** The source's loop over the components, overwriting each roasted record it draws from
      and accumulating the drawn cost. */
  method CreateBlend(db: Snapshot, form: BlendForm, now: string, today: string)
    returns (r: Result<Snapshot>)
    ensures r == Blended(db, form, now, today)
  {
    if form.name == "" || form.totalQty <= 0.0 || |form.components| == 0 {
      return Failure(IncompleteBlend);
    }
    var totalPercentage := PercentTotal(form.components);
    if !RoundsTo100(totalPercentage) {
      return Failure(PercentageNot100(totalPercentage));
    }
    var cs := form.components;
    var roasted := db.roastedInventory;
    var calculatedHpp := 0.0;
    var i := 0;
    while i < |cs|
      invariant 0 <= i <= |cs|
      invariant DrawAll(roasted, cs[i..], form.totalQty, calculatedHpp)
             == DrawAll(db.roastedInventory, cs, form.totalQty, 0.0)
    {
      DrawAllStep(roasted, cs, i, form.totalQty, calculatedHpp);
      var step := DrawComponent(roasted, cs[i], form.totalQty, calculatedHpp);
      if step.Failure? {
        return Failure(step.error);
      }
      roasted, calculatedHpp := step.value.roasted, step.value.cost;
      i := i + 1;
    }
    assert cs[i..] == [];
    var finalHpp := BlendHpp(calculatedHpp, form.totalQty);
    r := Success(db.(roastedInventory := roasted,
                     storeInventory := BlendIntoStore(db.storeInventory, form.name, form.totalQty,
                                                      finalHpp, now),
                     transactions := db.transactions + [BlendEntry(form.name, now, today)]));
  }

  /** One pass of the source's loop: find the component's roasted record, check its stock,
      add the drawn cost and overwrite the record. */
  method DrawComponent(roasted: seq<RoastedItem>, c: BlendComponent, totalQty: real, cost: real)
    returns (r: Result<Drawn>)
    ensures r == DrawOne(roasted, c, totalQty, cost)
  {
    var needed := Need(totalQty, c);
    var roastedIndex := FindRoastedId(roasted, c.id);
    if roastedIndex.None? {
      return Failure(ComponentNotFound);
    }
    var k := roastedIndex.value;
    if roasted[k].stockKg < needed {
      return Failure(InsufficientComponentStock(roasted[k].product));
    }
    r := Success(Drawn(roasted[k := Draw(roasted[k], needed)], cost + DrawCost(roasted[k], needed)));
  }

  /** The draw of one component, as DrawAll takes it. */
  function DrawOne(rs: seq<RoastedItem>, c: BlendComponent, totalQty: real, cost: real): Result<Drawn>
  {
    var need := Need(totalQty, c);
    match FindRoastedId(rs, c.id)
    case None => Failure(ComponentNotFound)
    case Some(k) =>
      if rs[k].stockKg < need then Failure(InsufficientComponentStock(rs[k].product))
      else Success(Drawn(rs[k := Draw(rs[k], need)], cost + DrawCost(rs[k], need)))
  }

  /** DrawAll from component i on is the draw of component i followed by the rest. */
  lemma DrawAllStep(rs: seq<RoastedItem>, cs: seq<BlendComponent>, i: nat, totalQty: real, cost: real)
    requires i < |cs|
    ensures DrawAll(rs, cs[i..], totalQty, cost)
            == match DrawOne(rs, cs[i], totalQty, cost)
               case Failure(e) => Failure(e)
               case Success(d) => DrawAll(d.roasted, cs[i + 1..], totalQty, d.cost)
  {
    assert cs[i..][1..] == cs[i + 1..];
    assert cs[i..][0] == cs[i];
    DrawAllHead(rs, cs[i..], totalQty, cost);
  }

  // ---------------------------------------------------------------------------
  // Properties

  /** The components' needs add up to the blend quantity times the percentage total / 100;
      with percentages that round to 100 that is within half a percent of the blend. */
  lemma {:induction false} NeedTotalIsShare(totalQty: real, cs: seq<BlendComponent>)
    ensures NeedTotal(totalQty, cs) == totalQty * (PercentTotal(cs) / 100.0)
    decreases |cs|
  {
    if |cs| > 0 {
      NeedTotalIsShare(totalQty, cs[1..]);
      var p := cs[0].percentage;
      var rest := PercentTotal(cs[1..]);
      assert PercentTotal(cs) == p + rest;
      assert totalQty * (p / 100.0) + totalQty * (rest / 100.0) == totalQty * ((p + rest) / 100.0);
    }
  }

  /** One draw from record `k` lowers the roasted stock by the quantity drawn. */
  lemma DrawStock(rs: seq<RoastedItem>, k: nat, qty: real)
    requires k < |rs|
    ensures SumOf(rs[k := Draw(rs[k], qty)], RoastedStockOf) == SumOf(rs, RoastedStockOf) - qty
  {
    SumUpdate(rs, k, Draw(rs[k], qty), RoastedStockOf);
  }

  /** One draw from record `k` of an inventory at rest lowers its value by the drawn cost
      and leaves it at rest. */
  lemma DrawValue(rs: seq<RoastedItem>, k: nat, qty: real)
    requires k < |rs| && RoastedOk(rs) && rs[k].stockKg >= qty
    ensures var t := rs[k := Draw(rs[k], qty)];
            && RoastedOk(t)
            && SumOf(t, RoastedValueOf) == SumOf(rs, RoastedValueOf) - DrawCost(rs[k], qty)
  {
    var d := Draw(rs[k], qty);
    SumUpdate(rs, k, d, RoastedValueOf);
    assert RoastedItemOk(rs[k]);
    Distribute(rs[k].stockKg, qty, rs[k].hppPerKg);
    assert RoastedItemOk(d);
  }

  /** DrawAll on at least one component is the draw of the first followed by the rest. */
  lemma DrawAllHead(rs: seq<RoastedItem>, cs: seq<BlendComponent>, totalQty: real, cost: real)
    requires |cs| > 0
    ensures DrawAll(rs, cs, totalQty, cost)
            == match DrawOne(rs, cs[0], totalQty, cost)
               case Failure(e) => Failure(e)
               case Success(d) => DrawAll(d.roasted, cs[1..], totalQty, d.cost)
  {
    match FindRoastedId(rs, cs[0].id)
    case None =>
    case Some(k) =>
  }

  /** One component drawn takes its need out of the roasted stock. */
  lemma DrawOneStock(rs: seq<RoastedItem>, c: BlendComponent, totalQty: real, cost: real)
    requires DrawOne(rs, c, totalQty, cost).Success?
    ensures SumOf(DrawOne(rs, c, totalQty, cost).value.roasted, RoastedStockOf)
            == SumOf(rs, RoastedStockOf) - Need(totalQty, c)
  {
    DrawStock(rs, FindRoastedId(rs, c.id).value, Need(totalQty, c));
  }

  /** One component drawn from an inventory at rest takes the cost it adds out of the
      inventory's value and leaves it at rest. */
  lemma DrawOneValue(rs: seq<RoastedItem>, c: BlendComponent, totalQty: real, cost: real)
    requires DrawOne(rs, c, totalQty, cost).Success? && RoastedOk(rs)
    ensures var d := DrawOne(rs, c, totalQty, cost).value;
            && RoastedOk(d.roasted)
            && SumOf(d.roasted, RoastedValueOf) == SumOf(rs, RoastedValueOf) - (d.cost - cost)
  {
    DrawValue(rs, FindRoastedId(rs, c.id).value, Need(totalQty, c));
  }

  /** A component with a non-negative share drawn from an inventory at rest adds no
      negative cost. */
  lemma DrawOneCost(rs: seq<RoastedItem>, c: BlendComponent, totalQty: real, cost: real)
    requires DrawOne(rs, c, totalQty, cost).Success? && RoastedOk(rs)
    requires totalQty >= 0.0 && c.percentage >= 0.0
    ensures DrawOne(rs, c, totalQty, cost).value.cost >= cost
  {
    var k := FindRoastedId(rs, c.id).value;
    var need := Need(totalQty, c);
    assert RoastedItemOk(rs[k]);
    ProductNonNegative(totalQty, c.percentage / 100.0);
    ProductNonNegative(need, rs[k].hppPerKg);
  }

  /** Drawing the components takes exactly their needs out of the roasted stock. */
  lemma {:induction false} DrawAllStock(rs: seq<RoastedItem>, cs: seq<BlendComponent>, totalQty: real, cost: real)
    requires DrawAll(rs, cs, totalQty, cost).Success?
    ensures SumOf(DrawAll(rs, cs, totalQty, cost).value.roasted, RoastedStockOf)
            == SumOf(rs, RoastedStockOf) - NeedTotal(totalQty, cs)
    decreases |cs|
  {
    if |cs| > 0 {
      DrawAllHead(rs, cs, totalQty, cost);
      var d := DrawOne(rs, cs[0], totalQty, cost).value;
      DrawOneStock(rs, cs[0], totalQty, cost);
      DrawAllStock(d.roasted, cs[1..], totalQty, d.cost);
    }
  }

  /** Drawing the components from an inventory at rest takes exactly the drawn cost out of
      its value, and leaves it at rest. */
  lemma {:induction false} DrawAllValue(rs: seq<RoastedItem>, cs: seq<BlendComponent>, totalQty: real, cost: real)
    requires DrawAll(rs, cs, totalQty, cost).Success? && RoastedOk(rs)
    ensures var d := DrawAll(rs, cs, totalQty, cost).value;
            && RoastedOk(d.roasted)
            && SumOf(d.roasted, RoastedValueOf) == SumOf(rs, RoastedValueOf) - (d.cost - cost)
    decreases |cs|
  {
    if |cs| > 0 {
      DrawAllHead(rs, cs, totalQty, cost);
      var d := DrawOne(rs, cs[0], totalQty, cost).value;
      DrawOneValue(rs, cs[0], totalQty, cost);
      DrawAllValue(d.roasted, cs[1..], totalQty, d.cost);
    }
  }

  /** Components with non-negative shares drawn from an inventory at rest cost nothing
      negative. */
  lemma {:induction false} DrawAllCostGrows(rs: seq<RoastedItem>, cs: seq<BlendComponent>, totalQty: real, cost: real)
    requires DrawAll(rs, cs, totalQty, cost).Success? && RoastedOk(rs) && totalQty >= 0.0
    requires forall i :: 0 <= i < |cs| ==> cs[i].percentage >= 0.0
    ensures DrawAll(rs, cs, totalQty, cost).value.cost >= cost
    decreases |cs|
  {
    if |cs| > 0 {
      DrawAllHead(rs, cs, totalQty, cost);
      var d := DrawOne(rs, cs[0], totalQty, cost).value;
      DrawOneCost(rs, cs[0], totalQty, cost);
      DrawOneValue(rs, cs[0], totalQty, cost);
      assert forall i :: 0 <= i < |cs[1..]| ==> cs[1..][i].percentage >= 0.0 by {
        assert forall i :: 0 <= i < |cs[1..]| ==> cs[1..][i] == cs[i + 1];
      }
      DrawAllCostGrows(d.roasted, cs[1..], totalQty, d.cost);
    }
  }

  /** One component drawn: the first roasted record with its id loses its need at its
      unchanged unit cost, its value is recomputed at that cost, the drawn cost grows by
      need × unit cost, and every other record is as it was. */
  lemma DrawOneRecord(rs: seq<RoastedItem>, c: BlendComponent, totalQty: real, cost: real)
    requires DrawOne(rs, c, totalQty, cost).Success?
    ensures var k := FindRoastedId(rs, c.id).value;
            var d := DrawOne(rs, c, totalQty, cost).value;
            && rs[k].stockKg >= Need(totalQty, c)
            && |d.roasted| == |rs|
            && d.roasted[k].stockKg == rs[k].stockKg - Need(totalQty, c)
            && d.roasted[k].hppPerKg == rs[k].hppPerKg
            && d.roasted[k].totalValue == d.roasted[k].stockKg * rs[k].hppPerKg
            && d.roasted[k].(stockKg := rs[k].stockKg, totalValue := rs[k].totalValue) == rs[k]
            && d.cost == cost + Need(totalQty, c) * rs[k].hppPerKg
            && forall j :: 0 <= j < |rs| && j != k ==> d.roasted[j] == rs[j]
  {
    var k := FindRoastedId(rs, c.id).value;
    var need := Need(totalQty, c);
    assert DrawOne(rs, c, totalQty, cost).value
           == Drawn(rs[k := Draw(rs[k], need)], cost + DrawCost(rs[k], need));
    DrawItem(rs[k], need);
  }

  /** The ids the components name. */
  function IdsOf(cs: seq<BlendComponent>): set<string>
    decreases |cs|
  {
    if |cs| == 0 then {} else {cs[0].id} + IdsOf(cs[1..])
  }

  /** Σ need over the components naming the id; 0 for an id no component names. */
  function NeedFor(cs: seq<BlendComponent>, id: string, totalQty: real): (r: real)
    ensures id !in IdsOf(cs) ==> r == 0.0
    decreases |cs|
  {
    if |cs| == 0 then 0.0
    else (if cs[0].id == id then Need(totalQty, cs[0]) else 0.0) + NeedFor(cs[1..], id, totalQty)
  }

  /** The record at index `j` after a blend's draws: the first record of each id the
      components name loses the needs of all the components naming it, at its unit cost;
      every other record is as it was. */
  function AfterDrawAt(rs: seq<RoastedItem>, cs: seq<BlendComponent>, totalQty: real, j: nat)
    : RoastedItem
    requires j < |rs|
  {
    if rs[j].id in IdsOf(cs) && FindRoastedId(rs, rs[j].id) == Some(j)
    then Draw(rs[j], NeedFor(cs, rs[j].id, totalQty))
    else rs[j]
  }

  /** Σ need × unit cost over the components, each at the first roasted record with its
      id; a component whose id is missing adds nothing. */
  function DrawCostOf(rs: seq<RoastedItem>, cs: seq<BlendComponent>, totalQty: real): real
    decreases |cs|
  {
    if |cs| == 0 then 0.0
    else
      (match FindRoastedId(rs, cs[0].id)
       case None => 0.0
       case Some(k) => DrawCost(rs[k], Need(totalQty, cs[0])))
      + DrawCostOf(rs, cs[1..], totalQty)
  }

  /** Drawing from a record lowers its stock by the quantity and values the rest at its
      unchanged unit cost; nothing else about it changes. */
  lemma DrawItem(r: RoastedItem, qty: real)
    ensures Draw(r, qty).stockKg == r.stockKg - qty
    ensures Draw(r, qty).hppPerKg == r.hppPerKg
    ensures Draw(r, qty).totalValue == Draw(r, qty).stockKg * r.hppPerKg
    ensures Draw(r, qty).(stockKg := r.stockKg, totalValue := r.totalValue) == r
  {
  }

  lemma DrawTwice(r: RoastedItem, a: real, b: real)
    ensures Draw(Draw(r, a), b) == Draw(r, a + b)
  {
    assert r.stockKg - a - b == r.stockKg - (a + b);
  }

  /** Replacing a record by one with the same id leaves every search by id unchanged. */
  lemma FindRoastedIdSameId(rs: seq<RoastedItem>, k: nat, x: RoastedItem, id: string)
    requires k < |rs| && x.id == rs[k].id
    ensures FindRoastedId(rs[k := x], id) == FindRoastedId(rs, id)
  {
    var t := rs[k := x];
    assert forall j :: 0 <= j < |rs| ==> t[j].id == rs[j].id;
  }

  /** Drawing the first component from the first record with its id and then the rest
      leaves each record as the whole draw leaves it. */
  lemma {:induction false} AfterDrawCons(rs: seq<RoastedItem>, cs: seq<BlendComponent>, totalQty: real,
                                         k: nat, j: nat)
    requires |cs| > 0 && FindRoastedId(rs, cs[0].id) == Some(k) && j < |rs|
    ensures AfterDrawAt(rs[k := Draw(rs[k], Need(totalQty, cs[0]))], cs[1..], totalQty, j)
            == AfterDrawAt(rs, cs, totalQty, j)
  {
    var n0 := Need(totalQty, cs[0]);
    var t := rs[k := Draw(rs[k], n0)];
    var rest := cs[1..];
    var id := rs[j].id;
    assert IdsOf(cs) == {cs[0].id} + IdsOf(rest);
    assert t[j].id == id;
    FindRoastedIdSameId(rs, k, Draw(rs[k], n0), id);
    assert NeedFor(cs, id, totalQty) == (if cs[0].id == id then n0 else 0.0) + NeedFor(rest, id, totalQty);
    if j == k {
      DrawTwice(rs[k], n0, NeedFor(rest, id, totalQty));
    }
  }

  /** Draws that go through leave each roasted record as `AfterDrawAt` describes. */
  lemma {:induction false} DrawAllRoasted(rs: seq<RoastedItem>, cs: seq<BlendComponent>, totalQty: real,
                                          cost: real)
    requires DrawAll(rs, cs, totalQty, cost).Success?
    ensures |DrawAll(rs, cs, totalQty, cost).value.roasted| == |rs|
    ensures forall j :: 0 <= j < |rs| ==>
              DrawAll(rs, cs, totalQty, cost).value.roasted[j] == AfterDrawAt(rs, cs, totalQty, j)
    decreases |cs|
  {
    if |cs| > 0 {
      DrawAllHead(rs, cs, totalQty, cost);
      var k := FindRoastedId(rs, cs[0].id).value;
      var d := DrawOne(rs, cs[0], totalQty, cost).value;
      assert d.roasted == rs[k := Draw(rs[k], Need(totalQty, cs[0]))];
      DrawAllRoasted(d.roasted, cs[1..], totalQty, d.cost);
      forall j | 0 <= j < |rs|
        ensures DrawAll(rs, cs, totalQty, cost).value.roasted[j] == AfterDrawAt(rs, cs, totalQty, j)
      {
        AfterDrawCons(rs, cs, totalQty, k, j);
      }
    }
  }

  /** A draw keeps every id and unit cost, so the cost of later components is unchanged. */
  lemma {:induction false} DrawCostOfDraw(rs: seq<RoastedItem>, k: nat, qty: real,
                                          cs: seq<BlendComponent>, totalQty: real)
    requires k < |rs|
    ensures DrawCostOf(rs[k := Draw(rs[k], qty)], cs, totalQty) == DrawCostOf(rs, cs, totalQty)
    decreases |cs|
  {
    if |cs| > 0 {
      var t := rs[k := Draw(rs[k], qty)];
      FindRoastedIdSameId(rs, k, Draw(rs[k], qty), cs[0].id);
      DrawCostOfDraw(rs, k, qty, cs[1..], totalQty);
      match FindRoastedId(rs, cs[0].id)
      case None =>
      case Some(i) =>
        assert t[i].hppPerKg == rs[i].hppPerKg;
    }
  }

  /** Draws that go through add exactly Σ need × unit cost to the running cost, each unit
      cost being that of the record before the blend. */
  lemma {:induction false} DrawAllCost(rs: seq<RoastedItem>, cs: seq<BlendComponent>, totalQty: real,
                                       cost: real)
    requires DrawAll(rs, cs, totalQty, cost).Success?
    ensures DrawAll(rs, cs, totalQty, cost).value.cost == cost + DrawCostOf(rs, cs, totalQty)
    decreases |cs|
  {
    if |cs| > 0 {
      DrawAllHead(rs, cs, totalQty, cost);
      var k := FindRoastedId(rs, cs[0].id).value;
      var n0 := Need(totalQty, cs[0]);
      var d := DrawOne(rs, cs[0], totalQty, cost).value;
      assert d.roasted == rs[k := Draw(rs[k], n0)];
      assert d.cost == cost + DrawCost(rs[k], n0);
      DrawAllCost(d.roasted, cs[1..], totalQty, d.cost);
      DrawCostOfDraw(rs, k, n0, cs[1..], totalQty);
      assert DrawCostOf(rs, cs, totalQty) == DrawCost(rs[k], n0) + DrawCostOf(rs, cs[1..], totalQty);
    }
  }

  /** The store after the blend arrives holds exactly the blend quantity more. */
  lemma BlendIntoStoreStock(ss: seq<StoreItem>, name: string, totalQty: real, hpp: real, now: string)
    ensures SumOf(BlendIntoStore(ss, name, totalQty, hpp, now), StoreStockOf) == SumOf(ss, StoreStockOf) + totalQty
  {
    var value := totalQty * hpp;
    match FindProduct(ss, name)
    case Some(j) =>
      SumUpdate(ss, j, Receive(ss[j], totalQty, value, hpp), StoreStockOf);
    case None =>
      var n := StoreItem(StoreId(name, now), name, "Blend", totalQty, hpp, Markup(hpp), value);
      SumAppend(ss, [n], StoreStockOf);
  }

  /** The store after the blend arrives holds exactly the value blend quantity × unit cost
      more. */
  lemma BlendIntoStoreValue(ss: seq<StoreItem>, name: string, totalQty: real, hpp: real, now: string)
    ensures SumOf(BlendIntoStore(ss, name, totalQty, hpp, now), StoreValueOf)
            == SumOf(ss, StoreValueOf) + totalQty * hpp
  {
    var value := totalQty * hpp;
    match FindProduct(ss, name)
    case Some(j) =>
      SumUpdate(ss, j, Receive(ss[j], totalQty, value, hpp), StoreValueOf);
    case None =>
      var n := StoreItem(StoreId(name, now), name, "Blend", totalQty, hpp, Markup(hpp), value);
      SumAppend(ss, [n], StoreValueOf);
  }

  /** From a store at rest and with a non-negative quantity and unit cost, the store after
      the blend arrives is at rest. */
  lemma BlendIntoStoreOk(ss: seq<StoreItem>, name: string, totalQty: real, hpp: real, now: string)
    requires StoreOk(ss) && totalQty >= 0.0 && hpp >= 0.0
    ensures StoreOk(BlendIntoStore(ss, name, totalQty, hpp, now))
  {
    var value := totalQty * hpp;
    match FindProduct(ss, name)
    case Some(j) =>
      assert StoreItemOk(ss[j]);
      ReceiveKeepsOk(ss[j], totalQty, hpp);
      StoreOkUpdate(ss, j, Receive(ss[j], totalQty, value, hpp));
    case None =>
      ProductNonNegative(totalQty, hpp);
      StoreOkAppend(ss, StoreItem(StoreId(name, now), name, "Blend", totalQty, hpp, Markup(hpp), value));
  }

  /** What a blend that goes through is made of: the drawn roasted inventory, and the store
      with the blend received at the drawn cost per kg. */
  lemma BlendedParts(db: Snapshot, form: BlendForm, now: string, today: string)
    requires Blended(db, form, now, today).Success?
    ensures var d := DrawAll(db.roastedInventory, form.components, form.totalQty, 0.0).value;
            var r := Blended(db, form, now, today).value;
            && form.totalQty > 0.0 && RoundsTo100(PercentTotal(form.components))
            && r.roastedInventory == d.roasted
            && r.storeInventory == BlendIntoStore(db.storeInventory, form.name, form.totalQty,
                                                  BlendHpp(d.cost, form.totalQty), now)
  {
  }

  /** The quantities of a blend that goes through: the roasted stock loses exactly the
      components' needs, which are within the rounding check's half percent of the blend
      quantity, and the store gains the blend quantity. */
  lemma BlendQuantities(db: Snapshot, form: BlendForm, now: string, today: string)
    requires Blended(db, form, now, today).Success?
    ensures SumOf(db.roastedInventory, RoastedStockOf)
            - SumOf(Blended(db, form, now, today).value.roastedInventory, RoastedStockOf)
            == NeedTotal(form.totalQty, form.components)
    ensures 0.995 * form.totalQty <= NeedTotal(form.totalQty, form.components) < 1.005 * form.totalQty
    ensures SumOf(Blended(db, form, now, today).value.storeInventory, StoreStockOf)
            == SumOf(db.storeInventory, StoreStockOf) + form.totalQty
    ensures var rs := db.roastedInventory;
            var t := Blended(db, form, now, today).value.roastedInventory;
            && |t| == |rs|
            && (forall j :: (0 <= j < |rs| && rs[j].id in IdsOf(form.components)
                             && FindRoastedId(rs, rs[j].id) == Some(j)) ==>
                  && t[j].stockKg == rs[j].stockKg - NeedFor(form.components, rs[j].id, form.totalQty)
                  && t[j].hppPerKg == rs[j].hppPerKg)
            && (forall j :: (0 <= j < |rs| && rs[j].id !in IdsOf(form.components)) ==> t[j] == rs[j])
  {
    BlendedParts(db, form, now, today);
    var d := DrawAll(db.roastedInventory, form.components, form.totalQty, 0.0).value;
    DrawAllStock(db.roastedInventory, form.components, form.totalQty, 0.0);
    NeedTotalBounds(form.totalQty, form.components);
    BlendIntoStoreStock(db.storeInventory, form.name, form.totalQty, BlendHpp(d.cost, form.totalQty), now);
  }

  /** The values of a blend that goes through, from inventories at rest and with
      non-negative percentages: the value drawn from the roasted inventory is the value the
      store gains, and both inventories stay at rest. */
  lemma BlendValues(db: Snapshot, form: BlendForm, now: string, today: string)
    requires Blended(db, form, now, today).Success?
    requires RoastedOk(db.roastedInventory) && StoreOk(db.storeInventory)
    requires forall i :: 0 <= i < |form.components| ==> form.components[i].percentage >= 0.0
    ensures var r := Blended(db, form, now, today).value;
            && SumOf(r.roastedInventory, RoastedValueOf) + SumOf(r.storeInventory, StoreValueOf)
               == SumOf(db.roastedInventory, RoastedValueOf) + SumOf(db.storeInventory, StoreValueOf)
            && RoastedOk(r.roastedInventory) && StoreOk(r.storeInventory)
  {
    BlendedParts(db, form, now, today);
    var d := DrawAll(db.roastedInventory, form.components, form.totalQty, 0.0).value;
    assert d.cost >= 0.0 by {
      DrawAllCostGrows(db.roastedInventory, form.components, form.totalQty, 0.0);
    }
    DrawAllValue(db.roastedInventory, form.components, form.totalQty, 0.0);
    StoreGainsCost(db.storeInventory, form.name, form.totalQty, d.cost, now);
  }

  /** The blend arriving in the store at cost c for q units adds c to the store's value and
      keeps a store at rest at rest. */
  lemma StoreGainsCost(ss: seq<StoreItem>, name: string, q: real, c: real, now: string)
    requires q > 0.0
    ensures var t := BlendIntoStore(ss, name, q, BlendHpp(c, q), now);
            && SumOf(t, StoreValueOf) == SumOf(ss, StoreValueOf) + c
            && (StoreOk(ss) && c >= 0.0 ==> StoreOk(t))
  {
    HppScales(c, q);
    BlendIntoStoreValue(ss, name, q, BlendHpp(c, q), now);
    if StoreOk(ss) && c >= 0.0 {
      QuotientNonNegative(c, q);
      BlendIntoStoreOk(ss, name, q, BlendHpp(c, q), now);
    }
  }

  /** q units at c / q each are worth c. */
  lemma HppScales(c: real, q: real)
    requires q > 0.0
    ensures q * BlendHpp(c, q) == c
  {
  }

  /** c / q is not negative for c >= 0 and q > 0. */
  lemma QuotientNonNegative(c: real, q: real)
    requires c >= 0.0 && q > 0.0
    ensures BlendHpp(c, q) >= 0.0
  {
  }

  /** The components' needs, with percentages that round to 100, are between 99.5% and
      100.5% of the blend quantity. */
  lemma NeedTotalBounds(q: real, cs: seq<BlendComponent>)
    requires q > 0.0 && RoundsTo100(PercentTotal(cs))
    ensures 0.995 * q <= NeedTotal(q, cs) < 1.005 * q
  {
    NeedTotalIsShare(q, cs);
    ShareBounds(NeedTotal(q, cs), q, PercentTotal(cs));
  }

  /** A percentage total that rounds to 100 takes between 99.5% and 100.5% of q. */
  lemma ShareBounds(n: real, q: real, p: real)
    requires n == q * (p / 100.0) && q > 0.0 && 99.5 <= p < 100.5
    ensures 0.995 * q <= n < 1.005 * q
  {
    assert q * (p / 100.0) == q * 0.995 + q * ((p - 99.5) / 100.0);
    assert q * ((p - 99.5) / 100.0) >= 0.0;
    assert q * (p / 100.0) == q * 1.005 - q * ((100.5 - p) / 100.0);
    assert q * ((100.5 - p) / 100.0) > 0.0;
  }
}
