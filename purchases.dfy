/** Purchase invoices (src/lib/actions.ts): creating one takes its lines into the warehouse
    and books one credit in the ledger; updating or deleting one rebuilds the whole warehouse
    from the remaining invoice list and replaces or drops the ledger entries that carry the
    invoice number as their reference. */
module Purchases {
  import opened Definitions
  import opened Seqs
  import opened Warehouse

  /** The fields of the purchase form: invoiceId (empty for a new invoice), invoiceNumber,
      supplier, date, the item lines and the payment source account. */
  datatype PurchaseForm = PurchaseForm(invoiceId: string, number: string, supplier: string,
                                       date: string, items: seq<PurchaseItem>,
                                       paymentSource: string)

  function PurchaseId(now: string): string
  {
    "pur-" + now
  }

  /** Total_Faktur: Σ qty × price over the lines. */
  function PurchaseTotal(items: seq<PurchaseItem>): real
  {
    SumOf(items, LineValue)
  }

  /** The invoice record the form describes, under the given id. */
  function InvoiceOf(form: PurchaseForm, id: string): PurchaseInvoice
  {
    PurchaseInvoice(id, form.number, form.supplier, form.date, PurchaseTotal(form.items),
                    "Completed", form.items, form.paymentSource)
  }

  /** The ledger entry of a purchase: a credit of the invoice total on the payment source
      account, referenced by the invoice number. */
  function PurchaseEntry(id: string, inv: PurchaseInvoice): Transaction
  {
    Transaction(id, inv.date, "Pembelian dari " + inv.supplier, inv.number, RawMaterialPurchase,
                0.0, inv.total, inv.paymentSource)
  }

  /** Index of the first invoice with the id (`find`). */
  function FindInvoice(invs: seq<PurchaseInvoice>, id: string): (r: Option<nat>)
    ensures r.Some? ==> r.value < |invs| && invs[r.value].id == id
    ensures r.Some? ==> forall j :: 0 <= j < r.value ==> invs[j].id != id
    ensures r.None? <==> forall j :: 0 <= j < |invs| ==> invs[j].id != id
  {
    if |invs| == 0 then None
    else if invs[0].id == id then Some(0)
    else match FindInvoice(invs[1..], id)
      case None => None
      case Some(i) => Some(i + 1)
  }

  /** The invoices whose id differs (`filter(inv => inv.id !== id)`). */
  function RemoveInvoice(invs: seq<PurchaseInvoice>, id: string): (r: seq<PurchaseInvoice>)
    ensures forall inv :: inv in r <==> inv in invs && inv.id != id
    ensures (forall j :: 0 <= j < |invs| ==> invs[j].id != id) ==> r == invs
  {
    if |invs| == 0 then []
    else if invs[0].id != id then [invs[0]] + RemoveInvoice(invs[1..], id)
    else RemoveInvoice(invs[1..], id)
  }

  lemma {:induction false} RemoveInvoiceAppend(a: seq<PurchaseInvoice>, b: seq<PurchaseInvoice>, id: string)
    ensures RemoveInvoice(a + b, id) == RemoveInvoice(a, id) + RemoveInvoice(b, id)
  {
    if |a| == 0 {
      assert a + b == b;
    } else {
      assert (a + b)[1..] == a[1..] + b;
      RemoveInvoiceAppend(a[1..], b, id);
    }
  }

  /** Every invoice with the id replaced by `inv` (`map`). */
  function ReplaceInvoice(invs: seq<PurchaseInvoice>, id: string, inv: PurchaseInvoice)
    : (r: seq<PurchaseInvoice>)
    ensures |r| == |invs|
    ensures forall j :: 0 <= j < |invs| ==> r[j] == if invs[j].id == id then inv else invs[j]
  {
    seq(|invs|, j requires 0 <= j < |invs| => if invs[j].id == id then inv else invs[j])
  }

  /** The ledger entries whose reference is none of `refs` (`filter(t => t.Referensi !== …)`). */
  function KeepUnreferenced(txs: seq<Transaction>, refs: set<string>): (r: seq<Transaction>)
    ensures forall t :: t in r <==> t in txs && t.reference !in refs
    ensures (forall j :: 0 <= j < |txs| ==> txs[j].reference !in refs) ==> r == txs
  {
    if |txs| == 0 then []
    else if txs[0].reference !in refs then [txs[0]] + KeepUnreferenced(txs[1..], refs)
    else KeepUnreferenced(txs[1..], refs)
  }

  lemma {:induction false} KeepUnreferencedAppend(a: seq<Transaction>, b: seq<Transaction>, refs: set<string>)
    ensures KeepUnreferenced(a + b, refs) == KeepUnreferenced(a, refs) + KeepUnreferenced(b, refs)
  {
    if |a| == 0 {
      assert a + b == b;
    } else {
      assert (a + b)[1..] == a[1..] + b;
      KeepUnreferencedAppend(a[1..], b, refs);
    }
  }

  /** createNewPurchase: the invoice and its ledger entry are appended, the lines are taken
      into the current warehouse. */
  function PurchaseCreated(db: Snapshot, form: PurchaseForm, now: string): (r: Snapshot)
    ensures |r.purchaseInvoices| == |db.purchaseInvoices| + 1
    ensures r.purchaseInvoices[..|db.purchaseInvoices|] == db.purchaseInvoices
    ensures var inv := r.purchaseInvoices[|db.purchaseInvoices|];
            inv.id == PurchaseId(now) && inv.number == form.number && inv.items == form.items
            && inv.total == PurchaseTotal(form.items) && inv.paymentSource == form.paymentSource
            && inv.supplier == form.supplier && inv.date == form.date && inv.status == "Completed"
    ensures |r.transactions| == |db.transactions| + 1
    ensures r.transactions[..|db.transactions|] == db.transactions
    ensures var t := r.transactions[|db.transactions|];
            t.reference == form.number && t.debit == 0.0 && t.credit == PurchaseTotal(form.items)
            && t.accountId == form.paymentSource && t.category == RawMaterialPurchase
            && t.date == form.date
    ensures r.warehouse == ApplyItems(db.warehouse, form.items, form.date, now)
    ensures r == db.(purchaseInvoices := r.purchaseInvoices, transactions := r.transactions,
                     warehouse := r.warehouse)
  {
    var inv := InvoiceOf(form, PurchaseId(now));
    db.(purchaseInvoices := db.purchaseInvoices + [inv],
        transactions := db.transactions + [PurchaseEntry("trx-" + now, inv)],
        warehouse := ApplyItems(db.warehouse, form.items, form.date, now))
  }

  /** deletePurchase: fails exactly when no invoice has the id; otherwise every invoice with
      the id is dropped, as are the ledger entries referencing the number of the first one,
      and the warehouse is rebuilt from the remaining invoices alone. */
  function PurchaseDeleted(db: Snapshot, id: string, now: string): (r: Result<Snapshot>)
    ensures r.Failure? <==> forall j :: 0 <= j < |db.purchaseInvoices| ==> db.purchaseInvoices[j].id != id
    ensures r.Failure? ==> r.error == InvoiceNotFound
    ensures r.Success? ==> forall inv :: inv in r.value.purchaseInvoices <==>
                                         inv in db.purchaseInvoices && inv.id != id
    ensures r.Success? ==> r.value.purchaseInvoices == RemoveInvoice(db.purchaseInvoices, id)
    ensures r.Success? ==>
              r.value.transactions == KeepUnreferenced(db.transactions,
                                        {db.purchaseInvoices[FindInvoice(db.purchaseInvoices, id).value].number})
    ensures r.Success? ==> r.value.warehouse == Rebuild(r.value.purchaseInvoices, now)
    ensures r.Success? ==> r.value == db.(purchaseInvoices := r.value.purchaseInvoices,
                                          transactions := r.value.transactions,
                                          warehouse := r.value.warehouse)
  {
    match FindInvoice(db.purchaseInvoices, id)
    case None => Failure(InvoiceNotFound)
    case Some(k) =>
      var remaining := RemoveInvoice(db.purchaseInvoices, id);
      Success(db.(purchaseInvoices := remaining,
                  transactions := KeepUnreferenced(db.transactions, {db.purchaseInvoices[k].number}),
                  warehouse := Rebuild(remaining, now)))
  }

  /** updatePurchase: fails without an id or when no invoice has it; otherwise every invoice
      with the id becomes the form's invoice, the ledger entries referencing the old or the
      new number give way to one new entry, and the warehouse is rebuilt. */
  function PurchaseUpdated(db: Snapshot, form: PurchaseForm, now: string): (r: Result<Snapshot>)
    ensures form.invoiceId == "" ==> r == Failure(MissingInvoiceId)
    ensures form.invoiceId != "" ==>
              (r.Failure? <==> forall j :: 0 <= j < |db.purchaseInvoices| ==>
                                             db.purchaseInvoices[j].id != form.invoiceId)
    ensures form.invoiceId != "" && r.Failure? ==> r.error == InvoiceNotFound
    ensures r.Success? ==> |r.value.purchaseInvoices| == |db.purchaseInvoices|
    ensures r.Success? ==>
              r.value.purchaseInvoices == ReplaceInvoice(db.purchaseInvoices, form.invoiceId,
                                                         InvoiceOf(form, form.invoiceId))
    ensures r.Success? ==>
              r.value.transactions ==
                KeepUnreferenced(db.transactions,
                                 {db.purchaseInvoices[FindInvoice(db.purchaseInvoices, form.invoiceId).value].number,
                                  form.number})
                + [PurchaseEntry("trx-upd-" + now, InvoiceOf(form, form.invoiceId))]
    ensures r.Success? ==> r.value.warehouse == Rebuild(r.value.purchaseInvoices, now)
    ensures r.Success? ==> r.value == db.(purchaseInvoices := r.value.purchaseInvoices,
                                          transactions := r.value.transactions,
                                          warehouse := r.value.warehouse)
  {
    if form.invoiceId == "" then Failure(MissingInvoiceId)
    else match FindInvoice(db.purchaseInvoices, form.invoiceId)
      case None => Failure(InvoiceNotFound)
      case Some(k) =>
        var inv := InvoiceOf(form, form.invoiceId);
        var updated := ReplaceInvoice(db.purchaseInvoices, form.invoiceId, inv);
        var kept := KeepUnreferenced(db.transactions, {db.purchaseInvoices[k].number, inv.number});
        Success(db.(purchaseInvoices := updated,
                    transactions := kept + [PurchaseEntry("trx-upd-" + now, inv)],
                    warehouse := Rebuild(updated, now)))
  }

  /** createPurchase: a form carrying an invoice id updates that invoice, any other creates one. */
  function PurchaseSubmitted(db: Snapshot, form: PurchaseForm, now: string): Result<Snapshot>
  {
    if form.invoiceId != "" then PurchaseUpdated(db, form, now)
    else Success(PurchaseCreated(db, form, now))
  }

  method DeletePurchase(db: Snapshot, id: string, now: string) returns (r: Result<Snapshot>)
    ensures r == PurchaseDeleted(db, id, now)
  {
    var found := FindInvoice(db.purchaseInvoices, id);
    if found.None? {
      return Failure(InvoiceNotFound);
    }
    var invoiceToDelete := db.purchaseInvoices[found.value];
    var remaining := RemoveInvoice(db.purchaseInvoices, id);
    var ws := RebuildWarehouse(remaining, now);
    r := Success(db.(purchaseInvoices := remaining,
                     transactions := KeepUnreferenced(db.transactions, {invoiceToDelete.number}),
                     warehouse := ws));
  }

  method UpdatePurchase(db: Snapshot, form: PurchaseForm, now: string) returns (r: Result<Snapshot>)
    ensures r == PurchaseUpdated(db, form, now)
  {
    if form.invoiceId == "" {
      return Failure(MissingInvoiceId);
    }
    var found := FindInvoice(db.purchaseInvoices, form.invoiceId);
    if found.None? {
      return Failure(InvoiceNotFound);
    }
    var oldInvoice := db.purchaseInvoices[found.value];
    var newInvoice := InvoiceOf(form, form.invoiceId);
    var updated := ReplaceInvoice(db.purchaseInvoices, form.invoiceId, newInvoice);
    var ws := RebuildWarehouse(updated, now);
    var kept := KeepUnreferenced(db.transactions, {oldInvoice.number, newInvoice.number});
    r := Success(db.(purchaseInvoices := updated,
                     transactions := kept + [PurchaseEntry("trx-upd-" + now, newInvoice)],
                     warehouse := ws));
  }

  method CreatePurchase(db: Snapshot, form: PurchaseForm, now: string) returns (r: Result<Snapshot>)
    ensures r == PurchaseSubmitted(db, form, now)
  {
    if form.invoiceId != "" {
      r := UpdatePurchase(db, form, now);
    } else {
      var inv := InvoiceOf(form, PurchaseId(now));
      var ws := ApplyItemsToWarehouse(db.warehouse, form.items, inv.date, now);
      r := Success(db.(purchaseInvoices := db.purchaseInvoices + [inv],
                       transactions := db.transactions + [PurchaseEntry("trx-" + now, inv)],
                       warehouse := ws));
    }
  }

  // ---------------------------------------------------------------------------
  // Properties

  /** The warehouse is what the purchase invoices alone put into it (records' ids aside). */
  ghost predicate ReflectsPurchases(db: Snapshot)
  {
    WithoutIds(db.warehouse) == WithoutIds(Rebuild(db.purchaseInvoices, ""))
  }

  lemma {:induction false} RebuildFromAppend(ws: seq<WarehouseItem>, invs: seq<PurchaseInvoice>,
                                             inv: PurchaseInvoice, now: string)
    ensures RebuildFrom(ws, invs + [inv], now)
         == ApplyItems(RebuildFrom(ws, invs, now), inv.items, inv.date, now)
    decreases |invs|
  {
    if |invs| == 0 {
      assert (invs + [inv])[1..] == [];
    } else {
      assert (invs + [inv])[1..] == invs[1..] + [inv];
      RebuildFromAppend(ApplyItems(ws, invs[0].items, invs[0].date, now), invs[1..], inv, now);
    }
  }

  /** Creating a purchase keeps the warehouse in step with the invoice list. */
  lemma CreateKeepsReflection(db: Snapshot, form: PurchaseForm, now: string)
    requires ReflectsPurchases(db)
    ensures ReflectsPurchases(PurchaseCreated(db, form, now))
  {
    var inv := InvoiceOf(form, PurchaseId(now));
    RebuildFromAppend([], db.purchaseInvoices, inv, "");
    ApplyItemsIgnoresIds(db.warehouse, Rebuild(db.purchaseInvoices, ""), form.items, form.date, now, "");
  }

  /** Updating or deleting a purchase leaves the warehouse in step with the invoice list,
      whatever the warehouse held before (so also after roasting consumed from it). */
  lemma UpdateDeleteReflect(db: Snapshot, form: PurchaseForm, id: string, now: string)
    ensures PurchaseUpdated(db, form, now).Success? ==> ReflectsPurchases(PurchaseUpdated(db, form, now).value)
    ensures PurchaseDeleted(db, id, now).Success? ==> ReflectsPurchases(PurchaseDeleted(db, id, now).value)
  {
    var u := PurchaseUpdated(db, form, now);
    if u.Success? {
      RebuildIsDeterministic(u.value.purchaseInvoices, now, "");
    }
    var d := PurchaseDeleted(db, id, now);
    if d.Success? {
      RebuildIsDeterministic(d.value.purchaseInvoices, now, "");
    }
  }

  /** A new purchase adds exactly its total to the warehouse value and credits the same
      amount to its payment source. */
  lemma CreateBooksTotal(db: Snapshot, form: PurchaseForm, now: string)
    ensures var r := PurchaseCreated(db, form, now);
            && SumOf(r.warehouse, ValueOf) == SumOf(db.warehouse, ValueOf) + PurchaseTotal(form.items)
            && SumOf(r.warehouse, StockOf) == SumOf(db.warehouse, StockOf) + SumOf(form.items, LineQty)
            && r.transactions[|r.transactions| - 1].credit == PurchaseTotal(form.items)
            && r.transactions[|r.transactions| - 1].debit == 0.0
            && r.transactions[|r.transactions| - 1].accountId == form.paymentSource
  {
    ApplyItemsTotals(db.warehouse, form.items, form.date, now);
  }

  /** Purchases keep the stock invariant when their lines are non-negative. */
  lemma PurchasesKeepOk(db: Snapshot, form: PurchaseForm, id: string, now: string)
    requires WarehouseOk(db.warehouse) && InvoicesOk(db.purchaseInvoices) && ItemsOk(form.items)
    ensures WarehouseOk(PurchaseCreated(db, form, now).warehouse)
    ensures PurchaseUpdated(db, form, now).Success? ==>
              WarehouseOk(PurchaseUpdated(db, form, now).value.warehouse)
    ensures PurchaseDeleted(db, id, now).Success? ==>
              WarehouseOk(PurchaseDeleted(db, id, now).value.warehouse)
  {
    ApplyItemsKeepsOk(db.warehouse, form.items, form.date, now);
    var u := PurchaseUpdated(db, form, now);
    if u.Success? {
      var invs := u.value.purchaseInvoices;
      forall j | 0 <= j < |invs| ensures ItemsOk(invs[j].items) {
        assert invs[j] == InvoiceOf(form, form.invoiceId) || invs[j] == db.purchaseInvoices[j];
      }
      RebuildOk(invs, now);
    }
    var d := PurchaseDeleted(db, id, now);
    if d.Success? {
      var invs := d.value.purchaseInvoices;
      forall j | 0 <= j < |invs| ensures ItemsOk(invs[j].items) {
        assert invs[j] in db.purchaseInvoices;
      }
      RebuildOk(invs, now);
    }
  }

  /** After an update the new entry is the only ledger entry referencing the new invoice
      number, none references the old one, every entry referencing neither is kept, and the
      new entry credits the new total to the new payment source. */
  lemma UpdateLeavesOneEntry(db: Snapshot, form: PurchaseForm, now: string)
    requires PurchaseUpdated(db, form, now).Success?
    ensures var oldNumber := db.purchaseInvoices[FindInvoice(db.purchaseInvoices, form.invoiceId).value].number;
            var txs := PurchaseUpdated(db, form, now).value.transactions;
            && |txs| > 0
            && txs[|txs| - 1] == PurchaseEntry("trx-upd-" + now, InvoiceOf(form, form.invoiceId))
            && txs[|txs| - 1].credit == PurchaseTotal(form.items)
            && txs[|txs| - 1].accountId == form.paymentSource
            && (forall j :: 0 <= j < |txs| - 1 ==>
                  txs[j].reference != form.number && txs[j].reference != oldNumber)
            && (forall t :: (t in db.transactions && t.reference != form.number
                             && t.reference != oldNumber) ==> t in txs)
  {
    var k := FindInvoice(db.purchaseInvoices, form.invoiceId).value;
    var kept := KeepUnreferenced(db.transactions, {db.purchaseInvoices[k].number, form.number});
    var txs := PurchaseUpdated(db, form, now).value.transactions;
    assert txs[..|txs| - 1] == kept;
    forall j | 0 <= j < |txs| - 1
      ensures txs[j].reference != form.number && txs[j].reference != db.purchaseInvoices[k].number
    {
      assert txs[j] in kept;
    }
  }

  lemma RemoveAppended(invs: seq<PurchaseInvoice>, inv: PurchaseInvoice)
    requires forall j :: 0 <= j < |invs| ==> invs[j].id != inv.id
    ensures RemoveInvoice(invs + [inv], inv.id) == invs
  {
    RemoveInvoiceAppend(invs, [inv], inv.id);
    assert RemoveInvoice([inv], inv.id) == [];
  }

  lemma FindAppended(invs: seq<PurchaseInvoice>, inv: PurchaseInvoice)
    requires forall j :: 0 <= j < |invs| ==> invs[j].id != inv.id
    ensures FindInvoice(invs + [inv], inv.id) == Some(|invs|)
  {
    var s := invs + [inv];
    assert s[|invs|] == inv;
    assert forall j :: 0 <= j < |invs| ==> s[j] == invs[j];
  }

  lemma KeepAppended(txs: seq<Transaction>, t: Transaction)
    requires forall j :: 0 <= j < |txs| ==> txs[j].reference != t.reference
    ensures KeepUnreferenced(txs + [t], {t.reference}) == txs
  {
    KeepUnreferencedAppend(txs, [t], {t.reference});
    assert KeepUnreferenced([t], {t.reference}) == [];
  }

  /** Deleting an invoice just created, under a fresh id whose number no earlier ledger entry
      references, gives back the snapshot it was created on, its warehouse recomputed from
      the invoices: records' ids aside, the same one when it reflected the purchases. */
  lemma DeleteUndoesCreate(db: Snapshot, form: PurchaseForm, now: string)
    requires forall j :: 0 <= j < |db.purchaseInvoices| ==> db.purchaseInvoices[j].id != PurchaseId(now)
    requires forall j :: 0 <= j < |db.transactions| ==> db.transactions[j].reference != form.number
    ensures var r := PurchaseDeleted(PurchaseCreated(db, form, now), PurchaseId(now), now);
            && r.Success?
            && r.value == db.(warehouse := Rebuild(db.purchaseInvoices, now))
            && (ReflectsPurchases(db) ==> WithoutIds(r.value.warehouse) == WithoutIds(db.warehouse))
  {
    var inv := InvoiceOf(form, PurchaseId(now));
    RemoveAppended(db.purchaseInvoices, inv);
    FindAppended(db.purchaseInvoices, inv);
    KeepAppended(db.transactions, PurchaseEntry("trx-" + now, inv));
    if ReflectsPurchases(db) {
      RebuildIsDeterministic(db.purchaseInvoices, now, "");
    }
  }
}
