/** What the actions of src/lib/actions.ts do to the figures the refresh derives
    (src/lib/data.ts) and the balance sheet shows (src/components/sections/balance-sheet.tsx):
    the account balances, the current balance, the inventory value and the total assets. */
module Flows {
  import opened Definitions
  import opened Seqs
  import opened Warehouse
  import opened Roasting
  import opened Store
  import opened Transfer
  import opened Sales
  import opened Blending
  import opened Purchases
  import opened Ledger
  import opened Accounts
  import opened Refresh
  import opened BalanceSheet

  /** The account an action's form names, "cash" when it names none. */
  function Named(accountId: string): string
  {
    if accountId == "" then "cash" else accountId
  }

  lemma OneEntry(t: Transaction, a: string)
    ensures NetFlow([t], a) == if AccountOf(t) == a then Net(t) else 0.0
    ensures SumOf([t], Net) == Net(t)
  {
    assert [t][1..] == [];
  }

  // ---------------------------------------------------------------------------
  // Account balances

  /** An expense lowers the account it is paid from, and the current balance, by its amount;
      no other account moves. */
  lemma ExpenseLowersAccount(db: Snapshot, f: ExpenseForm, now: string)
    ensures var r := ExpenseCreated(db, f, now);
            && (forall a :: Get(AccountBalancesOf(r.settings, r.transactions), a)
                            == Get(AccountBalancesOf(db.settings, db.transactions), a)
                               - (if a == Named(f.accountId) then f.amount else 0.0))
            && Total(AccountBalancesOf(r.settings, r.transactions))
               == Total(AccountBalancesOf(db.settings, db.transactions)) - f.amount
  {
    var r := ExpenseCreated(db, f, now);
    var t := r.transactions[0];
    assert r.transactions == [t] + db.transactions;
    LedgerGrows(db.settings, db.transactions, [t]);
    forall a ensures NetFlow([t], a) == if AccountOf(t) == a then Net(t) else 0.0 {
      OneEntry(t, a);
    }
    OneEntry(t, "cash");
  }

  /** A new asset lowers "cash", and the current balance, by its value. */
  lemma AssetLowersCash(db: Snapshot, f: AssetForm, now: string)
    ensures var r := AssetCreated(db, f, now);
            && (forall a :: Get(AccountBalancesOf(r.settings, r.transactions), a)
                            == Get(AccountBalancesOf(db.settings, db.transactions), a)
                               - (if a == "cash" then f.value else 0.0))
            && Total(AccountBalancesOf(r.settings, r.transactions))
               == Total(AccountBalancesOf(db.settings, db.transactions)) - f.value
  {
    var r := AssetCreated(db, f, now);
    var t := r.transactions[|db.transactions|];
    assert r.transactions == db.transactions + [t];
    LedgerGrows(db.settings, db.transactions, [t]);
    forall a ensures NetFlow([t], a) == if AccountOf(t) == a then Net(t) else 0.0 {
      OneEntry(t, a);
    }
    OneEntry(t, "cash");
  }

  /** A new purchase lowers its payment source, and the current balance, by its total. */
  lemma PurchaseLowersPaymentSource(db: Snapshot, form: PurchaseForm, now: string)
    ensures var r := PurchaseCreated(db, form, now);
            && (forall a :: Get(AccountBalancesOf(r.settings, r.transactions), a)
                            == Get(AccountBalancesOf(db.settings, db.transactions), a)
                               - (if a == Named(form.paymentSource) then PurchaseTotal(form.items) else 0.0))
            && Total(AccountBalancesOf(r.settings, r.transactions))
               == Total(AccountBalancesOf(db.settings, db.transactions)) - PurchaseTotal(form.items)
  {
    var r := PurchaseCreated(db, form, now);
    var t := PurchaseEntry("trx-" + now, InvoiceOf(form, PurchaseId(now)));
    assert r.transactions == db.transactions + [t];
    LedgerGrows(db.settings, db.transactions, [t]);
    forall a ensures NetFlow([t], a) == if AccountOf(t) == a then Net(t) else 0.0 {
      OneEntry(t, a);
    }
    OneEntry(t, "cash");
  }

  /** What a sale posts: the invoice total when it is Paid or Lunas, less the cost of goods
      when that is positive, all on "cash" whatever the customer paid with. */
  function SaleCashEffect(form: SaleForm, cogs: real): real
  {
    (if IsPaid(form.status) then SaleTotal(form.items) else 0.0) - (if cogs > 0.0 then cogs else 0.0)
  }

  lemma SaleEntriesFlow(form: SaleForm, cogs: real, now: string, a: string)
    ensures NetFlow(SaleEntries(form, cogs, now), a) == if a == "cash" then SaleCashEffect(form, cogs) else 0.0
    ensures SumOf(SaleEntries(form, cogs, now), Net) == SaleCashEffect(form, cogs)
  {
    var rev: seq<Transaction> := if IsPaid(form.status) then [RevenueEntry(form, now)] else [];
    var cost: seq<Transaction> := if cogs > 0.0 then [CogsEntry(form, cogs, now)] else [];
    NetFlowAppend(rev, cost, a);
    SumAppend(rev, cost, Net);
    if IsPaid(form.status) {
      OneEntry(RevenueEntry(form, now), a);
    }
    if cogs > 0.0 {
      OneEntry(CogsEntry(form, cogs, now), a);
    }
  }

  /** A sale moves "cash", and the current balance, by SaleCashEffect, and no other account. */
  lemma SaleMovesCash(db: Snapshot, form: SaleForm, now: string)
    requires SaleMade(db, form, now).Success?
    ensures var r := SaleMade(db, form, now).value;
            var cogs := SellAll(db.storeInventory, form.items, 0.0).value.cogs;
            && (forall a :: Get(AccountBalancesOf(r.settings, r.transactions), a)
                            == Get(AccountBalancesOf(db.settings, db.transactions), a)
                               + (if a == "cash" then SaleCashEffect(form, cogs) else 0.0))
            && Total(AccountBalancesOf(r.settings, r.transactions))
               == Total(AccountBalancesOf(db.settings, db.transactions)) + SaleCashEffect(form, cogs)
  {
    var cogs := SellAll(db.storeInventory, form.items, 0.0).value.cogs;
    var more := SaleEntries(form, cogs, now);
    LedgerGrows(db.settings, db.transactions, more);
    forall a ensures NetFlow(more, a) == if a == "cash" then SaleCashEffect(form, cogs) else 0.0 {
      SaleEntriesFlow(form, cogs, now, a);
    }
    SaleEntriesFlow(form, cogs, now, "cash");
  }

  /** A blend's entry carries neither debit nor credit: no balance moves. */
  lemma BlendKeepsBalances(db: Snapshot, form: BlendForm, now: string, today: string)
    requires Blended(db, form, now, today).Success?
    ensures var r := Blended(db, form, now, today).value;
            && (forall a :: Get(AccountBalancesOf(r.settings, r.transactions), a)
                            == Get(AccountBalancesOf(db.settings, db.transactions), a))
            && Total(AccountBalancesOf(r.settings, r.transactions))
               == Total(AccountBalancesOf(db.settings, db.transactions))
  {
    var t := BlendEntry(form.name, now, today);
    LedgerGrows(db.settings, db.transactions, [t]);
    forall a ensures NetFlow([t], a) == 0.0 {
      OneEntry(t, a);
    }
    OneEntry(t, "cash");
  }

  // ---------------------------------------------------------------------------
  // Inventory value

  /** A transfer from inventories at rest changes the inventory value not at all. */
  lemma TransferKeepsInventoryValue(db: Snapshot, ids: seq<string>, now: string)
    requires InventoriesOk(db) && Transferred(db, ids, now).Success?
    ensures InventoryValue(Transferred(db, ids, now).value) == InventoryValue(db)
  {
    TransferAllConserves(Shelves(db.roastedInventory, db.storeInventory), ids, now);
  }

  /** A blend from inventories at rest with non-negative percentages changes the inventory
      value not at all. */
  lemma BlendKeepsInventoryValue(db: Snapshot, form: BlendForm, now: string, today: string)
    requires Blended(db, form, now, today).Success?
    requires RoastedOk(db.roastedInventory) && StoreOk(db.storeInventory)
    requires forall i :: 0 <= i < |form.components| ==> form.components[i].percentage >= 0.0
    ensures InventoryValue(Blended(db, form, now, today).value) == InventoryValue(db)
  {
    BlendValues(db, form, now, today);
  }

  /** Roasting with the unit cost the form computes changes the inventory value not at all;
      with any other unit cost the value changes by the difference (ConsumeValue and
      TakeInRoastValue). */
  lemma RoastingKeepsInventoryValue(db: Snapshot, form: RoastForm, now: string)
    requires RoastingDone(db, form, now).Success?
    requires WarehouseItemOk(db.warehouse[FindBean(db.warehouse, form.greenBeans).value])
    requires OutputKg(form.inputKg, form.yieldPercent) > 0.0
    requires form.hppPerKg == ClientHppPerKg(db.warehouse[FindBean(db.warehouse, form.greenBeans).value].avgHpp,
                                             form.inputKg, form.yieldPercent)
    ensures InventoryValue(RoastingDone(db, form, now).value) == InventoryValue(db)
  {
    RoastingConservesValue(db, form, now);
  }

  /** A new purchase adds its total to the inventory value. */
  lemma PurchaseAddsInventoryValue(db: Snapshot, form: PurchaseForm, now: string)
    ensures InventoryValue(PurchaseCreated(db, form, now)) == InventoryValue(db) + PurchaseTotal(form.items)
  {
    CreateBooksTotal(db, form, now);
  }

  // ---------------------------------------------------------------------------
  // Total assets

  lemma {:induction false} BankTotalSame(b1: Balances, b2: Balances, banks: seq<BankAccount>)
    requires forall i :: 0 <= i < |banks| ==> Get(b1, banks[i].id) == Get(b2, banks[i].id)
    ensures BankTotal(b1, banks) == BankTotal(b2, banks)
  {
    if |banks| > 0 {
      assert forall i :: 1 <= i < |banks| ==> banks[1..][i - 1] == banks[i];
      BankTotalSame(b1, b2, banks[1..]);
    }
  }

  lemma {:induction false} BankTotalAppend(b: Balances, banks: seq<BankAccount>, acc: BankAccount)
    ensures BankTotal(b, banks + [acc]) == BankTotal(b, banks) + Get(b, acc.id)
  {
    if |banks| == 0 {
      assert (banks + [acc])[1..] == [];
    } else {
      assert (banks + [acc])[1..] == banks[1..] + [acc];
      BankTotalAppend(b, banks[1..], acc);
    }
  }

  /** The balance sheet of two refreshed snapshots that differ only in their ledger, when the
      ledgers move no bank account: the total assets differ by how much cash and inventory
      differ. */
  lemma AssetsTrackCashAndInventory(db: Snapshot, db2: Snapshot, stamp: string, yearsHeld: string -> real)
    requires db2.settings == db.settings && db2.salesInvoices == db.salesInvoices && db2.assets == db.assets
    requires var b1 := AccountBalancesOf(db.settings, db.transactions);
             var b2 := AccountBalancesOf(db2.settings, db2.transactions);
             forall acc :: acc in BankAccountsOf(db.settings) ==> Get(b1, acc.id) == Get(b2, acc.id)
    ensures var n1 := NeracaOf(RefreshOf(db, stamp), yearsHeld);
            var n2 := NeracaOf(RefreshOf(db2, stamp), yearsHeld);
            n2.totalAssets - n1.totalAssets == (n2.cash - n1.cash) + (InventoryValue(db2) - InventoryValue(db))
  {
    var banks := BankAccountsOf(db.settings);
    var b1 := AccountBalancesOf(db.settings, db.transactions);
    var b2 := AccountBalancesOf(db2.settings, db2.transactions);
    forall i | 0 <= i < |banks| ensures Get(b1, banks[i].id) == Get(b2, banks[i].id) {
      assert banks[i] in banks;
    }
    BankTotalSame(b1, b2, banks);
    StatementBalances(RefreshOf(db, stamp), yearsHeld);
    StatementBalances(RefreshOf(db2, stamp), yearsHeld);
  }

  /** Paying a purchase from "cash" (or from no named account) leaves the total assets as
      they were: cash falls by what the inventory gains. */
  lemma CashPurchaseKeepsAssets(db: Snapshot, form: PurchaseForm, now: string, stamp: string,
                                yearsHeld: string -> real)
    requires Named(form.paymentSource) == "cash"
    requires forall acc :: acc in BankAccountsOf(db.settings) ==> acc.id != "cash"
    ensures NeracaOf(RefreshOf(PurchaseCreated(db, form, now), stamp), yearsHeld).totalAssets
            == NeracaOf(RefreshOf(db, stamp), yearsHeld).totalAssets
  {
    var r := PurchaseCreated(db, form, now);
    PurchaseLowersPaymentSource(db, form, now);
    PurchaseAddsInventoryValue(db, form, now);
    AssetsTrackCashAndInventory(db, r, stamp, yearsHeld);
  }

  /** A sale that goes through, from a store at rest: the cost of the goods is taken out of
      the inventory value AND, by the cost-of-goods entry on "cash", out of the cash balance
      as well, so the total assets change by the invoice total less twice that cost
      whenever the cost is positive. */
  lemma SaleAssetsChange(db: Snapshot, form: SaleForm, now: string, stamp: string,
                         yearsHeld: string -> real)
    requires SaleMade(db, form, now).Success? && StoreOk(db.storeInventory)
    requires forall acc :: acc in BankAccountsOf(db.settings) ==> acc.id != "cash"
    ensures var cogs := SellAll(db.storeInventory, form.items, 0.0).value.cogs;
            NeracaOf(RefreshOf(SaleMade(db, form, now).value, stamp), yearsHeld).totalAssets
            == NeracaOf(RefreshOf(db, stamp), yearsHeld).totalAssets
               + SaleTotal(form.items) - cogs - (if cogs > 0.0 then cogs else 0.0)
  {
    var r := SaleMade(db, form, now).value;
    var cogs := SellAll(db.storeInventory, form.items, 0.0).value.cogs;
    SaleMovesCash(db, form, now);
    SaleKeepsStoreOk(db.storeInventory, form.items, 0.0);
    var banks := BankAccountsOf(db.settings);
    var b1 := AccountBalancesOf(db.settings, db.transactions);
    var b2 := AccountBalancesOf(r.settings, r.transactions);
    forall i | 0 <= i < |banks| ensures Get(b1, banks[i].id) == Get(b2, banks[i].id) {
      assert banks[i] in banks;
    }
    BankTotalSame(b1, b2, banks);
    var inv := SaleInvoiceOf(form, now);
    SumPermutation(SortNewestFirst(db.salesInvoices, SalesDate), db.salesInvoices, UnpaidTotal);
    SumPermutation(SortNewestFirst(db.salesInvoices + [inv], SalesDate), db.salesInvoices + [inv], UnpaidTotal);
    SumAppend(db.salesInvoices, [inv], UnpaidTotal);
    assert SumOf([inv], UnpaidTotal) == UnpaidTotal(inv);
    StatementBalances(RefreshOf(db, stamp), yearsHeld);
    StatementBalances(RefreshOf(r, stamp), yearsHeld);
  }

  /** A new bank account appears on the balance sheet once: its opening balance and the
      entries on it reach the total assets through the bank balances, while its synthetic
      "Bank: …" asset adds nothing; the current balance rises by the opening balance. */
  lemma BankAccountCountedOnce(db: Snapshot, f: BankForm, now: string, today: string, stamp: string,
                               yearsHeld: string -> real)
    requires forall acc :: acc in BankAccountsOf(db.settings) ==> acc.id != "bank-" + now
    ensures var r := BankAccountCreated(db, f, now, today);
            NeracaOf(RefreshOf(r, stamp), yearsHeld).totalAssets
            == NeracaOf(RefreshOf(db, stamp), yearsHeld).totalAssets
               + f.balance + NetFlow(db.transactions, "bank-" + now)
    ensures var r := BankAccountCreated(db, f, now, today);
            RefreshOf(r, stamp).currentBalance == RefreshOf(db, stamp).currentBalance + f.balance
  {
    var r := BankAccountCreated(db, f, now, today);
    var acc := BankAccount("bank-" + now, f.accountName, f.accountNumber, f.bankName, f.balance);
    var banks := BankAccountsOf(db.settings);
    assert r.settings == db.settings.(bankAccounts := Some(banks + [acc]));
    assert acc.id != "cash" by {
      assert acc.id[0] == 'b';
    }
    NewBankAccountBalances(db.settings, acc, db.transactions);
    var b1 := AccountBalancesOf(db.settings, db.transactions);
    var b2 := AccountBalancesOf(r.settings, r.transactions);
    forall i | 0 <= i < |banks| ensures Get(b1, banks[i].id) == Get(b2, banks[i].id) {
      assert banks[i] in banks;
    }
    BankTotalSame(b1, b2, banks);
    BankTotalAppend(b2, banks, acc);
    var a := r.assets[|db.assets|];
    assert r.assets == db.assets + [a];
    assert StartsWith(a.name, "Bank:");
    BankAssetNotCounted(db.assets, a, yearsHeld);
    StatementBalances(RefreshOf(db, stamp), yearsHeld);
    StatementBalances(RefreshOf(r, stamp), yearsHeld);
  }
}
