/** The balance sheet ("neraca") of src/components/sections/balance-sheet.tsx: current
    assets (cash, bank balances, receivables, inventory, other current assets), fixed assets
    at book value, no liabilities, and equity that closes the statement. */
module BalanceSheet {
  import opened Definitions
  import opened Seqs
  import opened Warehouse
  import opened Roasting
  import opened Store
  import opened Sales
  import opened Accounts
  import opened Refresh

  // ---------------------------------------------------------------------------
  // Categories

  function LowerChar(c: char): char
  {
    if 'A' <= c <= 'Z' then (c as int + 32) as char else c
  }

  /** `toLowerCase()` on ASCII letters. */
  function Lower(s: string): (r: string)
    ensures |r| == |s| && forall j :: 0 <= j < |s| ==> r[j] == LowerChar(s[j])
  {
    if |s| == 0 then "" else [LowerChar(s[0])] + Lower(s[1..])
  }

  /** A current asset other than the synthetic "Bank:" assets, whose money the bank balances
      already hold. */
  predicate CountsAsCurrent(a: Asset)
  {
    Lower(a.category) == "current" && !StartsWith(a.name, "Bank:")
  }

  predicate IsFixed(a: Asset)
  {
    Lower(a.category) == "fixed"
  }

  // ---------------------------------------------------------------------------
  // Receivables and inventory

  function InvoiceTotalOf(inv: SalesInvoice): real
  {
    inv.total
  }

  function UnpaidTotal(inv: SalesInvoice): real
  {
    if IsPaid(inv.status) then 0.0 else inv.total
  }

  function PaidTotal(inv: SalesInvoice): real
  {
    if IsPaid(inv.status) then inv.total else 0.0
  }

  /** `piutang`: the totals of the invoices neither Paid nor Lunas. */
  function Receivables(invs: seq<SalesInvoice>): real
  {
    SumOf(invs, UnpaidTotal)
  }

  /** The totals of the invoices Paid or Lunas. */
  function Collected(invs: seq<SalesInvoice>): real
  {
    SumOf(invs, PaidTotal)
  }

  /** `persediaan`: the value of the three inventories. */
  function InventoryValue(db: Snapshot): real
  {
    SumOf(db.warehouse, ValueOf) + SumOf(db.roastedInventory, RoastedValueOf)
    + SumOf(db.storeInventory, StoreValueOf)
  }

  /** `totalBankBalance`: each bank account's refreshed balance, 0 when it has none. */
  function BankTotal(b: Balances, banks: seq<BankAccount>): real
  {
    if |banks| == 0 then 0.0 else Get(b, banks[0].id) + BankTotal(b, banks[1..])
  }

  /** A line of `bankDetails`. */
  datatype BankLine = BankLine(name: string, balance: real)

  function BankDetails(b: Balances, banks: seq<BankAccount>): (r: seq<BankLine>)
    ensures |r| == |banks|
    ensures forall i :: 0 <= i < |banks| ==>
              r[i] == BankLine(banks[i].bankName + " (" + banks[i].accountName + ")", Get(b, banks[i].id))
  {
    if |banks| == 0 then []
    else [BankLine(banks[0].bankName + " (" + banks[0].accountName + ")", Get(b, banks[0].id))]
         + BankDetails(b, banks[1..])
  }

  // ---------------------------------------------------------------------------
  // Other current assets and fixed assets

  function NonStockCurrent(assets: seq<Asset>): real
  {
    if |assets| == 0 then 0.0
    else (if CountsAsCurrent(assets[0]) then assets[0].value else 0.0) + NonStockCurrent(assets[1..])
  }

  /** `currentAssetsNonStock`: the source's accumulator over the current assets. */
  method CurrentAssetsNonStock(assets: seq<Asset>) returns (total: real)
    ensures total == NonStockCurrent(assets)
  {
    total := 0.0;
    var i := 0;
    while i < |assets|
      invariant 0 <= i <= |assets|
      invariant total + NonStockCurrent(assets[i..]) == NonStockCurrent(assets)
    {
      assert assets[i..][1..] == assets[i + 1..];
      var a := assets[i];
      if Lower(a.category) == "current" {
        if !StartsWith(a.name, "Bank:") {
          total := total + a.value;
        }
      }
      i := i + 1;
    }
    assert assets[i..] == [];
  }

  /** Book value after `years` years: the acquisition value without depreciation, otherwise
      the value less the depreciation so far, never below 0. */
  function BookValue(a: Asset, years: real): real
  {
    if a.depreciationPerYear == 0.0 then a.value
    else
      var rest := a.value - a.depreciationPerYear * years;
      if rest > 0.0 then rest else 0.0
  }

  /** `fixedAssetsValue`; `yearsHeld` gives the years held since an acquisition date. */
  function FixedValue(assets: seq<Asset>, yearsHeld: string -> real): real
  {
    if |assets| == 0 then 0.0
    else (if IsFixed(assets[0]) then BookValue(assets[0], yearsHeld(assets[0].acquired)) else 0.0)
         + FixedValue(assets[1..], yearsHeld)
  }

  /** A line of `fixedAssetDetails`. */
  datatype FixedLine = FixedLine(name: string, bookValue: real)

  /** `fixedAssetDetails`: name and book value of each fixed asset, in order. */
  function FixedDetails(assets: seq<Asset>, yearsHeld: string -> real): seq<FixedLine>
  {
    if |assets| == 0 then []
    else (if IsFixed(assets[0])
          then [FixedLine(assets[0].name, BookValue(assets[0], yearsHeld(assets[0].acquired)))]
          else [])
         + FixedDetails(assets[1..], yearsHeld)
  }

  /** The source's `map` over the fixed assets, adding each book value to the accumulator. */
  method FixedAssetsValue(assets: seq<Asset>, yearsHeld: string -> real)
    returns (total: real, details: seq<FixedLine>)
    ensures total == FixedValue(assets, yearsHeld)
    ensures details == FixedDetails(assets, yearsHeld)
  {
    total := 0.0;
    details := [];
    var i := 0;
    while i < |assets|
      invariant 0 <= i <= |assets|
      invariant total == FixedValue(assets[..i], yearsHeld)
      invariant details == FixedDetails(assets[..i], yearsHeld)
    {
      FixedStep(assets, i, yearsHeld);
      total, details := AddFixedAsset(total, details, assets[i], yearsHeld(assets[i].acquired));
      i := i + 1;
    }
    assert assets[..i] == assets;
  }

  /** The body of the loop above for one asset: a fixed asset adds its book value to the
      total and its line to the details; any other asset adds nothing. */
  method AddFixedAsset(total: real, details: seq<FixedLine>, asset: Asset, years: real)
    returns (total': real, details': seq<FixedLine>)
    ensures var b := BookValue(asset, years);
            && total' == total + (if IsFixed(asset) then b else 0.0)
            && details' == details + (if IsFixed(asset) then [FixedLine(asset.name, b)] else [])
  {
    total', details' := total, details;
    if Lower(asset.category) == "fixed" {
      var bookValue := AssetBookValue(asset, years);
      total' := total + bookValue;
      details' := details + [FixedLine(asset.name, bookValue)];
    } else {
      assert details + [] == details;
    }
  }

  /** The book value the loop above computes for one fixed asset. */
  method AssetBookValue(asset: Asset, years: real) returns (bookValue: real)
    ensures bookValue == BookValue(asset, years)
  {
    var purchaseValue := asset.value;
    var depreciationAnnual := asset.depreciationPerYear;
    if depreciationAnnual == 0.0 {
      bookValue := purchaseValue;
    } else {
      var accumulated := depreciationAnnual * years;
      bookValue := if purchaseValue - accumulated > 0.0 then purchaseValue - accumulated else 0.0;
    }
  }

  /** One more asset of the loop above: the book value and detail line of asset i, if it
      is fixed, follow those of the assets before it. */
  lemma FixedStep(assets: seq<Asset>, i: nat, yearsHeld: string -> real)
    requires i < |assets|
    ensures var a := assets[i];
            var b := BookValue(a, yearsHeld(a.acquired));
            && FixedValue(assets[..i + 1], yearsHeld)
               == FixedValue(assets[..i], yearsHeld) + (if IsFixed(a) then b else 0.0)
            && FixedDetails(assets[..i + 1], yearsHeld)
               == FixedDetails(assets[..i], yearsHeld) + (if IsFixed(a) then [FixedLine(a.name, b)] else [])
  {
    assert assets[..i + 1] == assets[..i] + [assets[i]];
    FixedValueAppend(assets[..i], [assets[i]], yearsHeld);
    FixedDetailsAppend(assets[..i], [assets[i]], yearsHeld);
  }

  // ---------------------------------------------------------------------------
  // The statement

  datatype Neraca = Neraca(cash: real, receivables: real, inventory: real,
                           bankDetails: seq<BankLine>, bankTotal: real,
                           currentAssets: real, fixedDetails: seq<FixedLine>,
                           fixedAssets: real, totalAssets: real,
                           payables: real, liabilities: real, initialCapital: real,
                           retainedEarnings: real, equity: real, liabilitiesAndEquity: real)

  /** The statement of a refreshed snapshot: trade payables are 0 and retained earnings are
      whatever makes equity equal to the assets. */
  function NeracaOf(g: Refreshed, yearsHeld: string -> real): Neraca
  {
    var db := g.data;
    var banks := BankAccountsOf(db.settings);
    var cash := Get(g.balances, "cash");
    var receivables := Receivables(db.salesInvoices);
    var inventory := InventoryValue(db);
    var bankTotal := BankTotal(g.balances, banks);
    var current := cash + bankTotal + receivables + inventory + NonStockCurrent(db.assets);
    var fixed := FixedValue(db.assets, yearsHeld);
    var total := current + fixed;
    var capital := CapitalOf(db.settings);
    var retained := total - 0.0 - capital;
    Neraca(cash, receivables, inventory, BankDetails(g.balances, banks), bankTotal, current,
           FixedDetails(db.assets, yearsHeld), fixed, total, 0.0, 0.0, capital, retained, capital + retained, 0.0 + (capital + retained))
  }

  /** The `useMemo` body, with its two accumulator loops. */
  method ComputeNeraca(g: Refreshed, yearsHeld: string -> real) returns (n: Neraca)
    ensures n == NeracaOf(g, yearsHeld)
  {
    var db := g.data;
    var banks := BankAccountsOf(db.settings);
    var cash := Get(g.balances, "cash");
    var receivables := Receivables(db.salesInvoices);
    var inventory := InventoryValue(db);
    var bankTotal := BankTotal(g.balances, banks);
    var nonStock := CurrentAssetsNonStock(db.assets);
    var current := cash + bankTotal + receivables + inventory + nonStock;
    var fixed, details := FixedAssetsValue(db.assets, yearsHeld);
    var total := current + fixed;
    var payables := 0.0;
    var liabilities := payables;
    var capital := CapitalOf(db.settings);
    var retained := total - liabilities - capital;
    var equity := capital + retained;
    n := Neraca(cash, receivables, inventory, BankDetails(g.balances, banks), bankTotal, current,
                details, fixed, total, payables, liabilities, capital, retained, equity, liabilities + equity);
  }

  // ---------------------------------------------------------------------------
  // Properties

  /** The statement balances: liabilities plus equity equal the assets, and retained
      earnings are the assets beyond the initial capital. */
  lemma StatementBalances(g: Refreshed, yearsHeld: string -> real)
    ensures var n := NeracaOf(g, yearsHeld);
            && n.liabilitiesAndEquity == n.totalAssets
            && n.retainedEarnings == n.totalAssets - n.initialCapital
            && n.totalAssets == n.cash + n.bankTotal + n.receivables + n.inventory
                                + NonStockCurrent(g.data.assets) + n.fixedAssets
  {
  }

  /** An invoice total counts as receivable or as collected, never both. */
  lemma {:induction false} ReceivablesSplit(invs: seq<SalesInvoice>)
    ensures Receivables(invs) + Collected(invs) == SumOf(invs, InvoiceTotalOf)
  {
    if |invs| > 0 {
      ReceivablesSplit(invs[1..]);
    }
  }

  /** A depreciating asset's book value is at least 0, and at most its acquisition value
      when depreciation and the years held are not negative. */
  lemma BookValueBounds(a: Asset, years: real)
    ensures a.depreciationPerYear == 0.0 ==> BookValue(a, years) == a.value
    ensures a.depreciationPerYear != 0.0 ==> BookValue(a, years) >= 0.0
    ensures a.depreciationPerYear > 0.0 && years >= 0.0 && a.value >= 0.0 ==> BookValue(a, years) <= a.value
  {
    if a.depreciationPerYear > 0.0 && years >= 0.0 {
      assert a.depreciationPerYear * years >= 0.0;
    }
  }

  function FixedCost(assets: seq<Asset>): real
  {
    if |assets| == 0 then 0.0
    else (if IsFixed(assets[0]) then assets[0].value else 0.0) + FixedCost(assets[1..])
  }

  /** Fixed assets with non-negative values and depreciation, held a non-negative time, are
      carried between 0 and what they cost. */
  lemma {:induction false} FixedValueBounds(assets: seq<Asset>, yearsHeld: string -> real)
    requires forall i :: 0 <= i < |assets| ==> assets[i].value >= 0.0 && assets[i].depreciationPerYear >= 0.0
    requires forall i :: 0 <= i < |assets| ==> yearsHeld(assets[i].acquired) >= 0.0
    ensures 0.0 <= FixedValue(assets, yearsHeld) <= FixedCost(assets)
  {
    if |assets| > 0 {
      BookValueBounds(assets[0], yearsHeld(assets[0].acquired));
      assert forall i :: 1 <= i < |assets| ==> assets[1..][i - 1] == assets[i];
      FixedValueBounds(assets[1..], yearsHeld);
    }
  }

  lemma {:induction false} NonStockCurrentAppend(assets: seq<Asset>, more: seq<Asset>)
    ensures NonStockCurrent(assets + more) == NonStockCurrent(assets) + NonStockCurrent(more)
  {
    if |assets| == 0 {
      assert assets + more == more;
    } else {
      assert (assets + more)[1..] == assets[1..] + more;
      NonStockCurrentAppend(assets[1..], more);
    }
  }

  lemma {:induction false} FixedValueAppend(assets: seq<Asset>, more: seq<Asset>, yearsHeld: string -> real)
    ensures FixedValue(assets + more, yearsHeld) == FixedValue(assets, yearsHeld) + FixedValue(more, yearsHeld)
  {
    if |assets| == 0 {
      assert assets + more == more;
    } else {
      assert (assets + more)[1..] == assets[1..] + more;
      FixedValueAppend(assets[1..], more, yearsHeld);
    }
  }

  lemma {:induction false} FixedDetailsAppend(assets: seq<Asset>, more: seq<Asset>, yearsHeld: string -> real)
    ensures FixedDetails(assets + more, yearsHeld) == FixedDetails(assets, yearsHeld) + FixedDetails(more, yearsHeld)
  {
    if |assets| == 0 {
      assert assets + more == more;
    } else {
      var a := assets[0];
      var h := if IsFixed(a) then [FixedLine(a.name, BookValue(a, yearsHeld(a.acquired)))] else [];
      assert (assets + more)[0] == a;
      assert (assets + more)[1..] == assets[1..] + more;
      FixedDetailsAppend(assets[1..], more, yearsHeld);
      var x, y := FixedDetails(assets[1..], yearsHeld), FixedDetails(more, yearsHeld);
      assert FixedDetails(assets + more, yearsHeld) == h + (x + y);
      assert h + (x + y) == (h + x) + y;
    }
  }

  /** An asset named "Bank: …" of category "current" adds nothing to the other current
      assets nor to the fixed assets. */
  lemma BankAssetNotCounted(assets: seq<Asset>, a: Asset, yearsHeld: string -> real)
    requires StartsWith(a.name, "Bank:") && a.category == "current"
    ensures NonStockCurrent(assets + [a]) == NonStockCurrent(assets)
    ensures FixedValue(assets + [a], yearsHeld) == FixedValue(assets, yearsHeld)
  {
    NonStockCurrentAppend(assets, [a]);
    FixedValueAppend(assets, [a], yearsHeld);
    assert Lower(a.category) == "current";
    assert Lower(a.category) != "fixed" by {
      assert Lower(a.category)[0] == 'c';
    }
  }
}
