/** The records of one business snapshot of the roastery (src/lib/definitions.ts),
    the error results of the actions, and the stock-record invariant they keep.

    Money and quantities are exact reals; the source keeps them as JavaScript doubles.
    Field names are English renderings of the source's Indonesian ones, given beside each. */
module Definitions {

  datatype Option<T> = None | Some(value: T) {
    function GetOr(default: T): T
    {
      if Some? then value else default
    }
  }

  /** Why an action refused to produce a new snapshot. */
  datatype Error =
    | BeanNotFound(bean: string)                           // roasting: no warehouse record
    | InsufficientBeanStock(bean: string, available: real) // roasting: Stock_Kg < inputKg
    | NothingToTransfer                                    // transfer: empty selection
    | ProductNotFound(product: string)                     // sale: no store record
    | InsufficientStoreStock(product: string)              // sale: Stock_Kg < qty
    | MissingInvoiceId                                     // purchase update without an id
    | InvoiceNotFound                                      // purchase update/delete: unknown id
    | StoreItemNotFound                                    // store-item delete: unknown id
    | StockNotZero                                         // store-item delete with stock > 0
    | IncompleteBlend                                      // blend: no name, qty <= 0 or no component
    | PercentageNot100(total: real)                        // blend: rounded total is not 100
    | ComponentNotFound                                    // blend: unknown roasted-item id
    | InsufficientComponentStock(product: string)          // blend: component short of its share
    | InvalidSettings                                      // settings rejected by the schema
    | MissingSettings                                      // refresh of a snapshot without settings

  /** The outcome of an action: a whole new snapshot, or an error and no snapshot at all. */
  datatype Result<T> = Success(value: T) | Failure(error: Error) {
    predicate IsFailure()
    {
      Failure?
    }

    function PropagateFailure<U>(): Result<U>
      requires Failure?
    {
      Failure(error)
    }

    function Extract(): T
      requires Success?
    {
      value
    }
  }

  datatype BankAccount = BankAccount(id: string, accountName: string, accountNumber: string,
                                     bankName: string, balance: real)

  /** A purchase line: `name`, `qty` (kg), `price` (per kg). */
  datatype PurchaseItem = PurchaseItem(name: string, qty: real, price: real)

  /** A sales line: `name` of the store product, `qty` (kg), `price` (per kg). */
  datatype SalesItem = SalesItem(name: string, qty: real, price: real)

  /** Green beans in the warehouse: Nama_Green_Beans, Stock_Kg, Avg_HPP, Total_Value, Last_Update. */
  datatype WarehouseItem = WarehouseItem(id: string, beanName: string, stockKg: real,
                                         avgHpp: real, totalValue: real, lastUpdate: string)

  /** A roasting batch: Batch_ID, Tanggal, Green_Beans, Input_Kg, Output_Kg, Yield_Persen,
      Profile, HPP_Per_Kg, Harga_Jual_Kg, Status. */
  datatype RoastingBatch = RoastingBatch(id: string, batchId: string, date: string,
                                         greenBeans: string, inputKg: real, outputKg: real,
                                         yieldPercent: real, profile: string, hppPerKg: real,
                                         sellPricePerKg: real, status: string)

  /** Roasted stock: Produk_Roasting, Kategori, Stock_Kg, HPP_Per_Kg, Harga_Jual_Kg, Total_Value. */
  datatype RoastedItem = RoastedItem(id: string, product: string, category: string,
                                     stockKg: real, hppPerKg: real, sellPricePerKg: real,
                                     totalValue: real)

  /** Store stock: Nama_Produk, Kategori, Stock_Kg, HPP_Per_Kg, Harga_Jual_Kg, Total_Value. */
  datatype StoreItem = StoreItem(id: string, product: string, category: string,
                                 stockKg: real, hppPerKg: real, sellPricePerKg: real,
                                 totalValue: real)

  datatype PaymentStatus = Draft | Sent | Paid | Lunas | Overdue

  /** A sales invoice: No_Invoice, Customer, Tanggal, Jatuh_Tempo, Total_Invoice, Status_Bayar. */
  datatype SalesInvoice = SalesInvoice(id: string, number: string, customer: string,
                                       date: string, dueDate: string, total: real,
                                       status: PaymentStatus, items: seq<SalesItem>)

  /** A purchase invoice: No_Faktur, Supplier, Tanggal, Total_Faktur, Status, paymentSource. */
  datatype PurchaseInvoice = PurchaseInvoice(id: string, number: string, supplier: string,
                                             date: string, total: real, status: string,
                                             items: seq<PurchaseItem>, paymentSource: string)

  /** Ledger categories; the source also admits any other string. */
  datatype TxCategory =
    | RawMaterialPurchase   // "Pembelian Bahan Baku"
    | SalesRevenue          // "Pendapatan Penjualan"
    | CostOfGoodsSold       // "Beban Pokok Penjualan"
    | AssetPurchase         // "Pembelian Aset"
    | InternalProduction    // "Produksi Internal"
    | OperatingExpense      // "Pengeluaran Operasional"
    | OtherCategory(text: string)

  /** A ledger entry: Tanggal, Deskripsi, Referensi, Kategori, Debit, Kredit, accountId.
      An empty `accountId` stands for a missing one. */
  datatype Transaction = Transaction(id: string, date: string, description: string,
                                     reference: string, category: TxCategory,
                                     debit: real, credit: real, accountId: string)

  /** An asset: Nama_Aset, Kategori, Tgl_Perolehan, Nilai_Perolehan, Penyusutan_Tahun. */
  datatype Asset = Asset(id: string, name: string, category: string, acquired: string,
                         value: real, depreciationPerYear: real)

  /** The settings record: company_name, stock_low_limit, modal_awal, company_address,
      invoice_notes, company_logo and bankAccounts, each of which may be absent. */
  datatype Settings = Settings(companyName: Option<string>, lowStockLimit: Option<real>,
                               initialCapital: Option<real>, companyAddress: Option<string>,
                               invoiceNotes: Option<string>, companyLogo: Option<string>,
                               bankAccounts: Option<seq<BankAccount>>)

  /** The whole stored business snapshot (StorableGlobalData). */
  datatype Snapshot = Snapshot(warehouse: seq<WarehouseItem>,
                               roastingBatches: seq<RoastingBatch>,
                               roastedInventory: seq<RoastedItem>,
                               storeInventory: seq<StoreItem>,
                               salesInvoices: seq<SalesInvoice>,
                               purchaseInvoices: seq<PurchaseInvoice>,
                               transactions: seq<Transaction>,
                               assets: seq<Asset>,
                               settings: Settings)

  /** The bank accounts of the settings, an absent list read as empty. */
  function BankAccountsOf(s: Settings): seq<BankAccount>
  {
    s.bankAccounts.GetOr([])
  }

  /** Weighted-average unit cost: value over stock, 0 when the stock is not positive. */
  function AverageCost(value: real, stock: real): (r: real)
    ensures stock > 0.0 ==> r * stock == value
    ensures stock <= 0.0 ==> r == 0.0
    ensures stock > 0.0 && value >= 0.0 ==> r >= 0.0
  {
    if stock > 0.0 then value / stock else 0.0
  }

  /** x × y is not negative for non-negative x and y. */
  lemma ProductNonNegative(x: real, y: real)
    requires x >= 0.0 && y >= 0.0
    ensures x * y >= 0.0
  {
  }

  /** Adding `q` units at unit cost `p` to a record at rest holding `s` units at unit cost `a`
      leaves a record at rest: the new average cost times the new stock is the new value. */
  lemma AccumulateKeepsOk(s: real, a: real, q: real, p: real)
    requires s >= 0.0 && a >= 0.0 && q >= 0.0 && p >= 0.0
    ensures var value := s * a + q * p;
            && value >= 0.0
            && AverageCost(value, s + q) >= 0.0
            && value == (s + q) * AverageCost(value, s + q)
  {
    var value := s * a + q * p;
    assert s * a >= 0.0;
    assert q * p >= 0.0;
    if s + q <= 0.0 {
      assert s == 0.0 && q == 0.0;
      assert value == 0.0;
    }
  }

  /** A stock record at rest: non-negative stock and unit cost, value = stock × unit cost. */
  ghost predicate WarehouseItemOk(w: WarehouseItem)
  {
    w.stockKg >= 0.0 && w.avgHpp >= 0.0 && w.totalValue == w.stockKg * w.avgHpp
  }

  ghost predicate RoastedItemOk(r: RoastedItem)
  {
    r.stockKg >= 0.0 && r.hppPerKg >= 0.0 && r.totalValue == r.stockKg * r.hppPerKg
  }

  ghost predicate StoreItemOk(s: StoreItem)
  {
    s.stockKg >= 0.0 && s.hppPerKg >= 0.0 && s.totalValue == s.stockKg * s.hppPerKg
  }

  ghost predicate WarehouseOk(ws: seq<WarehouseItem>)
  {
    forall i :: 0 <= i < |ws| ==> WarehouseItemOk(ws[i])
  }

  ghost predicate RoastedOk(rs: seq<RoastedItem>)
  {
    forall i :: 0 <= i < |rs| ==> RoastedItemOk(rs[i])
  }

  ghost predicate StoreOk(ss: seq<StoreItem>)
  {
    forall i :: 0 <= i < |ss| ==> StoreItemOk(ss[i])
  }

  /** Replacing or appending one record at rest keeps an inventory at rest. */
  lemma WarehouseOkUpdate(ws: seq<WarehouseItem>, k: nat, w: WarehouseItem)
    requires WarehouseOk(ws) && k < |ws| && WarehouseItemOk(w)
    ensures WarehouseOk(ws[k := w])
  {
  }

  lemma WarehouseOkAppend(ws: seq<WarehouseItem>, w: WarehouseItem)
    requires WarehouseOk(ws) && WarehouseItemOk(w)
    ensures WarehouseOk(ws + [w])
  {
  }

  lemma RoastedOkUpdate(rs: seq<RoastedItem>, k: nat, r: RoastedItem)
    requires RoastedOk(rs) && k < |rs| && RoastedItemOk(r)
    ensures RoastedOk(rs[k := r])
  {
  }

  lemma RoastedOkAppend(rs: seq<RoastedItem>, r: RoastedItem)
    requires RoastedOk(rs) && RoastedItemOk(r)
    ensures RoastedOk(rs + [r])
  {
  }

  lemma StoreOkUpdate(ss: seq<StoreItem>, k: nat, s: StoreItem)
    requires StoreOk(ss) && k < |ss| && StoreItemOk(s)
    ensures StoreOk(ss[k := s])
  {
  }

  lemma StoreOkAppend(ss: seq<StoreItem>, s: StoreItem)
    requires StoreOk(ss) && StoreItemOk(s)
    ensures StoreOk(ss + [s])
  {
  }

  /** The global stock invariant of the three inventories. */
  ghost predicate InventoriesOk(db: Snapshot)
  {
    WarehouseOk(db.warehouse) && RoastedOk(db.roastedInventory) && StoreOk(db.storeInventory)
  }
}
