/** The small record actions of src/lib/actions.ts that touch assets, the ledger and the
    settings: createAsset, createExpense, createBankAccount and the settings merge of
    saveSettings. */
module Ledger {
  import opened Definitions

  // ---------------------------------------------------------------------------
  // createAsset

  /** The asset form: name, category, date, value, depreciation per year. */
  datatype AssetForm = AssetForm(name: string, category: string, date: string, value: real,
                                 depreciationPerYear: real)

  /** createAsset: the asset "asset-<now>" is appended and its value is credited to "cash"
      by one entry referencing it; nothing else changes. */
  function AssetCreated(db: Snapshot, form: AssetForm, now: string): (r: Snapshot)
    ensures |r.assets| == |db.assets| + 1 && r.assets[..|db.assets|] == db.assets
    ensures r.assets[|db.assets|] == Asset("asset-" + now, form.name, form.category, form.date,
                                           form.value, form.depreciationPerYear)
    ensures |r.transactions| == |db.transactions| + 1 && r.transactions[..|db.transactions|] == db.transactions
    ensures var t := r.transactions[|db.transactions|];
            t.credit == form.value && t.debit == 0.0 && t.accountId == "cash"
            && t.reference == "asset-" + now && t.category == AssetPurchase && t.date == form.date
    ensures r == db.(assets := r.assets, transactions := r.transactions)
  {
    var a := Asset("asset-" + now, form.name, form.category, form.date, form.value,
                   form.depreciationPerYear);
    db.(assets := db.assets + [a],
        transactions := db.transactions + [Transaction("trx-" + now + "-asset", a.acquired,
                                                       "Pembelian Aset: " + a.name, a.id,
                                                       AssetPurchase, 0.0, a.value, "cash")])
  }

  // ---------------------------------------------------------------------------
  // createExpense

  /** The expense form: date, description, amount, the account it is paid from. */
  datatype ExpenseForm = ExpenseForm(date: string, description: string, amount: real, accountId: string)

  /** createExpense: one operating-expense entry crediting the amount to the chosen account
      is put in FRONT of the ledger; nothing else changes. */
  function ExpenseCreated(db: Snapshot, form: ExpenseForm, now: string): (r: Snapshot)
    ensures |r.transactions| == |db.transactions| + 1 && r.transactions[1..] == db.transactions
    ensures var t := r.transactions[0];
            t.credit == form.amount && t.debit == 0.0 && t.accountId == form.accountId
            && t.reference == "Manual" && t.category == OperatingExpense
    ensures r == db.(transactions := r.transactions)
  {
    db.(transactions := [Transaction("trx-exp-" + now, form.date, form.description, "Manual",
                                     OperatingExpense, 0.0, form.amount, form.accountId)]
                        + db.transactions)
  }

  // ---------------------------------------------------------------------------
  // createBankAccount

  /** The bank-account form: accountName, bankName, accountNumber, opening balance. */
  datatype BankForm = BankForm(accountName: string, bankName: string, accountNumber: string,
                               balance: real)

  function BankAssetName(bankName: string, accountName: string): string
  {
    "Bank: " + bankName + " (" + accountName + ")"
  }

  /** createBankAccount: the account "bank-<now>" is appended to the settings' accounts (an
      absent list read as empty), and a current asset "Bank: <bank> (<account>)" worth the
      opening balance, dated `today`, without depreciation, is appended to the assets;
      nothing else changes. */
  function BankAccountCreated(db: Snapshot, form: BankForm, now: string, today: string): (r: Snapshot)
    ensures BankAccountsOf(r.settings)
            == BankAccountsOf(db.settings) + [BankAccount("bank-" + now, form.accountName,
                                                          form.accountNumber, form.bankName,
                                                          form.balance)]
    ensures r.settings == db.settings.(bankAccounts := r.settings.bankAccounts)
    ensures |r.assets| == |db.assets| + 1 && r.assets[..|db.assets|] == db.assets
    ensures var a := r.assets[|db.assets|];
            a.category == "current" && a.value == form.balance && a.depreciationPerYear == 0.0
            && a.name == BankAssetName(form.bankName, form.accountName)
    ensures r == db.(settings := r.settings, assets := r.assets)
  {
    var account := BankAccount("bank-" + now, form.accountName, form.accountNumber, form.bankName,
                               form.balance);
    var asset := Asset("asset-bank-" + now, BankAssetName(form.bankName, form.accountName),
                       "current", today, form.balance, 0.0);
    db.(settings := db.settings.(bankAccounts := Some(BankAccountsOf(db.settings) + [account])),
        assets := db.assets + [asset])
  }

  // ---------------------------------------------------------------------------
  // saveSettings

  /** The settings form after coercion: company_name, stock_low_limit, modal_awal and the
      optional company_address, invoice_notes and company_logo. */
  datatype SettingsForm = SettingsForm(companyName: string, lowStockLimit: real,
                                       initialCapital: real, companyAddress: Option<string>,
                                       invoiceNotes: Option<string>, companyLogo: Option<string>)

  /** The schema: a non-empty company name, a non-negative stock limit and initial capital. */
  predicate SettingsValid(f: SettingsForm)
  {
    f.companyName != "" && f.lowStockLimit >= 0.0 && f.initialCapital >= 0.0
  }

  function Override<T>(given: Option<T>, prior: Option<T>): Option<T>
  {
    if given.Some? then given else prior
  }

  /** `{ ...db.settings, ...parsed.data }`: the three required fields are replaced, each optional field
      only when the form carries it, and the bank accounts stay. */
  function MergeSettings(prior: Settings, f: SettingsForm): (r: Settings)
    ensures r.companyName == Some(f.companyName) && r.lowStockLimit == Some(f.lowStockLimit)
    ensures r.initialCapital == Some(f.initialCapital)
    ensures f.companyAddress.Some? ==> r.companyAddress == f.companyAddress
    ensures f.companyAddress.None? ==> r.companyAddress == prior.companyAddress
    ensures f.invoiceNotes.Some? ==> r.invoiceNotes == f.invoiceNotes
    ensures f.invoiceNotes.None? ==> r.invoiceNotes == prior.invoiceNotes
    ensures f.companyLogo.Some? ==> r.companyLogo == f.companyLogo
    ensures f.companyLogo.None? ==> r.companyLogo == prior.companyLogo
    ensures r.bankAccounts == prior.bankAccounts
  {
    Settings(Some(f.companyName), Some(f.lowStockLimit), Some(f.initialCapital),
             Override(f.companyAddress, prior.companyAddress),
             Override(f.invoiceNotes, prior.invoiceNotes),
             Override(f.companyLogo, prior.companyLogo),
             prior.bankAccounts)
  }

  /** saveSettings: a form the schema rejects changes nothing and fails; a valid one is
      merged into the settings and nothing else changes. */
  function SettingsSaved(db: Snapshot, f: SettingsForm): (r: Result<Snapshot>)
    ensures r.Failure? <==> !SettingsValid(f)
    ensures r.Failure? ==> r.error == InvalidSettings
    ensures r.Success? ==> r.value == db.(settings := MergeSettings(db.settings, f))
  {
    if !SettingsValid(f) then Failure(InvalidSettings)
    else Success(db.(settings := MergeSettings(db.settings, f)))
  }

  /** Saving the same form twice is saving it once. */
  lemma SaveSettingsIdempotent(db: Snapshot, f: SettingsForm)
    requires SettingsSaved(db, f).Success?
    ensures SettingsSaved(SettingsSaved(db, f).value, f) == SettingsSaved(db, f)
  {
    assert MergeSettings(MergeSettings(db.settings, f), f) == MergeSettings(db.settings, f);
  }
}
