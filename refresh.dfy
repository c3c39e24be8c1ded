/** getRefreshedData (src/lib/data.ts): the stored snapshot with its collections defaulted,
    four of them sorted newest first, the account balances and current balance, and the
    identifiers the next documents will take. */
module Refresh {
  import opened Definitions
  import opened Seqs
  import opened Accounts

  // ---------------------------------------------------------------------------
  // Dates, newest first

  /** Strict lexicographic order of date strings; on "YYYY-MM-DD" dates it is their
      chronological order. */
  predicate Earlier(a: string, b: string)
  {
    if |b| == 0 then false
    else if |a| == 0 then true
    else if a[0] != b[0] then a[0] < b[0]
    else Earlier(a[1..], b[1..])
  }

  lemma {:induction false} EarlierAsymmetric(a: string, b: string)
    requires Earlier(a, b)
    ensures !Earlier(b, a)
  {
    if |a| > 0 && a[0] == b[0] {
      EarlierAsymmetric(a[1..], b[1..]);
    }
  }

  /** "Not earlier" is transitive. */
  lemma {:induction false} NotEarlierTransitive(a: string, b: string, c: string)
    requires !Earlier(a, b) && !Earlier(b, c)
    ensures !Earlier(a, c)
  {
    if |c| > 0 && |b| > 0 && |a| > 0 && a[0] == b[0] && b[0] == c[0] {
      NotEarlierTransitive(a[1..], b[1..], c[1..]);
    }
  }

  /** Newest first: no element is earlier than one after it. */
  ghost predicate NewestFirst<T>(s: seq<T>, date: T -> string)
  {
    forall i, j :: 0 <= i < j < |s| ==> !Earlier(date(s[i]), date(s[j]))
  }

  /** Puts `x` before the first element that is not later than it, so that among equal
      dates it comes first. */
  function Insert<T>(x: T, s: seq<T>, date: T -> string): (r: seq<T>)
    ensures multiset(r) == multiset(s) + multiset{x}
    ensures NewestFirst(s, date) ==> NewestFirst(r, date)
  {
    if |s| == 0 then [x]
    else if !Earlier(date(x), date(s[0])) then
      assert NewestFirst(s, date) ==> NewestFirst([x] + s, date) by {
        if NewestFirst(s, date) {
          InsertInFront(x, s, date);
        }
      }
      [x] + s
    else
      var rest := Insert(x, s[1..], date);
      assert s == [s[0]] + s[1..];
      assert NewestFirst(s, date) ==> NewestFirst([s[0]] + rest, date) by {
        if NewestFirst(s, date) {
          HeadNotEarlierThanRest(x, s, rest, date);
          ConsNewestFirst(s[0], rest, date);
        }
      }
      [s[0]] + rest
  }

  /** An element not earlier than the head of a newest-first sequence can go before it. */
  lemma InsertInFront<T>(x: T, s: seq<T>, date: T -> string)
    requires |s| > 0 && NewestFirst(s, date) && !Earlier(date(x), date(s[0]))
    ensures NewestFirst([x] + s, date)
  {
    forall j | 0 < j < |[x] + s| ensures !Earlier(date(x), date(([x] + s)[j])) {
      assert ([x] + s)[j] == s[j - 1];
      if j > 1 {
        NotEarlierTransitive(date(x), date(s[0]), date(s[j - 1]));
      }
    }
    ConsNewestFirstScan(x, s, date);
  }

  /** A head not earlier than any later element keeps a newest-first sequence so. */
  lemma ConsNewestFirst<T>(h: T, s: seq<T>, date: T -> string)
    requires NewestFirst(s, date)
    requires forall j :: 0 <= j < |s| ==> !Earlier(date(h), date(s[j]))
    ensures NewestFirst([h] + s, date)
  {
    forall i, j | 0 <= i < j < |[h] + s| ensures !Earlier(date(([h] + s)[i]), date(([h] + s)[j])) {
      if i == 0 {
        assert ([h] + s)[j] == s[j - 1];
      } else {
        assert ([h] + s)[i] == s[i - 1] && ([h] + s)[j] == s[j - 1];
      }
    }
  }

  lemma ConsNewestFirstScan<T>(h: T, s: seq<T>, date: T -> string)
    requires NewestFirst(s, date)
    requires forall j :: 0 < j < |[h] + s| ==> !Earlier(date(h), date(([h] + s)[j]))
    ensures NewestFirst([h] + s, date)
  {
    forall j | 0 <= j < |s| ensures !Earlier(date(h), date(s[j])) {
      assert ([h] + s)[j + 1] == s[j];
    }
    ConsNewestFirst(h, s, date);
  }

  /** The head of a newest-first sequence that is later than `x` is not earlier than any
      element of the tail with `x` inserted. */
  lemma HeadNotEarlierThanRest<T>(x: T, s: seq<T>, rest: seq<T>, date: T -> string)
    requires |s| > 0 && NewestFirst(s, date) && Earlier(date(x), date(s[0]))
    requires multiset(rest) == multiset(s[1..]) + multiset{x}
    ensures forall j :: 0 <= j < |rest| ==> !Earlier(date(s[0]), date(rest[j]))
  {
    EarlierAsymmetric(date(x), date(s[0]));
    forall j | 0 <= j < |rest| ensures !Earlier(date(s[0]), date(rest[j])) {
      assert rest[j] in multiset(rest);
      if rest[j] != x {
        assert rest[j] in multiset(s[1..]);
        var k :| 0 <= k < |s[1..]| && s[1..][k] == rest[j];
        assert s[k + 1] == rest[j];
      }
    }
  }

  /** The stable sort `sort((a, b) => date(b) - date(a))`: the same elements, newest first,
      equal dates in their original order. */
  function SortNewestFirst<T>(s: seq<T>, date: T -> string): (r: seq<T>)
    ensures multiset(r) == multiset(s)
    ensures NewestFirst(r, date)
  {
    if |s| == 0 then []
    else
      assert s == [s[0]] + s[1..];
      Insert(s[0], SortNewestFirst(s[1..], date), date)
  }

  function TransactionDate(t: Transaction): string { t.date }
  function SalesDate(i: SalesInvoice): string { i.date }
  function PurchaseDate(i: PurchaseInvoice): string { i.date }
  function BatchDate(b: RoastingBatch): string { b.date }

  // ---------------------------------------------------------------------------
  // The next sales invoice number

  predicate IsDigit(c: char)
  {
    '0' <= c <= '9'
  }

  function DigitValue(c: char): nat
    requires IsDigit(c)
  {
    (c as int - '0' as int) as nat
  }

  function DigitChar(d: nat): (c: char)
    requires d < 10
    ensures IsDigit(c) && DigitValue(c) == d
  {
    ('0' as int + d) as char
  }

  /** The text up to the first '-' (`split('-')` taken at one field). */
  function UntilDash(s: string): (r: string)
    ensures |r| <= |s| && r == s[..|r|]
    ensures forall j :: 0 <= j < |r| ==> r[j] != '-'
  {
    if |s| == 0 || s[0] == '-' then "" else [s[0]] + UntilDash(s[1..])
  }

  /** The longest prefix of decimal digits. */
  function LeadingDigits(s: string): (r: string)
    ensures |r| <= |s| && r == s[..|r|]
    ensures forall j :: 0 <= j < |r| ==> IsDigit(r[j])
  {
    if |s| == 0 || !IsDigit(s[0]) then "" else [s[0]] + LeadingDigits(s[1..])
  }

  /** The value of a string of decimal digits, most significant first. */
  function DigitsValue(ds: string): nat
    requires forall j :: 0 <= j < |ds| ==> IsDigit(ds[j])
    decreases |ds|
  {
    if |ds| == 0 then 0 else 10 * DigitsValue(ds[..|ds| - 1]) + DigitValue(ds[|ds| - 1])
  }

  /** `parseInt(s, 10) || 0`: the value of the leading digits, 0 when there are none. */
  function ParseIntOrZero(s: string): nat
  {
    DigitsValue(LeadingDigits(s))
  }

  const InvoicePrefix: string := "INV-"

  /** `parseInt(number.split('-')[1] || '0', 10)` of a number that starts with "INV-"
      (the `|| 0` of data.ts:46 applied). */
  function InvoiceSeq(number: string): nat
    requires StartsWith(number, InvoicePrefix)
  {
    ParseIntOrZero(UntilDash(number[|InvoicePrefix|..]))
  }

  /** The largest sequence number among the numbers starting with "INV-", 0 when none does. */
  function LastInvoiceSeq(invs: seq<SalesInvoice>): (r: nat)
    ensures forall i :: 0 <= i < |invs| && StartsWith(invs[i].number, InvoicePrefix) ==>
              InvoiceSeq(invs[i].number) <= r
    ensures r > 0 ==> exists i :: 0 <= i < |invs| && StartsWith(invs[i].number, InvoicePrefix)
                                  && InvoiceSeq(invs[i].number) == r
  {
    if |invs| == 0 then 0
    else
      var rest := LastInvoiceSeq(invs[1..]);
      assert forall i :: 1 <= i < |invs| ==> invs[i] == invs[1..][i - 1];
      if StartsWith(invs[0].number, InvoicePrefix) && InvoiceSeq(invs[0].number) > rest
      then InvoiceSeq(invs[0].number) else rest
  }

  /** `String(n)`: decimal digits without leading zeros. */
  function NatToString(n: nat): (r: string)
    ensures |r| > 0 && forall j :: 0 <= j < |r| ==> IsDigit(r[j])
    decreases n
  {
    if n < 10 then [DigitChar(n)] else NatToString(n / 10) + [DigitChar(n % 10)]
  }

  function Zeros(k: nat): (r: string)
    ensures |r| == k && forall j :: 0 <= j < k ==> r[j] == '0'
  {
    if k == 0 then "" else "0" + Zeros(k - 1)
  }

  /** `padStart(3, '0')`. */
  function PadStart3(s: string): (r: string)
    ensures |r| >= 3 && |r| >= |s| && r[|r| - |s|..] == s
    ensures forall j :: 0 <= j < |r| - |s| ==> r[j] == '0'
  {
    if |s| >= 3 then s else Zeros(3 - |s|) + s
  }

  function InvoiceNumberFor(n: nat): string
  {
    InvoicePrefix + PadStart3(NatToString(n))
  }

  /** `nextIds.salesInvoice`: one past the largest "INV-" number, three digits at least. */
  function NextSalesInvoiceId(invs: seq<SalesInvoice>): string
  {
    InvoiceNumberFor(LastInvoiceSeq(invs) + 1)
  }

  lemma {:induction false} DigitsOfNat(n: nat)
    ensures DigitsValue(NatToString(n)) == n
    decreases n
  {
    if n >= 10 {
      DigitsOfNat(n / 10);
      var s := NatToString(n);
      assert s[..|s| - 1] == NatToString(n / 10);
    }
  }

  lemma {:induction false} LeadingZeroIgnored(ds: string)
    requires forall j :: 0 <= j < |ds| ==> IsDigit(ds[j])
    ensures DigitsValue("0" + ds) == DigitsValue(ds)
    decreases |ds|
  {
    if |ds| > 0 {
      var z := "0" + ds;
      assert z[..|z| - 1] == "0" + ds[..|ds| - 1];
      LeadingZeroIgnored(ds[..|ds| - 1]);
    } else {
      assert ("0" + ds)[..0] == "";
    }
  }

  lemma {:induction false} ZerosIgnored(k: nat, ds: string)
    requires forall j :: 0 <= j < |ds| ==> IsDigit(ds[j])
    ensures forall j :: 0 <= j < |Zeros(k) + ds| ==> IsDigit((Zeros(k) + ds)[j])
    ensures DigitsValue(Zeros(k) + ds) == DigitsValue(ds)
  {
    if k > 0 {
      ZerosIgnored(k - 1, ds);
      assert Zeros(k) + ds == "0" + (Zeros(k - 1) + ds);
      LeadingZeroIgnored(Zeros(k - 1) + ds);
    } else {
      assert Zeros(k) + ds == ds;
    }
  }

  lemma {:induction false} AllDigitsLead(ds: string)
    requires forall j :: 0 <= j < |ds| ==> IsDigit(ds[j])
    ensures LeadingDigits(ds) == ds && UntilDash(ds) == ds
  {
    if |ds| > 0 {
      AllDigitsLead(ds[1..]);
      assert ds == [ds[0]] + ds[1..];
    }
  }

  /** Reading the sequence number back from a generated sales invoice number gives the
      number it was generated from. */
  lemma ReadBackInvoiceNumber(n: nat)
    ensures StartsWith(InvoiceNumberFor(n), InvoicePrefix)
    ensures InvoiceSeq(InvoiceNumberFor(n)) == n
  {
    var ds := NatToString(n);
    var padded := PadStart3(ds);
    DigitsOfNat(n);
    if |ds| < 3 {
      ZerosIgnored(3 - |ds|, ds);
    }
    assert DigitsValue(padded) == n;
    AllDigitsLead(padded);
    assert InvoiceNumberFor(n)[|InvoicePrefix|..] == padded;
  }

  /** The next sales invoice number is taken by no invoice yet, and reads as one past the
      largest "INV-" number. */
  lemma NextSalesInvoiceIdIsFresh(invs: seq<SalesInvoice>)
    ensures InvoiceSeq(NextSalesInvoiceId(invs)) == LastInvoiceSeq(invs) + 1
    ensures forall i :: 0 <= i < |invs| ==> invs[i].number != NextSalesInvoiceId(invs)
  {
    ReadBackInvoiceNumber(LastInvoiceSeq(invs) + 1);
  }

  // ---------------------------------------------------------------------------
  // The refresh

  /** A stored snapshot as read back: any collection, and the settings, may be missing. */
  datatype StoredData = StoredData(warehouse: Option<seq<WarehouseItem>>,
                                   roastingBatches: Option<seq<RoastingBatch>>,
                                   roastedInventory: Option<seq<RoastedItem>>,
                                   storeInventory: Option<seq<StoreItem>>,
                                   salesInvoices: Option<seq<SalesInvoice>>,
                                   purchaseInvoices: Option<seq<PurchaseInvoice>>,
                                   transactions: Option<seq<Transaction>>,
                                   assets: Option<seq<Asset>>,
                                   settings: Option<Settings>)

  const DefaultSettings: Settings := Settings(None, None, None, None, None, None, Some([]))

  /** `safeData`: each missing collection read as empty, missing settings as
      `{ bankAccounts: [] }`, everything present kept as it is. */
  function Normalize(d: StoredData): (r: Snapshot)
    ensures d.warehouse.Some? ==> r.warehouse == d.warehouse.value
    ensures d.warehouse.None? ==> r.warehouse == []
    ensures d.roastingBatches.Some? ==> r.roastingBatches == d.roastingBatches.value
    ensures d.roastingBatches.None? ==> r.roastingBatches == []
    ensures d.roastedInventory.Some? ==> r.roastedInventory == d.roastedInventory.value
    ensures d.roastedInventory.None? ==> r.roastedInventory == []
    ensures d.storeInventory.Some? ==> r.storeInventory == d.storeInventory.value
    ensures d.storeInventory.None? ==> r.storeInventory == []
    ensures d.salesInvoices.Some? ==> r.salesInvoices == d.salesInvoices.value
    ensures d.salesInvoices.None? ==> r.salesInvoices == []
    ensures d.purchaseInvoices.Some? ==> r.purchaseInvoices == d.purchaseInvoices.value
    ensures d.purchaseInvoices.None? ==> r.purchaseInvoices == []
    ensures d.transactions.Some? ==> r.transactions == d.transactions.value
    ensures d.transactions.None? ==> r.transactions == []
    ensures d.assets.Some? ==> r.assets == d.assets.value
    ensures d.assets.None? ==> r.assets == []
    ensures d.settings.Some? ==> r.settings == d.settings.value
    ensures d.settings.None? ==> r.settings == DefaultSettings && BankAccountsOf(r.settings) == []
  {
    Snapshot(d.warehouse.GetOr([]), d.roastingBatches.GetOr([]), d.roastedInventory.GetOr([]),
             d.storeInventory.GetOr([]), d.salesInvoices.GetOr([]), d.purchaseInvoices.GetOr([]),
             d.transactions.GetOr([]), d.assets.GetOr([]), d.settings.GetOr(DefaultSettings))
  }

  /** The identifiers the next documents take; `stamp` is the clock reading of the refresh. */
  datatype NextIds = NextIds(purchaseInvoice: string, roastingBatch: string, salesInvoice: string)

  /** GlobalData: the snapshot with its derived figures. */
  datatype Refreshed = Refreshed(data: Snapshot, currentBalance: real, balances: Balances,
                                 nextIds: NextIds)

  /** The refreshed view of a snapshot whose settings are already defaulted. */
  function RefreshOf(db: Snapshot, stamp: string): Refreshed
  {
    var balances := AccountBalancesOf(db.settings, db.transactions);
    Refreshed(db.(transactions := SortNewestFirst(db.transactions, TransactionDate),
                  salesInvoices := SortNewestFirst(db.salesInvoices, SalesDate),
                  purchaseInvoices := SortNewestFirst(db.purchaseInvoices, PurchaseDate),
                  roastingBatches := SortNewestFirst(db.roastingBatches, BatchDate)),
              Total(balances), balances,
              NextIds("FP-" + stamp, "RB-" + stamp, NextSalesInvoiceId(db.salesInvoices)))
  }

  /** getRefreshedData as written: the initial capital and the bank accounts are read from
      the settings before the settings are defaulted, so a snapshot without settings fails. */
  function RefreshAsWritten(d: StoredData, stamp: string): (r: Result<Refreshed>)
    ensures r.Failure? <==> d.settings.None?
  {
    if d.settings.None? then Failure(MissingSettings)
    else Success(RefreshOf(Normalize(d), stamp))
  }

  /** getRefreshedData with the settings defaulted before they are read. */
  function Refreshes(d: StoredData, stamp: string): Refreshed
  {
    RefreshOf(Normalize(d), stamp)
  }

  /** The stored snapshot with nothing in it. */
  const EmptyStore: StoredData := StoredData(None, None, None, None, None, None, None, None, None)

  /** The empty stored snapshot refreshes to nothing but "cash" at 0 and "INV-001" when the
      settings are defaulted first, and fails as written. */
  lemma RefreshOfEmptyStore(stamp: string)
    ensures RefreshAsWritten(EmptyStore, stamp) == Failure(MissingSettings)
    ensures var r := Refreshes(EmptyStore, stamp);
            r.currentBalance == 0.0 && r.balances.keys == ["cash"]
            && r.nextIds.salesInvoice == "INV-001"
  {
    var r := Refreshes(EmptyStore, stamp);
    var o := Opening(0.0);
    assert r.balances == o;
    assert SumAmounts(o.keys[1..], o.amounts) == 0.0;
    assert NatToString(1) == "1";
    assert PadStart3("1") == "001";
  }

  /** Both versions agree whenever the settings are present. */
  lemma RefreshAgreesWithSettings(d: StoredData, stamp: string)
    requires d.settings.Some?
    ensures RefreshAsWritten(d, stamp) == Success(Refreshes(d, stamp))
  {
  }

  /** The refresh loses and invents no record: each sorted collection is the stored one
      reordered newest first, and everything else is the stored snapshot defaulted. */
  lemma RefreshReorders(d: StoredData, stamp: string)
    ensures var n := Normalize(d);
            var r := Refreshes(d, stamp).data;
            && multiset(r.transactions) == multiset(n.transactions)
            && NewestFirst(r.transactions, TransactionDate)
            && multiset(r.salesInvoices) == multiset(n.salesInvoices)
            && NewestFirst(r.salesInvoices, SalesDate)
            && multiset(r.purchaseInvoices) == multiset(n.purchaseInvoices)
            && NewestFirst(r.purchaseInvoices, PurchaseDate)
            && multiset(r.roastingBatches) == multiset(n.roastingBatches)
            && NewestFirst(r.roastingBatches, BatchDate)
            && r.(transactions := n.transactions, salesInvoices := n.salesInvoices,
                  purchaseInvoices := n.purchaseInvoices, roastingBatches := n.roastingBatches) == n
  {
  }

  /** The refreshed current balance is the sum of the refreshed account balances. */
  lemma RefreshedBalance(d: StoredData, stamp: string)
    ensures var n := Normalize(d);
            var r := Refreshes(d, stamp);
            r.balances == AccountBalancesOf(n.settings, n.transactions)
            && r.currentBalance == Total(r.balances)
            && r.nextIds.salesInvoice == NextSalesInvoiceId(n.salesInvoices)
  {
  }

  /** The refresh with its balance loops run. */
  method RefreshData(d: StoredData, stamp: string) returns (r: Refreshed)
    ensures r == Refreshes(d, stamp)
  {
    var db := Normalize(d);
    var balances := ComputeAccountBalances(db.settings, db.transactions);
    r := Refreshed(db.(transactions := SortNewestFirst(db.transactions, TransactionDate),
                       salesInvoices := SortNewestFirst(db.salesInvoices, SalesDate),
                       purchaseInvoices := SortNewestFirst(db.purchaseInvoices, PurchaseDate),
                       roastingBatches := SortNewestFirst(db.roastingBatches, BatchDate)),
                   Total(balances), balances,
                   NextIds("FP-" + stamp, "RB-" + stamp, NextSalesInvoiceId(db.salesInvoices)));
  }
}
