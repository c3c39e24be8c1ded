/** The account balances of getRefreshedData (src/lib/data.ts): "cash" opens with the
    initial capital, every bank account with its opening balance, and each ledger entry then
    moves its account by debit minus credit; the current balance is the sum of them all. */
module Accounts {
  import opened Definitions
  import opened Seqs

  /** The accountBalances dictionary: its keys in insertion order and the amount of each. */
  datatype Balances = Balances(keys: seq<string>, amounts: map<string, real>)

  /** Keys listed once each, and exactly the keys of the map. */
  ghost predicate BalancesOk(b: Balances)
  {
    && (forall i, j :: 0 <= i < j < |b.keys| ==> b.keys[i] != b.keys[j])
    && (forall k :: k in b.amounts <==> k in b.keys)
  }

  function Lookup(m: map<string, real>, k: string): real
  {
    if k in m then m[k] else 0.0
  }

  /** `accountBalances[k] || 0`. */
  function Get(b: Balances, k: string): real
  {
    Lookup(b.amounts, k)
  }

  /** `accountBalances[k] = v`: a new key is listed last. */
  function Set(b: Balances, k: string, v: real): Balances
  {
    if k in b.amounts then Balances(b.keys, b.amounts[k := v])
    else Balances(b.keys + [k], b.amounts[k := v])
  }

  function SumAmounts(keys: seq<string>, m: map<string, real>): real
  {
    if |keys| == 0 then 0.0 else Lookup(m, keys[0]) + SumAmounts(keys[1..], m)
  }

  /** `currentBalance`: `Object.values(accountBalances)` summed. */
  function Total(b: Balances): real
  {
    SumAmounts(b.keys, b.amounts)
  }

  /** The account a ledger entry moves: its accountId, "cash" when there is none. */
  function AccountOf(t: Transaction): string
  {
    if t.accountId == "" then "cash" else t.accountId
  }

  /** What a ledger entry adds to its account. */
  function Net(t: Transaction): real
  {
    t.debit - t.credit
  }

  function BankBalanceOf(acc: BankAccount): real
  {
    acc.balance
  }

  /** Index of the first bank account with the id (`find(ba => ba.id === accountId)`). */
  function FindBank(banks: seq<BankAccount>, id: string): (r: Option<nat>)
    ensures r.Some? ==> r.value < |banks| && banks[r.value].id == id
    ensures r.Some? ==> forall j :: 0 <= j < r.value ==> banks[j].id != id
    ensures r.None? <==> forall j :: 0 <= j < |banks| ==> banks[j].id != id
  {
    if |banks| == 0 then None
    else if banks[0].id == id then Some(0)
    else match FindBank(banks[1..], id)
      case None => None
      case Some(i) => Some(i + 1)
  }

  /** The dictionary before any bank account: `{ cash: initialBalance }`. */
  function Opening(capital: real): Balances
  {
    Balances(["cash"], map["cash" := capital])
  }

  /** The loop over the bank accounts: each one's opening balance written under its id. */
  function SeedAll(b: Balances, banks: seq<BankAccount>): Balances
    decreases |banks|
  {
    if |banks| == 0 then b else SeedAll(Set(b, banks[0].id, banks[0].balance), banks[1..])
  }

  /** One ledger entry: an account not in the dictionary yet is first given the opening
      balance of the bank account with that id, or 0; then debit minus credit is added. */
  function PostOne(b: Balances, t: Transaction, banks: seq<BankAccount>): Balances
  {
    var a := AccountOf(t);
    var seeded := if a in b.amounts then b
                  else Set(b, a, match FindBank(banks, a)
                                 case Some(i) => banks[i].balance
                                 case None => 0.0);
    Set(seeded, a, Get(seeded, a) + Net(t))
  }

  function PostAll(b: Balances, txs: seq<Transaction>, banks: seq<BankAccount>): Balances
    decreases |txs|
  {
    if |txs| == 0 then b else PostAll(PostOne(b, txs[0], banks), txs[1..], banks)
  }

  /** The initial capital: `Number(modal_awal) || 0`. */
  function CapitalOf(s: Settings): real
  {
    s.initialCapital.GetOr(0.0)
  }

  /** The whole dictionary the refresh builds from the settings and the ledger. */
  function AccountBalancesOf(s: Settings, txs: seq<Transaction>): Balances
  {
    var banks := BankAccountsOf(s);
    PostAll(SeedAll(Opening(CapitalOf(s)), banks), txs, banks)
  }

  /** The source's first `forEach`: each bank account's opening balance written under its id. */
  method SeedBankAccounts(b0: Balances, banks: seq<BankAccount>) returns (b: Balances)
    ensures b == SeedAll(b0, banks)
  {
    b := b0;
    var i := 0;
    while i < |banks|
      invariant 0 <= i <= |banks|
      invariant SeedAll(b, banks[i..]) == SeedAll(b0, banks)
    {
      assert banks[i..][1..] == banks[i + 1..];
      b := Set(b, banks[i].id, banks[i].balance);
      i := i + 1;
    }
    assert banks[i..] == [];
  }

  /** The source's second `forEach`: each ledger entry posted to its account. */
  method PostLedger(b0: Balances, txs: seq<Transaction>, banks: seq<BankAccount>) returns (b: Balances)
    ensures b == PostAll(b0, txs, banks)
  {
    b := b0;
    var i := 0;
    while i < |txs|
      invariant 0 <= i <= |txs|
      invariant PostAll(b, txs[i..], banks) == PostAll(b0, txs, banks)
    {
      PostAllStep(b, txs, i, banks);
      b := PostEntry(b, txs[i], banks);
      i := i + 1;
    }
    assert txs[i..] == [];
  }

  /** The body of the loop above for one entry. */
  method PostEntry(b0: Balances, t: Transaction, banks: seq<BankAccount>) returns (b: Balances)
    ensures b == PostOne(b0, t, banks)
  {
    b := b0;
    var account := AccountOf(t);
    if account !in b.amounts {
      var bank := FindBank(banks, account);
      b := Set(b, account, if bank.Some? then banks[bank.value].balance else 0.0);
    }
    b := Set(b, account, Get(b, account) + Net(t));
  }

  /** One more entry of the loop above: the rest of the ledger after entry i is posted. */
  lemma PostAllStep(b: Balances, txs: seq<Transaction>, i: nat, banks: seq<BankAccount>)
    requires i < |txs|
    ensures PostAll(b, txs[i..], banks) == PostAll(PostOne(b, txs[i], banks), txs[i + 1..], banks)
  {
    assert txs[i..][1..] == txs[i + 1..];
  }

  /** The dictionary of the refresh, built by the two loops. */
  method ComputeAccountBalances(s: Settings, txs: seq<Transaction>) returns (b: Balances)
    ensures b == AccountBalancesOf(s, txs)
  {
    var banks := BankAccountsOf(s);
    b := SeedBankAccounts(Opening(CapitalOf(s)), banks);
    b := PostLedger(b, txs, banks);
  }

  // ---------------------------------------------------------------------------
  // Sums over the dictionary

  lemma {:induction false} SumAmountsAppend(keys: seq<string>, k: string, m: map<string, real>)
    ensures SumAmounts(keys + [k], m) == SumAmounts(keys, m) + Lookup(m, k)
  {
    if |keys| > 0 {
      assert (keys + [k])[1..] == keys[1..] + [k];
      SumAmountsAppend(keys[1..], k, m);
    }
  }

  lemma {:induction false} SumAmountsOther(keys: seq<string>, m: map<string, real>, k: string, v: real)
    requires k !in keys
    ensures SumAmounts(keys, m[k := v]) == SumAmounts(keys, m)
  {
    if |keys| > 0 {
      assert keys[0] != k;
      SumAmountsOther(keys[1..], m, k, v);
    }
  }

  lemma {:induction false} SumAmountsUpdate(keys: seq<string>, m: map<string, real>, k: string, v: real)
    requires forall i, j :: 0 <= i < j < |keys| ==> keys[i] != keys[j]
    requires k in keys
    ensures SumAmounts(keys, m[k := v]) == SumAmounts(keys, m) - Lookup(m, k) + v
  {
    if keys[0] == k {
      assert k !in keys[1..] by {
        forall j | 0 <= j < |keys[1..]| ensures keys[1..][j] != k {
          assert keys[1..][j] == keys[j + 1];
        }
      }
      SumAmountsOther(keys[1..], m, k, v);
    } else {
      assert k in keys[1..] by {
        var i :| 0 <= i < |keys| && keys[i] == k;
        assert keys[1..][i - 1] == k;
      }
      SumAmountsUpdate(keys[1..], m, k, v);
    }
  }

  /** Writing `v` under `k` keeps the dictionary well formed, makes `k` read `v`, leaves
      every other account alone and moves the sum by `v` minus what `k` held. */
  lemma SetEffect(b: Balances, k: string, v: real)
    requires BalancesOk(b)
    ensures BalancesOk(Set(b, k, v))
    ensures forall a :: Get(Set(b, k, v), a) == if a == k then v else Get(b, a)
    ensures b.amounts.Keys <= Set(b, k, v).amounts.Keys
    ensures Total(Set(b, k, v)) == Total(b) - Get(b, k) + v
  {
    if k in b.amounts {
      SumAmountsUpdate(b.keys, b.amounts, k, v);
    } else {
      SumAmountsAppend(b.keys, k, b.amounts[k := v]);
      SumAmountsOther(b.keys, b.amounts, k, v);
      var r := Set(b, k, v);
      forall i, j | 0 <= i < j < |r.keys| ensures r.keys[i] != r.keys[j] {
        if j == |b.keys| {
          assert r.keys[i] == b.keys[i];
        }
      }
    }
  }

  // ---------------------------------------------------------------------------
  // Opening balances

  /** Every bank account's id has an entry once its opening balance is written. */
  ghost predicate Covers(b: Balances, banks: seq<BankAccount>)
  {
    forall i :: 0 <= i < |banks| ==> banks[i].id in b.amounts
  }

  /** After the bank loop the dictionary is still well formed, keeps every account it had
      and has an entry for every bank id. */
  lemma {:induction false} SeedAllShape(b: Balances, banks: seq<BankAccount>)
    requires BalancesOk(b)
    ensures BalancesOk(SeedAll(b, banks)) && Covers(SeedAll(b, banks), banks)
    ensures b.amounts.Keys <= SeedAll(b, banks).amounts.Keys
    decreases |banks|
  {
    if |banks| > 0 {
      var b1 := Set(b, banks[0].id, banks[0].balance);
      SetEffect(b, banks[0].id, banks[0].balance);
      SeedAllShape(b1, banks[1..]);
      var r := SeedAll(b1, banks[1..]);
      forall i | 0 <= i < |banks| ensures banks[i].id in r.amounts {
        if i > 0 {
          assert banks[1..][i - 1] == banks[i];
        }
      }
    }
  }

  /** An id no bank account has keeps, after the bank loop, the entry it had. */
  lemma {:induction false} SeedAllElsewhere(b: Balances, banks: seq<BankAccount>, a: string)
    requires BalancesOk(b)
    requires forall i :: 0 <= i < |banks| ==> banks[i].id != a
    ensures Get(SeedAll(b, banks), a) == Get(b, a)
    ensures a in SeedAll(b, banks).amounts <==> a in b.amounts
    decreases |banks|
  {
    if |banks| > 0 {
      var b1 := Set(b, banks[0].id, banks[0].balance);
      SetEffect(b, banks[0].id, banks[0].balance);
      assert forall i :: 0 <= i < |banks[1..]| ==> banks[1..][i] == banks[i + 1];
      SeedAllElsewhere(b1, banks[1..], a);
    }
  }

  /** After the bank loop an account reads the balance of the LAST bank account with its id. */
  lemma {:induction false} SeedAllLast(b: Balances, banks: seq<BankAccount>, a: string, i: nat)
    requires BalancesOk(b)
    requires i < |banks| && banks[i].id == a
    requires forall j :: i < j < |banks| ==> banks[j].id != a
    ensures Get(SeedAll(b, banks), a) == banks[i].balance
    decreases |banks|
  {
    var b1 := Set(b, banks[0].id, banks[0].balance);
    SetEffect(b, banks[0].id, banks[0].balance);
    if i == 0 {
      assert forall j :: 0 <= j < |banks[1..]| ==> banks[1..][j] == banks[j + 1];
      SeedAllElsewhere(b1, banks[1..], a);
    } else {
      assert banks[1..][i - 1] == banks[i];
      assert forall j :: i - 1 < j < |banks[1..]| ==> banks[1..][j] == banks[j + 1];
      SeedAllLast(b1, banks[1..], a, i - 1);
    }
  }

  /** After the bank loop each account reads the balance of the LAST bank account with its
      id, an id no bank account has keeps what it had, and every bank id has an entry. */
  lemma SeedAllEffect(b: Balances, banks: seq<BankAccount>, a: string)
    requires BalancesOk(b)
    ensures BalancesOk(SeedAll(b, banks)) && Covers(SeedAll(b, banks), banks)
    ensures b.amounts.Keys <= SeedAll(b, banks).amounts.Keys
    ensures (forall i :: 0 <= i < |banks| ==> banks[i].id != a) ==> Get(SeedAll(b, banks), a) == Get(b, a)
    ensures (forall i :: 0 <= i < |banks| ==> banks[i].id != a) ==>
              (a in SeedAll(b, banks).amounts <==> a in b.amounts)
    ensures forall i :: 0 <= i < |banks| && banks[i].id == a
                        && (forall j :: i < j < |banks| ==> banks[j].id != a) ==>
              Get(SeedAll(b, banks), a) == banks[i].balance
  {
    assert BalancesOk(SeedAll(b, banks)) && Covers(SeedAll(b, banks), banks)
           && b.amounts.Keys <= SeedAll(b, banks).amounts.Keys by {
      SeedAllShape(b, banks);
    }
    if forall i :: 0 <= i < |banks| ==> banks[i].id != a {
      SeedAllElsewhere(b, banks, a);
    }
    forall i | 0 <= i < |banks| && banks[i].id == a && (forall j :: i < j < |banks| ==> banks[j].id != a)
      ensures Get(SeedAll(b, banks), a) == banks[i].balance
    {
      SeedAllLast(b, banks, a, i);
    }
  }

  /** Bank accounts with distinct ids not yet listed add their opening balances to the sum. */
  lemma {:induction false} SeedAllTotal(b: Balances, banks: seq<BankAccount>)
    requires BalancesOk(b)
    requires forall i :: 0 <= i < |banks| ==> banks[i].id !in b.amounts
    requires forall i, j :: 0 <= i < j < |banks| ==> banks[i].id != banks[j].id
    ensures Total(SeedAll(b, banks)) == Total(b) + SumOf(banks, BankBalanceOf)
    decreases |banks|
  {
    if |banks| > 0 {
      var b1 := Set(b, banks[0].id, banks[0].balance);
      SetEffect(b, banks[0].id, banks[0].balance);
      forall i | 0 <= i < |banks[1..]| ensures banks[1..][i].id !in b1.amounts {
        assert banks[1..][i] == banks[i + 1];
      }
      forall i, j | 0 <= i < j < |banks[1..]| ensures banks[1..][i].id != banks[1..][j].id {
        assert banks[1..][i] == banks[i + 1] && banks[1..][j] == banks[j + 1];
      }
      SeedAllTotal(b1, banks[1..]);
    }
  }

  // ---------------------------------------------------------------------------
  // Posting the ledger

  /** Net movement of account `a` over the entries. */
  function NetFlow(txs: seq<Transaction>, a: string): real
  {
    if |txs| == 0 then 0.0
    else (if AccountOf(txs[0]) == a then Net(txs[0]) else 0.0) + NetFlow(txs[1..], a)
  }

  lemma {:induction false} NetFlowAppend(s: seq<Transaction>, t: seq<Transaction>, a: string)
    ensures NetFlow(s + t, a) == NetFlow(s, a) + NetFlow(t, a)
  {
    if |s| == 0 {
      assert s + t == t;
    } else {
      assert (s + t)[1..] == s[1..] + t;
      NetFlowAppend(s[1..], t, a);
    }
  }

  /** Once every bank id has an entry, the bank lookup for an account without one finds
      nothing: such an account always starts from 0. */
  lemma BankLookupFindsNothing(b: Balances, banks: seq<BankAccount>, a: string)
    requires Covers(b, banks) && a !in b.amounts
    ensures FindBank(banks, a).None?
  {
  }

  /** One entry, posted once every bank id has an entry, moves exactly its own account by
      debit minus credit, and moves the sum by as much. */
  lemma PostOneEffect(b: Balances, t: Transaction, banks: seq<BankAccount>)
    requires BalancesOk(b) && Covers(b, banks)
    ensures BalancesOk(PostOne(b, t, banks)) && Covers(PostOne(b, t, banks), banks)
    ensures forall a :: Get(PostOne(b, t, banks), a)
                        == Get(b, a) + (if AccountOf(t) == a then Net(t) else 0.0)
    ensures Total(PostOne(b, t, banks)) == Total(b) + Net(t)
  {
    var a := AccountOf(t);
    if a in b.amounts {
      SetEffect(b, a, Get(b, a) + Net(t));
    } else {
      BankLookupFindsNothing(b, banks, a);
      var seeded := Set(b, a, 0.0);
      assert PostOne(b, t, banks) == Set(seeded, a, Get(seeded, a) + Net(t));
      SetEffect(b, a, 0.0);
      SetEffect(seeded, a, Get(seeded, a) + Net(t));
    }
  }

  /** Posting the whole ledger: each account ends at its opening amount plus its net flow,
      and the sum at its opening sum plus the net of every entry. */
  lemma {:induction false} PostAllEffect(b: Balances, txs: seq<Transaction>, banks: seq<BankAccount>)
    requires BalancesOk(b) && Covers(b, banks)
    ensures BalancesOk(PostAll(b, txs, banks))
    ensures forall a :: Get(PostAll(b, txs, banks), a) == Get(b, a) + NetFlow(txs, a)
    ensures Total(PostAll(b, txs, banks)) == Total(b) + SumOf(txs, Net)
    decreases |txs|
  {
    if |txs| > 0 {
      PostOneEffect(b, txs[0], banks);
      PostAllEffect(PostOne(b, txs[0], banks), txs[1..], banks);
    }
  }

  /** In the dictionary the refresh builds, every account is its opening amount plus its
      net flow, every key is listed once and exactly the listed keys have an amount, and the
      bank lookup of data.ts:27 never finds an account. */
  lemma AccountBalance(s: Settings, txs: seq<Transaction>, a: string)
    ensures var banks := BankAccountsOf(s);
            Get(AccountBalancesOf(s, txs), a)
            == Get(SeedAll(Opening(CapitalOf(s)), banks), a) + NetFlow(txs, a)
    ensures BalancesOk(AccountBalancesOf(s, txs))
  {
    var banks := BankAccountsOf(s);
    SeedAllEffect(Opening(CapitalOf(s)), banks, a);
    PostAllEffect(SeedAll(Opening(CapitalOf(s)), banks), txs, banks);
  }

  /** "cash" holds the initial capital plus the net flow of every entry without an account
      or on "cash", unless a bank account is itself called "cash". */
  lemma CashBalance(s: Settings, txs: seq<Transaction>)
    requires forall acc :: acc in BankAccountsOf(s) ==> acc.id != "cash"
    ensures Get(AccountBalancesOf(s, txs), "cash") == CapitalOf(s) + NetFlow(txs, "cash")
  {
    var banks := BankAccountsOf(s);
    AccountBalance(s, txs, "cash");
    assert forall i :: 0 <= i < |banks| ==> banks[i].id != "cash" by {
      forall i | 0 <= i < |banks| ensures banks[i].id != "cash" {
        assert banks[i] in banks;
      }
    }
    SeedAllEffect(Opening(CapitalOf(s)), banks, "cash");
  }

  /** A bank account whose id no later account repeats holds its opening balance plus the
      net flow of the entries on it. */
  lemma BankBalance(s: Settings, txs: seq<Transaction>, i: nat)
    requires i < |BankAccountsOf(s)|
    requires forall j :: i < j < |BankAccountsOf(s)| ==> BankAccountsOf(s)[j].id != BankAccountsOf(s)[i].id
    ensures var acc := BankAccountsOf(s)[i];
            Get(AccountBalancesOf(s, txs), acc.id) == acc.balance + NetFlow(txs, acc.id)
  {
    var banks := BankAccountsOf(s);
    AccountBalance(s, txs, banks[i].id);
    SeedAllEffect(Opening(CapitalOf(s)), banks, banks[i].id);
  }

  /** With distinct bank ids, none of them "cash", the current balance is the initial
      capital plus every opening bank balance plus the net of every ledger entry. */
  lemma CurrentBalanceClosedForm(s: Settings, txs: seq<Transaction>)
    requires forall acc :: acc in BankAccountsOf(s) ==> acc.id != "cash"
    requires var banks := BankAccountsOf(s);
             forall i, j :: 0 <= i < j < |banks| ==> banks[i].id != banks[j].id
    ensures Total(AccountBalancesOf(s, txs))
            == CapitalOf(s) + SumOf(BankAccountsOf(s), BankBalanceOf) + SumOf(txs, Net)
  {
    var banks := BankAccountsOf(s);
    var o := Opening(CapitalOf(s));
    assert SumAmounts(o.keys[1..], o.amounts) == 0.0;
    assert Total(o) == CapitalOf(s);
    forall i | 0 <= i < |banks| ensures banks[i].id !in o.amounts {
      assert banks[i] in banks;
    }
    SeedAllTotal(o, banks);
    SeedAllEffect(o, banks, "cash");
    PostAllEffect(SeedAll(o, banks), txs, banks);
  }

  /** The dictionary before the ledger, with its initial capital and bank accounts. */
  function Seeded(s: Settings): Balances
  {
    SeedAll(Opening(CapitalOf(s)), BankAccountsOf(s))
  }

  /** The current balance is the sum of the opening amounts plus the net of every entry. */
  lemma CurrentBalanceIsOpeningPlusNet(s: Settings, txs: seq<Transaction>)
    ensures Total(AccountBalancesOf(s, txs)) == Total(Seeded(s)) + SumOf(txs, Net)
  {
    SeedAllEffect(Opening(CapitalOf(s)), BankAccountsOf(s), "cash");
    PostAllEffect(Seeded(s), txs, BankAccountsOf(s));
  }

  /** Entries added to the ledger, at its end or at its front, move each account by their
      net flow on it and the current balance by their whole net. */
  lemma LedgerGrows(s: Settings, txs: seq<Transaction>, more: seq<Transaction>)
    ensures forall a :: Get(AccountBalancesOf(s, txs + more), a) == Get(AccountBalancesOf(s, txs), a) + NetFlow(more, a)
    ensures forall a :: Get(AccountBalancesOf(s, more + txs), a) == Get(AccountBalancesOf(s, txs), a) + NetFlow(more, a)
    ensures Total(AccountBalancesOf(s, txs + more)) == Total(AccountBalancesOf(s, txs)) + SumOf(more, Net)
    ensures Total(AccountBalancesOf(s, more + txs)) == Total(AccountBalancesOf(s, txs)) + SumOf(more, Net)
  {
    forall a
      ensures Get(AccountBalancesOf(s, txs + more), a) == Get(AccountBalancesOf(s, txs), a) + NetFlow(more, a)
      ensures Get(AccountBalancesOf(s, more + txs), a) == Get(AccountBalancesOf(s, txs), a) + NetFlow(more, a)
    {
      AccountBalance(s, txs, a);
      AccountBalance(s, txs + more, a);
      AccountBalance(s, more + txs, a);
      NetFlowAppend(txs, more, a);
      NetFlowAppend(more, txs, a);
    }
    CurrentBalanceIsOpeningPlusNet(s, txs);
    CurrentBalanceIsOpeningPlusNet(s, txs + more);
    CurrentBalanceIsOpeningPlusNet(s, more + txs);
    SumAppend(txs, more, Net);
    SumAppend(more, txs, Net);
  }

  lemma {:induction false} SeedAllAppend(b: Balances, banks: seq<BankAccount>, acc: BankAccount)
    ensures SeedAll(b, banks + [acc]) == Set(SeedAll(b, banks), acc.id, acc.balance)
    decreases |banks|
  {
    if |banks| == 0 {
      assert (banks + [acc])[1..] == [];
    } else {
      assert (banks + [acc])[1..] == banks[1..] + [acc];
      SeedAllAppend(Set(b, banks[0].id, banks[0].balance), banks[1..], acc);
    }
  }

  /** One more bank account, with an id neither "cash" nor any other account's: it holds its
      opening balance plus the net flow on it, every other account keeps its balance, and
      the current balance rises by the opening balance. */
  lemma NewBankAccountBalances(s: Settings, acc: BankAccount, txs: seq<Transaction>)
    requires acc.id != "cash"
    requires forall x :: x in BankAccountsOf(s) ==> x.id != acc.id
    ensures var s2 := s.(bankAccounts := Some(BankAccountsOf(s) + [acc]));
            && Get(AccountBalancesOf(s2, txs), acc.id) == acc.balance + NetFlow(txs, acc.id)
            && (forall a :: a != acc.id ==> Get(AccountBalancesOf(s2, txs), a) == Get(AccountBalancesOf(s, txs), a))
            && Total(AccountBalancesOf(s2, txs)) == Total(AccountBalancesOf(s, txs)) + acc.balance
  {
    var banks := BankAccountsOf(s);
    var s2 := s.(bankAccounts := Some(banks + [acc]));
    assert CapitalOf(s2) == CapitalOf(s) && BankAccountsOf(s2) == banks + [acc];
    var o := Opening(CapitalOf(s));
    var seed := SeedAll(o, banks);
    SeedAllAppend(o, banks, acc);
    assert Seeded(s2) == Set(seed, acc.id, acc.balance);
    SeedAllEffect(o, banks, acc.id);
    forall i | 0 <= i < |banks| ensures banks[i].id != acc.id {
      assert banks[i] in banks;
    }
    assert acc.id !in seed.amounts;
    SetEffect(seed, acc.id, acc.balance);
    forall a
      ensures Get(AccountBalancesOf(s2, txs), a)
              == (if a == acc.id then acc.balance else Get(seed, a)) + NetFlow(txs, a)
      ensures Get(AccountBalancesOf(s, txs), a) == Get(seed, a) + NetFlow(txs, a)
    {
      AccountBalance(s, txs, a);
      AccountBalance(s2, txs, a);
    }
    CurrentBalanceIsOpeningPlusNet(s, txs);
    CurrentBalanceIsOpeningPlusNet(s2, txs);
  }
}
