/** The bank-balances screen: one balance per registered account, computed from its
    initial balance and the reconciled transactions booked on it, their total, the
    account form's required fields and marking an account as the primary one. */
module AccountBalances {
  import opened Wrappers
  import opened Types
  import opened Folds
  import opened Text
  import opened Sorting
  import opened Ledger
  import opened Records

  /** One entry of the insertion-ordered `Map<accountId, balance>`. */
  datatype Entry = Entry(id: string, balance: int)

  function EntryId(e: Entry): string { e.id }
  function EntryBalance(e: Entry): int { e.balance }

  predicate Distinct(e: seq<Entry>)
  {
    forall i, j :: 0 <= i < j < |e| ==> e[i].id != e[j].id
  }

  /** `balances.has(id)`. */
  predicate Has(e: seq<Entry>, id: string)
  {
    IndexOf(e, EntryId, id).Some?
  }

  /** `balances.get(id)`. */
  function Get(e: seq<Entry>, id: string): int
  {
    var i := IndexOf(e, EntryId, id);
    if i.None? then 0 else e[i.value].balance
  }

  /** `balances.set(id, v)`: an existing key keeps its position, a new one goes last. */
  function Put(e: seq<Entry>, id: string, v: int): seq<Entry>
  {
    var i := IndexOf(e, EntryId, id);
    if i.None? then e + [Entry(id, v)] else e[i.value := Entry(id, v)]
  }

  /** The map seeded from the accounts, in account order. */
  function Seeded(accounts: seq<BankAccount>): seq<Entry>
  {
    if accounts == [] then []
    else
      var a := accounts[|accounts| - 1];
      Put(Seeded(accounts[..|accounts| - 1]), a.id, a.initialBalance)
  }

  function IsReconciled(t: Transaction): bool { t.reconciled }

  /** One transaction: its signed amount moves its account's balance, if the account is known. */
  function Apply(e: seq<Entry>, t: Transaction): seq<Entry>
  {
    if Has(e, t.bankAccount) then Put(e, t.bankAccount, Get(e, t.bankAccount) + Signed(t)) else e
  }

  function ApplyAll(e: seq<Entry>, p: seq<Transaction>): seq<Entry>
  {
    if p == [] then e else Apply(ApplyAll(e, p[..|p| - 1]), p[|p| - 1])
  }

  /** `accountBalances`: the seeded map updated by the reconciled transactions, oldest
      competence date first. */
  function Balances(accounts: seq<BankAccount>, s: seq<Transaction>): seq<Entry>
  {
    ApplyAll(Seeded(accounts), SortBy(Filter(s, IsReconciled), CompetenceTime))
  }

  /** `totalBalance`: the sum of the map's values. */
  function Total(e: seq<Entry>): int
  {
    Sum(e, EntryBalance)
  }

  predicate HasAccount(accounts: seq<BankAccount>, id: string)
  {
    exists j :: 0 <= j < |accounts| && accounts[j].id == id
  }

  /** The initial balance the map holds for `id`: a later account with the same id
      overwrites an earlier one. */
  function LastInitial(accounts: seq<BankAccount>, id: string): int
  {
    if accounts == [] then 0
    else if accounts[|accounts| - 1].id == id then accounts[|accounts| - 1].initialBalance
    else LastInitial(accounts[..|accounts| - 1], id)
  }

  /** What a transaction does to the balance of account `id`. */
  function OnAccount(id: string): Transaction -> int
  {
    (t: Transaction) => if t.bankAccount == id then Signed(t) else 0
  }

  /** What a transaction does to the total: its signed amount when its account is known. */
  function OnKnownAccount(accounts: seq<BankAccount>): Transaction -> int
  {
    (t: Transaction) => if HasAccount(accounts, t.bankAccount) then Signed(t) else 0
  }

  function InitialBalance(a: BankAccount): int { a.initialBalance }

  // ---------------------------------------------------------------- map lemmas

  lemma HasIff(e: seq<Entry>, id: string)
    ensures Has(e, id) <==> exists i :: 0 <= i < |e| && e[i].id == id
  {
    if !Has(e, id) {
      assert forall i :: 0 <= i < |e| ==> EntryId(e[i]) != id;
    }
  }

  lemma GetAt(e: seq<Entry>, k: nat)
    requires Distinct(e) && k < |e|
    ensures Has(e, e[k].id) && Get(e, e[k].id) == e[k].balance
  {
    var f := IndexOf(e, EntryId, e[k].id);
    assert EntryId(e[k]) == e[k].id;
    assert f.Some?;
  }

  lemma PutSpec(e: seq<Entry>, id: string, v: int)
    requires Distinct(e)
    ensures Distinct(Put(e, id, v))
    ensures forall x :: Has(Put(e, id, v), x) <==> Has(e, x) || x == id
    ensures forall x :: Has(Put(e, id, v), x) ==> Get(Put(e, id, v), x) == if x == id then v else Get(e, x)
  {
    var r := Put(e, id, v);
    var f := IndexOf(e, EntryId, id);
    if f.None? {
      assert forall i :: 0 <= i < |e| ==> EntryId(e[i]) != id;
    }
    assert Distinct(r);
    assert forall k :: 0 <= k < |e| ==> r[k].id == e[k].id by {
      if f.Some? { assert EntryId(e[f.value]) == id; }
    }
    forall x ensures Has(r, x) <==> Has(e, x) || x == id {
      HasIff(r, x);
      HasIff(e, x);
      if f.None? {
        assert r[|e|].id == id;
      } else {
        assert r[f.value].id == id;
      }
    }
    forall x | Has(r, x) ensures Get(r, x) == if x == id then v else Get(e, x) {
      HasIff(r, x);
      var k :| 0 <= k < |r| && r[k].id == x;
      GetAt(r, k);
      if x != id {
        assert k < |e| && e[k] == r[k];
        GetAt(e, k);
      }
    }
  }

  /** The seeded map holds one entry per distinct account id, with the initial balance of
      the last account carrying it. */
  lemma {:induction false} SeededSpec(accounts: seq<BankAccount>)
    ensures Distinct(Seeded(accounts))
    ensures forall id :: Has(Seeded(accounts), id) <==> HasAccount(accounts, id)
    ensures forall id :: Has(Seeded(accounts), id) ==> Get(Seeded(accounts), id) == LastInitial(accounts, id)
  {
    if accounts == [] {
      forall id ensures !Has([], id) { HasIff([], id); }
    } else {
      var n := |accounts| - 1;
      var p := accounts[..n];
      var a := accounts[n];
      SeededSpec(p);
      PutSpec(Seeded(p), a.id, a.initialBalance);
      forall id ensures HasAccount(accounts, id) <==> HasAccount(p, id) || id == a.id {
        if HasAccount(accounts, id) && id != a.id {
          var j :| 0 <= j < |accounts| && accounts[j].id == id;
          assert p[j] == accounts[j];
        }
        if HasAccount(p, id) {
          var j :| 0 <= j < |p| && p[j].id == id;
          assert accounts[j] == p[j];
        }
      }
    }
  }

  /** One transaction moves exactly the entry of its own account, by its signed amount. */
  lemma ApplyStep(e: seq<Entry>, t: Transaction)
    requires Distinct(e)
    ensures |Apply(e, t)| == |e|
    ensures forall i :: 0 <= i < |e| ==>
      Apply(e, t)[i].id == e[i].id && Apply(e, t)[i].balance == e[i].balance + OnAccount(e[i].id)(t)
  {
    var f := IndexOf(e, EntryId, t.bankAccount);
    if f.None? {
      assert forall i :: 0 <= i < |e| ==> EntryId(e[i]) != t.bankAccount;
    } else {
      GetAt(e, f.value);
    }
  }

  /** After any transactions every entry keeps its key and has moved by the signed amounts
      booked on it. */
  lemma {:induction false} ApplyAllSpec(e: seq<Entry>, p: seq<Transaction>)
    requires Distinct(e)
    ensures |ApplyAll(e, p)| == |e| && Distinct(ApplyAll(e, p))
    ensures forall i :: 0 <= i < |e| ==>
      ApplyAll(e, p)[i].id == e[i].id && ApplyAll(e, p)[i].balance == e[i].balance + Sum(p, OnAccount(e[i].id))
  {
    if p != [] {
      var n := |p| - 1;
      var q := ApplyAll(e, p[..n]);
      ApplyAllSpec(e, p[..n]);
      ApplyStep(q, p[n]);
    }
  }

  // ---------------------------------------------------------------- properties

  /** The map has an entry exactly for the registered accounts; each balance is the
      account's initial balance plus its reconciled income minus its reconciled expense. */
  lemma AccountBalance(accounts: seq<BankAccount>, s: seq<Transaction>, id: string)
    ensures Has(Balances(accounts, s), id) <==> HasAccount(accounts, id)
    ensures HasAccount(accounts, id) ==>
      Get(Balances(accounts, s), id) == LastInitial(accounts, id) + Sum(Filter(s, IsReconciled), OnAccount(id))
  {
    var e := Seeded(accounts);
    var p := SortBy(Filter(s, IsReconciled), CompetenceTime);
    var b := Balances(accounts, s);
    SeededSpec(accounts);
    ApplyAllSpec(e, p);
    HasIff(b, id);
    HasIff(e, id);
    if HasAccount(accounts, id) {
      var k :| 0 <= k < |e| && e[k].id == id;
      GetAt(e, k);
      GetAt(b, k);
      SortBySum(Filter(s, IsReconciled), CompetenceTime, OnAccount(id));
    }
  }

  /** The competence-date sort does not change any balance. */
  lemma SortIrrelevant(accounts: seq<BankAccount>, s: seq<Transaction>)
    ensures Balances(accounts, s) == ApplyAll(Seeded(accounts), Filter(s, IsReconciled))
  {
    var e := Seeded(accounts);
    var r := Filter(s, IsReconciled);
    var a := Balances(accounts, s);
    var b := ApplyAll(e, r);
    SeededSpec(accounts);
    ApplyAllSpec(e, SortBy(r, CompetenceTime));
    ApplyAllSpec(e, r);
    forall i | 0 <= i < |e| ensures a[i] == b[i] {
      SortBySum(r, CompetenceTime, OnAccount(e[i].id));
    }
  }

  lemma ApplyAllUnknown(e: seq<Entry>, p: seq<Transaction>, t: Transaction)
    requires Distinct(e) && !Has(e, t.bankAccount)
    ensures ApplyAll(e, p + [t]) == ApplyAll(e, p)
  {
    var q := ApplyAll(e, p);
    assert (p + [t])[..|p|] == p;
    ApplyAllSpec(e, p);
    HasIff(e, t.bankAccount);
    HasIff(q, t.bankAccount);
  }

  /** A transaction naming no registered account leaves every balance as it was. */
  lemma UnknownAccountIgnored(accounts: seq<BankAccount>, s: seq<Transaction>, t: Transaction)
    requires !HasAccount(accounts, t.bankAccount)
    ensures Balances(accounts, s + [t]) == Balances(accounts, s)
  {
    SeededSpec(accounts);
    SortIrrelevant(accounts, s);
    SortIrrelevant(accounts, s + [t]);
    assert (s + [t])[..|s|] == s;
    var r := Filter(s, IsReconciled);
    assert Filter(s + [t], IsReconciled) == r + (if t.reconciled then [t] else []);
    if t.reconciled {
      ApplyAllUnknown(Seeded(accounts), r, t);
    } else {
      assert r + [] == r;
    }
  }

  lemma ApplyTotal(e: seq<Entry>, t: Transaction)
    requires Distinct(e)
    ensures Total(Apply(e, t)) == Total(e) + if Has(e, t.bankAccount) then Signed(t) else 0
  {
    var f := IndexOf(e, EntryId, t.bankAccount);
    if f.Some? {
      SumUpdate(e, f.value, Entry(t.bankAccount, Get(e, t.bankAccount) + Signed(t)), EntryBalance);
    }
  }

  lemma {:induction false} TotalApplyAll(accounts: seq<BankAccount>, p: seq<Transaction>)
    ensures Total(ApplyAll(Seeded(accounts), p)) == Total(Seeded(accounts)) + Sum(p, OnKnownAccount(accounts))
  {
    var e := Seeded(accounts);
    SeededSpec(accounts);
    if p != [] {
      var n := |p| - 1;
      var q := ApplyAll(e, p[..n]);
      TotalApplyAll(accounts, p[..n]);
      ApplyAllSpec(e, p[..n]);
      ApplyTotal(q, p[n]);
      HasIff(q, p[n].bankAccount);
      HasIff(e, p[n].bankAccount);
    }
  }

  /** The total is the seeded total plus the signed reconciled amounts booked on
      registered accounts; with distinct account ids the seeded total is the sum of the
      initial balances. */
  lemma TotalBalance(accounts: seq<BankAccount>, s: seq<Transaction>)
    ensures Total(Balances(accounts, s)) == Total(Seeded(accounts)) + Sum(Filter(s, IsReconciled), OnKnownAccount(accounts))
  {
    TotalApplyAll(accounts, SortBy(Filter(s, IsReconciled), CompetenceTime));
    SortBySum(Filter(s, IsReconciled), CompetenceTime, OnKnownAccount(accounts));
  }

  lemma {:induction false} SeededTotal(accounts: seq<BankAccount>)
    requires forall i, j :: 0 <= i < j < |accounts| ==> accounts[i].id != accounts[j].id
    ensures Total(Seeded(accounts)) == Sum(accounts, InitialBalance)
  {
    if accounts != [] {
      var n := |accounts| - 1;
      var p := accounts[..n];
      SeededTotal(p);
      SeededSpec(p);
      assert !HasAccount(p, accounts[n].id);
      assert IndexOf(Seeded(p), EntryId, accounts[n].id).None?;
      SumAppend(Seeded(p), [Entry(accounts[n].id, accounts[n].initialBalance)], EntryBalance);
      SumSingleton(Entry(accounts[n].id, accounts[n].initialBalance), EntryBalance);
    }
  }

  /** `accountBalances` as the screen computes it: seed the map, then walk the sorted
      reconciled transactions, skipping unknown accounts. */
  method AccountBalancesOf(accounts: seq<BankAccount>, transactions: seq<Transaction>) returns (balances: seq<Entry>)
    ensures balances == Balances(accounts, transactions)
  {
    balances := [];
    for i := 0 to |accounts|
      invariant balances == Seeded(accounts[..i])
    {
      assert accounts[..i + 1][..i] == accounts[..i];
      balances := Put(balances, accounts[i].id, accounts[i].initialBalance);
    }
    assert accounts[..|accounts|] == accounts;
    var sorted := SortBy(Filter(transactions, IsReconciled), CompetenceTime);
    ghost var seed := balances;
    for i := 0 to |sorted|
      invariant balances == ApplyAll(seed, sorted[..i])
    {
      assert sorted[..i + 1][..i] == sorted[..i];
      balances := ApplyOne(balances, sorted[i]);
    }
    assert sorted[..|sorted|] == sorted;
  }

  /** The body of the second loop: a transaction of a known account moves its balance. */
  method ApplyOne(balances: seq<Entry>, t: Transaction) returns (updated: seq<Entry>)
    ensures updated == Apply(balances, t)
  {
    updated := balances;
    if Has(balances, t.bankAccount) {
      var current := Get(balances, t.bankAccount);
      if t.txType == Income {
        updated := Put(balances, t.bankAccount, current + t.amount);
      } else {
        updated := Put(balances, t.bankAccount, current - t.amount);
      }
    }
  }

  // ---------------------------------------------------------------- account form

  /** The fields of the account form; an untouched field is absent. */
  datatype AccountForm = AccountForm(
    name: Option<string>, bankCode: Option<string>, agency: Option<string>, accountNumber: Option<string>)

  const ErrName := "Nome da conta é obrigatório"
  const ErrBankCode := "Código do banco é obrigatório"
  const ErrAgency := "Agência é obrigatória"
  const ErrAccountNumber := "Número da conta é obrigatório"

  /** `x?.trim()` is truthy. */
  predicate Filled(o: Option<string>)
  {
    o.Some? && Trim(o.value) != []
  }

  /** A field is missing when it is absent or holds only white space. */
  predicate Missing(o: Option<string>)
  {
    o.None? || IsBlank(o.value)
  }

  /** The guards of `handleSubmit`, in order. */
  function ValidateAccountForm(f: AccountForm): Result<AccountForm, string>
  {
    if !Filled(f.name) then Err(ErrName)
    else if !Filled(f.bankCode) then Err(ErrBankCode)
    else if !Filled(f.agency) then Err(ErrAgency)
    else if !Filled(f.accountNumber) then Err(ErrAccountNumber)
    else Ok(f)
  }

  lemma FilledIffNotMissing(o: Option<string>)
    ensures Filled(o) <==> !Missing(o)
  {
    if o.Some? { TrimEmptyIffBlank(o.value); }
  }

  /** The form is accepted unchanged exactly when no field is missing; otherwise the
      message names the first missing field in the order name, bank code, agency,
      account number. */
  lemma AccountFormGuards(f: AccountForm)
    ensures ValidateAccountForm(f).Ok? <==>
      !Missing(f.name) && !Missing(f.bankCode) && !Missing(f.agency) && !Missing(f.accountNumber)
    ensures ValidateAccountForm(f).Ok? ==> ValidateAccountForm(f).value == f
    ensures ValidateAccountForm(f) == Err(ErrName) <==> Missing(f.name)
    ensures ValidateAccountForm(f) == Err(ErrBankCode) <==> !Missing(f.name) && Missing(f.bankCode)
    ensures ValidateAccountForm(f) == Err(ErrAgency) <==>
      !Missing(f.name) && !Missing(f.bankCode) && Missing(f.agency)
    ensures ValidateAccountForm(f) == Err(ErrAccountNumber) <==>
      !Missing(f.name) && !Missing(f.bankCode) && !Missing(f.agency) && Missing(f.accountNumber)
  {
    FilledIffNotMissing(f.name);
    FilledIffNotMissing(f.bankCode);
    FilledIffNotMissing(f.agency);
    FilledIffNotMissing(f.accountNumber);
  }

  // ---------------------------------------------------------------- primary account

  /** `handleSetPrimary`: the store replaces the first account with the id by a copy of
      it marked primary. */
  function SetPrimary(accounts: seq<BankAccount>, account: BankAccount): seq<BankAccount>
  {
    ReplaceFirst(accounts, AccountKey, account.id, account.(isPrimary := true))
  }

  /** Marking an account primary sets the flag on that account only and clears it on none. */
  lemma SetPrimaryOnlyMarks(accounts: seq<BankAccount>, k: nat)
    requires k < |accounts|
    requires forall j :: 0 <= j < k ==> accounts[j].id != accounts[k].id
    ensures |SetPrimary(accounts, accounts[k])| == |accounts|
    ensures SetPrimary(accounts, accounts[k])[k] == accounts[k].(isPrimary := true)
    ensures forall j :: 0 <= j < |accounts| && j != k ==> SetPrimary(accounts, accounts[k])[j] == accounts[j]
    ensures forall j :: 0 <= j < |accounts| && accounts[j].isPrimary ==> SetPrimary(accounts, accounts[k])[j].isPrimary
  {
    ReplaceFirstSpec(accounts, AccountKey, accounts[k].id, accounts[k].(isPrimary := true));
    assert AccountKey(accounts[k]) == accounts[k].id;
    assert forall j :: 0 <= j < k ==> AccountKey(accounts[j]) != accounts[k].id;
  }
}
