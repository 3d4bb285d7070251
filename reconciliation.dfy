/** The bank reconciliation view (src/components/ConciliacaoBancaria.tsx): reconciled
    transactions grouped by day with a balance seeded from the selected account,
    the period totals, transfer validation, cyclic account switching and the
    unreconcile request. */
module Reconciliation {
  import opened Wrappers
  import opened Types
  import opened Text
  import opened Folds
  import opened Ledger
  import opened Sorting
  import DailyMovements

  datatype DayGroup = DayGroup(key: int, transactions: seq<Transaction>, balance: int)

  datatype Totals = Totals(income: int, expense: int, balance: int)

  /** The search box: empty, or a case-insensitive match in the description or supplier. */
  predicate MatchesSearch(t: Transaction, term: string)
  {
    term == [] || ContainsIgnoringCase(t.description, term)
    || (t.supplier.Some? && ContainsIgnoringCase(t.supplier.value, term))
  }

  /** A transaction is shown when it matches the search, belongs to the selected account
      (any account when none is selected, written ''), is due inside the window and
      is reconciled. */
  predicate Shown(t: Transaction, term: string, account: string, start: int, end: int)
  {
    MatchesSearch(t, term) && (account == [] || t.bankAccount == account)
    && start <= t.dueDate.time <= end && t.reconciled
  }

  function ShownOf(s: seq<Transaction>, term: string, account: string, start: int, end: int): seq<Transaction>
  {
    if s == [] then []
    else ShownOf(s[..|s| - 1], term, account, start, end)
         + (if Shown(s[|s| - 1], term, account, start, end) then [s[|s| - 1]] else [])
  }

  lemma {:induction false} ShownOfSelects(s: seq<Transaction>, term: string, account: string, start: int, end: int)
    ensures forall t :: t in ShownOf(s, term, account, start, end) <==> t in s && Shown(t, term, account, start, end)
  {
    if s != [] {
      ShownOfSelects(s[..|s| - 1], term, account, start, end);
      assert s == s[..|s| - 1] + [s[|s| - 1]];
    }
  }

  /** The opening balance: the selected account's initial balance, or 0 when no account
      is selected or the selected one is unknown. */
  function Seed(accounts: seq<BankAccount>, account: string): (r: int)
    ensures account != [] && FindAccount(accounts, account).Some? ==>
      r == FindAccount(accounts, account).value.initialBalance
    ensures account == [] || FindAccount(accounts, account).None? ==> r == 0
  {
    if account != [] then
      match FindAccount(accounts, account)
      case Some(a) => a.initialBalance
      case None => 0
    else 0
  }

  function FindGroup(groups: seq<DayGroup>, k: int): (r: Option<nat>)
    ensures r.Some? ==> r.value < |groups| && groups[r.value].key == k
    ensures r.None? ==> forall g :: 0 <= g < |groups| ==> groups[g].key != k
  {
    if groups == [] then None
    else if groups[|groups| - 1].key == k then Some(|groups| - 1)
    else FindGroup(groups[..|groups| - 1], k)
  }

  /** Some transaction of the list is due after `t`. */
  predicate SomeLater(ts: seq<Transaction>, t: Transaction)
  {
    exists u :: u in ts && u.dueDate.time > t.dueDate.time
  }

  /** One step of the loop: the day's group is created with the balance as it stands,
      the transaction is pushed, the running balance moves, and the group's balance is
      overwritten unless the group holds a later transaction. */
  function AddTransaction(groups: seq<DayGroup>, t: Transaction, before: int): seq<DayGroup>
  {
    var k := DayKey(t.dueDate);
    var f := FindGroup(groups, k);
    var g := if f.None? then DayGroup(k, [], before) else groups[f.value];
    var txs := g.transactions + [t];
    var g' := g.(transactions := txs, balance := if SomeLater(txs, t) then g.balance else before + Signed(t));
    if f.None? then groups + [g'] else groups[f.value := g']
  }

  function Grouping(s: seq<Transaction>, seed: int): seq<DayGroup>
  {
    if s == [] then []
    else AddTransaction(Grouping(s[..|s| - 1], seed), s[|s| - 1], seed + Net(s[..|s| - 1]))
  }

  function GroupIncome(g: DayGroup): int { TotalIncome(g.transactions) }
  function GroupExpense(g: DayGroup): int { TotalExpense(g.transactions) }

  predicate GroupsAgree(groups: seq<DayGroup>, p: seq<Transaction>, seed: int)
  {
    forall g :: 0 <= g < |groups| ==>
      && groups[g].transactions == DailyMovements.OnDay(p, groups[g].key)
      && groups[g].transactions != []
      && groups[g].balance == seed + DailyMovements.NetThrough(p, groups[g].key)
  }

  predicate GroupsOrdered(groups: seq<DayGroup>, p: seq<Transaction>)
  {
    && (forall a, b :: 0 <= a < b < |groups| ==> groups[a].key < groups[b].key)
    && (forall j :: 0 <= j < |p| ==> exists g :: 0 <= g < |groups| && groups[g].key == DayKey(p[j].dueDate))
    && (p != [] ==> |groups| > 0 && groups[|groups| - 1].key == DayKey(p[|p| - 1].dueDate))
    && (p == [] ==> groups == [])
  }

  predicate GroupsSum(groups: seq<DayGroup>, p: seq<Transaction>)
  {
    Sum(groups, GroupIncome) == TotalIncome(p) && Sum(groups, GroupExpense) == TotalExpense(p)
  }

  /** On sorted input: each day of `p` has one group holding its transactions in order,
      whose balance is the seed plus the net through the day's last transaction; the
      groups are chronological and hold all of `p`'s income and expense. */
  predicate Grouped(groups: seq<DayGroup>, p: seq<Transaction>, seed: int)
  {
    GroupsAgree(groups, p, seed) && GroupsOrdered(groups, p) && GroupsSum(groups, p)
  }

  lemma {:induction false} OnDayMembers(p: seq<Transaction>, k: int)
    ensures forall u :: u in DailyMovements.OnDay(p, k) ==> u in p
  {
    if p != [] {
      OnDayMembers(p[..|p| - 1], k);
      assert p == p[..|p| - 1] + [p[|p| - 1]];
    }
  }

  /** On sorted input no earlier transaction of a day is due after the new one. */
  lemma NoLaterInGroup(g: DayGroup, p: seq<Transaction>, t: Transaction)
    requires SortedBy(p + [t], DueTime)
    requires g.transactions == DailyMovements.OnDay(p, g.key)
    ensures !SomeLater(g.transactions + [t], t)
  {
    OnDayMembers(p, g.key);
    forall u | u in g.transactions + [t] ensures u.dueDate.time <= t.dueDate.time {
      if u != t {
        var j :| 0 <= j < |p| && p[j] == u;
        assert (p + [t])[j] == u && (p + [t])[|p|] == t;
      }
    }
  }

  lemma StepAgrees(groups: seq<DayGroup>, p: seq<Transaction>, t: Transaction, seed: int)
    requires GroupsAgree(groups, p, seed) && GroupsOrdered(groups, p) && SortedBy(p + [t], DueTime)
    ensures GroupsAgree(AddTransaction(groups, t, seed + Net(p)), p + [t], seed)
  {
    var k := DayKey(t.dueDate);
    var f := FindGroup(groups, k);
    var after := AddTransaction(groups, t, seed + Net(p));
    assert (p + [t])[..|p|] == p;
    SumStep(p + [t], |p|, Signed);
    forall g | 0 <= g < |after| ensures
          && after[g].transactions == DailyMovements.OnDay(p + [t], after[g].key)
          && after[g].transactions != []
          && after[g].balance == seed + DailyMovements.NetThrough(p + [t], after[g].key)
    {
      if g < |groups| && (f.None? || g != f.value) {
        assert after[g] == groups[g];
      } else if f.None? {
        forall j | 0 <= j < |p| ensures DayKey(p[j].dueDate) != k {
          var h :| 0 <= h < |groups| && groups[h].key == DayKey(p[j].dueDate);
        }
        DailyMovements.OnDayEmpty(p, k);
        NoLaterInGroup(DayGroup(k, [], seed + Net(p)), p, t);
      } else {
        NoLaterInGroup(groups[f.value], p, t);
      }
    }
  }

  lemma StepOrdered(groups: seq<DayGroup>, p: seq<Transaction>, t: Transaction, seed: int)
    requires GroupsOrdered(groups, p) && SortedBy(p + [t], DueTime)
    ensures GroupsOrdered(AddTransaction(groups, t, seed + Net(p)), p + [t])
  {
    var k := DayKey(t.dueDate);
    var f := FindGroup(groups, k);
    var after := AddTransaction(groups, t, seed + Net(p));
    assert forall g :: 0 <= g < |groups| ==> after[g].key == groups[g].key;
    if p != [] {
      assert (p + [t])[|p| - 1] == p[|p| - 1] && (p + [t])[|p|] == t;
      DayKeyMonotone(p[|p| - 1].dueDate, t.dueDate);
    }
    if f.None? {
      forall a | 0 <= a < |groups| ensures groups[a].key < k {
        assert groups[a].key <= groups[|groups| - 1].key;
      }
    }
    assert after[if f.None? then |groups| else f.value].key == k;
    var q := p + [t];
    forall j | 0 <= j < |q| ensures exists g :: 0 <= g < |after| && after[g].key == DayKey(q[j].dueDate) {
      if j < |p| {
        assert q[j] == p[j];
        var h :| 0 <= h < |groups| && groups[h].key == DayKey(p[j].dueDate);
        assert after[h].key == groups[h].key;
      } else {
        assert after[if f.None? then |groups| else f.value].key == DayKey(q[j].dueDate);
      }
    }
  }

  lemma GroupingSnoc(p: seq<Transaction>, t: Transaction, seed: int)
    ensures Grouping(p + [t], seed) == AddTransaction(Grouping(p, seed), t, seed + Net(p))
  {
    assert (p + [t])[..|p|] == p;
  }

  /** A group with one more transaction gains its income and expense. */
  lemma GroupGains(g: DayGroup, t: Transaction, balance: int)
    ensures GroupIncome(g.(transactions := g.transactions + [t], balance := balance)) == GroupIncome(g) + IncomeAmount(t)
    ensures GroupExpense(g.(transactions := g.transactions + [t], balance := balance)) == GroupExpense(g) + ExpenseAmount(t)
  {
    SumAfter(g.transactions, t, IncomeAmount);
    SumAfter(g.transactions, t, ExpenseAmount);
  }

  /** Adding a transaction adds its income and expense to the groups' sums. */
  lemma SumsAfterAdd(groups: seq<DayGroup>, t: Transaction, before: int)
    ensures Sum(AddTransaction(groups, t, before), GroupIncome) == Sum(groups, GroupIncome) + IncomeAmount(t)
    ensures Sum(AddTransaction(groups, t, before), GroupExpense) == Sum(groups, GroupExpense) + ExpenseAmount(t)
  {
    var after := AddTransaction(groups, t, before);
    var f := FindGroup(groups, DayKey(t.dueDate));
    if f.None? {
      var g' := after[|groups|];
      assert after == groups + [g'];
      GroupGains(DayGroup(DayKey(t.dueDate), [], before), t, g'.balance);
      SumAfter(groups, g', GroupIncome);
      SumAfter(groups, g', GroupExpense);
    } else {
      var g' := after[f.value];
      assert after == groups[f.value := g'];
      GroupGains(groups[f.value], t, g'.balance);
      SumUpdate(groups, f.value, g', GroupIncome);
      SumUpdate(groups, f.value, g', GroupExpense);
    }
  }

  lemma {:induction false} GroupingOrdered(s: seq<Transaction>, seed: int)
    requires SortedBy(s, DueTime)
    ensures GroupsOrdered(Grouping(s, seed), s)
  {
    if s != [] {
      var p := s[..|s| - 1];
      var t := s[|s| - 1];
      assert s == p + [t];
      SortedPrefix(s, DueTime, |s| - 1);
      GroupingOrdered(p, seed);
      StepOrdered(Grouping(p, seed), p, t, seed);
      GroupingSnoc(p, t, seed);
    }
  }

  lemma {:induction false} GroupingAgrees(s: seq<Transaction>, seed: int)
    requires SortedBy(s, DueTime)
    ensures GroupsAgree(Grouping(s, seed), s, seed)
  {
    if s != [] {
      var p := s[..|s| - 1];
      var t := s[|s| - 1];
      assert s == p + [t];
      SortedPrefix(s, DueTime, |s| - 1);
      GroupingAgrees(p, seed);
      GroupingOrdered(p, seed);
      StepAgrees(Grouping(p, seed), p, t, seed);
      GroupingSnoc(p, t, seed);
    }
  }

  lemma {:induction false} GroupingSum(s: seq<Transaction>, seed: int)
    ensures GroupsSum(Grouping(s, seed), s)
  {
    if s != [] {
      var p := s[..|s| - 1];
      GroupingSum(p, seed);
      SumsAfterAdd(Grouping(p, seed), s[|s| - 1], seed + Net(p));
    }
  }


  /** On sorted input each day has one group holding its transactions, in
      chronological order, with the seeded balance after the day's last transaction. */
  lemma GroupingGroups(s: seq<Transaction>, seed: int)
    requires SortedBy(s, DueTime)
    ensures Grouped(Grouping(s, seed), s, seed)
  {
    GroupingOrdered(s, seed);
    GroupingAgrees(s, seed);
    GroupingSum(s, seed);
  }

  /** On sorted input the last group shows the seed plus the net of all transactions,
      and the groups are in chronological order. */
  lemma GroupingLast(s: seq<Transaction>, seed: int)
    requires SortedBy(s, DueTime)
    ensures var groups := Grouping(s, seed);
      && (forall a, b :: 0 <= a < b < |groups| ==> groups[a].key < groups[b].key)
      && (s != [] ==> |groups| > 0 && groups[|groups| - 1].balance == seed + Net(s))
  {
    GroupingGroups(s, seed);
  }

  lemma GroupingStep(s: seq<Transaction>, i: nat, seed: int)
    requires i < |s|
    ensures Grouping(s[..i + 1], seed) == AddTransaction(Grouping(s[..i], seed), s[i], seed + Net(s[..i]))
  {
    assert s[..i + 1][..i] == s[..i];
  }

  /** The loop body: the transaction into its day's group, the running balance moved. */
  method AddToGroups(groups: seq<DayGroup>, t: Transaction, runningBalance: int)
    returns (updated: seq<DayGroup>, running: int)
    ensures running == runningBalance + Signed(t)
    ensures updated == AddTransaction(groups, t, runningBalance)
  {
    var k := DayKey(t.dueDate);
    var found := FindGroup(groups, k);
    var group := if found.None? then DayGroup(k, [], runningBalance) else groups[found.value];
    group := group.(transactions := group.transactions + [t]);
    running := runningBalance;
    if t.txType == Income {
      running := running + t.amount;
    } else {
      running := running - t.amount;
    }
    if !SomeLater(group.transactions, t) {
      group := group.(balance := running);
    }
    if found.None? {
      updated := groups + [group];
    } else {
      updated := groups[found.value := group];
    }
  }

  /** The grouping loop over the sorted, filtered transactions. */
  method GroupByDay(s: seq<Transaction>, seed: int) returns (groups: seq<DayGroup>)
    ensures groups == Grouping(s, seed)
  {
    groups := [];
    var runningBalance := seed;
    for i := 0 to |s|
      invariant runningBalance == seed + Net(s[..i])
      invariant groups == Grouping(s[..i], seed)
    {
      GroupingStep(s, i, seed);
      SumStep(s, i, Signed);
      groups, runningBalance := AddToGroups(groups, s[i], runningBalance);
    }
    assert s[..|s|] == s;
  }

  /** The totals loop: income and expense over every group's transactions; the seed
      plays no part. */
  method PeriodTotals(groups: seq<DayGroup>) returns (totals: Totals)
    ensures totals.income == Sum(groups, GroupIncome)
    ensures totals.expense == Sum(groups, GroupExpense)
    ensures totals.balance == totals.income - totals.expense
  {
    var income, expense := 0, 0;
    var j := 0;
    while j < |groups|
      invariant 0 <= j <= |groups|
      invariant income == Sum(groups[..j], GroupIncome)
      invariant expense == Sum(groups[..j], GroupExpense)
    {
      var txs := groups[j].transactions;
      var k := 0;
      while k < |txs|
        invariant 0 <= k <= |txs|
        invariant income == Sum(groups[..j], GroupIncome) + TotalIncome(txs[..k])
        invariant expense == Sum(groups[..j], GroupExpense) + TotalExpense(txs[..k])
      {
        SumStep(txs, k, IncomeAmount);
        SumStep(txs, k, ExpenseAmount);
        if txs[k].txType == Income {
          income := income + txs[k].amount;
        } else {
          expense := expense + txs[k].amount;
        }
        k := k + 1;
      }
      assert txs[..k] == txs;
      SumStep(groups, j, GroupIncome);
      SumStep(groups, j, GroupExpense);
      j := j + 1;
    }
    assert groups[..j] == groups;
    totals := Totals(income, expense, income - expense);
  }

  /** The groups of the sorted transactions: chronological, summing to their income and
      expense, the last one showing the seed plus their net. */
  lemma SortedGrouping(filtered: seq<Transaction>, seed: int, groups: seq<DayGroup>)
    requires groups == Grouping(SortBy(filtered, DueTime), seed)
    ensures
      && Sum(groups, GroupIncome) == TotalIncome(filtered)
      && Sum(groups, GroupExpense) == TotalExpense(filtered)
      && Net(filtered) == TotalIncome(filtered) - TotalExpense(filtered)
      && (forall a, b :: 0 <= a < b < |groups| ==> groups[a].key < groups[b].key)
      && (filtered != [] ==> |groups| > 0 && groups[|groups| - 1].balance == seed + Net(filtered))
  {
    var sorted := SortBy(filtered, DueTime);
    SortByCorrect(filtered, DueTime);
    SortBySum(filtered, DueTime, IncomeAmount);
    SortBySum(filtered, DueTime, ExpenseAmount);
    SortBySum(filtered, DueTime, Signed);
    NetIsIncomeMinusExpense(filtered);
    GroupingLast(sorted, seed);
    GroupingSum(sorted, seed);
    if filtered != [] {
      PermutationSameElements(sorted, filtered);
    }
  }

  /** The whole view. Groups are chronological; each shows the seeded balance after its
      day's last transaction, so the last one shows the seed plus the net of everything
      shown; the totals are the income and expense shown and ignore the seed. */
  method View(transactions: seq<Transaction>, accounts: seq<BankAccount>, term: string,
              account: string, start: int, end: int)
    returns (groups: seq<DayGroup>, totals: Totals)
    ensures var shown := ShownOf(transactions, term, account, start, end);
      && totals.income == TotalIncome(shown)
      && totals.expense == TotalExpense(shown)
      && totals.balance == Net(shown)
      && (forall a, b :: 0 <= a < b < |groups| ==> groups[a].key < groups[b].key)
      && (shown != [] ==>
            |groups| > 0 && groups[|groups| - 1].balance == Seed(accounts, account) + totals.balance)
  {
    var filtered := ShownOf(transactions, term, account, start, end);
    var sorted := SortBy(filtered, DueTime);
    var runningBalance := Seed(accounts, account);
    groups := GroupByDay(sorted, runningBalance);
    totals := PeriodTotals(groups);
    SortedGrouping(filtered, runningBalance, groups);
  }

  datatype TransferForm = TransferForm(
    fromAccountId: string, toAccountId: string, amount: int, description: string, date: Option<Date>)

  datatype TransferData = TransferData(
    fromAccountId: string, toAccountId: string, amount: int, date: Date, description: string)

  const ErrFillAll := "Por favor, preencha todos os campos"
  const ErrSameAccount := "As contas de origem e destino devem ser diferentes"
  const ErrSourceMissing := "Conta de origem não encontrada"
  const ErrInsufficient := "Saldo insuficiente na conta de origem"

  /** The transfer form's checks, in order; only a form that passes all of them
      reaches the transfer call, with today's date when none was picked. An empty text
      or a zero amount counts as missing. */
  function ValidateTransfer(form: TransferForm, accounts: seq<BankAccount>, today: Date): (r: Result<TransferData, string>)
    ensures r.Ok? <==>
      && form.fromAccountId != [] && form.toAccountId != [] && form.amount != 0 && form.description != []
      && form.fromAccountId != form.toAccountId
      && FindAccount(accounts, form.fromAccountId).Some?
      && FindAccount(accounts, form.fromAccountId).value.currentBalance >= form.amount
    ensures r.Ok? ==> r.value.fromAccountId == form.fromAccountId && r.value.toAccountId == form.toAccountId
                      && r.value.amount == form.amount && r.value.description == form.description
                      && r.value.date == (if form.date.Some? then form.date.value else today)
    ensures (form.fromAccountId == [] || form.toAccountId == [] || form.amount == 0 || form.description == [])
            ==> r == Err(ErrFillAll)
    ensures r.Err? && r.error == ErrSameAccount ==> form.fromAccountId == form.toAccountId
  {
    if form.fromAccountId == [] || form.toAccountId == [] || form.amount == 0 || form.description == [] then
      Err(ErrFillAll)
    else if form.fromAccountId == form.toAccountId then
      Err(ErrSameAccount)
    else
      match FindAccount(accounts, form.fromAccountId)
      case None => Err(ErrSourceMissing)
      case Some(from) =>
        if from.currentBalance < form.amount then Err(ErrInsufficient)
        else Ok(TransferData(form.fromAccountId, form.toAccountId, form.amount,
                             if form.date.Some? then form.date.value else today, form.description))
  }

  datatype Direction = Prev | Next

  /** `findIndex` of the selected account, -1 when it is not listed. */
  function IndexOf(accounts: seq<BankAccount>, id: string): (r: int)
    ensures -1 <= r < |accounts|
    ensures r >= 0 ==> accounts[r].id == id && forall j :: 0 <= j < r ==> accounts[j].id != id
    ensures r == -1 ==> forall j :: 0 <= j < |accounts| ==> accounts[j].id != id
  {
    if accounts == [] then -1
    else if accounts[0].id == id then 0
    else
      var r := IndexOf(accounts[1..], id);
      if r == -1 then -1 else r + 1
  }

  /** The neighbour's position in the account carousel; `None` when there are no
      accounts, where the source reads past the end of the list. */
  function SwitchIndex(accounts: seq<BankAccount>, selected: string, dir: Direction): (r: Option<nat>)
    ensures r.Some? <==> accounts != []
    ensures r.Some? ==> r.value < |accounts|
  {
    if accounts == [] then None
    else
      var i := IndexOf(accounts, selected);
      match dir
      case Prev => Some(if i > 0 then i - 1 else |accounts| - 1)
      case Next => Some(if i < |accounts| - 1 then i + 1 else 0)
  }

  /** The wrap-around rules: 'prev' from the first or an unknown account goes to the
      last, 'next' from the last goes to the first, and otherwise the step is one. */
  lemma SwitchWraps(accounts: seq<BankAccount>, selected: string)
    requires accounts != []
    ensures IndexOf(accounts, selected) <= 0 ==> SwitchIndex(accounts, selected, Prev) == Some(|accounts| - 1)
    ensures IndexOf(accounts, selected) == |accounts| - 1 ==> SwitchIndex(accounts, selected, Next) == Some(0)
    ensures IndexOf(accounts, selected) == -1 ==> SwitchIndex(accounts, selected, Next) == Some(0)
    ensures 0 < IndexOf(accounts, selected) ==>
      SwitchIndex(accounts, selected, Prev) == Some(IndexOf(accounts, selected) - 1)
  {
  }

  predicate DistinctIds(accounts: seq<BankAccount>)
  {
    forall i, j :: 0 <= i < j < |accounts| ==> accounts[i].id != accounts[j].id
  }

  /** With distinct ids, 'next' undoes 'prev' for a listed account. */
  lemma NextUndoesPrev(accounts: seq<BankAccount>, i: nat)
    requires DistinctIds(accounts) && i < |accounts|
    ensures var p := SwitchIndex(accounts, accounts[i].id, Prev).value;
      SwitchIndex(accounts, accounts[p].id, Next) == Some(i)
  {
    var p := SwitchIndex(accounts, accounts[i].id, Prev).value;
    assert IndexOf(accounts, accounts[i].id) == i;
    assert IndexOf(accounts, accounts[p].id) == p;
  }

  /** The unreconcile request: back to pending and unreconciled, nothing else. */
  function Unconciliate(t: Transaction): (r: Transaction)
    ensures r.status == Pending && !r.reconciled
    ensures r.(status := t.status, reconciled := t.reconciled) == t
  {
    t.(status := Pending, reconciled := false)
  }
}
