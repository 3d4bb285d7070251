/** The daily movements view (src/components/DailyMovements.tsx): transactions due
    in a window, grouped by day, with a running balance carried across the days. */
module DailyMovements {
  import opened Wrappers
  import opened Types
  import opened Folds
  import opened Ledger
  import opened Sorting

  datatype DayGroup = DayGroup(
    key: int, transactions: seq<Transaction>, income: int, expense: int, balance: int, runningBalance: int)

  datatype Totals = Totals(income: int, expense: int, balance: int)

  /** Due inside the inclusive window; the reconciled flag plays no part. */
  predicate InWindow(t: Transaction, start: int, end: int)
  {
    start <= t.dueDate.time <= end
  }

  function InPeriod(s: seq<Transaction>, start: int, end: int): seq<Transaction>
  {
    if s == [] then []
    else InPeriod(s[..|s| - 1], start, end) + (if InWindow(s[|s| - 1], start, end) then [s[|s| - 1]] else [])
  }

  /** The transactions of `s` due on day `k`, in order. */
  function OnDay(s: seq<Transaction>, k: int): seq<Transaction>
  {
    if s == [] then []
    else OnDay(s[..|s| - 1], k) + (if DayKey(s[|s| - 1].dueDate) == k then [s[|s| - 1]] else [])
  }

  /** The cumulative net of `s` up to and including its last transaction due on day `k`. */
  function NetThrough(s: seq<Transaction>, k: int): int
  {
    if s == [] then 0
    else if DayKey(s[|s| - 1].dueDate) == k then Net(s)
    else NetThrough(s[..|s| - 1], k)
  }

  function GroupIncome(g: DayGroup): int { g.income }
  function GroupExpense(g: DayGroup): int { g.expense }

  /** Some group is keyed by day `k`. */
  predicate HasDay(groups: seq<DayGroup>, k: int)
  {
    exists g :: 0 <= g < |groups| && groups[g].key == k
  }

  /** `groups.get(key)`: the position of the group for a day. */
  function FindGroup(groups: seq<DayGroup>, k: int): (r: Option<nat>)
    ensures r.Some? ==> r.value < |groups| && groups[r.value].key == k
    ensures r.None? ==> !HasDay(groups, k)
  {
    if groups == [] then None
    else if groups[|groups| - 1].key == k then Some(|groups| - 1)
    else FindGroup(groups[..|groups| - 1], k)
  }

  /** A group agrees with the prefix `p` of the input seen so far: it holds that day's
      transactions in order, with their income, expense and balance. */
  predicate DayAgrees(g: DayGroup, p: seq<Transaction>)
  {
    && g.transactions == OnDay(p, g.key)
    && g.transactions != []
    && g.income == TotalIncome(g.transactions)
    && g.expense == TotalExpense(g.transactions)
    && g.balance == g.income - g.expense
  }

  lemma OnDayEmpty(p: seq<Transaction>, k: int)
    requires forall j :: 0 <= j < |p| ==> DayKey(p[j].dueDate) != k
    ensures OnDay(p, k) == []
  {
    if p != [] {
      OnDayEmpty(p[..|p| - 1], k);
    }
  }

  /** One transaction recorded in its day's group, as the loop body does it. */
  function Extend(g: DayGroup, t: Transaction, running: int): DayGroup
  {
    var income := g.income + IncomeAmount(t);
    var expense := g.expense + ExpenseAmount(t);
    g.(transactions := g.transactions + [t], income := income, expense := expense,
       balance := income - expense, runningBalance := running)
  }

  /** The groups after one more transaction: its day's group is extended, or created
      at the end when the day has none yet. */
  function AddTransaction(groups: seq<DayGroup>, t: Transaction, running: int): seq<DayGroup>
  {
    var k := DayKey(t.dueDate);
    var f := FindGroup(groups, k);
    if f.None? then groups + [Extend(DayGroup(k, [], 0, 0, 0, 0), t, running)]
    else groups[f.value := Extend(groups[f.value], t, running)]
  }

  /** The groups built from the prefix `p`: one group per day that occurs in `p`, each
      agreeing with `p`, and together holding all of `p`'s income and expense. */
  predicate DaysGrouped(groups: seq<DayGroup>, p: seq<Transaction>)
  {
    && (forall a, b :: 0 <= a < b < |groups| ==> groups[a].key != groups[b].key)
    && (forall g :: 0 <= g < |groups| ==> DayAgrees(groups[g], p))
    && (forall j :: 0 <= j < |p| ==> HasDay(groups, DayKey(p[j].dueDate)))
    && Sum(groups, GroupIncome) == TotalIncome(p)
    && Sum(groups, GroupExpense) == TotalExpense(p)
  }

  /** As `DaysGrouped`, and each group's running balance is the cumulative net after
      its day's last transaction. */
  predicate Grouped(groups: seq<DayGroup>, p: seq<Transaction>)
  {
    && DaysGrouped(groups, p)
    && (forall g :: 0 <= g < |groups| ==> groups[g].runningBalance == NetThrough(p, groups[g].key))
  }

  /** The groups are in chronological order and the last one is the last transaction's day. */
  predicate Chronological(groups: seq<DayGroup>, p: seq<Transaction>)
  {
    && (forall a, b :: 0 <= a < b < |groups| ==> groups[a].key < groups[b].key)
    && (p != [] ==> |groups| > 0 && groups[|groups| - 1].key == DayKey(p[|p| - 1].dueDate))
  }

  lemma OtherDayUnchanged(g: DayGroup, p: seq<Transaction>, t: Transaction)
    requires DayAgrees(g, p) && DayKey(t.dueDate) != g.key
    ensures DayAgrees(g, p + [t])
    ensures NetThrough(p + [t], g.key) == NetThrough(p, g.key)
  {
    assert (p + [t])[..|p|] == p;
  }

  lemma SameDayExtended(g: DayGroup, p: seq<Transaction>, t: Transaction, running: int)
    requires DayAgrees(g, p) && DayKey(t.dueDate) == g.key
    ensures DayAgrees(Extend(g, t, running), p + [t])
  {
    assert (p + [t])[..|p|] == p;
    assert (g.transactions + [t])[..|g.transactions|] == g.transactions;
  }

  lemma NewDay(p: seq<Transaction>, t: Transaction, running: int)
    requires forall j :: 0 <= j < |p| ==> DayKey(p[j].dueDate) != DayKey(t.dueDate)
    ensures DayAgrees(Extend(DayGroup(DayKey(t.dueDate), [], 0, 0, 0, 0), t, running), p + [t])
  {
    assert (p + [t])[..|p|] == p;
    OnDayEmpty(p, DayKey(t.dueDate));
    SumSingleton(t, IncomeAmount);
    SumSingleton(t, ExpenseAmount);
  }

  lemma GroupedSums(groups: seq<DayGroup>, p: seq<Transaction>, t: Transaction, running: int)
    requires DaysGrouped(groups, p)
    ensures Sum(AddTransaction(groups, t, running), GroupIncome) == TotalIncome(p + [t])
    ensures Sum(AddTransaction(groups, t, running), GroupExpense) == TotalExpense(p + [t])
  {
    var k := DayKey(t.dueDate);
    var f := FindGroup(groups, k);
    assert (p + [t])[..|p|] == p;
    if f.None? {
      var g := Extend(DayGroup(k, [], 0, 0, 0, 0), t, running);
      SumAppend(groups, [g], GroupIncome);
      SumAppend(groups, [g], GroupExpense);
      assert [g][..0] == [];
    } else {
      var g := Extend(groups[f.value], t, running);
      SumUpdate(groups, f.value, g, GroupIncome);
      SumUpdate(groups, f.value, g, GroupExpense);
    }
  }

  lemma GroupedAgree(groups: seq<DayGroup>, p: seq<Transaction>, t: Transaction, running: int)
    requires DaysGrouped(groups, p)
    ensures forall g :: 0 <= g < |AddTransaction(groups, t, running)| ==>
      DayAgrees(AddTransaction(groups, t, running)[g], p + [t])
  {
    var k := DayKey(t.dueDate);
    var f := FindGroup(groups, k);
    var after := AddTransaction(groups, t, running);
    forall g | 0 <= g < |after| ensures DayAgrees(after[g], p + [t]) {
      if g < |groups| && (f.None? || g != f.value) {
        assert after[g] == groups[g];
        OtherDayUnchanged(groups[g], p, t);
      } else if f.None? {
        forall j | 0 <= j < |p| ensures DayKey(p[j].dueDate) != k {
          assert HasDay(groups, DayKey(p[j].dueDate));
        }
        NewDay(p, t, running);
      } else {
        SameDayExtended(groups[f.value], p, t, running);
      }
    }
  }

  lemma GroupedDistinct(groups: seq<DayGroup>, p: seq<Transaction>, t: Transaction, running: int)
    requires DaysGrouped(groups, p)
    ensures var after := AddTransaction(groups, t, running);
      forall a, b :: 0 <= a < b < |after| ==> after[a].key != after[b].key
  {
    var after := AddTransaction(groups, t, running);
    assert forall g :: 0 <= g < |groups| ==> after[g].key == groups[g].key;
  }

  lemma GroupedCovers(groups: seq<DayGroup>, p: seq<Transaction>, t: Transaction, running: int)
    requires DaysGrouped(groups, p)
    ensures var after := AddTransaction(groups, t, running);
      forall j :: 0 <= j < |p + [t]| ==> HasDay(after, DayKey((p + [t])[j].dueDate))
  {
    var k := DayKey(t.dueDate);
    var after := AddTransaction(groups, t, running);
    var f := FindGroup(groups, k);
    assert forall g :: 0 <= g < |groups| ==> after[g].key == groups[g].key;
    assert HasDay(after, k) by {
      if f.None? { assert after[|groups|].key == k; } else { assert after[f.value].key == k; }
    }
    var q := p + [t];
    forall j | 0 <= j < |q| ensures HasDay(after, DayKey(q[j].dueDate)) {
      if j < |p| {
        assert q[j] == p[j];
        assert HasDay(groups, DayKey(p[j].dueDate));
        var g :| 0 <= g < |groups| && groups[g].key == DayKey(p[j].dueDate);
        assert after[g].key == groups[g].key;
      }
    }
  }

  /** Recording one more transaction keeps the groups in agreement with the input seen,
      whatever running balance is stored. */
  lemma DaysGroupedStep(groups: seq<DayGroup>, p: seq<Transaction>, t: Transaction, running: int)
    requires DaysGrouped(groups, p)
    ensures DaysGrouped(AddTransaction(groups, t, running), p + [t])
  {
    GroupedSums(groups, p, t, running);
    GroupedAgree(groups, p, t, running);
    GroupedDistinct(groups, p, t, running);
    GroupedCovers(groups, p, t, running);
  }

  lemma RunningStep(groups: seq<DayGroup>, p: seq<Transaction>, t: Transaction)
    requires Grouped(groups, p)
    ensures var after := AddTransaction(groups, t, Net(p + [t]));
      forall g :: 0 <= g < |after| ==> after[g].runningBalance == NetThrough(p + [t], after[g].key)
  {
    var k := DayKey(t.dueDate);
    var f := FindGroup(groups, k);
    var after := AddTransaction(groups, t, Net(p + [t]));
    assert (p + [t])[..|p|] == p;
    forall g | 0 <= g < |after| ensures after[g].runningBalance == NetThrough(p + [t], after[g].key) {
      if g < |groups| && (f.None? || g != f.value) {
        assert after[g] == groups[g];
      }
    }
  }

  lemma GroupedStep(groups: seq<DayGroup>, p: seq<Transaction>, t: Transaction)
    requires Grouped(groups, p)
    ensures Grouped(AddTransaction(groups, t, Net(p + [t])), p + [t])
  {
    DaysGroupedStep(groups, p, t, Net(p + [t]));
    RunningStep(groups, p, t);
  }

  lemma ChronologicalStep(groups: seq<DayGroup>, p: seq<Transaction>, t: Transaction)
    requires DaysGrouped(groups, p) && Chronological(groups, p)
    requires p != [] ==> DueTime(p[|p| - 1]) <= DueTime(t)
    ensures Chronological(AddTransaction(groups, t, Net(p + [t])), p + [t])
  {
    var k := DayKey(t.dueDate);
    var f := FindGroup(groups, k);
    if p != [] {
      DayKeyMonotone(p[|p| - 1].dueDate, t.dueDate);
    }
    if f.None? {
      forall a | 0 <= a < |groups| ensures groups[a].key < k {
        assert groups[a].key <= groups[|groups| - 1].key;
      }
    }
  }

  /** Storing the extended group back under its day is `AddTransaction`. */
  lemma StoredIsAdded(prev: seq<DayGroup>, t: Transaction, running: int, groups: seq<DayGroup>)
    requires var f := FindGroup(prev, DayKey(t.dueDate));
      groups == if f.None? then prev + [Extend(DayGroup(DayKey(t.dueDate), [], 0, 0, 0, 0), t, running)]
                else prev[f.value := Extend(prev[f.value], t, running)]
    ensures groups == AddTransaction(prev, t, running)
  {
  }

  /** The day groups the loop builds from `s`, one transaction at a time. */
  function Grouping(s: seq<Transaction>): seq<DayGroup>
  {
    if s == [] then [] else AddTransaction(Grouping(s[..|s| - 1]), s[|s| - 1], Net(s))
  }

  /** Each day of `s` has one group holding that day's transactions in order, with
      their income, expense and balance and the running balance after the day's last
      transaction; the groups' incomes and expenses add up to those of `s`. */
  lemma {:induction false} GroupingGroups(s: seq<Transaction>)
    ensures Grouped(Grouping(s), s)
  {
    if s != [] {
      var p := s[..|s| - 1];
      GroupingGroups(p);
      assert s == p + [s[|s| - 1]];
      GroupedStep(Grouping(p), p, s[|s| - 1]);
    }
  }

  /** On input sorted by due date the groups are in chronological order and the last
      group is the day of the last transaction. */
  lemma {:induction false} GroupingChronological(s: seq<Transaction>)
    requires SortedBy(s, DueTime)
    ensures Chronological(Grouping(s), s)
  {
    if s != [] {
      var p := s[..|s| - 1];
      assert SortedBy(p, DueTime);
      GroupingChronological(p);
      GroupingGroups(p);
      assert s == p + [s[|s| - 1]];
      if |p| > 0 {
        SortedNeighbours(s, DueTime, |s| - 1);
      }
      ChronologicalStep(Grouping(p), p, s[|s| - 1]);
    }
  }

  /** The grouping loop: a Map from day to group, filled in input order, with the
      running balance updated per transaction. */
  method GroupByDay(s: seq<Transaction>) returns (groups: seq<DayGroup>)
    ensures groups == Grouping(s)
  {
    groups := [];
    var runningBalance := 0;
    var i := 0;
    while i < |s|
      invariant 0 <= i <= |s|
      invariant runningBalance == Net(s[..i])
      invariant groups == Grouping(s[..i])
    {
      var t := s[i];
      var k := DayKey(t.dueDate);
      SumStep(s, i, Signed);
      var found := FindGroup(groups, k);
      var group := if found.None? then DayGroup(k, [], 0, 0, 0, 0) else groups[found.value];
      ghost var base := group;
      group := group.(transactions := group.transactions + [t]);
      if t.txType == Income {
        group := group.(income := group.income + t.amount);
        runningBalance := runningBalance + t.amount;
      } else {
        group := group.(expense := group.expense + t.amount);
        runningBalance := runningBalance - t.amount;
      }
      group := group.(balance := group.income - group.expense);
      group := group.(runningBalance := runningBalance);
      assert group == Extend(base, t, runningBalance);
      ghost var prev := groups;
      if found.None? {
        groups := groups + [group];
      } else {
        groups := groups[found.value := group];
      }
      StoredIsAdded(prev, t, runningBalance, groups);
      assert s[..i + 1][..i] == s[..i];
      i := i + 1;
    }
    assert s[..i] == s;
  }

  /** The period totals: the sums of the groups' income and expense. */
  method PeriodTotals(groups: seq<DayGroup>) returns (totals: Totals)
    ensures totals.income == Sum(groups, GroupIncome)
    ensures totals.expense == Sum(groups, GroupExpense)
    ensures totals.balance == totals.income - totals.expense
  {
    var income, expense := 0, 0;
    var j := 0;
    while j < |groups|
      invariant 0 <= j <= |groups|
      invariant income == Sum(groups[..j], GroupIncome)
      invariant expense == Sum(groups[..j], GroupExpense)
    {
      SumStep(groups, j, GroupIncome);
      SumStep(groups, j, GroupExpense);
      income := income + groups[j].income;
      expense := expense + groups[j].expense;
      j := j + 1;
    }
    assert groups[..j] == groups;
    totals := Totals(income, expense, income - expense);
  }

  /** The whole view: filter to the window, sort by due date, group by day, total.
      The totals are the income and expense of the window; the last day's running
      balance, which starts from 0, is the window's net, so it equals the total balance. */
  method View(transactions: seq<Transaction>, start: int, end: int)
    returns (groups: seq<DayGroup>, totals: Totals)
    ensures totals.income == TotalIncome(InPeriod(transactions, start, end))
    ensures totals.expense == TotalExpense(InPeriod(transactions, start, end))
    ensures totals.balance == Net(InPeriod(transactions, start, end))
    ensures forall a, b :: 0 <= a < b < |groups| ==> groups[a].key < groups[b].key
    ensures forall g :: 0 <= g < |groups| ==> groups[g].balance == groups[g].income - groups[g].expense
    ensures InPeriod(transactions, start, end) != [] ==>
      |groups| > 0 && groups[|groups| - 1].runningBalance == totals.balance
  {
    var filtered := InPeriod(transactions, start, end);
    groups := GroupByDay(SortBy(filtered, DueTime));
    totals := PeriodTotals(groups);
    SortedDays(filtered, groups);
  }

  /** The groups of the period's transactions in due-date order: their sums are the
      period's income and expense, they run in chronological order, and the last
      running balance is the period's net. */
  lemma SortedDays(filtered: seq<Transaction>, groups: seq<DayGroup>)
    requires groups == Grouping(SortBy(filtered, DueTime))
    ensures Sum(groups, GroupIncome) == TotalIncome(filtered)
    ensures Sum(groups, GroupExpense) == TotalExpense(filtered)
    ensures TotalIncome(filtered) - TotalExpense(filtered) == Net(filtered)
    ensures forall a, b :: 0 <= a < b < |groups| ==> groups[a].key < groups[b].key
    ensures forall g :: 0 <= g < |groups| ==> groups[g].balance == groups[g].income - groups[g].expense
    ensures filtered != [] ==> |groups| > 0 && groups[|groups| - 1].runningBalance == Net(filtered)
  {
    SortedDaysSums(filtered, groups);
    SortedDaysOrder(filtered, groups);
    NetIsIncomeMinusExpense(filtered);
  }

  lemma SortedDaysSums(filtered: seq<Transaction>, groups: seq<DayGroup>)
    requires groups == Grouping(SortBy(filtered, DueTime))
    ensures Sum(groups, GroupIncome) == TotalIncome(filtered)
    ensures Sum(groups, GroupExpense) == TotalExpense(filtered)
  {
    var sorted := SortBy(filtered, DueTime);
    SortBySum(filtered, DueTime, IncomeAmount);
    SortBySum(filtered, DueTime, ExpenseAmount);
    GroupingGroups(sorted);
  }

  lemma SortedDaysOrder(filtered: seq<Transaction>, groups: seq<DayGroup>)
    requires groups == Grouping(SortBy(filtered, DueTime))
    ensures forall a, b :: 0 <= a < b < |groups| ==> groups[a].key < groups[b].key
    ensures forall g :: 0 <= g < |groups| ==> groups[g].balance == groups[g].income - groups[g].expense
    ensures filtered != [] ==> |groups| > 0 && groups[|groups| - 1].runningBalance == Net(filtered)
  {
    var sorted := SortBy(filtered, DueTime);
    SortByCorrect(filtered, DueTime);
    GroupingGroups(sorted);
    GroupingChronological(sorted);
    if filtered != [] {
      LastRunning(filtered, sorted, groups);
    }
  }

  lemma LastRunning(filtered: seq<Transaction>, sorted: seq<Transaction>, groups: seq<DayGroup>)
    requires sorted == SortBy(filtered, DueTime) && groups == Grouping(sorted) && sorted != []
    requires Grouped(groups, sorted) && Chronological(groups, sorted)
    ensures |groups| > 0 && groups[|groups| - 1].runningBalance == Net(filtered)
  {
    SortByCorrect(filtered, DueTime);
    SortBySum(filtered, DueTime, Signed);
    assert groups[|groups| - 1].runningBalance == NetThrough(sorted, groups[|groups| - 1].key);
    assert NetThrough(sorted, groups[|groups| - 1].key) == Net(sorted);
  }
}
