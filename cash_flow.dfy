/** The cash flow view (src/components/FluxoCaixa.tsx): unreconciled transactions due
    in a window, grouped into the twelve months of the window's starting year and,
    inside each month, by day, with a running balance that later months carry forward. */
module CashFlow {
  import opened Wrappers
  import opened Types
  import opened Folds
  import opened Ledger
  import opened Sorting
  import DailyMovements

  type DayGroup = DailyMovements.DayGroup

  /** A month's entry: its day groups, its income, expense and balance, and the running
      balance after the last transaction recorded in it or in an earlier month. */
  datatype MonthGroup = MonthGroup(
    days: seq<DayGroup>, income: int, expense: int, balance: int, runningBalance: int)

  datatype Totals = Totals(income: int, expense: int, balance: int)

  /** The view's output once it has not failed: the months and the totals row. */
  datatype Report = Report(months: seq<MonthGroup>, totals: Totals)

  const Months: nat := 12

  /** Shown: due inside the inclusive window and not yet reconciled. */
  predicate Shown(t: Transaction, start: Date, end: Date)
  {
    start.time <= t.dueDate.time <= end.time && !t.reconciled
  }

  function Selected(s: seq<Transaction>, start: Date, end: Date): seq<Transaction>
  {
    if s == [] then []
    else Selected(s[..|s| - 1], start, end) + (if Shown(s[|s| - 1], start, end) then [s[|s| - 1]] else [])
  }

  /** The transactions of `s` due in month `m`, in order. */
  function InMonth(s: seq<Transaction>, m: int): seq<Transaction>
  {
    if s == [] then []
    else InMonth(s[..|s| - 1], m) + (if s[|s| - 1].dueDate.month == m then [s[|s| - 1]] else [])
  }

  /** The cumulative net of `s` up to and including its last transaction due in month
      `m` or earlier; 0 when there is none. */
  function NetThroughMonth(s: seq<Transaction>, m: int): int
  {
    if s == [] then 0
    else if s[|s| - 1].dueDate.month <= m then Net(s)
    else NetThroughMonth(s[..|s| - 1], m)
  }

  function MonthIncome(g: MonthGroup): int { g.income }
  function MonthExpense(g: MonthGroup): int { g.expense }

  /** Every month of the year starts empty with a running balance of 0. */
  function InitialMonths(): (r: seq<MonthGroup>)
    ensures |r| == Months
  {
    seq(Months, _ => MonthGroup([], 0, 0, 0, 0))
  }

  /** The months after `m` take the running balance `running`; the others are kept. */
  function CarryForward(months: seq<MonthGroup>, m: int, running: int): (r: seq<MonthGroup>)
    ensures |r| == |months|
  {
    seq(|months|, k requires 0 <= k < |months| =>
      if k > m then months[k].(runningBalance := running) else months[k])
  }

  /** One transaction recorded in its month and day, then carried forward. */
  function Record(months: seq<MonthGroup>, t: Transaction, running: int): (r: seq<MonthGroup>)
    requires |months| == Months
    ensures |r| == Months
  {
    var m := t.dueDate.month;
    var g := months[m];
    var income := g.income + IncomeAmount(t);
    var expense := g.expense + ExpenseAmount(t);
    var g' := g.(days := DailyMovements.AddTransaction(g.days, t, running), income := income,
                 expense := expense, balance := income - expense, runningBalance := running);
    CarryForward(months[m := g'], m, running)
  }

  /** The months the grouping builds from `s`, or the first transaction due outside
      `year`, for which no month entry exists and the lookup fails. */
  function Flow(s: seq<Transaction>, year: int): (r: Result<seq<MonthGroup>, Transaction>)
    ensures r.Ok? ==> |r.value| == Months
  {
    if s == [] then Ok(InitialMonths())
    else
      match Flow(s[..|s| - 1], year)
      case Err(t) => Err(t)
      case Ok(months) =>
        if s[|s| - 1].dueDate.year != year then Err(s[|s| - 1])
        else Ok(Record(months, s[|s| - 1], Net(s)))
  }

  /** Each month holds the day groups of its own transactions. */
  predicate MonthDays(months: seq<MonthGroup>, p: seq<Transaction>)
    requires |months| == Months
  {
    forall m :: 0 <= m < Months ==> DailyMovements.DaysGrouped(months[m].days, InMonth(p, m))
  }

  /** Month `m`'s income, expense and balance are those of its transactions. */
  predicate MonthSumsAt(g: MonthGroup, p: seq<Transaction>, m: int)
  {
    && g.income == TotalIncome(InMonth(p, m))
    && g.expense == TotalExpense(InMonth(p, m))
    && g.balance == g.income - g.expense
  }

  /** Each month's income, expense and balance are those of its transactions, and
      together the months hold all of the income and expense. */
  predicate MonthSums(months: seq<MonthGroup>, p: seq<Transaction>)
    requires |months| == Months
  {
    && (forall m :: 0 <= m < Months ==> MonthSumsAt(months[m], p, m))
    && Sum(months, MonthIncome) == TotalIncome(p)
    && Sum(months, MonthExpense) == TotalExpense(p)
  }

  predicate MonthRunning(months: seq<MonthGroup>, p: seq<Transaction>)
    requires |months| == Months
  {
    forall m :: 0 <= m < Months ==> months[m].runningBalance == NetThroughMonth(p, m)
  }

  lemma InMonthStep(p: seq<Transaction>, t: Transaction, m: int)
    ensures InMonth(p + [t], m) == InMonth(p, m) + (if t.dueDate.month == m then [t] else [])
    ensures NetThroughMonth(p + [t], m) == if t.dueDate.month <= m then Net(p + [t]) else NetThroughMonth(p, m)
  {
    assert (p + [t])[..|p|] == p;
  }

  /** What recording does to month `k`: its own month gains the transaction and every
      month from it onwards takes the new running balance. */
  lemma RecordAt(months: seq<MonthGroup>, t: Transaction, running: int, k: int)
    requires |months| == Months && 0 <= k < Months
    ensures var after := Record(months, t, running)[k];
      var m := t.dueDate.month;
      && after.days == (if k == m then DailyMovements.AddTransaction(months[k].days, t, running) else months[k].days)
      && after.income == months[k].income + (if k == m then IncomeAmount(t) else 0)
      && after.expense == months[k].expense + (if k == m then ExpenseAmount(t) else 0)
      && after.balance == (if k == m then after.income - after.expense else months[k].balance)
      && after.runningBalance == (if k >= m then running else months[k].runningBalance)
  {
  }

  /** The figures of month `k` after recording: only the transaction's month changes. */
  lemma RecordFigures(months: seq<MonthGroup>, t: Transaction, running: int, k: int)
    requires |months| == Months && 0 <= k < Months
    ensures var after := Record(months, t, running)[k];
      var m := t.dueDate.month;
      && after.income == months[k].income + (if k == m then IncomeAmount(t) else 0)
      && after.expense == months[k].expense + (if k == m then ExpenseAmount(t) else 0)
      && after.balance == (if k == m then after.income - after.expense else months[k].balance)
  {
    RecordAt(months, t, running, k);
  }

  lemma RecordDaysAt(months: seq<MonthGroup>, p: seq<Transaction>, t: Transaction, running: int, k: int)
    requires |months| == Months && 0 <= k < Months
    requires DailyMovements.DaysGrouped(months[k].days, InMonth(p, k))
    ensures DailyMovements.DaysGrouped(Record(months, t, running)[k].days, InMonth(p + [t], k))
  {
    InMonthStep(p, t, k);
    RecordAt(months, t, running, k);
    var before := InMonth(p, k);
    if k == t.dueDate.month {
      assert InMonth(p + [t], k) == before + [t];
      DailyMovements.DaysGroupedStep(months[k].days, before, t, running);
    } else {
      assert InMonth(p + [t], k) == before + [] == before;
    }
  }

  lemma RecordDays(months: seq<MonthGroup>, p: seq<Transaction>, t: Transaction, running: int)
    requires |months| == Months && MonthDays(months, p)
    ensures MonthDays(Record(months, t, running), p + [t])
  {
    forall k | 0 <= k < Months
      ensures DailyMovements.DaysGrouped(Record(months, t, running)[k].days, InMonth(p + [t], k))
    {
      RecordDaysAt(months, p, t, running, k);
    }
  }

  /** A month's figures after a transaction hold when they changed by the transaction's
      amounts exactly in its month. */
  lemma SumsStep(before: MonthGroup, after: MonthGroup, p: seq<Transaction>, t: Transaction, k: int)
    requires MonthSumsAt(before, p, k)
    requires after.income == before.income + (if k == t.dueDate.month then IncomeAmount(t) else 0)
    requires after.expense == before.expense + (if k == t.dueDate.month then ExpenseAmount(t) else 0)
    requires after.balance == (if k == t.dueDate.month then after.income - after.expense else before.balance)
    ensures MonthSumsAt(after, p + [t], k)
  {
    InMonthStep(p, t, k);
    var q := InMonth(p, k);
    if k == t.dueDate.month {
      assert InMonth(p + [t], k) == q + [t];
      SumAfter(q, t, IncomeAmount);
      SumAfter(q, t, ExpenseAmount);
    } else {
      assert InMonth(p + [t], k) == q;
    }
  }

  /** Recording adds the transaction's income and expense to the months' sums. */
  lemma RecordTotals(months: seq<MonthGroup>, t: Transaction, running: int)
    requires |months| == Months
    ensures Sum(Record(months, t, running), MonthIncome) == Sum(months, MonthIncome) + IncomeAmount(t)
    ensures Sum(Record(months, t, running), MonthExpense) == Sum(months, MonthExpense) + ExpenseAmount(t)
  {
    var m := t.dueDate.month;
    var after := Record(months, t, running);
    var g' := months[m].(income := months[m].income + IncomeAmount(t), expense := months[m].expense + ExpenseAmount(t));
    var changed := months[m := g'];
    forall k | 0 <= k < Months ensures after[k].income == changed[k].income && after[k].expense == changed[k].expense {
      RecordFigures(months, t, running, k);
    }
    SumPointwise(after, changed, MonthIncome);
    SumPointwise(after, changed, MonthExpense);
    SumUpdate(months, m, g', MonthIncome);
    SumUpdate(months, m, g', MonthExpense);
  }

  lemma RecordSums(months: seq<MonthGroup>, p: seq<Transaction>, t: Transaction, running: int)
    requires |months| == Months && MonthSums(months, p)
    ensures MonthSums(Record(months, t, running), p + [t])
  {
    forall k | 0 <= k < Months ensures MonthSumsAt(Record(months, t, running)[k], p + [t], k) {
      RecordFigures(months, t, running, k);
      SumsStep(months[k], Record(months, t, running)[k], p, t, k);
    }
    RecordTotals(months, t, running);
    SumAfter(p, t, IncomeAmount);
    SumAfter(p, t, ExpenseAmount);
  }

  lemma RecordRunning(months: seq<MonthGroup>, p: seq<Transaction>, t: Transaction)
    requires |months| == Months && MonthRunning(months, p)
    ensures MonthRunning(Record(months, t, Net(p + [t])), p + [t])
  {
    forall m | 0 <= m < Months
      ensures Record(months, t, Net(p + [t]))[m].runningBalance == NetThroughMonth(p + [t], m)
    {
      InMonthStep(p, t, m);
      RecordAt(months, t, Net(p + [t]), m);
    }
  }

  lemma InitialAgrees()
    ensures MonthDays(InitialMonths(), [])
    ensures MonthSums(InitialMonths(), [])
    ensures MonthRunning(InitialMonths(), [])
  {
    var z := InitialMonths();
    assert Sum(z, MonthIncome) == 0 && Sum(z, MonthExpense) == 0 by {
      SumPointwise(z, seq(Months, _ => MonthGroup([], 0, 0, 0, 0)), MonthIncome);
      ZeroSum(Months);
    }
  }

  lemma {:induction false} ZeroSum(n: nat)
    ensures Sum(seq(n, _ => MonthGroup([], 0, 0, 0, 0)), MonthIncome) == 0
    ensures Sum(seq(n, _ => MonthGroup([], 0, 0, 0, 0)), MonthExpense) == 0
  {
    if n > 0 {
      ZeroSum(n - 1);
      assert seq(n, _ => MonthGroup([], 0, 0, 0, 0))[..n - 1] == seq(n - 1, _ => MonthGroup([], 0, 0, 0, 0));
    }
  }

  /** The grouping fails exactly when some transaction falls outside `year`, and the
      failure names the first of them. */
  lemma {:induction false} FlowFailsOutsideYear(s: seq<Transaction>, year: int)
    ensures Flow(s, year).Err? <==> exists j :: 0 <= j < |s| && s[j].dueDate.year != year
    ensures Flow(s, year).Err? ==>
      exists j :: 0 <= j < |s| && s[j] == Flow(s, year).error && s[j].dueDate.year != year &&
        forall i :: 0 <= i < j ==> s[i].dueDate.year == year
  {
    if s != [] {
      var p := s[..|s| - 1];
      var x := s[|s| - 1];
      FlowFailsOutsideYear(p, year);
      assert forall i :: 0 <= i < |p| ==> s[i] == p[i];
      if Flow(p, year).Err? {
        var j :| 0 <= j < |p| && p[j] == Flow(p, year).error && p[j].dueDate.year != year &&
          forall i :: 0 <= i < j ==> p[i].dueDate.year == year;
        assert Flow(s, year) == Flow(p, year);
        assert s[j] == p[j];
      } else if x.dueDate.year != year {
        assert Flow(s, year) == Err(x);
        assert forall i :: 0 <= i < |p| ==> s[i].dueDate.year == year;
        assert s[|p|] == x;
      } else {
        assert Flow(s, year).Ok?;
        forall j | 0 <= j < |s| ensures s[j].dueDate.year == year {
          if j < |p| {
            assert s[j] == p[j];
          }
        }
      }
    }
  }

  /** On success every month holds the day groups of its transactions, has their income,
      expense and balance and, as running balance, the cumulative net through the last
      transaction of that month or an earlier one; the months add up to the whole input. */
  lemma {:induction false} FlowMonths(s: seq<Transaction>, year: int)
    requires Flow(s, year).Ok?
    ensures MonthDays(Flow(s, year).value, s)
    ensures MonthSums(Flow(s, year).value, s)
    ensures MonthRunning(Flow(s, year).value, s)
  {
    if s == [] {
      InitialAgrees();
    } else {
      var p := s[..|s| - 1];
      FlowMonths(p, year);
      assert s == p + [s[|s| - 1]];
      RecordDays(Flow(p, year).value, p, s[|s| - 1], Net(s));
      RecordSums(Flow(p, year).value, p, s[|s| - 1], Net(s));
      RecordRunning(Flow(p, year).value, p, s[|s| - 1]);
    }
  }

  lemma {:induction false} NetThroughMonthSkips(s: seq<Transaction>, m: int)
    requires InMonth(s, m) == []
    ensures NetThroughMonth(s, m) == NetThroughMonth(s, m - 1)
  {
    if s != [] {
      var p := s[..|s| - 1];
      assert InMonth(p, m) == [];
      NetThroughMonthSkips(p, m);
    }
  }

  /** A month without transactions shows the running balance of the month before it,
      and December closes on the net of the whole input. */
  lemma CarriedForward(s: seq<Transaction>, year: int, m: int)
    requires Flow(s, year).Ok? && 0 < m < Months
    ensures InMonth(s, m) == [] ==>
      Flow(s, year).value[m].runningBalance == Flow(s, year).value[m - 1].runningBalance
    ensures Flow(s, year).value[Months - 1].runningBalance == Net(s)
  {
    FlowMonths(s, year);
    if InMonth(s, m) == [] {
      NetThroughMonthSkips(s, m);
    }
  }

  lemma {:induction false} FlowErrPersists(s: seq<Transaction>, n: nat, year: int)
    requires n <= |s| && Flow(s[..n], year).Err?
    ensures Flow(s, year) == Flow(s[..n], year)
  {
    if n < |s| {
      var p := s[..|s| - 1];
      assert p[..n] == s[..n];
      FlowErrPersists(p, n, year);
    } else {
      assert s[..n] == s;
    }
  }

  /** The loop pushing the running balance to every month after `m`. */
  method CarryLoop(stored: seq<MonthGroup>, m: int, runningBalance: int) returns (months: seq<MonthGroup>)
    requires |stored| == Months && 0 <= m < Months
    ensures months == CarryForward(stored, m, runningBalance)
  {
    months := stored;
    var updating := false;
    var k := 0;
    while k < Months
      invariant 0 <= k <= Months && |months| == Months
      invariant updating <==> m < k
      invariant forall j :: 0 <= j < Months ==>
        months[j] == if m < j < k then stored[j].(runningBalance := runningBalance) else stored[j]
    {
      if k == m {
        updating := true;
      } else if updating {
        months := months[k := months[k].(runningBalance := runningBalance)];
      }
      k := k + 1;
    }
  }

  /** The loop body for a transaction of the year: its month's sums, day groups and
      running balance, then the carry to the later months. */
  method RecordTransaction(months: seq<MonthGroup>, t: Transaction, runningBalance: int)
    returns (updated: seq<MonthGroup>, running: int)
    requires |months| == Months
    ensures running == runningBalance + Signed(t)
    ensures updated == Record(months, t, running)
  {
    var m := t.dueDate.month;
    var monthGroup := months[m];
    running := runningBalance;
    if t.txType == Income {
      monthGroup := monthGroup.(income := monthGroup.income + t.amount);
      running := running + t.amount;
    } else {
      monthGroup := monthGroup.(expense := monthGroup.expense + t.amount);
      running := running - t.amount;
    }
    monthGroup := monthGroup.(days := DailyMovements.AddTransaction(monthGroup.days, t, running));
    monthGroup := monthGroup.(balance := monthGroup.income - monthGroup.expense);
    monthGroup := monthGroup.(runningBalance := running);
    updated := CarryLoop(months[m := monthGroup], m, running);
  }

  /** The grouping loop: twelve pre-filled months, then each transaction recorded in its
      month's day Map and the running balance pushed to every later month. */
  method MonthlyFlow(s: seq<Transaction>, year: int) returns (r: Result<seq<MonthGroup>, Transaction>)
    ensures r == Flow(s, year)
  {
    var months := InitialMonths();
    var runningBalance := 0;
    for i := 0 to |s|
      invariant runningBalance == Net(s[..i])
      invariant Flow(s[..i], year) == Ok(months)
    {
      var t := s[i];
      assert s[..i + 1][..i] == s[..i];
      if t.dueDate.year != year {
        FlowErrPersists(s, i + 1, year);
        return Err(t);
      }
      SumStep(s, i, Signed);
      months, runningBalance := RecordTransaction(months, t, runningBalance);
    }
    assert s[..|s|] == s;
    r := Ok(months);
  }

  /** The totals row: the sums of the months' income and expense. */
  method YearTotals(months: seq<MonthGroup>) returns (totals: Totals)
    ensures totals.income == Sum(months, MonthIncome)
    ensures totals.expense == Sum(months, MonthExpense)
    ensures totals.balance == totals.income - totals.expense
  {
    var income, expense := 0, 0;
    var j := 0;
    while j < |months|
      invariant 0 <= j <= |months|
      invariant income == Sum(months[..j], MonthIncome)
      invariant expense == Sum(months[..j], MonthExpense)
    {
      SumStep(months, j, MonthIncome);
      SumStep(months, j, MonthExpense);
      income := income + months[j].income;
      expense := expense + months[j].expense;
      j := j + 1;
    }
    assert months[..j] == months;
    totals := Totals(income, expense, income - expense);
  }

  /** Sorting does not change whether the grouping fails: it fails exactly when one of
      the transactions falls outside the year. */
  lemma SortedFlowFails(filtered: seq<Transaction>, year: int)
    ensures Flow(SortBy(filtered, DueTime), year).Err? <==> exists t :: t in filtered && t.dueDate.year != year
  {
    var sorted := SortBy(filtered, DueTime);
    SortByCorrect(filtered, DueTime);
    PermutationSameElements(sorted, filtered);
    FlowFailsOutsideYear(sorted, year);
    if Flow(sorted, year).Err? {
      var j :| 0 <= j < |sorted| && sorted[j].dueDate.year != year;
      assert sorted[j] in filtered;
    }
    if exists t :: t in filtered && t.dueDate.year != year {
      var t :| t in filtered && t.dueDate.year != year;
      assert t in sorted;
    }
  }

  /** On success the months of the sorted transactions add up to the income and expense
      of the transactions, and December closes on their net. */
  lemma SortedFlowTotals(filtered: seq<Transaction>, year: int)
    requires Flow(SortBy(filtered, DueTime), year).Ok?
    ensures var months := Flow(SortBy(filtered, DueTime), year).value;
      && Sum(months, MonthIncome) == TotalIncome(filtered)
      && Sum(months, MonthExpense) == TotalExpense(filtered)
      && months[Months - 1].runningBalance == Net(filtered)
      && Net(filtered) == TotalIncome(filtered) - TotalExpense(filtered)
  {
    var sorted := SortBy(filtered, DueTime);
    FlowMonths(sorted, year);
    CarriedForward(sorted, year, 1);
    SortBySum(filtered, DueTime, IncomeAmount);
    SortBySum(filtered, DueTime, ExpenseAmount);
    SortBySum(filtered, DueTime, Signed);
    NetIsIncomeMinusExpense(filtered);
  }

  /** The whole view for a window: select, sort by due date, group into the months of the
      starting year, total. It fails when a shown transaction falls outside that year;
      otherwise the totals are the income, expense and net of the shown transactions and
      December's running balance equals the total balance. */
  method View(transactions: seq<Transaction>, start: Date, end: Date) returns (r: Result<Report, Transaction>)
    ensures r.Err? <==> exists t :: t in Selected(transactions, start, end) && t.dueDate.year != start.year
    ensures r.Ok? ==> Flow(SortBy(Selected(transactions, start, end), DueTime), start.year) == Ok(r.value.months)
    ensures r.Ok? ==>
      && |r.value.months| == Months
      && r.value.totals.income == TotalIncome(Selected(transactions, start, end))
      && r.value.totals.expense == TotalExpense(Selected(transactions, start, end))
      && r.value.totals.balance == Net(Selected(transactions, start, end))
      && r.value.months[Months - 1].runningBalance == r.value.totals.balance
  {
    var filtered := Selected(transactions, start, end);
    var sorted := SortBy(filtered, DueTime);
    SortedFlowFails(filtered, start.year);
    var grouped := MonthlyFlow(sorted, start.year);
    if grouped.Err? {
      return Err(grouped.error);
    }
    SortedFlowTotals(filtered, start.year);
    var totals := YearTotals(grouped.value);
    r := Ok(Report(grouped.value, totals));
  }
}
