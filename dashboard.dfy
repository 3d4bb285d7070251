/** The financial dashboard (src/components/Dashboard.tsx): the delinquency rate,
    the four balance indicators, EBITDA, contribution margin and net profit over the
    period, and the month-by-month analysis of expenses by income-statement group.
    The current instant and the period's first and last instants are parameters. */
module Dashboard {
  import opened Wrappers
  import opened Types
  import opened Folds
  import opened Ledger
  import opened Records
  import Receivables

  // ------------------------------------------------------------ delinquency

  predicate IsIncome(t: Transaction) { t.txType == Income }

  predicate PastDue(t: Transaction, now: int)
  {
    t.status == Pending && t.dueDate.time < now
  }

  datatype Delinquency = Delinquency(rate: real, amount: int, total: int)

  /** The whole income, received or not, is the base; pending income past its due
      date is the part in arrears. */
  function DelinquencyOf(ts: seq<Transaction>, now: int): Delinquency
  {
    var income := Filter(ts, IsIncome);
    var total := Sum(income, Amount);
    var amount := Sum(Filter(income, (t: Transaction) => PastDue(t, now)), Amount);
    Delinquency(Percent(amount, total), amount, total)
  }

  /** The amount in arrears is the one the receivables screen reports as overdue. */
  lemma SameOverdueAmount(ts: seq<Transaction>, now: int)
    ensures DelinquencyOf(ts, now).amount == Receivables.OverdueMetricsOf(ts, now).amount
  {
    var both := (t: Transaction) => if t.txType == Income && PastDue(t, now) then t.amount else 0;
    var late := (t: Transaction) => if PastDue(t, now) then t.amount else 0;
    var over := (t: Transaction) => if Receivables.IsOverdue(t, now) then t.amount else 0;
    var incomeLate := (t: Transaction) => if IsIncome(t) then late(t) else 0;
    var pendingOver := (t: Transaction) => if Receivables.PendingIncome(t) then over(t) else 0;
    var income := Filter(ts, IsIncome);
    var pending := Receivables.ReceivablesOf(ts);
    FilterMembers(ts, IsIncome);
    FilterMembers(ts, Receivables.PendingIncome);
    SumFilter(income, (t: Transaction) => PastDue(t, now), Amount, late);
    SumFilter(ts, IsIncome, late, incomeLate);
    SumFilter(pending, (t: Transaction) => Receivables.IsOverdue(t, now), Amount, over);
    SumFilter(ts, Receivables.PendingIncome, over, pendingOver);
    SumCongruent(ts, incomeLate, pendingOver);
  }

  /** With non-negative amounts the rate lies in [0, 100], and it never exceeds the
      overdue rate of the receivables screen, whose base is only pending income. */
  lemma DelinquencyBounds(ts: seq<Transaction>, now: int)
    requires NonNegativeAmounts(ts)
    ensures var d := DelinquencyOf(ts, now);
      0 <= d.amount <= d.total && 0.0 <= d.rate <= 100.0 &&
      d.rate <= Receivables.OverdueMetricsOf(ts, now).rate
  {
    var income := Filter(ts, IsIncome);
    var pending := Receivables.ReceivablesOf(ts);
    var late := (t: Transaction) => if PastDue(t, now) then t.amount else 0;
    var pendingAmount := (t: Transaction) => if Receivables.PendingIncome(t) then t.amount else 0;
    var incomeAmount := (t: Transaction) => if IsIncome(t) then t.amount else 0;
    FilterMembers(ts, IsIncome);
    assert NonNegativeAmounts(income) by {
      forall i | 0 <= i < |income| ensures income[i].amount >= 0 {
        assert income[i] in ts;
      }
    }
    SumFilter(income, (t: Transaction) => PastDue(t, now), Amount, late);
    SumMonotone(income, late, Amount);
    SumNonNegative(income, late);
    var d := DelinquencyOf(ts, now);
    PercentBounds(d.amount, d.total);
    Receivables.RateBounds(ts, now);
    SameOverdueAmount(ts, now);
    SumFilter(ts, Receivables.PendingIncome, Amount, pendingAmount);
    SumFilter(ts, IsIncome, Amount, incomeAmount);
    SumMonotone(ts, pendingAmount, incomeAmount);
    var p := Sum(pending, Amount);
    if p != 0 {
      PercentOfLargerBase(d.amount, p, d.total);
    }
  }

  // ------------------------------------------------------------ indicators

  datatype Indicators = Indicators(totalReceivables: int, totalPayables: int, totalIncome: int, totalExpense: int)

  function Part(reconciled: bool, ty: TxType): Transaction -> bool
  {
    (t: Transaction) => t.reconciled == reconciled && t.txType == ty
  }

  /** Unreconciled income and expense are still to be received and paid;
      reconciled income and expense have been received and paid. */
  function IndicatorsOf(ts: seq<Transaction>): Indicators
  {
    Indicators(
      Sum(Filter(ts, Part(false, Income)), Amount), Sum(Filter(ts, Part(false, Expense)), Amount),
      Sum(Filter(ts, Part(true, Income)), Amount), Sum(Filter(ts, Part(true, Expense)), Amount))
  }

  function PartAmount(reconciled: bool, ty: TxType): Transaction -> int
  {
    (t: Transaction) => if t.reconciled == reconciled && t.txType == ty then t.amount else 0
  }

  lemma {:induction false} PartsCover(ts: seq<Transaction>)
    ensures Sum(ts, PartAmount(false, Income)) + Sum(ts, PartAmount(false, Expense)) +
            Sum(ts, PartAmount(true, Income)) + Sum(ts, PartAmount(true, Expense)) == Sum(ts, Amount)
  {
    if ts != [] {
      PartsCover(ts[..|ts| - 1]);
    }
  }

  /** Every transaction is in exactly one of the four indicators, so together
      they add up to the sum of all amounts. */
  lemma IndicatorsPartition(ts: seq<Transaction>)
    ensures var ind := IndicatorsOf(ts);
      ind.totalReceivables + ind.totalPayables + ind.totalIncome + ind.totalExpense == Sum(ts, Amount)
  {
    SumFilter(ts, Part(false, Income), Amount, PartAmount(false, Income));
    SumFilter(ts, Part(false, Expense), Amount, PartAmount(false, Expense));
    SumFilter(ts, Part(true, Income), Amount, PartAmount(true, Income));
    SumFilter(ts, Part(true, Expense), Amount, PartAmount(true, Expense));
    PartsCover(ts);
  }

  // ------------------------------------------------------------ period results

  /** The current month, as the dashboard bounds it: competence from `start` to `end`. */
  predicate InPeriod(t: Transaction, start: int, end: int)
  {
    start <= t.competenceDate.time <= end
  }

  /** The group stored with the transaction's category, when the category is known. */
  function GroupOf(t: Transaction, cats: seq<CategoryType>): Option<string>
  {
    match FindCategory(cats, t.category)
    case None => None
    case Some(c) => Some(c.dreGroup)
  }

  predicate InGroups(t: Transaction, cats: seq<CategoryType>, groups: set<string>)
  {
    GroupOf(t, cats).Some? && GroupOf(t, cats).value in groups
  }

  /** Reconciled transactions of the period. */
  predicate Settled(t: Transaction, start: int, end: int)
  {
    InPeriod(t, start, end) && t.reconciled
  }

  function Revenue(ts: seq<Transaction>, start: int, end: int): int
  {
    Sum(Filter(ts, (t: Transaction) => Settled(t, start, end) && IsIncome(t)), Amount)
  }

  /** Costs and expenses are selected by group alone, whatever the transaction's type. */
  function SettledInGroups(ts: seq<Transaction>, cats: seq<CategoryType>, groups: set<string>, start: int, end: int): int
  {
    Sum(Filter(ts, (t: Transaction) => Settled(t, start, end) && InGroups(t, cats, groups)), Amount)
  }

  const OperationalGroups: set<string> := {"despesas_administrativas", "despesas_pessoal", "despesas_variaveis"}
  const VariableGroups: set<string> := {"custos_servicos", "despesas_variaveis", "impostos"}

  datatype Result = Result(value: int, margin: real)

  /** EBITDA: revenue minus service costs minus operational expenses. */
  function Ebitda(ts: seq<Transaction>, cats: seq<CategoryType>, start: int, end: int): Result
  {
    var revenue := Revenue(ts, start, end);
    var value := revenue - SettledInGroups(ts, cats, {"custos_servicos"}, start, end)
      - SettledInGroups(ts, cats, OperationalGroups, start, end);
    Result(value, Percent(value, revenue))
  }

  /** Contribution margin: revenue minus the expense-type transactions of the
      variable groups. */
  function VariableCosts(ts: seq<Transaction>, cats: seq<CategoryType>, start: int, end: int): int
  {
    Sum(Filter(ts, (t: Transaction) => Settled(t, start, end) && t.txType == Expense && InGroups(t, cats, VariableGroups)), Amount)
  }

  function Contribution(ts: seq<Transaction>, cats: seq<CategoryType>, start: int, end: int): Result
  {
    var revenue := Revenue(ts, start, end);
    var value := revenue - VariableCosts(ts, cats, start, end);
    Result(value, Percent(value, revenue))
  }

  function NetProfit(ts: seq<Transaction>, start: int, end: int): Result
  {
    var revenue := Revenue(ts, start, end);
    var value := revenue - Sum(Filter(ts, (t: Transaction) => Settled(t, start, end) && t.txType == Expense), Amount);
    Result(value, Percent(value, revenue))
  }

  /** One transaction's share of each result, defined independently of the filters. */
  function RevenueShare(start: int, end: int): Transaction -> int
  {
    (t: Transaction) => if Settled(t, start, end) && IsIncome(t) then t.amount else 0
  }

  function GroupShare(cats: seq<CategoryType>, groups: set<string>, start: int, end: int): Transaction -> int
  {
    (t: Transaction) => if Settled(t, start, end) && InGroups(t, cats, groups) then t.amount else 0
  }

  function ExpenseShare(start: int, end: int): Transaction -> int
  {
    (t: Transaction) => if Settled(t, start, end) && t.txType == Expense then t.amount else 0
  }

  function VariableShare(cats: seq<CategoryType>, start: int, end: int): Transaction -> int
  {
    (t: Transaction) => if Settled(t, start, end) && t.txType == Expense && InGroups(t, cats, VariableGroups) then t.amount else 0
  }

  /** The net profit is the signed sum of the period's reconciled transactions. */
  lemma NetProfitIsNet(ts: seq<Transaction>, start: int, end: int)
    ensures NetProfit(ts, start, end).value == Net(Filter(ts, (t: Transaction) => Settled(t, start, end)))
  {
    var settled := (t: Transaction) => Settled(t, start, end);
    var p := Filter(ts, settled);
    SumFilter(ts, (t: Transaction) => Settled(t, start, end) && IsIncome(t), Amount, RevenueShare(start, end));
    SumFilter(ts, (t: Transaction) => Settled(t, start, end) && t.txType == Expense, Amount, ExpenseShare(start, end));
    var incomeOf := (t: Transaction) => if settled(t) then IncomeAmount(t) else 0;
    var expenseOf := (t: Transaction) => if settled(t) then ExpenseAmount(t) else 0;
    SumFilter(ts, settled, IncomeAmount, incomeOf);
    SumFilter(ts, settled, ExpenseAmount, expenseOf);
    SumCongruent(ts, incomeOf, RevenueShare(start, end));
    SumCongruent(ts, expenseOf, ExpenseShare(start, end));
    NetIsIncomeMinusExpense(p);
  }

  /** With non-negative amounts the variable costs are part of all expenses, so
      the net profit never exceeds the contribution margin, and the contribution
      margin never exceeds the revenue; each margin is 0 when there is no revenue
      and otherwise at most 100. */
  lemma ResultsOrdered(ts: seq<Transaction>, cats: seq<CategoryType>, start: int, end: int)
    requires NonNegativeAmounts(ts)
    ensures NetProfit(ts, start, end).value <= Contribution(ts, cats, start, end).value <= Revenue(ts, start, end)
    ensures Revenue(ts, start, end) == 0 ==>
      Ebitda(ts, cats, start, end).margin == 0.0 && Contribution(ts, cats, start, end).margin == 0.0 &&
      NetProfit(ts, start, end).margin == 0.0
    ensures Contribution(ts, cats, start, end).margin <= 100.0 && NetProfit(ts, start, end).margin <= 100.0
  {
    ValuesOrdered(ts, cats, start, end);
    var revenue := Revenue(ts, start, end);
    PercentAtMostHundred(Contribution(ts, cats, start, end).value, revenue);
    PercentAtMostHundred(NetProfit(ts, start, end).value, revenue);
  }

  /** The integer half of the ordering: net profit, contribution margin and revenue,
      with a non-negative revenue. */
  lemma ValuesOrdered(ts: seq<Transaction>, cats: seq<CategoryType>, start: int, end: int)
    requires NonNegativeAmounts(ts)
    ensures NetProfit(ts, start, end).value <= Contribution(ts, cats, start, end).value <= Revenue(ts, start, end)
    ensures 0 <= Revenue(ts, start, end)
  {
    SumFilter(ts, (t: Transaction) => Settled(t, start, end) && t.txType == Expense, Amount, ExpenseShare(start, end));
    SumFilter(ts, (t: Transaction) => Settled(t, start, end) && t.txType == Expense && InGroups(t, cats, VariableGroups),
      Amount, VariableShare(cats, start, end));
    SumFilter(ts, (t: Transaction) => Settled(t, start, end) && IsIncome(t), Amount, RevenueShare(start, end));
    SumMonotone(ts, VariableShare(cats, start, end), ExpenseShare(start, end));
    SumNonNegative(ts, VariableShare(cats, start, end));
    SumNonNegative(ts, RevenueShare(start, end));
  }

  /** EBITDA subtracts the service-cost and operational groups from the revenue,
      whatever the type of the transactions in them. */
  lemma EbitdaShares(ts: seq<Transaction>, cats: seq<CategoryType>, start: int, end: int)
    ensures Ebitda(ts, cats, start, end).value ==
      Sum(ts, RevenueShare(start, end)) - Sum(ts, GroupShare(cats, {"custos_servicos"}, start, end))
      - Sum(ts, GroupShare(cats, OperationalGroups, start, end))
  {
    SumFilter(ts, (t: Transaction) => Settled(t, start, end) && IsIncome(t), Amount, RevenueShare(start, end));
    SumFilter(ts, (t: Transaction) => Settled(t, start, end) && InGroups(t, cats, {"custos_servicos"}),
      Amount, GroupShare(cats, {"custos_servicos"}, start, end));
    SumFilter(ts, (t: Transaction) => Settled(t, start, end) && InGroups(t, cats, OperationalGroups),
      Amount, GroupShare(cats, OperationalGroups, start, end));
  }

  // ------------------------------------------------------------ monthly expense analysis

  /** The seven expense groups of the analysis, in display order. */
  const ExpenseGroupIds: seq<string> := [
    "custos_servicos", "despesas_administrativas", "despesas_pessoal", "despesas_variaveis",
    "despesas_financeiras", "impostos", "investimentos"]

  const GroupCount: nat := 7

  /** `analysis.get(id)`: the position of an expense group in the analysis. */
  function ExpenseGroupIndex(id: string): (r: Option<nat>)
    ensures r.Some? ==> r.value < GroupCount && ExpenseGroupIds[r.value] == id
    ensures r.None? ==> id !in ExpenseGroupIds
  {
    if id == "custos_servicos" then Some(0)
    else if id == "despesas_administrativas" then Some(1)
    else if id == "despesas_pessoal" then Some(2)
    else if id == "despesas_variaveis" then Some(3)
    else if id == "despesas_financeiras" then Some(4)
    else if id == "impostos" then Some(5)
    else if id == "investimentos" then Some(6)
    else None
  }

  datatype CategoryTotal = CategoryTotal(name: string, total: int)

  function CategoryTotalName(c: CategoryTotal): string { c.name }
  function CategoryTotalAmount(c: CategoryTotal): int { c.total }

  /** One group in one month: its total and its categories in first-seen order. */
  datatype Cell = Cell(total: int, categories: seq<CategoryTotal>)

  /** `cells[g][m]` for expense group `g` and month `m`, and the month totals. */
  datatype Analysis = Analysis(cells: seq<seq<Cell>>, monthlyTotals: seq<int>)

  predicate Shaped(a: Analysis)
  {
    |a.cells| == GroupCount && |a.monthlyTotals| == 12 &&
    forall g :: 0 <= g < |a.cells| ==> |a.cells[g]| == 12
  }

  function EmptyMonths(): seq<Cell>
  {
    seq(12, m => Cell(0, []))
  }

  function EmptyAnalysis(): (r: Analysis)
    ensures Shaped(r)
  {
    Analysis(seq(GroupCount, g => EmptyMonths()), seq(12, m => 0))
  }

  /** Where a settled expense is booked: the expense group of its category and the
      category's name; nothing for an unknown category, an empty group or a group
      outside the seven. */
  function Target(t: Transaction, cats: seq<CategoryType>): (r: Option<(nat, string)>)
    ensures r.Some? ==> r.value.0 < GroupCount
  {
    match FindCategory(cats, t.category)
    case None => None
    case Some(c) =>
      if c.dreGroup == "" then None
      else match ExpenseGroupIndex(c.dreGroup)
        case None => None
        case Some(g) => Some((g, c.name))
  }

  /** A category's entry gets the amount, created at zero when missing. */
  function AddToCategory(cs: seq<CategoryTotal>, name: string, amount: int): seq<CategoryTotal>
  {
    match IndexOf(cs, CategoryTotalName, name)
    case None => cs + [CategoryTotal(name, amount)]
    case Some(k) => cs[k := CategoryTotal(name, cs[k].total + amount)]
  }

  function Booked(a: Analysis, g: nat, m: Month, name: string, amount: int): (r: Analysis)
    requires Shaped(a) && g < GroupCount
    ensures Shaped(r)
  {
    var c := a.cells[g][m];
    Analysis(
      a.cells[g := a.cells[g][m := Cell(c.total + amount, AddToCategory(c.categories, name, amount))]],
      a.monthlyTotals[m := a.monthlyTotals[m] + amount])
  }

  function Step(a: Analysis, t: Transaction, cats: seq<CategoryType>): (r: Analysis)
    requires Shaped(a)
    ensures Shaped(r)
  {
    match Target(t, cats)
    case None => a
    case Some((g, name)) => Booked(a, g, t.competenceDate.month, name, t.amount)
  }

  function Analyze(p: seq<Transaction>, cats: seq<CategoryType>): (r: Analysis)
    ensures Shaped(r)
  {
    if p == [] then EmptyAnalysis() else Step(Analyze(p[..|p| - 1], cats), p[|p| - 1], cats)
  }

  /** Settled expenses of the period. */
  predicate Expensed(t: Transaction, start: int, end: int)
  {
    Settled(t, start, end) && t.txType == Expense
  }

  function ExpensesOf(ts: seq<Transaction>, start: int, end: int): seq<Transaction>
  {
    Filter(ts, (t: Transaction) => Expensed(t, start, end))
  }

  /** `monthlyExpenseAnalysis` before its percentages. */
  function AnalysisOf(ts: seq<Transaction>, cats: seq<CategoryType>, start: int, end: int): (r: Analysis)
    ensures Shaped(r)
  {
    Analyze(ExpensesOf(ts, start, end), cats)
  }

  /** The analysis as the dashboard fills it: seven groups of twelve empty months,
      then one settled expense of the period at a time. */
  method BuildAnalysis(ts: seq<Transaction>, cats: seq<CategoryType>, start: int, end: int) returns (a: Analysis)
    ensures a == AnalysisOf(ts, cats, start, end)
  {
    var cells: seq<seq<Cell>> := [];
    for g := 0 to GroupCount
      invariant cells == seq(g, i => EmptyMonths())
    {
      cells := cells + [EmptyMonths()];
    }
    var monthly := seq(12, m => 0);
    var expenses := ExpensesOf(ts, start, end);
    a := Analysis(cells, monthly);
    for i := 0 to |expenses|
      invariant a == Analyze(expenses[..i], cats)
    {
      assert expenses[..i + 1][..i] == expenses[..i];
      a := BookExpense(a, expenses[i], cats);
    }
    assert expenses[..|expenses|] == expenses;
  }

  /** The body of the loop: an expense of a known group added to its month's cell,
      to its category's line there, and to the month's total. */
  method BookExpense(a: Analysis, t: Transaction, cats: seq<CategoryType>) returns (updated: Analysis)
    requires Shaped(a)
    ensures updated == Step(a, t, cats)
  {
    updated := a;
    var target := Target(t, cats);
    if target.Some? {
      var (g, name) := target.value;
      var m := t.competenceDate.month;
      var cell := a.cells[g][m];
      var cs := AddCategoryAmount(cell.categories, name, t.amount);
      updated := Analysis(a.cells[g := a.cells[g][m := Cell(cell.total + t.amount, cs)]],
                          a.monthlyTotals[m := a.monthlyTotals[m] + t.amount]);
    }
  }

  /** A category's line found by name and raised, or appended at zero and raised. */
  method AddCategoryAmount(categories: seq<CategoryTotal>, name: string, amount: int) returns (cs: seq<CategoryTotal>)
    ensures cs == AddToCategory(categories, name, amount)
  {
    cs := categories;
    var k := IndexOf(cs, CategoryTotalName, name);
    if k.None? {
      cs := cs + [CategoryTotal(name, 0)];
      k := Some(|cs| - 1);
    }
    cs := cs[k.value := CategoryTotal(name, cs[k.value].total + amount)];
  }

  /** The seven groups' totals for one month. */
  function GroupsTotal(a: Analysis, m: Month): int
    requires Shaped(a)
  {
    a.cells[0][m].total + a.cells[1][m].total + a.cells[2][m].total + a.cells[3][m].total +
    a.cells[4][m].total + a.cells[5][m].total + a.cells[6][m].total
  }

  predicate TotalsAgree(a: Analysis)
    requires Shaped(a)
  {
    forall m: Month :: a.monthlyTotals[m] == GroupsTotal(a, m)
  }

  lemma BookedTotals(a: Analysis, g: nat, m: Month, name: string, amount: int)
    requires Shaped(a) && g < GroupCount && TotalsAgree(a)
    ensures TotalsAgree(Booked(a, g, m, name, amount))
  {
    var b := Booked(a, g, m, name, amount);
    forall n: Month ensures b.monthlyTotals[n] == GroupsTotal(b, n) {
      if n != m {
        assert forall h :: 0 <= h < GroupCount ==> b.cells[h][n] == a.cells[h][n];
      } else {
        assert forall h :: 0 <= h < GroupCount && h != g ==> b.cells[h][n] == a.cells[h][n];
      }
    }
  }

  lemma {:induction false} AnalyzeTotals(p: seq<Transaction>, cats: seq<CategoryType>)
    ensures TotalsAgree(Analyze(p, cats))
  {
    if p != [] {
      var a := Analyze(p[..|p| - 1], cats);
      var t := p[|p| - 1];
      AnalyzeTotals(p[..|p| - 1], cats);
      match Target(t, cats)
      case None =>
      case Some((g, name)) => BookedTotals(a, g, t.competenceDate.month, name, t.amount);
    }
  }

  /** The booked amount of a transaction in group `g` and month `m`. */
  function CellShare(cats: seq<CategoryType>, g: nat, m: Month): Transaction -> int
  {
    (t: Transaction) =>
      if Target(t, cats).Some? && Target(t, cats).value.0 == g && t.competenceDate.month == m then t.amount else 0
  }

  function MonthShare(cats: seq<CategoryType>, m: Month): Transaction -> int
  {
    (t: Transaction) => if Target(t, cats).Some? && t.competenceDate.month == m then t.amount else 0
  }

  predicate CellsDirect(a: Analysis, p: seq<Transaction>, cats: seq<CategoryType>)
    requires Shaped(a)
  {
    forall g: nat, m: Month :: g < GroupCount ==> a.cells[g][m].total == Sum(p, CellShare(cats, g, m))
  }

  predicate MonthsDirect(a: Analysis, p: seq<Transaction>, cats: seq<CategoryType>)
    requires Shaped(a)
  {
    forall m: Month :: a.monthlyTotals[m] == Sum(p, MonthShare(cats, m))
  }

  lemma StepDirect(p: seq<Transaction>, t: Transaction, cats: seq<CategoryType>)
    requires CellsDirect(Analyze(p, cats), p, cats) && MonthsDirect(Analyze(p, cats), p, cats)
    ensures CellsDirect(Step(Analyze(p, cats), t, cats), p + [t], cats)
    ensures MonthsDirect(Step(Analyze(p, cats), t, cats), p + [t], cats)
  {
    var a := Analyze(p, cats);
    var b := Step(a, t, cats);
    forall g: nat, m: Month | g < GroupCount ensures b.cells[g][m].total == Sum(p + [t], CellShare(cats, g, m)) {
      SumAfter(p, t, CellShare(cats, g, m));
    }
    forall m: Month ensures b.monthlyTotals[m] == Sum(p + [t], MonthShare(cats, m)) {
      SumAfter(p, t, MonthShare(cats, m));
    }
  }

  lemma {:induction false} AnalyzeDirect(p: seq<Transaction>, cats: seq<CategoryType>)
    ensures CellsDirect(Analyze(p, cats), p, cats) && MonthsDirect(Analyze(p, cats), p, cats)
  {
    if p != [] {
      var q := p[..|p| - 1];
      AnalyzeDirect(q, cats);
      StepDirect(q, p[|p| - 1], cats);
      assert q + [p[|p| - 1]] == p;
    }
  }

  predicate CellAdds(c: Cell)
  {
    Sum(c.categories, CategoryTotalAmount) == c.total
  }

  predicate CellsAdd(a: Analysis)
    requires Shaped(a)
  {
    forall g: nat, m: Month :: g < GroupCount ==> CellAdds(a.cells[g][m])
  }

  lemma AddToCategorySum(cs: seq<CategoryTotal>, name: string, amount: int)
    ensures Sum(AddToCategory(cs, name, amount), CategoryTotalAmount) == Sum(cs, CategoryTotalAmount) + amount
  {
    match IndexOf(cs, CategoryTotalName, name)
    case None => SumAfter(cs, CategoryTotal(name, amount), CategoryTotalAmount);
    case Some(k) => SumUpdate(cs, k, CategoryTotal(name, cs[k].total + amount), CategoryTotalAmount);
  }

  lemma {:induction false} AnalyzeAdds(p: seq<Transaction>, cats: seq<CategoryType>)
    ensures CellsAdd(Analyze(p, cats))
  {
    if p != [] {
      var a := Analyze(p[..|p| - 1], cats);
      var t := p[|p| - 1];
      AnalyzeAdds(p[..|p| - 1], cats);
      match Target(t, cats)
      case None =>
      case Some((g, name)) =>
        var m := t.competenceDate.month;
        AddToCategorySum(a.cells[g][m].categories, name, t.amount);
        var b := Booked(a, g, m, name, t.amount);
        assert CellAdds(b.cells[g][m]);
        forall h: nat, n: Month | h < GroupCount ensures CellAdds(b.cells[h][n]) {
          if h != g || n != m {
            assert b.cells[h][n] == a.cells[h][n];
          }
        }
    }
  }

  /** Each cell holds exactly the period's settled expenses of its group and
      month, and is the sum of its categories; each month total holds exactly the
      settled expenses of that month booked in one of the seven groups (any other
      expense is left out of both) and is the sum of the seven group totals. */
  lemma AnalysisSpec(ts: seq<Transaction>, cats: seq<CategoryType>, start: int, end: int, g: nat, m: Month)
    requires g < GroupCount
    ensures var a := AnalysisOf(ts, cats, start, end);
      var p := ExpensesOf(ts, start, end);
      && a.cells[g][m].total == Sum(p, CellShare(cats, g, m))
      && Sum(a.cells[g][m].categories, CategoryTotalAmount) == a.cells[g][m].total
      && a.monthlyTotals[m] == Sum(p, MonthShare(cats, m))
      && a.monthlyTotals[m] == GroupsTotal(a, m)
  {
    var p := ExpensesOf(ts, start, end);
    AnalyzeDirect(p, cats);
    AnalyzeAdds(p, cats);
    AnalyzeTotals(p, cats);
  }

  /** A group's share of its month, in percent; 0 when the month has no expense. */
  function GroupPercent(a: Analysis, g: nat, m: Month): real
    requires Shaped(a) && g < GroupCount
  {
    Percent(a.cells[g][m].total, a.monthlyTotals[m])
  }

  /** A category's share of its month, in percent; 0 when the month has no expense. */
  function CategoryPercent(a: Analysis, c: CategoryTotal, m: Month): real
    requires Shaped(a)
  {
    Percent(c.total, a.monthlyTotals[m])
  }

  lemma PercentSum(x: seq<int>, total: int)
    requires |x| == 7 && total != 0
    requires x[0] + x[1] + x[2] + x[3] + x[4] + x[5] + x[6] == total
    ensures Percent(x[0], total) + Percent(x[1], total) + Percent(x[2], total) + Percent(x[3], total) +
            Percent(x[4], total) + Percent(x[5], total) + Percent(x[6], total) == 100.0
  {
    var t := total as real;
    var k := 100.0 / t;
    forall i | 0 <= i < 7 ensures Percent(x[i], total) == (x[i] as real) * k {
      assert (x[i] as real) / t * 100.0 == (x[i] as real) * (100.0 / t);
    }
    assert t * k == 100.0;
  }

  /** In a month with expenses the seven group percentages add up to 100; in a
      month without, every group and category percentage is 0. */
  lemma GroupPercentages(ts: seq<Transaction>, cats: seq<CategoryType>, start: int, end: int, m: Month)
    ensures var a := AnalysisOf(ts, cats, start, end);
      if a.monthlyTotals[m] == 0 then
        (forall g :: 0 <= g < GroupCount ==> GroupPercent(a, g, m) == 0.0) &&
        (forall c :: CategoryPercent(a, c, m) == 0.0)
      else
        GroupPercent(a, 0, m) + GroupPercent(a, 1, m) + GroupPercent(a, 2, m) + GroupPercent(a, 3, m) +
        GroupPercent(a, 4, m) + GroupPercent(a, 5, m) + GroupPercent(a, 6, m) == 100.0
  {
    var a := AnalysisOf(ts, cats, start, end);
    AnalyzeTotals(ExpensesOf(ts, start, end), cats);
    if a.monthlyTotals[m] != 0 {
      PercentSum(seq(7, g requires 0 <= g < 7 => a.cells[g][m].total), a.monthlyTotals[m]);
    }
  }
}
