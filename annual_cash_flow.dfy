/** The annual cash flow (src/components/FluxoCaixaAnual.tsx): for one year and one
    account (or all of them), the month-end balances of the unreconciled transactions,
    the per-category monthly and accumulated values, their grouping by DRE group and
    the spreadsheet rows of the export. */
module AnnualCashFlow {
  import opened Wrappers
  import opened Types
  import opened Folds
  import opened Ledger
  import opened Text
  import opened Buckets
  import CashFlow

  const AllAccounts: string := "all"
  const Months: nat := 12

  const MonthNames: seq<string> := ["JANEIRO", "FEVEREIRO", "MAR\U{C7}O", "ABRIL", "MAIO", "JUNHO",
    "JULHO", "AGOSTO", "SETEMBRO", "OUTUBRO", "NOVEMBRO", "DEZEMBRO"]

  /** A category's row: its monthly sums and the accumulated values per month. */
  datatype CategoryGroup = CategoryGroup(
    name: string, catType: TxType, dreGroup: string, monthly: seq<int>, accumulated: seq<int>)

  type DreBucket = Bucket<string, CategoryGroup>

  /** A spreadsheet cell. */
  datatype Cell = Label(text: string) | Number(value: int)

  /** Taken into account: due in `year`, not reconciled, on the chosen account. */
  predicate Counted(t: Transaction, year: int, account: string)
  {
    t.dueDate.year == year && !t.reconciled && (account == AllAccounts || t.bankAccount == account)
  }

  function CountedOf(s: seq<Transaction>, year: int, account: string): seq<Transaction>
  {
    if s == [] then []
    else CountedOf(s[..|s| - 1], year, account) + (if Counted(s[|s| - 1], year, account) then [s[|s| - 1]] else [])
  }

  function InitialBalance(a: BankAccount): int { a.initialBalance }

  /** The opening balance: the sum of every account's initial balance for 'all',
      otherwise the chosen account's initial balance, or 0 when it is unknown. */
  function Seed(accounts: seq<BankAccount>, account: string): (r: int)
    ensures account == AllAccounts ==> r == Sum(accounts, InitialBalance)
    ensures account != AllAccounts && FindAccount(accounts, account).Some? ==>
      r == FindAccount(accounts, account).value.initialBalance
    ensures account != AllAccounts && FindAccount(accounts, account).None? ==> r == 0
  {
    if account == AllAccounts then Sum(accounts, InitialBalance)
    else
      match FindAccount(accounts, account)
      case Some(a) => a.initialBalance
      case None => 0
  }

  /** The transactions of `c` due in month `m` or earlier. */
  function UpToMonth(c: seq<Transaction>, m: int): seq<Transaction>
  {
    if c == [] then []
    else UpToMonth(c[..|c| - 1], m) + (if c[|c| - 1].dueDate.month <= m then [c[|c| - 1]] else [])
  }

  /** The running balances of the first `n` months: each month adds its net to the
      previous month's balance, January to the opening balance. */
  function Balances(seed: int, c: seq<Transaction>, n: nat): (r: seq<int>)
    ensures |r| == n
  {
    if n == 0 then []
    else
      var prev := Balances(seed, c, n - 1);
      prev + [(if n > 1 then prev[n - 2] else seed) + Net(CashFlow.InMonth(c, n - 1))]
  }

  lemma {:induction false} UpToMonthSplit(c: seq<Transaction>, m: int)
    ensures Net(UpToMonth(c, m)) == Net(UpToMonth(c, m - 1)) + Net(CashFlow.InMonth(c, m))
  {
    if c != [] {
      var p := c[..|c| - 1];
      var t := c[|c| - 1];
      UpToMonthSplit(p, m);
      var a := if t.dueDate.month <= m then [t] else [];
      var b := if t.dueDate.month <= m - 1 then [t] else [];
      var d := if t.dueDate.month == m then [t] else [];
      SumAppend(UpToMonth(p, m), a, Signed);
      SumAppend(UpToMonth(p, m - 1), b, Signed);
      SumAppend(CashFlow.InMonth(p, m), d, Signed);
      SumSingleton(t, Signed);
    }
  }

  lemma UpToMonthBefore(c: seq<Transaction>)
    ensures UpToMonth(c, -1) == []
  {
    if c != [] {
      UpToMonthBefore(c[..|c| - 1]);
    }
  }

  /** The balance shown for month `i` is the opening balance plus the net of every
      counted transaction due in month `i` or earlier. */
  lemma {:induction false} BalancesCumulative(seed: int, c: seq<Transaction>, n: nat)
    ensures forall i :: 0 <= i < n ==> Balances(seed, c, n)[i] == seed + Net(UpToMonth(c, i))
  {
    if n > 0 {
      var prev := Balances(seed, c, n - 1);
      var last := (if n > 1 then prev[n - 2] else seed) + Net(CashFlow.InMonth(c, n - 1));
      assert Balances(seed, c, n) == prev + [last];
      BalancesCumulative(seed, c, n - 1);
      UpToMonthSplit(c, n - 1);
      if n == 1 {
        UpToMonthBefore(c);
      }
      forall i | 0 <= i < n ensures Balances(seed, c, n)[i] == seed + Net(UpToMonth(c, i)) {
        if i < n - 1 {
          assert Balances(seed, c, n)[i] == prev[i];
        }
      }
    }
  }

  // Per-category monthly and accumulated values

  function Zeros(): (r: seq<int>)
    ensures |r| == Months && forall m :: 0 <= m < Months ==> r[m] == 0
  {
    seq(Months, _ => 0)
  }

  /** A monthly value as it enters the accumulation: negated for an expense category. */
  function SignedFor(ty: TxType, v: int): int
  {
    if ty == Expense then -v else v
  }

  /** The signed sum of `monthly[0..m]`. */
  function PrefixSigned(monthly: seq<int>, ty: TxType, m: int): int
    requires m < |monthly|
  {
    if m < 0 then 0 else PrefixSigned(monthly, ty, m - 1) + SignedFor(ty, monthly[m])
  }

  /** The accumulation loop: every month up to `k` gets its signed prefix sum, the later
      months keep what they had. */
  function Reaccumulate(acc: seq<int>, monthly: seq<int>, ty: TxType, k: int): (r: seq<int>)
    requires |acc| == |monthly|
    ensures |r| == |acc|
  {
    seq(|acc|, m requires 0 <= m < |acc| => if m <= k then PrefixSigned(monthly, ty, m) else acc[m])
  }

  function FindCategoryGroup(groups: seq<CategoryGroup>, name: string): (r: Option<nat>)
    ensures r.Some? ==> r.value < |groups| && groups[r.value].name == name
    ensures r.None? ==> forall g :: 0 <= g < |groups| ==> groups[g].name != name
  {
    if groups == [] then None
    else if groups[|groups| - 1].name == name then Some(|groups| - 1)
    else FindCategoryGroup(groups[..|groups| - 1], name)
  }

  predicate WellFormed(g: CategoryGroup)
  {
    |g.monthly| == Months && |g.accumulated| == Months
  }

  /** One transaction of a known category: its category's entry is created when missing,
      the amount is added to its month, and the months up to it are re-accumulated. */
  function AddToCategory(groups: seq<CategoryGroup>, t: Transaction, cat: CategoryType): seq<CategoryGroup>
    requires forall g :: 0 <= g < |groups| ==> WellFormed(groups[g])
  {
    var f := FindCategoryGroup(groups, t.category);
    var g := if f.None? then CategoryGroup(t.category, cat.catType, cat.dreGroup, Zeros(), Zeros()) else groups[f.value];
    assert WellFormed(g);
    var k := t.dueDate.month;
    var monthly := g.monthly[k := g.monthly[k] + t.amount];
    var g' := g.(monthly := monthly, accumulated := Reaccumulate(g.accumulated, monthly, cat.catType, k));
    if f.None? then groups + [g'] else groups[f.value := g']
  }

  lemma AddKeepsWellFormed(groups: seq<CategoryGroup>, t: Transaction, cat: CategoryType)
    requires forall g :: 0 <= g < |groups| ==> WellFormed(groups[g])
    ensures var after := AddToCategory(groups, t, cat);
      forall g :: 0 <= g < |after| ==> WellFormed(after[g])
  {
  }

  /** The category entries built from the counted transactions `c`, in input order;
      a transaction whose category is not a known category name is skipped. */
  function Categorize(c: seq<Transaction>, cats: seq<CategoryType>): (r: seq<CategoryGroup>)
    ensures forall g :: 0 <= g < |r| ==> WellFormed(r[g])
  {
    if c == [] then []
    else
      var prev := Categorize(c[..|c| - 1], cats);
      var t := c[|c| - 1];
      match FindCategory(cats, t.category)
      case None => prev
      case Some(cat) =>
        AddKeepsWellFormed(prev, t, cat);
        AddToCategory(prev, t, cat)
  }

  function CategoryOf(t: Transaction): string { t.category }

  predicate Known(t: Transaction, cats: seq<CategoryType>)
  {
    FindCategory(cats, t.category).Some?
  }

  /** One entry per known category name occurring in `p`, typed and grouped as that
      category. */
  ghost predicate CategoryEntries(groups: seq<CategoryGroup>, p: seq<Transaction>, cats: seq<CategoryType>)
  {
    && (forall a, b :: 0 <= a < b < |groups| ==> groups[a].name != groups[b].name)
    && (forall g :: 0 <= g < |groups| ==>
          && WellFormed(groups[g])
          && FindCategory(cats, groups[g].name).Some?
          && groups[g].catType == FindCategory(cats, groups[g].name).value.catType
          && groups[g].dreGroup == FindCategory(cats, groups[g].name).value.dreGroup
          && Having(p, CategoryOf, groups[g].name) != [])
  }

  /** Month `m` of an entry holds the sum of its category's amounts due in month `m`. */
  ghost predicate CategoryMonthly(groups: seq<CategoryGroup>, p: seq<Transaction>)
  {
    forall g, m :: 0 <= g < |groups| && 0 <= m < Months && WellFormed(groups[g]) ==>
      groups[g].monthly[m] == Sum(CashFlow.InMonth(Having(p, CategoryOf, groups[g].name), m), Amount)
  }

  ghost predicate CategoryCovers(groups: seq<CategoryGroup>, p: seq<Transaction>, cats: seq<CategoryType>)
  {
    forall j :: 0 <= j < |p| && Known(p[j], cats) ==>
      exists g :: 0 <= g < |groups| && groups[g].name == p[j].category
  }

  ghost predicate Categorized(groups: seq<CategoryGroup>, p: seq<Transaction>, cats: seq<CategoryType>)
  {
    CategoryEntries(groups, p, cats) && CategoryMonthly(groups, p) && CategoryCovers(groups, p, cats)
  }

  lemma MonthlyStep(p: seq<Transaction>, t: Transaction, name: string, m: int)
    ensures var q := p + [t];
      Sum(CashFlow.InMonth(Having(q, CategoryOf, name), m), Amount) ==
        Sum(CashFlow.InMonth(Having(p, CategoryOf, name), m), Amount) +
        (if t.category == name && t.dueDate.month == m then t.amount else 0)
  {
    var q := p + [t];
    assert q[..|p|] == p;
    var h := Having(p, CategoryOf, name);
    if t.category == name {
      assert Having(q, CategoryOf, name) == h + [t];
      assert (h + [t])[..|h|] == h;
      if t.dueDate.month == m {
        assert CashFlow.InMonth(h + [t], m) == CashFlow.InMonth(h, m) + [t];
        SumAppend(CashFlow.InMonth(h, m), [t], Amount);
        SumSingleton(t, Amount);
      } else {
        assert CashFlow.InMonth(h + [t], m) == CashFlow.InMonth(h, m) + [] == CashFlow.InMonth(h, m);
      }
    } else {
      assert Having(q, CategoryOf, name) == h + [] == h;
    }
  }

  /** What adding one transaction does to the entries: the entry with its category, or a
      new one at the end, keeps its name, type and group; the others are untouched. */
  lemma AddShape(groups: seq<CategoryGroup>, t: Transaction, cat: CategoryType)
    requires forall g :: 0 <= g < |groups| ==> WellFormed(groups[g])
    ensures var after := AddToCategory(groups, t, cat);
      var f := FindCategoryGroup(groups, t.category);
      && |after| == (if f.None? then |groups| + 1 else |groups|)
      && (forall g :: 0 <= g < |groups| && (f.None? || g != f.value) ==> after[g] == groups[g])
      && (f.Some? ==>
            && after[f.value].name == t.category
            && after[f.value].catType == groups[f.value].catType
            && after[f.value].dreGroup == groups[f.value].dreGroup)
      && (f.None? ==>
            && after[|groups|].name == t.category
            && after[|groups|].catType == cat.catType
            && after[|groups|].dreGroup == cat.dreGroup)
  {
  }

  lemma EntriesStep(groups: seq<CategoryGroup>, p: seq<Transaction>, cats: seq<CategoryType>, t: Transaction)
    requires Categorized(groups, p, cats) && Known(t, cats)
    ensures CategoryEntries(AddToCategory(groups, t, FindCategory(cats, t.category).value), p + [t], cats)
  {
    var cat := FindCategory(cats, t.category).value;
    var after := AddToCategory(groups, t, cat);
    var f := FindCategoryGroup(groups, t.category);
    var q := p + [t];
    AddShape(groups, t, cat);
    AddKeepsWellFormed(groups, t, cat);
    forall a, b | 0 <= a < b < |after| ensures after[a].name != after[b].name {
      if f.None? && b == |groups| {
        assert after[a] == groups[a];
      }
    }
    forall g | 0 <= g < |after|
      ensures FindCategory(cats, after[g].name).Some?
      ensures after[g].catType == FindCategory(cats, after[g].name).value.catType
      ensures after[g].dreGroup == FindCategory(cats, after[g].name).value.dreGroup
      ensures Having(q, CategoryOf, after[g].name) != []
    {
      HavingSnoc(p, t, CategoryOf, after[g].name);
      if g < |groups| && (f.None? || g != f.value) {
        assert after[g] == groups[g];
      }
    }
  }

  lemma MonthlyEntriesStep(groups: seq<CategoryGroup>, p: seq<Transaction>, cats: seq<CategoryType>, t: Transaction)
    requires Categorized(groups, p, cats) && Known(t, cats)
    ensures CategoryMonthly(AddToCategory(groups, t, FindCategory(cats, t.category).value), p + [t])
  {
    var cat := FindCategory(cats, t.category).value;
    var after := AddToCategory(groups, t, cat);
    var f := FindCategoryGroup(groups, t.category);
    var q := p + [t];
    if f.None? {
      forall j | 0 <= j < |p| ensures p[j].category != t.category {
        assert Known(p[j], cats) ==> exists g :: 0 <= g < |groups| && groups[g].name == p[j].category;
      }
      HavingNone(p, CategoryOf, t.category);
    }
    forall g, m | 0 <= g < |after| && 0 <= m < Months && WellFormed(after[g])
      ensures after[g].monthly[m] == Sum(CashFlow.InMonth(Having(q, CategoryOf, after[g].name), m), Amount)
    {
      MonthlyStep(p, t, after[g].name, m);
      if g < |groups| && (f.None? || g != f.value) {
        assert after[g] == groups[g];
      }
    }
  }

  lemma CoversStep(groups: seq<CategoryGroup>, p: seq<Transaction>, cats: seq<CategoryType>, t: Transaction)
    requires CategoryCovers(groups, p, cats) && Known(t, cats)
    requires forall g :: 0 <= g < |groups| ==> WellFormed(groups[g])
    ensures CategoryCovers(AddToCategory(groups, t, FindCategory(cats, t.category).value), p + [t], cats)
  {
    var cat := FindCategory(cats, t.category).value;
    var after := AddToCategory(groups, t, cat);
    var f := FindCategoryGroup(groups, t.category);
    var q := p + [t];
    forall j | 0 <= j < |q| && Known(q[j], cats)
      ensures exists g :: 0 <= g < |after| && after[g].name == q[j].category
    {
      if j < |p| {
        assert q[j] == p[j];
        var h :| 0 <= h < |groups| && groups[h].name == p[j].category;
        assert after[h].name == groups[h].name;
      } else if f.None? {
        assert after[|groups|].name == t.category;
      } else {
        assert after[f.value].name == t.category;
      }
    }
  }

  lemma CategorizedStep(groups: seq<CategoryGroup>, p: seq<Transaction>, cats: seq<CategoryType>, t: Transaction)
    requires Categorized(groups, p, cats) && Known(t, cats)
    ensures Categorized(AddToCategory(groups, t, FindCategory(cats, t.category).value), p + [t], cats)
  {
    EntriesStep(groups, p, cats, t);
    MonthlyEntriesStep(groups, p, cats, t);
    CoversStep(groups, p, cats, t);
  }

  /** Every entry belongs to one known category and holds, month by month, the sum of
      that category's counted amounts; every counted transaction of a known category
      has its entry, and no category has two. */
  lemma {:induction false} CategorizeCorrect(c: seq<Transaction>, cats: seq<CategoryType>)
    ensures Categorized(Categorize(c, cats), c, cats)
  {
    if c != [] {
      var p := c[..|c| - 1];
      var t := c[|c| - 1];
      CategorizeCorrect(p, cats);
      assert c == p + [t];
      if Known(t, cats) {
        CategorizedStep(Categorize(p, cats), p, cats, t);
      } else {
        var groups := Categorize(p, cats);
        assert c[..|p|] == p;
        forall g, m | 0 <= g < |groups| && 0 <= m < Months
          ensures groups[g].monthly[m] == Sum(CashFlow.InMonth(Having(c, CategoryOf, groups[g].name), m), Amount)
        {
          MonthlyStep(p, t, groups[g].name, m);
        }
        forall g | 0 <= g < |groups| ensures Having(c, CategoryOf, groups[g].name) != [] {
          assert Having(c, CategoryOf, groups[g].name) == Having(p, CategoryOf, groups[g].name) + [];
        }
      }
    }
  }

  /** The month of the last transaction of category `name` in `p`, or -1 when it has none. */
  function LastMonth(p: seq<Transaction>, name: string): int
  {
    if p == [] then -1
    else if p[|p| - 1].category == name then p[|p| - 1].dueDate.month
    else LastMonth(p[..|p| - 1], name)
  }

  /** Each category's transactions come in non-decreasing month order. */
  predicate MonthOrdered(c: seq<Transaction>)
  {
    forall i, j :: 0 <= i < j < |c| && c[i].category == c[j].category ==> c[i].dueDate.month <= c[j].dueDate.month
  }

  /** An entry's accumulated value for month `m` is the signed prefix sum of its
      monthly values through `m`, up to its last month, and 0 after it. */
  ghost predicate AccumulatedUpToLast(groups: seq<CategoryGroup>, p: seq<Transaction>)
  {
    forall g, m :: 0 <= g < |groups| && 0 <= m < Months && WellFormed(groups[g]) ==>
      groups[g].accumulated[m] ==
        if m <= LastMonth(p, groups[g].name) then PrefixSigned(groups[g].monthly, groups[g].catType, m) else 0
  }

  lemma LastMonthBound(p: seq<Transaction>, t: Transaction)
    requires MonthOrdered(p + [t])
    ensures LastMonth(p, t.category) <= t.dueDate.month
  {
    if p != [] {
      var n := |p| - 1;
      if p[n].category != t.category {
        assert MonthOrdered(p[..n] + [t]) by {
          forall i, j | 0 <= i < j < |p[..n] + [t]| && (p[..n] + [t])[i].category == (p[..n] + [t])[j].category
            ensures (p[..n] + [t])[i].dueDate.month <= (p[..n] + [t])[j].dueDate.month
          {
            var j' := if j == n then n + 1 else j;
            assert (p[..n] + [t])[j] == (p + [t])[j'];
            assert (p[..n] + [t])[i] == (p + [t])[i];
          }
        }
        LastMonthBound(p[..n], t);
      } else {
        assert (p + [t])[n] == p[n] && (p + [t])[n + 1] == t;
      }
    }
  }

  lemma AccumulatedStep(groups: seq<CategoryGroup>, p: seq<Transaction>, cats: seq<CategoryType>, t: Transaction)
    requires Categorized(groups, p, cats) && Known(t, cats)
    requires AccumulatedUpToLast(groups, p) && MonthOrdered(p + [t])
    ensures AccumulatedUpToLast(AddToCategory(groups, t, FindCategory(cats, t.category).value), p + [t])
  {
    var cat := FindCategory(cats, t.category).value;
    var after := AddToCategory(groups, t, cat);
    var f := FindCategoryGroup(groups, t.category);
    var q := p + [t];
    assert q[..|p|] == p;
    LastMonthBound(p, t);
    forall g, m | 0 <= g < |after| && 0 <= m < Months && WellFormed(after[g])
      ensures after[g].accumulated[m] ==
        if m <= LastMonth(q, after[g].name) then PrefixSigned(after[g].monthly, after[g].catType, m) else 0
    {
      if g < |groups| && (f.None? || g != f.value) {
        assert after[g] == groups[g];
      } else if f.None? {
        assert after[g].catType == cat.catType;
      } else {
        assert groups[f.value].catType == cat.catType;
      }
    }
  }

  /** When every category's transactions arrive in month order, each entry's accumulated
      value for a month is the signed running total of its monthly values through that
      month, up to the entry's last month, and 0 for the months after it. */
  lemma {:induction false} AccumulatedInOrder(c: seq<Transaction>, cats: seq<CategoryType>)
    requires MonthOrdered(c)
    ensures AccumulatedUpToLast(Categorize(c, cats), c)
  {
    if c != [] {
      var p := c[..|c| - 1];
      var t := c[|c| - 1];
      assert c == p + [t];
      assert MonthOrdered(p);
      AccumulatedInOrder(p, cats);
      CategorizeCorrect(p, cats);
      var groups := Categorize(p, cats);
      if Known(t, cats) {
        AccumulatedStep(groups, p, cats, t);
      } else {
        forall g | 0 <= g < |groups| ensures LastMonth(c, groups[g].name) == LastMonth(p, groups[g].name) {
          assert t.category != groups[g].name;
        }
      }
    }
  }

  /** The signed prefix sums of an income vector with `v` in January and `w` in March. */
  lemma IncomePrefixes(v: int, w: int)
    ensures var monthly := Zeros()[0 := v][2 := w];
      PrefixSigned(monthly, Income, 0) == v && PrefixSigned(monthly, Income, 1) == v &&
      PrefixSigned(monthly, Income, 2) == v + w
  {
  }

  /** The entries after the first, then the second, of two transactions of the one category. */
  lemma CategorizeTwo(first: Transaction, second: Transaction, cat: CategoryType)
    requires first.category == second.category == cat.name
    ensures Categorize([first], [cat]) == AddToCategory([], first, cat)
    ensures Categorize([first, second], [cat]) == AddToCategory(AddToCategory([], first, cat), second, cat)
  {
    assert [first, second][..1] == [first];
    assert [first][..0] == [];
    assert FindCategory([cat], cat.name) == Some(cat);
  }

  /** Out of month order the accumulation goes stale: a March amount followed by a
      January amount of the same category leaves March's accumulated value without the
      January amount. */
  lemma AccumulatedOutOfOrder(march: Transaction, january: Transaction, cat: CategoryType)
    requires march.category == january.category == cat.name && cat.catType == Income
    requires march.dueDate.month == 2 && january.dueDate.month == 0
    requires march.amount == 100 && january.amount == 50
    ensures var g := Categorize([march, january], [cat])[0];
      g.accumulated[2] == 100 && PrefixSigned(g.monthly, Income, 2) == 150
  {
    CategorizeTwo(march, january, cat);
    var first := AddToCategory([], march, cat);
    var monthly := Zeros()[2 := 100];
    assert first[0].monthly == monthly;
    IncomePrefixes(0, 100);
    assert Zeros()[0 := 0][2 := 100] == monthly;
    assert first[0].accumulated[2] == 100;
    var both := AddToCategory(first, january, cat);
    assert FindCategoryGroup(first, cat.name) == Some(0);
    var monthly' := monthly[0 := 50];
    assert both[0].monthly == monthly';
    assert both[0].accumulated[2] == first[0].accumulated[2];
    IncomePrefixes(50, 100);
    assert Zeros()[0 := 50][2 := 100] == monthly';
  }

  // The accumulation as evidently intended: re-summed through the whole year

  /** One transaction added as `AddToCategory` adds it, but with every month of its
      category re-accumulated, not only the months up to the transaction's own. */
  function AddRunning(groups: seq<CategoryGroup>, t: Transaction, cat: CategoryType): (r: seq<CategoryGroup>)
    requires forall g :: 0 <= g < |groups| ==> WellFormed(groups[g])
    ensures forall g :: 0 <= g < |r| ==> WellFormed(r[g])
  {
    var f := FindCategoryGroup(groups, t.category);
    var g := if f.None? then CategoryGroup(t.category, cat.catType, cat.dreGroup, Zeros(), Zeros()) else groups[f.value];
    assert WellFormed(g);
    var k := t.dueDate.month;
    var monthly := g.monthly[k := g.monthly[k] + t.amount];
    var g' := g.(monthly := monthly, accumulated := Reaccumulate(g.accumulated, monthly, cat.catType, Months - 1));
    if f.None? then groups + [g'] else groups[f.value := g']
  }

  /** `Categorize` with the corrected accumulation. */
  function CategorizeRunning(c: seq<Transaction>, cats: seq<CategoryType>): (r: seq<CategoryGroup>)
    ensures forall g :: 0 <= g < |r| ==> WellFormed(r[g])
  {
    if c == [] then []
    else
      var prev := CategorizeRunning(c[..|c| - 1], cats);
      var t := c[|c| - 1];
      match FindCategory(cats, t.category)
      case None => prev
      case Some(cat) => AddRunning(prev, t, cat)
  }

  /** Every entry's accumulated value is the signed running total of its monthly values. */
  ghost predicate RunningTotals(groups: seq<CategoryGroup>)
  {
    forall g, m :: 0 <= g < |groups| && 0 <= m < Months && WellFormed(groups[g]) ==>
      groups[g].accumulated[m] == PrefixSigned(groups[g].monthly, groups[g].catType, m)
  }

  /** Two entry lists that agree on everything but the accumulated values. */
  ghost predicate SameButAccumulated(a: seq<CategoryGroup>, b: seq<CategoryGroup>)
  {
    |a| == |b| &&
    forall g :: 0 <= g < |a| ==>
      a[g].name == b[g].name && a[g].catType == b[g].catType && a[g].dreGroup == b[g].dreGroup &&
      a[g].monthly == b[g].monthly
  }

  lemma {:induction false} FindSameButAccumulated(a: seq<CategoryGroup>, b: seq<CategoryGroup>, name: string)
    requires SameButAccumulated(a, b)
    ensures FindCategoryGroup(a, name) == FindCategoryGroup(b, name)
  {
    if a != [] {
      var n := |a| - 1;
      assert SameButAccumulated(a[..n], b[..n]);
      FindSameButAccumulated(a[..n], b[..n], name);
    }
  }

  lemma RunningTotalsStep(prev: seq<CategoryGroup>, source: seq<CategoryGroup>, p: seq<Transaction>,
                          cats: seq<CategoryType>, t: Transaction, cat: CategoryType)
    requires RunningTotals(prev) && SameButAccumulated(prev, source) && Categorized(source, p, cats)
    requires forall g :: 0 <= g < |prev| ==> WellFormed(prev[g])
    requires FindCategory(cats, t.category) == Some(cat)
    ensures RunningTotals(AddRunning(prev, t, cat))
  {
    FindSameButAccumulated(prev, source, t.category);
    var after := AddRunning(prev, t, cat);
    var f := FindCategoryGroup(prev, t.category);
    forall g, m | 0 <= g < |after| && 0 <= m < Months && WellFormed(after[g])
      ensures after[g].accumulated[m] == PrefixSigned(after[g].monthly, after[g].catType, m)
    {
      if g < |prev| && (f.None? || g != f.value) {
        assert after[g] == prev[g];
      } else if f.None? {
        assert after[g].catType == cat.catType;
      } else {
        assert source[f.value].name == t.category;
        assert prev[f.value].catType == source[f.value].catType == cat.catType;
      }
    }
  }

  lemma SameStep(prev: seq<CategoryGroup>, source: seq<CategoryGroup>, t: Transaction, cat: CategoryType)
    requires SameButAccumulated(prev, source)
    requires forall g :: 0 <= g < |prev| ==> WellFormed(prev[g])
    requires forall g :: 0 <= g < |source| ==> WellFormed(source[g])
    ensures SameButAccumulated(AddRunning(prev, t, cat), AddToCategory(source, t, cat))
  {
    FindSameButAccumulated(prev, source, t.category);
  }

  /** Whatever the order of the transactions, the corrected accumulation gives every entry
      its running totals, and it changes nothing else: the entries, their order, their
      group and their monthly values are those the source builds. */
  lemma {:induction false} RunningInAnyOrder(c: seq<Transaction>, cats: seq<CategoryType>)
    ensures RunningTotals(CategorizeRunning(c, cats))
    ensures SameButAccumulated(CategorizeRunning(c, cats), Categorize(c, cats))
  {
    if c != [] {
      var p := c[..|c| - 1];
      var t := c[|c| - 1];
      RunningInAnyOrder(p, cats);
      match FindCategory(cats, t.category)
      case None =>
      case Some(cat) =>
        CategorizeCorrect(p, cats);
        RunningTotalsStep(CategorizeRunning(p, cats), Categorize(p, cats), p, cats, t, cat);
        SameStep(CategorizeRunning(p, cats), Categorize(p, cats), t, cat);
    }
  }

  /** The March-then-January input of `AccumulatedOutOfOrder`: corrected, March's
      accumulated value includes January's amount. */
  lemma RunningOutOfOrder(march: Transaction, january: Transaction, cat: CategoryType)
    requires march.category == january.category == cat.name && cat.catType == Income
    requires march.dueDate.month == 2 && january.dueDate.month == 0
    requires march.amount == 100 && january.amount == 50
    ensures CategorizeRunning([march, january], [cat])[0].accumulated[2] == 150
  {
    RunningInAnyOrder([march, january], [cat]);
    AccumulatedOutOfOrder(march, january, cat);
    CategorizeTwo(march, january, cat);
    CategorizeCorrect([march, january], [cat]);
    assert FindCategory([cat], cat.name) == Some(cat);
    var source := Categorize([march, january], [cat]);
    assert source[0].name == cat.name;
  }

  /** The accumulation loop over the months up to `k`. */
  method AccumulateUpTo(acc: seq<int>, monthly: seq<int>, ty: TxType, k: nat) returns (accumulated: seq<int>)
    requires |acc| == |monthly| == Months && k < Months
    ensures accumulated == Reaccumulate(acc, monthly, ty, k)
  {
    var accumulatedValue := 0;
    accumulated := acc;
    var m := 0;
    while m < Months
      invariant 0 <= m <= Months && |accumulated| == Months
      invariant accumulatedValue == (if m <= k then PrefixSigned(monthly, ty, m - 1) else PrefixSigned(monthly, ty, k))
      invariant forall j :: 0 <= j < Months ==>
        accumulated[j] == if j < m && j <= k then PrefixSigned(monthly, ty, j) else acc[j]
    {
      if m <= k {
        var monthValue := monthly[m];
        accumulatedValue := accumulatedValue + (if ty == Expense then -monthValue else monthValue);
        accumulated := accumulated[m := accumulatedValue];
      }
      m := m + 1;
    }
  }

  /** The loop body for a transaction of a known category. */
  method AddEntry(groups: seq<CategoryGroup>, t: Transaction, cat: CategoryType) returns (after: seq<CategoryGroup>)
    requires forall g :: 0 <= g < |groups| ==> WellFormed(groups[g])
    ensures after == AddToCategory(groups, t, cat)
  {
    var f := FindCategoryGroup(groups, t.category);
    var group := if f.None? then CategoryGroup(t.category, cat.catType, cat.dreGroup, Zeros(), Zeros()) else groups[f.value];
    var k := t.dueDate.month;
    group := group.(monthly := group.monthly[k := group.monthly[k] + t.amount]);
    var accumulated := AccumulateUpTo(group.accumulated, group.monthly, cat.catType, k);
    group := group.(accumulated := accumulated);
    if f.None? {
      after := groups + [group];
    } else {
      after := groups[f.value := group];
    }
  }

  /** The category-grouping loop over the counted transactions. */
  method CategoryGroups(c: seq<Transaction>, cats: seq<CategoryType>) returns (groups: seq<CategoryGroup>)
    ensures groups == Categorize(c, cats)
  {
    groups := [];
    for i := 0 to |c|
      invariant groups == Categorize(c[..i], cats)
    {
      var t := c[i];
      assert c[..i + 1][..i] == c[..i];
      var category := FindCategory(cats, t.category);
      if category.Some? {
        groups := AddEntry(groups, t, category.value);
      }
    }
    assert c[..|c|] == c;
  }

  // Grouping the categories by DRE group

  function DreKey(g: CategoryGroup): string { g.dreGroup }
  function IsIncome(g: CategoryGroup): bool { g.catType == Income }
  function IsExpense(g: CategoryGroup): bool { g.catType == Expense }

  /** The income categories, then the expense ones, each in entry order. */
  function IncomeFirst(groups: seq<CategoryGroup>): seq<CategoryGroup>
  {
    Filter(groups, IsIncome) + Filter(groups, IsExpense)
  }

  function DreGroups(groups: seq<CategoryGroup>): seq<DreBucket>
  {
    BucketBy(IncomeFirst(groups), DreKey)
  }

  lemma IncomeFirstPermutes(groups: seq<CategoryGroup>)
    ensures multiset(IncomeFirst(groups)) == multiset(groups)
  {
    FilterComplement(groups, IsIncome, IsExpense);
  }

  lemma {:induction false} HavingKeepsType(s: seq<CategoryGroup>, want: TxType, k: string)
    requires forall i :: 0 <= i < |s| ==> s[i].catType == want
    ensures forall i :: 0 <= i < |Having(s, DreKey, k)| ==> Having(s, DreKey, k)[i].catType == want
  {
    HavingMembers(s, DreKey, k);
    forall i | 0 <= i < |Having(s, DreKey, k)| ensures Having(s, DreKey, k)[i].catType == want {
      var x := Having(s, DreKey, k)[i];
      assert x in Having(s, DreKey, k);
      var j :| 0 <= j < |s| && s[j] == x;
    }
  }

  lemma {:induction false} FilterHolds(s: seq<CategoryGroup>, p: CategoryGroup -> bool)
    ensures forall i :: 0 <= i < |Filter(s, p)| ==> p(Filter(s, p)[i])
  {
    FilterMembers(s, p);
    assert forall i :: 0 <= i < |Filter(s, p)| ==> Filter(s, p)[i] in Filter(s, p);
  }

  /** Every category entry lands in exactly the bucket of its DRE group, each bucket once;
      and inside a bucket every income category precedes every expense category. */
  lemma DreGrouping(groups: seq<CategoryGroup>)
    ensures Partitioned(DreGroups(groups), IncomeFirst(groups), DreKey)
    ensures multiset(IncomeFirst(groups)) == multiset(groups)
    ensures var bs := DreGroups(groups);
      forall b, i, j :: 0 <= b < |bs| && 0 <= i < j < |bs[b].items| && bs[b].items[j].catType == Income ==>
        bs[b].items[i].catType == Income
  {
    var bs := DreGroups(groups);
    BucketByPartitions(IncomeFirst(groups), DreKey);
    IncomeFirstPermutes(groups);
    var inc := Filter(groups, IsIncome);
    var exp := Filter(groups, IsExpense);
    FilterHolds(groups, IsIncome);
    FilterHolds(groups, IsExpense);
    forall b, i, j | 0 <= b < |bs| && 0 <= i < j < |bs[b].items| && bs[b].items[j].catType == Income
      ensures bs[b].items[i].catType == Income
    {
      var k := bs[b].key;
      HavingAppend(inc, exp, DreKey, k);
      HavingKeepsType(inc, Income, k);
      HavingKeepsType(exp, Expense, k);
      var hi := Having(inc, DreKey, k);
      var he := Having(exp, DreKey, k);
      assert bs[b].items == hi + he;
      assert forall x :: |hi| <= x < |hi + he| ==> (hi + he)[x] == he[x - |hi|];
      if j < |hi| {
        assert bs[b].items[i] == hi[i];
      }
    }
  }

  /** One push loop: each category, in order, into the bucket of its DRE group. */
  method PushAll(buckets: seq<DreBucket>, items: seq<CategoryGroup>, before: seq<CategoryGroup>)
    returns (after: seq<DreBucket>)
    requires buckets == BucketBy(before, DreKey)
    ensures after == BucketBy(before + items, DreKey)
  {
    after := buckets;
    assert before + items[..0] == before;
    for j := 0 to |items|
      invariant after == BucketBy(before + items[..j], DreKey)
    {
      BucketByAppendStep(before, items, j, DreKey);
      after := Place(after, items[j], items[j].dreGroup);
    }
    assert items[..|items|] == items;
  }

  /** The two push loops: first every income category, then every expense category,
      each into the bucket of its DRE group. */
  method GroupByDre(groups: seq<CategoryGroup>) returns (buckets: seq<DreBucket>)
    ensures buckets == DreGroups(groups)
  {
    var incomes := Filter(groups, IsIncome);
    var expenses := Filter(groups, IsExpense);
    assert [] + incomes == incomes;
    buckets := PushAll([], incomes, []);
    buckets := PushAll(buckets, expenses, incomes);
  }

  // The export

  /** `accumulated.get(month) || 0`. */
  function AccumulatedAt(g: CategoryGroup, m: nat): int
  {
    if m < |g.accumulated| then g.accumulated[m] else 0
  }

  /** The sum over a bucket's categories of their accumulated values for month `m`. */
  function BucketTotal(items: seq<CategoryGroup>, m: nat): int
  {
    if items == [] then 0 else BucketTotal(items[..|items| - 1], m) + AccumulatedAt(items[|items| - 1], m)
  }

  function HeaderRow(year: int): seq<Cell>
  {
    [Label("CATEGORIA")] + seq(Months, m requires 0 <= m < Months =>
      Label(MonthNames[m] + "/" + IntToString(year) + " ACUMULADO"))
  }

  function BalanceRow(balances: seq<int>): seq<Cell>
    requires |balances| == Months
  {
    [Label("SALDO INICIAL")] + seq(Months, m requires 0 <= m < Months => Number(balances[m]))
  }

  function GroupRow(b: DreBucket): seq<Cell>
  {
    [Label(b.key)] + seq(Months, m requires 0 <= m < Months => Number(BucketTotal(b.items, m)))
  }

  function CategoryRow(g: CategoryGroup): seq<Cell>
  {
    [Label("  " + g.name)] + seq(|g.accumulated|, m requires 0 <= m < |g.accumulated| => Number(g.accumulated[m]))
  }

  function CategoryRows(items: seq<CategoryGroup>): seq<seq<Cell>>
  {
    if items == [] then [] else CategoryRows(items[..|items| - 1]) + [CategoryRow(items[|items| - 1])]
  }

  /** The rows of every bucket: its total row, then its category rows when it is expanded. */
  function BucketRows(bs: seq<DreBucket>, expanded: seq<string>): seq<seq<Cell>>
  {
    if bs == [] then []
    else
      var b := bs[|bs| - 1];
      BucketRows(bs[..|bs| - 1], expanded) + [GroupRow(b)] + (if b.key in expanded then CategoryRows(b.items) else [])
  }

  function ExportRows(year: int, balances: seq<int>, bs: seq<DreBucket>, expanded: seq<string>): seq<seq<Cell>>
    requires |balances| == Months
  {
    [HeaderRow(year), BalanceRow(balances)] + BucketRows(bs, expanded)
  }

  function RowCount(bs: seq<DreBucket>, expanded: seq<string>): nat
  {
    if bs == [] then 0
    else RowCount(bs[..|bs| - 1], expanded) + 1 + (if bs[|bs| - 1].key in expanded then |bs[|bs| - 1].items| else 0)
  }

  lemma {:induction false} CategoryRowsShape(items: seq<CategoryGroup>)
    requires forall i :: 0 <= i < |items| ==> WellFormed(items[i])
    ensures |CategoryRows(items)| == |items|
    ensures forall r :: 0 <= r < |items| ==> |CategoryRows(items)[r]| == Months + 1
  {
    if items != [] {
      CategoryRowsShape(items[..|items| - 1]);
    }
  }

  /** Every exported row has a label and twelve month cells; there is one total row per
      bucket, followed by one row per category of the expanded buckets. */
  lemma {:induction false} BucketRowsShape(bs: seq<DreBucket>, expanded: seq<string>)
    requires forall b, i :: 0 <= b < |bs| && 0 <= i < |bs[b].items| ==> WellFormed(bs[b].items[i])
    ensures |BucketRows(bs, expanded)| == RowCount(bs, expanded)
    ensures forall r :: 0 <= r < |BucketRows(bs, expanded)| ==> |BucketRows(bs, expanded)[r]| == Months + 1
  {
    if bs != [] {
      var b := bs[|bs| - 1];
      BucketRowsShape(bs[..|bs| - 1], expanded);
      CategoryRowsShape(b.items);
    }
  }

  lemma {:induction false} CategoryRowsAt(items: seq<CategoryGroup>)
    ensures |CategoryRows(items)| == |items|
    ensures forall i :: 0 <= i < |items| ==> CategoryRows(items)[i] == CategoryRow(items[i])
  {
    if items != [] {
      CategoryRowsAt(items[..|items| - 1]);
    }
  }

  lemma {:induction false} BucketRowsLength(bs: seq<DreBucket>, expanded: seq<string>)
    ensures |BucketRows(bs, expanded)| == RowCount(bs, expanded)
  {
    if bs != [] {
      BucketRowsLength(bs[..|bs| - 1], expanded);
      CategoryRowsAt(bs[|bs| - 1].items);
    }
  }

  /** Where bucket `b`'s rows sit: its total row comes after the rows of the buckets
      before it, and its category rows, when it is expanded, follow it in order. */
  lemma {:induction false} BucketAt(bs: seq<DreBucket>, expanded: seq<string>, b: nat)
    requires b < |bs|
    ensures var start := RowCount(bs[..b], expanded);
      && start + 1 + (if bs[b].key in expanded then |bs[b].items| else 0) <= |BucketRows(bs, expanded)|
      && BucketRows(bs, expanded)[start] == GroupRow(bs[b])
      && (bs[b].key in expanded ==> forall i :: 0 <= i < |bs[b].items| ==>
            BucketRows(bs, expanded)[start + 1 + i] == CategoryRow(bs[b].items[i]))
  {
    var p := bs[..|bs| - 1];
    var last := bs[|bs| - 1];
    var before := BucketRows(p, expanded);
    var tail := if last.key in expanded then CategoryRows(last.items) else [];
    var rows := BucketRows(bs, expanded);
    assert rows == before + [GroupRow(last)] + tail;
    BucketRowsLength(p, expanded);
    CategoryRowsAt(last.items);
    if b < |p| {
      BucketAt(p, expanded, b);
      assert bs[..b] == p[..b];
      assert bs[b] == p[b];
      assert forall k :: 0 <= k < |before| ==> rows[k] == before[k];
    } else {
      assert bs[..b] == p;
    }
  }

  /** The export starts with the header and the balance row holding the twelve running
      balances, and then holds the buckets' rows. */
  lemma ExportContents(year: int, balances: seq<int>, bs: seq<DreBucket>, expanded: seq<string>)
    requires |balances| == Months
    ensures var rows := ExportRows(year, balances, bs, expanded);
      && rows[0][0] == Label("CATEGORIA")
      && rows[1][0] == Label("SALDO INICIAL")
      && (forall m :: 0 <= m < Months ==> rows[1][m + 1] == Number(balances[m]))
      && rows[2..] == BucketRows(bs, expanded)
      && |rows| == 2 + RowCount(bs, expanded)
  {
    BucketRowsLength(bs, expanded);
  }

  lemma GroupRowCells(b: DreBucket)
    ensures |GroupRow(b)| == Months + 1 && GroupRow(b)[0] == Label(b.key)
    ensures forall m :: 0 <= m < Months ==> GroupRow(b)[m + 1] == Number(BucketTotal(b.items, m))
  {
  }

  /** In the export's bucket rows, a bucket's total row is labelled with its DRE group and
      holds, for each month, the sum of its categories' accumulated values. */
  lemma ExportTotals(bs: seq<DreBucket>, expanded: seq<string>)
    ensures forall b :: 0 <= b < |bs| ==>
      var total := RowCount(bs[..b], expanded);
      && total < |BucketRows(bs, expanded)| && |BucketRows(bs, expanded)[total]| == Months + 1
      && BucketRows(bs, expanded)[total][0] == Label(bs[b].key)
      && forall m :: 0 <= m < Months ==> BucketRows(bs, expanded)[total][m + 1] == Number(BucketTotal(bs[b].items, m))
  {
    forall b | 0 <= b < |bs|
      ensures var total := RowCount(bs[..b], expanded);
        && total < |BucketRows(bs, expanded)| && |BucketRows(bs, expanded)[total]| == Months + 1
        && BucketRows(bs, expanded)[total][0] == Label(bs[b].key)
        && forall m :: 0 <= m < Months ==> BucketRows(bs, expanded)[total][m + 1] == Number(BucketTotal(bs[b].items, m))
    {
      BucketAt(bs, expanded, b);
      GroupRowCells(bs[b]);
    }
  }

  /** In the export's bucket rows, an expanded bucket's category rows follow its total
      row, one per category in order. */
  lemma ExportCategoryRows(bs: seq<DreBucket>, expanded: seq<string>)
    ensures forall b :: 0 <= b < |bs| && bs[b].key in expanded ==>
      var start := RowCount(bs[..b], expanded);
      && start + 1 + |bs[b].items| <= |BucketRows(bs, expanded)|
      && forall i :: 0 <= i < |bs[b].items| ==> BucketRows(bs, expanded)[start + 1 + i] == CategoryRow(bs[b].items[i])
  {
    forall b | 0 <= b < |bs| && bs[b].key in expanded
      ensures var start := RowCount(bs[..b], expanded);
        && start + 1 + |bs[b].items| <= |BucketRows(bs, expanded)|
        && forall i :: 0 <= i < |bs[b].items| ==> BucketRows(bs, expanded)[start + 1 + i] == CategoryRow(bs[b].items[i])
    {
      BucketAt(bs, expanded, b);
    }
  }

  /** The view's data: opening balance, the twelve running balances and the DRE buckets. */
  method MonthlyData(s: seq<Transaction>, accounts: seq<BankAccount>, cats: seq<CategoryType>, year: int, account: string)
    returns (seed: int, balances: seq<int>, buckets: seq<DreBucket>)
    ensures seed == Seed(accounts, account)
    ensures |balances| == Months
    ensures forall i :: 0 <= i < Months ==>
      balances[i] == seed + Net(UpToMonth(CountedOf(s, year, account), i))
    ensures buckets == DreGroups(Categorize(CountedOf(s, year, account), cats))
  {
    seed := Seed(accounts, account);
    var counted := CountedOf(s, year, account);
    balances := Balances(seed, counted, Months);
    BalancesCumulative(seed, counted, Months);
    var groups := CategoryGroups(counted, cats);
    buckets := GroupByDre(groups);
  }
}
