/** The income statement (src/components/DRE.tsx): the year's reconciled transactions
    summed per income-statement group, per category and per month, and the result
    lines computed from the group totals month by month. */
module Dre {
  import opened Wrappers
  import opened Types
  import opened Folds
  import opened Records
  import Ledger

  const Months: nat := 12

  /** The thirteen groups in the order the statement lists them. */
  const Groups: seq<DreGroup> := [
    ReceitaBruta, Impostos, DeducaoReceita, CustosCmv, CustosCpv, CustosServicos,
    DespesasAdministrativas, DespesasPessoal, DespesasVariaveis, OutrasReceitas,
    ReceitasFinanceiras, DespesasFinanceiras, Investimentos]

  /** The position of a group in `Groups` (its `order` minus one). */
  function Order(g: DreGroup): (r: nat)
    ensures r < |Groups| && Groups[r] == g
  {
    match g
    case ReceitaBruta => 0
    case Impostos => 1
    case DeducaoReceita => 2
    case CustosCmv => 3
    case CustosCpv => 4
    case CustosServicos => 5
    case DespesasAdministrativas => 6
    case DespesasPessoal => 7
    case DespesasVariaveis => 8
    case OutrasReceitas => 9
    case ReceitasFinanceiras => 10
    case DespesasFinanceiras => 11
    case Investimentos => 12
  }

  /** `Order` inverts `Groups`: the thirteen groups are distinct. */
  lemma OrderIndex(i: nat)
    requires i < |Groups|
    ensures Order(Groups[i]) == i
  {
  }

  /** The `type` the group table gives each group. */
  function GroupType(g: DreGroup): TxType
  {
    if g == ReceitaBruta || g == OutrasReceitas || g == ReceitasFinanceiras then Income else Expense
  }

  /** Per-category monthly totals, created the first time a category is met. */
  datatype CategoryTotals = CategoryTotals(name: string, totals: seq<int>)

  /** A group with its categories in order of first appearance and its monthly totals. */
  datatype GroupData = GroupData(group: DreGroup, categories: seq<CategoryTotals>, totals: seq<int>)

  function EntryName(c: CategoryTotals): string { c.name }

  /** Every category entry has twelve months. */
  predicate AllMonths(cs: seq<CategoryTotals>)
  {
    forall c :: 0 <= c < |cs| ==> |cs[c].totals| == Months
  }

  /** A group's entry: its group, and twelve months in its totals and in every category. */
  predicate GroupShaped(d: GroupData, g: DreGroup)
  {
    d.group == g && |d.totals| == Months && AllMonths(d.categories)
  }

  /** One entry per group, in table order. */
  predicate Shaped(data: seq<GroupData>)
  {
    |data| == |Groups| && forall i :: 0 <= i < |data| ==> GroupShaped(data[i], Groups[i])
  }

  function Zeros(): (r: seq<int>)
    ensures |r| == Months && forall m :: 0 <= m < Months ==> r[m] == 0
  {
    seq(Months, _ => 0)
  }

  function EmptyGroup(g: DreGroup): (r: GroupData)
    ensures GroupShaped(r, g)
  {
    GroupData(g, [], Zeros())
  }

  /** Every group present, with no categories and zero in every month. */
  function Initial(): (r: seq<GroupData>)
    ensures Shaped(r)
    ensures forall i :: 0 <= i < |r| ==> r[i].categories == [] && r[i].totals == Zeros()
  {
    seq(|Groups|, i requires 0 <= i < |Groups| => EmptyGroup(Groups[i]))
  }

  /** Only reconciled transactions of the selected competence year are aggregated. */
  predicate Counted(t: Transaction, year: int)
  {
    t.reconciled && t.competenceDate.year == year
  }

  function YearTransactions(ts: seq<Transaction>, year: int): seq<Transaction>
  {
    Filter(ts, (t: Transaction) => Counted(t, year))
  }

  /** The named category exists and its stored group is `g`. */
  predicate InGroup(cats: seq<CategoryType>, name: string, g: DreGroup)
  {
    FindCategory(cats, name).Some? && ParseGroup(FindCategory(cats, name).value.dreGroup) == Some(g)
  }

  /** The group a transaction lands in: that of the first category with its name, when
      the category exists and its stored group is one of the thirteen. */
  function GroupOf(t: Transaction, cats: seq<CategoryType>): (r: Option<DreGroup>)
    ensures forall g :: r == Some(g) <==> InGroup(cats, t.category, g)
  {
    match FindCategory(cats, t.category)
    case None => None
    case Some(c) => ParseGroup(c.dreGroup)
  }

  /** A monthly vector with `a` added to month `m`. */
  function Bumped(v: seq<int>, m: nat, a: int): (r: seq<int>)
    requires m < |v|
    ensures |r| == |v| && r[m] == v[m] + a
    ensures forall k :: 0 <= k < |v| && k != m ==> r[k] == v[k]
  {
    v[m := v[m] + a]
  }

  /** The category list after one amount: the entry with the name gets it, created with
      zeros at the end when missing. */
  function AddToCategories(cs: seq<CategoryTotals>, name: string, m: Month, a: int): (r: seq<CategoryTotals>)
    requires AllMonths(cs)
    ensures AllMonths(r)
  {
    var found := IndexOf(cs, EntryName, name);
    var entries := if found.None? then cs + [CategoryTotals(name, Zeros())] else cs;
    var ci := if found.None? then |cs| else found.value;
    entries[ci := entries[ci].(totals := Bumped(entries[ci].totals, m, a))]
  }

  function AddToGroup(d: GroupData, name: string, m: Month, a: int): (r: GroupData)
    requires GroupShaped(d, d.group)
    ensures GroupShaped(r, d.group)
    ensures r.totals == Bumped(d.totals, m, a)
  {
    d.(categories := AddToCategories(d.categories, name, m, a), totals := Bumped(d.totals, m, a))
  }

  /** One transaction: its category entry is created when missing, and its amount, as
      it is stored, is added to the category's and to the group's competence month. */
  function Add(data: seq<GroupData>, t: Transaction, cats: seq<CategoryType>): (r: seq<GroupData>)
    requires Shaped(data)
    ensures Shaped(r)
  {
    match GroupOf(t, cats)
    case None => data
    case Some(g) =>
      var gi := Order(g);
      data[gi := AddToGroup(data[gi], t.category, t.competenceDate.month, t.amount)]
  }

  function Aggregate(p: seq<Transaction>, cats: seq<CategoryType>): (r: seq<GroupData>)
    ensures Shaped(r)
  {
    if p == [] then Initial() else Add(Aggregate(p[..|p| - 1], cats), p[|p| - 1], cats)
  }

  /** The statement's group and category data for a year. */
  function DreData(ts: seq<Transaction>, cats: seq<CategoryType>, year: int): (r: seq<GroupData>)
    ensures Shaped(r)
  {
    Aggregate(YearTransactions(ts, year), cats)
  }

  /** Every group entered with no categories and zero months. */
  method InitialGroups() returns (data: seq<GroupData>)
    ensures data == Initial()
  {
    data := [];
    for i := 0 to |Groups|
      invariant data == Initial()[..i]
    {
      data := data + [EmptyGroup(Groups[i])];
    }
  }

  /** The body of the callback for the group found: the category's entry (created with
      zeros when missing) and the group's month each get the amount. */
  method AddToEntry(d: GroupData, name: string, m: Month, a: int) returns (updated: GroupData)
    requires GroupShaped(d, d.group)
    ensures updated == AddToGroup(d, name, m, a)
  {
    var categories := d.categories;
    var ci := IndexOf(categories, EntryName, name);
    if ci.None? {
      categories := categories + [CategoryTotals(name, Zeros())];
      ci := Some(|categories| - 1);
    }
    var c := categories[ci.value];
    c := c.(totals := c.totals[m := c.totals[m] + a]);
    categories := categories[ci.value := c];
    updated := d.(categories := categories, totals := d.totals[m := d.totals[m] + a]);
  }

  /** The `forEach` callback: one transaction of the year into the group table. */
  method AddTransaction(data: seq<GroupData>, t: Transaction, categoryTypes: seq<CategoryType>)
    returns (updated: seq<GroupData>)
    requires Shaped(data)
    ensures updated == Add(data, t, categoryTypes)
  {
    updated := data;
    var category := FindCategory(categoryTypes, t.category);
    if category.None? {
      AddSkipped(data, t, categoryTypes);
      return;
    }
    var group := ParseGroup(category.value.dreGroup);
    if group.None? {
      AddSkipped(data, t, categoryTypes);
      return;
    }
    var gi := Order(group.value);
    var d := AddToEntry(data[gi], category.value.name, t.competenceDate.month, t.amount);
    updated := data[gi := d];
    AddFound(data, t, categoryTypes, group.value);
  }

  /** The loop that fills the group table: the groups first, then one transaction of the
      year at a time. */
  method BuildDreData(transactions: seq<Transaction>, categoryTypes: seq<CategoryType>, selectedYear: int)
    returns (data: seq<GroupData>)
    ensures data == DreData(transactions, categoryTypes, selectedYear)
  {
    data := InitialGroups();
    var yearTransactions := YearTransactions(transactions, selectedYear);
    for i := 0 to |yearTransactions|
      invariant data == Aggregate(yearTransactions[..i], categoryTypes)
    {
      data := AddTransaction(data, yearTransactions[i], categoryTypes);
      AggregateStep(yearTransactions, i, categoryTypes);
    }
    assert yearTransactions[..|yearTransactions|] == yearTransactions;
  }

  lemma AggregateStep(p: seq<Transaction>, i: nat, cats: seq<CategoryType>)
    requires i < |p|
    ensures Aggregate(p[..i + 1], cats) == Add(Aggregate(p[..i], cats), p[i], cats)
  {
    assert p[..i + 1][..i] == p[..i];
  }

  /** A transaction whose category has one of the thirteen groups goes to that group. */
  lemma AddFound(data: seq<GroupData>, t: Transaction, cats: seq<CategoryType>, g: DreGroup)
    requires Shaped(data) && InGroup(cats, t.category, g)
    ensures Add(data, t, cats) == data[Order(g) := AddToGroup(data[Order(g)], t.category, t.competenceDate.month, t.amount)]
  {
  }

  lemma AddSkipped(data: seq<GroupData>, t: Transaction, cats: seq<CategoryType>)
    requires Shaped(data)
    requires FindCategory(cats, t.category).None? || ParseGroup(FindCategory(cats, t.category).value.dreGroup).None?
    ensures Add(data, t, cats) == data
  {
  }

  // What the group and category totals hold

  /** A contribution counted only in the transaction's competence month. */
  function InMonth(y: Transaction -> int, m: int): Transaction -> int
  {
    (t: Transaction) => if t.competenceDate.month == m then y(t) else 0
  }

  /** A transaction's contribution to a group's row: its amount, whatever its type. */
  function GroupYearAmount(cats: seq<CategoryType>, g: DreGroup): Transaction -> int
  {
    (t: Transaction) => if GroupOf(t, cats) == Some(g) then t.amount else 0
  }

  function GroupAmount(cats: seq<CategoryType>, g: DreGroup, m: int): Transaction -> int
  {
    InMonth(GroupYearAmount(cats, g), m)
  }

  function CategoryAmount(name: string, m: int): Transaction -> int
  {
    (t: Transaction) => if t.category == name && t.competenceDate.month == m then t.amount else 0
  }

  /** Month `m` of a category entry, read from a list of entries. */
  function CategoryMonth(m: int): CategoryTotals -> int
  {
    (c: CategoryTotals) => if 0 <= m < |c.totals| then c.totals[m] else 0
  }

  /** The change `Add` makes to every group total. */
  lemma AddGroupTotals(data: seq<GroupData>, t: Transaction, cats: seq<CategoryType>)
    requires Shaped(data)
    ensures forall i, m :: 0 <= i < |Groups| && 0 <= m < Months ==>
      Add(data, t, cats)[i].totals[m] == data[i].totals[m] + GroupAmount(cats, Groups[i], m)(t)
  {
    var r := Add(data, t, cats);
    forall i, m | 0 <= i < |Groups| && 0 <= m < Months
      ensures r[i].totals[m] == data[i].totals[m] + GroupAmount(cats, Groups[i], m)(t)
    {
      AddAt(data, t, cats, i);
    }
  }

  /** Month `m` of group `i` is the sum of the amounts of the transactions of that group
      and competence month; other transactions add nothing. */
  lemma {:induction false} GroupTotals(p: seq<Transaction>, cats: seq<CategoryType>)
    ensures forall i, m :: 0 <= i < |Groups| && 0 <= m < Months ==>
      Aggregate(p, cats)[i].totals[m] == Sum(p, GroupAmount(cats, Groups[i], m))
  {
    if p != [] {
      var q, t := p[..|p| - 1], p[|p| - 1];
      GroupTotals(q, cats);
      AddGroupTotals(Aggregate(q, cats), t, cats);
      assert q + [t] == p;
      forall i, m | 0 <= i < |Groups| && 0 <= m < Months {
        SumAfter(q, t, GroupAmount(cats, Groups[i], m));
      }
    }
  }

  /** With non-negative amounts no group total is negative: expenses are added as
      magnitudes, not subtracted. */
  lemma TotalsNonNegative(p: seq<Transaction>, cats: seq<CategoryType>, i: nat, m: nat)
    requires Ledger.NonNegativeAmounts(p)
    requires i < |Groups| && m < Months
    ensures Aggregate(p, cats)[i].totals[m] >= 0
  {
    GroupTotals(p, cats);
    var f := GroupAmount(cats, Groups[i], m);
    forall j | 0 <= j < |p| ensures f(p[j]) >= 0 {
    }
    SumNonNegative(p, f);
  }

  /** A category entry of group `g`: a category of that group whose month `m` holds the
      amounts of its transactions of that month. */
  ghost predicate EntryHolds(e: CategoryTotals, g: DreGroup, p: seq<Transaction>, cats: seq<CategoryType>)
  {
    && |e.totals| == Months
    && InGroup(cats, e.name, g)
    && forall m :: 0 <= m < Months ==> e.totals[m] == Sum(p, CategoryAmount(e.name, m))
  }

  /** The entries of group `g` hold, under distinct names, and a category of the group
      without an entry has nothing to show. */
  ghost predicate EntriesHold(cs: seq<CategoryTotals>, g: DreGroup, p: seq<Transaction>, cats: seq<CategoryType>)
  {
    && (forall c :: 0 <= c < |cs| ==> EntryHolds(cs[c], g, p, cats))
    && (forall c1, c2 :: 0 <= c1 < c2 < |cs| ==> cs[c1].name != cs[c2].name)
    && (forall n, m :: InGroup(cats, n, g) && IndexOf(cs, EntryName, n).None? && 0 <= m < Months ==>
          Sum(p, CategoryAmount(n, m)) == 0)
  }

  /** Month `m` of a group is the sum of month `m` over its categories. */
  ghost predicate SplitHolds(d: GroupData)
  {
    |d.totals| == Months && forall m :: 0 <= m < Months ==> d.totals[m] == Sum(d.categories, CategoryMonth(m))
  }

  lemma EntryOther(e: CategoryTotals, g: DreGroup, p: seq<Transaction>, cats: seq<CategoryType>, t: Transaction)
    requires EntryHolds(e, g, p, cats) && e.name != t.category
    ensures EntryHolds(e, g, p + [t], cats)
  {
    forall m | 0 <= m < Months {
      SumAfter(p, t, CategoryAmount(e.name, m));
    }
  }

  lemma EntryBumped(e: CategoryTotals, g: DreGroup, p: seq<Transaction>, cats: seq<CategoryType>, t: Transaction)
    requires EntryHolds(e, g, p, cats) && e.name == t.category
    ensures EntryHolds(e.(totals := Bumped(e.totals, t.competenceDate.month, t.amount)), g, p + [t], cats)
  {
    forall m | 0 <= m < Months {
      SumAfter(p, t, CategoryAmount(e.name, m));
    }
  }

  /** A group the transaction does not land in keeps its entries. */
  lemma EntriesOther(cs: seq<CategoryTotals>, g: DreGroup, p: seq<Transaction>, cats: seq<CategoryType>, t: Transaction)
    requires EntriesHold(cs, g, p, cats) && GroupOf(t, cats) != Some(g)
    ensures EntriesHold(cs, g, p + [t], cats)
  {
    forall c | 0 <= c < |cs| ensures EntryHolds(cs[c], g, p + [t], cats) {
      EntryOther(cs[c], g, p, cats, t);
    }
    forall n, m | InGroup(cats, n, g) && IndexOf(cs, EntryName, n).None? && 0 <= m < Months
      ensures Sum(p + [t], CategoryAmount(n, m)) == 0
    {
      SumAfter(p, t, CategoryAmount(n, m));
    }
  }

  /** A name without an entry after the transaction had none before, and is not the
      transaction's category. */
  lemma MissingAfterAdd(cs: seq<CategoryTotals>, name: string, m: Month, a: int, n: string)
    requires AllMonths(cs) && IndexOf(AddToCategories(cs, name, m, a), EntryName, n).None?
    ensures IndexOf(cs, EntryName, n).None? && n != name
  {
    var r := AddToCategories(cs, name, m, a);
    var found := IndexOf(cs, EntryName, name);
    var ci := if found.None? then |cs| else found.value;
    assert r[ci].name == name;
    forall c | 0 <= c < |cs| ensures cs[c].name != n {
      assert r[c].name == cs[c].name;
    }
  }

  /** The group the transaction lands in: its entry gets the amount, every other entry
      keeps its months. */
  lemma EntriesAdded(cs: seq<CategoryTotals>, g: DreGroup, p: seq<Transaction>, cats: seq<CategoryType>, t: Transaction)
    requires AllMonths(cs) && EntriesHold(cs, g, p, cats) && GroupOf(t, cats) == Some(g)
    ensures EntriesHold(AddToCategories(cs, t.category, t.competenceDate.month, t.amount), g, p + [t], cats)
  {
    var r := AddToCategories(cs, t.category, t.competenceDate.month, t.amount);
    var found := IndexOf(cs, EntryName, t.category);
    var entries := if found.None? then cs + [CategoryTotals(t.category, Zeros())] else cs;
    var ci := if found.None? then |cs| else found.value;
    assert r == entries[ci := entries[ci].(totals := Bumped(entries[ci].totals, t.competenceDate.month, t.amount))];
    if found.None? {
      forall m | 0 <= m < Months ensures Zeros()[m] == Sum(p, CategoryAmount(t.category, m)) {
      }
    }
    assert EntryHolds(entries[ci], g, p, cats);
    forall c | 0 <= c < |r| ensures EntryHolds(r[c], g, p + [t], cats) {
      if c == ci {
        EntryBumped(entries[ci], g, p, cats, t);
      } else {
        EntryOther(cs[c], g, p, cats, t);
      }
    }
    forall n, m | InGroup(cats, n, g) && IndexOf(r, EntryName, n).None? && 0 <= m < Months
      ensures Sum(p + [t], CategoryAmount(n, m)) == 0
    {
      MissingAfterAdd(cs, t.category, t.competenceDate.month, t.amount, n);
      SumAfter(p, t, CategoryAmount(n, m));
    }
  }

  lemma SplitAdded(d: GroupData, name: string, m: Month, a: int)
    requires GroupShaped(d, d.group) && SplitHolds(d)
    ensures SplitHolds(AddToGroup(d, name, m, a))
  {
    var cs := d.categories;
    var found := IndexOf(cs, EntryName, name);
    var entries := if found.None? then cs + [CategoryTotals(name, Zeros())] else cs;
    var ci := if found.None? then |cs| else found.value;
    var e := entries[ci].(totals := Bumped(entries[ci].totals, m, a));
    assert AddToCategories(cs, name, m, a) == entries[ci := e];
    forall k | 0 <= k < Months
      ensures Bumped(d.totals, m, a)[k] == Sum(entries[ci := e], CategoryMonth(k))
    {
      if found.None? {
        SumAfter(cs, CategoryTotals(name, Zeros()), CategoryMonth(k));
      }
      SumUpdate(entries, ci, e, CategoryMonth(k));
    }
  }

  /** Every group's entries and split hold after each transaction. */
  ghost predicate CategoriesHold(data: seq<GroupData>, p: seq<Transaction>, cats: seq<CategoryType>)
    requires Shaped(data)
  {
    forall i :: 0 <= i < |Groups| ==> EntriesHold(data[i].categories, Groups[i], p, cats) && SplitHolds(data[i])
  }

  /** Group `g`'s entry after a transaction: changed only when the transaction lands there. */
  function GroupAfter(d: GroupData, g: DreGroup, t: Transaction, cats: seq<CategoryType>): GroupData
    requires GroupShaped(d, d.group)
  {
    if GroupOf(t, cats) == Some(g) then AddToGroup(d, t.category, t.competenceDate.month, t.amount) else d
  }

  lemma AddAt(data: seq<GroupData>, t: Transaction, cats: seq<CategoryType>, i: nat)
    requires Shaped(data) && i < |Groups|
    ensures GroupShaped(data[i], data[i].group)
    ensures Add(data, t, cats)[i] == GroupAfter(data[i], Groups[i], t, cats)
  {
    assert GroupShaped(data[i], Groups[i]);
    match GroupOf(t, cats)
    case None =>
    case Some(g) =>
      if g == Groups[i] {
        OrderIndex(i);
      } else {
        assert Order(g) != i;
      }
  }

  /** One group's entries and split after a transaction. */
  lemma GroupStep(d: GroupData, g: DreGroup, p: seq<Transaction>, cats: seq<CategoryType>, t: Transaction)
    requires GroupShaped(d, d.group)
    requires EntriesHold(d.categories, g, p, cats) && SplitHolds(d)
    ensures EntriesHold(GroupAfter(d, g, t, cats).categories, g, p + [t], cats)
    ensures SplitHolds(GroupAfter(d, g, t, cats))
  {
    if GroupOf(t, cats) == Some(g) {
      EntriesAdded(d.categories, g, p, cats, t);
      SplitAdded(d, t.category, t.competenceDate.month, t.amount);
    } else {
      EntriesOther(d.categories, g, p, cats, t);
    }
  }

  lemma CategoriesStep(data: seq<GroupData>, p: seq<Transaction>, cats: seq<CategoryType>, t: Transaction)
    requires Shaped(data) && CategoriesHold(data, p, cats)
    ensures CategoriesHold(Add(data, t, cats), p + [t], cats)
  {
    var r := Add(data, t, cats);
    forall i | 0 <= i < |Groups|
      ensures EntriesHold(r[i].categories, Groups[i], p + [t], cats) && SplitHolds(r[i])
    {
      AddAt(data, t, cats, i);
      GroupStep(data[i], Groups[i], p, cats, t);
    }
  }

  lemma {:induction false} AggregateCategories(p: seq<Transaction>, cats: seq<CategoryType>)
    ensures CategoriesHold(Aggregate(p, cats), p, cats)
  {
    if p != [] {
      var q := p[..|p| - 1];
      AggregateCategories(q, cats);
      CategoriesStep(Aggregate(q, cats), q, cats, p[|p| - 1]);
      assert q + [p[|p| - 1]] == p;
    }
  }

  /** Per month, a group's total is the sum of its categories' totals; each category
      entry, under a name of its own, is a category of that group and sums the amounts
      of its transactions of the month; a category of the group without an entry has
      nothing to show. */
  lemma Categories(ts: seq<Transaction>, cats: seq<CategoryType>, year: int, i: nat, m: nat)
    requires i < |Groups| && m < Months
    ensures var d := DreData(ts, cats, year)[i];
      && d.totals[m] == Sum(d.categories, CategoryMonth(m))
      && (forall c :: 0 <= c < |d.categories| ==>
           && InGroup(cats, d.categories[c].name, Groups[i])
           && d.categories[c].totals[m] == Sum(YearTransactions(ts, year), CategoryAmount(d.categories[c].name, m)))
      && (forall c1, c2 :: 0 <= c1 < c2 < |d.categories| ==> d.categories[c1].name != d.categories[c2].name)
      && (forall n :: InGroup(cats, n, Groups[i]) && IndexOf(d.categories, EntryName, n).None? ==>
           Sum(YearTransactions(ts, year), CategoryAmount(n, m)) == 0)
  {
    AggregateCategories(YearTransactions(ts, year), cats);
  }

  /** A transaction outside the selected year, not reconciled, of an unknown category or
      of a category whose group is none of the thirteen leaves the statement as it was. */
  lemma Skipped(ts: seq<Transaction>, cats: seq<CategoryType>, year: int, t: Transaction)
    requires !Counted(t, year) || FindCategory(cats, t.category).None? ||
             ParseGroup(FindCategory(cats, t.category).value.dreGroup).None?
    ensures DreData(ts + [t], cats, year) == DreData(ts, cats, year)
  {
    assert (ts + [t])[..|ts|] == ts;
    var p := YearTransactions(ts, year);
    if Counted(t, year) {
      assert YearTransactions(ts + [t], year) == p + [t];
      assert (p + [t])[..|p|] == p;
    } else {
      assert YearTransactions(ts + [t], year) == p;
    }
  }

  // The result lines

  datatype Line =
    | ReceitaLiquida | LucroBruto | ResultadoOperacional | Ebitda
    | ResultadoFinanceiro | LucroAntesImpostos | LucroLiquido | ResultadoFinal

  /** The monthly values of the computed lines. */
  datatype Results = Results(
    receitaLiquida: seq<int>, lucroBruto: seq<int>, resultadoOperacional: seq<int>, ebitda: seq<int>,
    resultadoFinanceiro: seq<int>, lucroAntesImpostos: seq<int>, lucroLiquido: seq<int>,
    resultadoFinal: seq<int>)

  function Value(r: Results, l: Line): seq<int>
  {
    match l
    case ReceitaLiquida => r.receitaLiquida
    case LucroBruto => r.lucroBruto
    case ResultadoOperacional => r.resultadoOperacional
    case Ebitda => r.ebitda
    case ResultadoFinanceiro => r.resultadoFinanceiro
    case LucroAntesImpostos => r.lucroAntesImpostos
    case LucroLiquido => r.lucroLiquido
    case ResultadoFinal => r.resultadoFinal
  }

  /** The lines, month by month, from the group totals: net revenue, gross profit,
      operating result (also shown as EBITDA), financial result, profit before taxes
      (also shown as net profit) and the final result after investments. */
  function Calculated(data: seq<GroupData>): (r: Results)
    requires Sized(data)
    ensures |r.resultadoFinal| == Months
  {
    var rb, imp, ded := data[0].totals, data[1].totals, data[2].totals;
    var cmv, cpv, serv := data[3].totals, data[4].totals, data[5].totals;
    var adm, pes, vars := data[6].totals, data[7].totals, data[8].totals;
    var outras, recFin, despFin, inv := data[9].totals, data[10].totals, data[11].totals, data[12].totals;
    var rl := seq(Months, m requires 0 <= m < Months => rb[m] - imp[m] - ded[m]);
    var lb := seq(Months, m requires 0 <= m < Months => rl[m] - cmv[m] - cpv[m] - serv[m]);
    var ro := seq(Months, m requires 0 <= m < Months => lb[m] - adm[m] - pes[m] - vars[m]);
    var rf := seq(Months, m requires 0 <= m < Months => recFin[m] - despFin[m]);
    var lai := seq(Months, m requires 0 <= m < Months => ro[m] + rf[m] + outras[m]);
    var final := seq(Months, m requires 0 <= m < Months => lai[m] - inv[m]);
    Results(rl, lb, ro, ro, rf, lai, lai, final)
  }

  /** Whether a line is computed from the group at position `i` of `Groups`. */
  predicate Feeds(i: nat, l: Line)
  {
    match l
    case ReceitaLiquida => i <= 2
    case LucroBruto => i <= 5
    case ResultadoOperacional => i <= 8
    case Ebitda => i <= 8
    case ResultadoFinanceiro => i == 10 || i == 11
    case LucroAntesImpostos => i <= 11
    case LucroLiquido => i <= 11
    case ResultadoFinal => i <= 12
  }

  /** How the group at position `i` enters a line: added for the three income groups,
      subtracted for the others, not at all when the line is not computed from it. */
  function Coefficient(i: nat, l: Line): int
  {
    if !Feeds(i, l) then 0 else if i == 0 || i == 9 || i == 10 then 1 else -1
  }

  /** A group's value as it enters a line. */
  function Weighted(i: nat, l: Line, v: int): int
  {
    if !Feeds(i, l) then 0 else if i == 0 || i == 9 || i == 10 then v else -v
  }

  lemma WeightedLinear(i: nat, l: Line, v: int, w: int)
    ensures Weighted(i, l, v + w) == Weighted(i, l, v) + Weighted(i, l, w)
    ensures Weighted(i, l, v) == Coefficient(i, l) * v
  {
  }

  /** The groups that are added are exactly those the group table types as income. */
  lemma CoefficientSign(g: DreGroup, l: Line)
    requires Feeds(Order(g), l)
    ensures Coefficient(Order(g), l) == (if GroupType(g) == Income then 1 else -1)
  {
  }

  /** Thirteen entries, each with twelve monthly totals. */
  predicate Sized(data: seq<GroupData>)
  {
    |data| == |Groups| && forall j :: 0 <= j < |data| ==> |data[j].totals| == Months
  }

  /** A line as a weighted sum of the first `n` group totals of month `m`. */
  function CombinedUpTo(data: seq<GroupData>, l: Line, m: nat, n: nat): int
    requires Sized(data) && m < Months && n <= |Groups|
  {
    if n == 0 then 0 else CombinedUpTo(data, l, m, n - 1) + Weighted(n - 1, l, data[n - 1].totals[m])
  }

  /** A line as a weighted sum of the thirteen group totals of month `m`. */
  function Combined(data: seq<GroupData>, l: Line, m: nat): int
    requires Sized(data) && m < Months
  {
    CombinedUpTo(data, l, m, |Groups|)
  }

  /** Each line has twelve months, and month `m` adds its income groups and subtracts
      its expense groups; EBITDA equals the operating result and net profit equals the
      profit before taxes. */
  lemma Cascade(data: seq<GroupData>, l: Line, m: nat)
    requires Sized(data) && m < Months
    ensures |Value(Calculated(data), l)| == Months
    ensures Value(Calculated(data), l)[m] == Combined(data, l, m)
  {
    var r := Calculated(data);
    var v := seq(|Groups|, j requires 0 <= j < |Groups| => data[j].totals[m]);
    assert r.receitaLiquida[m] == v[0] - v[1] - v[2];
    assert r.lucroBruto[m] == r.receitaLiquida[m] - v[3] - v[4] - v[5];
    assert r.resultadoOperacional[m] == r.lucroBruto[m] - v[6] - v[7] - v[8];
    assert r.resultadoFinanceiro[m] == v[10] - v[11];
    assert r.lucroAntesImpostos[m] == r.resultadoOperacional[m] + r.resultadoFinanceiro[m] + v[9];
    assert r.resultadoFinal[m] == r.lucroAntesImpostos[m] - v[12];
    CombinedExpanded(data, l, m);
    match l
    case ReceitaLiquida =>
    case LucroBruto =>
    case ResultadoOperacional =>
    case Ebitda =>
    case ResultadoFinanceiro =>
    case LucroAntesImpostos =>
    case LucroLiquido =>
    case ResultadoFinal =>
  }

  /** The weighted sum written out over the thirteen groups. */
  lemma CombinedExpanded(data: seq<GroupData>, l: Line, m: nat)
    requires Sized(data) && m < Months
    ensures Combined(data, l, m) ==
      Weighted(0, l, data[0].totals[m]) + Weighted(1, l, data[1].totals[m]) + Weighted(2, l, data[2].totals[m]) + Weighted(3, l, data[3].totals[m])
      + Weighted(4, l, data[4].totals[m]) + Weighted(5, l, data[5].totals[m]) + Weighted(6, l, data[6].totals[m]) + Weighted(7, l, data[7].totals[m])
      + Weighted(8, l, data[8].totals[m]) + Weighted(9, l, data[9].totals[m]) + Weighted(10, l, data[10].totals[m]) + Weighted(11, l, data[11].totals[m]) + Weighted(12, l, data[12].totals[m])
  {
    assert CombinedUpTo(data, l, m, 1) == CombinedUpTo(data, l, m, 0) + Weighted(0, l, data[0].totals[m]);
    assert CombinedUpTo(data, l, m, 2) == CombinedUpTo(data, l, m, 1) + Weighted(1, l, data[1].totals[m]);
    assert CombinedUpTo(data, l, m, 3) == CombinedUpTo(data, l, m, 2) + Weighted(2, l, data[2].totals[m]);
    assert CombinedUpTo(data, l, m, 4) == CombinedUpTo(data, l, m, 3) + Weighted(3, l, data[3].totals[m]);
    assert CombinedUpTo(data, l, m, 5) == CombinedUpTo(data, l, m, 4) + Weighted(4, l, data[4].totals[m]);
    assert CombinedUpTo(data, l, m, 6) == CombinedUpTo(data, l, m, 5) + Weighted(5, l, data[5].totals[m]);
    assert CombinedUpTo(data, l, m, 7) == CombinedUpTo(data, l, m, 6) + Weighted(6, l, data[6].totals[m]);
    assert CombinedUpTo(data, l, m, 8) == CombinedUpTo(data, l, m, 7) + Weighted(7, l, data[7].totals[m]);
    assert CombinedUpTo(data, l, m, 9) == CombinedUpTo(data, l, m, 8) + Weighted(8, l, data[8].totals[m]);
    assert CombinedUpTo(data, l, m, 10) == CombinedUpTo(data, l, m, 9) + Weighted(9, l, data[9].totals[m]);
    assert CombinedUpTo(data, l, m, 11) == CombinedUpTo(data, l, m, 10) + Weighted(10, l, data[10].totals[m]);
    assert CombinedUpTo(data, l, m, 12) == CombinedUpTo(data, l, m, 11) + Weighted(11, l, data[11].totals[m]);
    assert CombinedUpTo(data, l, m, 13) == CombinedUpTo(data, l, m, 12) + Weighted(12, l, data[12].totals[m]);
  }

  /** With every total of month `m` zero, so is every line. */
  lemma {:induction false} CombinedZero(data: seq<GroupData>, l: Line, m: nat, n: nat)
    requires Sized(data) && m < Months && n <= |Groups|
    requires forall j :: 0 <= j < |Groups| ==> data[j].totals[m] == 0
    ensures CombinedUpTo(data, l, m, n) == 0
  {
    if n > 0 {
      CombinedZero(data, l, m, n - 1);
    }
  }

  /** A transaction's contribution to a line over the year: its amount, added or
      subtracted as its group enters the line. */
  function LineYearAmount(cats: seq<CategoryType>, l: Line): Transaction -> int
  {
    (t: Transaction) => match GroupOf(t, cats) case None => 0 case Some(g) => Weighted(Order(g), l, t.amount)
  }

  function Weight(cats: seq<CategoryType>, l: Line, m: int): Transaction -> int
  {
    InMonth(LineYearAmount(cats, l), m)
  }

  lemma {:induction false} CombinedUpToUpdate(data: seq<GroupData>, gi: nat, d: GroupData, l: Line, m: nat, n: nat)
    requires Sized(data) && gi < |Groups| && |d.totals| == Months && m < Months && n <= |Groups|
    ensures Sized(data[gi := d])
    ensures CombinedUpTo(data[gi := d], l, m, n) ==
      CombinedUpTo(data, l, m, n) + (if gi < n then Weighted(gi, l, d.totals[m] - data[gi].totals[m]) else 0)
  {
    if n > 0 {
      CombinedUpToUpdate(data, gi, d, l, m, n - 1);
      if n - 1 == gi {
        WeightedLinear(gi, l, data[gi].totals[m], d.totals[m] - data[gi].totals[m]);
      }
    }
  }

  lemma CombinedUpdate(data: seq<GroupData>, gi: nat, d: GroupData, l: Line, m: nat)
    requires Shaped(data) && gi < |Groups| && GroupShaped(d, Groups[gi]) && m < Months
    ensures Shaped(data[gi := d])
    ensures Combined(data[gi := d], l, m) == Combined(data, l, m) + Weighted(gi, l, d.totals[m] - data[gi].totals[m])
  {
    CombinedUpToUpdate(data, gi, d, l, m, |Groups|);
  }

  lemma CombinedStep(data: seq<GroupData>, t: Transaction, cats: seq<CategoryType>, l: Line, m: nat)
    requires Shaped(data) && m < Months
    ensures Combined(Add(data, t, cats), l, m) == Combined(data, l, m) + Weight(cats, l, m)(t)
  {
    match GroupOf(t, cats)
    case None =>
    case Some(g) =>
      var gi := Order(g);
      var d := AddToGroup(data[gi], t.category, t.competenceDate.month, t.amount);
      CombinedUpdate(data, gi, d, l, m);
  }

  lemma {:induction false} CombinedSum(p: seq<Transaction>, cats: seq<CategoryType>, l: Line, m: nat)
    requires m < Months
    ensures Combined(Aggregate(p, cats), l, m) == Sum(p, Weight(cats, l, m))
  {
    if p != [] {
      CombinedSum(p[..|p| - 1], cats, l, m);
      CombinedStep(Aggregate(p[..|p| - 1], cats), p[|p| - 1], cats, l, m);
    } else {
      CombinedZero(Initial(), l, m, |Groups|);
    }
  }

  /** Month `m` of every line is the signed sum of the year's transactions of that month
      in the groups the line is computed from: income groups add, expense groups subtract. */
  lemma LinesFromTransactions(ts: seq<Transaction>, cats: seq<CategoryType>, year: int, l: Line, m: nat)
    requires m < Months
    ensures Value(Calculated(DreData(ts, cats, year)), l)[m] == Sum(YearTransactions(ts, year), Weight(cats, l, m))
  {
    Cascade(DreData(ts, cats, year), l, m);
    CombinedSum(YearTransactions(ts, year), cats, l, m);
  }

  // Row totals and the closing banner

  function Identity(v: int): int { v }

  /** A row's total: the sum of its monthly values. */
  function RowTotal(values: seq<int>): int
  {
    Sum(values, Identity)
  }

  /** The twelve monthly sums of a contribution. */
  function MonthVector(p: seq<Transaction>, y: Transaction -> int): (r: seq<int>)
    ensures |r| == Months
  {
    seq(Months, m => Sum(p, InMonth(y, m)))
  }

  /** The months of a row add up to the year: every transaction falls in one month. */
  lemma {:induction false} MonthVectorTotal(p: seq<Transaction>, y: Transaction -> int)
    ensures RowTotal(MonthVector(p, y)) == Sum(p, y)
  {
    if p == [] {
      assert MonthVector(p, y) == Zeros();
      ZerosTotal();
    } else {
      var q, t := p[..|p| - 1], p[|p| - 1];
      MonthVectorTotal(q, y);
      var before, after := MonthVector(q, y), MonthVector(p, y);
      var mt := t.competenceDate.month;
      assert q + [t] == p;
      forall m | 0 <= m < Months ensures after[m] == before[mt := before[mt] + y(t)][m] {
        SumAfter(q, t, InMonth(y, m));
      }
      assert after == before[mt := before[mt] + y(t)];
      SumUpdate(before, mt, before[mt] + y(t), Identity);
    }
  }

  /** A group's row total is the sum of the amounts of the year's transactions of that
      group. */
  lemma GroupRowTotal(ts: seq<Transaction>, cats: seq<CategoryType>, year: int, i: nat)
    requires i < |Groups|
    ensures RowTotal(DreData(ts, cats, year)[i].totals) == Sum(YearTransactions(ts, year), GroupYearAmount(cats, Groups[i]))
  {
    var p := YearTransactions(ts, year);
    GroupTotals(p, cats);
    assert DreData(ts, cats, year)[i].totals == MonthVector(p, GroupYearAmount(cats, Groups[i]));
    MonthVectorTotal(p, GroupYearAmount(cats, Groups[i]));
  }

  /** A line's months are the monthly sums of its yearly contribution. */
  lemma LineMonths(data: seq<GroupData>, p: seq<Transaction>, cats: seq<CategoryType>, l: Line)
    requires Sized(data)
    requires forall m :: 0 <= m < Months ==> Combined(data, l, m) == Sum(p, Weight(cats, l, m))
    ensures Value(Calculated(data), l) == MonthVector(p, LineYearAmount(cats, l))
  {
    var v := Value(Calculated(data), l);
    var w := MonthVector(p, LineYearAmount(cats, l));
    Cascade(data, l, 0);
    forall m | 0 <= m < Months ensures v[m] == w[m] {
      Cascade(data, l, m);
    }
  }

  /** A line's row total is the signed sum of the year's transactions in the groups the
      line is computed from. */
  lemma LineRowTotal(ts: seq<Transaction>, cats: seq<CategoryType>, year: int, l: Line)
    ensures RowTotal(Value(Calculated(DreData(ts, cats, year)), l)) == Sum(YearTransactions(ts, year), LineYearAmount(cats, l))
  {
    var p := YearTransactions(ts, year);
    forall m | 0 <= m < Months ensures Combined(DreData(ts, cats, year), l, m) == Sum(p, Weight(cats, l, m)) {
      CombinedSum(p, cats, l, m);
    }
    LineMonths(DreData(ts, cats, year), p, cats, l);
    MonthVectorTotal(p, LineYearAmount(cats, l));
  }

  lemma {:induction false} ZerosPrefixTotal(n: nat)
    requires n <= Months
    ensures RowTotal(Zeros()[..n]) == 0
  {
    if n > 0 {
      ZerosPrefixTotal(n - 1);
      assert Zeros()[..n][..n - 1] == Zeros()[..n - 1];
    }
  }

  lemma ZerosTotal()
    ensures RowTotal(Zeros()) == 0
  {
    ZerosPrefixTotal(Months);
    assert Zeros()[..Months] == Zeros();
  }

  /** The closing banner: the final result of December. */
  function Banner(r: Results): int
    requires |r.resultadoFinal| == Months
  {
    r.resultadoFinal[Months - 1]
  }

  /** The banner shows December's final result: the signed sum of December's
      transactions over all thirteen groups. */
  lemma BannerIsDecember(ts: seq<Transaction>, cats: seq<CategoryType>, year: int)
    ensures Banner(Calculated(DreData(ts, cats, year))) == Sum(YearTransactions(ts, year), Weight(cats, ResultadoFinal, Months - 1))
  {
    BannerOfLine(DreData(ts, cats, year));
    LinesFromTransactions(ts, cats, year, ResultadoFinal, Months - 1);
  }

  lemma BannerOfLine(data: seq<GroupData>)
    requires Shaped(data)
    ensures Banner(Calculated(data)) == Value(Calculated(data), ResultadoFinal)[Months - 1]
  {
  }

  /** The banner equals the final result's row total only when January to November add
      up to zero. */
  lemma BannerIsNotTotal(r: Results)
    requires |r.resultadoFinal| == Months
    ensures Banner(r) == RowTotal(r.resultadoFinal) <==> RowTotal(r.resultadoFinal[..Months - 1]) == 0
  {
    var v := r.resultadoFinal;
    assert v[..Months - 1] + [v[Months - 1]] == v;
    SumAppend(v[..Months - 1], [v[Months - 1]], Identity);
    SumSingleton(v[Months - 1], Identity);
  }
}
