/** Cash flow by category (src/components/FluxoCaixaCategoria.tsx): the month's
    transactions with a known category, narrowed by group, type and name, are
    totalled per category and listed by value, highest first; the chart keeps
    the non-zero entries and the export states each one's share of their total. */
module CategoryFlow {
  import opened Wrappers
  import opened Types
  import opened Text
  import opened Folds
  import opened Records
  import opened Sorting

  datatype KindFilter = AllKinds | OnlyKind(kind: TxType)

  /** The selections of the view; `month` counts from 1 and an empty `dreGroup`
      or `term` selects everything. */
  datatype Selection = Selection(year: int, month: int, dreGroup: string, kind: KindFilter, term: string)

  /** The category a transaction is counted under, if it passes every selection. */
  function Selected(t: Transaction, cats: seq<CategoryType>, f: Selection): (r: Option<CategoryType>)
    ensures r.Some? ==> r == FindCategory(cats, t.category)
  {
    match FindCategory(cats, t.category)
    case None => None
    case Some(c) =>
      if t.competenceDate.year != f.year || t.competenceDate.month + 1 != f.month then None
      else if f.dreGroup != "" && c.dreGroup != f.dreGroup then None
      else if f.kind.OnlyKind? && c.catType != f.kind.kind then None
      else if f.term != "" && !ContainsIgnoringCase(c.name, f.term) then None
      else Some(c)
  }

  /** Every selection at once: known category, same year and month, and each
      filter that is set. */
  lemma SelectedSpec(t: Transaction, cats: seq<CategoryType>, f: Selection)
    ensures Selected(t, cats, f).Some? <==>
      && FindCategory(cats, t.category).Some?
      && t.competenceDate.year == f.year && t.competenceDate.month + 1 == f.month
      && (f.dreGroup == "" || FindCategory(cats, t.category).value.dreGroup == f.dreGroup)
      && (f.kind == AllKinds || FindCategory(cats, t.category).value.catType == f.kind.kind)
      && (f.term == "" || ContainsIgnoringCase(t.category, f.term))
  {
  }

  /** One category's line. */
  datatype Entry = Entry(name: string, dreGroup: string, kind: TxType, value: int)

  function EntryName(e: Entry): string { e.name }
  function EntryValue(e: Entry): int { e.value }

  /** The sort key that puts the highest value first. */
  function Descending(e: Entry): int { -e.value }

  /** A selected transaction added to its category's line, which is created at
      zero, with the category's group and type, on first sight. */
  function Counted(es: seq<Entry>, t: Transaction, c: CategoryType): seq<Entry>
  {
    match IndexOf(es, EntryName, t.category)
    case None => es + [Entry(t.category, c.dreGroup, c.catType, t.amount)]
    case Some(k) => es[k := es[k].(value := es[k].value + t.amount)]
  }

  function Step(es: seq<Entry>, t: Transaction, cats: seq<CategoryType>, f: Selection): seq<Entry>
  {
    match Selected(t, cats, f)
    case None => es
    case Some(c) => Counted(es, t, c)
  }

  /** The lines, in first-seen order, after the transactions `p`. */
  function Entries(p: seq<Transaction>, cats: seq<CategoryType>, f: Selection): seq<Entry>
  {
    if p == [] then [] else Step(Entries(p[..|p| - 1], cats, f), p[|p| - 1], cats, f)
  }

  /** `categoryData`. */
  function CategoryData(ts: seq<Transaction>, cats: seq<CategoryType>, f: Selection): seq<Entry>
  {
    SortBy(Entries(ts, cats, f), Descending)
  }

  /** The loop over all transactions that fills the map of lines, then the sort. */
  method BuildCategoryData(ts: seq<Transaction>, cats: seq<CategoryType>, f: Selection) returns (r: seq<Entry>)
    ensures r == CategoryData(ts, cats, f)
  {
    var es: seq<Entry> := [];
    for i := 0 to |ts|
      invariant es == Entries(ts[..i], cats, f)
    {
      var t := ts[i];
      assert ts[..i + 1][..i] == ts[..i];
      var c := Selected(t, cats, f);
      if c.Some? {
        var k := IndexOf(es, EntryName, t.category);
        if k.None? {
          es := es + [Entry(t.category, c.value.dreGroup, c.value.catType, 0)];
          k := Some(|es| - 1);
        }
        es := es[k.value := es[k.value].(value := es[k.value].value + t.amount)];
      }
    }
    assert ts[..|ts|] == ts;
    r := SortBy(es, Descending);
  }

  // ------------------------------------------------------------ each line

  function ValueIn(cats: seq<CategoryType>, f: Selection, name: string): Transaction -> int
  {
    (t: Transaction) => if Selected(t, cats, f).Some? && t.category == name then t.amount else 0
  }

  /** A line holds its category's group and type and the sum of its selected transactions. */
  predicate Direct(e: Entry, p: seq<Transaction>, cats: seq<CategoryType>, f: Selection)
  {
    && FindCategory(cats, e.name).Some?
    && e.dreGroup == FindCategory(cats, e.name).value.dreGroup
    && e.kind == FindCategory(cats, e.name).value.catType
    && e.value == Sum(p, ValueIn(cats, f, e.name))
  }

  predicate Tally(es: seq<Entry>, p: seq<Transaction>, cats: seq<CategoryType>, f: Selection)
  {
    && (forall i, j :: 0 <= i < j < |es| ==> es[i].name != es[j].name)
    && (forall k :: 0 <= k < |es| ==> Direct(es[k], p, cats, f))
    && (forall i :: 0 <= i < |p| && Selected(p[i], cats, f).Some? ==>
          exists k :: 0 <= k < |es| && es[k].name == p[i].category)
  }

  lemma StepTally(es: seq<Entry>, p: seq<Transaction>, t: Transaction, cats: seq<CategoryType>, f: Selection)
    requires Tally(es, p, cats, f)
    ensures Tally(Step(es, t, cats, f), p + [t], cats, f)
  {
    match Selected(t, cats, f)
    case None =>
      StepSkipped(es, p, t, cats, f);
    case Some(c) =>
      match IndexOf(es, EntryName, t.category)
      case None =>
        StepFresh(es, p, t, cats, f, c);
      case Some(k) =>
        StepExisting(es, p, t, cats, f, c, k);
  }

  /** The two outcomes of counting a transaction, unfolded away from any invariant. */
  lemma CountedFresh(es: seq<Entry>, t: Transaction, c: CategoryType)
    requires IndexOf(es, EntryName, t.category).None?
    ensures Counted(es, t, c) == es + [Entry(t.category, c.dreGroup, c.catType, t.amount)]
  {
  }

  lemma CountedAt(es: seq<Entry>, t: Transaction, c: CategoryType, k: nat)
    requires IndexOf(es, EntryName, t.category) == Some(k)
    ensures k < |es|
    ensures Counted(es, t, c) == es[k := es[k].(value := es[k].value + t.amount)]
  {
    var r := es[k := es[k].(value := es[k].value + t.amount)];
    var q := Counted(es, t, c);
    CountedLine(es, t, c, k);
    assert forall j :: 0 <= j < |r| ==> q[j] == r[j];
  }

  /** Counting into an existing line changes that line's value and no other line. */
  lemma CountedLine(es: seq<Entry>, t: Transaction, c: CategoryType, k: nat)
    requires IndexOf(es, EntryName, t.category) == Some(k)
    ensures k < |es| && |Counted(es, t, c)| == |es|
    ensures Counted(es, t, c)[k] == es[k].(value := es[k].value + t.amount)
    ensures forall j :: 0 <= j < |es| && j != k ==> Counted(es, t, c)[j] == es[j]
  {
  }

  /** Lines of other categories are untouched by a transaction, and every line
      by one that is not selected. */
  lemma OthersDirect(es: seq<Entry>, p: seq<Transaction>, t: Transaction, cats: seq<CategoryType>, f: Selection)
    requires forall k :: 0 <= k < |es| ==> Direct(es[k], p, cats, f)
    ensures forall k :: 0 <= k < |es| && (Selected(t, cats, f).None? || es[k].name != t.category) ==>
      Direct(es[k], p + [t], cats, f)
  {
    forall k | 0 <= k < |es| && (Selected(t, cats, f).None? || es[k].name != t.category)
      ensures Direct(es[k], p + [t], cats, f)
    {
      SumAfter(p, t, ValueIn(cats, f, es[k].name));
    }
  }

  lemma StepSkipped(es: seq<Entry>, p: seq<Transaction>, t: Transaction, cats: seq<CategoryType>, f: Selection)
    requires Tally(es, p, cats, f) && Selected(t, cats, f).None?
    ensures Tally(Step(es, t, cats, f), p + [t], cats, f)
  {
    var q := p + [t];
    OthersDirect(es, p, t, cats, f);
    forall i | 0 <= i < |q| && Selected(q[i], cats, f).Some?
      ensures exists k :: 0 <= k < |es| && es[k].name == q[i].category
    {
      assert q[i] == p[i];
    }
  }

  lemma StepFresh(es: seq<Entry>, p: seq<Transaction>, t: Transaction, cats: seq<CategoryType>, f: Selection, c: CategoryType)
    requires Tally(es, p, cats, f) && Selected(t, cats, f) == Some(c)
    requires IndexOf(es, EntryName, t.category).None?
    ensures Tally(Counted(es, t, c), p + [t], cats, f)
  {
    var r := es + [Entry(t.category, c.dreGroup, c.catType, t.amount)];
    CountedFresh(es, t, c);
    assert forall j :: 0 <= j < |es| ==> EntryName(es[j]) != t.category;
    FreshNamesDistinct(es, r, t.category);
    FreshDirect(es, p, t, cats, f, c, r);
    Covered(es, r, p, t, cats, f, |es|);
  }

  /** A line under a new name keeps the names distinct. */
  lemma FreshNamesDistinct(es: seq<Entry>, r: seq<Entry>, name: string)
    requires forall i, j :: 0 <= i < j < |es| ==> es[i].name != es[j].name
    requires forall j :: 0 <= j < |es| ==> EntryName(es[j]) != name
    requires |r| == |es| + 1 && r[..|es|] == es && r[|es|].name == name
    ensures forall i, j :: 0 <= i < j < |r| ==> r[i].name != r[j].name
    ensures forall j :: 0 <= j < |es| ==> r[j].name == es[j].name
  {
    assert forall j :: 0 <= j < |es| ==> r[j] == r[..|es|][j];
  }

  /** Lines that keep their names keep them distinct. */
  lemma SameNamesDistinct(es: seq<Entry>, r: seq<Entry>)
    requires forall i, j :: 0 <= i < j < |es| ==> es[i].name != es[j].name
    requires |r| == |es| && forall j :: 0 <= j < |es| ==> r[j].name == es[j].name
    ensures forall i, j :: 0 <= i < j < |r| ==> r[i].name != r[j].name
  {
  }

  /** A new line for a category not seen before holds the transaction's amount,
      and every older line its category's sum. */
  lemma FreshDirect(es: seq<Entry>, p: seq<Transaction>, t: Transaction, cats: seq<CategoryType>, f: Selection,
                    c: CategoryType, r: seq<Entry>)
    requires forall j :: 0 <= j < |es| ==> Direct(es[j], p, cats, f)
    requires forall i :: 0 <= i < |p| && Selected(p[i], cats, f).Some? ==>
      exists k :: 0 <= k < |es| && es[k].name == p[i].category
    requires forall j :: 0 <= j < |es| ==> es[j].name != t.category
    requires Selected(t, cats, f) == Some(c)
    requires r == es + [Entry(t.category, c.dreGroup, c.catType, t.amount)]
    ensures forall j :: 0 <= j < |r| ==> Direct(r[j], p + [t], cats, f)
  {
    OthersDirect(es, p, t, cats, f);
    assert forall i :: 0 <= i < |p| ==> !(Selected(p[i], cats, f).Some? && p[i].category == t.category);
    SumZero(p, ValueIn(cats, f, t.category));
    SumAfter(p, t, ValueIn(cats, f, t.category));
    assert Direct(r[|es|], p + [t], cats, f);
  }

  lemma StepExisting(es: seq<Entry>, p: seq<Transaction>, t: Transaction, cats: seq<CategoryType>, f: Selection,
                     c: CategoryType, k: nat)
    requires Tally(es, p, cats, f) && Selected(t, cats, f) == Some(c)
    requires IndexOf(es, EntryName, t.category) == Some(k)
    ensures Tally(Counted(es, t, c), p + [t], cats, f)
  {
    var r := es[k := es[k].(value := es[k].value + t.amount)];
    CountedAt(es, t, c, k);
    assert forall j :: 0 <= j < |es| ==> r[j].name == es[j].name;
    SameNamesDistinct(es, r);
    ExistingDirect(es, p, t, cats, f, k, r);
    Covered(es, r, p, t, cats, f, k);
    assert Tally(r, p + [t], cats, f);
  }

  /** Every line holds its category's sum again once the transaction is added to
      the line of its category. */
  lemma ExistingDirect(es: seq<Entry>, p: seq<Transaction>, t: Transaction, cats: seq<CategoryType>, f: Selection,
                       k: nat, r: seq<Entry>)
    requires forall j :: 0 <= j < |es| ==> Direct(es[j], p, cats, f)
    requires forall i, j :: 0 <= i < j < |es| ==> es[i].name != es[j].name
    requires Selected(t, cats, f).Some? && k < |es| && es[k].name == t.category
    requires r == es[k := es[k].(value := es[k].value + t.amount)]
    ensures forall j :: 0 <= j < |r| ==> Direct(r[j], p + [t], cats, f)
  {
    OthersDirect(es, p, t, cats, f);
    SumAfter(p, t, ValueIn(cats, f, t.category));
    forall j | 0 <= j < |es|
      ensures Direct(r[j], p + [t], cats, f)
    {
      if j != k {
        assert r[j] == es[j] && es[j].name != t.category;
      }
    }
  }

  /** Lines that keep their names and one line named after `t` cover `p + [t]`
      when the old lines covered `p`. */
  lemma Covered(es: seq<Entry>, r: seq<Entry>, p: seq<Transaction>, t: Transaction, cats: seq<CategoryType>,
                f: Selection, w: nat)
    requires forall i :: 0 <= i < |p| && Selected(p[i], cats, f).Some? ==>
      exists k :: 0 <= k < |es| && es[k].name == p[i].category
    requires |es| <= |r| && forall k :: 0 <= k < |es| ==> r[k].name == es[k].name
    requires w < |r| && r[w].name == t.category
    ensures forall i :: 0 <= i < |p + [t]| && Selected((p + [t])[i], cats, f).Some? ==>
      exists k :: 0 <= k < |r| && r[k].name == (p + [t])[i].category
  {
    var q := p + [t];
    forall i | 0 <= i < |q| && Selected(q[i], cats, f).Some?
      ensures exists k :: 0 <= k < |r| && r[k].name == q[i].category
    {
      if i == |p| {
        assert r[w].name == q[i].category;
      } else {
        assert q[i] == p[i];
        var k :| 0 <= k < |es| && es[k].name == p[i].category;
        assert r[k].name == q[i].category;
      }
    }
  }

  lemma {:induction false} EntriesTally(p: seq<Transaction>, cats: seq<CategoryType>, f: Selection)
    ensures Tally(Entries(p, cats, f), p, cats, f)
  {
    if p != [] {
      var init := p[..|p| - 1];
      EntriesTally(init, cats, f);
      StepTally(Entries(init, cats, f), init, p[|p| - 1], cats, f);
      assert init + [p[|p| - 1]] == p;
    }
  }

  /** One line per category name, each with its category's group and type and the
      sum of its selected transactions, a line for every category that has one,
      and the list ordered by value, highest first. */
  lemma CategoryDataSpec(ts: seq<Transaction>, cats: seq<CategoryType>, f: Selection)
    ensures var es := Entries(ts, cats, f);
      && (forall i, j :: 0 <= i < j < |es| ==> es[i].name != es[j].name)
      && multiset(CategoryData(ts, cats, f)) == multiset(es)
      && SortedBy(CategoryData(ts, cats, f), Descending)
      && (forall e :: e in CategoryData(ts, cats, f) ==> Direct(e, ts, cats, f))
      && (forall t :: t in ts && Selected(t, cats, f).Some? ==>
            exists e :: e in CategoryData(ts, cats, f) && e.name == t.category)
  {
    var es := Entries(ts, cats, f);
    EntriesTally(ts, cats, f);
    SortByCorrect(es, Descending);
    PermutationSameElements(CategoryData(ts, cats, f), es);
    forall t | t in ts && Selected(t, cats, f).Some? ensures exists e :: e in CategoryData(ts, cats, f) && e.name == t.category {
      var i :| 0 <= i < |ts| && ts[i] == t;
      var k :| 0 <= k < |es| && es[k].name == ts[i].category;
      assert es[k] in es;
    }
  }

  // ------------------------------------------------------------ chart and export

  predicate NonZero(e: Entry) { e.value != 0 }

  /** `pieChartData`: the non-zero lines, sorted again by value. */
  function PieData(es: seq<Entry>): seq<Entry>
  {
    SortBy(Filter(es, NonZero), Descending)
  }

  /** On the view's sorted lines the second sort changes nothing: the chart is the
      non-zero lines in the same order. */
  lemma PieKeepsOrder(ts: seq<Transaction>, cats: seq<CategoryType>, f: Selection)
    ensures PieData(CategoryData(ts, cats, f)) == Filter(CategoryData(ts, cats, f), NonZero)
    ensures forall e :: e in PieData(CategoryData(ts, cats, f)) <==> e in CategoryData(ts, cats, f) && e.value != 0
  {
    var es := CategoryData(ts, cats, f);
    SortByCorrect(Entries(ts, cats, f), Descending);
    FilterSorted(es, Descending, NonZero);
    SortSorted(Filter(es, NonZero), Descending);
    FilterMembers(es, NonZero);
  }

  /** A line's share of the chart total in percent; no number when the total is
      zero, where the division gives no finite value. */
  function Share(e: Entry, total: int): Option<real>
  {
    if total == 0 then None else Some(e.value as real / total as real * 100.0)
  }

  /** The export's percentage column, added up. */
  function SharesTotal(es: seq<Entry>, total: int): real
    requires total != 0
  {
    if es == [] then 0.0 else SharesTotal(es[..|es| - 1], total) + Share(es[|es| - 1], total).value
  }

  lemma {:induction false} SharesTotalScaled(es: seq<Entry>, total: int)
    requires total != 0
    ensures SharesTotal(es, total) == Sum(es, EntryValue) as real * (100.0 / total as real)
  {
    if es != [] {
      var init := es[..|es| - 1];
      var v, k := es[|es| - 1].value as real, 100.0 / total as real;
      SharesTotalScaled(init, total);
      assert v / total as real * 100.0 == v * k;
      assert Sum(init, EntryValue) as real * k + v * k == (Sum(init, EntryValue) as real + v) * k;
    }
  }

  /** With a non-zero total the export's percentages of the chart lines add up to 100. */
  lemma SharesAddUp(es: seq<Entry>)
    requires Sum(PieData(es), EntryValue) != 0
    ensures SharesTotal(PieData(es), Sum(PieData(es), EntryValue)) == 100.0
  {
    var total := Sum(PieData(es), EntryValue);
    SharesTotalScaled(PieData(es), total);
    assert total as real * (100.0 / total as real) == 100.0;
  }

  /** The group titles of this view. */
  function GroupTitle(g: DreGroup): string
  {
    match g
    case ReceitaBruta => "Receita Bruta"
    case Impostos => "Impostos"
    case DeducaoReceita => "Deduções de Receitas"
    case CustosCmv => "Custos das Mercadorias Vendidas (CMV)"
    case CustosCpv => "Custos dos Produtos Vendidos (CPV)"
    case CustosServicos => "Custos dos Serviços Prestados"
    case DespesasAdministrativas => "Despesas Administrativas"
    case DespesasPessoal => "Despesas com Pessoal"
    case DespesasVariaveis => "Despesas Variáveis"
    case OutrasReceitas => "Outras Receitas"
    case ReceitasFinanceiras => "Receitas Financeiras"
    case DespesasFinanceiras => "Despesas Financeiras"
    case Investimentos => "Investimentos"
  }

  /** One data line of the export: category, group title (the raw identifier
      when it names no group), type label, value and share. */
  datatype ExportLine = ExportLine(category: string, group: string, kind: string, value: int, share: Option<real>)

  function GroupLabel(id: string): string
  {
    match ParseGroup(id)
    case None => id
    case Some(g) => GroupTitle(g)
  }

  function ExportLines(pie: seq<Entry>): (r: seq<ExportLine>)
  {
    var total := Sum(pie, EntryValue);
    seq(|pie|, i requires 0 <= i < |pie| =>
      ExportLine(pie[i].name, GroupLabel(pie[i].dreGroup),
        if pie[i].kind == Income then "Receita" else "Despesa", pie[i].value, Share(pie[i], total)))
  }

  /** The export has one line per chart line, in order, with its value and its
      share of the chart total, and a closing total equal to the sum of the lines. */
  lemma ExportSpec(pie: seq<Entry>, i: nat)
    requires i < |pie|
    ensures |ExportLines(pie)| == |pie|
    ensures ExportLines(pie)[i].category == pie[i].name && ExportLines(pie)[i].value == pie[i].value
    ensures Sum(ExportLines(pie), (l: ExportLine) => l.value) == Sum(pie, EntryValue)
    ensures ParseGroup(pie[i].dreGroup).None? ==> ExportLines(pie)[i].group == pie[i].dreGroup
    ensures Sum(pie, EntryValue) != 0 ==>
      ExportLines(pie)[i].share == Some(pie[i].value as real / Sum(pie, EntryValue) as real * 100.0)
  {
    ExportLineAt(pie, i);
    ExportTotal(pie);
  }

  lemma ExportLineAt(pie: seq<Entry>, i: nat)
    requires i < |pie|
    ensures ExportLines(pie)[i] == ExportLine(pie[i].name, GroupLabel(pie[i].dreGroup),
      if pie[i].kind == Income then "Receita" else "Despesa", pie[i].value, Share(pie[i], Sum(pie, EntryValue)))
  {
  }

  lemma ExportTotal(pie: seq<Entry>)
    ensures Sum(ExportLines(pie), (l: ExportLine) => l.value) == Sum(pie, EntryValue)
  {
    SumPointwiseMap(ExportLines(pie), pie);
  }

  lemma {:induction false} SumPointwiseMap(ls: seq<ExportLine>, es: seq<Entry>)
    requires |ls| == |es| && forall i :: 0 <= i < |ls| ==> ls[i].value == es[i].value
    ensures Sum(ls, (l: ExportLine) => l.value) == Sum(es, EntryValue)
  {
    if ls != [] {
      SumPointwiseMap(ls[..|ls| - 1], es[..|es| - 1]);
    }
  }
}
