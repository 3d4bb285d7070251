/** The chart of accounts screen (src/components/Categorias.tsx): the category and
    cost-centre forms, the income-statement groups a category may join, the search
    filters, and the sections the category list is grouped into. */
module Categories {
  import opened Wrappers
  import opened Text
  import opened Types
  import opened Folds
  import Dre
  import Suggestions

  /** The display name the screen's group table gives each group. */
  function GroupName(g: DreGroup): string
  {
    match g
    case ReceitaBruta => "Receita Bruta de Vendas"
    case Impostos => "Impostos"
    case DeducaoReceita => "Deduções de Receitas"
    case CustosCmv => "Custos das Mercadorias Vendidas (CMV)"
    case CustosCpv => "Custos dos Produtos Vendidos (CPV)"
    case CustosServicos => "Custos dos Serviços Prestados"
    case DespesasAdministrativas => "Despesas Administrativas"
    case DespesasPessoal => "Despesas com Pessoal"
    case DespesasVariaveis => "Despesas Variáveis"
    case OutrasReceitas => "Outras Receitas"
    case ReceitasFinanceiras => "Receitas Financeiras"
    case DespesasFinanceiras => "Despesas Financeiras"
    case Investimentos => "Investimentos"
  }

  lemma GroupListed(g: DreGroup)
    ensures g in Dre.Groups
  {
    assert Dre.Groups[Dre.Order(g)] == g;
  }

  // ------------------------------------------------------------ category form

  const Required := "Nome, tipo e grupo DRE são obrigatórios"
  const NotAuthenticated := "Usuário não autenticado"
  const SaveFailed := "Erro ao salvar categoria"

  /** The category form. The name and the group are empty while unset; the type always
      has a value (the form starts at income and the select has no empty option). */
  datatype Draft = Draft(name: string, catType: TxType, dreGroup: string)

  const NewDraft := Draft("", Income, "")

  /** The store call a valid submit makes: a rename of the category being edited, or the
      creation of a new one (its id is left to the database). */
  datatype Request = Rename(from: string, to: string) | Create(category: CategoryType)

  /** The checks and the call of `handleSubmitCategory`. `user` is the signed-in user's id,
      `editing` the category the form was opened for. */
  function CategoryRequest(d: Draft, user: Option<string>, editing: Option<CategoryType>): (r: Result<Request, string>)
    ensures d.name == [] || d.dreGroup == [] ==> r == Err(Required)
    ensures d.name != [] && d.dreGroup != [] && user.None? ==> r == Err(NotAuthenticated)
    ensures r.Ok? <==> d.name != [] && d.dreGroup != [] && user.Some?
    ensures r.Ok? && editing.Some? ==> r.value == Rename(editing.value.name, d.name)
    ensures r.Ok? && editing.None? ==>
      r.value == Create(CategoryType("", d.name, d.catType, d.dreGroup, user.value))
  {
    if d.name == [] || d.dreGroup == [] then Err(Required)
    else if user.None? then Err(NotAuthenticated)
    else if editing.Some? then Ok(Rename(editing.value.name, d.name))
    else Ok(Create(CategoryType("", d.name, d.catType, d.dreGroup, user.value)))
  }

  /** The form after a submit: the call made, the message shown, the draft and the
      category being edited. `saveError` is what the store call throws, if anything. */
  datatype Outcome = Outcome(request: Option<Request>, error: Option<string>, draft: Draft,
                             editing: Option<CategoryType>)

  function SubmitCategory(d: Draft, user: Option<string>, editing: Option<CategoryType>,
                          saveError: Option<Thrown>): (r: Outcome)
    ensures r.request == (if CategoryRequest(d, user, editing).Ok? then Some(CategoryRequest(d, user, editing).value) else None)
    ensures CategoryRequest(d, user, editing).Err? ==> r.error == Some(CategoryRequest(d, user, editing).error)
    ensures r.error.None? <==> CategoryRequest(d, user, editing).Ok? && saveError.None?
    ensures r.error.None? ==> r.draft == NewDraft && r.editing.None?
    ensures r.error.Some? ==> r.draft == d && r.editing == editing
  {
    match CategoryRequest(d, user, editing)
    case Err(message) => Outcome(None, Some(message), d, editing)
    case Ok(request) =>
      if saveError.None? then Outcome(Some(request), None, NewDraft, None)
      else
        var shown := if saveError.value.ErrorObject? then saveError.value.message else SaveFailed;
        Outcome(Some(request), Some(shown), d, editing)
  }

  /** `handleEditCategory`: the form is loaded with the category. */
  function EditCategory(c: CategoryType): Draft
  {
    Draft(c.name, c.catType, c.dreGroup)
  }

  /** The type select: a new type clears the chosen group; while editing the select is
      disabled and the draft does not change. */
  function ChangeType(d: Draft, t: TxType, editing: Option<CategoryType>): (r: Draft)
    ensures editing.Some? ==> r == d
    ensures editing.None? ==> r.catType == t && r.dreGroup == [] && r.name == d.name
  {
    if editing.Some? then d else d.(catType := t, dreGroup := [])
  }

  /** The groups the group select offers for a type, in table order. */
  function GroupOptions(t: TxType): (r: seq<DreGroup>)
    ensures forall g :: g in r <==> Dre.GroupType(g) == t
  {
    var r := Filter(Dre.Groups, (g: DreGroup) => Dre.GroupType(g) == t);
    FilterMembers(Dre.Groups, (g: DreGroup) => Dre.GroupType(g) == t);
    assert forall g: DreGroup :: g in Dre.Groups by {
      forall g: DreGroup ensures g in Dre.Groups { GroupListed(g); }
    }
    r
  }

  /** Editing renames and nothing more: whatever type or group the draft holds, the call
      made is the same rename. */
  lemma EditOnlyRenames(d1: Draft, d2: Draft, user: Option<string>, c: CategoryType)
    requires d1.name == d2.name && d1.dreGroup != [] && d2.dreGroup != []
    ensures CategoryRequest(d1, user, Some(c)) == CategoryRequest(d2, user, Some(c))
  {
  }

  /** After a type change a group must be picked again before the form can be saved. */
  lemma TypeChangeNeedsGroup(d: Draft, t: TxType, user: Option<string>)
    ensures CategoryRequest(ChangeType(d, t, None), user, None) == Err(Required)
  {
  }

  /** A group picked from the select after choosing the type creates a category whose
      group has that category's type. */
  lemma PickedGroupFitsType(d: Draft, t: TxType, g: DreGroup, u: string)
    requires d.name != [] && g in GroupOptions(t)
    ensures var picked := ChangeType(d, t, None).(dreGroup := GroupId(g));
      && CategoryRequest(picked, Some(u), None).Ok?
      && var c := CategoryRequest(picked, Some(u), None).value.category;
         ParseGroup(c.dreGroup) == Some(g) && Dre.GroupType(g) == c.catType
  {
    var picked := ChangeType(d, t, None).(dreGroup := GroupId(g));
    assert picked == Draft(d.name, t, GroupId(g));
    ParseGroupId(g);
    assert CategoryRequest(picked, Some(u), None) == Ok(Create(CategoryType("", d.name, t, GroupId(g), u)));
  }

  /** The engine's category suggestion is always one of the groups the select offers for
      the type it was asked about. */
  lemma SuggestionOffered(t: TxType, description: string)
    ensures var s := Suggestions.CategorySuggestions(t, description);
      s.dreGroup.Some? ==> s.dreGroup.value in GroupOptions(t)
  {
  }

  // ------------------------------------------------------------ cost-centre form

  const NameRequired := "Nome é obrigatório"

  datatype CenterDraft = CenterDraft(name: string, description: Option<string>, active: bool)

  const NewCenter := CenterDraft("", None, true)

  datatype CenterRequest = UpdateCenter(id: string, changes: CenterDraft) | CreateCenter(center: CenterDraft)

  /** `handleSubmitCostCenter`: only the name is required, and no signed-in user is
      checked; editing sends the whole draft as the update. */
  function CostCenterRequest(d: CenterDraft, editing: Option<CostCenter>): (r: Result<CenterRequest, string>)
    ensures r.Err? <==> d.name == []
    ensures r.Err? ==> r.error == NameRequired
    ensures r.Ok? && editing.Some? ==> r.value == UpdateCenter(editing.value.id, d)
    ensures r.Ok? && editing.None? ==> r.value == CreateCenter(d)
  {
    if d.name == [] then Err(NameRequired)
    else if editing.Some? then Ok(UpdateCenter(editing.value.id, d))
    else Ok(CreateCenter(d))
  }

  // ------------------------------------------------------------ filters

  /** The category filter: an empty term or a case-insensitive name match, and the type
      filter (None is 'all'). */
  predicate CategoryMatches(c: CategoryType, term: string, filter: Option<TxType>)
  {
    (term == [] || ContainsIgnoringCase(c.name, term)) && (filter.None? || c.catType == filter.value)
  }

  function FilteredCategories(cs: seq<CategoryType>, term: string, filter: Option<TxType>): (r: seq<CategoryType>)
    ensures forall c :: c in r <==> c in cs && CategoryMatches(c, term, filter)
    ensures term == [] && filter.None? ==> r == cs
  {
    var keep := (c: CategoryType) => CategoryMatches(c, term, filter);
    FilterMembers(cs, keep);
    assert term == [] && filter.None? ==> Filter(cs, keep) == cs by {
      if term == [] && filter.None? { FilterAll(cs, keep); }
    }
    Filter(cs, keep)
  }

  /** The cost-centre search also looks in the description, when there is one. */
  predicate CenterMatches(c: CostCenter, term: string)
  {
    term == [] || ContainsIgnoringCase(c.name, term)
    || (c.description.Some? && ContainsIgnoringCase(c.description.value, term))
  }

  function FilteredCenters(cs: seq<CostCenter>, term: string): (r: seq<CostCenter>)
    ensures forall c :: c in r <==> c in cs && CenterMatches(c, term)
    ensures term == [] ==> r == cs
  {
    var keep := (c: CostCenter) => CenterMatches(c, term);
    FilterMembers(cs, keep);
    assert term == [] ==> Filter(cs, keep) == cs by {
      if term == [] { FilterAll(cs, keep); }
    }
    Filter(cs, keep)
  }

  // ------------------------------------------------------------ grouping

  /** One entry of `groupedCategories`: a name and a type for the heading, and the
      categories of the group. */
  datatype Section = Section(name: string, sectionType: TxType, categories: seq<CategoryType>)

  /** The heading a group's entry gets from the first category met in it: the table's name
      and type for a known group, the raw identifier and the category's own type otherwise. */
  function Header(c: CategoryType): Section
  {
    match ParseGroup(c.dreGroup)
    case Some(g) => Section(GroupName(g), Dre.GroupType(g), [])
    case None => Section(c.dreGroup, c.catType, [])
  }

  function Grouped(cs: seq<CategoryType>): map<string, Section>
  {
    if cs == [] then map[]
    else
      var m := Grouped(cs[..|cs| - 1]);
      var c := cs[|cs| - 1];
      var s := if c.dreGroup in m then m[c.dreGroup] else Header(c);
      m[c.dreGroup := s.(categories := s.categories + [c])]
  }

  /** `groupedCategories`: the filtered categories pushed one by one onto the entry keyed
      by their group, the entry created with its heading when the group is first met. */
  method GroupCategories(cs: seq<CategoryType>) returns (groups: map<string, Section>)
    ensures groups == Grouped(cs)
  {
    groups := map[];
    for i := 0 to |cs|
      invariant groups == Grouped(cs[..i])
    {
      var c := cs[i];
      assert cs[..i + 1][..i] == cs[..i];
      if c.dreGroup !in groups {
        groups := groups[c.dreGroup := Header(c)];
      }
      groups := groups[c.dreGroup := groups[c.dreGroup].(categories := groups[c.dreGroup].categories + [c])];
    }
    assert cs[..|cs|] == cs;
  }

  function InGroup(k: string): CategoryType -> bool
  {
    (c: CategoryType) => c.dreGroup == k
  }

  /** Every category lands in exactly the entry keyed by its group, in input order, and an
      entry exists only for a group some category names; the heading comes from the
      first of them. */
  lemma {:induction false} GroupedSpec(cs: seq<CategoryType>, k: string)
    ensures k in Grouped(cs) <==> Filter(cs, InGroup(k)) != []
    ensures k in Grouped(cs) ==>
      Grouped(cs)[k] == Header(Filter(cs, InGroup(k))[0]).(categories := Filter(cs, InGroup(k)))
  {
    if cs != [] {
      var p := cs[..|cs| - 1];
      GroupedSpec(p, k);
      if k in Grouped(p) {
        assert Filter(p, InGroup(k)) != [];
        assert Filter(p, InGroup(k))[0] == Filter(cs, InGroup(k))[0];
      }
    }
  }

  /** The groups whose section the screen shows, in table order: those the type filter
      admits that have categories. */
  predicate Visible(groups: map<string, Section>, filter: Option<TxType>, g: DreGroup)
  {
    (filter.None? || Dre.GroupType(g) == filter.value)
    && GroupId(g) in groups && groups[GroupId(g)].categories != []
  }

  function Displayed(groups: map<string, Section>, filter: Option<TxType>): seq<DreGroup>
  {
    Filter(Dre.Groups, (g: DreGroup) => Visible(groups, filter, g))
  }

  predicate OnScreen(groups: map<string, Section>, filter: Option<TxType>, c: CategoryType)
  {
    exists g :: g in Displayed(groups, filter) && GroupId(g) in groups && c in groups[GroupId(g)].categories
  }

  /** A filtered category is on screen exactly when its group is one of the table's and
      the type filter admits that group: an entry keyed by an unknown group is built but
      never shown. */
  lemma ShownExactly(fs: seq<CategoryType>, filter: Option<TxType>, c: CategoryType)
    ensures OnScreen(Grouped(fs), filter, c) <==>
      c in fs && ParseGroup(c.dreGroup).Some?
      && (filter.None? || Dre.GroupType(ParseGroup(c.dreGroup).value) == filter.value)
  {
    var groups := Grouped(fs);
    if OnScreen(groups, filter, c) {
      var g :| g in Displayed(groups, filter) && GroupId(g) in groups && c in groups[GroupId(g)].categories;
      ShownIsKnown(fs, filter, c, g);
    }
    if c in fs && ParseGroup(c.dreGroup).Some?
       && (filter.None? || Dre.GroupType(ParseGroup(c.dreGroup).value) == filter.value) {
      KnownIsShown(fs, filter, c);
    }
  }

  lemma ShownIsKnown(fs: seq<CategoryType>, filter: Option<TxType>, c: CategoryType, g: DreGroup)
    requires g in Displayed(Grouped(fs), filter) && GroupId(g) in Grouped(fs)
    requires c in Grouped(fs)[GroupId(g)].categories
    ensures c in fs && ParseGroup(c.dreGroup) == Some(g)
    ensures filter.None? || Dre.GroupType(g) == filter.value
  {
    FilterMembers(Dre.Groups, (g: DreGroup) => Visible(Grouped(fs), filter, g));
    GroupedSpec(fs, GroupId(g));
    FilterMembers(fs, InGroup(GroupId(g)));
    ParseGroupId(g);
  }

  lemma KnownIsShown(fs: seq<CategoryType>, filter: Option<TxType>, c: CategoryType)
    requires c in fs && ParseGroup(c.dreGroup).Some?
    requires filter.None? || Dre.GroupType(ParseGroup(c.dreGroup).value) == filter.value
    ensures var g := ParseGroup(c.dreGroup).value;
      g in Displayed(Grouped(fs), filter) && GroupId(g) in Grouped(fs)
      && c in Grouped(fs)[GroupId(g)].categories
  {
    var g := ParseGroup(c.dreGroup).value;
    GroupedSpec(fs, c.dreGroup);
    FilterMembers(fs, InGroup(c.dreGroup));
    assert c in Filter(fs, InGroup(c.dreGroup));
    GroupListed(g);
    assert Visible(Grouped(fs), filter, g);
    FilterMembers(Dre.Groups, (g: DreGroup) => Visible(Grouped(fs), filter, g));
  }
}
