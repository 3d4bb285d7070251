/** The suggestion engine behind the transaction, category and bank-account forms:
    keyword rules on a lower-cased description, and a fixed table of bank codes. */
module Suggestions {
  import opened Wrappers
  import opened Text
  import opened Types

  // ------------------------------------------------------------ transactions

  /** The fields of a partial transaction the engine reads. An empty description is
      falsy and counts as absent; dates are instants in milliseconds. */
  datatype TxDraft = TxDraft(txType: Option<TxType>, description: string,
                             competenceDate: Option<int>, dueDate: Option<int>)

  /** The keys the engine may set; None is a key left out of the result object. */
  datatype TxSuggestion = TxSuggestion(supplier: Option<string>, category: Option<string>,
                                       bankAccount: Option<string>,
                                       competenceDate: Option<int>, dueDate: Option<int>)

  const NoSuggestion := TxSuggestion(None, None, None, None, None)

  const DueDays := 30

  /** The keyword rules, tried in this order on the lower-cased description. */
  datatype Rule = Rent | Energy | Telecom | NoRule

  function RuleOf(lower: string): Rule
  {
    if Contains(lower, "aluguel") then Rent
    else if Contains(lower, "energia") || Contains(lower, "luz") then Energy
    else if Contains(lower, "internet") || Contains(lower, "telecom") then Telecom
    else NoRule
  }

  /** `getTransactionSuggestions`: nothing unless both the type and the description are
      given; then the supplier and category of the first keyword rule that matches (and a
      bank account for rent only), today as competence date when none is set, and today
      plus 30 days as due date when none is set. `now` is the current instant. */
  function TransactionSuggestions(p: TxDraft, now: int): (r: TxSuggestion)
    ensures p.txType.None? || p.description == [] ==> r == NoSuggestion
    ensures p.txType.Some? && p.description != [] ==>
      && r.competenceDate == (if p.competenceDate.None? then Some(now) else None)
      && r.dueDate == (if p.dueDate.None? then Some(now + DueDays * MsPerDay) else None)
    ensures r.supplier.Some? <==> r.category.Some?
    ensures r.bankAccount.Some? <==>
      p.txType.Some? && p.description != [] && Contains(ToLower(p.description), "aluguel")
    ensures r.bankAccount.Some? ==>
      r.supplier == Some("Imobiliária Principal") && r.category == Some("Aluguel")
      && r.bankAccount == Some("Conta Principal")
    ensures r.category.Some? && r.bankAccount.None? ==> r.category == Some("Utilities")
    ensures var d := ToLower(p.description);
      r.supplier == Some("Companhia de Energia") <==>
        p.txType.Some? && p.description != [] && !Contains(d, "aluguel")
        && (Contains(d, "energia") || Contains(d, "luz"))
    ensures var d := ToLower(p.description);
      r.supplier == Some("Provedor de Internet") <==>
        p.txType.Some? && p.description != [] && !Contains(d, "aluguel")
        && !Contains(d, "energia") && !Contains(d, "luz")
        && (Contains(d, "internet") || Contains(d, "telecom"))
    ensures var d := ToLower(p.description);
      r.supplier.None? <==>
        p.txType.None? || p.description == []
        || !(Contains(d, "aluguel") || Contains(d, "energia") || Contains(d, "luz")
             || Contains(d, "internet") || Contains(d, "telecom"))
  {
    if p.txType.None? || p.description == [] then NoSuggestion
    else
      var competence := if p.competenceDate.None? then Some(now) else None;
      var due := if p.dueDate.None? then Some(now + DueDays * MsPerDay) else None;
      match RuleOf(ToLower(p.description))
      case Rent =>
        TxSuggestion(Some("Imobiliária Principal"), Some("Aluguel"), Some("Conta Principal"), competence, due)
      case Energy => TxSuggestion(Some("Companhia de Energia"), Some("Utilities"), None, competence, due)
      case Telecom => TxSuggestion(Some("Provedor de Internet"), Some("Utilities"), None, competence, due)
      case NoRule => TxSuggestion(None, None, None, competence, due)
  }

  /** Rent outranks the other keywords: a description that mentions rent and light is
      still a rent payment. */
  lemma RentOutranks(p: TxDraft, now: int)
    requires p.txType.Some? && Contains(ToLower(p.description), "aluguel")
    ensures TransactionSuggestions(p, now).supplier == Some("Imobiliária Principal")
  {
  }

  /** Energy outranks telecom. */
  lemma EnergyOutranksTelecom(p: TxDraft, now: int)
    requires p.txType.Some? && !Contains(ToLower(p.description), "aluguel")
    requires Contains(ToLower(p.description), "luz")
    ensures TransactionSuggestions(p, now).supplier == Some("Companhia de Energia")
  {
  }

  /** The rules ignore case: typing the description in capitals changes nothing. */
  lemma CaseIgnored(p: TxDraft, now: int)
    ensures TransactionSuggestions(p.(description := ToLower(p.description)), now)
            == TransactionSuggestions(p, now)
  {
    ToLowerTwice(p.description);
  }

  /** A draft whose dates are both set and whose description matches no rule gets no
      suggestion at all. */
  lemma NothingToSuggest(p: TxDraft, now: int)
    requires p.competenceDate.Some? && p.dueDate.Some?
    requires RuleOf(ToLower(p.description)) == NoRule
    ensures TransactionSuggestions(p, now) == NoSuggestion
  {
  }

  // ------------------------------------------------------------ categories

  /** The keys `getCategorySuggestions` may set besides the type it is given. */
  datatype CategorySuggestion = CategorySuggestion(catType: TxType, dreGroup: Option<DreGroup>,
                                                   categoryType: Option<string>)

  /** `getCategorySuggestions`: the result always carries the type; with a description,
      expense keywords point at the personnel or the administrative group, income keywords
      at gross revenue or financial income. */
  function CategorySuggestions(t: TxType, description: string): (r: CategorySuggestion)
    ensures r.catType == t
    ensures r.dreGroup.Some? <==> r.categoryType.Some?
    ensures description == [] ==> r.dreGroup.None?
    ensures t == Expense && r.dreGroup.Some? ==>
      r.dreGroup.value == DespesasPessoal || r.dreGroup.value == DespesasAdministrativas
    ensures t == Income && r.dreGroup.Some? ==>
      r.dreGroup.value == ReceitaBruta || r.dreGroup.value == ReceitasFinanceiras
    ensures var d := ToLower(description);
      t == Expense ==> (r.dreGroup == Some(DespesasPessoal) <==> Contains(d, "salário") || Contains(d, "benefício"))
    ensures var d := ToLower(description);
      t == Income ==> (r.dreGroup == Some(ReceitaBruta) <==> Contains(d, "consultoria") || Contains(d, "serviço"))
  {
    var d := ToLower(description);
    if description == [] then CategorySuggestion(t, None, None)
    else if t == Expense then
      if Contains(d, "salário") || Contains(d, "benefício") then
        CategorySuggestion(t, Some(DespesasPessoal), Some("Folha de Pagamento"))
      else if Contains(d, "aluguel") || Contains(d, "conta") then
        CategorySuggestion(t, Some(DespesasAdministrativas), Some("Despesas Fixas"))
      else CategorySuggestion(t, None, None)
    else
      if Contains(d, "consultoria") || Contains(d, "serviço") then
        CategorySuggestion(t, Some(ReceitaBruta), Some("Serviços"))
      else if Contains(d, "juros") || Contains(d, "rendimento") then
        CategorySuggestion(t, Some(ReceitasFinanceiras), Some("Receitas Financeiras"))
      else CategorySuggestion(t, None, None)
  }

  // ------------------------------------------------------------ bank accounts

  /** One row of the bank table: the bank's name and the account name to suggest. */
  datatype Bank = Bank(name: string, suggestedName: string)

  function BankOf(code: string): Option<Bank>
  {
    if code == "001" then Some(Bank("Banco do Brasil", "Conta BB Principal"))
    else if code == "341" then Some(Bank("Itaú", "Conta Itaú Empresarial"))
    else if code == "033" then Some(Bank("Santander", "Conta Santander Business"))
    else if code == "237" then Some(Bank("Bradesco", "Conta Bradesco Company"))
    else None
  }

  datatype AccountSuggestion = AccountSuggestion(name: string, bankCode: string, initialBalance: int)

  /** `getBankAccountSuggestions`: a known code gives the table's account name, the code
      itself and a zero opening balance; any other code gives nothing (None is `{}`). */
  function BankAccountSuggestions(code: string): (r: Option<AccountSuggestion>)
    ensures r.Some? <==> code == "001" || code == "341" || code == "033" || code == "237"
    ensures r.Some? ==> r.value.bankCode == code && r.value.initialBalance == 0
  {
    match BankOf(code)
    case Some(bank) => Some(AccountSuggestion(bank.suggestedName, code, 0))
    case None => None
  }

  /** Different banks suggest different account names, so the name tells the bank. */
  lemma SuggestedNamesDistinct(a: string, b: string)
    requires BankAccountSuggestions(a).Some? && BankAccountSuggestions(b).Some?
    requires BankAccountSuggestions(a).value.name == BankAccountSuggestions(b).value.name
    ensures a == b
  {
  }
}
