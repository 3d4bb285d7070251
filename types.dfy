/** The shared data model of the bookkeeping application (src/types/index.ts).
    Amounts are integers counting cents; dates are instants in milliseconds
    together with their calendar reading. */
module Types {
  import opened Wrappers

  const MsPerDay: int := 86400000

  /** A zero-based month index, as `Date.getMonth()` returns it. */
  type Month = m: int | 0 <= m < 12

  /** An instant (`getTime()`, milliseconds) together with its calendar year and month. */
  datatype Date = Date(time: int, year: int, month: Month)

  /** The day an instant falls on, counted from the epoch; two instants share the
      `toISOString()` date prefix exactly when they share this number. */
  function DayKey(d: Date): int
  {
    d.time / MsPerDay
  }

  datatype TxType = Income | Expense
  datatype Status = Pending | Completed

  datatype Attachment = Attachment(
    id: string, transactionId: string, url: string, name: string, userId: string, createdAt: int)

  /** A ledger entry. An absent `reconciled` flag reads as false. */
  datatype Transaction = Transaction(
    id: string,
    txType: TxType,
    description: string,
    amount: int,
    category: string,
    competenceDate: Date,
    dueDate: Date,
    invoiceNumber: Option<string>,
    status: Status,
    bankAccount: string,
    supplier: Option<string>,
    reconciled: bool,
    transferId: Option<string>,
    costCenter: Option<string>,
    attachments: Option<seq<Attachment>>)

  datatype ContactType = Client | Supplier

  datatype Contact = Contact(
    id: string, name: string, contactType: ContactType,
    document: Option<string>, email: Option<string>, phone: Option<string>)

  datatype CostCenter = CostCenter(id: string, name: string, description: Option<string>, active: bool)

  /** The thirteen income-statement groups a category can belong to. */
  datatype DreGroup =
    | ReceitaBruta | Impostos | DeducaoReceita | CustosCmv | CustosCpv | CustosServicos
    | DespesasAdministrativas | DespesasPessoal | DespesasVariaveis | OutrasReceitas
    | ReceitasFinanceiras | DespesasFinanceiras | Investimentos

  /** The identifier under which a group is stored with a category. */
  function GroupId(g: DreGroup): (r: string)
    ensures r != []
  {
    match g
    case ReceitaBruta => "receita_bruta"
    case Impostos => "impostos"
    case DeducaoReceita => "deducao_receita"
    case CustosCmv => "custos_cmv"
    case CustosCpv => "custos_cpv"
    case CustosServicos => "custos_servicos"
    case DespesasAdministrativas => "despesas_administrativas"
    case DespesasPessoal => "despesas_pessoal"
    case DespesasVariaveis => "despesas_variaveis"
    case OutrasReceitas => "outras_receitas"
    case ReceitasFinanceiras => "receitas_financeiras"
    case DespesasFinanceiras => "despesas_financeiras"
    case Investimentos => "investimentos"
  }

  /** The group a stored identifier names, if it names one. */
  function ParseGroup(s: string): (r: Option<DreGroup>)
    ensures r.Some? ==> GroupId(r.value) == s
  {
    if s == "receita_bruta" then Some(ReceitaBruta)
    else if s == "impostos" then Some(Impostos)
    else if s == "deducao_receita" then Some(DeducaoReceita)
    else if s == "custos_cmv" then Some(CustosCmv)
    else if s == "custos_cpv" then Some(CustosCpv)
    else if s == "custos_servicos" then Some(CustosServicos)
    else if s == "despesas_administrativas" then Some(DespesasAdministrativas)
    else if s == "despesas_pessoal" then Some(DespesasPessoal)
    else if s == "despesas_variaveis" then Some(DespesasVariaveis)
    else if s == "outras_receitas" then Some(OutrasReceitas)
    else if s == "receitas_financeiras" then Some(ReceitasFinanceiras)
    else if s == "despesas_financeiras" then Some(DespesasFinanceiras)
    else if s == "investimentos" then Some(Investimentos)
    else None
  }

  lemma ParseGroupId(g: DreGroup)
    ensures ParseGroup(GroupId(g)) == Some(g)
  {
  }

  /** A category; its `dreGroup` is kept as the stored text, which may name no group. */
  datatype CategoryType = CategoryType(id: string, name: string, catType: TxType, dreGroup: string, userId: string)

  datatype BankAccount = BankAccount(
    id: string, name: string, bankCode: string, agency: string, accountNumber: string,
    initialBalance: int, currentBalance: int, userId: string, isPrimary: bool)

  datatype StatementType = Credit | Debit

  datatype BankStatement = BankStatement(
    id: string, bankAccountId: string, transactionDate: Date, description: string,
    amount: int, stType: StatementType, balance: int, reconciled: bool,
    transactionId: Option<string>, userId: string)

  /** The signed effect of a transaction on a balance: income adds, expense subtracts. */
  function Signed(t: Transaction): int
  {
    if t.txType == Income then t.amount else -t.amount
  }

  function IncomeAmount(t: Transaction): int
  {
    if t.txType == Income then t.amount else 0
  }

  function ExpenseAmount(t: Transaction): int
  {
    if t.txType == Expense then t.amount else 0
  }

  /** The first category with the given name (`categoryTypes.find(c => c.name === name)`). */
  function FindCategory(cats: seq<CategoryType>, name: string): (r: Option<CategoryType>)
    ensures r.Some? ==> r.value in cats && r.value.name == name
    ensures r.None? ==> forall c :: c in cats ==> c.name != name
  {
    if cats == [] then None
    else if cats[0].name == name then Some(cats[0])
    else FindCategory(cats[1..], name)
  }

  /** The first account with the given id. */
  function FindAccount(accounts: seq<BankAccount>, id: string): (r: Option<BankAccount>)
    ensures r.Some? ==> r.value in accounts && r.value.id == id
    ensures r.None? ==> forall a :: a in accounts ==> a.id != id
  {
    if accounts == [] then None
    else if accounts[0].id == id then Some(accounts[0])
    else FindAccount(accounts[1..], id)
  }

  // The key fields the store looks records up by.
  function TxId(t: Transaction): string { t.id }
  function AccountKey(a: BankAccount): string { a.id }
  function StatementKey(s: BankStatement): string { s.id }
  function CategoryName(c: CategoryType): string { c.name }
  function AttachmentKey(a: Attachment): string { a.id }
}
