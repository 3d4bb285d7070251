/** The receivables screen (src/components/ContasReceber.tsx): the overdue metrics
    with their aging buckets, the filtered and sorted list, the status toggle and
    the validation of a spreadsheet import. The current instant `now` and the pt-BR
    date text of a due date are parameters. */
module Receivables {
  import opened Wrappers
  import opened Types
  import opened Text
  import opened Folds
  import opened Sorting
  import opened Records
  import opened Money
  import opened Ledger
  import Excel
  import Store

  // ------------------------------------------------------------ overdue metrics

  /** Income still waiting to be received. */
  predicate PendingIncome(t: Transaction)
  {
    t.txType == Income && t.status == Pending
  }

  predicate IsOverdue(t: Transaction, now: int)
  {
    t.dueDate.time < now
  }

  function ReceivablesOf(ts: seq<Transaction>): seq<Transaction>
  {
    Filter(ts, PendingIncome)
  }

  function OverdueOf(ts: seq<Transaction>, now: int): seq<Transaction>
  {
    Filter(ReceivablesOf(ts), (t: Transaction) => IsOverdue(t, now))
  }

  /** Whole days past due, rounded down (`Math.floor` of the millisecond difference
      over a day; for a positive divisor `/` rounds down). */
  function DaysOverdue(t: Transaction, now: int): int
  {
    (now - t.dueDate.time) / MsPerDay
  }

  /** The entry of `byDaysOverdue` for one number of days. */
  datatype DayTally = DayTally(days: int, count: int, amount: int)

  function FindDays(entries: seq<DayTally>, d: int): (r: Option<nat>)
    ensures r.Some? ==> r.value < |entries| && entries[r.value].days == d
    ensures r.None? ==> forall i :: 0 <= i < |entries| ==> entries[i].days != d
  {
    if entries == [] then None
    else if entries[0].days == d then Some(0)
    else match FindDays(entries[1..], d)
      case None => None
      case Some(k) => Some(k + 1)
  }

  /** One more transaction `d` days overdue: its entry is created at zero when
      missing, then counted and its amount added. */
  function Tallied(entries: seq<DayTally>, d: int, amount: int): seq<DayTally>
  {
    match FindDays(entries, d)
    case None => entries + [DayTally(d, 1, amount)]
    case Some(k) => entries[k := DayTally(d, entries[k].count + 1, entries[k].amount + amount)]
  }

  /** `byDaysOverdue` after the given overdue transactions, in insertion order. */
  function ByDays(p: seq<Transaction>, now: int): seq<DayTally>
  {
    if p == [] then []
    else var t := p[|p| - 1]; Tallied(ByDays(p[..|p| - 1], now), DaysOverdue(t, now), t.amount)
  }

  /** The aging bucket of a number of days: up to 30 (day 0 included), 31 to 60,
      61 to 90, and over 90. */
  function BucketOf(days: int): (b: nat)
    ensures b < 4
    ensures b == 0 <==> days <= 30
    ensures b == 1 <==> 30 < days <= 60
    ensures b == 2 <==> 60 < days <= 90
    ensures b == 3 <==> 90 < days
  {
    if days <= 30 then 0 else if days <= 60 then 1 else if days <= 90 then 2 else 3
  }

  datatype Tally = Tally(count: int, amount: int)

  function CountIn(b: nat): DayTally -> int
  {
    (e: DayTally) => if BucketOf(e.days) == b then e.count else 0
  }

  function AmountIn(b: nat): DayTally -> int
  {
    (e: DayTally) => if BucketOf(e.days) == b then e.amount else 0
  }

  /** The four aging buckets over the per-day entries. */
  function Aging(entries: seq<DayTally>): (r: seq<Tally>)
    ensures |r| == 4
  {
    seq(4, b requires 0 <= b < 4 => Tally(Sum(entries, CountIn(b)), Sum(entries, AmountIn(b))))
  }

  datatype Metrics = Metrics(count: nat, amount: int, rate: real, aging: seq<Tally>, transactions: seq<Transaction>)

  /** `overdueMetrics`. */
  function OverdueMetricsOf(ts: seq<Transaction>, now: int): Metrics
  {
    var overdue := OverdueOf(ts, now);
    var amount := Sum(overdue, Amount);
    Metrics(|overdue|, amount, Percent(amount, Sum(ReceivablesOf(ts), Amount)),
            Aging(ByDays(overdue, now)), overdue)
  }

  lemma AgingStep(entries: seq<DayTally>, j: nat)
    requires j < |entries|
    ensures var b := BucketOf(entries[j].days);
      var before := Aging(entries[..j]);
      Aging(entries[..j + 1]) == before[b := Tally(before[b].count + entries[j].count, before[b].amount + entries[j].amount)]
  {
    forall c | 0 <= c < 4
      ensures Sum(entries[..j + 1], CountIn(c)) == Sum(entries[..j], CountIn(c)) + CountIn(c)(entries[j])
      ensures Sum(entries[..j + 1], AmountIn(c)) == Sum(entries[..j], AmountIn(c)) + AmountIn(c)(entries[j])
    {
      SumStep(entries, j, CountIn(c));
      SumStep(entries, j, AmountIn(c));
    }
  }

  lemma ByDaysStep(p: seq<Transaction>, i: nat, now: int)
    requires i < |p|
    ensures ByDays(p[..i + 1], now) == Tallied(ByDays(p[..i], now), DaysOverdue(p[i], now), p[i].amount)
  {
    assert p[..i + 1][..i] == p[..i];
  }

  /** The first loop: `byDaysOverdue` filled one overdue transaction at a time. */
  method TallyDays(overdue: seq<Transaction>, now: int) returns (byDays: seq<DayTally>)
    ensures byDays == ByDays(overdue, now)
  {
    byDays := [];
    for i := 0 to |overdue|
      invariant byDays == ByDays(overdue[..i], now)
    {
      var t := overdue[i];
      var d := (now - t.dueDate.time) / MsPerDay;
      var k := FindDays(byDays, d);
      ghost var before := byDays;
      if k.None? {
        byDays := byDays + [DayTally(d, 0, 0)];
        k := Some(|byDays| - 1);
      }
      byDays := byDays[k.value := DayTally(d, byDays[k.value].count + 1, byDays[k.value].amount + t.amount)];
      ByDaysStep(overdue, i, now);
      assert byDays == Tallied(before, d, t.amount);
    }
    assert overdue[..|overdue|] == overdue;
  }

  /** The second loop: each per-day entry added to the bucket of its days. */
  method SpreadAging(byDays: seq<DayTally>) returns (aging: seq<Tally>)
    ensures aging == Aging(byDays)
  {
    aging := [Tally(0, 0), Tally(0, 0), Tally(0, 0), Tally(0, 0)];
    assert aging == Aging(byDays[..0]);
    for j := 0 to |byDays|
      invariant aging == Aging(byDays[..j])
    {
      var e := byDays[j];
      var b := if e.days <= 30 then 0 else if e.days <= 60 then 1 else if e.days <= 90 then 2 else 3;
      AgingStep(byDays, j);
      aging := aging[b := Tally(aging[b].count + e.count, aging[b].amount + e.amount)];
    }
    assert byDays[..|byDays|] == byDays;
  }

  /** The metrics as the screen computes them: the filters and totals, then the
      two loops. */
  method OverdueMetrics(ts: seq<Transaction>, now: int) returns (m: Metrics)
    ensures m == OverdueMetricsOf(ts, now)
  {
    var overdue := OverdueOf(ts, now);
    var total := Sum(ReceivablesOf(ts), Amount);
    var amount := Sum(overdue, Amount);
    var byDays := TallyDays(overdue, now);
    var aging := SpreadAging(byDays);
    var rate := if total == 0 then 0.0 else (amount as real) / (total as real) * 100.0;
    m := Metrics(|overdue|, amount, rate, aging, overdue);
  }

  /** Overdue transactions in bucket `b`, counted and summed directly. */
  function TxCountIn(b: nat, now: int): Transaction -> int
  {
    (t: Transaction) => if BucketOf(DaysOverdue(t, now)) == b then 1 else 0
  }

  function TxAmountIn(b: nat, now: int): Transaction -> int
  {
    (t: Transaction) => if BucketOf(DaysOverdue(t, now)) == b then t.amount else 0
  }

  lemma TalliedCounts(entries: seq<DayTally>, d: int, a: int, b: nat)
    ensures Sum(Tallied(entries, d, a), CountIn(b)) == Sum(entries, CountIn(b)) + (if BucketOf(d) == b then 1 else 0)
    ensures Sum(Tallied(entries, d, a), AmountIn(b)) == Sum(entries, AmountIn(b)) + (if BucketOf(d) == b then a else 0)
  {
    match FindDays(entries, d)
    case None =>
      SumAfter(entries, DayTally(d, 1, a), CountIn(b));
      SumAfter(entries, DayTally(d, 1, a), AmountIn(b));
    case Some(k) =>
      var e := DayTally(d, entries[k].count + 1, entries[k].amount + a);
      SumUpdate(entries, k, e, CountIn(b));
      SumUpdate(entries, k, e, AmountIn(b));
  }

  /** A bucket of the per-day record holds exactly the overdue transactions whose
      days fall in its range: it counts them and sums their amounts. */
  lemma {:induction false} ByDaysBuckets(p: seq<Transaction>, now: int, b: nat)
    ensures Sum(ByDays(p, now), CountIn(b)) == Sum(p, TxCountIn(b, now))
    ensures Sum(ByDays(p, now), AmountIn(b)) == Sum(p, TxAmountIn(b, now))
  {
    if p != [] {
      var t := p[|p| - 1];
      ByDaysBuckets(p[..|p| - 1], now, b);
      TalliedCounts(ByDays(p[..|p| - 1], now), DaysOverdue(t, now), t.amount, b);
    }
  }

  function BucketCount(p: seq<Transaction>, now: int): int
  {
    Sum(p, TxCountIn(0, now)) + Sum(p, TxCountIn(1, now)) + Sum(p, TxCountIn(2, now)) + Sum(p, TxCountIn(3, now))
  }

  function BucketAmount(p: seq<Transaction>, now: int): int
  {
    Sum(p, TxAmountIn(0, now)) + Sum(p, TxAmountIn(1, now)) + Sum(p, TxAmountIn(2, now)) + Sum(p, TxAmountIn(3, now))
  }

  lemma {:induction false} BucketsCover(p: seq<Transaction>, now: int)
    ensures BucketCount(p, now) == |p|
    ensures BucketAmount(p, now) == Sum(p, Amount)
  {
    if p != [] {
      BucketsCover(p[..|p| - 1], now);
    }
  }

  /** Each bucket counts and sums the overdue transactions in its range, and the
      buckets partition the overdue set: their counts add up to the overdue count
      and their amounts to the overdue amount. */
  lemma AgingPartition(ts: seq<Transaction>, now: int)
    ensures var m := OverdueMetricsOf(ts, now);
      && (forall b :: 0 <= b < 4 ==>
            m.aging[b] == Tally(Sum(m.transactions, TxCountIn(b, now)), Sum(m.transactions, TxAmountIn(b, now))))
      && m.aging[0].count + m.aging[1].count + m.aging[2].count + m.aging[3].count == m.count
      && m.aging[0].amount + m.aging[1].amount + m.aging[2].amount + m.aging[3].amount == m.amount
  {
    var overdue := OverdueOf(ts, now);
    forall b | 0 <= b < 4 {
      ByDaysBuckets(overdue, now, b);
    }
    BucketsCover(overdue, now);
  }

  /** The overdue set is the pending income due before `now`, and days past due
      are never negative, so every overdue transaction lands in some bucket. */
  lemma OverdueSelects(ts: seq<Transaction>, now: int)
    ensures forall t :: t in OverdueOf(ts, now) <==> t in ts && PendingIncome(t) && IsOverdue(t, now)
    ensures forall t :: t in OverdueOf(ts, now) ==> DaysOverdue(t, now) >= 0
  {
    FilterMembers(ts, PendingIncome);
    FilterMembers(ReceivablesOf(ts), (t: Transaction) => IsOverdue(t, now));
  }

  /** With non-negative amounts the overdue amount never exceeds what is receivable,
      and the rate lies between 0 and 100. */
  lemma RateBounds(ts: seq<Transaction>, now: int)
    requires NonNegativeAmounts(ts)
    ensures var m := OverdueMetricsOf(ts, now);
      0 <= m.amount <= Sum(ReceivablesOf(ts), Amount) && 0.0 <= m.rate <= 100.0
  {
    var r := ReceivablesOf(ts);
    var over := (t: Transaction) => IsOverdue(t, now);
    var masked := (t: Transaction) => if over(t) then t.amount else 0;
    FilterMembers(ts, PendingIncome);
    assert forall i :: 0 <= i < |r| ==> r[i].amount >= 0 by {
      forall i | 0 <= i < |r| ensures r[i].amount >= 0 {
        assert r[i] in ts;
      }
    }
    SumFilter(r, over, Amount, masked);
    SumMonotone(r, masked, Amount);
    SumNonNegative(r, masked);
    PercentBounds(Sum(OverdueOf(ts, now), Amount), Sum(r, Amount));
  }

  // ------------------------------------------------------------ the list

  /** The search columns the screen offers. */
  datatype Column = AllColumns | SupplierColumn | BankAccountColumn | AmountColumn
    | CategoryColumn | CostCenterColumn | InvoiceNumberColumn | DueDateColumn

  /** A column identifier; anything else names no column. */
  function ParseColumn(id: string): Option<Column>
  {
    if id == "all" then Some(AllColumns)
    else if id == "supplier" then Some(SupplierColumn)
    else if id == "bankAccount" then Some(BankAccountColumn)
    else if id == "amount" then Some(AmountColumn)
    else if id == "category" then Some(CategoryColumn)
    else if id == "costCenter" then Some(CostCenterColumn)
    else if id == "invoiceNumber" then Some(InvoiceNumberColumn)
    else if id == "dueDate" then Some(DueDateColumn)
    else None
  }

  /** An optional text that is present and contains the term, ignoring case. */
  predicate PresentContains(o: Option<string>, term: string)
  {
    o.Some? && ContainsIgnoringCase(o.value, term)
  }

  /** The name of the transaction's account contains the term; no account, no match. */
  predicate AccountMatches(t: Transaction, accounts: seq<BankAccount>, term: string)
  {
    var a := FindAccount(accounts, t.bankAccount);
    a.Some? && ContainsIgnoringCase(a.value.name, term)
  }

  /** The search of one column. Amounts and dates are matched case-sensitively
      against their text. */
  predicate ColumnMatches(t: Transaction, c: Column, term: string, accounts: seq<BankAccount>, dateText: Date -> string)
  {
    match c
    case AllColumns =>
      ContainsIgnoringCase(t.description, term) || PresentContains(t.supplier, term) ||
      ContainsIgnoringCase(t.category, term) || PresentContains(t.costCenter, term) ||
      PresentContains(t.invoiceNumber, term) || AccountMatches(t, accounts, term) ||
      Contains(CentsText(t.amount), term) || Contains(dateText(t.dueDate), term)
    case SupplierColumn => PresentContains(t.supplier, term)
    case BankAccountColumn => AccountMatches(t, accounts, term)
    case AmountColumn => Contains(CentsText(t.amount), term)
    case CategoryColumn => ContainsIgnoringCase(t.category, term)
    case CostCenterColumn => PresentContains(t.costCenter, term)
    case InvoiceNumberColumn => PresentContains(t.invoiceNumber, term)
    case DueDateColumn => Contains(dateText(t.dueDate), term)
  }

  /** The search criteria the list is filtered by. */
  datatype Search = Search(start: int, end: int, term: string, column: string)

  predicate InWindow(t: Transaction, s: Search)
  {
    s.start <= t.dueDate.time <= s.end
  }

  /** `filteredTransactions`: pending income due inside the window, and, when a
      term is typed, matching it in the chosen column. */
  predicate Listed(t: Transaction, s: Search, accounts: seq<BankAccount>, dateText: Date -> string)
  {
    PendingIncome(t) && InWindow(t, s) &&
    (s.term == "" ||
      match ParseColumn(s.column)
      case None => false
      case Some(c) => ColumnMatches(t, c, s.term, accounts, dateText))
  }

  function ListedOf(ts: seq<Transaction>, s: Search, accounts: seq<BankAccount>, dateText: Date -> string): seq<Transaction>
  {
    Filter(ts, (t: Transaction) => Listed(t, s, accounts, dateText))
  }

  /** The list shows pending income due inside the window, and with an empty term
      it shows all of it. */
  lemma ListedSelects(ts: seq<Transaction>, s: Search, accounts: seq<BankAccount>, dateText: Date -> string)
    ensures forall t :: t in ListedOf(ts, s, accounts, dateText) ==> t in ts && PendingIncome(t) && InWindow(t, s)
    ensures s.term == "" ==> forall t :: t in ListedOf(ts, s, accounts, dateText) <==> t in ts && PendingIncome(t) && InWindow(t, s)
  {
    FilterMembers(ts, (t: Transaction) => Listed(t, s, accounts, dateText));
  }

  /** Searching every column finds whatever a search of one column finds. */
  lemma AllColumnsCovers(t: Transaction, c: Column, term: string, accounts: seq<BankAccount>, dateText: Date -> string)
    requires ColumnMatches(t, c, term, accounts, dateText)
    ensures ColumnMatches(t, AllColumns, term, accounts, dateText)
  {
  }

  lemma {:induction false} NothingPasses(ts: seq<Transaction>, p: Transaction -> bool)
    requires forall i :: 0 <= i < |ts| ==> !p(ts[i])
    ensures Filter(ts, p) == []
  {
    if ts != [] {
      NothingPasses(ts[..|ts| - 1], p);
    }
  }

  /** A typed term with an unknown column shows nothing. */
  lemma UnknownColumnShowsNothing(ts: seq<Transaction>, s: Search, accounts: seq<BankAccount>, dateText: Date -> string)
    requires s.term != "" && ParseColumn(s.column).None?
    ensures ListedOf(ts, s, accounts, dateText) == []
  {
    NothingPasses(ts, (t: Transaction) => Listed(t, s, accounts, dateText));
  }

  // ------------------------------------------------------------ the order

  /** The comparator of the list: overdue first, then by due date. */
  function Compare(a: Transaction, b: Transaction, now: int): int
  {
    var aOverdue := IsOverdue(a, now);
    var bOverdue := IsOverdue(b, now);
    if aOverdue && !bOverdue then -1
    else if !aOverdue && bOverdue then 1
    else a.dueDate.time - b.dueDate.time
  }

  /** Since overdue means due before `now`, the comparator orders exactly as the
      due dates do; a stable sort by due date is therefore the list's order. */
  lemma CompareIsDueOrder(a: Transaction, b: Transaction, now: int)
    ensures Compare(a, b, now) < 0 <==> DueTime(a) < DueTime(b)
    ensures Compare(a, b, now) == 0 <==> DueTime(a) == DueTime(b)
  {
  }

  function SortedList(s: seq<Transaction>): seq<Transaction>
  {
    SortBy(s, DueTime)
  }

  /** The sorted list rearranges the listed transactions, no pair is out of the
      comparator's order, and no overdue transaction follows one that is not. */
  lemma SortedListOrder(s: seq<Transaction>, now: int)
    ensures multiset(SortedList(s)) == multiset(s)
    ensures forall i, j :: 0 <= i < j < |SortedList(s)| ==> Compare(SortedList(s)[i], SortedList(s)[j], now) <= 0
    ensures forall i, j :: 0 <= i < j < |SortedList(s)| && IsOverdue(SortedList(s)[j], now) ==> IsOverdue(SortedList(s)[i], now)
  {
    SortByCorrect(s, DueTime);
    var r := SortedList(s);
    forall i, j | 0 <= i < j < |r| ensures Compare(r[i], r[j], now) <= 0 {
      CompareIsDueOrder(r[i], r[j], now);
    }
  }

  // ------------------------------------------------------------ status toggle

  const NotFound: string := "Transaction not found"

  /** The fields `handleStatusChange` sends. */
  datatype StatusPatch = StatusPatch(status: Status, reconciled: bool)

  function StatusChange(ts: seq<Transaction>, id: string): Result<StatusPatch, string>
  {
    match IndexOf(ts, TxId, id)
    case None => Err(NotFound)
    case Some(k) =>
      var status := if ts[k].status == Pending then Completed else Pending;
      Ok(StatusPatch(status, status == Completed))
  }

  /** The list once the patch is applied to the first record with the id. */
  function Toggled(ts: seq<Transaction>, id: string): seq<Transaction>
  {
    match StatusChange(ts, id)
    case Err(_) => ts
    case Ok(p) => Store.Marked(ts, id, p.status, p.reconciled)
  }

  /** The toggle flips pending and completed on the first record with the id and
      reconciles exactly when it completes; a missing id is an error. */
  lemma StatusChangeSpec(ts: seq<Transaction>, id: string)
    ensures IndexOf(ts, TxId, id).None? <==> StatusChange(ts, id) == Err(NotFound)
    ensures forall i: nat :: FirstWith(ts, TxId, id, i) ==>
      StatusChange(ts, id).Ok? &&
      var p := StatusChange(ts, id).value;
      p.status != ts[i].status && p.reconciled == (p.status == Completed) &&
      Toggled(ts, id) == ts[i := ts[i].(status := p.status, reconciled := p.reconciled)]
  {
    forall i: nat | FirstWith(ts, TxId, id, i) ensures IndexOf(ts, TxId, id) == Some(i) {
      IndexOfFirst(ts, TxId, id, i);
      Store.MarkedSpec(ts, id, StatusChange(ts, id).value.status, StatusChange(ts, id).value.reconciled, i);
    }
  }

  /** Toggling twice restores the status. */
  lemma ToggleTwice(ts: seq<Transaction>, id: string, i: nat)
    requires FirstWith(ts, TxId, id, i)
    ensures |Toggled(Toggled(ts, id), id)| == |ts|
    ensures Toggled(Toggled(ts, id), id)[i].status == ts[i].status
  {
    StatusChangeSpec(ts, id);
    var once := Toggled(ts, id);
    assert FirstWith(once, TxId, id, i);
    StatusChangeSpec(once, id);
  }

  // ------------------------------------------------------------ import

  /** The names an imported row may use. */
  datatype Known = Known(accounts: set<string>, categories: set<string>, costCenters: set<string>, clients: set<string>)

  /** Account names, income category names, active cost-centre names and client names. */
  function KnownNames(accounts: seq<BankAccount>, cats: seq<CategoryType>, centers: seq<CostCenter>, contacts: seq<Contact>): Known
  {
    Known(
      set a | a in accounts :: a.name,
      set c | c in cats && c.catType == Income :: c.name,
      set c | c in centers && c.active :: c.name,
      set c | c in contacts && c.contactType == Client :: c.name)
  }

  function Quoted(s: string): string { "\"" + s + "\"" }

  predicate UnknownAccount(x: Excel.Imported, k: Known) { x.bankAccount != "" && x.bankAccount !in k.accounts }
  predicate UnknownCategory(x: Excel.Imported, k: Known) { x.category != "" && x.category !in k.categories }
  predicate UnknownCostCenter(x: Excel.Imported, k: Known)
  {
    x.costCenter.Some? && x.costCenter.value != "" && x.costCenter.value !in k.costCenters
  }
  predicate UnknownClient(x: Excel.Imported, k: Known) { x.supplier != "" && x.supplier !in k.clients }

  predicate RowValid(x: Excel.Imported, k: Known)
  {
    !UnknownAccount(x, k) && !UnknownCategory(x, k) && !UnknownCostCenter(x, k) && !UnknownClient(x, k)
  }

  /** The messages for one row, in the order the checks run. */
  function RowErrors(x: Excel.Imported, row: nat, k: Known): (r: seq<string>)
  {
    var tag := "Linha " + NatToString(row) + ": ";
    (if UnknownAccount(x, k) then [tag + "Conta bancária " + Quoted(x.bankAccount) + " não encontrada"] else []) +
    (if UnknownCategory(x, k) then [tag + "Categoria " + Quoted(x.category) + " não encontrada"] else []) +
    (if UnknownCostCenter(x, k) then [tag + "Centro de custo " + Quoted(x.costCenter.value) + " não encontrado"] else []) +
    (if UnknownClient(x, k) then [tag + "Cliente " + Quoted(x.supplier) + " não encontrado"] else [])
  }

  /** All messages, row by row; row `i` of the list is line `i + 2` of the sheet. */
  function ImportErrors(xs: seq<Excel.Imported>, k: Known): seq<string>
  {
    if xs == [] then [] else ImportErrors(xs[..|xs| - 1], k) + RowErrors(xs[|xs| - 1], |xs| + 1, k)
  }

  function Join(lines: seq<string>, sep: string): string
  {
    if lines == [] then "" else if |lines| == 1 then lines[0] else Join(lines[..|lines| - 1], sep) + sep + lines[|lines| - 1]
  }

  /** The id of the first account with the name, or "". */
  function AccountIdByName(accounts: seq<BankAccount>, name: string): (r: string)
    ensures r != "" ==> exists a :: a in accounts && a.name == name && a.id == r
  {
    if accounts == [] then ""
    else if accounts[0].name == name && accounts[0].id != "" then accounts[0].id
    else if accounts[0].name == name then ""
    else AccountIdByName(accounts[1..], name)
  }

  /** A row as it is added: income, with the account's id in place of its name. */
  function AsIncome(x: Excel.Imported, accounts: seq<BankAccount>): Excel.Imported
  {
    x.(txType := Income, bankAccount := AccountIdByName(accounts, x.bankAccount))
  }

  function AllAsIncome(xs: seq<Excel.Imported>, accounts: seq<BankAccount>): (r: seq<Excel.Imported>)
    ensures |r| == |xs| && forall i :: 0 <= i < |xs| ==> r[i] == AsIncome(xs[i], accounts)
  {
    if xs == [] then [] else AllAsIncome(xs[..|xs| - 1], accounts) + [AsIncome(xs[|xs| - 1], accounts)]
  }

  /** `handleImport` after parsing: every message joined under one heading, or
      the rows to add when there is none. */
  function ImportOutcome(xs: seq<Excel.Imported>, k: Known, accounts: seq<BankAccount>): Result<seq<Excel.Imported>, string>
  {
    var errors := ImportErrors(xs, k);
    if |errors| > 0 then Err("Erros encontrados:\n" + Join(errors, "\n"))
    else Ok(AllAsIncome(xs, accounts))
  }

  predicate TaggedWith(e: string, row: nat)
  {
    StartsWith(e, "Linha " + NatToString(row) + ": ")
  }

  /** Each message of a row carries that row's line number. */
  lemma RowErrorsTagged(x: Excel.Imported, row: nat, k: Known)
    ensures RowErrors(x, row, k) == [] <==> RowValid(x, k)
    ensures forall e :: e in RowErrors(x, row, k) ==> TaggedWith(e, row)
  {
    var tag := "Linha " + NatToString(row) + ": ";
    forall e | e in RowErrors(x, row, k) ensures TaggedWith(e, row) {
      assert e[..|tag|] == tag;
    }
  }

  /** The messages come row after row, each tagged with its line, and there is
      none exactly when every row is valid. */
  lemma {:induction false} ImportErrorsSpec(xs: seq<Excel.Imported>, k: Known)
    ensures ImportErrors(xs, k) == [] <==> forall i :: 0 <= i < |xs| ==> RowValid(xs[i], k)
    ensures forall e :: e in ImportErrors(xs, k) ==> exists row :: 2 <= row < |xs| + 2 && TaggedWith(e, row)
  {
    if xs != [] {
      var p := xs[..|xs| - 1];
      var x := xs[|xs| - 1];
      ImportErrorsSpec(p, k);
      RowErrorsTagged(x, |xs| + 1, k);
      forall e | e in ImportErrors(xs, k) ensures exists row :: 2 <= row < |xs| + 2 && TaggedWith(e, row) {
        if e in ImportErrors(p, k) {
          var row :| 2 <= row < |p| + 2 && TaggedWith(e, row);
        } else {
          assert TaggedWith(e, |xs| + 1);
        }
      }
      if forall i :: 0 <= i < |xs| ==> RowValid(xs[i], k) {
        assert forall i :: 0 <= i < |p| ==> RowValid(p[i], k) by {
          forall i | 0 <= i < |p| ensures RowValid(p[i], k) {
            assert p[i] == xs[i];
          }
        }
      } else if ImportErrors(p, k) == [] {
        assert !RowValid(x, k);
      }
    }
  }

  /** Any invalid row aborts the import before anything is added; otherwise every
      row is added, in order, as income on the account found by its name. */
  lemma ImportOutcomeSpec(xs: seq<Excel.Imported>, k: Known, accounts: seq<BankAccount>)
    ensures ImportOutcome(xs, k, accounts).Ok? <==> forall i :: 0 <= i < |xs| ==> RowValid(xs[i], k)
    ensures ImportOutcome(xs, k, accounts).Err? ==>
      ImportOutcome(xs, k, accounts).error == "Erros encontrados:\n" + Join(ImportErrors(xs, k), "\n")
    ensures ImportOutcome(xs, k, accounts).Ok? ==>
      var added := ImportOutcome(xs, k, accounts).value;
      |added| == |xs| &&
      forall i :: 0 <= i < |xs| ==>
        added[i].txType == Income && added[i].bankAccount == AccountIdByName(accounts, xs[i].bankAccount) &&
        added[i].(txType := xs[i].txType, bankAccount := xs[i].bankAccount) == xs[i]
  {
    ImportErrorsSpec(xs, k);
  }
}
