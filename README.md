# PrimeERP finance core, modelled in Dafny

PrimeERP is a React/Supabase bookkeeping application for small Brazilian companies.
Users record income and expenses ("contas"), manage bank accounts and import bank statements (OFX) and spreadsheets.
They reconcile statements with the ledger and read cash-flow, income-statement (DRE) and delinquency reports.
This project models the logic behind those screens and the stores and libraries they call, and proves what that logic promises.

Representation:
- Amounts are whole cents (`int`) and every sum is exact; ratios are `real`. The application adds with decimal.js in most views, but some sums are of JavaScript numbers (the category flow adds `.toNumber()` values, the annual flow adds numbers, and the store keeps balances as `.toNumber()`), so there the model leaves out floating-point rounding.
- Dates are an instant in milliseconds together with its calendar year and month; day keys are day numbers.
- Text is `seq<char>`.
- Where a screen updates state step by step (the store, the grouping loops, the OFX line scanner, the aging buckets, the password generator), the model is a method with a loop or a class with fields. It is proved equal to a specification function, and the properties are proved about that function.
- The server calls, the clock, random numbers and the values other code returns are parameters.

Modules, one per source file or concern:
- Shared: `Wrappers`, `Types` (the data model of `src/types/index.ts`), `Text`, `Folds` (sums, counts, filters), `Records` (first-match lookup, replace, delete), `Sorting` (the stable sort that `Array.prototype.sort` performs with a subtracting comparator), `Ledger`, `Buckets`, `Money` (decimal text of amounts).
- Ledger reports: `DailyMovements`, `CashFlow`, `AnnualCashFlow`, `Reconciliation`, `AccountBalances`, `CategoryFlow`, `Dre`, `Receivables`, `Dashboard`, `CategoryDelinquency`.
- State: `Store`, with the class `FinancialStore`.
- Import and wire formats: `Ofx`, `Excel`, `Api`.
- Forms and validators: `Masks`, `Contacts`, `ProfileForm`, `SmartInput`, `Passwords`, `Session`, `SignIn`, `PasswordReset`, `UpdatePassword`, `Categories`, `Entries`, `DateFilter`, `Suggestions`.

## Model

| member | source | states |
|---|---|---|
| Sorting.SortByCorrect | src/lib/ofx.ts:183 | sorting by a subtracting comparator gives a permutation of the list in ascending key order |
| Sorting.SortSorted | src/components/ConciliacaoBancaria.tsx:68 | sorting a list already in key order leaves it unchanged |
| Sorting.RankByCorrect | src/Dashboard.tsx:62 | sorting by a descending rate gives a permutation of the list with the rates in non-increasing order |
| Types.ParseGroupId | src/types/index.ts:59-72 | each statement group's identifier reads back as that group |
| Ledger.NetIsIncomeMinusExpense | src/components/FluxoCaixa.tsx:78-120 | the running balance, which adds each income and subtracts each expense, ends at the total income minus the total expense |
| Money.DecimalRoundTrip | src/lib/excel.ts:102-137 | reading back the text an amount is written as (`toString`, then `new Decimal`) gives the same number of cents |
| Excel.ParseExcelDate | src/lib/excel.ts:74-81 | a value is read as a calendar date exactly when it splits into three parts at '/', and is otherwise left to the native date parser |
| Excel.DateTextBack | src/lib/excel.ts:74-81 | the pt-BR text "dd/mm/yyyy" reads back as year yyyy (years 0-99 as 1900-1999), zero-based month mm-1 and day dd |
| Excel.ConvertRow | src/lib/excel.ts:99-112 | a row converts exactly when its amount cell holds decimal text and both date cells are present (a blank amount or date cell throws and rejects the file); 'despesa' and only it gives an expense; the dates are the cells' readings; the result is pending and unreconciled; a blank or empty cost centre or invoice number becomes absent |
| Excel.ParseRowsSpec | src/lib/excel.ts:96-118 | the body rows import exactly when every typed row has a decimal amount and both date cells, and then the result is the typed rows converted in order; rows with an empty first cell are skipped; any failure rejects the whole file with one message |
| Excel.ExportRow | src/lib/excel.ts:134-145 | an exported row has one text cell per template header and always a type in its first cell |
| Excel.TypeRoundTrip | src/lib/excel.ts:100-135 | the type written on export reads back as the same type |
| Excel.ExportImport | src/lib/excel.ts:96-151 | exporting then importing gives back every transaction in order with its type, amount, texts and account; empty optional texts come back absent, an absent supplier as "" |
| Excel.RowsRoundTrip | src/lib/excel.ts:96-151 | the exported rows of a list of transactions all convert back, each to its transaction's reimported form, in order |
| Money.FloatRoundTrip | src/components/BaseContas.tsx:172-175 | the amount field shows an amount's text, and `parseFloat` of that text reads back the same number of cents, so an untouched edit does not change the amount |
| Excel.ExportRows | src/lib/excel.ts:134-145 | the export has one row per transaction, in the list's order, each that transaction's row |
| Excel.ExportSheet | src/lib/excel.ts:132-151 | the sheet is the header row followed by one row per transaction |
| Excel.ExportCells | src/lib/excel.ts:134-145 | each column of an exported row holds its field: type word, description, amount text, category, cost centre, both dates, supplier, invoice and account, absent texts as "" |
| Excel.RowRoundTrip | src/lib/excel.ts:100-145 | an exported row converts back to its transaction's reimported form |
| DailyMovements.FindGroup | src/components/DailyMovements.tsx:39 | the lookup finds a group with the day's key, or reports that no group has it |
| DailyMovements.DaysGroupedStep | src/components/DailyMovements.tsx:36-61 | adding a transaction keeps the groups one per day with distinct keys, each holding exactly that day's transactions in order with their income, expense and balance, and all income and expense accounted for |
| DailyMovements.GroupedStep | src/components/DailyMovements.tsx:36-61 | with the running balance moved by the transaction, every group's running balance stays the net of the transactions up to its day |
| DailyMovements.GroupingGroups | src/components/DailyMovements.tsx:36-61 | the grouping of a list of transactions groups them by day with each day's running balance the net up to that day |
| DailyMovements.GroupingChronological | src/components/DailyMovements.tsx:24-61 | for transactions sorted by due time the groups come in increasing day order and the last is the last transaction's day |
| DailyMovements.GroupByDay | src/components/DailyMovements.tsx:26-64 | the loop over the transactions returns exactly `Grouping` |
| DailyMovements.PeriodTotals | src/components/DailyMovements.tsx:66-80 | the totals are the sums of the groups' income and expense, and the balance their difference |
| DailyMovements.SortedDays | src/components/DailyMovements.tsx:17-64 | grouping the sorted window gives its total income and expense, days in increasing order, each day's balance its income minus expense, and a last running balance equal to the window's net |
| DailyMovements.View | src/components/DailyMovements.tsx:17-80 | the totals are the income, expense and net of the transactions due in the window; days are in increasing order with balance income minus expense, and the last day's running balance equals the total balance |
| CashFlow.InitialAgrees | src/components/FluxoCaixa.tsx:46-56 | the twelve months start empty with a zero running balance, which is what no transactions give |
| CashFlow.RecordTransaction | src/components/FluxoCaixa.tsx:58-100 | one transaction moves the running balance by its signed amount and updates its month as `Record` states |
| CashFlow.RecordAt | src/components/FluxoCaixa.tsx:58-100 | after a transaction of month m only month m changes its days, income, expense and balance, and months m onwards carry the new running balance |
| CashFlow.CarryLoop | src/components/FluxoCaixa.tsx:92-100 | the loop over the months sets the running balance of every month after the transaction's and of no other |
| CashFlow.MonthlyFlow | src/components/FluxoCaixa.tsx:58-103 | the loop over the sorted transactions returns exactly `Flow`, including the failure at the first transaction due outside the window's starting year (its month has no group) |
| CashFlow.FlowFailsOutsideYear | src/components/FluxoCaixa.tsx:58-62 | the grouping fails exactly when some transaction is due outside the year, and then at the first such one |
| CashFlow.FlowMonths | src/components/FluxoCaixa.tsx:58-100 | each month groups its transactions by day, its income, expense and balance are its transactions', the months together hold all income and expense, and each month's running balance is the net of all transactions due up to that month |
| CashFlow.CarriedForward | src/components/FluxoCaixa.tsx:92-100 | a month with no transactions shows the running balance of the month before, and December's is the net of everything |
| CashFlow.YearTotals | src/components/FluxoCaixa.tsx:105-119 | the totals are the sums of the months' income and expense, and the balance their difference |
| CashFlow.SortedFlowFails | src/components/FluxoCaixa.tsx:18-62 | sorting by due date does not change whether the grouping fails: it fails exactly when some selected transaction is due outside the year |
| CashFlow.SortedFlowTotals | src/components/FluxoCaixa.tsx:18-119 | after sorting, the months' income and expense add up to those of the selected transactions and December's running balance is their net |
| CashFlow.View | src/components/FluxoCaixa.tsx:18-119 | the view fails exactly when an unreconciled transaction due in the window falls outside the window's starting year; otherwise it has twelve months, the totals are the income, expense and net of the selected transactions, and December's running balance equals the total balance |
| AnnualCashFlow.Seed | src/components/FluxoCaixaAnual.tsx:45-47 | the opening balance is the sum of all initial balances for 'all', otherwise the chosen account's initial balance, and 0 for an unknown account |
| AnnualCashFlow.BalancesCumulative | src/components/FluxoCaixaAnual.tsx:50-69 | the balance shown for month i is the opening balance plus the net of the counted transactions due in months 0 to i |
| AnnualCashFlow.MonthlyData | src/components/FluxoCaixaAnual.tsx:43-170 | the method returns the opening balance, twelve cumulative month-end balances, and the DRE grouping of the per-category entries of the year's unreconciled transactions on the chosen account |
| AnnualCashFlow.AddEntry | src/components/FluxoCaixaAnual.tsx:87-115 | the loop body returns exactly `AddToCategory`: the category's entry created when missing, the amount added to its month and the months up to it re-accumulated |
| AnnualCashFlow.AccumulateUpTo | src/components/FluxoCaixaAnual.tsx:106-115 | the inner loop returns exactly `Reaccumulate`: months up to the transaction's hold the signed running sum of the monthly values, later months keep their value |
| AnnualCashFlow.AddShape | src/components/FluxoCaixaAnual.tsx:90-103 | adding a transaction changes only its category's entry, which is appended with the category's type and group the first time and keeps its name, type and group afterwards |
| AnnualCashFlow.CategoryGroups | src/components/FluxoCaixaAnual.tsx:80-116 | the loop over the counted transactions returns exactly `Categorize` |
| AnnualCashFlow.CategorizeCorrect | src/components/FluxoCaixaAnual.tsx:80-116 | the entries have distinct names, one for every known category that occurs, carrying that category's type and group, and each month's value is the sum of that category's amounts due in that month |
| AnnualCashFlow.AccumulatedInOrder | src/components/FluxoCaixaAnual.tsx:105-115 | when each category's transactions come in month order, an entry's accumulated value is the signed running sum of its monthly values up to its last month and 0 after it |
| AnnualCashFlow.AccumulatedOutOfOrder | src/components/FluxoCaixaAnual.tsx:105-115 | when a March income is met before a January one, March's accumulated value misses the January amount: 100 where the running sum is 150 |
| AnnualCashFlow.AddRunning | src/components/FluxoCaixaAnual.tsx:99-115 | the corrected loop body keeps every entry well formed |
| AnnualCashFlow.CategorizeRunning | src/components/FluxoCaixaAnual.tsx:85-115 | the corrected grouping yields only well-formed entries |
| AnnualCashFlow.FindSameButAccumulated | src/components/FluxoCaixaAnual.tsx:88-100 | looking a category up by name finds the same entry in two lists that differ only in accumulated values |
| AnnualCashFlow.RunningTotalsStep | src/components/FluxoCaixaAnual.tsx:99-115 | one corrected step keeps every accumulated value equal to its running sum |
| AnnualCashFlow.SameStep | src/components/FluxoCaixaAnual.tsx:99-115 | one corrected step changes, beside the source's step, only accumulated values |
| AnnualCashFlow.RunningInAnyOrder | src/components/FluxoCaixaAnual.tsx:85-115 | with the corrected accumulation, in any input order, every entry's accumulated value for every month is the signed running sum of its monthly values, and the entries, their types, groups and monthly values are those the source builds |
| AnnualCashFlow.RunningOutOfOrder | src/components/FluxoCaixaAnual.tsx:105-115 | with the correction, the March-then-January input gives March the accumulated value 150 |
| AnnualCashFlow.IncomeFirstPermutes | src/components/FluxoCaixaAnual.tsx:129-163 | putting the income entries before the expense entries loses and adds no entry |
| AnnualCashFlow.GroupByDre | src/components/FluxoCaixaAnual.tsx:118-163 | the two loops return exactly `DreGroups` |
| AnnualCashFlow.PushAll | src/components/FluxoCaixaAnual.tsx:132-145 | pushing entries one by one onto the bucket of their group extends the bucketing by those entries |
| AnnualCashFlow.DreGrouping | src/components/FluxoCaixaAnual.tsx:118-163 | the buckets have distinct groups, each holding exactly its group's entries in order, every entry is in some bucket, and inside a bucket no income entry follows an expense entry |
| AnnualCashFlow.BucketRowsShape | src/components/FluxoCaixaAnual.tsx:200-218 | the export has one row per bucket plus one per entry of an expanded bucket, each with a label and twelve values |
| AnnualCashFlow.ExportContents | src/components/FluxoCaixaAnual.tsx:194-218 | the export starts with the heading row and the opening-balance row holding the twelve month-end balances, followed by the bucket rows |
| AnnualCashFlow.BucketAt | src/components/FluxoCaixaAnual.tsx:200-218 | a bucket's total row comes right after the rows of the buckets before it, and its category rows, when it is expanded, follow it in order |
| AnnualCashFlow.ExportTotals | src/components/FluxoCaixaAnual.tsx:200-209 | each bucket's total row is labelled with its DRE group and holds, for each month, the sum of its categories' accumulated values, 0 where a category has none |
| AnnualCashFlow.ExportCategoryRows | src/components/FluxoCaixaAnual.tsx:211-218 | an expanded bucket's total row is followed by one row per category, in order, each with the category's accumulated values |
| Reconciliation.ShownOfSelects | src/components/ConciliacaoBancaria.tsx:55-66 | the view lists exactly the reconciled transactions matching the search, on the selected account (any when none is selected) and due inside the period |
| Reconciliation.Seed | src/components/ConciliacaoBancaria.tsx:75-81 | the running balance starts at the selected account's opening balance, and at 0 when no account is selected or it is not found |
| Reconciliation.FindGroup | src/components/ConciliacaoBancaria.tsx:86-93 | looking up a day finds the group with that day key, and none only when no group has it |
| Reconciliation.AddToGroups | src/components/ConciliacaoBancaria.tsx:83-105 | one step of the loop adds the transaction to its day's group and moves the running balance by its signed amount |
| Reconciliation.GroupByDay | src/components/ConciliacaoBancaria.tsx:83-105 | the loop builds the grouping `Grouping` defines |
| Reconciliation.GroupingStep | src/components/ConciliacaoBancaria.tsx:83-105 | each transaction extends the grouping of the ones before it, at the running balance they leave |
| Reconciliation.NoLaterInGroup | src/components/ConciliacaoBancaria.tsx:102-104 | on sorted input no earlier transaction of the day is due later, so every step refreshes the day's balance |
| Reconciliation.GroupingGroups | src/components/ConciliacaoBancaria.tsx:68-105 | on sorted input each day has one group holding its transactions in order, with the seed plus the net through that day as balance; groups are chronological and hold all income and expense |
| Reconciliation.GroupingLast | src/components/ConciliacaoBancaria.tsx:68-105 | on sorted input the day keys increase and the last day's balance is the seed plus the net of everything shown |
| Reconciliation.GroupingSum | src/components/ConciliacaoBancaria.tsx:83-105 | the groups together hold exactly the income and the expense of the transactions |
| Reconciliation.PeriodTotals | src/components/ConciliacaoBancaria.tsx:110-129 | the totals are the groups' income, their expense, and income minus expense |
| Reconciliation.SortedGrouping | src/components/ConciliacaoBancaria.tsx:68-129 | after sorting, the groups' totals are those of the filtered list and the last balance is the seed plus its net |
| Reconciliation.View | src/components/ConciliacaoBancaria.tsx:54-129 | the view's totals are the income, the expense and the net of the shown transactions, the days are in order, and the last day's balance is the account's opening balance plus that net |
| Reconciliation.ValidateTransfer | src/components/ConciliacaoBancaria.tsx:151-174 | a transfer goes ahead exactly when all fields are filled, the accounts differ, the source exists and its balance covers the amount; then it carries the form's fields and today when no date was chosen; a missing field is reported first |
| Reconciliation.IndexOf | src/components/ConciliacaoBancaria.tsx:201 | `findIndex` gives the first account with the id, or -1 when none has it |
| Reconciliation.SwitchIndex | src/components/ConciliacaoBancaria.tsx:200-211 | with at least one account the switch selects an account of the list; with none there is nothing to select |
| Reconciliation.SwitchWraps | src/components/ConciliacaoBancaria.tsx:204-208 | previous from the first (or an unlisted) account wraps to the last, next from the last (or an unlisted) one wraps to the first, otherwise the neighbour is selected |
| Reconciliation.NextUndoesPrev | src/components/ConciliacaoBancaria.tsx:200-211 | with distinct ids, going back one account and forward one returns to the account selected |
| Reconciliation.Unconciliate | src/components/ConciliacaoBancaria.tsx:137-143 | unreconciling makes the transaction pending and not reconciled and changes nothing else |
| AccountBalances.SeededSpec | src/components/SaldosBancarios.tsx:26-30 | the seeded map has one entry per distinct account id, and each holds the initial balance of the last account with that id |
| AccountBalances.ApplyStep | src/components/SaldosBancarios.tsx:35-46 | one transaction moves exactly the entry of its own account, by its signed amount, and keeps every key |
| AccountBalances.AccountBalance | src/components/SaldosBancarios.tsx:25-50 | the map has an entry exactly for the registered accounts, and each balance is its initial balance plus the signed amounts of the reconciled transactions booked on it |
| AccountBalances.SortIrrelevant | src/components/SaldosBancarios.tsx:33-35 | sorting by competence date does not change the balances |
| AccountBalances.UnknownAccountIgnored | src/components/SaldosBancarios.tsx:37 | a transaction naming no registered account leaves every balance as it was |
| AccountBalances.TotalBalance | src/components/SaldosBancarios.tsx:52-56 | the total is the seeded total plus the signed reconciled amounts booked on registered accounts |
| AccountBalances.SeededTotal | src/components/SaldosBancarios.tsx:26-56 | with distinct account ids the seeded total is the sum of the initial balances |
| AccountBalances.AccountBalancesOf | src/components/SaldosBancarios.tsx:25-50 | the two loops return exactly `Balances` |
| AccountBalances.ApplyOne | src/components/SaldosBancarios.tsx:36-46 | the loop body returns exactly `Apply`: a known account's balance moves by the signed amount |
| AccountBalances.AccountFormGuards | src/components/SaldosBancarios.tsx:99-132 | the form is accepted unchanged exactly when name, bank code, agency and account number are all non-blank; otherwise the message is that of the first blank field in that order |
| AccountBalances.SetPrimaryOnlyMarks | src/components/SaldosBancarios.tsx:86-97 | marking an account primary sets the flag on that account only, changes no other account and clears no other primary flag |
| CategoryFlow.SelectedSpec | src/components/FluxoCaixaCategoria.tsx:63-79 | a transaction is counted exactly when its category is known, its competence date is in the selected year and month, and the group, type and name filters (each empty for 'all') admit the category |
| CategoryFlow.BuildCategoryData | src/components/FluxoCaixaCategoria.tsx:55-96 | the loop over the transactions followed by the sort returns exactly `CategoryData` |
| CategoryFlow.EntriesTally | src/components/FluxoCaixaCategoria.tsx:63-92 | the entries built by the loop have distinct names, one for every counted category, each carrying its category's group and type and the sum of its counted transactions |
| CategoryFlow.CategoryDataSpec | src/components/FluxoCaixaCategoria.tsx:55-96 | the category data is a permutation of the entries, sorted by value, highest first; each entry sums exactly its counted transactions and every counted transaction's category has an entry |
| CategoryFlow.PieKeepsOrder | src/components/FluxoCaixaCategoria.tsx:98-108 | the chart data is the category data with the zero entries dropped, in the same order |
| CategoryFlow.SharesAddUp | src/components/FluxoCaixaCategoria.tsx:132-149 | when the chart total is not zero, the percentage column of the export adds up to 100 |
| CategoryFlow.ExportSpec | src/components/FluxoCaixaCategoria.tsx:132-153 | the export has one line per chart entry, with its name and value; the values add up to the total row; an unknown group is written as its raw id; each share is the value over the total times 100 when the total is not zero |
| Dre.Initial | src/components/DRE.tsx:43-53 | every one of the thirteen groups is present, with no categories and zero in all twelve months |
| Dre.InitialGroups | src/components/DRE.tsx:43-53 | the loop over the group table returns exactly the initial table |
| Dre.BuildDreData | src/components/DRE.tsx:40-91 | the loop over the year's transactions returns exactly `DreData`: reconciled transactions of the selected competence year, folded in order |
| Dre.Skipped | src/components/DRE.tsx:56-67 | a transaction that is not reconciled, of another year, of an unknown category or of a category whose group is none of the thirteen leaves the statement unchanged |
| Dre.GroupTotals | src/components/DRE.tsx:62-88 | month m of a group is the sum of the amounts of the transactions of that group and competence month, whatever their type |
| Dre.TotalsNonNegative | src/components/DRE.tsx:84-87 | with non-negative amounts no group total is negative (expenses are added as magnitudes) |
| Dre.Categories | src/components/DRE.tsx:72-87 | per month, a group's total is the sum of its category entries; each entry has its own name, belongs to the group and sums its category's amounts; a category of the group without an entry has nothing to show |
| Dre.CoefficientSign | src/components/DRE.tsx:17-31 | a group enters a result line added when the group table types it income, subtracted when expense |
| Dre.Cascade | src/components/DRE.tsx:103-180 | each result line, month by month, is the signed sum of the group totals it is computed from; EBITDA equals the operating result and net profit equals profit before taxes |
| Dre.LinesFromTransactions | src/components/DRE.tsx:94-183 | month m of every result line is the signed sum of the year's transactions of month m in the groups the line is computed from |
| Dre.MonthVectorTotal | src/components/DRE.tsx:220 | the twelve monthly sums of a row add up to the year's sum |
| Dre.GroupRowTotal | src/components/DRE.tsx:220 | a group row's Total is the sum of the amounts of the year's transactions of the group |
| Dre.LineRowTotal | src/components/DRE.tsx:272-278 | a result row's Total is the signed sum of the year's transactions of the groups the line is computed from |
| Dre.BannerIsDecember | src/components/DRE.tsx:506-512 | the closing banner shows December's final result |
| Dre.BannerIsNotTotal | src/components/DRE.tsx:506-512 | the banner equals the annual final result only when January to November add up to zero |
| Dre.AddTransaction | src/components/DRE.tsx:61-88 | the loop body returns exactly `Add`: a transaction of a known category in one of the thirteen groups is added to its category's month and its group's month; any other leaves the statement unchanged |
| Dre.AddToEntry | src/components/DRE.tsx:72-87 | the category's entry is created at zero in all months when missing, then its month and the group's month are raised by the amount |
| Dre.AddFound | src/components/DRE.tsx:61-88 | a transaction whose category belongs to a known group changes only that group's entry |
| Receivables.OverdueSelects | src/components/ContasReceber.tsx:65-72 | the overdue set is exactly the pending income due before now, and each has a non-negative number of days overdue |
| Receivables.BucketOf | src/components/ContasReceber.tsx:104-118 | the four buckets are days ≤ 30 (day 0 included), 31-60, 61-90 and over 90, and every number of days is in exactly one |
| Receivables.TallyDays | src/components/ContasReceber.tsx:83-95 | the loop builds the per-day record `ByDays`: one entry per distinct day count, created at zero, counting and summing its transactions |
| Receivables.SpreadAging | src/components/ContasReceber.tsx:97-119 | the loop adds each per-day entry to the bucket of its day count, giving `Aging` |
| Receivables.OverdueMetrics | src/components/ContasReceber.tsx:65-126 | the method returns exactly `OverdueMetricsOf`: overdue count and amount, rate, aging buckets and the overdue list |
| Receivables.ByDaysBuckets | src/components/ContasReceber.tsx:83-119 | a bucket of the per-day record counts exactly the overdue transactions whose days fall in its range and sums their amounts |
| Receivables.AgingPartition | src/components/ContasReceber.tsx:83-122 | each bucket counts and sums the overdue transactions in its range, and the four buckets' counts add up to the overdue count and their amounts to the overdue amount |
| Receivables.RateBounds | src/components/ContasReceber.tsx:74-124 | with non-negative amounts the overdue amount lies between 0 and the total receivable, and the rate between 0 and 100 (0 when nothing is receivable) |
| Receivables.ListedSelects | src/components/ContasReceber.tsx:147-156 | every listed transaction is pending income due inside the window, and with an empty term the list is all of it |
| Receivables.AllColumnsCovers | src/components/ContasReceber.tsx:158-198 | whatever a one-column search finds, the all-columns search finds too |
| Receivables.UnknownColumnShowsNothing | src/components/ContasReceber.tsx:172-173 | a typed term with an unknown column shows nothing |
| Receivables.CompareIsDueOrder | src/components/ContasReceber.tsx:205-211 | the overdue-first comparator is negative, zero or positive exactly as the due dates are ordered |
| Receivables.SortedListOrder | src/components/ContasReceber.tsx:204-212 | the sorted list is a permutation of the listed transactions with no pair out of the comparator's order, so no overdue item follows a non-overdue one |
| Receivables.StatusChangeSpec | src/components/ContasReceber.tsx:279-294 | a missing id is the error 'Transaction not found'; otherwise the first record with the id flips pending/completed, is reconciled exactly when it completes, and no other record changes |
| Receivables.ToggleTwice | src/components/ContasReceber.tsx:285-289 | toggling twice restores the status |
| Receivables.RowErrorsTagged | src/components/ContasReceber.tsx:334-349 | a row has no message exactly when its account, category, cost centre and client are known or empty, and each message carries the row's line |
| Receivables.ImportErrorsSpec | src/components/ContasReceber.tsx:334-349 | there is no message exactly when every row is valid, and each message is tagged with a line index+2 of some row |
| Receivables.ImportOutcomeSpec | src/components/ContasReceber.tsx:334-363 | any invalid row aborts with all messages joined under one heading before anything is added; otherwise every row is added in order as income on the id of the account named |
| Receivables.AgingStep | src/components/ContasReceber.tsx:104-119 | each per-day entry adds its count and amount to the one bucket its day count falls in and leaves the other three as they were |
| Receivables.ByDaysStep | src/components/ContasReceber.tsx:83-94 | each overdue transaction adds one to the count and its amount to the total of the entry for its day count |
| Receivables.BucketsCover | src/components/ContasReceber.tsx:83-119 | the four buckets together count every overdue transaction once and sum to the overdue total |
| Receivables.AccountIdByName | src/components/ContasReceber.tsx:360 | a non-empty account id found for an imported row is the id of an account with that name |
| Receivables.AllAsIncome | src/components/ContasReceber.tsx:355-362 | the import adds one income per row, in order, each the row's converted entry |
| Dashboard.SameOverdueAmount | src/components/Dashboard.tsx:12-37 | the amount in arrears (pending income past its due date) is the overdue amount the receivables screen reports |
| Dashboard.DelinquencyBounds | src/components/Dashboard.tsx:12-37 | with non-negative amounts the overdue amount lies between 0 and all income, the rate between 0 and 100 (0 when there is no income), and the rate never exceeds the receivables screen's, whose base is only pending income |
| Dashboard.IndicatorsPartition | src/components/Dashboard.tsx:74-100 | every transaction is in exactly one of receivables, payables, received income and paid expense, by its reconciled flag and type, so the four add up to the sum of all amounts |
| Dashboard.NetProfitIsNet | src/components/Dashboard.tsx:180-205 | the net profit is the signed sum of the reconciled transactions whose competence instant lies in the period `start`..`end`, both ends included |
| Dashboard.EbitdaShares | src/components/Dashboard.tsx:103-142 | EBITDA is the period's reconciled revenue minus the reconciled transactions of the service-cost group minus those of the administrative, personnel and variable groups, whatever their type |
| Dashboard.ValuesOrdered | src/components/Dashboard.tsx:145-205 | with non-negative amounts revenue is non-negative and net profit ≤ contribution margin ≤ revenue |
| Dashboard.ResultsOrdered | src/components/Dashboard.tsx:103-205 | with non-negative amounts, revenue zero makes every margin 0, and the contribution and net-profit margins are at most 100 |
| Dashboard.ExpenseGroupIndex | src/components/Dashboard.tsx:40-270 | a group id is found exactly when it is one of the seven expense groups, at its position in the table |
| Dashboard.BuildAnalysis | src/components/Dashboard.tsx:234-292 | the loops return exactly `AnalysisOf`: seven groups of twelve empty months, then each settled expense of the period booked into its group and month |
| Dashboard.BookExpense | src/components/Dashboard.tsx:265-291 | the loop body returns exactly `Step`: an expense of a known category in one of the seven groups is added to the month total, its group's month and its category's line; any other is skipped |
| Dashboard.AddCategoryAmount | src/components/Dashboard.tsx:282-290 | a category's line is raised by the amount, appended at zero first when missing |
| Dashboard.AnalysisSpec | src/components/Dashboard.tsx:234-292 | each group's month total is the sum of the period's settled expenses of that group and month, its category lines add up to it, and each month total is the sum of those expenses in the seven groups, equal to the seven group totals together |
| Dashboard.GroupPercentages | src/components/Dashboard.tsx:294-307 | in a month without expenses every group and category percentage is 0; otherwise the seven group percentages add up to 100 |
| CategoryDelinquency.AnalyseDelinquency | src/Dashboard.tsx:11-63 | the loop over the unreconciled income returns exactly `DelinquencyAnalysis`: the per-category entries in first-seen order, ranked by rate |
| CategoryDelinquency.CountInto | src/Dashboard.tsx:28-50 | one transaction of the loop is skipped without a category, and otherwise counted into its category's entry, created at zero on first sight |
| CategoryDelinquency.RisksTally | src/Dashboard.tsx:28-50 | the entries have distinct names, one for every category that occurs, each holding exactly the amount, overdue amount, count and overdue count of its category's transactions |
| CategoryDelinquency.AnalysisEntries | src/Dashboard.tsx:22-63 | every entry of the analysis sums exactly its category's unreconciled income, and every such category with a name has an entry |
| CategoryDelinquency.EntryBounds | src/Dashboard.tsx:45-57 | an entry's overdue count is at most its count, its rate is 0 when its total is zero, and with non-negative amounts the overdue amount lies between 0 and the total and the rate between 0 and 100 |
| CategoryDelinquency.AnalysisRanked | src/Dashboard.tsx:60-62 | the analysis is ordered by rate, highest first, and is a permutation of the entries |
| CategoryDelinquency.RisksSums | src/Dashboard.tsx:28-50 | the entries' totals, overdue amounts and overdue counts add up to those of the categorised transactions |
| CategoryDelinquency.TotalDelinquencySpec | src/Dashboard.tsx:66-84 | the overall figure's amount and count are those of the overdue categorised unreconciled income, and its rate is their share of the categorised total, 0 when that total is zero |
| Store.FinancialStore.constructor | src/lib/store.ts:56-93 | the store starts with every collection empty |
| Store.FinancialStore.Reset | src/lib/store.ts:95-108 | a reset empties every collection and clears the initialized, loading and error flags |
| Store.FinancialStore.AddTransaction | src/lib/store.ts:191-217 | the saved transaction is appended and nothing else changes |
| Store.FinancialStore.UpdateTransaction | src/lib/store.ts:219-238 | the update is the local merge `TransactionUpdated` and nothing else |
| Store.TransactionUpdatedSpec | src/lib/store.ts:222-233 | only the first transaction with the id changes: it takes the saved fields and keeps its own attachments; every other entry and collection stays |
| Store.TransactionUpdatedAbsent | src/lib/store.ts:223-224 | an unknown id changes nothing |
| Store.FinancialStore.DeleteTransaction | src/lib/store.ts:240-250 | every transaction with the id is removed and nothing else changes |
| Store.FinancialStore.AddBankAccount | src/lib/store.ts:252-273 | the saved account is appended and nothing else changes |
| Store.FinancialStore.UpdateBankAccount | src/lib/store.ts:275-288 | the first account with the id is replaced by the saved one and nothing else changes |
| Store.FinancialStore.DeleteBankAccount | src/lib/store.ts:290-300 | every account with the id is removed and nothing else changes |
| Store.FinancialStore.AddBankStatement | src/lib/store.ts:392-418 | the saved statement is appended and nothing else changes |
| Store.FinancialStore.ReconcileTransaction | src/lib/store.ts:420-441 | the store takes the state `Reconciled` gives |
| Store.MarkedSpec | src/lib/store.ts:425-454 | marking touches only the first transaction with the id, setting its status and reconciled flag |
| Store.ReconciledSpec | src/lib/store.ts:424-436 | the first transaction with the id becomes completed and reconciled, the first statement with the id becomes reconciled and linked to it; nothing else changes |
| Store.FinancialStore.UnreconcileTransaction | src/lib/store.ts:443-464 | the store takes the state `Unreconciled` gives |
| Store.UnreconciledSpec | src/lib/store.ts:447-459 | a statement without a linked transaction changes nothing; a linked one loses its link and flag and its transaction becomes pending and not reconciled |
| Store.UnreconciledTransaction | src/lib/store.ts:449-454 | unreconciling changes only the linked transaction, making it pending and not reconciled |
| Store.UnreconciledMissing | src/lib/store.ts:448-449 | an unknown statement changes nothing |
| Store.FinancialStore.AddCategoryType | src/lib/store.ts:466-487 | the saved category is appended and nothing else changes |
| Store.FinancialStore.UpdateCategoryType | src/lib/store.ts:489-502 | the first category with the old name is replaced by the saved one and nothing else changes |
| Store.FinancialStore.DeleteCategoryType | src/lib/store.ts:504-514 | every category with the name is removed and nothing else changes |
| Store.FinancialStore.AddAttachment | src/lib/store.ts:631-646 | the store takes the state `AttachmentAdded` gives |
| Store.AttachmentAddedSpec | src/lib/store.ts:633-642 | the attachment is appended to the first transaction with the id, starting its list when it had none; nothing else changes |
| Store.FinancialStore.DeleteAttachment | src/lib/store.ts:649-665 | the store takes the state `AttachmentDeleted` gives |
| Store.AttachmentDeletedSpec | src/lib/store.ts:651-660 | every transaction keeps its other fields and attachments, loses only the attachments with the id, and one with no list keeps none |
| Store.FindAccountFirst | src/lib/store.ts:306 | `find` gives the first account with the id, the same one `findIndex` points at |
| Store.AdjustedSpec | src/lib/store.ts:372-384 | adjusting a found index bumps that account's balance and leaves every other account |
| Store.AdjustedSum | src/lib/store.ts:372-384 | the total balance grows by the delta when the index was found and is unchanged otherwise |
| Store.FinancialStore.MoveBalances | src/lib/store.ts:369-384 | the store's accounts become those `Moved` gives and nothing else changes |
| Store.MovedKeeps | src/lib/store.ts:369-384 | moving a balance changes only current balances and keeps the number of accounts |
| Store.MovedSource | src/lib/store.ts:372-377 | between two different accounts, the source loses the amount |
| Store.MovedDestination | src/lib/store.ts:379-384 | between two different accounts, the destination gains the amount |
| Store.MovedSelf | src/lib/store.ts:369-384 | a transfer from an account to itself leaves the balances as they were |
| Store.MovedTotal | src/lib/store.ts:369-384 | a transfer keeps the total of all balances when both accounts exist, and loses the amount when the destination is unknown |
| Store.AdjustedTwice | src/lib/store.ts:369-384 | taking from a found account and giving to another index changes the total by the amount only when the destination is missing |
| Store.TransferGuards | src/lib/store.ts:306-312 | a transfer is refused as source-not-found exactly when the source is unknown, as insufficient exactly when its balance is below the amount, and goes ahead otherwise |
| Store.TransferLegsSpec | src/lib/store.ts:325-352 | a transfer books two completed, reconciled legs in the transfer category on its date: an expense on the source and an income on the destination for the same amount, netting to zero |
| Store.WithTransferCategorySpec | src/lib/store.ts:314-323 | afterwards the transfer category exists; an existing one is reused, otherwise one expense category in the financial-expense group is appended |
| Store.TransferredParts | src/lib/store.ts:302-390 | a booked transfer appends the two legs, ensures the transfer category with the source owner's id, moves the balances, and changes nothing else |
| Store.FinancialStore.TransferBetweenAccounts | src/lib/store.ts:302-390 | a refused transfer returns its message and changes nothing; an accepted one leaves the store in the state `Transferred` gives |
| Ofx.LinesSpec | src/lib/ofx.ts:8-20 | the lines kept are exactly the non-blank lines of the content that do not start with one of the SGML header keywords |
| Ofx.FieldValue | src/lib/ofx.ts:39-91 | stripping the tag from a line `<TAG>value</TAG>` gives back the value |
| Ofx.ParseContent | src/lib/ofx.ts:23-95 | the line loop leaves the records and bank information that the per-line scan `ScanLines` defines |
| Ofx.ScanStep | src/lib/ofx.ts:55-92 | one line adds at most one record, and only on a closing line; records kept always have a field; before any opening line nothing is captured |
| Ofx.ScanSpec | src/lib/ofx.ts:34-93 | every record kept has at least one field, there are no more records than closing lines, and content without an opening line yields no record |
| Ofx.OfxDateOnly | src/lib/ofx.ts:99-111 | an eight-digit date is local midnight of that year, month (one less as an index) and day |
| Ofx.OfxDateTime | src/lib/ofx.ts:99-108 | a fourteen-digit stamp is that local date at that hour, minute and second |
| Ofx.OfxDateSuffix | src/lib/ofx.ts:104-108 | anything after the fourteenth character of a stamp, such as a time zone, is ignored |
| Ofx.StatementDescription | src/lib/ofx.ts:173 | a statement is described by MEMO, else NAME, else CHECKNUM, each only when present and non-empty, else the empty text |
| Ofx.StatementAmount | src/lib/ofx.ts:174-175 | a statement's amount is the magnitude of TRNAMT, and it is a debit exactly when TRNAMT is negative |
| Ofx.RunBalances | src/lib/ofx.ts:186-194 | the loop gives each statement the balance `WithBalances` defines |
| Ofx.BalancesSpec | src/lib/ofx.ts:186-194 | only the balance changes; each balance is the previous one plus the statement's credit or minus its debit; the last is the opening balance plus credits minus debits |
| Ofx.EffectSplit | src/lib/ofx.ts:188-192 | the statements' signed effects add up to credits minus debits |
| Ofx.FirstWhere | src/lib/ofx.ts:119-128 | `find` returns the first element satisfying the predicate, and nothing only when none does |
| Ofx.MatchIsFirstCandidate | src/lib/ofx.ts:115-150 | the fuzzy pass only adds a condition to the exact one, so the match is the first exact candidate, and there is one exactly when some transaction is a candidate |
| Ofx.Matches | src/lib/ofx.ts:197-204 | there are no more matches than statements |
| Ofx.MatchesSpec | src/lib/ofx.ts:197-204 | every match pairs a statement with a transaction of the list that is a candidate for it: same amount, due within five days, pending, matching kind and same account |
| Ofx.BalancedSorted | src/lib/ofx.ts:183-194 | the statements keep their number and are ordered by posting time |
| Ofx.BalancedFrom | src/lib/ofx.ts:183-194 | sorting and balancing only reorder the statements and set their balances |
| Ofx.BalancedLast | src/lib/ofx.ts:185-194 | the last balance is the file's ledger balance (0 when absent) plus credits minus debits |
| Ofx.ImportSpec | src/lib/ofx.ts:159-210 | a file is accepted exactly when it has an aggregate and each has a posting date, and is otherwise rejected with one message; accepted, it gives one statement per aggregate, sorted, balanced, and only candidate matches |
| Ofx.ConvertedAccount | src/lib/ofx.ts:169-171 | converted statements carry the empty account id |
| Ofx.MatchesAccount | src/lib/ofx.ts:125 | when every statement names one account, every matched transaction is on that account |
| Ofx.MatchesNeedNoAccount | src/lib/ofx.ts:125-171 | as written, a match can only be a transaction with the empty account, since statements are matched before they are given one |
| Ofx.MatchesOnAccount | src/lib/ofx.ts:169-204 | with the account set before matching, every statement and every matched transaction is on the chosen account |
| Ofx.ValidateOfxFile | src/lib/ofx.ts:221-235 | a file passes exactly when its last dot-part is "ofx" in any case and it is at most 10 MiB; otherwise the type message, or the size message for a large OFX file |
| Ofx.OfxExtension | src/lib/ofx.ts:223 | a name ending in ".ofx", in any letter case, has the OFX extension |
| Api.Snake | src/lib/api.ts:14-15 | the snake_case key has no capitals and is at least as long as the original |
| Api.CamelSnake | src/lib/api.ts:6-15 | a key without '_' or '-' comes back unchanged from snake_case to camelCase |
| Api.SnakeCamel | src/lib/api.ts:6-15 | a key without capitals or '-' comes back unchanged from camelCase to snake_case |
| Api.CamelInjective | src/lib/api.ts:6-11 | two different database keys never turn into the same application key, so no column is lost when a row is converted |
| Api.GatherDistinct | src/lib/api.ts:22-25 | spreading fields with distinct keys one by one into a fresh object rebuilds them as they are |
| Api.RenameKeys | src/lib/api.ts:18-41 | null and non-object values are kept, arrays keep their length and objects stay objects |
| Api.RenameObject | src/lib/api.ts:22-38 | converting an object renames every field's key in order and merges fields whose new keys collide, the later value winning |
| Api.RowRoundTrip | src/lib/api.ts:18-41 | a database row whose keys, at every depth, have no capitals or '-' comes back unchanged from camelCase conversion and back |
| Api.ExtensionAfterLastDot | src/lib/api.ts:64 | the extension of a file name is the text after its last '.' |
| Api.ExtensionWithoutDot | src/lib/api.ts:64 | a file name without '.' is its own extension |
| Api.DeleteFindsUpload | src/lib/api.ts:64-111 | the storage path recovered from the last three segments of the public URL is the path the file was uploaded to, when user id, transaction id and file name hold no '/' |
| Api.GroupAttachments | src/lib/api.ts:347-354 | an attachment list exists exactly for the transactions some attachment names, and each holds that transaction's attachments in order |
| Api.MergeAttachments | src/lib/api.ts:347-363 | every transaction keeps its position and gets, from the raw attachment list, exactly the attachments whose transaction id is its id, in order, and the empty list when none is |
| Masks.Scan | src/components/Contatos.tsx:28-38 | a non-global `replace` finds the leftmost position where the expression matches: it matches there and at no earlier position, and none means no match anywhere |
| Masks.ReplaceAt | src/components/Contatos.tsx:28-38 | when the leftmost match is at position k, the replacement rewrites exactly that match and keeps the text before and after it |
| Masks.ReplaceNone | src/components/Contatos.tsx:28-38 | a `replace` whose expression matches nowhere leaves the text unchanged |
| Masks.ReplaceKeepsDigits | src/components/Contatos.tsx:28-51 | every replacement step the masks use only inserts or moves separators: the digits of the text stay the same, in order |
| Masks.CepShape | src/components/Profile.tsx:66-69 | eight CEP digits are written 00000-000 |
| Contacts.FormatDocumentDigits | src/components/Contatos.tsx:22-41 | masking a CPF or CNPJ keeps exactly the digits typed, in order |
| Contacts.FormatCpf | src/components/Contatos.tsx:26-31 | eleven digits are shown as 000.000.000-00 |
| Contacts.CnpjFormatted | src/components/Contatos.tsx:32-39 | fourteen digits are shown as 00.000.000/0000-00 |
| Contacts.FormatPhoneDigits | src/components/Contatos.tsx:43-54 | masking a phone keeps exactly the digits typed, in order |
| Contacts.FormatPhoneShapes | src/components/Contatos.tsx:43-54 | eleven digits are shown as (00) 00000-0000, ten as (00) 0000-0000, and more than eleven as the bare digits |
| Contacts.ValidateDocument | src/components/Contatos.tsx:57-63 | a document is accepted exactly when it has 11 or 14 digits, and otherwise gets the CPF/CNPJ message |
| Contacts.MaskKeepsValidity | src/components/Contatos.tsx:22-63 | masking a document never changes whether it is valid |
| Contacts.SubmitError | src/components/Contatos.tsx:65-77 | a contact is saved exactly when name, type and document are given and the document is valid; a missing field gives the required-fields message |
| Contacts.DocumentEdit | src/components/Contatos.tsx:450-459 | an edit with at most fourteen digits is stored as the CPF or CNPJ mask of its digits, so it keeps exactly those digits; a longer one is ignored |
| Contacts.PhoneEdit | src/components/Contatos.tsx:487-496 | an edit with at most eleven digits is stored as the phone mask of its digits, so it keeps exactly those digits; a longer one is ignored |
| Contacts.EditsStayShort | src/components/Contatos.tsx:450-496 | whatever is typed, the stored document keeps at most fourteen digits and the phone at most eleven |
| Contacts.MissingHeaders | src/components/Contatos.tsx:128-130 | the missing headers are exactly the expected ones the sheet's first row lacks |
| Contacts.ImportRow | src/components/Contatos.tsx:137-163 | a row imports exactly when it has a name, a type of 'client' or 'supplier' and a valid document, and then keeps the name and the document's digits; every failure message starts with the row's line number (index + 2) |
| Contacts.ImportBody | src/components/Contatos.tsx:137-163 | the rows import exactly when every row does, and then the contacts are the rows' results in order |
| Contacts.FirstBadRowReported | src/components/Contatos.tsx:137-163 | a failed import reports the message of the first bad row, tagged with its line |
| Contacts.ImportContacts | src/components/Contatos.tsx:128-163 | missing headers fail the import with their list before any row is read; otherwise the import is that of the body rows |
| Contacts.FilteredContactsSelects | src/components/Contatos.tsx:239-249 | a contact is listed exactly when the term is empty or found, ignoring case, in its name, email, phone or document, and the type filter admits it; with no term and 'all' the list is unchanged |
| ProfileForm.Take | src/components/Profile.tsx:63-68 | `substring(0, n)` keeps the whole text when it is short enough and otherwise its first n characters |
| ProfileForm.CnpjExact | src/components/Profile.tsx:56-64 | fourteen digits, typed with any separators, are shown as 00.000.000/0000-00, the same mask the contacts screen uses |
| ProfileForm.CepExact | src/components/Profile.tsx:66-69 | eight digits, typed with any separators, are shown as 00000-000 |
| ProfileForm.CnpjSettles | src/components/Profile.tsx:56-64 | reformatting a complete CNPJ keeps its digits and changes nothing more |
| ProfileForm.CepSettles | src/components/Profile.tsx:66-69 | reformatting a complete CEP keeps its digits and changes nothing more |
| ProfileForm.CepChange | src/components/Profile.tsx:71-96 | the CEP field always takes the masked input; the address fields are filled from the lookup only for eight digits and a lookup without `erro`; the other fields stay |
| ProfileForm.PasswordGuard | src/components/Profile.tsx:129-134 | a new password passes exactly when it has at least six characters and equals its confirmation; a short one is reported first |
| ProfileForm.Submit | src/components/Profile.tsx:98-153 | the profile is saved exactly when the CNPJ has 14 digits, the CEP 8 and the save call succeeds, with the CNPJ then the CEP message otherwise; the password changes only after a save, when requested, valid and accepted; the form's password fields are cleared only then; no error means everything asked for was done |
| ProfileForm.SavedDespiteBadPassword | src/components/Profile.tsx:117-134 | a bad new password is reported only after the profile has already been saved |
| ProfileForm.SavedReadsBack | src/components/Profile.tsx:38-125 | a saved profile is read back as the same profile when the screen loads again, and the submit leaves the profile fields of the form as they were |
| SmartInput.StripSymbols | src/components/SmartInput.tsx:65 | removing the currency symbol, points and white space leaves none of them |
| SmartInput.CommaToPoint | src/components/SmartInput.tsx:66 | replacing the first comma keeps the length, and a text without a comma is unchanged |
| SmartInput.DropMinus | src/components/SmartInput.tsx:70 | the absolute text has no minus left |
| SmartInput.ParseCurrency | src/components/SmartInput.tsx:62-82 | an unreadable text reads as 0; otherwise the number read from the unsigned text, negated only when the text starts with a minus and negatives are allowed |
| SmartInput.SignOnlyWhenAllowed | src/components/SmartInput.tsx:69-81 | without permission a value is never negative, and with it the sign of the text is applied to the same magnitude |
| SmartInput.CurrencyChange | src/components/SmartInput.tsx:84-99 | a value is passed on exactly when the typed text fits `-?\d*[,.]?\d*`, and it is not negative when negatives are not allowed |
| SmartInput.ChangeReads | src/components/SmartInput.tsx:92-94 | an accepted text passes on exactly what `parseCurrency` reads from it |
| SmartInput.CommaAmount | src/components/SmartInput.tsx:62-99 | a text with a comma is accepted and read with the digits before it as units and the first two after it as cents, with the sign applied as allowed |
| SmartInput.PointAmount | src/components/SmartInput.tsx:62-99 | a text with a point is accepted and read with the point dropped, all its digits as units |
| SmartInput.WholeAmount | src/components/SmartInput.tsx:62-99 | a text of digits alone is accepted and read as that many units, an empty one as 0 |
| SmartInput.PointToComma | src/components/SmartInput.tsx:92 | every point becomes a comma, and nothing else changes |
| SmartInput.CurrencyChangeDecimal | src/components/SmartInput.tsx:84-99 | corrected change handler: a value is passed on exactly when the text fits the accepted pattern, never negative where negatives are not allowed |
| SmartInput.PointAsDecimal | src/components/SmartInput.tsx:62-99 | corrected, a text with a point reads with the digits after it as the decimals, as the same text with a comma does |
| SmartInput.NoPointUnchanged | src/components/SmartInput.tsx:84-99 | the correction changes nothing for a text without a point |
| SmartInput.TwelveFiftyDecimal | src/components/SmartInput.tsx:84-99 | corrected, typing "12.50" passes on 12.50 |
| SmartInput.Examples | src/components/SmartInput.tsx:62-99 | "1.234,56" reads as 1234.56, and typing "12.50" passes on 1250 |
| Passwords.ValidatePassword | src/lib/auth-utils.ts:31-53 | a password is valid exactly when it has at least 8 characters, an upper-case letter, a lower-case letter, a digit and one of the listed specials; otherwise the message of the first rule it breaks, in that order |
| Passwords.VerdictIgnoresOrder | src/lib/auth-utils.ts:31-53 | the verdict depends only on which characters occur how often, not on their order |
| Passwords.Drawn | src/lib/auth-utils.ts:12-21 | the drawn password has twelve characters |
| Passwords.DrawnIsStrong | src/lib/auth-utils.ts:12-21 | the four forced picks make every drawn password pass the strength rules |
| Passwords.Draw | src/lib/auth-utils.ts:12-21 | the array built is the upper, lower, digit and special pick followed by eight picks from the whole alphabet |
| Passwords.Shuffle | src/lib/auth-utils.ts:23 | the random reordering only exchanges characters, so the array keeps the same characters |
| Passwords.GenerateSecurePassword | src/lib/auth-utils.ts:5-24 | the generated password has twelve characters from the alphabet, is a reordering of the drawn ones, and is valid by `validatePassword` |
| Passwords.ShuffledDrawn | src/lib/auth-utils.ts:5-24 | any reordering of a drawn password is twelve characters of the alphabet and valid |
| Session.CeilSecondsIsCeiling | src/lib/auth.ts:149 | the remaining time is rounded up to whole seconds: the least number of seconds covering it |
| Session.WaitBounds | src/lib/auth.ts:148-150 | a refused request is told to wait between 1 and 60 seconds |
| Session.ResetThrottle.constructor | src/lib/auth.ts:36-37 | no request has been sent yet: the recorded time starts at 0 |
| Session.ResetThrottle.Request | src/lib/auth.ts:144-166 | a request within 60 seconds of the last sent one is refused with the rounded-up wait; otherwise the e-mail is asked for, and only a successful send records the time |
| Session.RetryAfterFailure | src/lib/auth.ts:156-164 | a failed send does not start the cool-down, so the next request is not refused |
| Session.CooldownAfterSend | src/lib/auth.ts:148-161 | after a successful send, a later request is refused exactly when it comes less than 60 seconds after it |
| Session.WaitIsEnough | src/lib/auth.ts:148-150 | a refused request changes nothing, and waiting the seconds it names is always enough |
| Session.GetProfile | src/lib/auth.ts:242-280 | there is no profile when nobody is signed in; a signed-in user without a stored row gets all fields empty; otherwise every one of the seven fields (company name, CNPJ, CEP, address, city, state, neighbourhood) is the stored column, with an absent one as "" |
| Session.ProfileRoundTrip | src/lib/auth.ts:191-280 | a profile stored by `updateProfile` reads back as the same profile |
| Session.ProfileReadIdempotent | src/lib/auth.ts:191-280 | storing what was read and reading it again gives the same profile |
| SignIn.Guard | src/components/Auth.tsx:23-43 | the submit goes on exactly when an e-mail is given and, for a sign-in, the password has at least six characters; a missing e-mail is reported first |
| SignIn.CaughtMessage | src/components/Auth.tsx:46-56 | an error whose message mentions invalid login credentials shows the wrong-credentials message, and only a thrown non-error shows the unexpected-error message |
| SignIn.HandleSubmit | src/components/Auth.tsx:17-60 | as written: a sign-up with an e-mail redirects and stores it; a sign-in succeeds exactly when the checks pass and the call does not fail; a failed check is shown through the catch's mapping |
| SignIn.CheckMessagesSwallowed | src/components/Auth.tsx:22-56 | as written, a missing e-mail or a five-character password shows only the generic error, never the check's own message |
| SignIn.HandleSubmitIntended | src/components/Auth.tsx:23-43 | a failed check shows its own message; everything else is as written |
| SignIn.IntendedDiffersOnlyInCheckMessages | src/components/Auth.tsx:17-60 | the corrected submit signs in and redirects in exactly the same cases, and shows the missing-e-mail message for an empty e-mail |
| SignIn.Recover | src/components/Auth.tsx:62-81 | an empty e-mail is refused with its message before the throttle is consulted; otherwise the throttle decides: a refusal shows the wait, a failed send its error, and a sent e-mail no message |
| PasswordReset.TokenError | src/components/PasswordReset.tsx:16-27 | the screen shows the invalid-token message exactly when the URL fragment has no non-empty `access_token` |
| PasswordReset.Guard | src/components/PasswordReset.tsx:35-41 | the checks pass exactly when both entries agree and have at least six characters; a mismatch is reported as such |
| PasswordReset.Submit | src/components/PasswordReset.tsx:29-52 | a submit succeeds exactly when the checks pass and the reset call does not fail; a failed check shows its message, a failed call the failure message |
| PasswordReset.MismatchFirst | src/components/PasswordReset.tsx:35-41 | a short password that also differs from its confirmation is reported as a mismatch, since that check comes first |
| UpdatePassword.ReadCode | src/pages/update-password.tsx:16-36 | no code shows the invalid-token message, a failed exchange the expired-token message, and a token is kept exactly when the exchange gives a session with a non-empty access token |
| UpdatePassword.Guard | src/pages/update-password.tsx:44-54 | the checks pass exactly when the password has six characters or more, equals its confirmation and a token is held; the length is reported first |
| UpdatePassword.Submit | src/pages/update-password.tsx:38-72 | a submit succeeds exactly when the checks pass and the update call does not fail; otherwise the check's message or the call's error is shown |
| UpdatePassword.ButtonImpliesToken | src/pages/update-password.tsx:16-54 | whenever the button can be pressed, a code was exchanged, so the missing-token message never shows |
| UpdatePassword.OrderDiffersFromReset | src/pages/update-password.tsx:44-50 | a short, mismatched password is reported as too short here and as a mismatch on the reset screen |
| UpdatePassword.SameAcceptance | src/pages/update-password.tsx:44-54 | with a token held, this page accepts exactly the passwords the reset screen accepts |
| Categories.GroupListed | src/components/Categorias.tsx:37-50 | every income-statement group is one of the thirteen rows of the screen's group table |
| Categories.CategoryRequest | src/components/Categorias.tsx:52-72 | a missing name or group is refused with the required-fields message, a missing user with the not-authenticated message; otherwise editing renames the edited category to the new name and a new category is created with the form's fields and the user's id |
| Categories.SubmitCategory | src/components/Categorias.tsx:52-80 | the store call is made exactly when the checks pass; a check's message is shown; no message exactly when the checks pass and the call does not throw, and then the form is reset and editing ends; otherwise the form is kept |
| Categories.ChangeType | src/components/Categorias.tsx:395-403 | while editing the type select is disabled and changes nothing; otherwise the new type clears the chosen group and keeps the name |
| Categories.GroupOptions | src/components/Categorias.tsx:422-428 | the group select offers exactly the groups the table types as the chosen type |
| Categories.EditOnlyRenames | src/components/Categorias.tsx:65-66 | while editing, the call made depends only on the name: the type and group in the form are ignored |
| Categories.TypeChangeNeedsGroup | src/components/Categorias.tsx:57-401 | after a type change the form cannot be saved until a group is picked again |
| Categories.PickedGroupFitsType | src/components/Categorias.tsx:395-428 | a category created from a group picked after the type belongs to a known group whose type is the category's type |
| Categories.SuggestionOffered | src/components/Categorias.tsx:422-428 | the group the suggestion engine proposes for a type is one the select offers for it |
| Categories.CostCenterRequest | src/components/Categorias.tsx:82-98 | a cost centre is refused exactly when its name is empty; otherwise the edited centre is updated or a new one created |
| Categories.FilteredCategories | src/components/Categorias.tsx:140-145 | a category is listed exactly when the term is empty or found, ignoring case, in its name, and the type filter admits it; with no term and 'all' the list is unchanged |
| Categories.FilteredCenters | src/components/Categorias.tsx:148-153 | a cost centre is listed exactly when the term is empty or found, ignoring case, in its name or description |
| Categories.GroupCategories | src/components/Categorias.tsx:156-167 | the loop returns exactly the grouping function `Grouped` of the filtered categories |
| Categories.GroupedSpec | src/components/Categorias.tsx:156-167 | an entry exists exactly for the groups some category names; it holds that group's categories in order, under the heading of the first of them (the table's name and type for a known group, the raw id and the category's type otherwise) |
| Categories.ShownExactly | src/components/Categorias.tsx:268-280 | a filtered category appears on screen exactly when its group is one of the table's and the type filter admits that group, so categories of an unknown group are never shown |
| Entries.FilteredTransactions | src/components/BaseContas.tsx:55-61 | an entry is listed exactly when it passes the type filter and the term is empty or found, ignoring case, in its description or supplier; with 'all' and no term the list is unchanged |
| Entries.Fresh | src/components/BaseContas.tsx:13-18 | the form opens as a pending income dated today, with no description, supplier, category, invoice number or bank account, and an untouched amount |
| Entries.AmountChange | src/components/BaseContas.tsx:172-176 | typing in the amount field changes only the amount, to the number typed or to 0 when the text does not read as a number |
| Entries.Submit | src/components/BaseContas.tsx:28-45 | an entry is added exactly when there is a description and the amount was edited (a `Decimal` is truthy even at zero); it carries every field of the form, invoice number and bank account included, gets the current instant as its id, is unreconciled, and is followed by a reset form; otherwise nothing changes |
| Entries.ClearedAmountAccepted | src/components/BaseContas.tsx:30-175 | a form whose amount field was cleared passes the check and adds an entry of amount zero |
| Entries.SubmitIntended | src/components/BaseContas.tsx:30 | the corrected submit refuses a zero amount as well, adds only non-zero entries, and agrees with the written submit everywhere else |
| Entries.Toggled | src/components/BaseContas.tsx:63-70 | the first entry with the id switches between pending and completed and nothing else changes; an unknown id changes nothing |
| Entries.ToggleTwice | src/components/BaseContas.tsx:63-70 | toggling the same id twice restores the list |
| DateFilter.Construct | src/components/DateFilter.tsx:24-25 | `new Date(y, m, d)` for the picker's arguments is a valid local date at midnight: for a day from 1 it is that day of month m mod 12 of year y + m div 12, so index 12 runs into the next year; day 0 is the day before the first of that month |
| DateFilter.MonthRange | src/components/DateFilter.tsx:24-25 | the month range as written runs from midnight of the 1st to midnight of the month's last day |
| DateFilter.YearRange | src/components/DateFilter.tsx:31-32 | the year range as written runs from midnight of January 1 to midnight of December 31 |
| DateFilter.MonthRangeSpan | src/components/DateFilter.tsx:24-26 | a valid moment lies in the month range exactly when it is in that month and not after midnight on its last day |
| DateFilter.YearRangeSpan | src/components/DateFilter.tsx:31-33 | a valid moment lies in the year range exactly when it is in that year and not after midnight on December 31 |
| DateFilter.LastDayNoonLost | src/components/DateFilter.tsx:48-50 | noon on the last day of the selected month falls outside the reported month range |
| DateFilter.MonthRangeIntended | src/components/DateFilter.tsx:60-71 | the corrected month range keeps the start and ends at the last millisecond of the last day, as the custom range does |
| DateFilter.MonthRangeIntendedSpan | src/components/DateFilter.tsx:60-71 | a valid moment lies in the corrected month range exactly when it is in that month |
| DateFilter.YearRangeIntended | src/components/DateFilter.tsx:60-71 | the corrected year range ends at the last millisecond of December 31 |
| DateFilter.YearRangeIntendedSpan | src/components/DateFilter.tsx:60-71 | a valid moment lies in the corrected year range exactly when it is in that year |
| DateFilter.CustomChange | src/components/DateFilter.tsx:60-71 | the picked ends are stored as given; a range is reported exactly when both are set, from the start of the first day to the end of the second |
| DateFilter.CustomRangeOrdered | src/components/DateFilter.tsx:60-71 | when the picked days are in order, the reported custom range starts no later than it ends |
| DateFilter.MonthChange | src/components/DateFilter.tsx:46-51 | picking a month selects that date and reports the month kind with its month range |
| DateFilter.YearChange | src/components/DateFilter.tsx:53-58 | picking a year selects that date and reports the year kind with its year range |
| DateFilter.SwitchTo | src/components/DateFilter.tsx:17-44 | switching to month or year selects now and reports the current month or year; switching to custom changes only the kind and reports the stored ends as they are, only when both are set |
| DateFilter.ReportedCustomIsRaw | src/components/DateFilter.tsx:15-41 | switching to custom right after mounting reports the range from now to now, not the whole day the custom handler reports |
| DateFilter.SwitchToIntended | src/components/DateFilter.tsx:37-41 | the corrected switch behaves as written for month and year, and for custom reports what the custom handler reports for the stored ends |
| Suggestions.TransactionSuggestions | src/lib/suggestions.ts:105-136 | nothing is suggested without both a type and a description; otherwise today as competence date and today plus 30 days as due date only where none is set; a supplier comes with a category, a bank account exactly for rent, and energy and telecom give 'Utilities'; the energy company is suggested exactly when there is no rent and 'energia' or 'luz' appears, the internet provider exactly when neither rent nor energy applies and 'internet' or 'telecom' appears, and no supplier when no keyword appears |
| Suggestions.RentOutranks | src/lib/suggestions.ts:112-122 | a description that mentions rent gets the rent supplier whatever else it mentions |
| Suggestions.EnergyOutranksTelecom | src/lib/suggestions.ts:116-122 | without rent, a description that mentions light gets the energy supplier even if it also mentions telecom |
| Suggestions.CaseIgnored | src/lib/suggestions.ts:109 | the suggestions for a description and for its lower-cased form are the same |
| Suggestions.NothingToSuggest | src/lib/suggestions.ts:105-136 | a draft with both dates set and no keyword gets the empty suggestion |
| Suggestions.CategorySuggestions | src/lib/suggestions.ts:138-167 | the type is always kept; a DRE group comes exactly with a category type and only with a description; expenses go to personnel exactly on salary or benefit keywords and otherwise only to administrative expenses; income goes to gross revenue exactly on consulting or service keywords and otherwise only to financial income |
| Suggestions.BankAccountSuggestions | src/lib/suggestions.ts:72-179 | a suggestion exists exactly for the codes 001, 341, 033 and 237, and then carries the code itself and a zero opening balance |
| Suggestions.SuggestedNamesDistinct | src/lib/suggestions.ts:72-90 | two codes with the same suggested account name are the same code |

## Left out

- Text.Lower, Text.IsSpace and the length rules: `toLowerCase` is modelled for ASCII and Latin-1 letters only (A-Z and U+00C0-U+00DE), white space for `trim` and `\s` leaves out U+FEFF, U+1680, U+2000-U+200A, U+2028, U+2029, U+202F, U+205F and U+3000, and a string's length is its count of characters, not of UTF-16 code units. So every case-insensitive search and every trim is exact only on such text, and the minimum lengths of Passwords.ValidatePassword (8), SignIn.Guard, PasswordReset.Guard, UpdatePassword.Guard and ProfileForm.PasswordGuard (6) count characters where the source counts code units; they differ for text outside the Basic Multilingual Plane.
- Server and storage calls (Supabase queries, `src/lib/api.ts` requests, `src/lib/queries.ts`, `src/lib/realtime.ts`): they are I/O. Each store action is modelled as the local update it makes after its call succeeded, with the row the server returns as a parameter.
- The store's cost-centre and contact actions, `updateDREData`, `setPeriod` and `initializeStore`: they are the same append/replace/filter updates over collections no modelled screen reads, or a load from the server.
- The clock, `uuid` ids and `Math.random`: they are parameters (`now`, `nowMs`, `newId`, the password picks and swaps).
- `gerarSenhaSegura`'s `sort` with a random comparator: it is modelled as an arbitrary sequence of exchanges, which is any reordering the sort could produce.
- Time zones and locales: day keys come from UTC `toISOString` while filters compare local dates. The model uses one day number per instant, and `toLocaleDateString` is a parameter (`dateText`).
- Invalid dates (`NaN` times from unreadable text): dates are always valid instants or calendar fields.
- The `new Date(value)` fallback of `parseExcelDate`: it is kept as an opaque `Native(value)` result, because its parsing belongs to the JavaScript runtime.
- FileReader and XLSX workbook I/O: the sheet is the list of rows `sheet_to_json` would return, with empty cells as `Blank`.
- `new URL` parsing and percent-encoding in the attachment path recovery: the model starts from the URL path's segments.
- The CEP address fetch: its answer is a parameter (`lookup`), and a failed fetch is a lookup with no answer.
- Floating-point output: the Dashboard chart series (`src/components/Dashboard.tsx:208-231`), `getDRESuggestions` (`src/lib/suggestions.ts:181-228`), Intl currency formatting, and the `toFixed` percentage text of exports. Ratios are exact reals.
- `Promise.all` batches (receivables import, contact import, the two legs of a transfer): they are modelled in sequence.
- Confirmation dialogs, alerts, navigation and the other UI state: they are rendering. Delete handlers are modelled as the store update they trigger.
- `handleSuggestionApply` and the `useSuggestions` hook: they are wrappers around the suggestion functions.
- The date picker's display text (`getDisplayText`): it is presentation.
- The demo half-year cash-flow screens: they run on hard-coded sample data.
- `setAccessToken` on the password-reset screen: the auth store does not define it, so when the URL carries a token the effect calls an undefined function and throws a TypeError before `replaceState`; the token is never stored and stays in the address bar. The screen is also not routed in `src/App.tsx`, which routes only `/update-password`, `/profile` and the main layout. The model keeps only whether a token was found, and, as in the source, the token does not gate the submit.
- SmartInput.ParseCurrency: amounts are read to whole cents, so digits after the second decimal are dropped, and `parseFloat`'s exponent and `Infinity` forms are not read.
- Ofx.StatementAmount: a missing or unreadable TRNAMT is read as 0, giving a zero credit, where the source carries `NaN` into the amount and the balances.
- Suggestions.TransactionSuggestions: the suggested due date is exactly 30 × 86 400 000 ms after now; a daylight-saving change inside those 30 days is not modelled.
- Suggestions.BankAccountSuggestions: bank codes that name inherited object properties (such as "constructor") are treated as unknown codes.
- DateFilter.Construct: covers only the day arguments the picker passes, from 0 to the length of the month.
- Dashboard.NetProfitIsNet, Dashboard.EbitdaShares and Dashboard.AnalysisSpec: the period is a pair of instants `start` and `end` given as parameters. The dashboard fixes it as `new Date(y, m, 1)` to `new Date(y, m + 1, 0)` and keeps dates up to `end`, so, as with the date picker's month range (see Findings), entries dated after midnight on the month's last day fall outside "the current month". The results are stated for the bounds given, not for that month.
- Money.ParseDecimal: reads plain decimal text to whole cents. Digits after the second decimal are dropped where decimal.js keeps them ("12.345"), and the exponent ("1e3"), "Infinity", "NaN" and hexadecimal ("0x1F") forms, which decimal.js accepts, read as unreadable. The spreadsheet import (`new Decimal(row[2])`) inherits this, and so, through Money.ParseFloat, do the entry form's amount and the OFX amounts.
- Money.ParseFloat: reads `parseFloat` to whole cents with the same limits: digits after the second decimal are dropped, and the exponent and "Infinity" forms read as NaN. The entry form's amount field and the OFX amounts go through it.
- Excel.ConvertRow: numeric cells are not modelled; every present cell is text. In the source a numeric date cell (an Excel date serial) makes `split` throw and rejects the file, and a numeric amount is accepted by `new Decimal`.
- Excel.ConvertRow: a blank description, category, supplier or bank-account cell is read as the empty text, where the source keeps `undefined`; the import screen tests these fields for truthiness, where the two agree.
- Categories.SubmitCategory: the new category's id is assigned by the database and is not part of the request modelled.
- An entry saved with no bank account or no category carries the empty text for it.

## Findings

| source | as written | input that shows it | evidently intended | confidence | as-written member | corrected member |
|---|---|---|---|---|---|---|
| src/lib/ofx.ts:125-204 | statements are matched while their account id is still "", so only transactions with an empty account can match | any statement and a pending transaction on account "acc1" with equal amount, kind and due date | match against the account the statements are imported into | not executed | Ofx.MatchesNeedNoAccount | Ofx.MatchesOnAccount |
| src/components/Auth.tsx:22-56 | the guard messages are thrown into the catch, which shows only the generic error for them | email "" (any password), or email "a@b.c" with password "12345" | show "Por favor, preencha o email" or the short-password message | not executed | SignIn.CheckMessagesSwallowed | SignIn.HandleSubmitIntended |
| src/components/BaseContas.tsx:30-176 | a cleared amount field becomes `new Decimal(0)`, an object, so the truthiness check lets it through | a description with the amount field cleared | refuse a zero or missing amount | not executed | Entries.ClearedAmountAccepted | Entries.SubmitIntended |
| src/components/DateFilter.tsx:24-57 | month and year ranges end at midnight at the start of their last day | noon on the last day of the selected month | include the whole last day, as the custom range does | not executed | DateFilter.LastDayNoonLost | DateFilter.MonthRangeIntendedSpan |
| src/components/FluxoCaixaAnual.tsx:105-115 | each transaction re-accumulates only the months up to its own, so a later month's accumulated value goes stale when an earlier month's amount arrives after it | an income category with 100 due in March, then 50 due in January: March's accumulated value stays 100 | every month's accumulated value is the running sum through that month, whatever the order | not executed | AnnualCashFlow.AccumulatedOutOfOrder | AnnualCashFlow.RunningInAnyOrder |
| src/components/SmartInput.tsx:62-99 | the typing pattern accepts a point as the one separator, but `parseCurrency` drops every point as a thousands separator | typing "12.50" passes on 1250 | a lone point typed in the field is the decimal separator, as a lone comma is | not executed | SmartInput.Examples | SmartInput.PointAsDecimal |
| src/components/DateFilter.tsx:15-41 | switching back to custom reports the stored ends as they are, not widened to whole days | switch to custom right after mounting, at a time other than midnight | report the same range the custom handler reports for those ends | not executed | DateFilter.ReportedCustomIsRaw | DateFilter.SwitchToIntended |
