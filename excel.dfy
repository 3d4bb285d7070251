/** Spreadsheet import and export of transactions (src/lib/excel.ts). A sheet is
    the list of rows that `sheet_to_json(…, { header: 1 })` yields, each row a
    list of cells; an empty cell, and a cell past the end of its row, is `Blank`
    (`undefined`). */
module Excel {
  import opened Wrappers
  import opened Types
  import opened Text
  import opened Money
  import opened Folds

  /** A cell as `sheet_to_json` gives it: absent, or text. */
  datatype CellValue = Blank | Text(text: string)

  type Row = seq<CellValue>

  function Cell(row: Row, i: nat): CellValue
  {
    if i < |row| then row[i] else Blank
  }

  /** A cell copied into a text field: a blank cell gives the empty text. */
  function CellText(c: CellValue): string
  {
    if c.Text? then c.text else ""
  }

  /** `row[i] || undefined`: a blank or empty cell gives no value. */
  function CellOption(c: CellValue): (r: Option<string>)
    ensures r.None? <==> c == Blank || c == Text("")
    ensures r.Some? ==> c == Text(r.value)
  {
    if c.Text? && c.text != "" then Some(c.text) else None
  }

  /** The template's header row, one title per exported column. */
  const Headers: seq<string> := [
    "Tipo", "Descrição", "Valor", "Categoria", "Centro de Custo", "Data de Competência",
    "Data de Vencimento", "Fornecedor/Cliente", "Número da Nota", "Conta Bancária"]

  const ProcessingError: string := "Erro ao processar arquivo. Verifique se está usando o modelo correto."

  // ---------------------------------------------------------------- dates

  /** A date as the import builds it. `Calendar` is `new Date(year, monthIndex, day)`
      in local time, with the constructor's reading of years 0 to 99 as 1900 to 1999;
      `Invalid` is the Invalid Date a NaN component gives; `Native` is the
      `new Date(text)` fallback, whose parsing is not part of this model. */
  datatype ExcelDate = Calendar(year: int, monthIndex: int, day: int) | Invalid | Native(text: string)

  function LocalDate(year: int, monthIndex: int, day: int): ExcelDate
  {
    Calendar(if 0 <= year <= 99 then 1900 + year else year, monthIndex, day)
  }

  /** `parseExcelDate`: "d/m/y" with exactly three parts is read as day, month and year. */
  function ParseExcelDate(value: string): (r: ExcelDate)
    ensures |Split(value, '/')| != 3 <==> r == Native(value)
  {
    var parts := Split(value, '/');
    if |parts| == 3 then
      match (ParseInt(parts[2]), ParseInt(parts[1]), ParseInt(parts[0]))
      case (Some(y), Some(m), Some(d)) => LocalDate(y, m - 1, d)
      case _ => Invalid
    else Native(value)
  }

  /** Two digits with a leading zero, as the pt-BR date format writes day and month. */
  function Pad2(n: nat): (r: string)
    requires n < 100
    ensures |r| == 2 && AllDigits(r) && DigitsValue(r) == n
  {
    var r := [Digit(n / 10), Digit(n % 10)];
    assert r[..1] == [Digit(n / 10)] && r[..1][..0] == [];
    assert DigitsValue(r[..1]) == n / 10;
    assert DigitsValue(r) == DigitsValue(r[..1]) * 10 + n % 10;
    r
  }

  /** "dd/mm/yyyy", the pt-BR short date. */
  function DateText(day: nat, month: nat, year: nat): string
    requires day < 100 && month < 100
  {
    Pad2(day) + "/" + Pad2(month) + "/" + NatToString(year)
  }

  lemma NoSlash(s: string)
    requires AllDigits(s)
    ensures forall i :: 0 <= i < |s| ==> s[i] != '/'
  {
  }

  lemma SplitThree(a: string, b: string, c: string)
    requires AllDigits(a) && AllDigits(b) && AllDigits(c)
    ensures Split(a + "/" + b + "/" + c, '/') == [a, b, c]
  {
    NoSlash(a);
    NoSlash(b);
    NoSlash(c);
    assert a + "/" + b + "/" + c == a + "/" + (b + "/" + c);
    SplitPiece(a, b + "/" + c, '/');
    SplitPiece(b, c, '/');
    assert Split(c, '/') == [c];
  }

  /** A piece free of the separator, then the separator, splits off as the first piece. */
  lemma SplitPiece(w: string, rest: string, c: char)
    requires forall i :: 0 <= i < |w| ==> w[i] != c
    ensures Split(w + [c] + rest, c) == [w] + Split(rest, c)
  {
    var s := w + [c] + rest;
    SeparatorAfter(w, [c] + rest, c);
    assert s == w + ([c] + rest);
    assert s[..|w|] == w;
    assert s[|w| + 1..] == rest;
  }

  /** A pt-BR date reads back as its year, zero-based month and day. */
  lemma DateTextBack(day: nat, month: nat, year: nat)
    requires day < 100 && month < 100
    ensures ParseExcelDate(DateText(day, month, year)) == LocalDate(year, month - 1, day)
  {
    var y := NatToString(year);
    SplitThree(Pad2(day), Pad2(month), y);
    assert DateText(day, month, year) == Pad2(day) + "/" + Pad2(month) + "/" + y;
    NatToStringValue(year);
    DigitsNumber(y);
    DigitsNumber(Pad2(month));
    DigitsNumber(Pad2(day));
  }

  // ---------------------------------------------------------------- import

  /** One imported row, before it gets an id: the fields `parseTransactions` fills. */
  datatype Imported = Imported(
    txType: TxType,
    description: string,
    amount: int,
    category: string,
    costCenter: Option<string>,
    competenceDate: ExcelDate,
    dueDate: ExcelDate,
    supplier: string,
    invoiceNumber: Option<string>,
    bankAccount: string,
    status: Status,
    reconciled: bool)

  function TypeOf(cell: string): (r: TxType)
    ensures r == Expense <==> cell == "despesa"
  {
    if cell == "despesa" then Expense else Income
  }

  /** A row takes part only when its first cell is set and not empty (`!row[0]` skips it). */
  predicate Typed(row: Row)
  {
    Cell(row, 0) != Blank && Cell(row, 0) != Text("")
  }

  /** What a row needs to convert: decimal text in the amount cell (`new Decimal`
      throws on anything else) and text in both date cells (`value.split` throws on
      `undefined`). */
  predicate Readable(row: Row)
  {
    && Cell(row, 2).Text? && ParseDecimal(Cell(row, 2).text).Some?
    && Cell(row, 5).Text? && Cell(row, 6).Text?
  }

  /** One row turned into a transaction. */
  function ConvertRow(row: Row): (r: Result<Imported, string>)
    ensures r.Ok? <==> Readable(row)
    ensures r.Err? ==> r.error == ProcessingError
    ensures r.Ok? ==> r.value.status == Pending && !r.value.reconciled
    ensures r.Ok? ==> (r.value.txType == Expense <==> Cell(row, 0) == Text("despesa"))
    ensures r.Ok? ==> r.value.amount == ParseDecimal(Cell(row, 2).text).value
    ensures r.Ok? ==> r.value.competenceDate == ParseExcelDate(Cell(row, 5).text)
    ensures r.Ok? ==> r.value.dueDate == ParseExcelDate(Cell(row, 6).text)
    ensures r.Ok? ==> r.value.costCenter == CellOption(Cell(row, 4)) && r.value.invoiceNumber == CellOption(Cell(row, 8))
  {
    match (Cell(row, 2), Cell(row, 5), Cell(row, 6))
    case (Text(a), Text(c), Text(d)) =>
      (match ParseDecimal(a)
       case None => Err(ProcessingError)
       case Some(amount) =>
         Ok(Imported(
           TypeOf(CellText(Cell(row, 0))), CellText(Cell(row, 1)), amount, CellText(Cell(row, 3)),
           CellOption(Cell(row, 4)), ParseExcelDate(c), ParseExcelDate(d), CellText(Cell(row, 7)),
           CellOption(Cell(row, 8)), CellText(Cell(row, 9)), Pending, false)))
    case _ => Err(ProcessingError)
  }

  /** The body rows converted in order, rows without a type skipped; the first
      row that cannot be converted rejects them all with one message. */
  function ParseRows(rows: seq<Row>): (r: Result<seq<Imported>, string>)
    ensures r.Err? ==> r.error == ProcessingError
  {
    if rows == [] then Ok([])
    else
      match ParseRows(rows[..|rows| - 1])
      case Err(e) => Err(e)
      case Ok(prev) =>
        var row := rows[|rows| - 1];
        if !Typed(row) then Ok(prev)
        else match ConvertRow(row)
          case Err(e) => Err(e)
          case Ok(t) => Ok(prev + [t])
  }

  /** `parseTransactions`: the first row is the header and is skipped. */
  function ParseSheet(rows: seq<Row>): Result<seq<Imported>, string>
  {
    if rows == [] then Ok([]) else ParseRows(rows[1..])
  }

  predicate Convertible(row: Row)
  {
    Typed(row) ==> Readable(row)
  }

  /** The rows import exactly when every typed row has a decimal amount and both dates, and then
      the result is the typed rows, converted, in their order. */
  lemma {:induction false} ParseRowsSpec(rows: seq<Row>)
    ensures ParseRows(rows).Ok? <==> forall i :: 0 <= i < |rows| ==> Convertible(rows[i])
    ensures ParseRows(rows).Ok? ==>
      var kept := Filter(rows, Typed);
      |ParseRows(rows).value| == |kept| &&
      forall i :: 0 <= i < |kept| ==> ConvertRow(kept[i]) == Ok(ParseRows(rows).value[i])
  {
    if rows != [] {
      var p := rows[..|rows| - 1];
      var row := rows[|rows| - 1];
      ParseRowsSpec(p);
      assert rows == p + [row];
      AllSnoc(p, row, Convertible);
    }
  }

  // ---------------------------------------------------------------- export

  function TypeText(t: TxType): string
  {
    if t == Expense then "despesa" else "receita"
  }

  /** One exported row; `dateText` is `toLocaleDateString('pt-BR')`. Every cell is text. */
  function ExportRow(t: Transaction, dateText: Date -> string): (r: Row)
    ensures |r| == |Headers| && Typed(r)
    ensures forall i :: 0 <= i < |r| ==> r[i].Text?
  {
    [Text(TypeText(t.txType)), Text(t.description), Text(CentsText(t.amount)), Text(t.category),
     Text(TextOf(t.costCenter)), Text(dateText(t.competenceDate)), Text(dateText(t.dueDate)),
     Text(TextOf(t.supplier)), Text(TextOf(t.invoiceNumber)), Text(t.bankAccount)]
  }

  /** One row per transaction, in order. */
  function ExportRows(ts: seq<Transaction>, dateText: Date -> string): (r: seq<Row>)
    ensures |r| == |ts|
    ensures forall i :: 0 <= i < |ts| ==> r[i] == ExportRow(ts[i], dateText)
  {
    if ts == [] then [] else ExportRows(ts[..|ts| - 1], dateText) + [ExportRow(ts[|ts| - 1], dateText)]
  }

  /** `exportTransactions`: the header row, then one row per transaction. */
  function ExportSheet(ts: seq<Transaction>, dateText: Date -> string): (r: seq<Row>)
    ensures |r| == |ts| + 1 && r[0] == HeaderRow()
  {
    [HeaderRow()] + ExportRows(ts, dateText)
  }

  function HeaderRow(): (r: Row)
    ensures |r| == |Headers| && forall i :: 0 <= i < |r| ==> r[i] == Text(Headers[i])
  {
    var text := (h: string) => Text(h);
    MapAt(Headers, text);
    Map(Headers, text)
  }

  lemma TypeRoundTrip(t: TxType)
    ensures TypeOf(TypeText(t)) == t
  {
  }

  /** What an exported transaction becomes when the file is imported again. */
  function Reimport(t: Transaction, dateText: Date -> string): Imported
  {
    Imported(
      t.txType, t.description, t.amount, t.category, CellOption(Text(TextOf(t.costCenter))),
      ParseExcelDate(dateText(t.competenceDate)), ParseExcelDate(dateText(t.dueDate)),
      TextOf(t.supplier), CellOption(Text(TextOf(t.invoiceNumber))), t.bankAccount, Pending, false)
  }

  function ReimportAll(ts: seq<Transaction>, dateText: Date -> string): seq<Imported>
  {
    Map(ts, (t: Transaction) => Reimport(t, dateText))
  }

  lemma RowRoundTrip(t: Transaction, dateText: Date -> string)
    ensures ConvertRow(ExportRow(t, dateText)) == Ok(Reimport(t, dateText))
  {
    var row := ExportRow(t, dateText);
    ExportCells(t, dateText, row);
    DecimalRoundTrip(t.amount);
    TypeRoundTrip(t.txType);
  }

  /** Each column of an exported row reads back as the field written there. */
  lemma ExportCells(t: Transaction, dateText: Date -> string, row: Row)
    requires row == ExportRow(t, dateText)
    ensures Cell(row, 0) == Text(TypeText(t.txType)) && Cell(row, 1) == Text(t.description)
    ensures Cell(row, 2) == Text(CentsText(t.amount)) && Cell(row, 3) == Text(t.category)
    ensures Cell(row, 4) == Text(TextOf(t.costCenter)) && Cell(row, 5) == Text(dateText(t.competenceDate))
    ensures Cell(row, 6) == Text(dateText(t.dueDate)) && Cell(row, 7) == Text(TextOf(t.supplier))
    ensures Cell(row, 8) == Text(TextOf(t.invoiceNumber)) && Cell(row, 9) == Text(t.bankAccount)
  {
  }

  lemma {:induction false} RowsRoundTrip(ts: seq<Transaction>, dateText: Date -> string)
    ensures ParseRows(ExportRows(ts, dateText)) == Ok(ReimportAll(ts, dateText))
  {
    if ts != [] {
      var p := ts[..|ts| - 1];
      var t := ts[|ts| - 1];
      RowsRoundTrip(p, dateText);
      RowRoundTrip(t, dateText);
      var rows := ExportRows(ts, dateText);
      assert rows[..|rows| - 1] == ExportRows(p, dateText);
    }
  }

  /** Exporting transactions and importing the file gives back every transaction,
      in order, with its type, amount, texts and account; empty optional texts come
      back absent, an absent supplier comes back as "", and each date as the
      reading of its pt-BR text. */
  lemma ExportImport(ts: seq<Transaction>, dateText: Date -> string)
    ensures var r := ParseSheet(ExportSheet(ts, dateText));
      r.Ok? && |r.value| == |ts| &&
      forall i :: 0 <= i < |ts| ==> r.value[i] == Reimport(ts[i], dateText)
  {
    RowsRoundTrip(ts, dateText);
    MapAt(ts, (t: Transaction) => Reimport(t, dateText));
    assert ExportSheet(ts, dateText)[1..] == ExportRows(ts, dateText);
  }
}
