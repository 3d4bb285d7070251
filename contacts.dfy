/** The contacts screen: the CPF/CNPJ and phone masks, document validation, the form's
    and the spreadsheet import's checks, the input limits and the list filter. */
module Contacts {
  import opened Wrappers
  import opened Types
  import opened Text
  import opened Folds
  import opened Masks

  /** `formatDocument`: up to eleven digits are masked as a CPF, more as a CNPJ. */
  function FormatDocument(value: string): string
  {
    var d := Digits(value);
    if |d| <= 11 then CpfMask(d) else CnpjMask(d)
  }

  /** `formatPhone`: up to eleven digits are masked, more are left as plain digits. */
  function FormatPhone(value: string): string
  {
    var d := Digits(value);
    if |d| <= 11 then PhoneMask(d) else d
  }

  /** The masks only insert separators: the digits of the result are those of the input. */
  lemma FormatDocumentDigits(value: string)
    ensures Digits(FormatDocument(value)) == Digits(value)
  {
    var d := Digits(value);
    CpfMaskDigits(d);
    CnpjMaskDigits(d);
    DigitsOfDigits(d);
  }

  lemma FormatPhoneDigits(value: string)
    ensures Digits(FormatPhone(value)) == Digits(value)
  {
    var d := Digits(value);
    PhoneMaskDigits(d);
    DigitsOfDigits(d);
  }

  lemma FormatCpf(value: string)
    requires |Digits(value)| == 11
    ensures var d := Digits(value);
      FormatDocument(value) == d[..3] + "." + d[3..6] + "." + d[6..9] + "-" + d[9..]
  {
    CpfShape(Digits(value));
  }

  lemma CnpjFormatted(value: string)
    requires |Digits(value)| == 14
    ensures var d := Digits(value);
      FormatDocument(value) == d[..2] + "." + d[2..5] + "." + d[5..8] + "/" + d[8..12] + "-" + d[12..]
  {
    CnpjShape(Digits(value));
  }

  lemma FormatPhoneShapes(value: string)
    ensures var d := Digits(value);
      && (|d| == 11 ==> FormatPhone(value) == "(" + d[..2] + ") " + d[2..7] + "-" + d[7..])
      && (|d| == 10 ==> FormatPhone(value) == "(" + d[..2] + ") " + d[2..6] + "-" + d[6..])
      && (|d| > 11 ==> FormatPhone(value) == d)
  {
    var d := Digits(value);
    if |d| == 11 {
      MobileShape(d);
    } else if |d| == 10 {
      LandlineShape(d);
    }
  }

  const DocumentMessage := "CPF deve ter 11 dígitos ou CNPJ deve ter 14 dígitos"

  /** `validateDocument`: only the number of digits is checked, no check digit. */
  function ValidateDocument(document: string): (r: Option<string>)
    ensures r.None? <==> |Digits(document)| == 11 || |Digits(document)| == 14
    ensures r.Some? ==> r.value == DocumentMessage
  {
    var n := |Digits(document)|;
    if n != 11 && n != 14 then Some(DocumentMessage) else None
  }

  /** Masking a document does not change whether it is valid. */
  lemma MaskKeepsValidity(value: string)
    ensures ValidateDocument(FormatDocument(value)) == ValidateDocument(value)
  {
    FormatDocumentDigits(value);
  }

  const RequiredMessage := "Nome, tipo e CPF/CNPJ são obrigatórios"

  /** The form being edited; an unset field is "" (type None). */
  datatype Draft = Draft(name: string, contactType: Option<ContactType>, document: string,
                         email: string, phone: string)

  /** `handleSubmit`'s checks: name, type and document are required, then the document
      must be valid. None means the contact is saved. */
  function SubmitError(f: Draft): (r: Option<string>)
    ensures r.None? <==> f.name != [] && f.contactType.Some? && f.document != []
                         && ValidateDocument(f.document).None?
    ensures (f.name == [] || f.contactType.None? || f.document == []) ==> r == Some(RequiredMessage)
  {
    if f.name == [] || f.contactType.None? || f.document == [] then Some(RequiredMessage)
    else ValidateDocument(f.document)
  }

  /** The document input keeps an edit only while it has at most 14 digits, and then stores
      it masked. */
  function DocumentEdit(current: string, typed: string): (r: string)
    ensures |Digits(typed)| <= 14 ==> r == FormatDocument(Digits(typed))
    ensures |Digits(typed)| <= 14 ==> Digits(r) == Digits(typed)
    ensures |Digits(typed)| > 14 ==> r == current
  {
    var raw := Digits(typed);
    FormatDocumentDigits(raw);
    DigitsOfDigits(raw);
    if |raw| <= 14 then FormatDocument(raw) else current
  }

  /** The phone input keeps an edit only while it has at most 11 digits. */
  function PhoneEdit(current: string, typed: string): (r: string)
    ensures |Digits(typed)| <= 11 ==> r == FormatPhone(Digits(typed))
    ensures |Digits(typed)| <= 11 ==> Digits(r) == Digits(typed)
    ensures |Digits(typed)| > 11 ==> r == current
  {
    var raw := Digits(typed);
    FormatPhoneDigits(raw);
    DigitsOfDigits(raw);
    if |raw| <= 11 then FormatPhone(raw) else current
  }

  /** Whatever is typed, the stored document never has more than 14 digits, nor the phone
      more than 11. */
  lemma EditsStayShort(doc: string, phone: string, typedDoc: string, typedPhone: string)
    requires |Digits(doc)| <= 14 && |Digits(phone)| <= 11
    ensures |Digits(DocumentEdit(doc, typedDoc))| <= 14
    ensures |Digits(PhoneEdit(phone, typedPhone))| <= 11
  {
  }

  const ExpectedHeaders: seq<string> := ["Nome", "Tipo", "CPF/CNPJ", "Email", "Telefone"]

  /** A spreadsheet cell as text; a missing cell is "". */
  function Cell(row: seq<string>, k: nat): string
  {
    if k < |row| then row[k] else []
  }

  function JoinWith(parts: seq<string>, sep: string): string
  {
    if parts == [] then []
    else if |parts| == 1 then parts[0]
    else JoinWith(parts[..|parts| - 1], sep) + sep + parts[|parts| - 1]
  }

  /** The expected headers the sheet's first row lacks, in the expected order. */
  function MissingHeaders(headers: seq<string>): (r: seq<string>)
    ensures forall h :: h in r <==> h in ExpectedHeaders && h !in headers
  {
    FilterMembers(ExpectedHeaders, (h: string) => h !in headers);
    Filter(ExpectedHeaders, (h: string) => h !in headers)
  }

  /** A contact read from one body row. */
  datatype Imported = Imported(name: string, contactType: ContactType, document: string,
                               email: Option<string>, phone: Option<string>)

  function LinePrefix(index: nat): string
  {
    "Linha " + NatToString(index + 2) + ": "
  }

  /** One body row, at position `index` after the header: required cells, then the type,
      then the document; a valid row keeps its texts and gets its document and phone
      masked. */
  function ImportRow(row: seq<string>, index: nat): (r: Result<Imported, string>)
    ensures r.Ok? <==> Cell(row, 0) != [] && Cell(row, 1) in ["client", "supplier"]
                            && ValidateDocument(Cell(row, 2)).None?
    ensures r.Err? ==> StartsWith(r.error, LinePrefix(index))
    ensures r.Ok? ==> (r.value.name == Cell(row, 0)
                       && Digits(r.value.document) == Digits(Cell(row, 2)))
  {
    var name, kind, document := Cell(row, 0), Cell(row, 1), Cell(row, 2);
    var email, phone := Cell(row, 3), Cell(row, 4);
    FormatDocumentDigits(document);
    assert |Digits([])| == 0;
    if name == [] || kind == [] || document == [] then
      Err(RowError(index, RequiredMessage))
    else if kind != "client" && kind != "supplier" then
      Err(RowError(index, "Tipo deve ser 'client' ou 'supplier'"))
    else if ValidateDocument(document).Some? then
      Err(RowError(index, ValidateDocument(document).value))
    else
      Ok(Imported(name, if kind == "client" then Client else Supplier, FormatDocument(document),
                       if email == [] then None else Some(email),
                       if phone == [] then None else Some(FormatPhone(phone))))
  }

  /** An error message reported for the row at `index`. */
  function RowError(index: nat, message: string): (e: string)
    ensures StartsWith(e, LinePrefix(index))
  {
    var prefix := LinePrefix(index);
    assert (prefix + message)[..|prefix|] == prefix;
    prefix + message
  }

  /** The results of the rows from position `from` on: all the values when every row is
      valid, otherwise the error of the first bad one (the `throw` inside the `map`). */
  function Collect<T, E>(rs: seq<Result<T, E>>, from: nat): (r: Result<seq<T>, E>)
    requires from <= |rs|
    ensures r.Ok? <==> forall i :: from <= i < |rs| ==> rs[i].Ok?
    ensures r.Ok? ==> |r.value| == |rs| - from
                      && forall i :: from <= i < |rs| ==> r.value[i - from] == rs[i].value
    decreases |rs| - from
  {
    if from == |rs| then Ok([])
    else match rs[from]
      case Err(e) => Err(e)
      case Ok(c) =>
        match Collect(rs, from + 1)
        case Err(e) => Err(e)
        case Ok(cs) => Ok([c] + cs)
  }

  /** The first failing row is the one reported. */
  lemma {:induction false} FirstErrorReported<T, E>(rs: seq<Result<T, E>>, from: nat, bad: nat)
    requires from <= bad < |rs| && rs[bad].Err?
    requires forall i :: from <= i < bad ==> rs[i].Ok?
    ensures Collect(rs, from) == Err(rs[bad].error)
    decreases bad - from
  {
    if from < bad {
      FirstErrorReported(rs, from + 1, bad);
    }
  }

  /** `rows.slice(1).map(...)`: every body row checked, at its position after the header. */
  function ImportBody(body: seq<seq<string>>): (r: Result<seq<Imported>, string>)
    ensures r.Ok? <==> forall i :: 0 <= i < |body| ==> ImportRow(body[i], i).Ok?
    ensures r.Ok? ==> |r.value| == |body|
                      && forall i :: 0 <= i < |body| ==> r.value[i] == ImportRow(body[i], i).value
  {
    var rs := RowResults(body);
    Collect(rs, 0)
  }

  function RowResults(body: seq<seq<string>>): (rs: seq<Result<Imported, string>>)
    ensures |rs| == |body| && forall i :: 0 <= i < |body| ==> rs[i] == ImportRow(body[i], i)
  {
    seq(|body|, i requires 0 <= i < |body| => ImportRow(body[i], i))
  }

  /** The error reported is that of the first bad row, with its spreadsheet line number. */
  lemma FirstBadRowReported(body: seq<seq<string>>, bad: nat)
    requires bad < |body| && ImportRow(body[bad], bad).Err?
    requires forall i :: 0 <= i < bad ==> ImportRow(body[i], i).Ok?
    ensures ImportBody(body) == Err(ImportRow(body[bad], bad).error)
    ensures StartsWith(ImportBody(body).error, LinePrefix(bad))
  {
    FirstErrorReported(RowResults(body), 0, bad);
  }

  /** `handleImport` after the file is read: all five headers must be present, then every
      body row must be valid; any failure adds nothing. */
  function ImportContacts(headers: seq<string>, body: seq<seq<string>>): (r: Result<seq<Imported>, string>)
    ensures MissingHeaders(headers) != [] ==> r == Err("Cabeçalhos ausentes: " + JoinWith(MissingHeaders(headers), ", "))
    ensures MissingHeaders(headers) == [] ==> r == ImportBody(body)
  {
    var missing := MissingHeaders(headers);
    if missing != [] then Err("Cabeçalhos ausentes: " + JoinWith(missing, ", "))
    else ImportBody(body)
  }

  /** The search term matches the name, e-mail, phone or document, ignoring case; an
      empty term matches everything. */
  predicate MatchesSearch(c: Contact, term: string)
  {
    || term == []
    || ContainsIgnoringCase(c.name, term)
    || (c.email.Some? && ContainsIgnoringCase(c.email.value, term))
    || (c.phone.Some? && ContainsIgnoringCase(c.phone.value, term))
    || (c.document.Some? && ContainsIgnoringCase(c.document.value, term))
  }

  /** The type filter: None stands for 'all'. */
  predicate MatchesType(c: Contact, filter: Option<ContactType>)
  {
    filter.None? || c.contactType == filter.value
  }

  function FilteredContacts(contacts: seq<Contact>, term: string, filter: Option<ContactType>): seq<Contact>
  {
    Filter(contacts, (c: Contact) => MatchesSearch(c, term) && MatchesType(c, filter))
  }

  /** The list keeps exactly the contacts matching both the search and the type, in order;
      with no term and 'all' it is the whole list. */
  lemma FilteredContactsSelects(contacts: seq<Contact>, term: string, filter: Option<ContactType>)
    ensures forall c :: c in FilteredContacts(contacts, term, filter)
              <==> c in contacts && MatchesSearch(c, term) && MatchesType(c, filter)
    ensures term == [] && filter.None? ==> FilteredContacts(contacts, term, filter) == contacts
  {
    var p := (c: Contact) => MatchesSearch(c, term) && MatchesType(c, filter);
    FilterMembers(contacts, p);
    if term == [] && filter.None? {
      FilterAll(contacts, p);
    }
  }
}
