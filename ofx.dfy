/** Bank-statement import (src/lib/ofx.ts). An OFX file is read line by line:
    the `<STMTTRN>` statement-transaction aggregates of section 11.4.3 of the Open
    Financial Exchange specification become records of their fields, and the
    account's ledger balance is kept; the records become bank statements sorted
    by posting date with a running balance, and each statement is matched to the
    first pending transaction that fits it. */
module Ofx {
  import opened Wrappers
  import opened Types
  import opened Text
  import opened Folds
  import opened Sorting
  import opened Money

  // ---------------------------------------------------------------- lines

  /** Lines of the header that precedes the aggregates. */
  const HeaderKeywords: seq<string> := [
    "<?xml", "<?OFX", "OFXHEADER", "VERSION", "SECURITY", "ENCODING", "CHARSET",
    "COMPRESSION", "OLDFILEUID", "NEWFILEUID"]

  predicate HeaderLine(line: string)
  {
    exists k :: 0 <= k < |HeaderKeywords| && StartsWith(line, HeaderKeywords[k])
  }

  /** A line the parser looks at: not blank and not a header line. */
  predicate Kept(line: string)
  {
    !IsBlank(line) && !HeaderLine(line)
  }

  function Lines(content: string): seq<string>
  {
    Filter(Split(content, '\n'), Kept)
  }

  /** The parser sees exactly the lines of the content that are neither blank nor
      header lines, in their order. */
  lemma LinesSpec(content: string)
    ensures forall line :: line in Lines(content) <==>
      line in Split(content, '\n') && Trim(line) != [] && !HeaderLine(line)
  {
    FilterMembers(Split(content, '\n'), Kept);
    forall line: string ensures IsBlank(line) <==> Trim(line) == [] {
      TrimEmptyIffBlank(line);
    }
  }

  // ---------------------------------------------------------------- tags

  function OpenTag(tag: string): string { "<" + tag + ">" }
  function CloseTag(tag: string): string { "</" + tag + ">" }

  /** `s.replace(/<\/?TAG>/g, '')`: every opening and closing tag removed. */
  function RemoveTag(s: string, tag: string): (r: string)
    ensures |r| <= |s|
    decreases |s|
  {
    if s == [] then []
    else if StartsWith(s, OpenTag(tag)) then RemoveTag(s[|OpenTag(tag)|..], tag)
    else if StartsWith(s, CloseTag(tag)) then RemoveTag(s[|CloseTag(tag)|..], tag)
    else [s[0]] + RemoveTag(s[1..], tag)
  }

  predicate NoAngle(v: string)
  {
    forall i :: 0 <= i < |v| ==> v[i] != '<'
  }

  /** Text that does not start with '<' starts with neither tag. */
  lemma NotTagged(s: string, tag: string)
    requires s != [] && s[0] != '<'
    ensures !StartsWith(s, OpenTag(tag)) && !StartsWith(s, CloseTag(tag))
  {
    assert OpenTag(tag)[0] == '<' && CloseTag(tag)[0] == '<';
    HeadDiffers(s, OpenTag(tag));
    HeadDiffers(s, CloseTag(tag));
  }

  /** A prefix whose first character differs from the text's is not a prefix. */
  lemma HeadDiffers(s: string, p: string)
    requires s != [] && p != [] && s[0] != p[0]
    ensures !StartsWith(s, p)
  {
    if |p| <= |s| {
      assert s[..|p|][0] == s[0];
    }
  }

  /** Text without a '<' passes through unchanged, whatever follows it. */
  lemma {:induction false} RemoveTagKeeps(v: string, rest: string, tag: string)
    requires NoAngle(v)
    ensures RemoveTag(v + rest, tag) == v + RemoveTag(rest, tag)
    decreases |v|
  {
    if v != [] {
      var s := v + rest;
      assert s[0] == v[0] && s[0] != '<';
      NotTagged(s, tag);
      assert s[1..] == v[1..] + rest;
      RemoveTagKeeps(v[1..], rest, tag);
      assert RemoveTag(s, tag) == [s[0]] + RemoveTag(s[1..], tag);
    } else {
      assert v + rest == rest;
    }
  }

  predicate TagName(tag: string)
  {
    tag != [] && forall i :: 0 <= i < |tag| ==> IsUpper(tag[i])
  }

  /** A field line gives back the value between its tags. */
  lemma FieldValue(tag: string, v: string)
    requires TagName(tag) && NoAngle(v)
    ensures RemoveTag(OpenTag(tag) + v + CloseTag(tag), tag) == v
  {
    var o, c := OpenTag(tag), CloseTag(tag);
    var s := o + v + c;
    assert StartsWith(s, o) by { assert s[..|o|] == o; }
    assert s[|o|..] == v + c;
    RemoveTagKeeps(v, c, tag);
    assert !StartsWith(c, o) by { assert c[1] == '/' && o[1] == tag[0]; }
    assert StartsWith(c, c);
    assert c[|c|..] == [];
    assert v + [] == v;
  }

  // ---------------------------------------------------------------- scanning

  /** The fields of one `<STMTTRN>` aggregate that the parser captures. */
  datatype Record = Record(
    trnType: Option<string>, posted: Option<string>, amount: Option<string>, fitId: Option<string>,
    checkNum: Option<string>, memo: Option<string>, name: Option<string>)

  const NoFields: Record := Record(None, None, None, None, None, None, None)

  /** `Object.keys(record).length > 0`. */
  predicate HasFields(r: Record)
  {
    r != NoFields
  }

  /** The account data; `balance` is None for a BALAMT that is not a number. */
  datatype BankInfo = BankInfo(
    bankId: string, accountId: string, accountType: string, balance: Option<int>, balanceDate: string)

  const NoBankInfo: BankInfo := BankInfo("", "", "", Some(0), "")

  function Tagged(line: string, tag: string, previous: string): string
  {
    if Contains(line, OpenTag(tag)) then RemoveTag(line, tag) else previous
  }

  function TaggedField(line: string, tag: string, previous: Option<string>): Option<string>
  {
    if Contains(line, OpenTag(tag)) then Some(RemoveTag(line, tag)) else previous
  }

  /** The account fields a line sets, on any line. */
  function ReadBank(b: BankInfo, line: string): BankInfo
  {
    BankInfo(
      Tagged(line, "BANKID", b.bankId), Tagged(line, "ACCTID", b.accountId),
      Tagged(line, "ACCTTYPE", b.accountType),
      if Contains(line, OpenTag("BALAMT")) then ParseFloat(RemoveTag(line, "BALAMT")) else b.balance,
      Tagged(line, "DTASOF", b.balanceDate))
  }

  /** The record fields a line sets, inside an aggregate. */
  function ReadFields(r: Record, line: string): Record
  {
    Record(
      TaggedField(line, "TRNTYPE", r.trnType), TaggedField(line, "DTPOSTED", r.posted),
      TaggedField(line, "TRNAMT", r.amount), TaggedField(line, "FITID", r.fitId),
      TaggedField(line, "CHECKNUM", r.checkNum), TaggedField(line, "MEMO", r.memo),
      TaggedField(line, "NAME", r.name))
  }

  /** The parser's state: the records so far, the open record, whether an
      aggregate is open, and the account data. */
  datatype Scan = Scan(records: seq<Record>, current: Record, inTransaction: bool, bank: BankInfo)

  const Start: Scan := Scan([], NoFields, false, NoBankInfo)

  /** One trimmed line: account fields first; an opening tag starts a fresh
      record, a closing tag ends the aggregate and keeps the record if it has a
      field; other lines inside an aggregate fill the record. */
  function ScanLine(st: Scan, raw: string): Scan
  {
    var line := Trim(raw);
    var bank := ReadBank(st.bank, line);
    if Contains(line, OpenTag("STMTTRN")) then Scan(st.records, NoFields, true, bank)
    else if Contains(line, CloseTag("STMTTRN")) then
      Scan(if HasFields(st.current) then st.records + [st.current] else st.records, st.current, false, bank)
    else if st.inTransaction then Scan(st.records, ReadFields(st.current, line), true, bank)
    else Scan(st.records, st.current, false, bank)
  }

  function ScanLines(lines: seq<string>): Scan
  {
    if lines == [] then Start else ScanLine(ScanLines(lines[..|lines| - 1]), lines[|lines| - 1])
  }

  /** `parseOFXContent`: the line loop over the parser's mutable state. */
  method ParseContent(content: string) returns (records: seq<Record>, bank: BankInfo)
    ensures records == ScanLines(Lines(content)).records
    ensures bank == ScanLines(Lines(content)).bank
  {
    var lines := Lines(content);
    records := [];
    var current := NoFields;
    var inTransaction := false;
    bank := NoBankInfo;
    for i := 0 to |lines|
      invariant Scan(records, current, inTransaction, bank) == ScanLines(lines[..i])
    {
      assert lines[..i + 1][..i] == lines[..i];
      var line := Trim(lines[i]);
      bank := ReadBank(bank, line);
      if Contains(line, OpenTag("STMTTRN")) {
        inTransaction := true;
        current := NoFields;
      } else if Contains(line, CloseTag("STMTTRN")) {
        inTransaction := false;
        if HasFields(current) {
          records := records + [current];
        }
      } else if inTransaction {
        current := ReadFields(current, line);
      }
    }
    assert lines[..|lines|] == lines;
  }

  predicate Opens(raw: string) { Contains(Trim(raw), OpenTag("STMTTRN")) }
  predicate Closes(raw: string) { !Opens(raw) && Contains(Trim(raw), CloseTag("STMTTRN")) }

  /** Every kept record has a field, there are at most as many records as
      closing lines, and without an opening line nothing is captured at all. */
  lemma {:induction false} ScanSpec(lines: seq<string>)
    ensures var st := ScanLines(lines);
      && (forall i :: 0 <= i < |st.records| ==> HasFields(st.records[i]))
      && |st.records| <= Count(lines, Closes)
      && ((forall i :: 0 <= i < |lines| ==> !Opens(lines[i])) ==>
            st.records == [] && st.current == NoFields && !st.inTransaction)
  {
    if lines != [] {
      var init := lines[..|lines| - 1];
      ScanSpec(init);
      ScanStep(ScanLines(init), lines[|lines| - 1]);
      assert forall i :: 0 <= i < |init| ==> init[i] == lines[i];
    }
  }

  /** One line keeps every record with a field, adds at most one record and only
      on a closing line, and leaves the initial state alone unless it opens. */
  lemma ScanStep(st: Scan, raw: string)
    requires forall i :: 0 <= i < |st.records| ==> HasFields(st.records[i])
    ensures var next := ScanLine(st, raw);
      && (forall i :: 0 <= i < |next.records| ==> HasFields(next.records[i]))
      && |next.records| <= |st.records| + (if Closes(raw) then 1 else 0)
      && (!Opens(raw) && st.records == [] && st.current == NoFields && !st.inTransaction ==>
            next.records == [] && next.current == NoFields && !next.inTransaction)
  {
  }

  // ---------------------------------------------------------------- dates

  function Min(a: nat, b: nat): nat { if a <= b then a else b }

  /** `s.substring(from, to)`, clamped to the text. */
  function Substring(s: string, from: nat, to: nat): string
    requires from <= to
  {
    s[Min(from, |s|)..Min(to, |s|)]
  }

  /** A local date and time as `new Date(y, m, d, h, mi, s)` receives it, with the
      constructor's reading of years 0 to 99 as 1900 to 1999; `InvalidStamp` is
      the Invalid Date a NaN component gives. */
  datatype Stamp = Stamp(year: int, monthIndex: int, day: int, hour: int, minute: int, second: int) | InvalidStamp

  function LocalStamp(y: int, monthIndex: int, d: int, h: int, mi: int, s: int): Stamp
  {
    Stamp(if 0 <= y <= 99 then 1900 + y else y, monthIndex, d, h, mi, s)
  }

  /** One numeric field of the date: `parseInt(s.substring(from, to))`. */
  function DatePart(s: string, from: nat, to: nat): Option<int>
    requires from <= to
  {
    ParseInt(Substring(s, from, to))
  }

  /** The stamp the six fields give; the time fields are read only for a long
      text, and any NaN field makes the date invalid. */
  function StampOf(y: Option<int>, m: Option<int>, d: Option<int>,
                   h: Option<int>, mi: Option<int>, sec: Option<int>, long: bool): Stamp
  {
    if y.None? || m.None? || d.None? then InvalidStamp
    else if !long then LocalStamp(y.value, m.value - 1, d.value, 0, 0, 0)
    else if h.None? || mi.None? || sec.None? then InvalidStamp
    else LocalStamp(y.value, m.value - 1, d.value, h.value, mi.value, sec.value)
  }

  /** `parseOFXDate`: YYYYMMDD, then HHMMSS only when the text is longer than 8. */
  function ParseOfxDate(s: string): Stamp
  {
    StampOf(DatePart(s, 0, 4), DatePart(s, 4, 6), DatePart(s, 6, 8),
      DatePart(s, 8, 10), DatePart(s, 10, 12), DatePart(s, 12, 14), |s| > 8)
  }

  lemma DigitsPart(s: string, from: nat, to: nat)
    requires from < to <= |s| && AllDigits(s[from..to])
    ensures DatePart(s, from, to) == Some(DigitsValue(s[from..to]))
  {
    DigitsNumber(s[from..to]);
  }

  lemma PrefixPart(s: string, n: nat, from: nat, to: nat)
    requires from <= to <= n <= |s|
    ensures DatePart(s, from, to) == DatePart(s[..n], from, to)
  {
    assert Substring(s, from, to) == Substring(s[..n], from, to);
  }

  /** The year, month and day fields of a text whose first eight characters are digits. */
  lemma DayFields(s: string)
    requires |s| >= 8 && AllDigits(s[..8])
    ensures DatePart(s, 0, 4) == Some(DigitsValue(s[..4]))
    ensures DatePart(s, 4, 6) == Some(DigitsValue(s[4..6]))
    ensures DatePart(s, 6, 8) == Some(DigitsValue(s[6..8]))
  {
    assert s[0..4] == s[..4];
    DigitsPart(s, 0, 4);
    DigitsPart(s, 4, 6);
    DigitsPart(s, 6, 8);
  }

  /** The hour, minute and second fields of a text whose first fourteen characters are digits. */
  lemma TimeFields(s: string)
    requires |s| >= 14 && AllDigits(s[..14])
    ensures DatePart(s, 8, 10) == Some(DigitsValue(s[8..10]))
    ensures DatePart(s, 10, 12) == Some(DigitsValue(s[10..12]))
    ensures DatePart(s, 12, 14) == Some(DigitsValue(s[12..14]))
  {
    DigitsPart(s, 8, 10);
    DigitsPart(s, 10, 12);
    DigitsPart(s, 12, 14);
  }

  /** A date of eight digits is year, month and day at midnight. */
  lemma OfxDateOnly(s: string)
    requires |s| == 8 && AllDigits(s)
    ensures ParseOfxDate(s) ==
      LocalStamp(DigitsValue(s[..4]), DigitsValue(s[4..6]) - 1, DigitsValue(s[6..]), 0, 0, 0)
  {
    assert s[..8] == s && s[6..8] == s[6..];
    DayFields(s);
  }

  /** Fourteen digits are read as year, month, day, hour, minute and second. */
  lemma OfxDateTime(s: string)
    requires |s| == 14 && AllDigits(s)
    ensures ParseOfxDate(s) == LocalStamp(
      DigitsValue(s[..4]), DigitsValue(s[4..6]) - 1, DigitsValue(s[6..8]),
      DigitsValue(s[8..10]), DigitsValue(s[10..12]), DigitsValue(s[12..]))
  {
    assert s[..14] == s && s[12..14] == s[12..];
    assert AllDigits(s[..8]);
    DayFields(s);
    TimeFields(s);
  }

  /** Whatever follows the fourteen date and time characters (fractional seconds,
      a time-zone suffix) is ignored. */
  lemma OfxDateSuffix(s: string)
    requires |s| >= 14
    ensures ParseOfxDate(s) == ParseOfxDate(s[..14])
  {
    PrefixPart(s, 14, 0, 4);
    PrefixPart(s, 14, 4, 6);
    PrefixPart(s, 14, 6, 8);
    PrefixPart(s, 14, 8, 10);
    PrefixPart(s, 14, 10, 12);
    PrefixPart(s, 14, 12, 14);
  }

  // ---------------------------------------------------------------- statements

  const OfxError: string := "Erro ao processar arquivo OFX. Verifique se o formato está correto."

  function Magnitude(v: int): nat
  {
    if v < 0 then -v else v
  }

  /** TRNAMT as `parseFloat` reads it. */
  function AmountValue(r: Record): int
  {
    match r.amount
    case None => 0
    case Some(text) =>
      match ParseFloat(text)
      case None => 0
      case Some(v) => v
  }

  /** MEMO, else NAME, else CHECKNUM, else '' (a missing or empty field is skipped). */
  function Describe(r: Record): string
  {
    OrElse(r.memo, OrElse(r.name, OrElse(r.checkNum, "")))
  }

  /** A record as a bank statement: the account, user and balance are filled in
      later. `when` is the local-time reading of a stamp, outside this model. */
  function ToStatement(r: Record, id: string, when: Stamp -> Date): BankStatement
    requires r.posted.Some?
  {
    var v := AmountValue(r);
    BankStatement(id, "", when(ParseOfxDate(r.posted.value)), Describe(r), Magnitude(v),
      if v < 0 then Debit else Credit, 0, false, None, "")
  }

  /** A statement is described by the first of MEMO, NAME and CHECKNUM that is present
      and non-empty, and by the empty text when none is. */
  lemma StatementDescription(r: Record, id: string, when: Stamp -> Date)
    requires r.posted.Some?
    ensures var d := ToStatement(r, id, when).description;
      && (r.memo.Some? && r.memo.value != [] ==> d == r.memo.value)
      && ((r.memo.None? || r.memo.value == []) && r.name.Some? && r.name.value != [] ==> d == r.name.value)
      && ((r.memo.None? || r.memo.value == []) && (r.name.None? || r.name.value == [])
          ==> d == OrElse(r.checkNum, ""))
  {
  }

  /** A TRNAMT written from an amount gives a statement of its magnitude, a debit
      exactly when it is negative. */
  lemma StatementAmount(r: Record, c: int, id: string, when: Stamp -> Date)
    requires r.posted.Some? && r.amount == Some(CentsText(c))
    ensures ToStatement(r, id, when).amount == Magnitude(c)
    ensures ToStatement(r, id, when).stType == Debit <==> c < 0
  {
    FloatRoundTrip(c);
  }

  predicate AllPosted(rs: seq<Record>)
  {
    forall i :: 0 <= i < |rs| ==> rs[i].posted.Some?
  }

  /** The `map` over the records, which throws at a record without DTPOSTED (its
      date cannot be read); the i-th statement gets the i-th fresh id. */
  function ConvertAll(rs: seq<Record>, newId: nat -> string, when: Stamp -> Date): Result<seq<BankStatement>, string>
  {
    if AllPosted(rs) then Ok(seq(|rs|, i requires 0 <= i < |rs| => ToStatement(rs[i], newId(i), when)))
    else Err(OfxError)
  }

  function StatementTime(s: BankStatement): int { s.transactionDate.time }

  /** A statement's effect on the balance: credits add, debits subtract. */
  function Effect(s: BankStatement): int
  {
    if s.stType == Credit then s.amount else -s.amount
  }

  function CreditAmount(s: BankStatement): int { if s.stType == Credit then s.amount else 0 }
  function DebitAmount(s: BankStatement): int { if s.stType == Debit then s.amount else 0 }

  /** `bankInfo.balance || 0`: a NaN ledger balance counts as 0. */
  function Seed(b: BankInfo): int
  {
    match b.balance
    case None => 0
    case Some(v) => v
  }

  /** Each statement carries the balance after it. */
  function WithBalances(ss: seq<BankStatement>, seed: int): (r: seq<BankStatement>)
    ensures |r| == |ss|
  {
    seq(|ss|, i requires 0 <= i < |ss| => ss[i].(balance := seed + Sum(ss[..i + 1], Effect)))
  }

  /** The running-balance loop, writing each statement's balance in turn. */
  method RunBalances(ss: seq<BankStatement>, seed: int) returns (r: seq<BankStatement>)
    ensures r == WithBalances(ss, seed)
  {
    r := ss;
    var balance := seed;
    for i := 0 to |ss|
      invariant |r| == |ss|
      invariant balance == seed + Sum(ss[..i], Effect)
      invariant forall j :: 0 <= j < i ==> r[j] == WithBalances(ss, seed)[j]
      invariant forall j :: i <= j < |ss| ==> r[j] == ss[j]
    {
      SumStep(ss, i, Effect);
      if r[i].stType == Credit {
        balance := balance + r[i].amount;
      } else {
        balance := balance - r[i].amount;
      }
      r := r[i := r[i].(balance := balance)];
    }
  }

  lemma {:induction false} EffectSplit(ss: seq<BankStatement>)
    ensures Sum(ss, Effect) == Sum(ss, CreditAmount) - Sum(ss, DebitAmount)
  {
    if ss != [] {
      EffectSplit(ss[..|ss| - 1]);
    }
  }

  /** Balances change only the balance field; each is the seed moved by the
      statements up to it, so the last is the seed plus credits minus debits. */
  lemma BalancesSpec(ss: seq<BankStatement>, seed: int)
    ensures forall i :: 0 <= i < |ss| ==> WithBalances(ss, seed)[i] == ss[i].(balance := WithBalances(ss, seed)[i].balance)
    ensures forall i :: 0 < i < |ss| ==>
      WithBalances(ss, seed)[i].balance == WithBalances(ss, seed)[i - 1].balance + Effect(ss[i])
    ensures ss != [] ==>
      WithBalances(ss, seed)[|ss| - 1].balance == seed + Sum(ss, CreditAmount) - Sum(ss, DebitAmount)
  {
    forall i | 0 < i < |ss|
      ensures WithBalances(ss, seed)[i].balance == WithBalances(ss, seed)[i - 1].balance + Effect(ss[i])
    {
      SumStep(ss, i, Effect);
    }
    if ss != [] {
      assert ss[..|ss|] == ss;
      EffectSplit(ss);
    }
  }

  // ---------------------------------------------------------------- matching

  const MatchWindow: int := 5 * 24 * 60 * 60 * 1000

  function Distance(a: int, b: int): nat
  {
    if a <= b then b - a else a - b
  }

  predicate SameKind(st: BankStatement, t: Transaction)
  {
    (st.stType == Credit && t.txType == Income) || (st.stType == Debit && t.txType == Expense)
  }

  /** The exact pass's test: same amount, due within five days of the statement,
      pending, credit against income or debit against expense, same account. */
  predicate Candidate(st: BankStatement, t: Transaction)
  {
    && t.amount == st.amount
    && Distance(t.dueDate.time, st.transactionDate.time) <= MatchWindow
    && t.status == Pending
    && SameKind(st, t)
    && t.bankAccount == st.bankAccountId
  }

  predicate IsAlnum(c: char) { IsLower(c) || IsDigit(c) }

  /** `toLowerCase().replace(/[^a-z0-9]/g, '')`. */
  function Normalised(s: string): string
  {
    if s == [] then [] else (if IsAlnum(Lower(s[0])) then [Lower(s[0])] else []) + Normalised(s[1..])
  }

  /** One description, normalised, contains the other. */
  predicate Similar(st: BankStatement, t: Transaction)
  {
    Contains(Normalised(st.description), Normalised(t.description)) ||
    Contains(Normalised(t.description), Normalised(st.description))
  }

  /** `ts.find(p)`. */
  function FirstWhere(ts: seq<Transaction>, p: Transaction -> bool): (r: Option<Transaction>)
    ensures r.Some? ==> exists i :: (0 <= i < |ts| && ts[i] == r.value && p(ts[i]) &&
      forall j :: 0 <= j < i ==> !p(ts[j]))
    ensures r.None? ==> forall i :: 0 <= i < |ts| ==> !p(ts[i])
  {
    if ts == [] then None
    else if p(ts[0]) then Some(ts[0])
    else
      var rest := FirstWhere(ts[1..], p);
      assert forall j :: 1 <= j < |ts| ==> ts[j] == ts[1..][j - 1];
      if rest.Some? then
        var i :| 0 <= i < |ts[1..]| && ts[1..][i] == rest.value && p(ts[1..][i]) &&
          forall j :: 0 <= j < i ==> !p(ts[1..][j]);
        assert ts[i + 1] == rest.value;
        rest
      else None
  }

  /** `findMatchingTransaction`: the first candidate, else the first candidate
      whose description is similar. */
  function FindMatching(st: BankStatement, ts: seq<Transaction>): Option<Transaction>
  {
    match FirstWhere(ts, (t: Transaction) => Candidate(st, t))
    case Some(t) => Some(t)
    case None => FirstWhere(ts, (t: Transaction) => Candidate(st, t) && Similar(st, t))
  }

  /** The similarity pass only adds a condition, so it never finds what the exact
      pass missed: the match is the first candidate, if there is one. */
  lemma MatchIsFirstCandidate(st: BankStatement, ts: seq<Transaction>)
    ensures FindMatching(st, ts) == FirstWhere(ts, (t: Transaction) => Candidate(st, t))
    ensures FindMatching(st, ts).Some? <==> exists i :: 0 <= i < |ts| && Candidate(st, ts[i])
    ensures FindMatching(st, ts).Some? ==> exists i :: (0 <= i < |ts| && ts[i] == FindMatching(st, ts).value &&
      Candidate(st, ts[i]) && forall j :: 0 <= j < i ==> !Candidate(st, ts[j]))
  {
  }

  datatype Match = Match(statement: BankStatement, transaction: Transaction)

  /** The statements that found a match, each with its transaction, in order. */
  function Matches(ss: seq<BankStatement>, ts: seq<Transaction>): (r: seq<Match>)
    ensures |r| <= |ss|
  {
    if ss == [] then []
    else
      var st := ss[|ss| - 1];
      Matches(ss[..|ss| - 1], ts) + match FindMatching(st, ts)
        case None => []
        case Some(t) => [Match(st, t)]
  }

  /** At most one match per statement, each pairing a statement with a candidate
      transaction for it; a transaction may serve several statements. */
  lemma {:induction false} MatchesSpec(ss: seq<BankStatement>, ts: seq<Transaction>)
    ensures forall m :: m in Matches(ss, ts) ==> m.statement in ss && m.transaction in ts && Candidate(m.statement, m.transaction)
  {
    if ss != [] {
      var st := ss[|ss| - 1];
      MatchesSpec(ss[..|ss| - 1], ts);
      MatchIsFirstCandidate(st, ts);
      assert forall x :: x in ss[..|ss| - 1] ==> x in ss;
    }
  }

  // ---------------------------------------------------------------- the file

  datatype Imported = Imported(statements: seq<BankStatement>, matches: seq<Match>)

  /** The converted statements sorted by date, with running balances from the
      ledger balance. */
  function Balanced(ss: seq<BankStatement>, bank: BankInfo): seq<BankStatement>
  {
    WithBalances(SortBy(ss, StatementTime), Seed(bank))
  }

  /** What the parsed content becomes: no aggregate, or a failure while
      converting, rejects the file with one message. */
  function Import(st: Scan, ts: seq<Transaction>, newId: nat -> string, when: Stamp -> Date): Result<Imported, string>
  {
    if st.records == [] then Err(OfxError)
    else match ConvertAll(st.records, newId, when)
      case Err(_) => Err(OfxError)
      case Ok(ss) =>
        var balanced := Balanced(ss, st.bank);
        Ok(Imported(balanced, Matches(balanced, ts)))
  }

  /** `parseOFXFile` after the file is read. */
  function ParseOfxFile(content: string, ts: seq<Transaction>, newId: nat -> string, when: Stamp -> Date): Result<Imported, string>
  {
    Import(ScanLines(Lines(content)), ts, newId, when)
  }

  /** Balancing keeps the sorted order. */
  lemma BalancedSorted(ss: seq<BankStatement>, bank: BankInfo)
    ensures |Balanced(ss, bank)| == |ss|
    ensures SortedBy(Balanced(ss, bank), StatementTime)
  {
    var sorted := SortBy(ss, StatementTime);
    SortByCorrect(ss, StatementTime);
    PermutationSameElements(sorted, ss);
    var b := Balanced(ss, bank);
    assert forall i :: 0 <= i < |b| ==> StatementTime(b[i]) == StatementTime(sorted[i]);
  }

  /** Each balanced statement is one of the statements with its balance set. */
  lemma BalancedFrom(ss: seq<BankStatement>, bank: BankInfo)
    ensures forall x :: x in Balanced(ss, bank) ==> exists y :: y in ss && x == y.(balance := x.balance)
  {
    var sorted := SortBy(ss, StatementTime);
    SortByCorrect(ss, StatementTime);
    PermutationSameElements(sorted, ss);
    var b := Balanced(ss, bank);
    forall x | x in b ensures exists y :: y in ss && x == y.(balance := x.balance) {
      var i :| 0 <= i < |b| && b[i] == x;
      assert sorted[i] in ss;
    }
  }

  /** The last balance is the ledger balance plus the credits minus the debits. */
  lemma BalancedLast(ss: seq<BankStatement>, bank: BankInfo)
    ensures var b := Balanced(ss, bank);
      b != [] ==> b[|b| - 1].balance == Seed(bank) + Sum(b, CreditAmount) - Sum(b, DebitAmount)
  {
    var sorted := SortBy(ss, StatementTime);
    var b := WithBalances(sorted, Seed(bank));
    BalancesSpec(sorted, Seed(bank));
    SumPointwise(b, sorted, CreditAmount);
    SumPointwise(b, sorted, DebitAmount);
  }

  /** A file imports exactly when it has an aggregate and every one has DTPOSTED;
      then it gives one statement per record, sorted by date, the last balance is
      the ledger balance plus credits minus debits, and every match pairs a
      statement with a candidate transaction for it. */
  lemma ImportSpec(st: Scan, ts: seq<Transaction>, newId: nat -> string, when: Stamp -> Date)
    ensures var r := Import(st, ts, newId, when);
      && (r.Ok? <==> st.records != [] && AllPosted(st.records))
      && (r.Err? ==> r.error == OfxError)
      && (r.Ok? ==>
        var ss := r.value.statements;
        && |ss| == |st.records|
        && SortedBy(ss, StatementTime)
        && ss[|ss| - 1].balance == Seed(st.bank) + Sum(ss, CreditAmount) - Sum(ss, DebitAmount)
        && (forall m :: m in r.value.matches ==> m.statement in ss && m.transaction in ts && Candidate(m.statement, m.transaction)))
  {
    if st.records != [] && AllPosted(st.records) {
      var c := ConvertAll(st.records, newId, when).value;
      assert |c| == |st.records|;
      BalancedSorted(c, st.bank);
      BalancedLast(c, st.bank);
      MatchesSpec(Balanced(c, st.bank), ts);
    }
  }

  /** Converted statements carry no account yet. */
  lemma ConvertedAccount(rs: seq<Record>, newId: nat -> string, when: Stamp -> Date)
    requires AllPosted(rs)
    ensures forall i :: 0 <= i < |rs| ==> ConvertAll(rs, newId, when).value[i].bankAccountId == ""
  {
    var c := ConvertAll(rs, newId, when).value;
    forall i | 0 <= i < |rs| ensures c[i].bankAccountId == "" {
      assert c[i] == ToStatement(rs[i], newId(i), when);
    }
  }

  /** Statements that all carry one account keep it through balancing. */
  lemma BalancedAccount(ss: seq<BankStatement>, bank: BankInfo, account: string)
    requires forall i :: 0 <= i < |ss| ==> ss[i].bankAccountId == account
    ensures forall x :: x in Balanced(ss, bank) ==> x.bankAccountId == account
  {
    BalancedFrom(ss, bank);
    forall x | x in Balanced(ss, bank) ensures x.bankAccountId == account {
      var y :| y in ss && x == y.(balance := x.balance);
    }
  }

  /** Matching statements of one account finds only transactions of that account. */
  lemma MatchesAccount(ss: seq<BankStatement>, ts: seq<Transaction>, account: string)
    requires forall x :: x in ss ==> x.bankAccountId == account
    ensures forall m :: m in Matches(ss, ts) ==> m.transaction.bankAccount == account
  {
    MatchesSpec(ss, ts);
  }

  /** The statements are built with an empty account and matching runs before the
      account is set, so a match can only be a transaction with no account. */
  lemma MatchesNeedNoAccount(st: Scan, ts: seq<Transaction>, newId: nat -> string, when: Stamp -> Date)
    requires Import(st, ts, newId, when).Ok?
    ensures forall m :: m in Import(st, ts, newId, when).value.matches ==> m.transaction.bankAccount == ""
  {
    var c := ConvertAll(st.records, newId, when).value;
    ConvertedAccount(st.records, newId, when);
    var b := Balanced(c, st.bank);
    BalancedAccount(c, st.bank, "");
    MatchesAccount(b, ts, "");
    assert Import(st, ts, newId, when).value.matches == Matches(b, ts);
  }

  /** The import as evidently intended: the statements belong to `account` before
      they are matched. */
  function ImportFor(st: Scan, account: string, ts: seq<Transaction>, newId: nat -> string, when: Stamp -> Date): Result<Imported, string>
  {
    if st.records == [] then Err(OfxError)
    else match ConvertAll(st.records, newId, when)
      case Err(_) => Err(OfxError)
      case Ok(ss) =>
        var balanced := Balanced(ss, st.bank);
        var owned := seq(|balanced|, i requires 0 <= i < |balanced| => balanced[i].(bankAccountId := account));
        Ok(Imported(owned, Matches(owned, ts)))
  }

  /** Then every statement is on that account and every match is a candidate
      transaction of that account. */
  lemma MatchesOnAccount(st: Scan, account: string, ts: seq<Transaction>, newId: nat -> string, when: Stamp -> Date)
    requires ImportFor(st, account, ts, newId, when).Ok?
    ensures var r := ImportFor(st, account, ts, newId, when).value;
      && (forall s :: s in r.statements ==> s.bankAccountId == account)
      && (forall m :: m in r.matches ==> m.transaction.bankAccount == account && Candidate(m.statement, m.transaction))
  {
    var r := ImportFor(st, account, ts, newId, when).value;
    MatchesSpec(r.statements, ts);
  }

  // ---------------------------------------------------------------- validation

  const MaxSize: int := 10 * 1024 * 1024
  const InvalidType: string := "Tipo de arquivo inválido. Por favor, selecione um arquivo OFX."
  const TooLarge: string := "Arquivo muito grande. O tamanho máximo é 10MB."

  /** `name.split('.').pop().toLowerCase()`: the text after the last point, or the
      whole name without one. */
  function Extension(name: string): string
  {
    var parts := Split(name, '.');
    ToLower(parts[|parts| - 1])
  }

  /** `validateOFXFile`: the extension first, then the size. */
  function ValidateOfxFile(name: string, size: int): (r: Result<bool, string>)
    ensures r.Ok? <==> Extension(name) == "ofx" && size <= MaxSize
    ensures r.Ok? ==> r.value
    ensures Extension(name) != "ofx" ==> r == Err(InvalidType)
    ensures Extension(name) == "ofx" && size > MaxSize ==> r == Err(TooLarge)
  {
    if Extension(name) != "ofx" then Err(InvalidType)
    else if size > MaxSize then Err(TooLarge)
    else Ok(true)
  }

  /** The last piece of a split is what follows the last separator. */
  lemma {:induction false} SplitLast(a: string, b: string, sep: char)
    requires forall i :: 0 <= i < |b| ==> b[i] != sep
    ensures var parts := Split(a + [sep] + b, sep); parts[|parts| - 1] == b
    decreases |a|
  {
    var s := a + [sep] + b;
    assert s[|a|] == sep;
    var k := FirstIndex(s, sep).value;
    assert k <= |a|;
    var rest := s[k + 1..];
    var tail := Split(rest, sep);
    assert Split(s, sep) == [s[..k]] + tail;
    if k < |a| {
      assert rest == a[k + 1..] + [sep] + b;
      SplitLast(a[k + 1..], b, sep);
    } else {
      assert rest == b;
      assert tail == [b];
    }
    assert Split(s, sep)[|tail|] == tail[|tail| - 1];
  }

  /** A name ending in ".ofx", in any case, has the OFX extension. */
  lemma OfxExtension(base: string, ext: string)
    requires ToLower(ext) == "ofx"
    ensures Extension(base + "." + ext) == "ofx"
  {
    assert forall i :: 0 <= i < |ext| ==> Lower(ext[i]) == "ofx"[i];
    SplitLast(base, ext, '.');
  }
}
