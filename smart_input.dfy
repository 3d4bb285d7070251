/** The currency field: the text typed is read as an amount by `parseCurrency`, and only
    texts of the form `-?\d*[,.]?\d*` are passed on while typing. Amounts are whole
    cents, as everywhere in the model. */
module SmartInput {
  import opened Wrappers
  import opened Text
  import opened Folds
  import opened Money

  /** The characters `/[R$\s.]/g` removes. */
  predicate Symbol(c: char)
  {
    c == 'R' || c == '$' || c == '.' || IsSpace(c)
  }

  function StripSymbols(s: string): (r: string)
    ensures forall i :: 0 <= i < |r| ==> !Symbol(r[i])
  {
    var keep := (c: char) => !Symbol(c);
    FilterMembers(s, keep);
    var r := Filter(s, keep);
    assert forall i :: 0 <= i < |r| ==> r[i] in r;
    r
  }

  /** `.replace(',', '.')`: a string pattern, so only the first comma. */
  function CommaToPoint(s: string): (r: string)
    ensures |r| == |s|
    ensures FirstIndex(s, ',').None? ==> r == s
  {
    match FirstIndex(s, ',')
    case None => s
    case Some(k) => s[..k] + "." + s[k + 1..]
  }

  /** `.replace(/-/g, '')`. */
  function DropMinus(s: string): (r: string)
    ensures forall i :: 0 <= i < |r| ==> r[i] != '-'
  {
    var keep := (c: char) => c != '-';
    FilterMembers(s, keep);
    var r := Filter(s, keep);
    assert forall i :: 0 <= i < |r| ==> r[i] in r;
    r
  }

  /** `parseCurrency`: symbols, blanks and every point are removed and the first comma
      becomes the decimal point; a leading minus makes the amount negative only when the
      field allows it; every minus is dropped before the number is read, and text that
      is not a number reads as 0. */
  function ParseCurrency(value: string, allowNegative: bool): (r: int)
    ensures r < 0 ==> allowNegative && Negative(value)
    ensures ParseFloat(Unsigned(value)).None? ==> r == 0
    ensures ParseFloat(Unsigned(value)).Some? ==>
      r == (if Negative(value) && allowNegative then -ParseFloat(Unsigned(value)).value
            else ParseFloat(Unsigned(value)).value)
  {
    var u := Unsigned(value);
    NoMinusNotNegative(u);
    match ParseFloat(u)
    case None => 0
    case Some(n) => if Negative(value) && allowNegative then -n else n
  }

  /** `numericString`. */
  function Cleaned(value: string): string
  {
    CommaToPoint(StripSymbols(value))
  }

  /** `numericString.startsWith('-')`. */
  predicate Negative(value: string)
  {
    var t := Cleaned(value);
    t != [] && t[0] == '-'
  }

  /** `absoluteValue`. */
  function Unsigned(value: string): string
  {
    DropMinus(Cleaned(value))
  }

  /** A text without a minus never reads as a negative number. */
  lemma NoMinusNotNegative(u: string)
    requires forall i :: 0 <= i < |u| ==> u[i] != '-'
    ensures ParseFloat(u).Some? ==> ParseFloat(u).value >= 0
  {
    var t := TrimStart(u);
    NoMinusTrimmed(u);
    var p := NumberPrefix(t);
    if p != [] {
      NoLeadingMinus(t);
    }
  }

  lemma {:induction false} NoMinusTrimmed(u: string)
    requires forall i :: 0 <= i < |u| ==> u[i] != '-'
    ensures forall i :: 0 <= i < |TrimStart(u)| ==> TrimStart(u)[i] != '-'
    decreases |u|
  {
    if u != [] && IsSpace(u[0]) {
      NoMinusTrimmed(u[1..]);
    }
  }

  lemma NoLeadingMinus(t: string)
    requires t != [] && t[0] != '-'
    requires NumberPrefix(t) != []
    ensures NumberPrefix(t)[0] != '-'
  {
    var sign := SignPart(t);
    if sign == [] {
      var whole := LeadingDigits(t);
      assert t[|sign|..] == t;
      if whole != [] {
        assert NumberPrefix(t)[0] == whole[0];
      }
    }
  }

  /** With the minus of a field that allows it, the amount is the negation of the one
      read without it; a field that does not allow it reads the magnitude. */
  lemma SignOnlyWhenAllowed(value: string)
    ensures ParseCurrency(value, false) >= 0
    ensures ParseCurrency(value, true)
            == (if Negative(value) then -ParseCurrency(value, false) else ParseCurrency(value, false))
  {
  }

  /** `-` when the text is negative. */
  function Minus(negative: bool): string
  {
    if negative then "-" else ""
  }

  /** What a field reads: the magnitude, negated for a leading minus where allowed. */
  function Signed(negative: bool, allowNegative: bool, magnitude: nat): int
  {
    if negative && allowNegative then -(magnitude as int) else magnitude
  }

  /** `/^-?\d*[,.]?\d*$/`: an optional minus, then digits with at most one comma or
      point among them. */
  predicate Accepted(raw: string)
  {
    var body := if raw != [] && raw[0] == '-' then raw[1..] else raw;
    && (forall i :: 0 <= i < |body| ==> IsDigit(body[i]) || body[i] == ',' || body[i] == '.')
    && (forall i, j :: 0 <= i < j < |body| && (body[i] == ',' || body[i] == '.') ==> IsDigit(body[j]))
  }

  /** `handleCurrencyChange`: the amount passed to `onChange`, None when the text is not
      accepted and nothing is passed. */
  function CurrencyChange(raw: string, allowNegative: bool): (r: Option<int>)
    ensures r.Some? <==> Accepted(raw)
    ensures !allowNegative && r.Some? ==> r.value >= 0
  {
    if Accepted(raw) then Some(ParseCurrency(raw, allowNegative)) else None
  }

  /** What a comma text reads: the digits before the comma are units, the first two
      after it are the cents; no digit at all reads as 0. */
  function CommaValue(negative: bool, allowNegative: bool, w: string, f: string): int
    requires AllDigits(w) && AllDigits(f)
  {
    if w == [] && f == [] then 0 else Signed(negative, allowNegative, DigitsValue(w) * 100 + FractionCents(f))
  }

  /** An accepted text with a comma reads the digits after it as the decimals: "12,5"
      is 12.50. */
  lemma {:induction false} CommaAmount(negative: bool, w: string, f: string, allowNegative: bool)
    requires AllDigits(w) && AllDigits(f)
    ensures Accepted(Minus(negative) + w + "," + f)
    ensures CurrencyChange(Minus(negative) + w + "," + f, allowNegative)
            == Some(CommaValue(negative, allowNegative, w, f))
  {
    var raw := Minus(negative) + w + "," + f;
    CommaAccepted(negative, w, f);
    CommaRead(negative, w, f, allowNegative);
    ChangeReads(raw, allowNegative);
  }

  lemma CommaRead(negative: bool, w: string, f: string, allowNegative: bool)
    requires AllDigits(w) && AllDigits(f)
    ensures ParseCurrency(Minus(negative) + w + "," + f, allowNegative) == CommaValue(negative, allowNegative, w, f)
  {
    var raw := Minus(negative) + w + "," + f;
    var u := w + "." + f;
    CommaUnsigned(negative, w, f);
    PointNumber(w, f);
    ReadsAs(raw, negative, allowNegative, u);
  }

  lemma CommaUnsigned(negative: bool, w: string, f: string)
    requires AllDigits(w) && AllDigits(f)
    ensures Negative(Minus(negative) + w + "," + f) == negative
    ensures Unsigned(Minus(negative) + w + "," + f) == w + "." + f
  {
    CommaCleaned(negative, w, f);
    var u := w + "." + f;
    assert Minus(negative) + w + "." + f == Minus(negative) + u;
    MinusDropped(negative, u);
  }

  /** An accepted text passes on what it reads. */
  lemma ChangeReads(raw: string, allowNegative: bool)
    requires Accepted(raw)
    ensures CurrencyChange(raw, allowNegative) == Some(ParseCurrency(raw, allowNegative))
  {
  }

  /** The amount read, from the sign of the cleaned text and the number in what is left. */
  lemma ReadsAs(raw: string, negative: bool, allowNegative: bool, u: string)
    requires Negative(raw) == negative && Unsigned(raw) == u
    requires ParseFloat(u).Some? ==> ParseFloat(u).value >= 0
    ensures ParseCurrency(raw, allowNegative)
            == (if ParseFloat(u).None? then 0 else Signed(negative, allowNegative, ParseFloat(u).value))
  {
  }

  /** What a point text reads: the point is dropped and all the digits are units. */
  function PointValue(negative: bool, allowNegative: bool, w: string, f: string): int
    requires AllDigits(w) && AllDigits(f)
  {
    if w == [] && f == [] then 0 else Signed(negative, allowNegative, DigitsValue(w + f) * 100)
  }

  /** An accepted text with a point is read without it: "12.50" is 1250 reais. */
  lemma {:induction false} PointAmount(negative: bool, w: string, f: string, allowNegative: bool)
    requires AllDigits(w) && AllDigits(f)
    ensures Accepted(Minus(negative) + w + "." + f)
    ensures CurrencyChange(Minus(negative) + w + "." + f, allowNegative)
            == Some(PointValue(negative, allowNegative, w, f))
  {
    var raw := Minus(negative) + w + "." + f;
    PointAccepted(negative, w, f);
    PointRead(negative, w, f, allowNegative);
    ChangeReads(raw, allowNegative);
  }

  lemma PointRead(negative: bool, w: string, f: string, allowNegative: bool)
    requires AllDigits(w) && AllDigits(f)
    ensures ParseCurrency(Minus(negative) + w + "." + f, allowNegative) == PointValue(negative, allowNegative, w, f)
  {
    var raw := Minus(negative) + w + "." + f;
    var u := w + f;
    PointUnsignedText(negative, w, f);
    WholeNumber(u);
    assert u == [] <==> w == [] && f == [];
    ReadsAs(raw, negative, allowNegative, u);
  }

  lemma PointUnsignedText(negative: bool, w: string, f: string)
    requires AllDigits(w) && AllDigits(f)
    ensures Negative(Minus(negative) + w + "." + f) == negative
    ensures Unsigned(Minus(negative) + w + "." + f) == w + f
  {
    PointCleaned(negative, w, f);
    var u := w + f;
    assert Minus(negative) + w + f == Minus(negative) + u;
    MinusDropped(negative, u);
  }

  /** Digits alone are read as a whole amount. */
  lemma {:induction false} WholeAmount(negative: bool, w: string, allowNegative: bool)
    requires AllDigits(w)
    ensures var raw := Minus(negative) + w;
      && Accepted(raw)
      && CurrencyChange(raw, allowNegative)
         == Some(if w == [] then 0 else Signed(negative, allowNegative, DigitsValue(w) * 100))
  {
    var raw := Minus(negative) + w;
    WholeAccepted(negative, w);
    WholeCleaned(negative, w);
    MinusDropped(negative, w);
    WholeNumber(w);
    ReadsAs(raw, negative, allowNegative, w);
    ChangeReads(raw, allowNegative);
  }

  lemma CommaAccepted(negative: bool, w: string, f: string)
    requires AllDigits(w) && AllDigits(f)
    ensures Accepted(Minus(negative) + w + "," + f)
  {
    var raw := Minus(negative) + w + "," + f;
    var body := w + "," + f;
    assert (if raw != [] && raw[0] == '-' then raw[1..] else raw) == body by {
      if !negative && raw != [] {
        assert raw[0] == body[0];
      }
    }
  }

  lemma PointAccepted(negative: bool, w: string, f: string)
    requires AllDigits(w) && AllDigits(f)
    ensures Accepted(Minus(negative) + w + "." + f)
  {
    var raw := Minus(negative) + w + "." + f;
    var body := w + "." + f;
    assert (if raw != [] && raw[0] == '-' then raw[1..] else raw) == body by {
      if !negative && raw != [] {
        assert raw[0] == body[0];
      }
    }
  }

  lemma WholeAccepted(negative: bool, w: string)
    requires AllDigits(w)
    ensures Accepted(Minus(negative) + w)
  {
    var raw := Minus(negative) + w;
    assert (if raw != [] && raw[0] == '-' then raw[1..] else raw) == w by {
      if !negative && raw != [] {
        assert raw[0] == w[0];
      }
    }
  }

  /** Nothing in an accepted text with a comma is a symbol; its comma becomes the point. */
  lemma CommaCleaned(negative: bool, w: string, f: string)
    requires AllDigits(w) && AllDigits(f)
    ensures Cleaned(Minus(negative) + w + "," + f) == Minus(negative) + w + "." + f
    ensures Negative(Minus(negative) + w + "," + f) <==> negative
  {
    var head := Minus(negative) + w;
    CommaTextChars(head, f);
    NoSymbols(head + "," + f);
    FirstCommaReplaced(head, f);
    assert head + "." + f == Minus(negative) + (w + "." + f);
    LeadingSign(negative, w + "." + f);
  }

  /** The characters of a signed number written with a comma. */
  lemma CommaTextChars(head: string, f: string)
    requires forall i :: 0 <= i < |head| ==> IsDigit(head[i]) || head[i] == '-'
    requires AllDigits(f)
    ensures forall i :: 0 <= i < |head| ==> head[i] != ','
    ensures var s := head + "," + f;
      forall i :: 0 <= i < |s| ==> IsDigit(s[i]) || s[i] == ',' || s[i] == '-'
  {
    var s := head + "," + f;
    forall i | 0 <= i < |s| ensures IsDigit(s[i]) || s[i] == ',' || s[i] == '-' {
      if i < |head| {
        assert s[i] == head[i];
      } else if i > |head| {
        assert s[i] == f[i - |head| - 1];
      }
    }
  }

  lemma NoSymbols(s: string)
    requires forall i :: 0 <= i < |s| ==> IsDigit(s[i]) || s[i] == ',' || s[i] == '-'
    ensures StripSymbols(s) == s
  {
    FilterAll(s, (c: char) => !Symbol(c));
  }

  lemma FirstCommaReplaced(head: string, f: string)
    requires forall i :: 0 <= i < |head| ==> head[i] != ','
    ensures CommaToPoint(head + "," + f) == head + "." + f
  {
    var s := head + ("," + f);
    assert head + "," + f == s;
    SeparatorAfter(head, "," + f, ',');
    assert s[..|head|] == head && s[|head| + 1..] == f;
  }

  /** The text starts with a minus exactly when one was put in front. */
  lemma LeadingSign(negative: bool, rest: string)
    requires rest == [] || rest[0] != '-'
    ensures var t := Minus(negative) + rest; (t != [] && t[0] == '-') <==> negative
  {
    if !negative && rest != [] {
      assert (Minus(negative) + rest)[0] == rest[0];
    }
  }

  /** The points of an accepted text are dropped, and there is no comma to replace. */
  lemma PointCleaned(negative: bool, w: string, f: string)
    requires AllDigits(w) && AllDigits(f)
    ensures Cleaned(Minus(negative) + w + "." + f) == Minus(negative) + w + f
    ensures Negative(Minus(negative) + w + "." + f) <==> negative
  {
    var left := Minus(negative) + w;
    assert Minus(negative) + w + "." + f == left + "." + f;
    PointStripped(left, f);
    assert left + f == Minus(negative) + (w + f);
    NoComma(left + f);
    LeadingSign(negative, w + f);
  }

  lemma PointStripped(left: string, right: string)
    requires forall i :: 0 <= i < |left| ==> !Symbol(left[i])
    requires forall i :: 0 <= i < |right| ==> !Symbol(right[i])
    ensures StripSymbols(left + "." + right) == left + right
  {
    var keep := (c: char) => !Symbol(c);
    assert left + "." + right == (left + ['.']) + right;
    FilterAppend(left + ['.'], right, keep);
    FilterSnoc(left, '.', keep);
    FilterAll(left, keep);
    FilterAll(right, keep);
  }

  lemma WholeCleaned(negative: bool, w: string)
    requires AllDigits(w)
    ensures Cleaned(Minus(negative) + w) == Minus(negative) + w
    ensures Negative(Minus(negative) + w) <==> negative
  {
    var m := Minus(negative);
    FilterAll(m + w, (c: char) => !Symbol(c));
    NoComma(m + w);
    if !negative && w != [] {
      assert (m + w)[0] == w[0];
    }
  }

  lemma NoComma(s: string)
    requires forall i :: 0 <= i < |s| ==> IsDigit(s[i]) || s[i] == '-'
    ensures FirstIndex(s, ',').None?
  {
  }

  /** Dropping the minus of a signed text leaves the digits and the point. */
  lemma MinusDropped(negative: bool, u: string)
    requires forall i :: 0 <= i < |u| ==> u[i] != '-'
    ensures DropMinus(Minus(negative) + u) == u
  {
    var keep := (c: char) => c != '-';
    FilterAppend(Minus(negative), u, keep);
    FilterAll(u, keep);
    if negative {
      assert Filter("-", keep) == [] by { assert "-"[..0] == []; }
    }
  }

  /** `parseFloat` of digits, a point and digits. */
  lemma PointNumber(w: string, f: string)
    requires AllDigits(w) && AllDigits(f)
    ensures ParseFloat(w + "." + f)
            == (if w == [] && f == [] then None else Some(DigitsValue(w) * 100 + FractionCents(f)))
  {
    var u := w + "." + f;
    PlainStart(u);
    PointPrefix(w, f);
    PointUnsigned(w, f);
  }

  /** A text starting with a digit or a point has no blank or sign to skip. */
  lemma PlainStart(u: string)
    requires u != [] && (IsDigit(u[0]) || u[0] == '.')
    ensures TrimStart(u) == u && SignPart(u) == [] && u[|SignPart(u)|..] == u
  {
  }

  lemma PointPrefix(w: string, f: string)
    requires AllDigits(w) && AllDigits(f)
    ensures NumberPrefix(w + "." + f) == w + "." + f
  {
    var u := w + "." + f;
    var tail := "." + f;
    assert u == w + tail;
    PlainStart(u);
    if w != [] {
      PlainPrefix(w, tail);
    } else {
      assert LeadingDigits(u) == [];
      assert u[0..] == tail && tail[1..] == f;
      assert FractionPart(tail) == "." + LeadingDigits(f);
    }
  }

  lemma PointUnsigned(w: string, f: string)
    requires AllDigits(w) && AllDigits(f)
    ensures ParseDecimal(w + "." + f)
            == (if w == [] && f == [] then None else Some(DigitsValue(w) * 100 + FractionCents(f)))
  {
    var u := w + "." + f;
    UnsignedDecimal(u);
    PointSplit(w, f);
  }

  /** Text without a sign is read as unsigned decimal text. */
  lemma UnsignedDecimal(u: string)
    requires u != [] && u[0] != '-' && u[0] != '+'
    ensures ParseDecimal(u) == (match ParseUnsigned(u) case None => None case Some(n) => Some(n as int))
  {
  }

  lemma PointSplit(w: string, f: string)
    requires AllDigits(w) && AllDigits(f)
    ensures ParseUnsigned(w + "." + f)
            == (if w == [] && f == [] then None else Some(DigitsValue(w) * 100 + FractionCents(f)))
  {
    var u := w + "." + f;
    var tail := "." + f;
    assert u == w + tail;
    PointAfterDigits(w, tail);
    assert u[..|w|] == w && u[|w| + 1..] == f;
  }

  /** `parseFloat` of digits alone. */
  lemma WholeNumber(w: string)
    requires AllDigits(w)
    ensures ParseFloat(w) == (if w == [] then None else Some(DigitsValue(w) * 100))
  {
    if w != [] {
      WholePrefix(w);
      UnsignedDecimal(w);
      NoPoint(w);
    }
  }

  lemma WholePrefix(w: string)
    requires AllDigits(w) && w != []
    ensures TrimStart(w) == w && NumberPrefix(w) == w
  {
    PlainStart(w);
    assert LeadingDigits(w) == w;
    assert w[|w|..] == [];
    assert FractionPart([]) == [];
  }

  // The point as a decimal separator, as the accepted pattern evidently means it

  /** Every point of the text written as a comma. */
  function PointToComma(s: string): (r: string)
    ensures |r| == |s|
    ensures forall i :: 0 <= i < |s| ==> r[i] == (if s[i] == '.' then ',' else s[i])
  {
    seq(|s|, i requires 0 <= i < |s| => if s[i] == '.' then ',' else s[i])
  }

  /** `handleCurrencyChange` reading the one separator an accepted text may hold, comma or
      point, as the decimal separator. */
  function CurrencyChangeDecimal(raw: string, allowNegative: bool): (r: Option<int>)
    ensures r.Some? <==> Accepted(raw)
    ensures !allowNegative && r.Some? ==> r.value >= 0
  {
    if Accepted(raw) then Some(ParseCurrency(PointToComma(raw), allowNegative)) else None
  }

  /** With the correction a point text reads as the same text written with a comma: the
      digits after the point are the decimals. */
  lemma PointAsDecimal(negative: bool, w: string, f: string, allowNegative: bool)
    requires AllDigits(w) && AllDigits(f)
    ensures CurrencyChangeDecimal(Minus(negative) + w + "." + f, allowNegative)
            == Some(CommaValue(negative, allowNegative, w, f))
  {
    PointAccepted(negative, w, f);
    PointWrittenAsComma(Minus(negative) + w, f);
    CommaRead(negative, w, f, allowNegative);
  }

  lemma PointWrittenAsComma(head: string, f: string)
    requires forall i :: 0 <= i < |head| ==> head[i] != '.'
    requires AllDigits(f)
    ensures PointToComma(head + "." + f) == head + "," + f
  {
    var raw := head + "." + f;
    var comma := head + "," + f;
    forall i | 0 <= i < |raw| ensures PointToComma(raw)[i] == comma[i] {
      if i < |head| {
        assert raw[i] == head[i] == comma[i];
      } else if i > |head| {
        assert raw[i] == f[i - |head| - 1] == comma[i];
      }
    }
  }

  /** A text without a point reads as before the correction. */
  lemma NoPointUnchanged(raw: string, allowNegative: bool)
    requires forall i :: 0 <= i < |raw| ==> raw[i] != '.'
    ensures CurrencyChangeDecimal(raw, allowNegative) == CurrencyChange(raw, allowNegative)
  {
    assert PointToComma(raw) == raw;
  }

  /** Corrected, typing "12.50" passes on 12.50. */
  lemma TwelveFiftyDecimal()
    ensures CurrencyChangeDecimal("12.50", false) == Some(1250)
  {
    PointAsDecimal(false, "12", "50", false);
    TwelveFiftyText();
    TwelveFiftyCommaValue();
  }

  lemma TwelveFiftyCommaValue()
    ensures CommaValue(false, false, "12", "50") == 1250
  {
    assert "12"[..1] == "1" && "1"[..0] == [];
    assert DigitsValue("12") == 12;
    assert FractionCents("50") == 50;
  }

  /** The two examples of the field's behaviour: a Brazilian amount with a thousands
      point, and a point read as a thousands point. */
  lemma Examples()
    ensures ParseCurrency("1.234,56", false) == 123456
    ensures CurrencyChange("12.50", false) == Some(125000)
  {
    TwelveFifty();
    ThousandsPoint();
  }

  lemma TwelveFifty()
    ensures CurrencyChange("12.50", false) == Some(125000)
  {
    TwelveFiftyText();
    TwelveFiftyValue();
    PointAmount(false, "12", "50", false);
  }

  lemma TwelveFiftyText()
    ensures Minus(false) + "12" + "." + "50" == "12.50"
  {
  }

  lemma TwelveFiftyValue()
    ensures PointValue(false, false, "12", "50") == 125000
  {
    assert "12" + "50" == "1250";
    assert "1250"[..3] == "125" && "125"[..2] == "12" && "12"[..1] == "1" && "1"[..0] == [];
  }

  lemma DigitsOf1234()
    ensures DigitsValue("1234") == 1234
  {
    assert "1234"[..3] == "123" && "123"[..2] == "12" && "12"[..1] == "1" && "1"[..0] == [];
  }

  lemma ThousandsPoint()
    ensures ParseCurrency("1.234,56", false) == 123456
  {
    ThousandsUnsigned();
    ThousandsNumber();
    ReadsAs("1.234,56", false, false, "1234.56");
  }

  lemma ThousandsNumber()
    ensures ParseFloat("1234.56") == Some(123456)
  {
    PointNumber("1234", "56");
    ThousandsText();
    DigitsOf1234();
    assert FractionCents("56") == 56;
  }

  lemma ThousandsText()
    ensures "1234" + "." + "56" == "1234.56"
  {
  }

  lemma ThousandsUnsigned()
    ensures !Negative("1.234,56") && Unsigned("1.234,56") == "1234.56"
  {
    ThousandsCleaned();
    ThousandsKept();
  }

  lemma ThousandsKept()
    ensures DropMinus("1234.56") == "1234.56"
  {
    MinusDropped(false, "1234.56");
    assert Minus(false) + "1234.56" == "1234.56";
  }

  lemma ThousandsCleaned()
    ensures Cleaned("1.234,56") == "1234.56"
  {
    ThousandsStripped();
    FirstCommaReplaced("1234", "56");
    ThousandsText();
  }

  lemma ThousandsStripped()
    ensures StripSymbols("1.234,56") == "1234" + "," + "56"
  {
    assert "1.234,56" == "1" + "." + "234,56";
    PointStripped("1", "234,56");
    assert "1" + "234,56" == "1234" + "," + "56";
  }
}
