/** Amounts as decimal text. An amount is a whole number of cents; its text is
    what a `Decimal`'s `toString()` writes, and `new Decimal(text)` reads it back. */
module Money {
  import opened Wrappers
  import opened Text

  function Digit(n: nat): (r: char)
    requires n < 10
    ensures IsDigit(r)
  {
    (48 + n) as char
  }

  function DigitValue(c: char): (r: nat)
    requires IsDigit(c)
    ensures r < 10
  {
    c as int - 48
  }

  /** The fractional part of an amount: nothing for whole amounts, otherwise a
      point and the cents without a trailing zero. */
  function FractionText(f: nat): (r: string)
    requires f < 100
    ensures f == 0 <==> r == []
    ensures r != [] ==> r[0] == '.' && 2 <= |r| <= 3 && AllDigits(r[1..])
  {
    if f == 0 then []
    else if f % 10 == 0 then ['.', Digit(f / 10)]
    else ['.', Digit(f / 10), Digit(f % 10)]
  }

  /** `amount.toString()` for an amount of `c` cents, in plain notation. */
  function CentsText(c: int): (r: string)
  {
    var a := if c < 0 then -c else c;
    (if c < 0 then "-" else "") + NatToString(a / 100) + FractionText(a % 100)
  }

  /** The cents given by the digits after the point; later digits are dropped. */
  function FractionCents(s: string): (r: nat)
    requires AllDigits(s)
    ensures r < 100
  {
    if |s| == 0 then 0
    else if |s| == 1 then DigitValue(s[0]) * 10
    else DigitValue(s[0]) * 10 + DigitValue(s[1])
  }

  /** Unsigned decimal text: digits with at most one point and at least one digit. */
  function ParseUnsigned(s: string): (r: Option<nat>)
  {
    match FirstIndex(s, '.')
    case None =>
      if s != [] && AllDigits(s) then Some(DigitsValue(s) * 100) else None
    case Some(k) =>
      var whole := s[..k];
      var fraction := s[k + 1..];
      if AllDigits(whole) && AllDigits(fraction) && (whole != [] || fraction != [])
      then Some(DigitsValue(whole) * 100 + FractionCents(fraction))
      else None
  }

  /** `new Decimal(text)` in cents, for plain decimal notation: an optional sign, then
      unsigned decimal text; None for any other text. decimal.js also accepts exponent,
      "Infinity", "NaN" and hexadecimal forms, which this reading does not cover. */
  function ParseDecimal(s: string): (r: Option<int>)
    ensures r.Some? ==> s != []
  {
    if s != [] && s[0] == '-' then
      match ParseUnsigned(s[1..])
      case None => None
      case Some(n) => Some(-(n as int))
    else if s != [] && s[0] == '+' then
      match ParseUnsigned(s[1..])
      case None => None
      case Some(n) => Some(n)
    else
      match ParseUnsigned(s)
      case None => None
      case Some(n) => Some(n)
  }

  /** A separator that follows a text free of it is found right after that text. */
  lemma SeparatorAfter(w: string, f: string, c: char)
    requires forall i :: 0 <= i < |w| ==> w[i] != c
    requires f != [] && f[0] == c
    ensures FirstIndex(w + f, c) == Some(|w|)
  {
    assert (w + f)[|w|] == c;
  }

  lemma NoPoint(w: string)
    requires AllDigits(w)
    ensures FirstIndex(w, '.').None?
  {
    forall i | 0 <= i < |w|
      ensures w[i] != '.'
    {
      assert IsDigit(w[i]);
    }
  }

  lemma PointAfterDigits(w: string, f: string)
    requires AllDigits(w) && f != [] && f[0] == '.'
    ensures FirstIndex(w + f, '.') == Some(|w|)
  {
    SeparatorAfter(w, f, '.');
  }

  lemma FractionBack(x: nat)
    requires 0 < x < 100
    ensures FractionCents(FractionText(x)[1..]) == x
  {
    var d := FractionText(x)[1..];
    assert DigitValue(d[0]) == x / 10;
    if |d| == 2 {
      assert DigitValue(d[1]) == x % 10;
    }
  }

  lemma WholeBack(n: nat)
    ensures ParseUnsigned(NatToString(n)) == Some(n * 100)
  {
    NatToStringValue(n);
    NoPoint(NatToString(n));
  }

  lemma FractionalBack(n: nat, x: nat)
    requires 0 < x < 100
    ensures ParseUnsigned(NatToString(n) + FractionText(x)) == Some(n * 100 + x)
  {
    var w := NatToString(n);
    var f := FractionText(x);
    var s := w + f;
    NatToStringValue(n);
    PointAfterDigits(w, f);
    assert s[..|w|] == w;
    assert s[|w| + 1..] == f[1..];
    FractionBack(x);
  }

  lemma DivideCents(a: nat)
    ensures a == (a / 100) * 100 + a % 100 && a % 100 < 100
  {
  }

  lemma UnsignedBack(n: nat, x: nat)
    requires x < 100
    ensures ParseUnsigned(NatToString(n) + FractionText(x)) == Some(n * 100 + x)
  {
    if x == 0 {
      assert NatToString(n) + FractionText(x) == NatToString(n);
      WholeBack(n);
    } else {
      FractionalBack(n, x);
    }
  }

  lemma UnsignedRoundTrip(a: nat)
    ensures ParseUnsigned(NatToString(a / 100) + FractionText(a % 100)) == Some(a)
  {
    DivideCents(a);
    UnsignedBack(a / 100, a % 100);
  }

  /** A sign in front of unsigned text negates what it reads. */
  lemma SignedDecimal(negative: bool, body: string, a: nat)
    requires body != [] && IsDigit(body[0]) && ParseUnsigned(body) == Some(a)
    ensures ParseDecimal((if negative then "-" else "") + body) == Some(if negative then -(a as int) else a as int)
  {
    if negative {
      assert ("-" + body)[1..] == body;
    } else {
      assert "" + body == body;
    }
  }

  /** Writing an amount and reading the text back gives the same amount. */
  lemma DecimalRoundTrip(c: int)
    ensures ParseDecimal(CentsText(c)) == Some(c)
  {
    var a: nat := if c < 0 then -c else c;
    var body := NatToString(a / 100) + FractionText(a % 100);
    UnsignedRoundTrip(a);
    PlainBody(a / 100, a % 100);
    CentsTextShape(c);
    SignedDecimal(c < 0, body, a);
  }

  /** A leading sign character, if any. */
  function SignPart(s: string): (r: string)
    ensures |r| <= |s| && r == s[..|r|]
  {
    if s != [] && (s[0] == '-' || s[0] == '+') then s[..1] else []
  }

  /** A point and the digits after it, when the text starts with a point. */
  function FractionPart(after: string): string
  {
    if after != [] && after[0] == '.' then "." + LeadingDigits(after[1..]) else ""
  }

  /** The longest prefix `parseFloat` reads in plain notation: a sign, digits,
      then a point and digits. */
  function NumberPrefix(s: string): string
  {
    var sign := SignPart(s);
    sign + UnsignedPrefix(s[|sign|..])
  }

  /** Digits, then a point and digits. */
  function UnsignedPrefix(s: string): string
  {
    var whole := LeadingDigits(s);
    whole + FractionPart(s[|whole|..])
  }

  /** `parseFloat(s)` in cents: leading blanks are skipped and whatever follows the
      number is ignored; None stands for NaN. */
  function ParseFloat(s: string): Option<int>
  {
    ParseDecimal(NumberPrefix(TrimStart(s)))
  }

  lemma FractionPartPlain(f: string)
    requires f == [] || (f[0] == '.' && AllDigits(f[1..]))
    ensures FractionPart(f) == f
  {
    if f != [] {
      assert LeadingDigits(f[1..]) == f[1..];
      assert "." + f[1..] == f;
    }
  }

  /** Digits with an optional point and digits are read whole. */
  lemma PlainPrefix(w: string, f: string)
    requires w != [] && AllDigits(w)
    requires f == [] || (f[0] == '.' && AllDigits(f[1..]))
    ensures UnsignedPrefix(w + f) == w + f
  {
    var s := w + f;
    assert LeadingDigits(s) == w by { LeadingDigitsStop(w, f); }
    assert s[|w|..] == f;
    FractionPartPlain(f);
  }

  lemma PlainBody(n: nat, x: nat)
    requires x < 100
    ensures var b := NatToString(n) + FractionText(x);
      b != [] && IsDigit(b[0]) && UnsignedPrefix(b) == b
  {
    var w := NatToString(n);
    PlainPrefix(w, FractionText(x));
    assert (w + FractionText(x))[0] == w[0];
  }

  /** An amount's text is a sign, if negative, then its unsigned body. */
  lemma CentsTextShape(c: int)
    ensures var a: nat := if c < 0 then -c else c;
      CentsText(c) == (if c < 0 then "-" else "") + (NatToString(a / 100) + FractionText(a % 100))
  {
  }

  /** Unsigned text, signed or not, has no leading blank and is read whole. */
  lemma SignedPlain(negative: bool, body: string)
    requires body != [] && IsDigit(body[0]) && UnsignedPrefix(body) == body
    ensures var t := (if negative then "-" else "") + body;
      TrimStart(t) == t && NumberPrefix(t) == t
  {
    if negative {
      MinusPlain(body);
    } else {
      assert "" + body == body;
      UnsignedPlain(body);
    }
  }

  lemma MinusPlain(body: string)
    requires body != [] && IsDigit(body[0]) && UnsignedPrefix(body) == body
    ensures TrimStart("-" + body) == "-" + body && NumberPrefix("-" + body) == "-" + body
  {
    var t := "-" + body;
    assert t[0] == '-' && t[..1] == "-" && t[1..] == body;
  }

  lemma UnsignedPlain(body: string)
    requires body != [] && IsDigit(body[0]) && UnsignedPrefix(body) == body
    ensures TrimStart(body) == body && NumberPrefix(body) == body
  {
    assert body[0] != '-' && body[0] != '+';
    var sign := SignPart(body);
    assert sign == [];
    assert body[|sign|..] == body;
    assert NumberPrefix(body) == sign + body;
    assert sign + body == body;
  }

  /** An amount's text has no leading blank and is a number prefix all through. */
  lemma CentsTextPlain(c: int)
    ensures TrimStart(CentsText(c)) == CentsText(c)
    ensures NumberPrefix(CentsText(c)) == CentsText(c)
  {
    var a: nat := if c < 0 then -c else c;
    PlainBody(a / 100, a % 100);
    CentsTextShape(c);
    SignedPlain(c < 0, NatToString(a / 100) + FractionText(a % 100));
  }

  /** `parseFloat` reads an amount's text back as the same amount. */
  lemma FloatRoundTrip(c: int)
    ensures ParseFloat(CentsText(c)) == Some(c)
  {
    CentsTextPlain(c);
    DecimalRoundTrip(c);
  }
}
