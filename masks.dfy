/** The input masks of the contact and profile forms are chains of `String.replace` calls
    with a regular expression and no `g` flag: the leftmost match, if any, is replaced
    once. Each expression the forms use is a `Pattern`, matched at a position by
    `MatchAt` in the order a backtracking matcher tries its alternatives. */
module Masks {
  import opened Wrappers
  import opened Text

  /** What a pattern matched at a position: how many characters, and the text the
      replacement string puts in their place. */
  datatype Hit = Hit(len: nat, text: string)

  datatype Pattern =
    | ThreeThenDigit     // /(\d{3})(\d)/ -> '$1.$2'
    | ThreeThenTail      // /(\d{3})(\d{1,2})$/ -> '$1-$2'
    | CnpjLead           // /^(\d{2})(\d)/ -> '$1.$2'
    | CnpjSecond         // /^(\d{2})\.(\d{3})(\d)/ -> '$1.$2.$3'
    | CnpjSlash          // /\.(\d{3})(\d)/ -> '.$1/$2'
    | FourThenDigit      // /(\d{4})(\d)/ -> '$1-$2'
    | PhoneLead          // /^(\d{2})(\d)/ -> '($1) $2'
    | PhoneTail          // /(\d{4,5})(\d{4})$/ -> '$1-$2'
    | CepLead            // /^(\d{5})(\d)/ -> '$1-$2'

  /** `n` digits start at position `i`. */
  predicate DigitsAt(s: string, i: nat, n: nat)
  {
    i + n <= |s| && forall k :: i <= k < i + n ==> IsDigit(s[k])
  }

  function MatchAt(p: Pattern, s: string, i: nat): (r: Option<Hit>)
    ensures r.Some? ==> i + r.value.len <= |s|
  {
    match p
    case ThreeThenDigit =>
      if DigitsAt(s, i, 4) then Some(Hit(4, s[i..i + 3] + "." + s[i + 3..i + 4])) else None
    case ThreeThenTail =>
      if i + 5 == |s| && DigitsAt(s, i, 5) then Some(Hit(5, s[i..i + 3] + "-" + s[i + 3..i + 5]))
      else if i + 4 == |s| && DigitsAt(s, i, 4) then Some(Hit(4, s[i..i + 3] + "-" + s[i + 3..i + 4]))
      else None
    case CnpjLead =>
      if i == 0 && DigitsAt(s, i, 3) then Some(Hit(3, s[i..i + 2] + "." + s[i + 2..i + 3])) else None
    case CnpjSecond =>
      if i == 0 && DigitsAt(s, 0, 2) && |s| > 2 && s[2] == '.' && DigitsAt(s, 3, 4)
      then Some(Hit(7, s[..2] + "." + s[3..6] + "." + [s[6]]))
      else None
    case CnpjSlash =>
      if i < |s| && s[i] == '.' && DigitsAt(s, i + 1, 4)
      then Some(Hit(5, "." + s[i + 1..i + 4] + "/" + [s[i + 4]]))
      else None
    case FourThenDigit =>
      if DigitsAt(s, i, 5) then Some(Hit(5, s[i..i + 4] + "-" + s[i + 4..i + 5])) else None
    case PhoneLead =>
      if i == 0 && DigitsAt(s, 0, 3) then Some(Hit(3, "(" + s[..2] + ") " + [s[2]])) else None
    case PhoneTail =>
      if i + 9 == |s| && DigitsAt(s, i, 9) then Some(Hit(9, s[i..i + 5] + "-" + s[i + 5..i + 9]))
      else if i + 8 == |s| && DigitsAt(s, i, 8) then Some(Hit(8, s[i..i + 4] + "-" + s[i + 4..i + 8]))
      else None
    case CepLead =>
      if i == 0 && DigitsAt(s, i, 6) then Some(Hit(6, s[i..i + 5] + "-" + s[i + 5..i + 6])) else None
  }

  /** The leftmost position from `i` on where `p` matches. */
  function Scan(p: Pattern, s: string, i: nat): (r: Option<(nat, Hit)>)
    requires i <= |s|
    ensures r.Some? ==> i <= r.value.0 <= |s| && MatchAt(p, s, r.value.0) == Some(r.value.1)
    ensures r.Some? ==> forall j :: i <= j < r.value.0 ==> MatchAt(p, s, j).None?
    ensures r.None? ==> forall j :: i <= j <= |s| ==> MatchAt(p, s, j).None?
    decreases |s| - i
  {
    var m := MatchAt(p, s, i);
    if m.Some? then Some((i, m.value))
    else if i == |s| then None
    else Scan(p, s, i + 1)
  }

  /** `s.replace(p, ...)`: the leftmost match replaced, or `s` itself when nothing
      matches. */
  function Replace(p: Pattern, s: string): string
  {
    match Scan(p, s, 0)
    case None => s
    case Some((i, h)) => s[..i] + h.text + s[i + h.len..]
  }

  /** The replacement at the leftmost match `k`. */
  lemma ReplaceAt(p: Pattern, s: string, k: nat)
    requires MatchAt(p, s, k).Some?
    requires forall j :: 0 <= j < k ==> MatchAt(p, s, j).None?
    ensures var h := MatchAt(p, s, k).value; Replace(p, s) == s[..k] + h.text + s[k + h.len..]
  {
    var r := Scan(p, s, 0);
    assert r.Some?;
    assert r.value.0 == k;
  }

  lemma ReplaceNone(p: Pattern, s: string)
    requires forall j :: 0 <= j <= |s| ==> MatchAt(p, s, j).None?
    ensures Replace(p, s) == s
  {
  }

  lemma DigitsOfDigits(s: string)
    requires AllDigits(s)
    ensures Digits(s) == s
  {
  }

  lemma DigitsOfSeparator(c: char)
    requires !IsDigit(c)
    ensures Digits([c]) == []
  {
    assert [c][1..] == [];
  }

  /** The digits of `a`, a separator and `b` are those of `a` and `b`. */
  lemma DigitsAround(a: string, c: char, b: string)
    requires !IsDigit(c)
    ensures Digits(a + [c] + b) == Digits(a) + Digits(b)
  {
    DigitsAppend(a + [c], b);
    DigitsAppend(a, [c]);
    DigitsOfSeparator(c);
  }

  lemma DigitsRun(s: string, i: nat, n: nat)
    requires DigitsAt(s, i, n)
    ensures AllDigits(s[i..i + n]) && Digits(s[i..i + n]) == s[i..i + n]
  {
    var t := s[i..i + n];
    assert forall k :: 0 <= k < |t| ==> t[k] == s[i + k];
  }

  /** A match only puts separators around the digits it matched. */
  lemma HitKeepsDigits(p: Pattern, s: string, i: nat)
    requires MatchAt(p, s, i).Some?
    ensures var h := MatchAt(p, s, i).value; Digits(h.text) == Digits(s[i..i + h.len])
  {
    if p.ThreeThenDigit? || p.ThreeThenTail? || p.CnpjLead? {
      DotOrDashHit(p, s, i);
    } else if p.FourThenDigit? || p.PhoneTail? || p.CepLead? {
      DashHit(p, s, i);
    } else if p.CnpjSecond? {
      CnpjSecondDigits(s);
    } else if p.CnpjSlash? {
      SlashDigits(s, i);
    } else {
      PhoneLeadDigits(s);
    }
  }

  lemma DotOrDashHit(p: Pattern, s: string, i: nat)
    requires p.ThreeThenDigit? || p.ThreeThenTail? || p.CnpjLead?
    requires MatchAt(p, s, i).Some?
    ensures var h := MatchAt(p, s, i).value; Digits(h.text) == Digits(s[i..i + h.len])
  {
    var h := MatchAt(p, s, i).value;
    if p.ThreeThenDigit? {
      RunHit(s, i, 4, 3, '.', h);
    } else if p.CnpjLead? {
      RunHit(s, i, 3, 2, '.', h);
    } else if i + 5 == |s| && DigitsAt(s, i, 5) {
      RunHit(s, i, 5, 3, '-', h);
    } else {
      RunHit(s, i, 4, 3, '-', h);
    }
  }

  lemma DashHit(p: Pattern, s: string, i: nat)
    requires p.FourThenDigit? || p.PhoneTail? || p.CepLead?
    requires MatchAt(p, s, i).Some?
    ensures var h := MatchAt(p, s, i).value; Digits(h.text) == Digits(s[i..i + h.len])
  {
    var h := MatchAt(p, s, i).value;
    if p.FourThenDigit? {
      RunHit(s, i, 5, 4, '-', h);
    } else if p.CepLead? {
      RunHit(s, i, 6, 5, '-', h);
    } else if i + 9 == |s| && DigitsAt(s, i, 9) {
      RunHit(s, i, 9, 5, '-', h);
    } else {
      RunHit(s, i, 8, 4, '-', h);
    }
  }

  /** A hit that puts one separator inside the run of digits it matched. */
  lemma RunHit(s: string, i: nat, n: nat, m: nat, c: char, h: Hit)
    requires i + n <= |s| && m <= n && !IsDigit(c)
    requires h == Hit(n, s[i..i + m] + [c] + s[i + m..i + n])
    ensures Digits(h.text) == Digits(s[i..i + h.len])
  {
    SplitRun(s, i, n, m, c);
  }

  /** A separator put inside a run of digits. */
  lemma SplitRun(s: string, i: nat, n: nat, m: nat, c: char)
    requires i + n <= |s| && m <= n && !IsDigit(c)
    ensures Digits(s[i..i + m] + [c] + s[i + m..i + n]) == Digits(s[i..i + n])
  {
    var a, b := s[i..i + m], s[i + m..i + n];
    assert s[i..i + n] == a + b;
    Separated(a, c, b);
  }

  lemma Separated(a: string, c: char, b: string)
    requires !IsDigit(c)
    ensures Digits(a + [c] + b) == Digits(a + b)
  {
    DigitsAround(a, c, b);
    DigitsAppend(a, b);
  }

  lemma CnpjSecondDigits(s: string)
    requires MatchAt(CnpjSecond, s, 0).Some?
    ensures Digits(MatchAt(CnpjSecond, s, 0).value.text) == Digits(s[..7])
  {
    DigitsAround(s[..2], '.', s[3..6] + "." + [s[6]]);
    assert s[..2] + "." + s[3..6] + "." + [s[6]] == s[..2] + ['.'] + (s[3..6] + ['.'] + [s[6]]);
    DigitsAround(s[3..6], '.', [s[6]]);
    DigitsRun(s, 0, 2);
    DigitsRun(s, 3, 4);
    assert s[..7] == s[..2] + [s[2]] + s[3..7];
    DigitsAround(s[..2], s[2], s[3..7]);
    assert s[3..7] == s[3..6] + [s[6]];
    DigitsAppend(s[3..6], [s[6]]);
  }

  lemma SlashDigits(s: string, i: nat)
    requires MatchAt(CnpjSlash, s, i).Some?
    ensures Digits(MatchAt(CnpjSlash, s, i).value.text) == Digits(s[i..i + 5])
  {
    var u, c := s[i + 1..i + 4], s[i + 4];
    assert DigitsAt(s, i + 1, 4);
    SlashPieces(s, i);
    DigitsRun(s, i + 1, 3);
    DigitsAppend("." + u + "/", [c]);
    DigitsAppend("." + u, "/");
    DigitsAppend(".", u);
    DigitsAppend([s[i]] + u, [c]);
    DigitsAppend([s[i]], u);
    DigitsOfSeparator('.');
    DigitsOfSeparator('/');
  }

  /** The window of a slash match: the dot, three digits and one more character. */
  lemma SlashPieces(s: string, i: nat)
    requires i + 5 <= |s| && s[i] == '.'
    ensures s[i..i + 5] == "." + s[i + 1..i + 4] + [s[i + 4]]
  {
  }

  lemma PhoneLeadDigits(s: string)
    requires MatchAt(PhoneLead, s, 0).Some?
    ensures Digits(MatchAt(PhoneLead, s, 0).value.text) == Digits(s[..3])
  {
    DigitsRun(s, 0, 3);
    assert "(" + s[..2] + ") " + [s[2]] == [] + ['('] + (s[..2] + [')'] + ([] + [' '] + [s[2]]));
    DigitsAround([], '(', s[..2] + [')'] + ([] + [' '] + [s[2]]));
    DigitsAround(s[..2], ')', [] + [' '] + [s[2]]);
    DigitsAround([], ' ', [s[2]]);
    assert s[..3] == s[..2] + [s[2]];
    DigitsAppend(s[..2], [s[2]]);
  }

  /** A replacement never adds, drops or reorders a digit. */
  lemma ReplaceKeepsDigits(p: Pattern, s: string)
    ensures Digits(Replace(p, s)) == Digits(s)
  {
    var r := Scan(p, s, 0);
    if r.Some? {
      var i, h := r.value.0, r.value.1;
      HitKeepsDigits(p, s, i);
      Cut(s, i, i + h.len);
      Framed(s[..i], s[i..i + h.len], h.text, s[i + h.len..]);
    }
  }

  lemma Cut(s: string, i: nat, j: nat)
    requires i <= j <= |s|
    ensures s == s[..i] + s[i..j] + s[j..]
  {
    assert s[..j] == s[..i] + s[i..j];
  }

  lemma Framed(a: string, w: string, t: string, b: string)
    requires Digits(t) == Digits(w)
    ensures Digits(a + t + b) == Digits(a + w + b)
  {
    DigitsAppend(a + t, b);
    DigitsAppend(a, t);
    DigitsAppend(a + w, b);
    DigitsAppend(a, w);
  }

  /** The CNPJ chain shared by the contact and profile forms. */
  function CnpjMask(d: string): string
  {
    Replace(FourThenDigit, Replace(CnpjSlash, Replace(CnpjSecond, Replace(CnpjLead, d))))
  }

  /** The CPF chain of the contact form. */
  function CpfMask(d: string): string
  {
    Replace(ThreeThenTail, Replace(ThreeThenDigit, Replace(ThreeThenDigit, d)))
  }

  /** The phone chain of the contact form. */
  function PhoneMask(d: string): string
  {
    Replace(PhoneTail, Replace(PhoneLead, d))
  }

  lemma CnpjMaskDigits(d: string)
    ensures Digits(CnpjMask(d)) == Digits(d)
  {
    ReplaceKeepsDigits(CnpjLead, d);
    ReplaceKeepsDigits(CnpjSecond, Replace(CnpjLead, d));
    ReplaceKeepsDigits(CnpjSlash, Replace(CnpjSecond, Replace(CnpjLead, d)));
    ReplaceKeepsDigits(FourThenDigit, Replace(CnpjSlash, Replace(CnpjSecond, Replace(CnpjLead, d))));
  }

  lemma CpfMaskDigits(d: string)
    ensures Digits(CpfMask(d)) == Digits(d)
  {
    ReplaceKeepsDigits(ThreeThenDigit, d);
    ReplaceKeepsDigits(ThreeThenDigit, Replace(ThreeThenDigit, d));
    ReplaceKeepsDigits(ThreeThenTail, Replace(ThreeThenDigit, Replace(ThreeThenDigit, d)));
  }

  lemma PhoneMaskDigits(d: string)
    ensures Digits(PhoneMask(d)) == Digits(d)
  {
    ReplaceKeepsDigits(PhoneLead, d);
    ReplaceKeepsDigits(PhoneTail, Replace(PhoneLead, d));
  }

  /** Eleven digits are masked as a CPF, "ddd.ddd.ddd-dd". */
  lemma CpfShape(d: string)
    requires |d| == 11 && AllDigits(d)
    ensures CpfMask(d) == d[..3] + "." + d[3..6] + "." + d[6..9] + "-" + d[9..]
  {
    CpfFirstDot(d);
    CpfSecondDot(d);
    CpfDash(d);
  }

  lemma CpfFirstDot(d: string)
    requires |d| == 11 && AllDigits(d)
    ensures Replace(ThreeThenDigit, d) == d[..3] + "." + d[3..]
  {
    assert DigitsAt(d, 0, 4);
    ReplaceAt(ThreeThenDigit, d, 0);
    assert d[3..4] + d[4..] == d[3..];
  }

  lemma CpfSecondDot(d: string)
    requires |d| == 11 && AllDigits(d)
    ensures Replace(ThreeThenDigit, d[..3] + "." + d[3..]) == d[..3] + "." + d[3..6] + "." + d[6..]
  {
    var s := d[..3] + "." + d[3..];
    assert forall k :: 4 <= k < |s| ==> s[k] == d[k - 1];
    assert s[3] == '.';
    forall j | 0 <= j < 4 ensures MatchAt(ThreeThenDigit, s, j).None? {
      assert !IsDigit(s[3]);
    }
    assert DigitsAt(s, 4, 4);
    ReplaceAt(ThreeThenDigit, s, 4);
    assert s[..4] == d[..3] + ".";
    assert s[4..7] == d[3..6];
    assert s[7..8] == d[6..7];
    assert s[8..] == d[7..];
    assert d[6..7] + d[7..] == d[6..];
  }

  lemma CpfDash(d: string)
    requires |d| == 11 && AllDigits(d)
    ensures Replace(ThreeThenTail, d[..3] + "." + d[3..6] + "." + d[6..])
         == d[..3] + "." + d[3..6] + "." + d[6..9] + "-" + d[9..]
  {
    var s := d[..3] + "." + d[3..6] + "." + d[6..];
    assert |s| == 13;
    assert forall k :: 8 <= k < 13 ==> s[k] == d[k - 2];
    assert DigitsAt(s, 8, 5);
    ReplaceAt(ThreeThenTail, s, 8);
    assert s[..8] == d[..3] + "." + d[3..6] + ".";
    assert s[8..11] == d[6..9];
    assert s[11..13] == d[9..];
  }

  /** Fourteen digits are masked as a CNPJ, "dd.ddd.ddd/dddd-dd". */
  lemma CnpjShape(d: string)
    requires |d| == 14 && AllDigits(d)
    ensures CnpjMask(d) == d[..2] + "." + d[2..5] + "." + d[5..8] + "/" + d[8..12] + "-" + d[12..]
  {
    CnpjFirstDot(d);
    CnpjSecondDot(d);
    CnpjSlashStep(d);
    CnpjDash(d);
  }

  lemma CnpjFirstDot(d: string)
    requires |d| == 14 && AllDigits(d)
    ensures Replace(CnpjLead, d) == d[..2] + "." + d[2..]
  {
    assert DigitsAt(d, 0, 3);
    ReplaceAt(CnpjLead, d, 0);
    assert d[2..3] + d[3..] == d[2..];
  }

  lemma CnpjSecondDot(d: string)
    requires |d| == 14 && AllDigits(d)
    ensures Replace(CnpjSecond, d[..2] + "." + d[2..]) == d[..2] + "." + d[2..5] + "." + d[5..]
  {
    var s := d[..2] + "." + d[2..];
    assert forall k :: 3 <= k < |s| ==> s[k] == d[k - 1];
    assert DigitsAt(s, 0, 2) && s[2] == '.' && DigitsAt(s, 3, 4);
    ReplaceAt(CnpjSecond, s, 0);
    assert s[..2] == d[..2];
    assert s[3..6] == d[2..5];
    assert [s[6]] + s[7..] == d[5..];
  }

  lemma CnpjSlashStep(d: string)
    requires |d| == 14 && AllDigits(d)
    ensures Replace(CnpjSlash, d[..2] + "." + d[2..5] + "." + d[5..])
         == d[..2] + "." + d[2..5] + "." + d[5..8] + "/" + d[8..]
  {
    var s := d[..2] + "." + d[2..5] + "." + d[5..];
    assert |s| == 16;
    assert forall k :: 0 <= k < 2 ==> s[k] == d[k];
    assert forall k :: 3 <= k < 6 ==> s[k] == d[k - 1];
    assert forall k :: 7 <= k < 16 ==> s[k] == d[k - 2];
    assert s[6] == '.';
    forall j | 0 <= j < 6 ensures MatchAt(CnpjSlash, s, j).None? {
      if j == 2 {
        assert !IsDigit(s[6]);
      } else {
        assert IsDigit(s[j]);
      }
    }
    assert DigitsAt(s, 7, 4);
    ReplaceAt(CnpjSlash, s, 6);
    assert s[..6] == d[..2] + "." + d[2..5];
    assert s[7..10] == d[5..8];
    assert [s[10]] + s[11..] == d[8..];
  }

  lemma CnpjDash(d: string)
    requires |d| == 14 && AllDigits(d)
    ensures Replace(FourThenDigit, d[..2] + "." + d[2..5] + "." + d[5..8] + "/" + d[8..])
         == d[..2] + "." + d[2..5] + "." + d[5..8] + "/" + d[8..12] + "-" + d[12..]
  {
    var a := d[..2] + "." + d[2..5] + "." + d[5..8] + "/";
    var b := d[8..];
    var s := a + b;
    assert |a| == 11 && a[2] == '.' && a[6] == '.' && a[10] == '/';
    assert s[2] == a[2] && s[6] == a[6] && s[10] == a[10];
    FourRunsBroken(s);
    assert s[..11] == a && s[11..] == b;
    assert DigitsAt(s, 11, 5);
    ReplaceAt(FourThenDigit, s, 11);
    DashRegrouped(a, b);
  }

  /** No run of five digits starts before position 11 when positions 2, 6 and 10 hold
      separators. */
  lemma FourRunsBroken(s: string)
    requires |s| >= 11 && !IsDigit(s[2]) && !IsDigit(s[6]) && !IsDigit(s[10])
    ensures forall j :: 0 <= j < 11 ==> MatchAt(FourThenDigit, s, j).None?
  {
    forall j | 0 <= j < 11 ensures MatchAt(FourThenDigit, s, j).None? {
      if j <= 2 {
        assert !IsDigit(s[2]);
      } else if j <= 6 {
        assert !IsDigit(s[6]);
      } else {
        assert !IsDigit(s[10]);
      }
    }
  }

  lemma DashRegrouped(a: string, b: string)
    requires |a| == 11 && |b| == 6
    ensures var s := a + b;
      s[..11] + (s[11..15] + "-" + s[15..16]) + s[16..] == a + b[..4] + "-" + b[4..]
  {
    var s := a + b;
    assert s[..11] == a;
    assert s[11..15] == b[..4];
    assert s[15..16] + s[16..] == b[4..];
  }

  /** Eleven digits are masked as a mobile number, "(dd) ddddd-dddd". */
  lemma MobileShape(d: string)
    requires |d| == 11 && AllDigits(d)
    ensures PhoneMask(d) == "(" + d[..2] + ") " + d[2..7] + "-" + d[7..]
  {
    PhoneArea(d);
    var s := "(" + d[..2] + ") " + d[2..];
    assert |s| == 14;
    assert forall k :: 5 <= k < 14 ==> s[k] == d[k - 3];
    assert DigitsAt(s, 5, 9);
    ReplaceAt(PhoneTail, s, 5);
    assert s[..5] == "(" + d[..2] + ") ";
    assert s[5..10] == d[2..7];
    assert s[10..14] == d[7..];
  }

  /** Ten digits are masked as a landline number, "(dd) dddd-dddd". */
  lemma LandlineShape(d: string)
    requires |d| == 10 && AllDigits(d)
    ensures PhoneMask(d) == "(" + d[..2] + ") " + d[2..6] + "-" + d[6..]
  {
    PhoneArea(d);
    var s := "(" + d[..2] + ") " + d[2..];
    assert |s| == 13;
    assert forall k :: 5 <= k < 13 ==> s[k] == d[k - 3];
    forall j | 0 <= j < 5 ensures MatchAt(PhoneTail, s, j).None? {
      if j == 4 {
        assert !IsDigit(s[4]);
      }
    }
    assert DigitsAt(s, 5, 8);
    ReplaceAt(PhoneTail, s, 5);
    assert s[..5] == "(" + d[..2] + ") ";
    assert s[5..9] == d[2..6];
    assert s[9..13] == d[6..];
  }

  lemma PhoneArea(d: string)
    requires |d| >= 3 && AllDigits(d)
    ensures Replace(PhoneLead, d) == "(" + d[..2] + ") " + d[2..]
  {
    assert DigitsAt(d, 0, 3);
    ReplaceAt(PhoneLead, d, 0);
    assert [d[2]] + d[3..] == d[2..];
  }

  /** Eight digits are masked as a postal code, "ddddd-ddd". */
  lemma CepShape(d: string)
    requires |d| == 8 && AllDigits(d)
    ensures Replace(CepLead, d) == d[..5] + "-" + d[5..]
  {
    assert DigitsAt(d, 0, 6);
    ReplaceAt(CepLead, d, 0);
    assert d[5..6] + d[6..] == d[5..];
  }
}

