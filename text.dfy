/** Character and string helpers shared by the formatters, validators and filters. */
module Text {
  import opened Wrappers

  predicate IsDigit(c: char) { '0' <= c <= '9' }
  predicate IsUpper(c: char) { 'A' <= c <= 'Z' }
  predicate IsLower(c: char) { 'a' <= c <= 'z' }

  /** Whitespace as `trim()` and `\s` see it, restricted to the ASCII and Latin-1 range. */
  predicate IsSpace(c: char)
  {
    c == ' ' || c == '\t' || c == '\n' || c == '\r' || c == '\U{B}' || c == '\U{C}' || c == '\U{A0}'
  }

  predicate AllDigits(s: string) { forall i :: 0 <= i < |s| ==> IsDigit(s[i]) }

  /** `toLowerCase()` of one character, for ASCII and the accented Latin-1 capitals. */
  function Lower(c: char): (r: char)
    ensures IsUpper(c) ==> IsLower(r)
    ensures !IsUpper(c) && !('\U{C0}' <= c <= '\U{DE}') ==> r == c
  {
    if IsUpper(c) || ('\U{C0}' <= c <= '\U{DE}' && c != '\U{D7}') then (c as int + 32) as char else c
  }

  function ToLower(s: string): (r: string)
    ensures |r| == |s| && forall i :: 0 <= i < |s| ==> r[i] == Lower(s[i])
  {
    if s == [] then [] else [Lower(s[0])] + ToLower(s[1..])
  }

  /** Lower-casing twice is lower-casing once, so a match against a lower-cased text
      does not depend on the case the text was typed in. */
  lemma ToLowerTwice(s: string)
    ensures ToLower(ToLower(s)) == ToLower(s)
  {
    forall i | 0 <= i < |s|
      ensures Lower(Lower(s[i])) == Lower(s[i])
    {
    }
  }

  /** `toUpperCase()` of an ASCII lower-case letter; other characters are unchanged. */
  function Upper(c: char): (r: char)
    ensures IsLower(c) ==> IsUpper(r) && Lower(r) == c
    ensures !IsLower(c) ==> r == c
  {
    if IsLower(c) then (c as int - 32) as char else c
  }

  predicate StartsWith(s: string, p: string)
  {
    |p| <= |s| && s[..|p|] == p
  }

  /** `s.includes(p)`: `p` occurs in `s` as a contiguous block. */
  predicate Contains(s: string, p: string)
  {
    StartsWith(s, p) || (s != [] && Contains(s[1..], p))
  }

  /** Case-insensitive containment, `s.toLowerCase().includes(p.toLowerCase())`. */
  predicate ContainsIgnoringCase(s: string, p: string)
  {
    Contains(ToLower(s), ToLower(p))
  }

  /** `s.replace(/\D/g, '')`: the digits of `s`, in order. */
  function Digits(s: string): (r: string)
    ensures AllDigits(r) && |r| <= |s|
    ensures AllDigits(s) ==> r == s
  {
    if s == [] then [] else (if IsDigit(s[0]) then [s[0]] else []) + Digits(s[1..])
  }

  lemma {:induction false} DigitsAppend(a: string, b: string)
    ensures Digits(a + b) == Digits(a) + Digits(b)
  {
    if a != [] {
      assert (a + b)[1..] == a[1..] + b;
      DigitsAppend(a[1..], b);
    } else {
      assert a + b == b;
    }
  }

  function TrimStart(s: string): (r: string)
    ensures |r| <= |s|
    ensures r == [] || !IsSpace(r[0])
    decreases |s|
  {
    if s != [] && IsSpace(s[0]) then TrimStart(s[1..]) else s
  }

  function TrimEnd(s: string): (r: string)
    ensures |r| <= |s|
    ensures r == [] || !IsSpace(r[|r| - 1])
    decreases |s|
  {
    if s != [] && IsSpace(s[|s| - 1]) then TrimEnd(s[..|s| - 1]) else s
  }

  /** `s.trim()`. */
  function Trim(s: string): string
  {
    TrimEnd(TrimStart(s))
  }

  /** A text that is empty once trimmed is blank. */
  predicate IsBlank(s: string)
  {
    forall i :: 0 <= i < |s| ==> IsSpace(s[i])
  }

  lemma {:induction false} TrimEmptyIffBlank(s: string)
    ensures Trim(s) == [] <==> IsBlank(s)
    decreases |s|
  {
    if s != [] && IsSpace(s[0]) {
      TrimEmptyIffBlank(s[1..]);
      assert TrimStart(s) == TrimStart(s[1..]);
      assert IsBlank(s) <==> IsBlank(s[1..]) by {
        if IsBlank(s[1..]) {
          forall i | 0 <= i < |s| ensures IsSpace(s[i]) {
            if i > 0 { assert s[i] == s[1..][i - 1]; }
          }
        }
      }
    } else if s != [] {
      assert !IsBlank(s);
      assert TrimStart(s) == s;
      TrimEndKeeps(s);
    }
  }

  lemma {:induction false} TrimEndKeeps(s: string)
    requires s != [] && !IsSpace(s[0])
    ensures TrimEnd(s) != []
    decreases |s|
  {
    if IsSpace(s[|s| - 1]) {
      TrimEndKeeps(s[..|s| - 1]);
    }
  }

  /** The decimal text of a natural number, as `toString()` writes it. */
  function NatToString(n: nat): (r: string)
    ensures r != [] && AllDigits(r)
    decreases n
  {
    if n < 10 then [(48 + n) as char] else NatToString(n / 10) + [(48 + n % 10) as char]
  }

  /** The value of a text of decimal digits. */
  function DigitsValue(s: string): (r: nat)
    requires AllDigits(s)
  {
    if s == [] then 0 else DigitsValue(s[..|s| - 1]) * 10 + (s[|s| - 1] as int - 48)
  }

  lemma {:induction false} NatToStringValue(n: nat)
    ensures DigitsValue(NatToString(n)) == n
    decreases n
  {
    if n >= 10 {
      NatToStringValue(n / 10);
      var s := NatToString(n);
      assert s[..|s| - 1] == NatToString(n / 10);
    }
  }

  /** The text of an integer, with a leading '-' when it is negative. */
  function IntToString(n: int): (r: string)
  {
    if n < 0 then "-" + NatToString(-n) else NatToString(n)
  }

  /** The position of the first occurrence of `c` in `s`. */
  function FirstIndex(s: string, c: char): (r: Option<nat>)
    ensures r.Some? ==> r.value < |s| && s[r.value] == c && forall i :: 0 <= i < r.value ==> s[i] != c
    ensures r.None? ==> forall i :: 0 <= i < |s| ==> s[i] != c
  {
    if s == [] then None
    else if s[0] == c then Some(0)
    else match FirstIndex(s[1..], c)
      case None => None
      case Some(k) => Some(k + 1)
  }

  /** `s.split(sep)`: the pieces between separators, always at least one. */
  function Split(s: string, sep: char): (r: seq<string>)
    ensures |r| >= 1
    decreases |s|
  {
    match FirstIndex(s, sep)
    case None => [s]
    case Some(k) => [s[..k]] + Split(s[k + 1..], sep)
  }

  /** A last piece free of the separator splits off as the last piece. */
  lemma {:induction false} SplitSnoc(p: string, w: string, sep: char)
    requires forall i :: 0 <= i < |w| ==> w[i] != sep
    ensures Split(p + [sep] + w, sep) == Split(p, sep) + [w]
    decreases |p|
  {
    match FirstIndex(p, sep)
    case None =>
      SplitAtSeparator(p, w, sep);
    case Some(k) =>
      SplitBeforeSeparator(p, w, sep, k);
      SplitSnoc(p[k + 1..], w, sep);
  }

  /** With no separator in `p`, the added separator is the only split point. */
  lemma SplitAtSeparator(p: string, w: string, sep: char)
    requires FirstIndex(p, sep).None?
    requires forall i :: 0 <= i < |w| ==> w[i] != sep
    ensures Split(p + [sep] + w, sep) == [p, w]
  {
    var s := p + [sep] + w;
    assert s[|p|] == sep;
    assert forall i :: 0 <= i < |p| ==> s[i] == p[i];
    assert FirstIndex(s, sep) == Some(|p|);
    assert s[..|p|] == p;
    assert s[|p| + 1..] == w;
    assert FirstIndex(w, sep).None?;
  }

  /** The first separator of `p` is also the first split point once more text follows. */
  lemma SplitBeforeSeparator(p: string, w: string, sep: char, k: nat)
    requires FirstIndex(p, sep) == Some(k)
    ensures Split(p + [sep] + w, sep) == [p[..k]] + Split(p[k + 1..] + [sep] + w, sep)
  {
    var s := p + [sep] + w;
    assert forall i :: 0 <= i <= k ==> s[i] == p[i];
    assert FirstIndex(s, sep) == Some(k);
    assert s[..k] == p[..k];
    assert s[k + 1..] == p[k + 1..] + [sep] + w;
  }

  /** The longest prefix of decimal digits. */
  function LeadingDigits(s: string): (r: string)
    ensures AllDigits(r) && |r| <= |s| && r == s[..|r|]
    ensures AllDigits(s) ==> r == s
  {
    if s != [] && IsDigit(s[0]) then [s[0]] + LeadingDigits(s[1..]) else []
  }

  /** `parseInt(s)`: leading blanks, an optional sign, then the leading digits;
      None stands for NaN, when there is no digit. */
  function ParseInt(s: string): (r: Option<int>)
  {
    var t := TrimStart(s);
    var negative := t != [] && t[0] == '-';
    var rest := if t != [] && (t[0] == '-' || t[0] == '+') then t[1..] else t;
    var digits := LeadingDigits(rest);
    if digits == [] then None
    else if negative then Some(-(DigitsValue(digits) as int))
    else Some(DigitsValue(digits))
  }

  /** Digits alone read back as their value. */
  lemma DigitsNumber(s: string)
    requires AllDigits(s) && s != []
    ensures ParseInt(s) == Some(DigitsValue(s))
  {
    assert !IsSpace(s[0]);
  }

  /** The leading digits stop at the first character that is not one. */
  lemma {:induction false} LeadingDigitsStop(a: string, b: string)
    requires AllDigits(a) && (b == [] || !IsDigit(b[0]))
    ensures LeadingDigits(a + b) == a
  {
    if a != [] {
      LeadingDigitsStop(a[1..], b);
      assert (a + b)[1..] == a[1..] + b;
    }
  }
}
