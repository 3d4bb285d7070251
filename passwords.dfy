/** The password rules and the secure-password generator. */
module Passwords {
  import opened Text

  const UpperChars: string := "ABCDEFGHIJKLMNOPQRSTUVWXYZ"
  const LowerChars: string := "abcdefghijklmnopqrstuvwxyz"
  const DigitChars: string := "0123456789"
  const SpecialChars: string := "!@#$%^&*()_+[]{}|;:,.<>?"
  const AllChars: string := UpperChars + LowerChars + DigitChars + SpecialChars

  const TooShort := "A senha deve ter pelo menos 8 caracteres"
  const NoUpper := "A senha deve conter pelo menos uma letra maiúscula"
  const NoLower := "A senha deve conter pelo menos uma letra minúscula"
  const NoDigit := "A senha deve conter pelo menos um número"
  const NoSpecial := "A senha deve conter pelo menos um caractere especial (!@#$%^&*()_+[]{}|;:,.<>?)"

  predicate IsSpecial(c: char) { c in SpecialChars }

  predicate HasUpper(p: string) { exists i :: 0 <= i < |p| && IsUpper(p[i]) }
  predicate HasLower(p: string) { exists i :: 0 <= i < |p| && IsLower(p[i]) }
  predicate HasDigit(p: string) { exists i :: 0 <= i < |p| && IsDigit(p[i]) }
  predicate HasSpecial(p: string) { exists i :: 0 <= i < |p| && IsSpecial(p[i]) }

  /** What `validatePassword` returns: a verdict and, on failure, one message. */
  datatype Verdict = Verdict(isValid: bool, message: string)

  predicate Strong(p: string)
  {
    |p| >= 8 && HasUpper(p) && HasLower(p) && HasDigit(p) && HasSpecial(p)
  }

  /** The five checks in order; the first that fails gives the message. */
  function ValidatePassword(p: string): (r: Verdict)
    ensures r.isValid <==> Strong(p)
    ensures r.isValid <==> r.message == []
    ensures |p| < 8 ==> r.message == TooShort
    ensures |p| >= 8 && !HasUpper(p) ==> r.message == NoUpper
    ensures |p| >= 8 && HasUpper(p) && !HasLower(p) ==> r.message == NoLower
    ensures |p| >= 8 && HasUpper(p) && HasLower(p) && !HasDigit(p) ==> r.message == NoDigit
    ensures |p| >= 8 && HasUpper(p) && HasLower(p) && HasDigit(p) && !HasSpecial(p) ==> r.message == NoSpecial
  {
    if |p| < 8 then Verdict(false, TooShort)
    else if !HasUpper(p) then Verdict(false, NoUpper)
    else if !HasLower(p) then Verdict(false, NoLower)
    else if !HasDigit(p) then Verdict(false, NoDigit)
    else if !HasSpecial(p) then Verdict(false, NoSpecial)
    else Verdict(true, [])
  }

  /** The checks look at which characters occur, not where: any rearrangement of a
      password gets the same verdict. */
  lemma VerdictIgnoresOrder(p: string, q: string)
    requires multiset(p) == multiset(q)
    ensures ValidatePassword(p) == ValidatePassword(q)
  {
    assert |p| == |multiset(p)| == |multiset(q)| == |q|;
    OccursBoth(p, q);
    OccursBoth(q, p);
  }

  lemma OccursBoth(p: string, q: string)
    requires multiset(p) == multiset(q)
    ensures HasUpper(p) ==> HasUpper(q)
    ensures HasLower(p) ==> HasLower(q)
    ensures HasDigit(p) ==> HasDigit(q)
    ensures HasSpecial(p) ==> HasSpecial(q)
  {
    forall i | 0 <= i < |p| ensures exists j :: 0 <= j < |q| && q[j] == p[i] {
      assert p[i] in multiset(p);
      assert p[i] in q;
    }
  }

  /** The characters the generator draws before the shuffle: one upper-case letter, one
      lower-case letter, one digit and one special character picked by `first`, then eight
      characters of the full alphabet picked by `rest`. The picks stand for
      `Math.floor(Math.random() * length)`. */
  predicate ValidPicks(first: seq<nat>, rest: seq<nat>)
  {
    && |first| == 4 && |rest| == 8
    && first[0] < |UpperChars| && first[1] < |LowerChars|
    && first[2] < |DigitChars| && first[3] < |SpecialChars|
    && forall k :: 0 <= k < 8 ==> rest[k] < |AllChars|
  }

  function Drawn(first: seq<nat>, rest: seq<nat>): (r: string)
    requires ValidPicks(first, rest)
    ensures |r| == 12
  {
    [UpperChars[first[0]], LowerChars[first[1]], DigitChars[first[2]], SpecialChars[first[3]]]
      + seq(8, k requires 0 <= k < 8 => AllChars[rest[k]])
  }

  /** The drawn characters satisfy all five rules. */
  lemma DrawnIsStrong(first: seq<nat>, rest: seq<nat>)
    requires ValidPicks(first, rest)
    ensures Strong(Drawn(first, rest))
  {
    var d := Drawn(first, rest);
    assert IsUpper(d[0]) by { UpperCharsAre(first[0]); }
    assert IsLower(d[1]) by { LowerCharsAre(first[1]); }
    assert IsDigit(d[2]) by { DigitCharsAre(first[2]); }
    assert IsSpecial(d[3]);
  }

  lemma UpperCharsAre(k: nat)
    requires k < |UpperChars|
    ensures IsUpper(UpperChars[k])
  {
  }

  lemma LowerCharsAre(k: nat)
    requires k < |LowerChars|
    ensures IsLower(LowerChars[k])
  {
  }

  lemma DigitCharsAre(k: nat)
    requires k < |DigitChars|
    ensures IsDigit(DigitChars[k])
  {
  }

  /** `gerarSenhaSegura`: the four class picks, eight more characters pushed one by one,
      then the shuffle. A sort with a random comparator only rearranges the array; it is
      modelled as the sequence of adjacent exchanges `swaps` it performs, each naming the
      first of the two positions. */
  method GenerateSecurePassword(first: seq<nat>, rest: seq<nat>, swaps: seq<nat>) returns (password: string)
    requires ValidPicks(first, rest)
    requires forall k :: 0 <= k < |swaps| ==> swaps[k] < 11
    ensures |password| == 12
    ensures forall i :: 0 <= i < 12 ==> password[i] in AllChars
    ensures multiset(password) == multiset(Drawn(first, rest))
    ensures ValidatePassword(password).isValid
  {
    var senha := Draw(first, rest);
    Shuffle(senha, swaps);
    password := senha[..];
    ShuffledDrawn(first, rest, password);
  }

  /** The array before the shuffle: the four class picks, then the eight pushes. */
  method Draw(first: seq<nat>, rest: seq<nat>) returns (senha: array<char>)
    requires ValidPicks(first, rest)
    ensures fresh(senha) && senha[..] == Drawn(first, rest)
  {
    ghost var d := Drawn(first, rest);
    senha := new char[12];
    senha[0] := UpperChars[first[0]];
    senha[1] := LowerChars[first[1]];
    senha[2] := DigitChars[first[2]];
    senha[3] := SpecialChars[first[3]];
    for i := 4 to 12
      invariant forall k :: 0 <= k < i ==> senha[k] == d[k]
    {
      senha[i] := AllChars[rest[i - 4]];
    }
  }

  /** The shuffle as the adjacent exchanges a comparison sort makes: a rearrangement. */
  method Shuffle(a: array<char>, swaps: seq<nat>)
    requires forall k :: 0 <= k < |swaps| ==> swaps[k] + 1 < a.Length
    modifies a
    ensures multiset(a[..]) == old(multiset(a[..]))
  {
    for s := 0 to |swaps|
      invariant multiset(a[..]) == old(multiset(a[..]))
    {
      var j := swaps[s];
      a[j], a[j + 1] := a[j + 1], a[j];
    }
  }

  /** Any rearrangement of the drawn characters uses only the alphabet and passes every
      rule. */
  lemma ShuffledDrawn(first: seq<nat>, rest: seq<nat>, password: string)
    requires ValidPicks(first, rest)
    requires multiset(password) == multiset(Drawn(first, rest))
    ensures |password| == 12
    ensures forall i :: 0 <= i < 12 ==> password[i] in AllChars
    ensures ValidatePassword(password).isValid
  {
    var d := Drawn(first, rest);
    assert |password| == |multiset(password)| == |multiset(d)| == 12;
    DrawnInAlphabet(first, rest);
    forall i | 0 <= i < 12 ensures password[i] in AllChars {
      assert password[i] in multiset(d);
    }
    DrawnIsStrong(first, rest);
    VerdictIgnoresOrder(d, password);
  }

  lemma DrawnInAlphabet(first: seq<nat>, rest: seq<nat>)
    requires ValidPicks(first, rest)
    ensures forall c :: c in multiset(Drawn(first, rest)) ==> c in AllChars
  {
    var d := Drawn(first, rest);
    forall i | 0 <= i < 12 ensures d[i] in AllChars {
      if i == 0 { assert AllChars[first[0]] == d[0]; }
      else if i == 1 { assert AllChars[|UpperChars| + first[1]] == d[1]; }
      else if i == 2 { assert AllChars[|UpperChars| + |LowerChars| + first[2]] == d[2]; }
      else if i == 3 { assert AllChars[|UpperChars| + |LowerChars| + |DigitChars| + first[3]] == d[3]; }
    }
  }
}
