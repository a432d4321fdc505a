/** Brazilian taxpayer numbers: CPF (11 digits) and CNPJ (14 digits), their check digits and formats. */
module TaxIds {

  predicate IsDigit(c: char) { '0' <= c <= '9' }
  predicate AllDigits(s: string) { forall i :: 0 <= i < |s| ==> IsDigit(s[i]) }

  function Num(c: char): (n: nat)
    requires IsDigit(c)
    ensures n <= 9
  {
    (c - '0') as nat
  }

  /** replace(/\D/g, '') */
  function Strip(s: string): (r: string)
    ensures AllDigits(r)
  {
    if s == "" then "" else if IsDigit(s[0]) then [s[0]] + Strip(s[1..]) else Strip(s[1..])
  }

  predicate AllSame(s: string) { forall i :: 0 <= i < |s| ==> s[i] == s[0] }

  /** The first k digits, each times its weight, summed. */
  function Weighted(s: string, weights: seq<int>, k: nat): int
    requires AllDigits(s) && k <= |s| && k <= |weights|
  {
    if k == 0 then 0 else Weighted(s, weights, k - 1) + Num(s[k - 1]) * weights[k - 1]
  }

  // ----- the two rules -----

  function CpfDigit(sum: int): int
  {
    var remainder := (sum * 10) % 11;
    if remainder == 10 || remainder == 11 then 0 else remainder
  }

  function CnpjDigit(sum: int): int
  {
    var rem := sum % 11;
    if rem < 2 then 0 else 11 - rem
  }

  /** The two rules are one rule. */
  lemma SameRule(sum: int)
    ensures CpfDigit(sum) == CnpjDigit(sum) && 0 <= CnpjDigit(sum) <= 9
  {
    var r := sum % 11;
    assert sum == 11 * (sum / 11) + r;
    assert sum * 10 == 11 * (10 * (sum / 11)) + 10 * r;
    assert (sum * 10) % 11 == (10 * r) % 11;
  }

  // ----- CPF -----

  const CPF1: seq<int> := [10, 9, 8, 7, 6, 5, 4, 3, 2]
  const CPF2: seq<int> := [11, 10, 9, 8, 7, 6, 5, 4, 3, 2]

  predicate CpfChecks(d: string)
    requires |d| == 11 && AllDigits(d)
  {
    CpfDigit(Weighted(d, CPF1, 9)) == Num(d[9]) && CpfDigit(Weighted(d, CPF2, 10)) == Num(d[10])
  }

  predicate ValidCpf(s: string)
  {
    var d := Strip(s);
    |d| == 11 && !AllSame(d) && CpfChecks(d)
  }

  method IsValidCpf(cpf: string) returns (valid: bool)
    ensures valid <==> ValidCpf(cpf)
  {
    var clean := Strip(cpf);
    if |clean| != 11 { return false; }
    if AllSame(clean) { return false; }
    var sum := 0;
    for i := 1 to 10
      invariant sum == Weighted(clean, CPF1, i - 1)
    {
      sum := sum + Num(clean[i - 1]) * (11 - i);
    }
    var remainder := (sum * 10) % 11;
    if remainder == 10 || remainder == 11 { remainder := 0; }
    if remainder != Num(clean[9]) { return false; }
    sum := 0;
    for i := 1 to 11
      invariant sum == Weighted(clean, CPF2, i - 1)
    {
      sum := sum + Num(clean[i - 1]) * (12 - i);
    }
    remainder := (sum * 10) % 11;
    if remainder == 10 || remainder == 11 { remainder := 0; }
    if remainder != Num(clean[10]) { return false; }
    valid := true;
  }

  function FormatCpf(s: string): string
  {
    var d := Strip(s);
    if |d| <= 3 then d
    else if |d| <= 6 then d[..3] + "." + d[3..]
    else if |d| <= 9 then d[..3] + "." + d[3..6] + "." + d[6..]
    else d[..3] + "." + d[3..6] + "." + d[6..9] + "-" + (if |d| <= 11 then d[9..] else d[9..11])
  }

  // ----- CNPJ -----

  const CNPJ1: seq<int> := [5, 4, 3, 2, 9, 8, 7, 6, 5, 4, 3, 2]
  const CNPJ2: seq<int> := [6, 5, 4, 3, 2, 9, 8, 7, 6, 5, 4, 3, 2]

  function DigitChar(n: int): (c: char)
    requires 0 <= n <= 9
    ensures IsDigit(c) && Num(c) == n
  {
    '0' + n as char
  }

  /** calcCheckDigit over a slice as long as its factors. */
  function CalcCheckDigit(slice: string, factors: seq<int>): (r: int)
    requires AllDigits(slice) && |slice| == |factors|
    ensures 0 <= r <= 9
  {
    CnpjDigit(Weighted(slice, factors, |slice|))
  }

  function ValidCnpj(s: string): bool
  {
    var d := Strip(s);
    if |d| != 14 || AllSame(d) then false
    else
      var base12 := d[..12];
      var base13 := base12 + [DigitChar(CalcCheckDigit(base12, CNPJ1))];
      d == base13 + [DigitChar(CalcCheckDigit(base13, CNPJ2))]
  }

  /** The first fourteen digits, when there are so many, are grouped; the rest follow. */
  function FormatCnpj(s: string): string
  {
    var d := Strip(s);
    if |d| < 14 then d
    else d[..2] + "." + d[2..5] + "." + d[5..8] + "/" + d[8..12] + "-" + d[12..14] + d[14..]
  }

  // ----- stripping and formatting -----

  lemma {:induction false} StripConcat(a: string, b: string)
    ensures Strip(a + b) == Strip(a) + Strip(b)
  {
    if a == "" {
      assert a + b == b;
    } else {
      assert (a + b)[1..] == a[1..] + b;
      StripConcat(a[1..], b);
    }
  }

  lemma {:induction false} StripDigits(s: string)
    requires AllDigits(s)
    ensures Strip(s) == s
  {
    if s != "" { StripDigits(s[1..]); }
  }

  lemma StripMark(a: string, mark: string, b: string)
    requires AllDigits(a) && |mark| == 1 && !IsDigit(mark[0])
    ensures Strip(a + mark + b) == a + Strip(b)
  {
    StripConcat(a + mark, b);
    StripConcat(a, mark);
    StripDigits(a);
    assert Strip(mark) == "" by { assert mark[1..] == ""; }
  }

  lemma StripMarks(a: string, b: string, c: string, first: string, second: string)
    requires AllDigits(a) && AllDigits(b) && |first| == 1 && !IsDigit(first[0]) && |second| == 1 && !IsDigit(second[0])
    ensures Strip(a + first + b + second + c) == a + b + Strip(c)
  {
    hide Strip;
    StripMark(b, second, c);
    StripMark(a, first, b + second + c);
    assert a + first + (b + second + c) == a + first + b + second + c;
  }

  /** Stripping a formatted CPF gives back its first eleven digits. */
  lemma CpfRoundTrip(s: string)
    ensures Strip(FormatCpf(s)) == if |Strip(s)| <= 11 then Strip(s) else Strip(s)[..11]
  {
    hide Strip;
    var d := Strip(s);
    if |d| <= 3 {
      StripDigits(d);
    } else if |d| <= 6 {
      StripDigits(d[3..]);
      StripMark(d[..3], ".", d[3..]);
    } else if |d| <= 9 {
      StripDigits(d[6..]);
      StripMarks(d[..3], d[3..6], d[6..], ".", ".");
    } else {
      LongCpf(d);
    }
  }

  lemma LongCpf(d: string)
    requires AllDigits(d) && 9 < |d|
    ensures var tail := if |d| <= 11 then d[9..] else d[9..11];
            Strip(d[..3] + "." + d[3..6] + "." + d[6..9] + "-" + tail) == d[..9] + tail
  {
    hide Strip;
    var tail := if |d| <= 11 then d[9..] else d[9..11];
    StripDigits(tail);
    StripMark(d[6..9], "-", tail);
    StripMarks(d[..3], d[3..6], d[6..9] + "-" + tail, ".", ".");
    assert d[..3] + "." + d[3..6] + "." + (d[6..9] + "-" + tail) == d[..3] + "." + d[3..6] + "." + d[6..9] + "-" + tail;
  }

  /** Stripping a formatted CNPJ gives back all its digits. */
  lemma CnpjRoundTrip(s: string)
    ensures Strip(FormatCnpj(s)) == Strip(s)
  {
    hide Strip;
    var d := Strip(s);
    StripDigits(d);
    if 14 <= |d| {
      var tail := d[12..14] + d[14..];
      StripDigits(tail);
      StripMarks(d[5..8], d[8..12], tail, "/", "-");
      StripMarks(d[..2], d[2..5], d[5..8] + "/" + d[8..12] + "-" + tail, ".", ".");
      assert FormatCnpj(s) == d[..2] + "." + d[2..5] + "." + (d[5..8] + "/" + d[8..12] + "-" + tail);
    }
  }

  /** Formatting a CNPJ never changes whether it is valid. */
  lemma CnpjFormatKeepsValidity(s: string)
    ensures ValidCnpj(FormatCnpj(s)) == ValidCnpj(s) && FormatCnpj(FormatCnpj(s)) == FormatCnpj(s)
  {
    hide Strip, AllSame, CalcCheckDigit;
    CnpjRoundTrip(s);
    SameCnpj(FormatCnpj(s), s);
  }

  lemma SameCnpj(s: string, t: string)
    requires Strip(s) == Strip(t)
    ensures ValidCnpj(s) == ValidCnpj(t) && FormatCnpj(s) == FormatCnpj(t)
  {
    hide Strip, AllSame, CalcCheckDigit;
  }

  lemma SameCpf(s: string, t: string)
    requires Strip(s) == Strip(t)
    ensures ValidCpf(s) == ValidCpf(t) && FormatCpf(s) == FormatCpf(t)
  {
    hide Strip, AllSame, CpfChecks;
  }

  /** Formatting a CPF changes whether it is valid exactly when it cuts digits off and the first eleven are a
      valid number. */
  lemma CpfFormatValidityIff(s: string)
    ensures ValidCpf(FormatCpf(s)) != ValidCpf(s) <==> |Strip(s)| > 11 && ValidCpf(Strip(s)[..11])
  {
    hide Strip, AllSame, CpfChecks, FormatCpf;
    CpfRoundTrip(s);
    if |Strip(s)| > 11 {
      StripDigits(Strip(s)[..11]);
      SameCpf(FormatCpf(s), Strip(s)[..11]);
      assert !ValidCpf(s);
    } else {
      SameCpf(FormatCpf(s), s);
    }
  }

  // ----- where the marks stand -----

  /** The mark a CPF of n digits has at position i of its text, if it has one there. */
  function CpfMark(n: nat, i: nat): (m: string)
  {
    if (i == 3 && n > 3) || (i == 7 && n > 6) then "." else if i == 11 && n > 9 then "-" else ""
  }

  /** A formatted CPF has dots after three and six digits and a dash after nine, as soon as more digits follow, and
      digits everywhere else. */
  lemma CpfFormatShape(s: string, i: nat)
    requires i < |FormatCpf(s)|
    ensures var n := |Strip(s)|;
            if CpfMark(n, i) == "" then IsDigit(FormatCpf(s)[i]) else [FormatCpf(s)[i]] == CpfMark(n, i)
  {
    hide Strip;
  }

  /** A CNPJ is formatted from fourteen digits on: dots after two and five, a slash after eight, a dash after twelve,
      and digits everywhere else. */
  lemma CnpjFormatShape(s: string, i: nat)
    requires i < |FormatCnpj(s)|
    ensures var (c, full) := (FormatCnpj(s)[i], |Strip(s)| >= 14);
            if full && (i == 2 || i == 6) then c == '.' else if full && i == 10 then c == '/'
            else if full && i == 15 then c == '-' else IsDigit(c)
  {
    hide Strip;
  }

  // ----- one digit throughout -----

  lemma {:induction false} SameWeighted(s: string, weights: seq<int>, k: nat)
    requires AllDigits(s) && AllSame(s) && 0 < |s| && k <= |s| && k <= |weights|
    ensures Weighted(s, weights, k) == Num(s[0]) * Sum(weights, k)
  {
    if k > 0 {
      SameWeighted(s, weights, k - 1);
      Distribute(Num(s[0]), Sum(weights, k - 1), weights[k - 1]);
    }
  }

  function Sum(weights: seq<int>, k: nat): int
    requires k <= |weights|
  {
    if k == 0 then 0 else Sum(weights, k - 1) + weights[k - 1]
  }

  lemma Distribute(n: int, a: int, b: int)
    ensures n * (a + b) == n * a + n * b
  {
  }

  lemma CpfSums()
    ensures Sum(CPF1, 9) == 54 && Sum(CPF2, 10) == 65
  {
    assert Sum(CPF1, 5) == 40;
    assert Sum(CPF2, 5) == 45;
  }

  lemma CnpjSums()
    ensures Sum(CNPJ1, 12) == 58 && Sum(CNPJ2, 13) == 64
  {
    assert Sum(CNPJ1, 4) == 14;
    assert Sum(CNPJ1, 8) == 44;
    assert Sum(CNPJ2, 4) == 18;
    assert Sum(CNPJ2, 8) == 44;
  }

  /** One digit eleven times passes both CPF checks, whichever digit it is: only the explicit test refuses it. */
  lemma SameDigitCpf(s: string)
    requires |Strip(s)| == 11 && AllSame(Strip(s))
    ensures CpfChecks(Strip(s)) && !ValidCpf(s)
  {
    hide Strip;
    var d := Strip(s);
    SameWeighted(d, CPF1, 9);
    SameWeighted(d, CPF2, 10);
    CpfSums();
  }

  /** One digit fourteen times would pass the CNPJ checks only if it is zero; it is refused whichever it is. */
  lemma SameDigitCnpj(s: string)
    requires |Strip(s)| == 14 && AllSame(Strip(s))
    ensures var d := Strip(s);
            && (CnpjDigit(Weighted(d, CNPJ1, 12)) == Num(d[12]) && CnpjDigit(Weighted(d, CNPJ2, 13)) == Num(d[13])
                <==> d[0] == '0')
            && !ValidCnpj(s)
  {
    hide Strip;
    var d := Strip(s);
    SameWeighted(d, CNPJ1, 12);
    SameWeighted(d, CNPJ2, 13);
    CnpjSums();
  }

  // ----- wrong digits -----

  lemma {:induction false} WeightedUpdate(s: string, weights: seq<int>, k: nat, p: nat, c: char)
    requires AllDigits(s) && k <= |s| && k <= |weights| && p < |s| && IsDigit(c)
    ensures AllDigits(s[p := c])
    ensures Weighted(s[p := c], weights, k) ==
            Weighted(s, weights, k) + if p < k then weights[p] * (Num(c) - Num(s[p])) else 0
  {
    if k > 0 {
      WeightedUpdate(s, weights, k - 1, p, c);
      if p == k - 1 {
        Shifted(Num(c), Num(s[p]), weights[p]);
      } else {
        assert s[p := c][k - 1] == s[k - 1];
      }
    }
  }

  lemma Shifted(a: int, b: int, w: int)
    ensures a * w == b * w + w * (a - b)
  {
  }

  /** Both check digits miss a change of delta at weights u and w. */
  predicate Missed(a: int, b: int, u: int, w: int, delta: int)
  {
    CnpjDigit(a) == CnpjDigit(a + u * delta) && CnpjDigit(b) == CnpjDigit(b + w * delta)
  }

  /** Equal check digits mean equal remainders, or remainders 0 and 1. */
  lemma FoldedDigit(a: int, k: int)
    ensures CnpjDigit(a) == CnpjDigit(a + k) <==>
            k % 11 == 0 || (a % 11 == 0 && k % 11 == 1) || (a % 11 == 1 && k % 11 == 10)
  {
    var r, q := a % 11, k % 11;
    assert a + k == 11 * (a / 11 + k / 11) + (r + q);
    assert (a + k) % 11 == (r + q) % 11;
  }

  /** Where two check digits can both miss one wrong digit, and when they do. */
  predicate Blind(a: int, b: int, u: int, w: int, delta: int)
  {
    || (u == 10 && w == 11 && ((a % 11 == 0 && delta == -1) || (a % 11 == 1 && delta == 1)))
    || (u == 5 && w == 6 && ((a % 11 == 0 && b % 11 == 1 && delta % 11 == 9)
                             || (a % 11 == 1 && b % 11 == 0 && delta % 11 == 2)))
    || (u == 9 && w == 2 && ((a % 11 == 0 && b % 11 == 1 && delta % 11 == 5)
                             || (a % 11 == 1 && b % 11 == 0 && delta % 11 == 6)))
  }

  predicate Folds(r: int) { r == 0 || r == 1 || r == 10 }

  lemma TimesMod(u: int, delta: int)
    ensures (u * delta) % 11 == (u * (delta % 11)) % 11
  {
    assert u * delta == 11 * (u * (delta / 11)) + u * (delta % 11);
  }

  /** The few pairs of weights at which one change folds both remainders. */
  predicate Folding(u: int, w: int, m: int)
  {
    (u == 10 && w == 11 && (m == 1 || m == 10)) || (u == 5 && w == 6 && (m == 2 || m == 9))
      || (u == 9 && w == 2 && (m == 5 || m == 6))
  }

  lemma FoldingWeights(u: int, w: int, m: int)
    requires (2 <= u <= 10 && w == u + 1) || (u == 9 && w == 2)
    requires 1 <= m <= 10
    ensures Folds((u * m) % 11) && Folds((w * m) % 11) <==> Folding(u, w, m)
  {
    if w == 2 {
      FoldingAtNine(m);
    } else if u <= 4 {
      FoldingLow(u, m);
    } else if u <= 7 {
      FoldingMiddle(u, m);
    } else {
      FoldingHigh(u, m);
    }
  }

  lemma FoldingAtNine(m: int)
    requires 1 <= m <= 10
    ensures Folds((9 * m) % 11) && Folds((2 * m) % 11) <==> Folding(9, 2, m)
  {
  }

  lemma FoldingLow(u: int, m: int)
    requires 2 <= u <= 4 && 1 <= m <= 10
    ensures Folds((u * m) % 11) && Folds(((u + 1) * m) % 11) <==> Folding(u, u + 1, m)
  {
    if u == 2 { assert u * m == 2 * m && (u + 1) * m == 3 * m; }
    else if u == 3 { assert u * m == 3 * m && (u + 1) * m == 4 * m; }
    else { assert u * m == 4 * m && (u + 1) * m == 5 * m; }
  }

  lemma FoldingMiddle(u: int, m: int)
    requires 5 <= u <= 7 && 1 <= m <= 10
    ensures Folds((u * m) % 11) && Folds(((u + 1) * m) % 11) <==> Folding(u, u + 1, m)
  {
    if u == 5 { assert u * m == 5 * m && (u + 1) * m == 6 * m; }
    else if u == 6 { assert u * m == 6 * m && (u + 1) * m == 7 * m; }
    else { assert u * m == 7 * m && (u + 1) * m == 8 * m; }
  }

  lemma FoldingHigh(u: int, m: int)
    requires 8 <= u <= 10 && 1 <= m <= 10
    ensures Folds((u * m) % 11) && Folds(((u + 1) * m) % 11) <==> Folding(u, u + 1, m)
  {
    if u == 8 { assert u * m == 8 * m && (u + 1) * m == 9 * m; }
    else if u == 9 { assert u * m == 9 * m && (u + 1) * m == 10 * m; }
    else { assert u * m == 10 * m && (u + 1) * m == 11 * m; }
  }

  lemma MissedFolds(a: int, b: int, u: int, w: int, delta: int)
    requires Missed(a, b, u, w, delta)
    ensures Folds((u * (delta % 11)) % 11) && Folds((w * (delta % 11)) % 11)
  {
    hide CnpjDigit;
    FoldedDigit(a, u * delta);
    FoldedDigit(b, w * delta);
    TimesMod(u, delta);
    TimesMod(w, delta);
  }

  lemma BlindAtFive(a: int, b: int, delta: int)
    requires -9 <= delta <= 9 && delta != 0
    ensures Missed(a, b, 5, 6, delta) <==> Blind(a, b, 5, 6, delta)
  {
    hide CnpjDigit;
    FoldedDigit(a, 5 * delta);
    FoldedDigit(b, 6 * delta);
  }

  lemma BlindAtNine(a: int, b: int, delta: int)
    requires -9 <= delta <= 9 && delta != 0
    ensures Missed(a, b, 9, 2, delta) <==> Blind(a, b, 9, 2, delta)
  {
    hide CnpjDigit;
    FoldedDigit(a, 9 * delta);
    FoldedDigit(b, 2 * delta);
  }

  lemma BlindAtTen(a: int, b: int, delta: int)
    requires -9 <= delta <= 9 && delta != 0
    ensures Missed(a, b, 10, 11, delta) <==> Blind(a, b, 10, 11, delta)
  {
    hide CnpjDigit;
    FoldedDigit(a, 10 * delta);
    FoldedDigit(b, 11 * delta);
  }

  lemma MissedIffBlind(a: int, b: int, u: int, w: int, delta: int)
    requires (2 <= u <= 10 && w == u + 1) || (u == 9 && w == 2)
    requires -9 <= delta <= 9 && delta != 0
    ensures Missed(a, b, u, w, delta) <==> Blind(a, b, u, w, delta)
  {
    if u == 5 {
      BlindAtFive(a, b, delta);
    } else if u == 9 && w == 2 {
      BlindAtNine(a, b, delta);
    } else if u == 10 {
      BlindAtTen(a, b, delta);
    } else {
      hide Missed;
      FoldingWeights(u, w, delta % 11);
      if Missed(a, b, u, w, delta) { MissedFolds(a, b, u, w, delta); }
    }
  }

  // ----- one wrong digit in a number as typed -----

  /** Replacing a digit of the typed text replaces the digit it is among the stripped ones. */
  lemma StripReplace(s: string, q: nat, c: char)
    requires q < |s| && IsDigit(s[q]) && IsDigit(c)
    ensures var (d, p) := (Strip(s), |Strip(s[..q])|);
            p < |d| && d[p] == s[q] && Strip(s[q := c]) == d[p := c]
  {
    var before, after := s[..q], s[q + 1..];
    StripConcat(before, [s[q]] + after);
    StripConcat(before, [c] + after);
    assert s == before + ([s[q]] + after);
    assert s[q := c] == before + ([c] + after);
    assert ([s[q]] + after)[1..] == after && ([c] + after)[1..] == after;
  }

  lemma CpfDigitChange(d: string, p: nat, c: char)
    requires |d| == 11 && AllDigits(d) && CpfChecks(d) && p < 11 && IsDigit(c) && c != d[p]
    ensures AllDigits(d[p := c])
    ensures CpfChecks(d[p := c]) <==>
            p < 9 && Blind(Weighted(d, CPF1, 9), Weighted(d, CPF2, 10), CPF1[p], CPF2[p], Num(c) - Num(d[p]))
  {
    hide CpfDigit, CnpjDigit, Blind, Weighted;
    var e := d[p := c];
    var a, b := Weighted(d, CPF1, 9), Weighted(d, CPF2, 10);
    WeightedUpdate(d, CPF1, 9, p, c);
    WeightedUpdate(d, CPF2, 10, p, c);
    SameRule(a);
    SameRule(b);
    SameRule(Weighted(e, CPF1, 9));
    SameRule(Weighted(e, CPF2, 10));
    if p < 9 { MissedIffBlind(a, b, CPF1[p], CPF2[p], Num(c) - Num(d[p])); }
  }

  /** A valid CPF with one digit replaced is still accepted exactly when the two sums are blind to the change;
      that can only happen at the first and the sixth digit. */
  lemma CpfWrongDigit(s: string, q: nat, c: char)
    requires ValidCpf(s) && q < |s| && IsDigit(s[q]) && IsDigit(c) && c != s[q]
    ensures var (d, p) := (Strip(s), |Strip(s[..q])|);
            && (ValidCpf(s[q := c]) <==>
                  p < 9 && !AllSame(d[p := c]) && Blind(Weighted(d, CPF1, 9), Weighted(d, CPF2, 10), CPF1[p], CPF2[p],
                                                        Num(c) - Num(s[q])))
            && (ValidCpf(s[q := c]) ==> p == 0 || p == 5)
  {
    hide Strip, AllSame, CpfChecks, Weighted;
    StripReplace(s, q, c);
    CpfDigitChange(Strip(s), |Strip(s[..q])|, c);
  }

  predicate CnpjChecks(d: string)
    requires |d| == 14 && AllDigits(d)
  {
    CnpjDigit(Weighted(d, CNPJ1, 12)) == Num(d[12]) && CnpjDigit(Weighted(d, CNPJ2, 13)) == Num(d[13])
  }

  lemma {:induction false} WeightedPrefix(s: string, t: string, weights: seq<int>, k: nat)
    requires AllDigits(s) && AllDigits(t) && k <= |s| && k <= |t| && k <= |weights| && s[..k] == t[..k]
    ensures Weighted(s, weights, k) == Weighted(t, weights, k)
  {
    if k > 0 {
      assert s[k - 1] == s[..k][k - 1] && s[..k - 1] == s[..k][..k - 1];
      assert t[k - 1] == t[..k][k - 1] && t[..k - 1] == t[..k][..k - 1];
      WeightedPrefix(s, t, weights, k - 1);
    }
  }

  /** Comparing with the number rebuilt from its base says the same as checking each check digit. */
  lemma CnpjByDigits(s: string)
    ensures ValidCnpj(s) <==> |Strip(s)| == 14 && !AllSame(Strip(s)) && CnpjChecks(Strip(s))
  {
    hide Strip, AllSame, Weighted, CnpjDigit;
    var d := Strip(s);
    if |d| == 14 {
      var base12 := d[..12];
      WeightedPrefix(base12, d, CNPJ1, 12);
      SameRule(Weighted(d, CNPJ1, 12));
      var base13 := base12 + [DigitChar(CalcCheckDigit(base12, CNPJ1))];
      if Num(d[12]) == CalcCheckDigit(base12, CNPJ1) {
        assert base13 == d[..13];
        WeightedPrefix(base13, d, CNPJ2, 13);
        assert d == d[..13] + [d[13]];
      } else {
        assert base13[12] != d[12];
      }
    }
  }

  lemma CnpjDigitChange(d: string, p: nat, c: char)
    requires |d| == 14 && AllDigits(d) && CnpjChecks(d) && p < 14 && IsDigit(c) && c != d[p]
    ensures AllDigits(d[p := c])
    ensures CnpjChecks(d[p := c]) <==>
            p < 12 && Blind(Weighted(d, CNPJ1, 12), Weighted(d, CNPJ2, 13), CNPJ1[p], CNPJ2[p], Num(c) - Num(d[p]))
  {
    hide CnpjDigit, Blind, Weighted;
    var e := d[p := c];
    WeightedUpdate(d, CNPJ1, 12, p, c);
    WeightedUpdate(d, CNPJ2, 13, p, c);
    if p < 12 {
      MissedIffBlind(Weighted(d, CNPJ1, 12), Weighted(d, CNPJ2, 13), CNPJ1[p], CNPJ2[p], Num(c) - Num(d[p]));
    }
    if p == 12 { assert Weighted(e, CNPJ1, 12) == Weighted(d, CNPJ1, 12); }
  }

  /** A valid CNPJ with one digit replaced is still accepted exactly when the two sums are blind to the change;
      that can only happen at the first, the fifth and the ninth digit. */
  lemma CnpjWrongDigit(s: string, q: nat, c: char)
    requires ValidCnpj(s) && q < |s| && IsDigit(s[q]) && IsDigit(c) && c != s[q]
    ensures var (d, p) := (Strip(s), |Strip(s[..q])|);
            && (ValidCnpj(s[q := c]) <==>
                  p < 12 && !AllSame(d[p := c]) && Blind(Weighted(d, CNPJ1, 12), Weighted(d, CNPJ2, 13), CNPJ1[p],
                                                         CNPJ2[p], Num(c) - Num(s[q])))
            && (ValidCnpj(s[q := c]) ==> p == 0 || p == 4 || p == 8)
  {
    hide Strip, AllSame, CnpjChecks, Weighted, ValidCnpj;
    CnpjByDigits(s);
    CnpjByDigits(s[q := c]);
    StripReplace(s, q, c);
    CnpjDigitChange(Strip(s), |Strip(s[..q])|, c);
  }

  // ----- the blind positions are real -----

  /** Partial sums written out. */
  lemma {:induction false} SumsUpTo(s: string, weights: seq<int>, sums: seq<int>)
    requires AllDigits(s) && 0 < |sums| <= |s| + 1 && |sums| <= |weights| + 1 && sums[0] == 0
    requires forall i :: 0 <= i < |sums| - 1 ==> sums[i + 1] == sums[i] + Num(s[i]) * weights[i]
    ensures Weighted(s, weights, |sums| - 1) == sums[|sums| - 1]
  {
    if |sums| > 1 { SumsUpTo(s, weights, sums[..|sums| - 1]); }
  }

  lemma BlindCpfSum1(d: string)
    requires d == "10000281000"
    ensures AllDigits(d) && Weighted(d, CPF1, 9) == 55
  {
    var sums := [0, 10, 10, 10, 10, 10, 20, 52, 55, 55];
    forall i | 0 <= i < 9 ensures sums[i + 1] == sums[i] + Num(d[i]) * CPF1[i] {
      if i == 0 {} else if i == 1 {} else if i == 2 {} else if i == 3 {} else if i == 4 {}
      else if i == 5 {} else if i == 6 {} else if i == 7 {} else if i == 8 {}
    }
    SumsUpTo(d, CPF1, sums);
  }

  lemma BlindCpfSum2(d: string)
    requires d == "10000281000"
    ensures AllDigits(d) && Weighted(d, CPF2, 10) == 67
  {
    var sums := [0, 11, 11, 11, 11, 11, 23, 63, 67, 67, 67];
    forall i | 0 <= i < 10 ensures sums[i + 1] == sums[i] + Num(d[i]) * CPF2[i] {
      if i == 0 {} else if i == 1 {} else if i == 2 {} else if i == 3 {} else if i == 4 {}
      else if i == 5 {} else if i == 6 {} else if i == 7 {} else if i == 8 {} else if i == 9 {}
    }
    SumsUpTo(d, CPF2, sums);
  }

  /** At its first and at its sixth digit a valid CPF can be mistyped into another valid one. */
  lemma BlindCpf()
    ensures ValidCpf("10000281000") && ValidCpf("00000281000") && ValidCpf("10000081000")
  {
    hide Strip, Weighted;
    var d := "10000281000";
    BlindCpfSum1(d);
    BlindCpfSum2(d);
    StripDigits(d);
    assert d[0] != d[5];
    assert ValidCpf(d);
    assert d[..0] == "" && Strip("") == "" by { StripDigits(""); }
    StripDigits(d[..5]);
    assert d[0 := '0'][0] != d[0 := '0'][5] && d[5 := '0'][0] != d[5 := '0'][5];
    CpfWrongDigit(d, 0, '0');
    CpfWrongDigit(d, 5, '0');
    assert d[0 := '0'] == "00000281000" && d[5 := '0'] == "10000081000";
  }

  lemma BlindCnpjSum1(d: string)
    requires d == "20000170200000"
    ensures AllDigits(d) && Weighted(d, CNPJ1, 12) == 77
  {
    var sums := [0, 10, 10, 10, 10, 10, 18, 67, 67, 77, 77, 77, 77];
    forall i | 0 <= i < 12 ensures sums[i + 1] == sums[i] + Num(d[i]) * CNPJ1[i] {
      if i == 0 {} else if i == 1 {} else if i == 2 {} else if i == 3 {} else if i == 4 {}
      else if i == 5 {} else if i == 6 {} else if i == 7 {} else if i == 8 {} else if i == 9 {}
      else if i == 10 {} else if i == 11 {}
    }
    SumsUpTo(d, CNPJ1, sums);
  }

  lemma BlindCnpjSum2(d: string)
    requires d == "20000170200000"
    ensures AllDigits(d) && Weighted(d, CNPJ2, 13) == 89
  {
    var sums := [0, 12, 12, 12, 12, 12, 21, 77, 77, 89, 89, 89, 89, 89];
    forall i | 0 <= i < 13 ensures sums[i + 1] == sums[i] + Num(d[i]) * CNPJ2[i] {
      if i == 0 {} else if i == 1 {} else if i == 2 {} else if i == 3 {} else if i == 4 {}
      else if i == 5 {} else if i == 6 {} else if i == 7 {} else if i == 8 {} else if i == 9 {}
      else if i == 10 {} else if i == 11 {} else if i == 12 {}
    }
    SumsUpTo(d, CNPJ2, sums);
  }

  /** At its first, fifth and ninth digit a valid CNPJ can be mistyped into another valid one. */
  lemma BlindCnpj()
    ensures ValidCnpj("20000170200000") && ValidCnpj("00000170200000") && ValidCnpj("20005170200000")
            && ValidCnpj("20000170000000")
  {
    hide Strip, Weighted, ValidCnpj;
    var d := "20000170200000";
    BlindCnpjSum1(d);
    BlindCnpjSum2(d);
    StripDigits(d);
    assert d[0] != d[5];
    CnpjByDigits(d);
    assert d[..0] == "" && Strip("") == "" by { StripDigits(""); }
    StripDigits(d[..4]);
    StripDigits(d[..8]);
    assert d[0 := '0'][0] != d[0 := '0'][5] && d[4 := '5'][0] != d[4 := '5'][5] && d[8 := '0'][0] != d[8 := '0'][5];
    CnpjWrongDigit(d, 0, '0');
    CnpjWrongDigit(d, 4, '5');
    CnpjWrongDigit(d, 8, '0');
    assert d[0 := '0'] == "00000170200000" && d[4 := '5'] == "20005170200000" && d[8 := '0'] == "20000170000000";
  }
}
