/**
 * CNPJ numbers (the Brazilian company registry number): the printed mask
 * `NN.NNN.NNN/NNNN-NN` and the modulo-11 check digits of the Receita
 * Federal scheme. Both the capture simulator and the fake-data helpers
 * print numbers through the same mask.
 */
module Cnpj {
  import opened Text

  // ---------------------------------------------------------------- the printed mask

  /**
   * `f"{s[:2]}.{s[2:5]}.{s[5:8]}/{s[8:12]}-{s[12:]}"`: the separators go
   * after the 2nd, 5th, 8th and 12th characters and the rest is copied.
   */
  function Mask(s: string): (r: string)
    requires |s| >= 12
    ensures |r| == |s| + 4
  {
    s[..2] + "." + s[2..5] + "." + s[5..8] + "/" + s[8..12] + "-" + s[12..]
  }

  /** The shape `NN.NNN.NNN/NNNN-NN`: 18 characters, separators in place, digits elsewhere. */
  predicate IsMasked(r: string) {
    && |r| == 18
    && r[2] == '.' && r[6] == '.' && r[10] == '/' && r[15] == '-'
    && forall i :: 0 <= i < 18 && i != 2 && i != 6 && i != 10 && i != 15 ==> IsDigit(r[i])
  }

  /** A 14-digit string masks to the printed shape. */
  lemma MaskShape(s: string)
    requires |s| == 14 && AllDigits(s)
    ensures IsMasked(Mask(s))
  {
    var r := Mask(s);
    assert forall i :: 0 <= i < 2 ==> r[i] == s[i];
    assert forall i :: 3 <= i < 6 ==> r[i] == s[i - 1];
    assert forall i :: 7 <= i < 10 ==> r[i] == s[i - 2];
    assert forall i :: 11 <= i < 15 ==> r[i] == s[i - 3];
    assert forall i :: 16 <= i < 18 ==> r[i] == s[i - 4];
  }

  /** A run of digits followed by one separator filters back to the run. */
  lemma OnlyDigitsPiece(a: string, c: char)
    requires AllDigits(a) && !IsDigit(c)
    ensures OnlyDigits(a + [c]) == a
  {
    OnlyDigitsAppend(a, [c]);
    OnlyDigitsOfDigits(a);
  }

  /** A run of digits, a separator, then text whose digits are `d`: the digits are the run then `d`. */
  lemma OnlyDigitsPieceThen(a: string, c: char, rest: string, d: string)
    requires AllDigits(a) && !IsDigit(c) && OnlyDigits(rest) == d
    ensures OnlyDigits((a + [c]) + rest) == a + d
  {
    OnlyDigitsPiece(a, c);
    OnlyDigitsAppend(a + [c], rest);
  }

  lemma SliceJoin(s: string, i: nat, j: nat)
    requires i <= j <= |s|
    ensures s[i..j] + s[j..] == s[i..]
  {
  }

  /** The mask as four runs, each followed by its separator, then the rest. */
  lemma MaskPieces(s: string)
    requires |s| >= 12
    ensures Mask(s) == (s[..2] + ".") + ((s[2..5] + ".") + ((s[5..8] + "/") + ((s[8..12] + "-") + s[12..])))
  {
  }

  /** Reading the digits back out of a masked string gives the string itself. */
  lemma MaskDigits(s: string)
    requires |s| >= 12 && AllDigits(s)
    ensures OnlyDigits(Mask(s)) == s
  {
    MaskPieces(s);
    OnlyDigitsOfDigits(s[12..]);
    var q4 := (s[8..12] + "-") + s[12..];
    OnlyDigitsPieceThen(s[8..12], '-', s[12..], s[12..]);
    SliceJoin(s, 8, 12);
    var q3 := (s[5..8] + "/") + q4;
    OnlyDigitsPieceThen(s[5..8], '/', q4, s[8..]);
    SliceJoin(s, 5, 8);
    var q2 := (s[2..5] + ".") + q3;
    OnlyDigitsPieceThen(s[2..5], '.', q3, s[5..]);
    SliceJoin(s, 2, 5);
    OnlyDigitsPieceThen(s[..2], '.', q2, s[2..]);
    SliceJoin(s, 0, 2);
  }

  // ---------------------------------------------------------------- check digits

  /** Every entry is a decimal digit. */
  predicate Digits(ds: seq<int>) {
    forall i :: 0 <= i < |ds| ==> 0 <= ds[i] <= 9
  }

  /** The characters of a sequence of decimal digits. */
  function DigitString(ds: seq<int>): (r: string)
    requires Digits(ds)
    ensures |r| == |ds| && AllDigits(r)
    ensures forall i :: 0 <= i < |ds| ==> DigitValue(r[i]) == ds[i]
  {
    seq(|ds|, i requires 0 <= i < |ds| => DigitChar(ds[i]))
  }

  /** `sum(d * p for d, p in zip(digs, pesos))`: the zip stops at the shorter list. */
  function WeightedSum(digs: seq<int>, pesos: seq<int>): int
    decreases |digs|
  {
    if digs == [] || pesos == [] then 0
    else digs[0] * pesos[0] + WeightedSum(digs[1..], pesos[1..])
  }

  /** The weights of the first and of the second check digit. */
  const FirstWeights: seq<int> := [5, 4, 3, 2, 9, 8, 7, 6, 5, 4, 3, 2]
  const SecondWeights: seq<int> := [6, 5, 4, 3, 2, 9, 8, 7, 6, 5, 4, 3, 2]

  /**
   * One check digit: 0 when the weighted sum leaves a remainder below 2
   * modulo 11, otherwise the amount that completes the sum to a multiple
   * of 11. (The sum of non-negative digits is non-negative, and for a
   * positive modulus Python's `%` and Dafny's agree anyway.)
   */
  function CheckDigit(digs: seq<int>, pesos: seq<int>): (r: int)
    ensures 0 <= r <= 9
    ensures r == 0 <==> WeightedSum(digs, pesos) % 11 < 2
    ensures r != 0 ==> (WeightedSum(digs, pesos) + r) % 11 == 0
  {
    var m := WeightedSum(digs, pesos) % 11;
    if m < 2 then 0 else 11 - m
  }

  /** The Receita Federal validity rule: 14 digits whose last two are the check digits of the rest. */
  predicate ValidDigits(c: seq<int>) {
    && |c| == 14 && Digits(c)
    && c[12] == CheckDigit(c[..12], FirstWeights)
    && c[13] == CheckDigit(c[..13], SecondWeights)
  }

  /** The branch suffix `0001` of a head office. */
  const HeadOffice: seq<int> := [0, 0, 0, 1]

  /** The 14 digits built from an 8-digit base: the base, `0001`, then the two check digits. */
  function BuildDigits(base: seq<int>): (c: seq<int>)
    requires |base| == 8 && Digits(base)
    ensures |c| == 14 && Digits(c)
    ensures c[..8] == base && c[8..12] == HeadOffice
  {
    var nums := base + HeadOffice;
    var d1 := CheckDigit(nums, FirstWeights);
    var d2 := CheckDigit(nums + [d1], SecondWeights);
    nums + [d1, d2]
  }

  /** Every number built from a base passes the validity rule. */
  lemma BuildDigitsValid(base: seq<int>)
    requires |base| == 8 && Digits(base)
    ensures ValidDigits(BuildDigits(base))
  {
    var nums := base + HeadOffice;
    var c := BuildDigits(base);
    assert c[..12] == nums;
    assert c[..13] == nums + [c[12]];
  }

  /** A valid number is determined by its first 12 digits. */
  lemma ValidDigitsDetermined(a: seq<int>, b: seq<int>)
    requires ValidDigits(a) && ValidDigits(b) && a[..12] == b[..12]
    ensures a == b
  {
    assert a[..13] == a[..12] + [a[12]];
    assert b[..13] == b[..12] + [b[12]];
    assert a == a[..13] + [a[13]];
    assert b == b[..13] + [b[13]];
  }
}
