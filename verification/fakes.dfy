/**
 * The fake-data helpers of the capture simulator: CNPJ numbers printed
 * through the registry mask and base codes drawn from the list of
 * federative units. The random draws are parameters: the count, the
 * numbers and the sampled positions are given, within the ranges the
 * random generator produces.
 */
module Fakes {
  import opened Wrappers
  import opened Text
  import opened Collections
  import Cnpj
  import TratamentoMigration

  /** The largest number `random.randint(0, 99999999999999)` can draw: fourteen nines. */
  const MaxCnpj: nat := 99999999999999

  /** `10^14`, one past the largest 14-digit number. */
  lemma Pow10Fourteen()
    ensures Pow10(14) == MaxCnpj + 1
  {
    assert Pow10(4) == 10000;
    assert Pow10(8) == 100000000;
    assert Pow10(12) == 1000000000000;
  }

  /** `_formatar_cnpj`: the number zero-padded to 14 digits, then masked. */
  function FormatarCnpj(valor: nat): (r: string)
    ensures |r| == |ZeroPad(valor, 14)| + 4
  {
    Cnpj.Mask(ZeroPad(valor, 14))
  }

  /** Any number the generator draws prints in the `NN.NNN.NNN/NNNN-NN` shape. */
  lemma FormatarCnpjShape(valor: nat)
    requires valor <= MaxCnpj
    ensures |FormatarCnpj(valor)| == 18
    ensures Cnpj.IsMasked(FormatarCnpj(valor))
  {
    Pow10Fourteen();
    ZeroPadLength(valor, 14);
    Cnpj.MaskShape(ZeroPad(valor, 14));
  }

  /**
   * The digits of a printed number are its 14-digit zero-padded form, and
   * they denote the number again; reading them with `_somente_digitos`
   * gives the same digits.
   */
  lemma FormatarCnpjDigits(valor: nat)
    requires valor <= MaxCnpj
    ensures OnlyDigits(FormatarCnpj(valor)) == ZeroPad(valor, 14)
    ensures ParseNat(ZeroPad(valor, 14)) == valor
    ensures TratamentoMigration.SomenteDigitos(Some(FormatarCnpj(valor))) == Some(ZeroPad(valor, 14))
  {
    Pow10Fourteen();
    ZeroPadLength(valor, 14);
    Cnpj.MaskDigits(ZeroPad(valor, 14));
    ParseZeroPad(valor, 14);
  }

  /** Two different numbers never print the same. */
  lemma FormatarCnpjInjective(a: nat, b: nat)
    requires a <= MaxCnpj && b <= MaxCnpj && a != b
    ensures FormatarCnpj(a) != FormatarCnpj(b)
  {
    FormatarCnpjDigits(a);
    FormatarCnpjDigits(b);
  }

  /** What `random.randint(0, 99999999999999)` draws, for each of one to three numbers. */
  predicate CnpjDraws(numeros: seq<nat>) {
    1 <= |numeros| <= 3 && forall i :: 0 <= i < |numeros| ==> numeros[i] <= MaxCnpj
  }

  /** `gerar_cnpjs`: each drawn number, printed, in draw order. */
  function GerarCnpjs(numeros: seq<nat>): (r: seq<string>)
    requires CnpjDraws(numeros)
    ensures 1 <= |r| <= 3 && |r| == |numeros|
    ensures forall i :: 0 <= i < |r| ==> Cnpj.IsMasked(r[i])
    ensures forall i :: 0 <= i < |r| ==> ParseNat(OnlyDigits(r[i])) == numeros[i]
  {
    forall i | 0 <= i < |numeros|
      ensures Cnpj.IsMasked(FormatarCnpj(numeros[i]))
      ensures ParseNat(OnlyDigits(FormatarCnpj(numeros[i]))) == numeros[i]
    {
      FormatarCnpjShape(numeros[i]);
      FormatarCnpjDigits(numeros[i]);
    }
    seq(|numeros|, i requires 0 <= i < |numeros| => FormatarCnpj(numeros[i]))
  }

  // ---------------------------------------------------------------- base codes

  /** The federative unit codes the bases are drawn from, in the order of the list. */
  const UfCodes: seq<string> := [
    "AC", "AL", "AM", "AP", "BA", "CE", "DF", "ES", "GO", "MA", "MG", "MS", "MT", "PA",
    "PB", "PE", "PI", "PR", "RJ", "RN", "RO", "RR", "RS", "SC", "SE", "SP", "TO", "BH", "BR"]

  /** A two-letter code as a number that orders codes alphabetically. */
  function CodeKey(c: string): int {
    if |c| == 2 then c[0] as int * 65536 + c[1] as int else -1
  }

  /** The first 27 codes are in strictly increasing alphabetical order. */
  lemma UfCodesAscending(i: nat, j: nat)
    requires i < j < 27
    ensures CodeKey(UfCodes[i]) < CodeKey(UfCodes[j])
  {
    var ks := seq(29, k requires 0 <= k < 29 => CodeKey(UfCodes[k]));
    assert forall k :: 0 <= k < 26 ==> ks[k] < ks[k + 1];
    AscendingChain(ks, i, j);
  }

  lemma {:induction false} AscendingChain(ks: seq<int>, i: nat, j: nat)
    requires i < j < |ks| && j <= 26
    requires forall k :: 0 <= k < 26 && k + 1 < |ks| ==> ks[k] < ks[k + 1]
    ensures ks[i] < ks[j]
    decreases j - i
  {
    if i + 1 < j {
      AscendingChain(ks, i + 1, j);
    }
  }

  /** No code appears twice in the list. */
  lemma UfCodesNoDup()
    ensures NoDup(UfCodes)
  {
    forall i, j | 0 <= i < j < |UfCodes|
      ensures UfCodes[i] != UfCodes[j]
    {
      if j < 27 {
        UfCodesAscending(i, j);
      } else if i < 27 {
        // "BH" and "BR" fall strictly between "BA" (position 4) and "CE" (position 5)
        if i <= 4 {
          if i < 4 { UfCodesAscending(i, 4); }
        } else {
          if i > 5 { UfCodesAscending(5, i); }
        }
      }
    }
  }

  /** What `random.sample(_UF_CODES, k)` draws: one to three distinct positions of the list. */
  predicate BaseDraws(posicoes: seq<nat>) {
    && 1 <= |posicoes| <= 3
    && (forall i :: 0 <= i < |posicoes| ==> posicoes[i] < |UfCodes|)
    && NoDup(posicoes)
  }

  /** `gerar_bases`: the codes at the sampled positions: one to three distinct codes from the list. */
  function GerarBases(posicoes: seq<nat>): (r: seq<string>)
    requires BaseDraws(posicoes)
    ensures 1 <= |r| <= 3 && |r| == |posicoes|
    ensures forall i :: 0 <= i < |r| ==> r[i] in UfCodes
    ensures NoDup(r)
  {
    var r := seq(|posicoes|, i requires 0 <= i < |posicoes| => UfCodes[posicoes[i]]);
    UfCodesNoDup();
    PickDistinct(UfCodes, posicoes, r);
    r
  }

  /** Picking a list's entries at distinct positions, from a list without repeats, picks distinct entries. */
  lemma PickDistinct<T>(codes: seq<T>, pos: seq<nat>, r: seq<T>)
    requires NoDup(codes) && NoDup(pos) && |r| == |pos|
    requires forall i :: 0 <= i < |pos| ==> pos[i] < |codes| && r[i] == codes[pos[i]]
    ensures NoDup(r)
  {
  }
}
