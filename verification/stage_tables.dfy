/**
 * Stage catalogues of the two pipelines: the four "Gestão da Base" stages
 * and the seven treatment stages, their display labels, the name aliases of
 * the gestão stages, and inference of a gestão stage from a name or a
 * progress value.
 */
module StageTables {
  import opened Wrappers
  import opened Text

  // ---------------------------------------------------------------- gestão da base

  const GestaoDefinitions: map<int, string> := map[
    1 := "Etapa 1 – Captura de Plano",
    2 := "Etapa 2 – Situação Especial",
    3 := "Etapa 3 – Liquidação Anterior",
    4 := "Etapa 4 – Guia GRDE"
  ]

  const GestaoLabelPrefix: string := "Gestão da Base – "

  const GestaoLabels: map<int, string> :=
    map n | n in GestaoDefinitions :: GestaoLabelPrefix + GestaoDefinitions[n]

  /** The gestão stage a lower-case stage name stands for (`aliases.get(name)`). */
  function GestaoAlias(key: string): (r: Option<int>)
    ensures r.Some? ==> 1 <= r.value <= 4
  {
    if key == "captura" || key == "captura de plano" then Some(1)
    else if key == "situação especial" then Some(2)
    else if key == "liquidação anterior" then Some(3)
    else if key == "grde" || key == "guia grde" then Some(4)
    else None
  }

  /** Gestão labels exist for exactly stages 1-4, each the prefix followed by the definition. */
  lemma GestaoLabelsShape(n: int)
    ensures n in GestaoLabels <==> 1 <= n <= 4
    ensures n in GestaoLabels ==>
      StartsWith(GestaoLabels[n], GestaoLabelPrefix)
      && GestaoLabels[n][|GestaoLabelPrefix|..] == GestaoDefinitions[n]
  {
    if n in GestaoLabels {
      assert GestaoLabels[n] == GestaoLabelPrefix + GestaoDefinitions[n];
    }
  }

  // ---------------------------------------------------------------- tratamento

  const TratamentoDefinitions: map<int, string> := map[
    1 := "Etapa 1 – Aproveitamento de Recolhimentos",
    2 := "Etapa 2 – Substituição – Confissão x Notificação Fiscal",
    3 := "Etapa 3 – Pesquisa de Guias no SFG (PIG)",
    4 := "Etapa 4 – Lançamento de Guias no FGE (PIG)",
    5 := "Etapa 5 – Situação do Plano",
    6 := "Etapa 6 – Rescisão",
    7 := "Etapa 7 – Comunicação da Rescisão"
  ]

  const TratamentoLabelPrefix: string := "Tratamento – "

  const TratamentoLabels: map<int, string> :=
    map n | n in TratamentoDefinitions :: TratamentoLabelPrefix + TratamentoDefinitions[n]

  /** The stage table in key order, as `(id, name)` pairs (`list(definitions.items())`). */
  const TratamentoStages: seq<(int, string)> :=
    seq(7, i requires 0 <= i < 7 => (i + 1, TratamentoDefinitions[i + 1]))

  const StageCount: nat := 7

  /** Treatment labels exist for exactly stages 1-7, each the prefix followed by the definition. */
  lemma TratamentoLabelsShape(n: int)
    ensures n in TratamentoLabels <==> 1 <= n <= 7
    ensures n in TratamentoLabels ==>
      StartsWith(TratamentoLabels[n], TratamentoLabelPrefix)
      && TratamentoLabels[n][|TratamentoLabelPrefix|..] == TratamentoDefinitions[n]
  {
    if n in TratamentoLabels {
      assert TratamentoLabels[n] == TratamentoLabelPrefix + TratamentoDefinitions[n];
    }
  }

  /** The stage list enumerates the definitions in ascending id order. */
  lemma TratamentoStagesInOrder()
    ensures |TratamentoStages| == StageCount
    ensures forall i :: 0 <= i < |TratamentoStages| ==>
      TratamentoStages[i].0 == i + 1 && TratamentoStages[i].1 == TratamentoDefinitions[i + 1]
  {
  }

  // ---------------------------------------------------------------- inference

  /** The stage a progress value designates: itself, when it is a positive stage key. */
  function StageFromProgress(progresso: Option<int>): (r: Option<int>)
    ensures r.Some? <==> progresso.Some? && 1 <= progresso.value <= 4
    ensures r.Some? ==> r == progresso
  {
    if progresso.Some? && progresso.value > 0 && progresso.value in GestaoDefinitions then
      progresso
    else
      None
  }

  /** The stage a name designates: the alias of its trimmed, lower-cased form. */
  function StageFromName(etapa: Option<string>): (r: Option<int>)
    ensures r.Some? ==> 1 <= r.value <= 4
    ensures r == if etapa.Some? then GestaoAlias(Lower(Strip(etapa.value))) else None
  {
    if etapa.Some? && etapa.value != "" then
      GestaoAlias(Lower(Strip(etapa.value)))
    else
      EmptyNameHasNoAlias();
      None
  }

  /**
   * The gestão stage designated by a progress value (when it is a stage key)
   * or else by a stage name.
   */
  function InferGestaoStageNumero(etapa: Option<string>, progresso: Option<int>): (r: Option<int>)
    ensures r.Some? ==> 1 <= r.value <= 4
    ensures progresso.Some? && 1 <= progresso.value <= 4 ==> r == progresso
    ensures !(progresso.Some? && 1 <= progresso.value <= 4) ==>
      r == if etapa.Some? then GestaoAlias(Lower(Strip(etapa.value))) else None
  {
    var fromProgress := StageFromProgress(progresso);
    if fromProgress.Some? then fromProgress else StageFromName(etapa)
  }

  lemma EmptyNameHasNoAlias()
    ensures GestaoAlias(Lower(Strip(""))) == None
  {
    assert Lower(Strip("")) == "";
  }

  /** Lower-case letters and inner spaces: text that trimming and lower-casing leave alone. */
  predicate LowerWord(s: string) {
    && |s| > 0 && s[0] != ' ' && s[|s| - 1] != ' '
    && forall i :: 0 <= i < |s| ==> 'a' <= s[i] <= 'z' || s[i] == ' ' || s[i] == 'ç' || s[i] == 'ã'
  }

  lemma LowerWordNormal(s: string)
    requires LowerWord(s)
    ensures Lower(s) == s && IsStripped(s)
  {
  }

  /** Alias keys are already trimmed and lower-case. */
  lemma AliasKeyNormal(k: string)
    requires GestaoAlias(k).Some?
    ensures Lower(k) == k && IsStripped(k)
  {
    if k == "captura" || k == "captura de plano" {
      CapturaWords();
    } else if k == "situação especial" || k == "liquidação anterior" {
      AccentedWords();
    } else {
      GrdeWords();
    }
    LowerWordNormal(k);
  }

  lemma CapturaWords()
    ensures LowerWord("captura") && LowerWord("captura de plano")
  {
  }

  lemma AccentedWords()
    ensures LowerWord("situação especial") && LowerWord("liquidação anterior")
  {
  }

  lemma GrdeWords()
    ensures LowerWord("grde") && LowerWord("guia grde")
  {
  }

  /** Any alias, padded with whitespace and with no progress value, resolves to its stage. */
  lemma InferFromPaddedAlias(p: string, k: string, q: string)
    requires AllSpace(p) && AllSpace(q)
    requires GestaoAlias(k).Some?
    ensures InferGestaoStageNumero(Some(p + k + q), None) == GestaoAlias(k)
  {
    StripPadding(p, k, q);
    AliasKeyNormal(k);
    StripOfStripped(k);
  }

  /**
   * No stage is inferred exactly when the progress value is not a gestão
   * stage and the name is missing or, trimmed and lower-cased, no alias.
   */
  lemma InferUnknown(etapa: Option<string>, progresso: Option<int>)
    ensures InferGestaoStageNumero(etapa, progresso).None? <==>
      && !(progresso.Some? && 1 <= progresso.value <= 4)
      && (etapa.None? || GestaoAlias(Lower(Strip(etapa.value))).None?)
  {
  }

  /** The treatment dossier's name is no gestão alias: with no usable progress it infers nothing. */
  lemma InferDossie(progresso: int)
    requires !(1 <= progresso <= 4)
    ensures InferGestaoStageNumero(Some("Dossiê"), Some(progresso)) == None
  {
    DossieKey();
    AliasInitial(Lower(Strip("Dossiê")));
  }

  /** The name "Dossiê", trimmed and lower-cased, starts with 'd'. */
  lemma DossieKey()
    ensures |Lower(Strip("Dossiê"))| > 0 && Lower(Strip("Dossiê"))[0] == 'd'
  {
    assert IsStripped("Dossiê");
    StripOfStripped("Dossiê");
  }

  /** Every alias begins with 'c', 'g', 'l' or 's'. */
  lemma AliasInitial(k: string)
    requires |k| > 0 && k[0] != 'c' && k[0] != 'g' && k[0] != 'l' && k[0] != 's'
    ensures GestaoAlias(k) == None
  {
  }
}
