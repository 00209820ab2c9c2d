/**
 * The standard rescission note ("bloco de notas"): a fixed template of
 * sections and labelled lines, filled in from a dictionary of notes keyed
 * by name. Blank notes keep their label lines; optional content lines only
 * appear when there is something to show.
 */
module Notepad {
  import opened Wrappers
  import opened Text

  /**
   * The notes dictionary. A value is either Python's `None` or the text of
   * the value; `str(value)` of a non-string value is taken as already
   * applied by the caller.
   */
  type Notes = map<string, Option<string>>

  // ---------------------------------------------------------------- the keys of the template

  const KPlano := "PLANO"
  const KCnpjCei := "CNPJ_CEI"
  const KRazaoSocial := "RAZAO_SOCIAL"
  const KAtrasos := "E50H_PARCELAS_ATRASO"
  const KTipo := "E544_TIPO"
  const KDataSolicitacao := "E544_DATA_SOLICITACAO"
  const KPeriodo := "E544_PERIODO"
  const KCnpjs := "E544_CNPJS"
  const KBases := "E398_BASES"
  const KAnalise := "E555_ANALISE_OUTRO_PLANO"
  const KAproveitamento := "E213_APROVEITAMENTO_RECOLHIMENTOS"
  const KSubstituicao := "E206_SUBSTITUICAO_CONFISSAO_NOTIFICACAO"
  const KOc21 := "OC21_RESULTADOS"
  const KOc21Exclusao := "OC21_EXCLUSAO_GUIAS"
  const KOc21Tabela := "OC21_TABELA"
  const KPesquisaGuias := "PESQUISA_GUIAS_SFG"
  const KLancamentoGuias := "LANCAMENTO_GUIAS_FGE"
  const KDuplicidade := "PESQUISA_DUPLICIDADE"
  const KDataRescisao := "E554_DATA_RESCISAO_FGE"
  const KDataComunicacao := "E554_DATA_COMUNICACAO"
  const KMetodoComunicacao := "E554_METODO_COMUNICACAO"
  const KNsuOuEmail := "E554_NSU_OU_EMAIL"
  const KNomeDossie := "E554_NOME_DOSSIE"
  const KDataFinalizacao := "E554_DATA_FINALIZACAO_SIREP"
  const KObservacoes := "OUTRAS_OBSERVACOES"

  /** Every key the template reads. */
  const TemplateKeys: set<string> := {
    KPlano, KCnpjCei, KRazaoSocial, KAtrasos, KTipo, KDataSolicitacao, KPeriodo,
    KCnpjs, KBases, KAnalise, KAproveitamento, KSubstituicao, KOc21, KOc21Exclusao,
    KOc21Tabela, KPesquisaGuias, KLancamentoGuias, KDuplicidade, KDataRescisao,
    KDataComunicacao, KMetodoComunicacao, KNsuOuEmail, KNomeDossie, KDataFinalizacao,
    KObservacoes
  }

  // ---------------------------------------------------------------- reading one note

  /**
   * The inner `g(key)`: a missing key and `None` both read as the empty
   * text; anything else reads as its text with surrounding whitespace
   * removed.
   */
  function Note(notes: Notes, key: string): (r: string)
    ensures IsStripped(r)
    ensures key in notes && notes[key].Some? ==> |r| <= |notes[key].value|
  {
    if key !in notes then ""
    else match notes[key]
      case None => ""
      case Some(v) => Strip(v)
  }

  /** Every note the template uses, read once. */
  datatype Fields = Fields(
    plano: string, cnpjCei: string, razaoSocial: string,
    atrasos: string,
    tipo: string, dataSolicitacao: string, periodo: string, cnpjs: string,
    bases: string,
    analise: string, aproveitamento: string, substituicao: string,
    oc21: string, oc21Exclusao: string, oc21Tabela: string,
    pesquisaGuias: string, lancamentoGuias: string, duplicidade: string,
    dataRescisao: string, dataComunicacao: string, metodoComunicacao: string,
    nsuOuEmail: string, nomeDossie: string, dataFinalizacao: string,
    observacoes: string)

  /** The template's notes read from the dictionary. */
  function ReadFields(notes: Notes): (f: Fields)
    ensures f.plano == Note(notes, KPlano) && f.bases == Note(notes, KBases)
    ensures f.oc21 == Note(notes, KOc21) && f.oc21Exclusao == Note(notes, KOc21Exclusao)
  {
    Fields(
      Note(notes, KPlano), Note(notes, KCnpjCei), Note(notes, KRazaoSocial),
      Note(notes, KAtrasos),
      Note(notes, KTipo), Note(notes, KDataSolicitacao), Note(notes, KPeriodo), Note(notes, KCnpjs),
      Note(notes, KBases),
      Note(notes, KAnalise), Note(notes, KAproveitamento), Note(notes, KSubstituicao),
      Note(notes, KOc21), Note(notes, KOc21Exclusao), Note(notes, KOc21Tabela),
      Note(notes, KPesquisaGuias), Note(notes, KLancamentoGuias), Note(notes, KDuplicidade),
      Note(notes, KDataRescisao), Note(notes, KDataComunicacao), Note(notes, KMetodoComunicacao),
      Note(notes, KNsuOuEmail), Note(notes, KNomeDossie), Note(notes, KDataFinalizacao),
      Note(notes, KObservacoes))
  }

  // ---------------------------------------------------------------- str.strip("\n")

  /** `s.lstrip(c)` for one character. */
  function LStripChar(s: string, c: char): (r: string)
    ensures |r| <= |s| && r == s[|s| - |r|..]
    ensures r == [] || r[0] != c
    ensures forall k :: 0 <= k < |s| - |r| ==> s[k] == c
    decreases |s|
  {
    if s != [] && s[0] == c then LStripChar(s[1..], c) else s
  }

  /** `s.rstrip(c)` for one character. */
  function RStripChar(s: string, c: char): (r: string)
    ensures |r| <= |s| && r == s[..|r|]
    ensures r == [] || r[|r| - 1] != c
    ensures forall k :: |r| <= k < |s| ==> s[k] == c
    decreases |s|
  {
    if s != [] && s[|s| - 1] == c then RStripChar(s[..|s| - 1], c) else s
  }

  /** `s.strip(c)` for one character: the longest slice without `c` at either end. */
  function StripChar(s: string, c: char): (r: string)
    ensures |r| <= |s|
    ensures r == [] || (r[0] != c && r[|r| - 1] != c)
  {
    var l := LStripChar(s, c);
    var r := RStripChar(l, c);
    assert r == [] || r[0] == l[0];
    r
  }

  /** Stripping a whitespace character from a text already stripped of whitespace changes nothing. */
  lemma StripCharOfStripped(s: string, c: char)
    requires IsStripped(s) && IsSpace(c)
    ensures StripChar(s, c) == s
  {
    assert LStripChar(s, c) == s;
  }

  // ---------------------------------------------------------------- the template

  /**
   * The fixed texts of the note: section titles, label prefixes and the
   * separator rule. The note itself uses `Standard`; the layout functions
   * take the texts as a parameter so that the properties below hold for
   * any choice of them.
   */
  datatype Template = Template(
    header: string, rule: string,
    plano: string, cnpjCei: string, razaoSocial: string,
    atrasosTitle: string, atrasosColumns: string,
    detalhesTitle: string, tipo: string, dataSolicitacao: string, periodo: string, cnpjs: string,
    basesTitle: string, bases: string,
    analiseTitle: string, aproveitamentoTitle: string, substituicaoTitle: string,
    oc21Title: string, pesquisaGuiasTitle: string, lancamentoGuiasTitle: string,
    duplicidadeTitle: string,
    rescisaoTitle: string, dataRescisao: string, dataComunicacao: string,
    metodoComunicacao: string, nsuOuEmail: string, nomeDossie: string, dataFinalizacao: string,
    observacoesTitle: string)

  /** The texts of the standard note; the rule is 81 equals signs. */
  const Standard := Template(
    "DEPURAÇÃO PARCELAMENTO PASSÍVEL DE RESCISÃO",
    "=================================================================================",
    "PLANO: ", "CNPJ/CEI: ", "RAZÃO SOCIAL: ",
    "E50H – PARCELAS EM ATRASO", "Parcela Valor Parcela Atualizado Data Vencimento",
    "E544 – DETALHES DO PARCELAMENTO", "TIPO: ", "DATA DE SOLICITAÇÃO: ", "PERÍODO: ", "CNPJ:",
    "E398 – CONSULTA BASES MATRIZ E FILIAIS", "BASES: ",
    "E555 – ANÁLISE DE OUTRO PLANO EM DIA",
    "E213 – APROVEITAMENTO DE RECOLHIMENTOS",
    "E206 – SUBSTITUIÇÃO – CONFISSÃO x NOTIFICAÇÃO FISCAL",
    "PESQUISA DE OCORRÊNCIAS 21", "PESQUISA DE GUIAS NO SFG", "LANÇAMENTO DE GUIAS NO FGE",
    "PESQUISA DE DUPLICIDADE",
    "E554 - RESCISÃO", "DATA DA RESCISÃO NO FGE: ", "DATA DA COMUNICAÇÃO: ",
    "MÉTODO DE COMUNICAÇÃO (CNS/EMAIL): ", "NSU OU ENDEREÇO DE EMAIL: ",
    "NOME DO DOSSIÊ: ", "DATA DE FINALIZAÇÃO NO SIREP: ",
    "OUTRAS OBSERVAÇÕES (que julgar necessárias)")

  /** No fixed text is blank: every title, label and the rule has at least one character. */
  predicate NonBlank(t: Template) {
    && |t.header| > 0 && |t.rule| > 0
    && |t.plano| > 0 && |t.cnpjCei| > 0 && |t.razaoSocial| > 0
    && |t.atrasosTitle| > 0 && |t.atrasosColumns| > 0
    && |t.detalhesTitle| > 0 && |t.tipo| > 0 && |t.dataSolicitacao| > 0 && |t.periodo| > 0
    && |t.cnpjs| > 0 && |t.basesTitle| > 0 && |t.bases| > 0
    && |t.analiseTitle| > 0 && |t.aproveitamentoTitle| > 0 && |t.substituicaoTitle| > 0
    && |t.oc21Title| > 0 && |t.pesquisaGuiasTitle| > 0 && |t.lancamentoGuiasTitle| > 0
    && |t.duplicidadeTitle| > 0
    && |t.rescisaoTitle| > 0 && |t.dataRescisao| > 0 && |t.dataComunicacao| > 0
    && |t.metodoComunicacao| > 0 && |t.nsuOuEmail| > 0 && |t.nomeDossie| > 0
    && |t.dataFinalizacao| > 0 && |t.observacoesTitle| > 0
  }

  /** A content line that is only added when the note is not blank. */
  function Optional(v: string): (r: seq<string>)
    ensures |r| <= 1
    ensures v in r <==> v != ""
    ensures |r| == 1 ==> r[0] == v
  {
    if v == "" then [] else [v]
  }

  /** The identification block: header, then plan number, CNPJ/CEI and company name. */
  function Identification(t: Template, f: Fields): (ls: seq<string>)
    ensures |ls| == 6 && ls[0] == t.header
  {
    [t.header, t.rule, t.plano + f.plano, t.cnpjCei + f.cnpjCei, t.razaoSocial + f.razaoSocial, t.rule]
  }

  /** A section with a title line, an optional content line and the closing rule. */
  function Titled(t: Template, title: string, v: string): seq<string> {
    [title] + Optional(v) + [t.rule]
  }

  function Atrasos(t: Template, f: Fields): seq<string> {
    [t.atrasosTitle, t.atrasosColumns] + Optional(f.atrasos) + [t.rule]
  }

  function Detalhes(t: Template, f: Fields): seq<string> {
    [t.detalhesTitle, t.tipo + f.tipo, t.dataSolicitacao + f.dataSolicitacao, t.periodo + f.periodo, t.cnpjs]
    + Optional(f.cnpjs) + [t.rule]
  }

  /**
   * The bases section: a one-line value goes on the "BASES:" line itself;
   * a value with line breaks leaves that line bare and follows it.
   */
  function Bases(t: Template, bs: string): seq<string> {
    var inline := Strip(if bs != "" && '\n' !in bs then bs else "");
    [t.basesTitle, t.bases + inline]
    + (if bs != "" && '\n' in bs then [bs] else [])
    + [t.rule]
  }

  function Analyses(t: Template, f: Fields): seq<string> {
    Titled(t, t.analiseTitle, f.analise)
    + Titled(t, t.aproveitamentoTitle, f.aproveitamento)
    + Titled(t, t.substituicaoTitle, f.substituicao)
  }

  /** The occurrence-21 section: the guide exclusion is only shown under a non-blank result. */
  function Ocorrencias(t: Template, f: Fields): seq<string> {
    [t.oc21Title]
    + (if f.oc21 != "" then [f.oc21] + Optional(f.oc21Exclusao) else [])
    + Optional(f.oc21Tabela)
    + [t.rule]
  }

  /** The occurrence-21, guide and duplicity searches. */
  function Searches(t: Template, f: Fields): seq<string> {
    Ocorrencias(t, f)
    + Titled(t, t.pesquisaGuiasTitle, f.pesquisaGuias)
    + Titled(t, t.lancamentoGuiasTitle, f.lancamentoGuias)
    + Titled(t, t.duplicidadeTitle, f.duplicidade)
  }

  function Rescisao(t: Template, f: Fields): seq<string> {
    [t.rescisaoTitle,
     t.dataRescisao + f.dataRescisao,
     t.dataComunicacao + f.dataComunicacao,
     t.metodoComunicacao + f.metodoComunicacao,
     t.nsuOuEmail + f.nsuOuEmail,
     t.nomeDossie + f.nomeDossie,
     t.dataFinalizacao + f.dataFinalizacao,
     t.rule]
  }

  /** The observations: the note once more stripped of line breaks at its ends. */
  function Observacoes(t: Template, f: Fields): seq<string> {
    [t.observacoesTitle] + Optional(StripChar(f.observacoes, '\n'))
  }

  /** The sections copied from the E50H, E544, E398, E555, E213 and E206 screens. */
  function Screens(t: Template, f: Fields): seq<string> {
    Atrasos(t, f) + Detalhes(t, f) + Bases(t, f.bases) + Analyses(t, f)
  }

  /** The lines of the note, in template order. */
  function Lines(t: Template, f: Fields): (ls: seq<string>)
    ensures |ls| >= 2 && ls[0] == t.header
  {
    var id := Identification(t, f);
    var rest := Screens(t, f) + Searches(t, f) + Rescisao(t, f) + Observacoes(t, f);
    assert (id + rest)[0] == id[0];
    id + rest
  }

  /** The note for any choice of fixed texts: its lines joined by line breaks, plus a final one. */
  function Render(t: Template, notes: Notes): (r: string)
    ensures |r| > |t.header| && r[..|t.header| + 1] == t.header + "\n"
    ensures r[|r| - 1] == '\n'
  {
    var ls := Lines(t, ReadFields(notes));
    JoinHead(ls);
    Join("\n", ls) + "\n"
  }

  /** `build_notepad_txt`: the standard note; it opens with the header line and ends with a line break. */
  function BuildNotepadTxt(notes: Notes): (r: string)
    ensures |r| > |Standard.header| && r[..|Standard.header| + 1] == Standard.header + "\n"
    ensures r[|r| - 1] == '\n'
  {
    Render(Standard, notes)
  }

  /** The text of a list of two or more lines starts with its first line and a break. */
  lemma JoinHead(ls: seq<string>)
    requires |ls| >= 2
    ensures Join("\n", ls) + "\n" == ls[0] + "\n" + (Join("\n", ls[1..]) + "\n")
  {
  }

  // ---------------------------------------------------------------- the joined text

  /** Every line followed by its own line break. */
  function Terminated(ls: seq<string>): (r: string)
    ensures |r| >= |ls|
    decreases |ls|
  {
    if ls == [] then "" else ls[0] + "\n" + Terminated(ls[1..])
  }

  /** Joining with line breaks and adding one more terminates every line, the last one included. */
  lemma {:induction false} JoinTerminated(ls: seq<string>)
    requires ls != []
    ensures Join("\n", ls) + "\n" == Terminated(ls)
    decreases |ls|
  {
    if |ls| > 1 {
      JoinTerminated(ls[1..]);
    }
  }

  /** The note is its lines, each ended by a line break. */
  lemma NotepadLines(notes: Notes)
    ensures BuildNotepadTxt(notes) == Terminated(Lines(Standard, ReadFields(notes)))
  {
    JoinTerminated(Lines(Standard, ReadFields(notes)));
  }

  // ---------------------------------------------------------------- properties of the note

  /** The standard texts are all non-blank. */
  lemma StandardNonBlank()
    ensures NonBlank(Standard)
  {
  }

  /** Two dictionaries that read the same on every template key give the same fields. */
  lemma ReadFieldsAgree(n1: Notes, n2: Notes)
    requires forall key :: key in TemplateKeys ==> Note(n1, key) == Note(n2, key)
    ensures ReadFields(n1) == ReadFields(n2)
  {
  }

  /** Keys the template does not name have no effect on the note, whether added, changed or removed. */
  lemma NotepadUnknownKey(t: Template, notes: Notes, k: string, v: Option<string>)
    requires k !in TemplateKeys
    ensures Render(t, notes[k := v]) == Render(t, notes)
    ensures Render(t, notes - {k}) == Render(t, notes)
  {
    forall key | key in TemplateKeys
      ensures Note(notes[k := v], key) == Note(notes, key)
      ensures Note(notes - {k}, key) == Note(notes, key)
    {
      NoteUpdateOther(notes, k, v, key);
      NoteRemoveOther(notes, k, key);
    }
    ReadFieldsAgree(notes[k := v], notes);
    ReadFieldsAgree(notes - {k}, notes);
  }

  /** A note set to `None`, a note set to the empty text and a missing note all render alike. */
  lemma NotepadNoneIsBlank(t: Template, notes: Notes, k: string)
    ensures Render(t, notes[k := None]) == Render(t, notes - {k})
    ensures Render(t, notes[k := Some("")]) == Render(t, notes - {k})
  {
    forall key
      ensures Note(notes[k := None], key) == Note(notes - {k}, key)
      ensures Note(notes[k := Some("")], key) == Note(notes - {k}, key)
    {
      if key == k {
        NoteBlankValues(notes, k);
      } else {
        NoteUpdateOther(notes, k, None, key);
        NoteUpdateOther(notes, k, Some(""), key);
        NoteRemoveOther(notes, k, key);
      }
    }
    ReadFieldsAgree(notes[k := None], notes - {k});
    ReadFieldsAgree(notes[k := Some("")], notes - {k});
  }

  /** `None`, the empty text and no entry all read as the empty text. */
  lemma NoteBlankValues(notes: Notes, k: string)
    ensures Note(notes[k := None], k) == "" && Note(notes - {k}, k) == ""
    ensures Note(notes[k := Some("")], k) == ""
  {
    assert Strip("") == "";
  }

  /** Removing one key leaves the reading of every other key alone. */
  lemma NoteRemoveOther(notes: Notes, k: string, key: string)
    requires key != k
    ensures Note(notes - {k}, key) == Note(notes, key)
  {
  }

  /** Only a note's text without surrounding whitespace reaches the output. */
  lemma NotepadStripsNotes(t: Template, notes: Notes, k: string, v: string)
    ensures Render(t, notes[k := Some(v)]) == Render(t, notes[k := Some(Strip(v))])
  {
    var n1, n2 := notes[k := Some(v)], notes[k := Some(Strip(v))];
    forall key
      ensures Note(n1, key) == Note(n2, key)
    {
      if key == k {
        NoteStripValue(notes, k, v);
      } else {
        NoteUpdateOther(notes, k, Some(v), key);
        NoteUpdateOther(notes, k, Some(Strip(v)), key);
      }
    }
    ReadFieldsAgree(n1, n2);
  }

  /** Writing one key leaves the reading of every other key alone. */
  lemma NoteUpdateOther(notes: Notes, k: string, v: Option<string>, key: string)
    requires key != k
    ensures Note(notes[k := v], key) == Note(notes, key)
  {
  }

  /** A note and its stripped text read the same. */
  lemma NoteStripValue(notes: Notes, k: string, v: string)
    ensures Note(notes[k := Some(v)], k) == Note(notes[k := Some(Strip(v))], k)
  {
    StripIdempotent(v);
  }

  /** With a blank occurrence-21 result the guide exclusion is not shown, whatever it holds. */
  lemma LinesIgnoreExclusao(t: Template, f: Fields, x: string)
    requires f.oc21 == ""
    ensures Lines(t, f.(oc21Exclusao := x)) == Lines(t, f)
  {
    var g := f.(oc21Exclusao := x);
    assert Ocorrencias(t, g) == Ocorrencias(t, f);
    assert Searches(t, g) == Searches(t, f);
    assert Screens(t, g) == Screens(t, f);
  }

  /** Setting the guide exclusion note changes only that field. */
  lemma ReadFieldsSetExclusao(notes: Notes, v: Option<string>)
    ensures ReadFields(notes[KOc21Exclusao := v])
         == ReadFields(notes).(oc21Exclusao := Note(notes[KOc21Exclusao := v], KOc21Exclusao))
  {
    var n1 := notes[KOc21Exclusao := v];
    forall key | key != KOc21Exclusao
      ensures Note(n1, key) == Note(notes, key)
    {
      NoteUpdateOther(notes, KOc21Exclusao, v, key);
    }
    ReadFieldsAgreeExcept(n1, notes);
  }

  /** Dictionaries that read the same on every key but the guide exclusion give the same fields but that one. */
  lemma ReadFieldsAgreeExcept(n1: Notes, n2: Notes)
    requires forall key :: key != KOc21Exclusao ==> Note(n1, key) == Note(n2, key)
    ensures ReadFields(n1) == ReadFields(n2).(oc21Exclusao := Note(n1, KOc21Exclusao))
  {
  }

  /** Dictionaries whose fields lay out the same lines render the same note. */
  lemma RenderAgree(t: Template, n1: Notes, n2: Notes)
    requires Lines(t, ReadFields(n1)) == Lines(t, ReadFields(n2))
    ensures Render(t, n1) == Render(t, n2)
  {
  }

  /** With a blank occurrence-21 result, the guide exclusion note has no effect on the note. */
  lemma NotepadExclusaoNeedsResultados(t: Template, notes: Notes, v: Option<string>)
    requires Note(notes, KOc21) == ""
    ensures Render(t, notes[KOc21Exclusao := v]) == Render(t, notes)
  {
    var n1 := notes[KOc21Exclusao := v];
    ReadFieldsSetExclusao(notes, v);
    LinesIgnoreExclusao(t, ReadFields(notes), Note(n1, KOc21Exclusao));
    RenderAgree(t, n1, notes);
  }

  /** A titled section holds its note exactly when the note is not blank, and has one line more for it. */
  lemma TitledShown(t: Template, title: string, v: string)
    requires |title| > 0 && |t.rule| > 0
    ensures v in Titled(t, title, v) <==> v != ""
    ensures |Titled(t, title, v)| == if v == "" then 2 else 3
  {
  }

  /** A line is in the note exactly when it is in one of its sections. */
  lemma InLines(t: Template, f: Fields, x: string)
    ensures x in Lines(t, f) <==>
      x in Identification(t, f) || x in Screens(t, f) || x in Searches(t, f)
      || x in Rescisao(t, f) || x in Observacoes(t, f)
  {
    var rest := Screens(t, f) + Searches(t, f) + Rescisao(t, f) + Observacoes(t, f);
    assert Lines(t, f) == Identification(t, f) + rest;
  }

  /** A line is in the screen sections exactly when it is in one of them. */
  lemma InScreens(t: Template, f: Fields, x: string)
    ensures x in Screens(t, f) <==>
      x in Atrasos(t, f) || x in Detalhes(t, f) || x in Bases(t, f.bases) || x in Analyses(t, f)
  {
  }

  /** Every line has at least one character. */
  predicate NoEmptyLines(ls: seq<string>) {
    "" !in ls
  }

  lemma NoEmptyLinesAppend(a: seq<string>, b: seq<string>)
    requires NoEmptyLines(a) && NoEmptyLines(b)
    ensures NoEmptyLines(a + b)
  {
  }

  /** Neither a blank optional line nor the closing rule of a titled section is empty. */
  lemma TitledNoEmptyLines(t: Template, title: string, v: string)
    requires |title| > 0 && |t.rule| > 0
    ensures NoEmptyLines(Titled(t, title, v))
  {
  }

  lemma AnalysesNoEmptyLines(t: Template, f: Fields)
    requires NonBlank(t)
    ensures NoEmptyLines(Analyses(t, f))
  {
    var a1 := Titled(t, t.analiseTitle, f.analise);
    var a2 := Titled(t, t.aproveitamentoTitle, f.aproveitamento);
    var a3 := Titled(t, t.substituicaoTitle, f.substituicao);
    TitledNoEmptyLines(t, t.analiseTitle, f.analise);
    TitledNoEmptyLines(t, t.aproveitamentoTitle, f.aproveitamento);
    TitledNoEmptyLines(t, t.substituicaoTitle, f.substituicao);
    NoEmptyLinesAppend(a1, a2);
    NoEmptyLinesAppend(a1 + a2, a3);
  }

  lemma ScreensNoEmptyLines(t: Template, f: Fields)
    requires NonBlank(t)
    ensures NoEmptyLines(Screens(t, f))
  {
    var s1, s2, s3 := Atrasos(t, f), Detalhes(t, f), Bases(t, f.bases);
    AtrasosNoEmptyLines(t, f);
    DetalhesNoEmptyLines(t, f);
    BasesNoEmptyLines(t, f.bases);
    AnalysesNoEmptyLines(t, f);
    NoEmptyLinesAppend(s1, s2);
    NoEmptyLinesAppend(s1 + s2, s3);
    NoEmptyLinesAppend(s1 + s2 + s3, Analyses(t, f));
  }

  lemma OptionalNoEmptyLines(v: string)
    ensures NoEmptyLines(Optional(v))
  {
  }

  lemma AtrasosNoEmptyLines(t: Template, f: Fields)
    requires |t.atrasosTitle| > 0 && |t.atrasosColumns| > 0 && |t.rule| > 0
    ensures NoEmptyLines(Atrasos(t, f))
  {
    var a := [t.atrasosTitle, t.atrasosColumns];
    assert NoEmptyLines(a) by { assert a[0] != "" && a[1] != ""; }
    OptionalNoEmptyLines(f.atrasos);
    NoEmptyLinesAppend(a, Optional(f.atrasos));
    NoEmptyLinesAppend(a + Optional(f.atrasos), [t.rule]);
  }

  lemma DetalhesNoEmptyLines(t: Template, f: Fields)
    requires |t.detalhesTitle| > 0 && |t.tipo| > 0 && |t.dataSolicitacao| > 0
    requires |t.periodo| > 0 && |t.cnpjs| > 0 && |t.rule| > 0
    ensures NoEmptyLines(Detalhes(t, f))
  {
    var a := [t.detalhesTitle, t.tipo + f.tipo, t.dataSolicitacao + f.dataSolicitacao, t.periodo + f.periodo, t.cnpjs];
    assert NoEmptyLines(a) by {
      assert a[0] != "" && a[1] != "" && a[2] != "" && a[3] != "" && a[4] != "";
    }
    OptionalNoEmptyLines(f.cnpjs);
    NoEmptyLinesAppend(a, Optional(f.cnpjs));
    NoEmptyLinesAppend(a + Optional(f.cnpjs), [t.rule]);
  }

  lemma BasesNoEmptyLines(t: Template, bs: string)
    requires |t.basesTitle| > 0 && |t.bases| > 0 && |t.rule| > 0
    ensures NoEmptyLines(Bases(t, bs))
  {
    var inline := Strip(if bs != "" && '\n' !in bs then bs else "");
    var a := [t.basesTitle, t.bases + inline];
    assert NoEmptyLines(a) by { assert a[0] != "" && a[1] != ""; }
    var b := if bs != "" && '\n' in bs then [bs] else [];
    assert NoEmptyLines(b);
    NoEmptyLinesAppend(a, b);
    NoEmptyLinesAppend(a + b, [t.rule]);
  }

  lemma SearchesNoEmptyLines(t: Template, f: Fields)
    requires NonBlank(t)
    ensures NoEmptyLines(Searches(t, f))
  {
    var o := Ocorrencias(t, f);
    var g1 := Titled(t, t.pesquisaGuiasTitle, f.pesquisaGuias);
    var g2 := Titled(t, t.lancamentoGuiasTitle, f.lancamentoGuias);
    var g3 := Titled(t, t.duplicidadeTitle, f.duplicidade);
    assert NoEmptyLines(o);
    TitledNoEmptyLines(t, t.pesquisaGuiasTitle, f.pesquisaGuias);
    TitledNoEmptyLines(t, t.lancamentoGuiasTitle, f.lancamentoGuias);
    TitledNoEmptyLines(t, t.duplicidadeTitle, f.duplicidade);
    NoEmptyLinesAppend(o, g1);
    NoEmptyLinesAppend(o + g1, g2);
    NoEmptyLinesAppend(o + g1 + g2, g3);
  }

  /** With no blank fixed text, the note never has an empty line: blank notes only leave their labels. */
  lemma NoEmptyLine(t: Template, f: Fields)
    requires NonBlank(t)
    ensures NoEmptyLines(Lines(t, f))
  {
    var id, s1, s2, s3, s4 := Identification(t, f), Screens(t, f), Searches(t, f), Rescisao(t, f), Observacoes(t, f);
    IdentificationNoEmptyLines(t, f);
    RescisaoNoEmptyLines(t, f);
    ObservacoesNoEmptyLines(t, f);
    ScreensNoEmptyLines(t, f);
    SearchesNoEmptyLines(t, f);
    NoEmptyLinesAppend(s1, s2);
    NoEmptyLinesAppend(s1 + s2, s3);
    NoEmptyLinesAppend(s1 + s2 + s3, s4);
    NoEmptyLinesAppend(id, s1 + s2 + s3 + s4);
    assert Lines(t, f) == id + (s1 + s2 + s3 + s4);
  }

  lemma IdentificationNoEmptyLines(t: Template, f: Fields)
    requires |t.header| > 0 && |t.rule| > 0 && |t.plano| > 0 && |t.cnpjCei| > 0 && |t.razaoSocial| > 0
    ensures NoEmptyLines(Identification(t, f))
  {
    var a := Identification(t, f);
    assert a[0] != "" && a[1] != "" && a[2] != "" && a[3] != "" && a[4] != "" && a[5] != "";
  }

  lemma RescisaoNoEmptyLines(t: Template, f: Fields)
    requires |t.rescisaoTitle| > 0 && |t.dataRescisao| > 0 && |t.dataComunicacao| > 0
    requires |t.metodoComunicacao| > 0 && |t.nsuOuEmail| > 0 && |t.nomeDossie| > 0
    requires |t.dataFinalizacao| > 0 && |t.rule| > 0
    ensures NoEmptyLines(Rescisao(t, f))
  {
    var a := Rescisao(t, f);
    assert a[0] != "" && a[1] != "" && a[2] != "" && a[3] != "";
    assert a[4] != "" && a[5] != "" && a[6] != "" && a[7] != "";
  }

  lemma ObservacoesNoEmptyLines(t: Template, f: Fields)
    requires |t.observacoesTitle| > 0
    ensures NoEmptyLines(Observacoes(t, f))
  {
    OptionalNoEmptyLines(StripChar(f.observacoes, '\n'));
    NoEmptyLinesAppend([t.observacoesTitle], Optional(StripChar(f.observacoes, '\n')));
  }

  /** Every optional content line is in the note exactly when its note is not blank. */
  lemma OptionalShown(t: Template, f: Fields)
    requires NonBlank(t)
    ensures f.atrasos in Lines(t, f) <==> f.atrasos != ""
    ensures f.cnpjs in Lines(t, f) <==> f.cnpjs != ""
    ensures f.analise in Lines(t, f) <==> f.analise != ""
    ensures f.aproveitamento in Lines(t, f) <==> f.aproveitamento != ""
    ensures f.substituicao in Lines(t, f) <==> f.substituicao != ""
    ensures f.oc21 in Lines(t, f) <==> f.oc21 != ""
    ensures f.oc21Tabela in Lines(t, f) <==> f.oc21Tabela != ""
    ensures f.pesquisaGuias in Lines(t, f) <==> f.pesquisaGuias != ""
    ensures f.lancamentoGuias in Lines(t, f) <==> f.lancamentoGuias != ""
    ensures f.duplicidade in Lines(t, f) <==> f.duplicidade != ""
  {
    NoEmptyLine(t, f);
    ScreenNotesShown(t, f);
    SearchNotesShown(t, f);
  }

  lemma ScreenNotesShown(t: Template, f: Fields)
    ensures f.atrasos != "" ==> f.atrasos in Lines(t, f)
    ensures f.cnpjs != "" ==> f.cnpjs in Lines(t, f)
    ensures f.analise != "" ==> f.analise in Lines(t, f)
    ensures f.aproveitamento != "" ==> f.aproveitamento in Lines(t, f)
    ensures f.substituicao != "" ==> f.substituicao in Lines(t, f)
  {
    InLines(t, f, f.atrasos);
    InLines(t, f, f.cnpjs);
    InLines(t, f, f.analise);
    InLines(t, f, f.aproveitamento);
    InLines(t, f, f.substituicao);
    InScreens(t, f, f.atrasos);
    InScreens(t, f, f.cnpjs);
    InScreens(t, f, f.analise);
    InScreens(t, f, f.aproveitamento);
    InScreens(t, f, f.substituicao);
    assert f.atrasos != "" ==> f.atrasos in Atrasos(t, f);
    assert f.cnpjs != "" ==> f.cnpjs in Detalhes(t, f);
    assert f.analise != "" ==> f.analise in Analyses(t, f);
    assert f.aproveitamento != "" ==> f.aproveitamento in Analyses(t, f);
    assert f.substituicao != "" ==> f.substituicao in Analyses(t, f);
  }

  lemma SearchNotesShown(t: Template, f: Fields)
    ensures f.oc21 != "" ==> f.oc21 in Lines(t, f)
    ensures f.oc21Tabela != "" ==> f.oc21Tabela in Lines(t, f)
    ensures f.pesquisaGuias != "" ==> f.pesquisaGuias in Lines(t, f)
    ensures f.lancamentoGuias != "" ==> f.lancamentoGuias in Lines(t, f)
    ensures f.duplicidade != "" ==> f.duplicidade in Lines(t, f)
  {
    InLines(t, f, f.oc21);
    InLines(t, f, f.oc21Tabela);
    InLines(t, f, f.pesquisaGuias);
    InLines(t, f, f.lancamentoGuias);
    InLines(t, f, f.duplicidade);
    assert f.oc21 != "" ==> f.oc21 in Ocorrencias(t, f);
    assert f.oc21Tabela != "" ==> f.oc21Tabela in Ocorrencias(t, f);
    if f.oc21 != "" { InSearches(t, f, f.oc21); }
    if f.oc21Tabela != "" { InSearches(t, f, f.oc21Tabela); }
  }

  /** The labelled lines are always there, each label followed by its note, blank or not. */
  lemma FixedLabels(t: Template, f: Fields)
    ensures t.plano + f.plano in Lines(t, f)
    ensures t.cnpjCei + f.cnpjCei in Lines(t, f)
    ensures t.razaoSocial + f.razaoSocial in Lines(t, f)
    ensures t.tipo + f.tipo in Lines(t, f)
    ensures t.dataSolicitacao + f.dataSolicitacao in Lines(t, f)
    ensures t.periodo + f.periodo in Lines(t, f)
    ensures t.dataRescisao + f.dataRescisao in Lines(t, f)
    ensures t.dataComunicacao + f.dataComunicacao in Lines(t, f)
    ensures t.metodoComunicacao + f.metodoComunicacao in Lines(t, f)
    ensures t.nsuOuEmail + f.nsuOuEmail in Lines(t, f)
    ensures t.nomeDossie + f.nomeDossie in Lines(t, f)
    ensures t.dataFinalizacao + f.dataFinalizacao in Lines(t, f)
  {
    IdentificationLabels(t, f);
    DetalhesLabels(t, f);
    RescisaoLabels(t, f);
  }

  lemma IdentificationLabels(t: Template, f: Fields)
    ensures t.plano + f.plano in Lines(t, f)
    ensures t.cnpjCei + f.cnpjCei in Lines(t, f)
    ensures t.razaoSocial + f.razaoSocial in Lines(t, f)
  {
    InLines(t, f, t.plano + f.plano);
    InLines(t, f, t.cnpjCei + f.cnpjCei);
    InLines(t, f, t.razaoSocial + f.razaoSocial);
  }

  lemma DetalhesLabels(t: Template, f: Fields)
    ensures t.tipo + f.tipo in Lines(t, f)
    ensures t.dataSolicitacao + f.dataSolicitacao in Lines(t, f)
    ensures t.periodo + f.periodo in Lines(t, f)
  {
    var d := Detalhes(t, f);
    assert d[1] == t.tipo + f.tipo && d[2] == t.dataSolicitacao + f.dataSolicitacao && d[3] == t.periodo + f.periodo;
    InScreens(t, f, d[1]);
    InScreens(t, f, d[2]);
    InScreens(t, f, d[3]);
    InLines(t, f, d[1]);
    InLines(t, f, d[2]);
    InLines(t, f, d[3]);
  }

  lemma RescisaoLabels(t: Template, f: Fields)
    ensures t.dataRescisao + f.dataRescisao in Lines(t, f)
    ensures t.dataComunicacao + f.dataComunicacao in Lines(t, f)
    ensures t.metodoComunicacao + f.metodoComunicacao in Lines(t, f)
    ensures t.nsuOuEmail + f.nsuOuEmail in Lines(t, f)
    ensures t.nomeDossie + f.nomeDossie in Lines(t, f)
    ensures t.dataFinalizacao + f.dataFinalizacao in Lines(t, f)
  {
    RescisaoLine(t, f, 1);
    RescisaoLine(t, f, 2);
    RescisaoLine(t, f, 3);
    RescisaoLine(t, f, 4);
    RescisaoLine(t, f, 5);
    RescisaoLine(t, f, 6);
  }

  lemma RescisaoLine(t: Template, f: Fields, i: nat)
    requires i < 8
    ensures Rescisao(t, f)[i] in Lines(t, f)
  {
    InLines(t, f, Rescisao(t, f)[i]);
  }

  /** Under a non-blank result, the guide exclusion note comes on the line right after it. */
  lemma ExclusaoFollowsResultados(t: Template, f: Fields)
    requires f.oc21 != "" && f.oc21Exclusao != ""
    ensures Ocorrencias(t, f)[1] == f.oc21 && Ocorrencias(t, f)[2] == f.oc21Exclusao
    ensures f.oc21Exclusao in Lines(t, f)
  {
    OcorrenciasShape(t, f);
    InSearches(t, f, f.oc21Exclusao);
    InLines(t, f, f.oc21Exclusao);
  }

  lemma OcorrenciasShape(t: Template, f: Fields)
    requires f.oc21 != "" && f.oc21Exclusao != ""
    ensures |Ocorrencias(t, f)| >= 3
    ensures Ocorrencias(t, f)[1] == f.oc21 && Ocorrencias(t, f)[2] == f.oc21Exclusao
  {
    assert Optional(f.oc21Exclusao) == [f.oc21Exclusao];
    assert Ocorrencias(t, f) == [t.oc21Title, f.oc21, f.oc21Exclusao] + Optional(f.oc21Tabela) + [t.rule];
  }

  /** A line of the occurrence-21 section is a line of the searches. */
  lemma InSearches(t: Template, f: Fields, x: string)
    requires x in Ocorrencias(t, f)
    ensures x in Searches(t, f)
  {
  }

  /** A one-line bases note goes on the "BASES:" line itself. */
  lemma BasesInline(t: Template, bs: string)
    requires IsStripped(bs) && '\n' !in bs
    ensures Bases(t, bs) == [t.basesTitle, t.bases + bs, t.rule]
  {
    assert Strip("") == "";
    StripOfStripped(bs);
    assert Strip(if bs != "" && '\n' !in bs then bs else "") == bs;
    assert !(bs != "" && '\n' in bs);
  }

  /** A bases note with line breaks leaves the "BASES:" line bare and follows it. */
  lemma BasesBlock(t: Template, bs: string)
    requires '\n' in bs
    ensures Bases(t, bs) == [t.basesTitle, t.bases, bs, t.rule]
  {
    assert bs != "";
    assert (if bs != "" && '\n' !in bs then bs else "") == "";
    assert Strip("") == "";
    assert t.bases + "" == t.bases;
    assert Bases(t, bs) == [t.basesTitle, t.bases] + [bs] + [t.rule];
  }

  /** Stripping line breaks from the observations, already stripped of whitespace, changes nothing. */
  lemma ObservacoesStripped(t: Template, f: Fields)
    requires IsStripped(f.observacoes)
    ensures Observacoes(t, f) == [t.observacoesTitle] + Optional(f.observacoes)
  {
    StripCharOfStripped(f.observacoes, '\n');
  }
}
