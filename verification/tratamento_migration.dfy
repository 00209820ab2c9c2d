/**
 * How the treatment engine turns plans into treatments: the
 * materialisation of plans from recorded occurrences, the classification
 * of a situation text into a plan status, the creation of a treatment with
 * its seven pending stages, and `migrar_planos`, which creates one
 * treatment per plan that has none and queues the ones still to be
 * rescinded.
 *
 * The generated company name, period, CNPJs, bases and payment type come in
 * as a `MigrationDraws` value per plan position, one for each plan the loop
 * may visit.
 */
module TratamentoMigration {
  import opened Wrappers
  import opened Text
  import opened Enums
  import opened Models
  import opened StageTables
  import opened StageList
  import opened Repositories
  import TratamentoControl

  // ---------------------------------------------------------------- digits

  /** `_somente_digitos`: the decimal digits of a non-empty text, or None when it has none. */
  function SomenteDigitos(valor: Option<string>): (r: Option<string>)
    ensures r.None? <==> valor.None? || forall i :: 0 <= i < |valor.value| ==> !IsDigit(valor.value[i])
    ensures r.Some? ==> r.value != "" && AllDigits(r.value) && r.value == OnlyDigits(valor.value)
  {
    if valor.None? || valor.value == "" then None
    else
      var digits := OnlyDigits(valor.value);
      if digits == "" then None else Some(digits)
  }

  /** Digits pass through unchanged, so extracting twice is extracting once. */
  lemma SomenteDigitosIdempotent(valor: Option<string>)
    ensures SomenteDigitos(valor).Some? ==> SomenteDigitos(SomenteDigitos(valor)) == SomenteDigitos(valor)
  {
    if SomenteDigitos(valor).Some? {
      OnlyDigitsIdempotent(valor.value);
    }
  }

  // ---------------------------------------------------------------- situation classifier

  const PrefixPResc: string := "P.RESC"
  const PrefixPresc: string := "PRESC"
  const PrefixResc: string := "RESC"

  /** A still-rescindable situation: blank, or starting with one of the two "P.RESC" spellings. */
  predicate Rescindable(texto: string) {
    texto == "" || StartsWith(texto, PrefixPResc) || StartsWith(texto, PrefixPresc)
  }

  /**
   * The classification of a trimmed upper-case situation: the rescindable
   * prefixes first, then the markers ESPECIAL, LIQ and GRDE in that order,
   * then a "RESC" prefix; anything else is still rescindable.
   */
  function Classify(texto: string): (r: PlanStatus)
    ensures r != NOVO && r != SEM_TRATAMENTO
    ensures Rescindable(texto) ==> r == PASSIVEL_RESC
    ensures r == ESPECIAL <==> !Rescindable(texto) && Contains(texto, "ESPECIAL")
    ensures r == LIQUIDADO <==>
      !Rescindable(texto) && !Contains(texto, "ESPECIAL") && Contains(texto, "LIQ")
    ensures r == NAO_RESCINDIDO <==>
      && !Rescindable(texto) && !Contains(texto, "ESPECIAL") && !Contains(texto, "LIQ")
      && Contains(texto, "GRDE")
    ensures r == RESCINDIDO <==>
      && !Rescindable(texto) && !Contains(texto, "ESPECIAL") && !Contains(texto, "LIQ")
      && !Contains(texto, "GRDE") && StartsWith(texto, PrefixResc)
  {
    if Rescindable(texto) then PASSIVEL_RESC
    else if Contains(texto, "ESPECIAL") then ESPECIAL
    else if Contains(texto, "LIQ") then LIQUIDADO
    else if Contains(texto, "GRDE") then NAO_RESCINDIDO
    else if StartsWith(texto, PrefixResc) then RESCINDIDO
    else PASSIVEL_RESC
  }

  /** The text the classifier looks at: the situation trimmed and upper-cased, None as "". */
  function Normalized(situacao: Option<string>): string {
    Upper(Strip(situacao.GetOr("")))
  }

  /** `_status_por_situacao`: never one of the two statuses only the import stage assigns. */
  function StatusPorSituacao(situacao: Option<string>): (r: PlanStatus)
    ensures r != NOVO && r != SEM_TRATAMENTO
    ensures Strip(situacao.GetOr("")) == "" ==> r == PASSIVEL_RESC
  {
    Classify(Normalized(situacao))
  }

  /** Whitespace around a situation does not change its class. */
  lemma StatusIgnoresPadding(p: string, s: string, q: string)
    requires AllSpace(p) && AllSpace(q)
    ensures StatusPorSituacao(Some(p + s + q)) == StatusPorSituacao(Some(s))
  {
    StripPadding(p, s, q);
  }

  /** Classifying the trimmed situation is classifying the situation. */
  lemma StatusOfStripped(s: string)
    ensures StatusPorSituacao(Some(Strip(s))) == StatusPorSituacao(Some(s))
  {
    StripIdempotent(s);
    assert Normalized(Some(Strip(s))) == Normalized(Some(s));
  }

  /** A pending situation as the terminal screens print it stays rescindable. */
  lemma StatusOfPendingSituation()
    ensures StatusPorSituacao(Some("P.RESC.")) == PASSIVEL_RESC
  {
    StripOfStripped("P.RESC.");
    assert Upper("P.RESC.") == "P.RESC.";
    assert StartsWith("P.RESC.", PrefixPResc);
  }

  // ---------------------------------------------------------------- materialisation

  /** The keyword the occurrence's CNPJ digits are passed under. */
  const InscricaoKey: string := "numero_inscricao"

  /** No column the `Plan` class maps is called `numero_inscricao`; only the table's own column is. */
  lemma InscricaoUnmapped(c: Column)
    ensures c.Mapped() ==> c.Name() != InscricaoKey
    ensures c.Name() == InscricaoKey <==> c == NumeroInscricao
  {
  }

  /**
   * The keywords `_materializar_planos_de_ocorrencias` passes for one
   * occurrence: the mapped columns, and the CNPJ digits under the unmapped
   * `numero_inscricao` keyword.
   */
  datatype Campos = Campos(cols: map<Column, Value>, inscricao: Option<string>) {
    function Unmapped(): (r: set<string>)
      ensures r == {} <==> inscricao.None?
    {
      if inscricao.Some? then {InscricaoKey} else {}
    }

    /** Every keyword as a table column: the mapped columns, and the digits in `numero_inscricao`. */
    function Stored(): map<Column, Value> {
      if inscricao.Some? then cols[NumeroInscricao := Text(inscricao.value)] else cols
    }
  }

  /**
   * Storing the keywords as columns keeps each mapped column as passed and
   * puts the registration digits, when found, in their own column.
   */
  lemma StoredColumns(campos: Campos, c: Column)
    requires NumeroInscricao !in campos.cols
    ensures c.Mapped() ==> (c in campos.Stored() <==> c in campos.cols)
    ensures c.Mapped() && c in campos.cols ==> campos.Stored()[c] == campos.cols[c]
    ensures NumeroInscricao in campos.Stored() <==> campos.inscricao.Some?
    ensures campos.inscricao.Some? ==> campos.Stored()[NumeroInscricao] == Text(campos.inscricao.value)
  {
  }

  /**
   * The value one occurrence passes for a mapped column, if any, given the
   * class `cls` of its situation: the trimmed situation and its class, the
   * type, balance and situation date when present, and the trimmed CNPJ as
   * the representation.
   */
  function Campo(o: DiscardedPlan, cls: PlanStatus, c: Column): Option<Value> {
    var situacao := Strip(o.situacao);
    match c
    case SituacaoAtual => if situacao != "" then Some(Text(situacao)) else None
    case Status => if situacao != "" then Some(Text(PlanStatusValue(cls))) else None
    case Tipo => if o.tipo.Some? && o.tipo.value != "" then Some(Text(o.tipo.value)) else None
    case Saldo => if o.saldo.Some? then Some(Float(o.saldo.value)) else None
    case DtSituacaoAtual => if o.dtSituacaoAtual.Some? then Some(Date(o.dtSituacaoAtual.value)) else None
    case Representacao => if Strip(o.cnpj) != "" then Some(Text(Strip(o.cnpj))) else None
    case _ => None
  }

  /** The keywords passed for one occurrence. */
  function OccurrenceFields(o: DiscardedPlan): (r: Campos)
    ensures var cls := StatusPorSituacao(Some(Strip(o.situacao)));
      && (forall c :: c in r.cols <==> Campo(o, cls, c).Some?)
      && (forall c :: c in r.cols ==> r.cols[c] == Campo(o, cls, c).value)
    ensures r.inscricao.Some? <==> exists i :: 0 <= i < |o.cnpj| && IsDigit(o.cnpj[i])
    ensures r.inscricao.Some? ==> r.inscricao.value == OnlyDigits(o.cnpj)
    ensures NumeroInscricao !in r.cols
  {
    InscricaoDigits(o.cnpj);
    var cls := StatusPorSituacao(Some(Strip(o.situacao)));
    Campos(PresentCampos(o, cls), SomenteDigitos(Some(Strip(o.cnpj))))
  }

  /** The mapped columns an occurrence has a value for, with those values. */
  function PresentCampos(o: DiscardedPlan, cls: PlanStatus): (m: map<Column, Value>)
    ensures forall c :: c in m <==> Campo(o, cls, c).Some?
    ensures forall c :: c in m ==> m[c] == Campo(o, cls, c).value
    ensures NumeroInscricao !in m
  {
    assert Campo(o, cls, NumeroInscricao).None?;
    map c: Column | Campo(o, cls, c).Some? :: Campo(o, cls, c).value
  }

  /** The registration number is read from the trimmed CNPJ: present exactly when the CNPJ has a digit. */
  lemma InscricaoDigits(cnpj: string)
    ensures SomenteDigitos(Some(Strip(cnpj))).Some? <==> exists i :: 0 <= i < |cnpj| && IsDigit(cnpj[i])
    ensures SomenteDigitos(Some(Strip(cnpj))).Some? ==> SomenteDigitos(Some(Strip(cnpj))).value == OnlyDigits(cnpj)
  {
    OnlyDigitsStrip(cnpj);
    SomenteDigitosOfText(Strip(cnpj));
    HasDigit(cnpj);
  }

  /** On a text, the extraction answers the digits exactly when there are any. */
  lemma SomenteDigitosOfText(v: string)
    ensures SomenteDigitos(Some(v)).Some? <==> OnlyDigits(v) != []
    ensures SomenteDigitos(Some(v)).Some? ==> SomenteDigitos(Some(v)).value == OnlyDigits(v)
  {
  }

  /** A text has digits to extract exactly when one of its characters is a digit. */
  lemma HasDigit(s: string)
    ensures OnlyDigits(s) != [] <==> exists i :: 0 <= i < |s| && IsDigit(s[i])
  {
  }

  /** One occurrence, as the code is written: plans that exist, and blank numbers, are skipped. */
  function MaterializeOneAsWritten(plans: seq<Plan>, o: DiscardedPlan): (r: Result<seq<Plan>, UpsertError>)
    requires ValidPlans(plans)
    ensures r.Ok? ==> ValidPlans(r.value)
  {
    var numero := Strip(o.numeroPlano);
    if numero == "" || FindPlan(plans, numero).Some? then Ok(plans)
    else
      var campos := OccurrenceFields(o);
      match Upsert(plans, numero, campos.cols, campos.Unmapped())
      case Ok(res) => Ok(res.0)
      case Err(e) => Err(e)
  }

  /**
   * Materialising a new plan from an occurrence whose CNPJ has a digit is
   * refused: the fields name a keyword the `Plan` constructor does not
   * accept. Without one it succeeds.
   */
  lemma MaterializeRejectsInscricao(plans: seq<Plan>, o: DiscardedPlan)
    requires ValidPlans(plans)
    requires Strip(o.numeroPlano) != "" && FindPlan(plans, Strip(o.numeroPlano)).None?
    ensures MaterializeOneAsWritten(plans, o).Err? <==> exists i :: 0 <= i < |o.cnpj| && IsDigit(o.cnpj[i])
  {
    var campos := OccurrenceFields(o);
    var up := Upsert(plans, Strip(o.numeroPlano), campos.cols, campos.Unmapped());
    assert MaterializeOneAsWritten(plans, o).Err? <==> up.Err?;
    assert up.Err? <==> campos.inscricao.Some?;
  }

  /**
   * One occurrence, storing every keyword as a table column: a non-blank
   * number with no plan gains one holding the occurrence's columns and its
   * registration digits; nothing else changes.
   */
  function MaterializeOne(plans: seq<Plan>, o: DiscardedPlan): (r: seq<Plan>)
    requires ValidPlans(plans)
    ensures ValidPlans(r) && |plans| <= |r| && r[..|plans|] == plans
    ensures Strip(o.numeroPlano) != "" ==> FindPlan(r, Strip(o.numeroPlano)).Some?
    ensures Strip(o.numeroPlano) == "" || FindPlan(plans, Strip(o.numeroPlano)).Some? ==> r == plans
    ensures Strip(o.numeroPlano) != "" && FindPlan(plans, Strip(o.numeroPlano)).None? ==> |r| == |plans| + 1
  {
    var numero := Strip(o.numeroPlano);
    if numero == "" || FindPlan(plans, numero).Some? then
      TakeAll(plans);
      plans
    else InsertPlan(plans, numero, OccurrenceFields(o).Stored())
  }

  lemma TakeAll<T>(s: seq<T>)
    ensures s[..|s|] == s
  {
  }

  /**
   * The corrected insert of a number with no plan: the table gains one
   * plan, at the end, holding `cols`, the registration number included,
   * as a `Plan` class that maps `numero_inscricao` would store it.
   */
  function InsertPlan(plans: seq<Plan>, numero: string, cols: map<Column, Value>): (r: seq<Plan>)
    requires ValidPlans(plans) && FindPlan(plans, numero).None?
    ensures ValidPlans(r) && |r| == |plans| + 1 && r[..|plans|] == plans
    ensures FindPlan(r, numero).Some? && r[|plans|].numeroPlano == numero
  {
    var r := plans + [NewPlan(|plans| + 1, numero, cols)];
    assert r[..|plans|] == plans;
    FindPlanUnique(r, numero, |plans|);
    r
  }

  /** The inserted plan holds exactly `cols`, NULL elsewhere. */
  lemma InsertPlanHolds(plans: seq<Plan>, numero: string, cols: map<Column, Value>, c: Column)
    requires ValidPlans(plans) && FindPlan(plans, numero).None?
    ensures InsertPlan(plans, numero, cols)[|plans|].Get(c) == if c in cols then cols[c] else Null
  {
  }

  /** On mapped columns the corrected insert is the repository's `upsert`. */
  lemma InsertPlanIsUpsert(plans: seq<Plan>, numero: string, cols: map<Column, Value>)
    requires ValidPlans(plans) && FindPlan(plans, numero).None?
    ensures Upsert(plans, numero, cols, {}).Ok? <==> AllMapped(cols)
    ensures AllMapped(cols) ==> Upsert(plans, numero, cols, {}).value.0 == InsertPlan(plans, numero, cols)
  {
  }

  /**
   * A plan created from an occurrence holds exactly the occurrence's mapped
   * columns, and the digits of its CNPJ as the registration number when the
   * CNPJ has any.
   */
  lemma MaterializeOneNewPlan(plans: seq<Plan>, o: DiscardedPlan)
    requires ValidPlans(plans)
    requires Strip(o.numeroPlano) != "" && FindPlan(plans, Strip(o.numeroPlano)).None?
    ensures |MaterializeOne(plans, o)| == |plans| + 1
    ensures var p := MaterializeOne(plans, o)[|plans|];
      && p.numeroPlano == Strip(o.numeroPlano)
      && (forall c: Column :: c.Mapped() ==> p.Get(c) == if c in OccurrenceFields(o).cols then OccurrenceFields(o).cols[c] else Null)
      && p.Get(NumeroInscricao) == if exists i :: 0 <= i < |o.cnpj| && IsDigit(o.cnpj[i]) then Text(OnlyDigits(o.cnpj)) else Null
  {
    var campos := OccurrenceFields(o);
    var m := campos.Stored();
    var r := InsertPlan(plans, Strip(o.numeroPlano), m);
    assert MaterializeOne(plans, o) == r;
    var p := r[|plans|];
    forall c: Column | c.Mapped()
      ensures p.Get(c) == if c in campos.cols then campos.cols[c] else Null
    {
      StoredColumns(campos, c);
      InsertPlanHolds(plans, Strip(o.numeroPlano), m, c);
    }
    StoredColumns(campos, NumeroInscricao);
    InsertPlanHolds(plans, Strip(o.numeroPlano), m, NumeroInscricao);
  }

  /**
   * On an empty table, an occurrence with a number and a CNPJ with a digit
   * gains the one plan, holding the CNPJ's digits; the code as written
   * fails instead.
   */
  lemma MaterializeStoresDigits(o: DiscardedPlan)
    requires Strip(o.numeroPlano) != ""
    requires exists i :: 0 <= i < |o.cnpj| && IsDigit(o.cnpj[i])
    ensures MaterializeAsWritten([], [o]).Err?
    ensures var r := Materialize([], [o]);
      |r| == 1 && r[0].numeroPlano == Strip(o.numeroPlano) && r[0].Get(NumeroInscricao) == Text(OnlyDigits(o.cnpj))
  {
    MaterializeAsWrittenFails(o);
    MaterializeSingle([], o);
    MaterializeOneNewPlan([], o);
  }

  /**
   * The occurrence of the migration's own test case, numbered "OCOR001"
   * with CNPJ "12.345.678/0001-90", meets `MaterializeStoresDigits`, whose
   * plan then holds the registration digits "12345678000190".
   */
  lemma TestCaseDigits()
    ensures Strip("OCOR001") == "OCOR001"
    ensures exists i :: 0 <= i < |"12.345.678/0001-90"| && IsDigit("12.345.678/0001-90"[i])
    ensures OnlyDigits("12.345.678/0001-90") == "12345678000190"
  {
    StripOfStripped("OCOR001");
    assert IsDigit("12.345.678/0001-90"[0]);
    TestCnpjDigits();
  }

  /** Materialising one occurrence is the one-occurrence step. */
  lemma MaterializeSingle(plans: seq<Plan>, o: DiscardedPlan)
    requires ValidPlans(plans)
    ensures Materialize(plans, [o]) == MaterializeOne(plans, o)
  {
    assert [o][1..] == [];
  }

  /** The digits of the test case's CNPJ. */
  lemma TestCnpjDigits()
    ensures OnlyDigits("12.345.678/0001-90") == "12345678000190"
  {
    var t := "0001" + ['-'] + "90";
    var u := "678" + ['/'] + t;
    var v := "345" + ['.'] + u;
    TestCnpjShape();
    DigitsThenSeparator("0001", '-', "90");
    DigitsThenSeparator("678", '/', t);
    DigitsThenSeparator("345", '.', u);
    DigitsThenSeparator("12", '.', v);
    OnlyDigitsOfDigits("90");
    TestCnpjJoin();
  }

  /** The test case's CNPJ as digit groups and separators. */
  lemma TestCnpjShape()
    ensures "12.345.678/0001-90" == "12" + ['.'] + ("345" + ['.'] + ("678" + ['/'] + ("0001" + ['-'] + "90")))
  {
  }

  /** The test case's digit groups, joined. */
  lemma TestCnpjJoin()
    ensures "12" + ("345" + ("678" + ("0001" + "90"))) == "12345678000190"
  {
  }

  /** Digits, one separator, then the rest: the separator drops out. */
  lemma DigitsThenSeparator(d: string, sep: char, rest: string)
    requires AllDigits(d) && !IsDigit(sep)
    ensures OnlyDigits(d + [sep] + rest) == d + OnlyDigits(rest)
  {
    OnlyDigitsAppend(d + [sep], rest);
    OnlyDigitsAppend(d, [sep]);
    OnlyDigitsOfDigits(d);
    assert OnlyDigits([sep]) == [] by {
      assert [sep][1..] == [];
    }
    assert d + [] == d;
  }

  /** Whenever the code as written succeeds, it agrees with the corrected version. */
  lemma MaterializeOneAgrees(plans: seq<Plan>, o: DiscardedPlan)
    requires ValidPlans(plans)
    requires MaterializeOneAsWritten(plans, o).Ok?
    ensures MaterializeOneAsWritten(plans, o).value == MaterializeOne(plans, o)
  {
    var numero := Strip(o.numeroPlano);
    if numero != "" && FindPlan(plans, numero).None? {
      var campos := OccurrenceFields(o);
      assert Upsert(plans, numero, campos.cols, campos.Unmapped()).Ok?;
      assert campos.Unmapped() == {};
      assert campos.Stored() == campos.cols;
      InsertPlanIsUpsert(plans, numero, campos.cols);
      assert MaterializeOne(plans, o) == InsertPlan(plans, numero, campos.cols);
    }
  }

  /**
   * `_materializar_planos_de_ocorrencias` over all occurrences in id order,
   * each materialised by the corrected `MaterializeOne`: the plans that
   * existed are untouched.
   */
  function Materialize(plans: seq<Plan>, occs: seq<DiscardedPlan>): (r: seq<Plan>)
    requires ValidPlans(plans)
    ensures ValidPlans(r) && |plans| <= |r| && r[..|plans|] == plans
    decreases |occs|
  {
    if occs == [] then plans
    else
      var p1 := MaterializeOne(plans, occs[0]);
      var r := Materialize(p1, occs[1..]);
      PrefixTrans(plans, p1, r);
      r
  }

  lemma PrefixTrans<T>(a: seq<T>, b: seq<T>, c: seq<T>)
    requires |a| <= |b| <= |c| && b[..|a|] == a && c[..|b|] == b
    ensures c[..|a|] == a
  {
    assert c[..|b|][..|a|] == c[..|a|];
  }

  /** Each occurrence adds at most one plan. */
  lemma {:induction false} MaterializeBound(plans: seq<Plan>, occs: seq<DiscardedPlan>)
    requires ValidPlans(plans)
    ensures |Materialize(plans, occs)| <= |plans| + |occs|
    decreases |occs|
  {
    if occs != [] {
      MaterializeBound(MaterializeOne(plans, occs[0]), occs[1..]);
    }
  }

  /** A plan number found in a table is still found after the table grows. */
  lemma FindPlanExtended(plans: seq<Plan>, r: seq<Plan>, numero: string)
    requires ValidPlans(r) && |plans| <= |r| && r[..|plans|] == plans
    requires FindPlan(plans, numero).Some?
    ensures FindPlan(r, numero).Some?
  {
    var k := FindPlan(plans, numero).value;
    assert r[k] == plans[k];
    FindPlanUnique(r, numero, k);
  }

  /** After materialisation every occurrence with a non-blank number has a plan. */
  lemma {:induction false} MaterializeCovers(plans: seq<Plan>, occs: seq<DiscardedPlan>, j: nat)
    requires ValidPlans(plans) && j < |occs| && Strip(occs[j].numeroPlano) != ""
    ensures FindPlan(Materialize(plans, occs), Strip(occs[j].numeroPlano)).Some?
    decreases |occs|
  {
    var p1 := MaterializeOne(plans, occs[0]);
    var r := Materialize(p1, occs[1..]);
    if j == 0 {
      FindPlanExtended(p1, r, Strip(occs[0].numeroPlano));
    } else {
      assert occs[j] == occs[1..][j - 1];
      MaterializeCovers(p1, occs[1..], j - 1);
    }
  }

  /** Whenever the whole run as written succeeds, it yields the corrected table. */
  lemma {:induction false} MaterializeAsWrittenAgrees(plans: seq<Plan>, occs: seq<DiscardedPlan>)
    requires ValidPlans(plans)
    requires MaterializeAsWritten(plans, occs).Ok?
    ensures MaterializeAsWritten(plans, occs).value == Materialize(plans, occs)
    decreases |occs|
  {
    if occs != [] {
      MaterializeOneAgrees(plans, occs[0]);
      MaterializeAsWrittenAgrees(MaterializeOne(plans, occs[0]), occs[1..]);
    }
  }

  /** As written: the whole run stops at the first refused occurrence. */
  function MaterializeAsWritten(plans: seq<Plan>, occs: seq<DiscardedPlan>): (r: Result<seq<Plan>, UpsertError>)
    requires ValidPlans(plans)
    ensures r.Ok? ==> ValidPlans(r.value)
    decreases |occs|
  {
    if occs == [] then Ok(plans)
    else
      match MaterializeOneAsWritten(plans, occs[0])
      case Err(e) => Err(e)
      case Ok(p1) => MaterializeAsWritten(p1, occs[1..])
  }

  /**
   * On an empty plan table, one occurrence with a number and a CNPJ makes
   * the run as written fail, where the corrected run creates its plan.
   */
  lemma MaterializeAsWrittenFails(o: DiscardedPlan)
    requires Strip(o.numeroPlano) != ""
    requires exists i :: 0 <= i < |o.cnpj| && IsDigit(o.cnpj[i])
    ensures MaterializeAsWritten([], [o]).Err?
    ensures |Materialize([], [o])| == 1
  {
    MaterializeRejectsInscricao([], o);
    MaterializeSingle([], o);
  }

  // ---------------------------------------------------------------- treatment creation

  /** The seven stage entries of a new treatment: pending, in stage order. */
  function InitialStages(): (r: seq<Stage>)
    ensures |r| == StageCount
    ensures forall i :: 0 <= i < |r| ==> r[i] == PendingStage(i + 1, TratamentoDefinitions[i + 1])
  {
    TratamentoStagesInOrder();
    seq(|TratamentoStages|, i requires 0 <= i < |TratamentoStages| =>
      PendingStage(TratamentoStages[i].0, TratamentoStages[i].1))
  }

  /** `_buscar_stage` finds every stage of a new treatment pending, under its own name. */
  lemma InitialStagesPending(s: int)
    requires 1 <= s <= StageCount
    ensures StageOf(InitialStages(), s) == Some(PendingStage(s, TratamentoDefinitions[s]))
    ensures Current(InitialStages(), s).status == Pendente
  {
    var r := InitialStages();
    StageOfFirst(r, s - 1);
  }

  lemma InitialStagesAllPending()
    ensures forall s :: 1 <= s <= StageCount ==> Current(InitialStages(), s).status == Pendente
  {
    forall s | 1 <= s <= StageCount
      ensures Current(InitialStages(), s).status == Pendente
    {
      InitialStagesPending(s);
    }
  }

  /**
   * A new treatment's list has an entry for every stage, so the markers of
   * a run only ever update it in place.
   */
  lemma InitialStagesHoldAll()
    ensures HoldsAllStages(InitialStages())
  {
    forall s | 1 <= s <= StageCount
      ensures StageOf(InitialStages(), s).Some?
    {
      InitialStagesPending(s);
    }
    HoldsStagesFromIff(InitialStages(), 0);
  }

  /**
   * `_criar_tratamento`: a pending treatment of the plan, at stage 0 with
   * its seven stages pending, stored under the next id; afterwards the plan
   * has a treatment.
   */
  function CriarTratamento(
    ts: seq<TreatmentPlan>, plan: Plan, razao: string, periodo: string,
    cnpjs: seq<string>, bases: seq<string>, notas: map<string, Note>)
    : (r: (seq<TreatmentPlan>, TreatmentPlan))
    requires ValidTreatments(ts)
    ensures ValidTreatments(r.0) && r.0 == ts + [r.1] && r.1.id == |ts| + 1
    ensures ByPlanId(r.0, plan.id).Some?
    ensures r.1.planId == plan.id && r.1.numeroPlano == plan.numeroPlano
    ensures r.1.status == "pendente" && r.1.etapaAtual == 0
    ensures forall s :: 1 <= s <= StageCount ==> Current(r.1.etapas, s).status == Pendente
  {
    var t := NewTreatmentPlan(0, plan.id, plan.numeroPlano, razao)
      .(periodo := Some(periodo), cnpjs := cnpjs, notas := notas, etapas := InitialStages(), bases := bases);
    InitialStagesAllPending();
    var r := AddTreatment(ts, t);
    assert r.0[|ts|].planId == plan.id;
    r
  }

  // ---------------------------------------------------------------- migrar_planos

  /** The generated values `migrar_planos` draws for one plan. */
  datatype MigrationDraws = MigrationDraws(
    razao: string, periodo: string, cnpjs: seq<string>, bases: seq<string>, tipo: string)

  /** `plan.x or fallback` on a text column. */
  function TextOr(p: Plan, c: Column, fallback: string): string {
    if p.HasText(c) then p.Get(c).s else fallback
  }

  /** The attributes `migrar_planos` fills in on a plan that lacks them. */
  function Fills(p: Plan, d: MigrationDraws): map<Column, Value> {
    var f1: map<Column, Value> := if p.HasText(RazaoSocial) then map[] else map[RazaoSocial := Text(d.razao)];
    var f2 := if p.HasText(Tipo) then f1 else f1[Tipo := Text(d.tipo)];
    if p.HasText(Representacao) || d.cnpjs == [] then f2 else f2[Representacao := Text(d.cnpjs[0])]
  }

  /** The notes a new treatment starts with. */
  function MigrationNotas(numero: string, razao: string, tipo: string, d: MigrationDraws): map<string, Note> {
    map[
      "PLANO" := Some(numero),
      "CNPJ_CEI" := Some(Join(", ", d.cnpjs)),
      "RAZAO_SOCIAL" := Some(razao),
      "E544_TIPO" := Some(tipo),
      "E544_PERIODO" := Some(d.periodo),
      "E544_CNPJS" := Some(Join("\n", d.cnpjs)),
      "E398_BASES" := Some(Join("\n", d.bases))]
  }

  /** The list notes are newline joins the later stages can split back into the drawn lists. */
  lemma MigrationNotasSplit(numero: string, razao: string, tipo: string, d: MigrationDraws)
    requires d.cnpjs != [] && forall i :: 0 <= i < |d.cnpjs| ==> '\n' !in d.cnpjs[i]
    requires d.bases != [] && forall i :: 0 <= i < |d.bases| ==> '\n' !in d.bases[i]
    ensures Split(MigrationNotas(numero, razao, tipo, d)["E544_CNPJS"].value, '\n') == d.cnpjs
    ensures Split(MigrationNotas(numero, razao, tipo, d)["E398_BASES"].value, '\n') == d.bases
  {
    SplitJoin(d.cnpjs, '\n');
    SplitJoin(d.bases, '\n');
  }

  /** `plan.status or ""`. */
  function StatusRaw(p: Plan): string {
    if p.Get(Status).Text? then p.Get(Status).s else ""
  }

  /** `PlanStatus(status_raw)` for a non-empty text, None when it is empty or no member's value. */
  function ParsedStatus(raw: string): (r: Option<PlanStatus>)
    ensures r.Some? ==> PlanStatusValue(r.value) == raw
    ensures r.None? <==> forall s: PlanStatus :: PlanStatusValue(s) != raw
  {
    if raw == "" then None else PlanStatusFromValue(raw)
  }

  /** The statuses whose plans are queued for the engine. */
  predicate ShouldQueue(parsed: Option<PlanStatus>) {
    parsed == Some(PASSIVEL_RESC) || parsed == Some(NOVO) || parsed == Some(SEM_TRATAMENTO)
  }

  /**
   * The status of a new treatment: pending while the plan still awaits
   * rescission (or has no status), "rescindido" for a rescinded plan, and
   * the plan's own text for every other status, known or not.
   */
  function InitialStatus(raw: string): (r: string)
    ensures ShouldQueue(ParsedStatus(raw)) || raw == "" ==> r == "pendente"
    ensures ParsedStatus(raw) == Some(RESCINDIDO) ==> r == "rescindido"
    ensures !ShouldQueue(ParsedStatus(raw)) && raw != "" && ParsedStatus(raw) != Some(RESCINDIDO) ==> r == raw
  {
    var parsed := ParsedStatus(raw);
    if parsed == Some(RESCINDIDO) then "rescindido"
    else if parsed == Some(LIQUIDADO) || parsed == Some(NAO_RESCINDIDO) || parsed == Some(ESPECIAL) then raw
    else if !ShouldQueue(parsed) && raw != "" then raw
    else "pendente"
  }

  /** Per member: the queued statuses start pending, every other keeps its value but RESCINDIDO. */
  lemma InitialStatusOfMember(s: PlanStatus)
    ensures ShouldQueue(ParsedStatus(PlanStatusValue(s))) <==> s in {PASSIVEL_RESC, NOVO, SEM_TRATAMENTO}
    ensures InitialStatus(PlanStatusValue(s)) ==
      if s in {PASSIVEL_RESC, NOVO, SEM_TRATAMENTO} then "pendente"
      else if s == RESCINDIDO then "rescindido"
      else PlanStatusValue(s)
  {
    var p := ParsedStatus(PlanStatusValue(s));
    PlanStatusValueInjective(p.value, s);
  }

  /** `plan.data_rescisao`, when set. */
  function PlanRescisao(p: Plan): Option<Day> {
    if p.Get(DataRescisao).Date? then Some(p.Get(DataRescisao).d) else None
  }

  /** The tables `migrar_planos` works on, and the ids it created and queued so far. */
  datatype Migration = Migration(plans: seq<Plan>, ts: seq<TreatmentPlan>, created: seq<int>, queued: seq<int>)

  /** The table `t` extends `ts`. */
  predicate Extends(ts: seq<TreatmentPlan>, t: seq<TreatmentPlan>) {
    |ts| <= |t| && t[..|ts|] == ts
  }

  /**
   * The treatment created for a plan that has none: the next id, the
   * plan's number and company name, and the status and rescission date
   * its plan dictates.
   */
  function MigratedTreatment(ts: seq<TreatmentPlan>, p: Plan, d: MigrationDraws): (t: TreatmentPlan)
    requires ValidTreatments(ts)
    ensures ValidTreatments(ts + [t]) && t.id == |ts| + 1
    ensures t.planId == p.id && t.numeroPlano == p.numeroPlano
    ensures t.razaoSocial == TextOr(p, RazaoSocial, d.razao)
    ensures t.status == InitialStatus(StatusRaw(p)) && t.rescisaoData == PlanRescisao(p)
  {
    var razao := TextOr(p, RazaoSocial, d.razao);
    var notas := MigrationNotas(p.numeroPlano, razao, TextOr(p, Tipo, d.tipo), d);
    var c := CriarTratamento(ts, p, razao, d.periodo, d.cnpjs, d.bases, notas);
    var t := c.1.(status := InitialStatus(StatusRaw(p)), rescisaoData := PlanRescisao(p));
    assert forall k :: 0 <= k < |ts| ==> (ts + [t])[k] == c.0[k];
    t
  }

  /** Appending a plan's treatment gives the plan a treatment. */
  lemma ByPlanIdAppend(ts: seq<TreatmentPlan>, t: TreatmentPlan)
    ensures ByPlanId(ts + [t], t.planId).Some?
  {
    assert (ts + [t])[|ts|].planId == t.planId;
  }

  /** The id and number of each plan, in table order: what filling in attributes leaves alone. */
  function PlanKeys(plans: seq<Plan>): seq<(nat, string)> {
    seq(|plans|, j requires 0 <= j < |plans| => (plans[j].id, plans[j].numeroPlano))
  }

  /** Tables with the same keys agree on each plan's id and number. */
  lemma PlanKeysAt(a: seq<Plan>, b: seq<Plan>, j: nat)
    requires PlanKeys(a) == PlanKeys(b) && j < |a|
    ensures |b| == |a| && a[j].id == b[j].id && a[j].numeroPlano == b[j].numeroPlano
  {
    assert PlanKeys(a)[j] == PlanKeys(b)[j];
  }

  /** A table with the keys of a valid table is valid. */
  lemma PlanKeysValid(a: seq<Plan>, b: seq<Plan>)
    requires PlanKeys(a) == PlanKeys(b) && ValidPlans(a)
    ensures ValidPlans(b)
  {
    assert |b| == |PlanKeys(b)|;
    forall j | 0 <= j < |b|
      ensures b[j].id == a[j].id && b[j].numeroPlano == a[j].numeroPlano
    {
      PlanKeysAt(a, b, j);
    }
  }

  /** Replacing a plan by one with the same id and number keeps the keys. */
  lemma ReplaceKeepsKeys(plans: seq<Plan>, i: nat, q: Plan)
    requires i < |plans| && q.id == plans[i].id && q.numeroPlano == plans[i].numeroPlano
    ensures PlanKeys(plans[i := q]) == PlanKeys(plans)
  {
  }

  /**
   * One plan of the loop: skipped when it already has a treatment;
   * otherwise its missing attributes are filled in and a treatment is
   * created with the status and rescission date its plan dictates, and
   * queued when the plan awaits rescission.
   */
  function MigrateOne(m: Migration, i: nat, d: MigrationDraws): (r: Migration)
    requires ValidTreatments(m.ts) && i < |m.plans|
    ensures ValidTreatments(r.ts) && Extends(m.ts, r.ts) && |r.plans| == |m.plans|
    ensures PlanKeys(r.plans) == PlanKeys(m.plans)
    ensures ByPlanId(r.ts, m.plans[i].id).Some?
    ensures ByPlanId(m.ts, m.plans[i].id).Some? ==> r == m
    ensures r.created == m.created + NewIds(m.ts, r.ts)
  {
    if ByPlanId(m.ts, m.plans[i].id).Some? then NewIdsNone(m.ts); m
    else MigrateNew(m, i, d)
  }

  /** The step for a plan without a treatment. */
  function MigrateNew(m: Migration, i: nat, d: MigrationDraws): (r: Migration)
    requires ValidTreatments(m.ts) && i < |m.plans| && ByPlanId(m.ts, m.plans[i].id).None?
    ensures ValidTreatments(r.ts) && Extends(m.ts, r.ts) && |r.plans| == |m.plans|
    ensures PlanKeys(r.plans) == PlanKeys(m.plans)
    ensures ByPlanId(r.ts, m.plans[i].id).Some?
    ensures r.created == m.created + NewIds(m.ts, r.ts)
  {
    var p := m.plans[i];
    var t := MigratedTreatment(m.ts, p, d);
    var q := Assign(p, Fills(p, d));
    assert (m.ts + [t])[..|m.ts|] == m.ts;
    ByPlanIdAppend(m.ts, t);
    NewIdsOne(m.ts, t);
    ReplaceKeepsKeys(m.plans, i, q);
    var queued := if ShouldQueue(ParsedStatus(StatusRaw(p))) then m.queued + [t.id] else m.queued;
    Migration(m.plans[i := q], m.ts + [t], m.created + [t.id], queued)
  }

  /** A plan without a treatment gets one, appended under the next id, and the id is reported. */
  lemma MigrateOneAdds(m: Migration, i: nat, d: MigrationDraws)
    requires ValidTreatments(m.ts) && i < |m.plans| && ByPlanId(m.ts, m.plans[i].id).None?
    ensures var r := MigrateOne(m, i, d);
      && |r.ts| == |m.ts| + 1
      && r.ts[|m.ts|].planId == m.plans[i].id
      && r.created == m.created + [|m.ts| + 1]
  {
  }

  /** The new treatment is queued only when it is pending. */
  lemma MigrateOneQueued(m: Migration, i: nat, d: MigrationDraws)
    requires ValidTreatments(m.ts) && i < |m.plans| && ByPlanId(m.ts, m.plans[i].id).None?
    ensures var r := MigrateOne(m, i, d);
      || r.queued == m.queued
      || (r.queued == m.queued + [|m.ts| + 1] && r.ts[|m.ts|].status == "pendente")
  {
  }

  /**
   * A plan without a treatment gets exactly one new treatment, with the
   * status and rescission date its plan dictates; its id is reported, and
   * queued exactly when the plan awaits rescission.
   */
  lemma MigrateOneCreates(m: Migration, i: nat, d: MigrationDraws)
    requires ValidTreatments(m.ts) && i < |m.plans| && ByPlanId(m.ts, m.plans[i].id).None?
    ensures var r := MigrateOne(m, i, d);
      && |r.ts| == |m.ts| + 1
      && r.ts[|m.ts|].planId == m.plans[i].id
      && r.ts[|m.ts|].status == InitialStatus(StatusRaw(m.plans[i]))
      && r.ts[|m.ts|].rescisaoData == PlanRescisao(m.plans[i])
      && r.created == m.created + [|m.ts| + 1]
      && r.queued == m.queued + (if ShouldQueue(ParsedStatus(StatusRaw(m.plans[i]))) then [|m.ts| + 1] else [])
  {
    var t := MigratedTreatment(m.ts, m.plans[i], d);
    var r := MigrateNew(m, i, d);
    assert MigrateOne(m, i, d) == r;
    assert r.ts == m.ts + [t];
    assert r.ts[|m.ts|] == t;
  }

  /**
   * Filling in keeps every attribute the plan had: only a missing company
   * name, payment type or representation is set, the representation to the
   * first drawn CNPJ.
   */
  lemma FillsKeep(p: Plan, d: MigrationDraws)
    ensures var q := Assign(p, Fills(p, d));
      && (forall c :: p.HasText(c) ==> q.Get(c) == p.Get(c))
      && (forall c :: c !in {RazaoSocial, Tipo, Representacao} ==> q.Get(c) == p.Get(c))
      && q.Get(RazaoSocial) == Text(TextOr(p, RazaoSocial, d.razao))
      && q.Get(Tipo) == Text(TextOr(p, Tipo, d.tipo))
      && (d.cnpjs != [] ==> p.HasText(Representacao) || q.Get(Representacao) == Text(d.cnpjs[0]))
  {
  }

  /** The plan of a new treatment is filled in, and its company name is the treatment's. */
  lemma MigrateOneFills(m: Migration, i: nat, d: MigrationDraws)
    requires ValidTreatments(m.ts) && i < |m.plans| && ByPlanId(m.ts, m.plans[i].id).None?
    ensures var r := MigrateOne(m, i, d);
      && r.plans[i] == Assign(m.plans[i], Fills(m.plans[i], d))
      && r.ts[|m.ts|].razaoSocial == TextOr(m.plans[i], RazaoSocial, d.razao)
  {
  }

  /** The ids of the treatments a table gained over `ts`, in order. */
  function NewIds(ts: seq<TreatmentPlan>, t: seq<TreatmentPlan>): (r: seq<int>)
    requires |ts| <= |t|
    ensures |r| == |t| - |ts|
    ensures forall k :: 0 <= k < |r| ==> r[k] == |ts| + 1 + k
  {
    seq(|t| - |ts|, k => |ts| + 1 + k)
  }

  lemma NewIdsConcat(a: seq<TreatmentPlan>, b: seq<TreatmentPlan>, c: seq<TreatmentPlan>)
    requires |a| <= |b| <= |c|
    ensures NewIds(a, b) + NewIds(b, c) == NewIds(a, c)
  {
  }

  /** Reporting the ids of two growth steps in turn reports the ids of the whole growth. */
  lemma ReportsStep(c0: seq<int>, a: seq<TreatmentPlan>, b: seq<TreatmentPlan>, c: seq<TreatmentPlan>,
                    c1: seq<int>, c2: seq<int>)
    requires |a| <= |b| <= |c|
    requires c1 == c0 + NewIds(a, b) && c2 == c1 + NewIds(b, c)
    ensures c2 == c0 + NewIds(a, c)
  {
    NewIdsConcat(a, b, c);
    assert c2 == c0 + (NewIds(a, b) + NewIds(b, c));
  }

  /** Each plan has at most one treatment. */
  predicate UniquePlanIds(ts: seq<TreatmentPlan>) {
    forall i, j :: 0 <= i < j < |ts| ==> ts[i].planId != ts[j].planId
  }

  /**
   * What the loop keeps about the ids it reports: the created ids are
   * treatments of the table, and every queued id was created and names a
   * treatment that is still pending.
   */
  predicate QueueInv(m: Migration) {
    && (forall k :: 0 <= k < |m.created| ==> 1 <= m.created[k] <= |m.ts|)
    && (forall k :: 0 <= k < |m.queued| ==>
          m.queued[k] in m.created && 1 <= m.queued[k] <= |m.ts| && m.ts[m.queued[k] - 1].status == "pendente")
  }

  /** Appending a treatment of a plan that had none keeps at most one treatment per plan. */
  lemma UniqueAppend(ts: seq<TreatmentPlan>, t: TreatmentPlan)
    requires UniquePlanIds(ts) && ByPlanId(ts, t.planId).None?
    ensures UniquePlanIds(ts + [t])
  {
    assert forall k :: 0 <= k < |ts| ==> (ts + [t])[k] == ts[k];
  }

  /** One step keeps at most one treatment per plan. */
  lemma MigrateOneUnique(m: Migration, i: nat, d: MigrationDraws)
    requires ValidTreatments(m.ts) && i < |m.plans| && UniquePlanIds(m.ts)
    ensures UniquePlanIds(MigrateOne(m, i, d).ts)
  {
    if ByPlanId(m.ts, m.plans[i].id).None? {
      var t := MigratedTreatment(m.ts, m.plans[i], d);
      UniqueAppend(m.ts, t);
      assert MigrateOne(m, i, d).ts == m.ts + [t];
    }
  }

  lemma NewIdsNone(ts: seq<TreatmentPlan>)
    ensures NewIds(ts, ts) == []
  {
  }

  lemma NewIdsOne(ts: seq<TreatmentPlan>, t: TreatmentPlan)
    ensures NewIds(ts, ts + [t]) == [|ts| + 1]
  {
  }

  /** Appending a treatment, reporting its id and queueing it only if pending keeps the queue invariant. */
  lemma QueueInvGrow(m: Migration, r: Migration, t: TreatmentPlan)
    requires QueueInv(m)
    requires r.ts == m.ts + [t] && r.created == m.created + [|m.ts| + 1]
    requires r.queued == m.queued || (r.queued == m.queued + [|m.ts| + 1] && t.status == "pendente")
    ensures QueueInv(r)
  {
    assert forall k :: 0 <= k < |m.ts| ==> r.ts[k] == m.ts[k];
  }

  /** One step keeps the queue invariant. */
  lemma MigrateOneQueue(m: Migration, i: nat, d: MigrationDraws)
    requires ValidTreatments(m.ts) && i < |m.plans| && QueueInv(m)
    ensures QueueInv(MigrateOne(m, i, d))
  {
    if ByPlanId(m.ts, m.plans[i].id).None? {
      MigrateOneAdds(m, i, d);
      MigrateOneQueued(m, i, d);
      var r := MigrateOne(m, i, d);
      assert r.ts == m.ts + [r.ts[|m.ts|]];
      QueueInvGrow(m, r, r.ts[|m.ts|]);
    }
  }

  /** The loop over the plans from position `k` on, each with the draws of its position. */
  function MigrateFrom(m: Migration, k: nat, draws: seq<MigrationDraws>): (r: Migration)
    requires ValidTreatments(m.ts) && |m.plans| <= |draws|
    ensures ValidTreatments(r.ts) && Extends(m.ts, r.ts) && |r.plans| == |m.plans|
    ensures PlanKeys(r.plans) == PlanKeys(m.plans)
    ensures r.created == m.created + NewIds(m.ts, r.ts)
    ensures CoveredFrom(m.ts, m.plans, k) ==> r == m
    decreases |m.plans| - k
  {
    if k >= |m.plans| then NewIdsNone(m.ts); m
    else
      var m1 := MigrateOne(m, k, draws[k]);
      var r := MigrateFrom(m1, k + 1, draws);
      PrefixTrans(m.ts, m1.ts, r.ts);
      ReportsStep(m.created, m.ts, m1.ts, r.ts, m1.created, r.created);
      r
  }

  /** A plan that has a treatment still has one once the table grows. */
  lemma ByPlanIdExtended(ts: seq<TreatmentPlan>, t: seq<TreatmentPlan>, planId: nat)
    requires Extends(ts, t) && ByPlanId(ts, planId).Some?
    ensures ByPlanId(t, planId).Some?
  {
    var i :| 0 <= i < |ts| && ts[i].planId == planId;
    assert t[i] == ts[i];
  }

  /** After the loop from `k`, every plan from position `k` on has a treatment. */
  lemma {:induction false} MigrateCovers(m: Migration, k: nat, draws: seq<MigrationDraws>, j: nat)
    requires ValidTreatments(m.ts) && |m.plans| <= |draws| && k <= j < |m.plans|
    ensures ByPlanId(MigrateFrom(m, k, draws).ts, m.plans[j].id).Some?
    decreases |m.plans| - k
  {
    var m1 := MigrateOne(m, k, draws[k]);
    if j == k {
      ByPlanIdExtended(m1.ts, MigrateFrom(m1, k + 1, draws).ts, m.plans[j].id);
    } else {
      PlanKeysAt(m.plans, m1.plans, j);
      MigrateCovers(m1, k + 1, draws, j);
    }
  }

  /** The loop keeps at most one treatment per plan. */
  lemma {:induction false} MigrateUnique(m: Migration, k: nat, draws: seq<MigrationDraws>)
    requires ValidTreatments(m.ts) && |m.plans| <= |draws| && UniquePlanIds(m.ts)
    ensures UniquePlanIds(MigrateFrom(m, k, draws).ts)
    decreases |m.plans| - k
  {
    if k < |m.plans| {
      MigrateOneUnique(m, k, draws[k]);
      MigrateUnique(MigrateOne(m, k, draws[k]), k + 1, draws);
    }
  }

  /** The loop keeps the queue invariant. */
  lemma {:induction false} MigrateQueue(m: Migration, k: nat, draws: seq<MigrationDraws>)
    requires ValidTreatments(m.ts) && |m.plans| <= |draws| && QueueInv(m)
    ensures QueueInv(MigrateFrom(m, k, draws))
    decreases |m.plans| - k
  {
    if k < |m.plans| {
      var m1 := MigrateOne(m, k, draws[k]);
      MigrateOneQueue(m, k, draws[k]);
      MigrateQueue(m1, k + 1, draws);
      assert MigrateFrom(m, k, draws) == MigrateFrom(m1, k + 1, draws);
    }
  }

  /** Every plan from position `k` on has a treatment. */
  predicate CoveredFrom(ts: seq<TreatmentPlan>, plans: seq<Plan>, k: nat)
    decreases |plans| - k
  {
    k >= |plans| || (ByPlanId(ts, plans[k].id).Some? && CoveredFrom(ts, plans, k + 1))
  }

  lemma {:induction false} CoveredFromAll(ts: seq<TreatmentPlan>, plans: seq<Plan>, k: nat)
    requires forall j :: k <= j < |plans| ==> ByPlanId(ts, plans[j].id).Some?
    ensures CoveredFrom(ts, plans, k)
    decreases |plans| - k
  {
    if k < |plans| {
      CoveredFromAll(ts, plans, k + 1);
    }
  }

  /** A second migration over the migrated tables creates and queues nothing, whatever it draws. */
  lemma MigrateTwice(m: Migration, d1: seq<MigrationDraws>, d2: seq<MigrationDraws>)
    requires ValidTreatments(m.ts) && |m.plans| <= |d1| && |m.plans| <= |d2|
    ensures var r := MigrateFrom(m, 0, d1).(created := [], queued := []);
      MigrateFrom(r, 0, d2) == r
  {
    var r := MigrateFrom(m, 0, d1).(created := [], queued := []);
    forall j | 0 <= j < |r.plans|
      ensures ByPlanId(r.ts, r.plans[j].id).Some?
    {
      PlanKeysAt(m.plans, r.plans, j);
      MigrateCovers(m, 0, d1, j);
    }
    CoveredFromAll(r.ts, r.plans, 0);
  }

  /** `_enqueue` for each id in turn. */
  function EnqueueAll(e: TratamentoControl.Engine, ids: seq<int>): (r: TratamentoControl.Engine)
    ensures r.queue == e.queue + ids && r.current == e.current && r.enabled == e.enabled
    ensures ids == [] ==> r == e
    ensures ids != [] && e.current.None? && e.estado != TratamentoControl.Pausado ==> r.estado == TratamentoControl.Aguardando
    ensures e.current.Some? || e.estado == TratamentoControl.Pausado ==> r.estado == e.estado
    decreases |ids|
  {
    if ids == [] then e
    else
      var r := EnqueueAll(TratamentoControl.Enqueue(e, ids[0]), ids[1..]);
      assert e.queue + ids == e.queue + [ids[0]] + ids[1..];
      r
  }

  /**
   * The part of `migrar_planos` after materialisation: create a treatment
   * for every plan without one, then queue the ids whose plans await
   * rescission. Every plan ends with exactly one treatment, the created ids
   * are those of the new treatments, and each queued id is a created,
   * pending treatment appended to the engine's queue.
   */
  function MigrateTable(
    plans: seq<Plan>, ts: seq<TreatmentPlan>,
    e: TratamentoControl.Engine, draws: seq<MigrationDraws>)
    : (r: (Migration, TratamentoControl.Engine))
    requires ValidPlans(plans) && ValidTreatments(ts) && |plans| <= |draws|
    ensures ValidPlans(r.0.plans) && ValidTreatments(r.0.ts) && Extends(ts, r.0.ts) && QueueInv(r.0)
    ensures UniquePlanIds(ts) ==> UniquePlanIds(r.0.ts)
    ensures forall j :: 0 <= j < |r.0.plans| ==> ByPlanId(r.0.ts, r.0.plans[j].id).Some?
    ensures r.0.created == NewIds(ts, r.0.ts)
    ensures r.1.queue == e.queue + r.0.queued
  {
    var m := Migration(plans, ts, [], []);
    var r := MigrateFrom(m, 0, draws);
    MigrateQueue(m, 0, draws);
    assert UniquePlanIds(ts) ==> UniquePlanIds(r.ts) by {
      if UniquePlanIds(ts) {
        MigrateUnique(m, 0, draws);
      }
    }
    PlanKeysValid(plans, r.plans);
    assert forall j :: 0 <= j < |r.plans| ==> ByPlanId(r.ts, r.plans[j].id).Some? by {
      forall j | 0 <= j < |r.plans|
        ensures ByPlanId(r.ts, r.plans[j].id).Some?
      {
        PlanKeysAt(plans, r.plans, j);
        MigrateCovers(m, 0, draws, j);
      }
    }
    (r, EnqueueAll(e, r.queued))
  }

  /**
   * `migrar_planos`, with occurrences materialised by the corrected
   * `MaterializeOne`: every occurrence's plan exists and every plan ends
   * with exactly one treatment.
   */
  function MigrarPlanos(
    plans: seq<Plan>, occs: seq<DiscardedPlan>, ts: seq<TreatmentPlan>,
    e: TratamentoControl.Engine, draws: seq<MigrationDraws>)
    : (r: (Migration, TratamentoControl.Engine))
    requires ValidPlans(plans) && ValidTreatments(ts) && |plans| + |occs| <= |draws|
    ensures ValidPlans(r.0.plans) && ValidTreatments(r.0.ts) && Extends(ts, r.0.ts) && QueueInv(r.0)
    ensures UniquePlanIds(ts) ==> UniquePlanIds(r.0.ts)
    ensures forall j :: 0 <= j < |r.0.plans| ==> ByPlanId(r.0.ts, r.0.plans[j].id).Some?
    ensures r.0.created == NewIds(ts, r.0.ts)
    ensures r.1.queue == e.queue + r.0.queued
  {
    MaterializeBound(plans, occs);
    MigrateTable(Materialize(plans, occs), ts, e, draws)
  }

  /**
   * `migrar_planos` as written: when an occurrence is refused the error
   * escapes before the commit, so the call fails and no plan, treatment or
   * queued id survives; otherwise it is the corrected migration.
   */
  function MigrarPlanosAsWritten(
    plans: seq<Plan>, occs: seq<DiscardedPlan>, ts: seq<TreatmentPlan>,
    e: TratamentoControl.Engine, draws: seq<MigrationDraws>)
    : (r: Result<(Migration, TratamentoControl.Engine), UpsertError>)
    requires ValidPlans(plans) && ValidTreatments(ts) && |plans| + |occs| <= |draws|
    ensures r.Err? <==> MaterializeAsWritten(plans, occs).Err?
    ensures r.Ok? ==> r.value == MigrarPlanos(plans, occs, ts, e, draws)
  {
    match MaterializeAsWritten(plans, occs)
    case Err(err) => Err(err)
    case Ok(mat) =>
      MaterializeAsWrittenAgrees(plans, occs);
      MaterializeBound(plans, occs);
      Ok(MigrateTable(mat, ts, e, draws))
  }

  /**
   * On an empty plan table, one occurrence with a number and a CNPJ makes
   * the migration as written fail outright, where the corrected migration
   * creates its plan and a treatment for it.
   */
  lemma MigrarPlanosAsWrittenFails(
    o: DiscardedPlan, ts: seq<TreatmentPlan>, e: TratamentoControl.Engine, draws: seq<MigrationDraws>)
    requires ValidTreatments(ts) && 1 <= |draws|
    requires Strip(o.numeroPlano) != ""
    requires exists i :: 0 <= i < |o.cnpj| && IsDigit(o.cnpj[i])
    ensures MigrarPlanosAsWritten([], [o], ts, e, draws).Err?
    ensures var r := MigrarPlanos([], [o], ts, e, draws).0;
      |r.plans| == 1 && ByPlanId(r.ts, r.plans[0].id).Some?
  {
    MaterializeAsWrittenFails(o);
    var r := MigrarPlanos([], [o], ts, e, draws).0;
    PlanKeysAt(Materialize([], [o]), r.plans, 0);
  }

  /** After the migration every occurrence with a number has a plan of that number, and the plan a treatment. */
  lemma MigrarPlanosCoversOccurrences(
    plans: seq<Plan>, occs: seq<DiscardedPlan>, ts: seq<TreatmentPlan>,
    e: TratamentoControl.Engine, draws: seq<MigrationDraws>, i: nat)
    requires ValidPlans(plans) && ValidTreatments(ts) && |plans| + |occs| <= |draws|
    requires i < |occs| && Strip(occs[i].numeroPlano) != ""
    ensures var r := MigrarPlanos(plans, occs, ts, e, draws).0;
      exists j :: 0 <= j < |r.plans| && r.plans[j].numeroPlano == Strip(occs[i].numeroPlano)
        && ByPlanId(r.ts, r.plans[j].id).Some?
  {
    var mat := Materialize(plans, occs);
    MaterializeCovers(plans, occs, i);
    var j := FindPlan(mat, Strip(occs[i].numeroPlano)).value;
    var r := MigrarPlanos(plans, occs, ts, e, draws).0;
    PlanKeysAt(mat, r.plans, j);
    assert r.plans[j].numeroPlano == Strip(occs[i].numeroPlano);
  }
}
