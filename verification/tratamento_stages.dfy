/**
 * The per-treatment stage loop of the treatment engine: the notes each
 * stage writes, the plan updates of stages 6 and 7, the stage-5 discard
 * and the final forcing of the "rescindido" outcome.
 *
 * Every random draw and the clock come in as a `Draws` value. The stage
 * entries follow the list-level passes of `StageList`; within one pass the
 * stage's own work touches only the notes, the plan table and the dates,
 * so it commutes with the entry updates around it.
 */
module TratamentoStages {
  import opened Wrappers
  import opened Text
  import opened Enums
  import opened Models
  import opened StageTables
  import opened StageList
  import Repositories

  // ---------------------------------------------------------------- stage work

  /** How stage 7 reached the company: a CNS protocol or an e-mail contact. */
  datatype Comunicacao = CNS(nsuDigits: string) | Email(contato: int)

  /** Every random draw and clock reading a treatment run consumes. */
  datatype Draws = Draws(
    aproveitamento: bool,
    competencias: Option<string>,
    substituicao: bool,
    guiasSfg: nat,
    guiasFge: nat,
    dataSolicitacao: string,
    parcelas: seq<string>,
    discard: bool,
    hoje: Day,
    hojeTexto: string,
    comunicacao: Comunicacao,
    now: Instant)

  /** The treatment and the plans table that stages 6 and 7 update. */
  datatype World = World(t: TreatmentPlan, plans: seq<Plan>)

  /** `f"{value}"` of an optional text: `None` prints as "None". */
  function Shown(value: Option<string>): string {
    value.GetOr("None")
  }

  /** `notas.setdefault(key, value)`. */
  function SetDefault(notas: map<string, Note>, key: string, value: Note): (r: map<string, Note>)
    ensures key in r && (key in notas ==> r == notas) && (key !in notas ==> r == notas[key := value])
  {
    if key in notas then notas else notas[key := value]
  }

  /** The notes of stage 1: the analysis text, identification defaults and the bases. */
  function Etapa1(t: TreatmentPlan, aproveitamento: bool): (r: TreatmentPlan)
    ensures r.(notas := t.notas) == t
    ensures "E398_BASES" in r.notas && r.notas["E398_BASES"] == Some(Join("\n", t.bases))
    ensures "E544_DATA_SOLICITACAO" in r.notas && r.notas["E544_DATA_SOLICITACAO"] == Some("")
    ensures "E213_APROVEITAMENTO_RECOLHIMENTOS" in r.notas && "PLANO" in r.notas
  {
    var texto := "CNPJs analisados: " + Join(", ", t.cnpjs) + "\nPeríodo: " + Shown(t.periodo)
      + "\nRazão social: " + t.razaoSocial + "\nHouve aproveitamento? " + (if aproveitamento then "Sim" else "Não");
    var n := t.notas["E213_APROVEITAMENTO_RECOLHIMENTOS" := Some(texto)]["E544_DATA_SOLICITACAO" := Some("")];
    var n := SetDefault(n, "E544_PERIODO", t.periodo);
    var n := SetDefault(n, "E544_CNPJS", Some(Join("\n", t.cnpjs)));
    var n := SetDefault(n, "CNPJ_CEI", Some(Join(", ", t.cnpjs)));
    var n := SetDefault(n, "RAZAO_SOCIAL", Some(t.razaoSocial));
    var n := SetDefault(n, "PLANO", Some(t.numeroPlano));
    t.(notas := n["E398_BASES" := Some(Join("\n", t.bases))])
  }

  /** The note of stage 2: the overlap period (if any) and whether debts were substituted. */
  function Etapa2(t: TreatmentPlan, competencias: Option<string>, substituicao: bool): (r: TreatmentPlan)
    ensures r == t.(notas := r.notas) && r.notas.Keys == t.notas.Keys + {"E206_SUBSTITUICAO_CONFISSAO_NOTIFICACAO"}
  {
    var c := competencias.GetOr("Sem competências congruentes");
    var res := if substituicao then "Débitos confessados substituídos por notificação fiscal" else "Sem substituição";
    var texto := "Há indícios de competências congruentes? " + c + "\nResultado: " + res;
    t.(notas := t.notas["E206_SUBSTITUICAO_CONFISSAO_NOTIFICACAO" := Some(texto)])
  }

  const GuiasSfgPrefix: string := "PESQUISA DE GUIAS SFG: "
  const GuiasFgePrefix: string := "GUIAS LANÇADAS: "

  /** The search-result text of stage 3 for `quantidade` guides found. */
  function GuiasSfgTexto(quantidade: nat): (r: string)
    ensures StartsWith(r, GuiasSfgPrefix)
  {
    if quantidade == 0 then GuiasSfgPrefix + "NÃO HÁ GUIAS"
    else GuiasSfgPrefix + ZeroPad(quantidade, 2) + " GUIAS LOCALIZADAS"
  }

  /** The launch-result text of stage 4 for `quantidade` guides processed. */
  function GuiasFgeTexto(quantidade: nat): (r: string)
    ensures StartsWith(r, GuiasFgePrefix)
  {
    if quantidade == 0 then GuiasFgePrefix + "NENHUMA GUIA PROCESSADA"
    else GuiasFgePrefix + ZeroPad(quantidade, 2) + " GUIAS PROCESSADAS"
  }

  /**
   * The stage 3 and 4 texts name the count: for 1 to 99 guides the two
   * characters after the prefix are the count in decimal, for none a fixed
   * sentence without digits there.
   */
  lemma GuiasTextoNamesCount(q: nat)
    requires 1 <= q <= 99
    ensures var s := GuiasSfgTexto(q);
      AllDigits(s[|GuiasSfgPrefix|..|GuiasSfgPrefix| + 2]) && ParseNat(s[|GuiasSfgPrefix|..|GuiasSfgPrefix| + 2]) == q
    ensures var s := GuiasFgeTexto(q);
      AllDigits(s[|GuiasFgePrefix|..|GuiasFgePrefix| + 2]) && ParseNat(s[|GuiasFgePrefix|..|GuiasFgePrefix| + 2]) == q
    ensures GuiasSfgTexto(0) != GuiasSfgTexto(q) && GuiasFgeTexto(0) != GuiasFgeTexto(q)
  {
    ZeroPadLength(q, 2);
    ParseZeroPad(q, 2);
    var z := ZeroPad(q, 2);
    var s := GuiasSfgTexto(q);
    assert s[|GuiasSfgPrefix|..|GuiasSfgPrefix| + 2] == z;
    var f := GuiasFgeTexto(q);
    assert f[|GuiasFgePrefix|..|GuiasFgePrefix| + 2] == z;
    assert GuiasSfgTexto(0)[|GuiasSfgPrefix|] == 'N';
    assert GuiasFgeTexto(0)[|GuiasFgePrefix|] == 'N';
    assert s[|GuiasSfgPrefix|] == z[0];
    assert f[|GuiasFgePrefix|] == z[0];
  }

  /** The note of stage 3: the guide search result; every other note and field is kept. */
  function Etapa3(t: TreatmentPlan, quantidade: nat): (r: TreatmentPlan)
    ensures r.(notas := t.notas) == t
    ensures r.notas.Keys == t.notas.Keys + {"PESQUISA_GUIAS_SFG"}
    ensures r.notas["PESQUISA_GUIAS_SFG"].Some? && StartsWith(r.notas["PESQUISA_GUIAS_SFG"].value, GuiasSfgPrefix)
    ensures r.notas["PESQUISA_GUIAS_SFG"] == Some(GuiasSfgTexto(quantidade))
    ensures forall k :: k in t.notas && k != "PESQUISA_GUIAS_SFG" ==> r.notas[k] == t.notas[k]
  {
    t.(notas := t.notas["PESQUISA_GUIAS_SFG" := Some(GuiasSfgTexto(quantidade))])
  }

  /** The note of stage 4: the guide launch result; every other note and field is kept. */
  function Etapa4(t: TreatmentPlan, quantidade: nat): (r: TreatmentPlan)
    ensures r.(notas := t.notas) == t
    ensures r.notas.Keys == t.notas.Keys + {"LANCAMENTO_GUIAS_FGE"}
    ensures r.notas["LANCAMENTO_GUIAS_FGE"].Some? && StartsWith(r.notas["LANCAMENTO_GUIAS_FGE"].value, GuiasFgePrefix)
    ensures r.notas["LANCAMENTO_GUIAS_FGE"] == Some(GuiasFgeTexto(quantidade))
    ensures forall k :: k in t.notas && k != "LANCAMENTO_GUIAS_FGE" ==> r.notas[k] == t.notas[k]
  {
    t.(notas := t.notas["LANCAMENTO_GUIAS_FGE" := Some(GuiasFgeTexto(quantidade))])
  }

  /** The notes of stage 5: the request date and the overdue instalment lines. */
  function Etapa5(t: TreatmentPlan, dataSolicitacao: string, parcelas: seq<string>): (r: TreatmentPlan)
    ensures r.(notas := t.notas) == t
    ensures r.notas == t.notas["E544_DATA_SOLICITACAO" := Some(dataSolicitacao)]["E50H_PARCELAS_ATRASO" := Some(Join("\n", parcelas))]
  {
    t.(notas := t.notas["E544_DATA_SOLICITACAO" := Some(dataSolicitacao)]["E50H_PARCELAS_ATRASO" := Some(Join("\n", parcelas))])
  }

  /**
   * Stage 6: the plan of the treatment (by number) is marked rescinded today
   * and the treatment records the date; without a plan nothing changes.
   */
  function Etapa6(w: World, hoje: Day, hojeTexto: string): (r: World)
    requires Repositories.ValidPlans(w.plans)
    ensures Repositories.ValidPlans(r.plans) && |r.plans| == |w.plans|
    ensures Repositories.FindPlan(w.plans, w.t.numeroPlano).None? ==> r == w
    ensures Repositories.FindPlan(w.plans, w.t.numeroPlano).Some? ==>
      var i := Repositories.FindPlan(w.plans, w.t.numeroPlano).value;
      && r.t == w.t.(rescisaoData := Some(hoje), notas := w.t.notas["E554_DATA_RESCISAO_FGE" := Some(hojeTexto)])
      && r.plans[i].Get(Status) == Text(PlanStatusValue(RESCINDIDO))
      && r.plans[i].Get(DataRescisao) == Date(hoje)
      && r.plans[i].Get(SituacaoAtual) == Text("RESCINDIDO")
      && r.plans[i].Get(DtSituacaoAtual) == Date(hoje)
      && (forall j :: 0 <= j < |w.plans| && j != i ==> r.plans[j] == w.plans[j])
  {
    match Repositories.FindPlan(w.plans, w.t.numeroPlano)
    case None => w
    case Some(i) =>
      World(
        w.t.(rescisaoData := Some(hoje), notas := w.t.notas["E554_DATA_RESCISAO_FGE" := Some(hojeTexto)]),
        RescindAt(w.plans, i, hoje))
  }

  /** The columns stage 6 writes on the plan at position `i`; every other plan is kept. */
  function RescindAt(plans: seq<Plan>, i: nat, hoje: Day): (r: seq<Plan>)
    requires Repositories.ValidPlans(plans) && i < |plans|
    ensures Repositories.ValidPlans(r) && |r| == |plans|
    ensures r[i].Get(Status) == Text(PlanStatusValue(RESCINDIDO))
    ensures r[i].Get(DataRescisao) == Date(hoje)
    ensures r[i].Get(SituacaoAtual) == Text("RESCINDIDO")
    ensures r[i].Get(DtSituacaoAtual) == Date(hoje)
    ensures forall j :: 0 <= j < |plans| && j != i ==> r[j] == plans[j]
  {
    var fields := map[
      SituacaoAtual := Text("RESCINDIDO"), DtSituacaoAtual := Date(hoje),
      Status := Text(PlanStatusValue(RESCINDIDO)), DataRescisao := Date(hoje)];
    Repositories.UpdateAt(plans, i, fields)
  }

  function MetodoTexto(c: Comunicacao): string {
    match c
    case CNS(_) => "CNS"
    case Email(_) => "Email"
  }

  /** The reference of a communication: "NSU-" and the protocol digits, or a contact address. */
  function Referencia(c: Comunicacao): (r: string)
    ensures c.CNS? ==> StartsWith(r, "NSU-") && r[4..] == c.nsuDigits
    ensures c.Email? ==> StartsWith(r, "contato_")
  {
    match c
    case CNS(d) => "NSU-" + d
    case Email(n) => "contato_" + IntToString(n) + "@empresa.com"
  }

  /**
   * The notes of stage 7: method, reference and date always; the dossier
   * name and the closing date only when absent.
   */
  function Etapa7Notas(t: TreatmentPlan, c: Comunicacao, hojeTexto: string): (r: TreatmentPlan)
    ensures r.(notas := t.notas) == t
    ensures "E554_METODO_COMUNICACAO" in r.notas && r.notas["E554_METODO_COMUNICACAO"] == Some(MetodoTexto(c))
    ensures "E554_NSU_OU_EMAIL" in r.notas && r.notas["E554_NSU_OU_EMAIL"] == Some(Referencia(c))
    ensures "E554_DATA_COMUNICACAO" in r.notas && r.notas["E554_DATA_COMUNICACAO"] == Some(hojeTexto)
    ensures "E554_NOME_DOSSIE" in r.notas && "E554_DATA_FINALIZACAO_SIREP" in r.notas
    ensures "E554_NOME_DOSSIE" in t.notas ==> r.notas["E554_NOME_DOSSIE"] == t.notas["E554_NOME_DOSSIE"]
    ensures "E554_NOME_DOSSIE" !in t.notas ==> r.notas["E554_NOME_DOSSIE"] == Some("Dossie_" + t.numeroPlano)
  {
    var n := t.notas["E554_DATA_COMUNICACAO" := Some(hojeTexto)]
      ["E554_METODO_COMUNICACAO" := Some(MetodoTexto(c))]["E554_NSU_OU_EMAIL" := Some(Referencia(c))];
    var n := SetDefault(n, "E554_NOME_DOSSIE", Some("Dossie_" + t.numeroPlano));
    t.(notas := SetDefault(n, "E554_DATA_FINALIZACAO_SIREP", Some(hojeTexto)))
  }

  /** Stage 7: the communication notes and, when the plan exists, its communication columns. */
  function Etapa7(w: World, c: Comunicacao, hoje: Day, hojeTexto: string): (r: World)
    requires Repositories.ValidPlans(w.plans)
    ensures Repositories.ValidPlans(r.plans) && |r.plans| == |w.plans|
    ensures r.t == Etapa7Notas(w.t, c, hojeTexto)
    ensures Repositories.FindPlan(w.plans, w.t.numeroPlano).None? ==> r.plans == w.plans
    ensures Repositories.FindPlan(w.plans, w.t.numeroPlano).Some? ==>
      var i := Repositories.FindPlan(w.plans, w.t.numeroPlano).value;
      && r.plans[i].Get(MetodoComunicacao) == Text(MetodoTexto(c))
      && r.plans[i].Get(ReferenciaComunicacao) == Text(Referencia(c))
      && r.plans[i].Get(DataComunicacao) == Date(hoje)
      && (forall j :: 0 <= j < |w.plans| && j != i ==> r.plans[j] == w.plans[j])
  {
    var t := Etapa7Notas(w.t, c, hojeTexto);
    match Repositories.FindPlan(w.plans, w.t.numeroPlano)
    case None => World(t, w.plans)
    case Some(i) =>
      var fields := map[
        DataComunicacao := Date(hoje), MetodoComunicacao := Text(MetodoTexto(c)),
        ReferenciaComunicacao := Text(Referencia(c))];
      World(t, Repositories.UpdateAt(w.plans, i, fields))
  }

  /** The work of one stage, without its start and finish markers. */
  function StageWork(w: World, id: int, d: Draws): (r: World)
    requires Repositories.ValidPlans(w.plans)
    ensures Repositories.ValidPlans(r.plans)
    ensures r.t.etapas == w.t.etapas && r.t.status == w.t.status && r.t.etapaAtual == w.t.etapaAtual
  {
    if id == 1 then w.(t := Etapa1(w.t, d.aproveitamento))
    else if id == 2 then w.(t := Etapa2(w.t, d.competencias, d.substituicao))
    else if id == 3 then w.(t := Etapa3(w.t, d.guiasSfg))
    else if id == 4 then w.(t := Etapa4(w.t, d.guiasFge))
    else if id == 5 then w.(t := Etapa5(w.t, d.dataSolicitacao, d.parcelas))
    else if id == 6 then Etapa6(w, d.hoje, d.hojeTexto)
    else if id == 7 then Etapa7(w, d.comunicacao, d.hoje, d.hojeTexto)
    else w
  }

  // ---------------------------------------------------------------- the stage loop

  /**
   * One pass of the loop of `_process_plan` for stage `sid`: a finished or
   * cancelled stage is only fetched; otherwise the stage becomes the
   * current one, its work is done, and its entry follows `Pass`, with the
   * treatment marked "descartado" after a discard.
   */
  function RunStage(w: World, sid: int, d: Draws): (r: (World, bool))
    requires Repositories.ValidPlans(w.plans)
    ensures Repositories.ValidPlans(r.0.plans)
    ensures (r.0.t.etapas, r.1) == Pass(w.t.etapas, sid, d.discard, d.now)
    ensures r.1 <==> sid == 5 && d.discard && !Done(w.t.etapas, 5)
    ensures !r.1 ==> r.0.t.status == w.t.status
    ensures r.1 ==> r.0.t.status == "descartado"
    ensures Done(w.t.etapas, sid) ==> r.0.t.etapaAtual == w.t.etapaAtual && r.0.plans == w.plans
    ensures !Done(w.t.etapas, sid) ==> r.0.t.etapaAtual == sid
  {
    var (e, discarded) := Pass(w.t.etapas, sid, d.discard, d.now);
    if Done(w.t.etapas, sid) then
      (w.(t := w.t.(etapas := e)), false)
    else
      var w1 := StageWork(w, sid, d);
      var status := if discarded then "descartado" else w1.t.status;
      (w1.(t := w1.t.(etapas := e, etapaAtual := sid, status := status)), discarded)
  }

  /**
   * The loop of `_process_plan` from table position `k` on: one pass per
   * stage in table order, stopping after a discard. Returns the world and
   * whether a discard happened.
   */
  function RunStages(w: World, k: nat, d: Draws): (r: (World, bool))
    requires k <= StageCount && Repositories.ValidPlans(w.plans)
    ensures Repositories.ValidPlans(r.0.plans)
    ensures (r.0.t.etapas, r.1) == Passes(w.t.etapas, k, d.discard, d.now)
    ensures !r.1 ==> r.0.t.status == w.t.status
    ensures r.1 ==> r.0.t.status == "descartado"
    decreases StageCount - k
  {
    if k == StageCount then (w, false)
    else
      var (w1, discarded) := RunStage(w, k + 1, d);
      if discarded then (w1, true) else RunStages(w1, k + 1, d)
  }

  const ConclusaoFinal: string := "Comunicação concluída"

  /**
   * `_process_plan` for a found treatment: mark it processing, run the
   * loop, and unless it was discarded force the "rescindido" outcome with
   * stage 7 current and finished.
   */
  function ProcessPlan(w: World, d: Draws): (r: World)
    requires Repositories.ValidPlans(w.plans)
    ensures Repositories.ValidPlans(r.plans)
    ensures r.t.status == "rescindido" || r.t.status == "descartado"
    ensures r.t.status == "descartado" <==> d.discard && !Done(w.t.etapas, 5)
    ensures r.t.status == "rescindido" ==>
      r.t.etapaAtual == 7 && StageIs(r.t.etapas, 7, Concluido, ConclusaoFinal)
  {
    var w0 := w.(t := w.t.(status := "processando"));
    var (w1, _) := RunStages(w0, 0, d);
    PassesDiscard(w.t.etapas, 0, d.discard, d.now);
    if w1.t.status != "rescindido" && w1.t.status != "descartado" then
      var t := w1.t.(status := "rescindido", etapaAtual := 7);
      w1.(t := t.(etapas := FinishStage(t.etapas, 7, ConclusaoFinal, d.now)))
    else
      w1
  }

  /**
   * What a run leaves in the stage list: every stage before the last ends
   * with its final entry, and so does stage 7 after a discard; otherwise
   * stage 7 is finished with the closing message.
   */
  lemma ProcessPlanStages(w: World, d: Draws, b: int)
    requires Repositories.ValidPlans(w.plans) && 1 <= b <= StageCount
    ensures var r := ProcessPlan(w, d);
      var discarded := d.discard && !Done(w.t.etapas, 5);
      && (b < 7 || discarded ==> StageOf(r.t.etapas, b) == Some(FinalEntry(Current(w.t.etapas, b), b, discarded, d.now)))
      && (b == 7 && !discarded ==> StageIs(r.t.etapas, 7, Concluido, ConclusaoFinal))
  {
    PassesFinal(w.t.etapas, 0, d.discard, d.now, b);
    PassesDiscard(w.t.etapas, 0, d.discard, d.now);
  }

  /**
   * A treatment run from scratch (every stage pending) ends with all seven
   * stages finished and the treatment rescinded, or, after a discard, with
   * stages 1 to 5 finished, 6 and 7 cancelled and the treatment discarded.
   */
  lemma FreshTreatmentOutcome(w: World, d: Draws, b: int)
    requires Repositories.ValidPlans(w.plans) && 1 <= b <= StageCount
    requires forall s :: 1 <= s <= StageCount ==> Current(w.t.etapas, s).status == Pendente
    ensures var r := ProcessPlan(w, d);
      && (r.t.status == "descartado" <==> d.discard)
      && (!d.discard || b <= 5 ==> StageHas(r.t.etapas, b, Concluido))
      && (d.discard && b > 5 ==> StageHas(r.t.etapas, b, Cancelado))
  {
    assert Current(w.t.etapas, 5).status == Pendente;
    assert Current(w.t.etapas, b).status == Pendente;
    ProcessPlanStages(w, d, b);
  }

  /**
   * `_process_plan` as written, as the table holds the treatment after the
   * run. Status, current stage, notes and plans are assigned as attributes
   * and written back at each commit. The stage markers, by contrast, update
   * entries of the mutable stage list in place, which the column does not
   * notice; only an append of a missing stage marks the list changed. When
   * the stored list holds every stage nothing is ever appended
   * (`ProcessPlanInPlace`), so the `db.refresh` after the loop reloads the
   * stored list, the closing mark on stage 7 is again made in place, and
   * the stored list comes back unchanged. When an entry was missing, the
   * list the run built is taken as stored.
   */
  function ProcessPlanAsWritten(w: World, d: Draws): (r: World)
    requires Repositories.ValidPlans(w.plans)
    ensures Repositories.ValidPlans(r.plans)
    ensures r.t.status == "rescindido" || r.t.status == "descartado"
    ensures r.t.status == "descartado" <==> d.discard && !Done(w.t.etapas, 5)
    ensures r.t.status == "rescindido" ==> r.t.etapaAtual == 7
    ensures HoldsAllStages(w.t.etapas) ==> r.t.etapas == w.t.etapas
  {
    var m := ProcessPlan(w, d);
    if HoldsAllStages(w.t.etapas) then m.(t := m.t.(etapas := w.t.etapas)) else m
  }

  /**
   * On a stored list holding every stage the run never appends: the list
   * it leaves in memory has the stored list's length and still holds
   * every stage, so every mark it made was an in-place update.
   */
  lemma ProcessPlanInPlace(w: World, d: Draws)
    requires Repositories.ValidPlans(w.plans) && HoldsAllStages(w.t.etapas)
    ensures |ProcessPlan(w, d).t.etapas| == |w.t.etapas|
    ensures HoldsAllStages(ProcessPlan(w, d).t.etapas)
  {
    var e := Passes(w.t.etapas, 0, d.discard, d.now).0;
    ProcessPlanList(w, d);
    PassesInPlace(w.t.etapas, 0, d.discard, d.now);
    SetStageHolds(e, 7, Finished(Current(e, 7), ConclusaoFinal, d.now));
  }

  /** The list a run leaves in memory: the loop's list, closed at stage 7 unless discarded. */
  lemma ProcessPlanList(w: World, d: Draws)
    requires Repositories.ValidPlans(w.plans)
    ensures var e := Passes(w.t.etapas, 0, d.discard, d.now).0;
      ProcessPlan(w, d).t.etapas == if d.discard && !Done(w.t.etapas, 5) then e else FinishStage(e, 7, ConclusaoFinal, d.now)
  {
    PassesDiscard(w.t.etapas, 0, d.discard, d.now);
  }

  /**
   * The lost progress: a treatment whose stored stages are all present and
   * pending is rescinded (or discarded) with every stage still pending in
   * the table, while the run in memory finished stage 1.
   */
  lemma FreshTreatmentProgressLost(w: World, d: Draws, b: int)
    requires Repositories.ValidPlans(w.plans) && 1 <= b <= StageCount
    requires HoldsAllStages(w.t.etapas)
    requires forall s :: 1 <= s <= StageCount ==> Current(w.t.etapas, s).status == Pendente
    ensures var r := ProcessPlanAsWritten(w, d);
      && (r.t.status == "rescindido" <==> !d.discard)
      && StageHas(r.t.etapas, b, Pendente)
      && StageHas(ProcessPlan(w, d).t.etapas, 1, Concluido)
  {
    assert Current(w.t.etapas, 5).status == Pendente;
    assert Current(w.t.etapas, b).status == Pendente;
    HoldsStagesFromIff(w.t.etapas, 0);
    assert StageOf(w.t.etapas, b).Some?;
    FreshTreatmentOutcome(w, d, 1);
  }

  /**
   * `_process_plan` on the treatment table: the treatment with id `id` is
   * run and stored back; an unknown id changes nothing.
   */
  function ProcessTreatment(ts: seq<TreatmentPlan>, plans: seq<Plan>, id: int, d: Draws)
    : (r: (seq<TreatmentPlan>, seq<Plan>))
    requires Repositories.ValidTreatments(ts) && Repositories.ValidPlans(plans)
    ensures Repositories.ValidTreatments(r.0) && Repositories.ValidPlans(r.1) && |r.0| == |ts|
    ensures !(1 <= id <= |ts|) ==> r == (ts, plans)
    ensures 1 <= id <= |ts| ==>
      && (r.0[id - 1].status == "rescindido" || r.0[id - 1].status == "descartado")
      && (forall j :: 0 <= j < |ts| && j != id - 1 ==> r.0[j] == ts[j])
  {
    if 1 <= id <= |ts| then
      var w := ProcessPlan(World(ts[id - 1], plans), d);
      (ts[id - 1 := w.t.(id := id)], w.plans)
    else
      (ts, plans)
  }
}
