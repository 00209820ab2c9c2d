/**
 * Record shapes of the persistent tables (`plans`, `treatment_plans`,
 * `plan_logs`, `discarded_plans`, `job_runs`) and the values a freshly
 * constructed row takes when only its required columns are given.
 *
 * Dates are day numbers and timestamps are abstract instants: the clock is
 * always a parameter of the operation that reads it.
 */
module Models {
  import opened Wrappers

  /** A calendar date, as a day number. */
  type Day = int

  /** A point in time, as a count of clock ticks. */
  type Instant = int

  /** A value held by a nullable column of `plans`, or by a JSON `info` entry. */
  datatype Value =
    | Null
    | Text(s: string)
    | Integer(i: int)
    | Date(d: Day)
    | Float(x: real)

  // ---------------------------------------------------------------- plans

  /**
   * The nullable columns of the `plans` table (everything but the key and
   * the audit columns): those the `Plan` class maps, and `NumeroInscricao`,
   * which the schema upgrade adds to the table but the class does not map.
   */
  datatype Column =
    | Gifug | RazaoSocial | SituacaoAtual | SituacaoAnterior | DiasEmAtraso | Tipo
    | DtSituacaoAtual | Saldo | CmbAjuste | Justificativa | Matricula | DtParcelaAtraso
    | Representacao | TipoParcelamento | SaldoTotal | Status | DataRescisao
    | DataComunicacao | MetodoComunicacao | ReferenciaComunicacao | NumeroInscricao
  {
    /** Whether the `Plan` class maps the column (accepts it as a keyword). */
    predicate Mapped() {
      !NumeroInscricao?
    }

    /** The attribute (and column) name. */
    function Name(): string {
      match this
      case Gifug => "gifug"
      case RazaoSocial => "razao_social"
      case SituacaoAtual => "situacao_atual"
      case SituacaoAnterior => "situacao_anterior"
      case DiasEmAtraso => "dias_em_atraso"
      case Tipo => "tipo"
      case DtSituacaoAtual => "dt_situacao_atual"
      case Saldo => "saldo"
      case CmbAjuste => "cmb_ajuste"
      case Justificativa => "justificativa"
      case Matricula => "matricula"
      case DtParcelaAtraso => "dt_parcela_atraso"
      case Representacao => "representacao"
      case TipoParcelamento => "tipo_parcelamento"
      case SaldoTotal => "saldo_total"
      case Status => "status"
      case DataRescisao => "data_rescisao"
      case DataComunicacao => "data_comunicacao"
      case MetodoComunicacao => "metodo_comunicacao"
      case ReferenciaComunicacao => "referencia_comunicacao"
      case NumeroInscricao => "numero_inscricao"
    }
  }

  /**
   * A `plans` row: the surrogate key, the required plan number, and the
   * nullable columns that hold a value (an absent column is NULL).
   */
  datatype Plan = Plan(id: nat, numeroPlano: string, columns: map<Column, Value>) {

    /** The value of a column, `Null` when it was never set. */
    function Get(c: Column): Value {
      if c in columns then columns[c] else Null
    }

    /** Python's truthiness of a text column (`if plan.x:`): set and non-empty. */
    predicate HasText(c: Column) {
      Get(c).Text? && Get(c).s != ""
    }
  }

  /** `Plan(numero_plano=..., **fields)` with mapped keywords only: the given columns, NULL elsewhere. */
  function NewPlan(id: nat, numero: string, fields: map<Column, Value>): (p: Plan)
    ensures p.id == id && p.numeroPlano == numero
    ensures forall c :: p.Get(c) == if c in fields then fields[c] else Null
  {
    Plan(id, numero, fields)
  }

  // ---------------------------------------------------------------- treatment plans

  /** The status strings the treatment engine writes into a stage entry. */
  datatype StageStatus = Pendente | Processando | Concluido | Cancelado {
    function Text(): string {
      match this
      case Pendente => "pendente"
      case Processando => "processando"
      case Concluido => "concluido"
      case Cancelado => "cancelado"
    }
  }

  /** One entry of the JSON `etapas` list of a treatment. */
  datatype Stage = Stage(
    id: int,
    nome: string,
    status: StageStatus,
    iniciadoEm: Option<Instant>,
    finalizadoEm: Option<Instant>,
    mensagem: string)

  /** A note value of the JSON `notas` map: text, or JSON `null`. */
  type Note = Option<string>

  datatype TreatmentPlan = TreatmentPlan(
    id: nat,
    planId: nat,
    numeroPlano: string,
    razaoSocial: string,
    status: string,
    etapaAtual: int,
    periodo: Option<string>,
    cnpjs: seq<string>,
    notas: map<string, Note>,
    etapas: seq<Stage>,
    bases: seq<string>,
    rescisaoData: Option<Day>)

  /** A `TreatmentPlan` built from its required columns only. */
  function NewTreatmentPlan(id: nat, planId: nat, numero: string, razao: string): (t: TreatmentPlan)
    ensures t.id == id && t.planId == planId && t.numeroPlano == numero && t.razaoSocial == razao
    ensures t.status == "pendente" && t.etapaAtual == 0
    ensures t.cnpjs == [] && t.etapas == [] && t.bases == [] && t.notas == map[]
    ensures t.periodo.None? && t.rescisaoData.None?
  {
    TreatmentPlan(id, planId, numero, razao, "pendente", 0, None, [], map[], [], [], None)
  }

  /** A fresh stage entry: pending, never started or finished, with no message. */
  function PendingStage(id: int, nome: string): (s: Stage)
    ensures s.id == id && s.nome == nome && s.status == Pendente && s.mensagem == ""
    ensures s.iniciadoEm.None? && s.finalizadoEm.None?
  {
    Stage(id, nome, Pendente, None, None, "")
  }

  // ---------------------------------------------------------------- plan logs

  datatype PlanLog = PlanLog(
    id: nat,
    contexto: string,
    numeroPlano: Option<string>,
    treatmentId: Option<int>,
    etapaNumero: Option<int>,
    etapaNome: Option<string>,
    status: string,
    mensagem: string,
    createdAt: Instant)

  /** A `PlanLog` built from its required columns only; the optional ones are NULL. */
  function NewPlanLog(id: nat, contexto: string, status: string, mensagem: string, now: Instant): (l: PlanLog)
    ensures l.id == id && l.contexto == contexto && l.status == status && l.mensagem == mensagem
    ensures l.numeroPlano.None? && l.treatmentId.None? && l.etapaNumero.None? && l.etapaNome.None?
    ensures l.createdAt == now
  {
    PlanLog(id, contexto, None, None, None, None, status, mensagem, now)
  }

  // ---------------------------------------------------------------- discarded plans

  datatype DiscardedPlan = DiscardedPlan(
    id: nat,
    numeroPlano: string,
    situacao: string,
    cnpj: string,
    tipo: Option<string>,
    saldo: Option<real>,
    dtSituacaoAtual: Option<Day>,
    createdAt: Instant)

  /** A `DiscardedPlan` built from its required columns only. */
  function NewDiscardedPlan(id: nat, numero: string, situacao: string, cnpj: string, now: Instant): (d: DiscardedPlan)
    ensures d.id == id && d.numeroPlano == numero && d.situacao == situacao && d.cnpj == cnpj
    ensures d.tipo.None? && d.saldo.None? && d.dtSituacaoAtual.None?
  {
    DiscardedPlan(id, numero, situacao, cnpj, None, None, None, now)
  }

  // ---------------------------------------------------------------- job runs

  datatype JobRun = JobRun(
    id: nat,
    jobName: string,
    step: Option<string>,
    inputHash: Option<string>,
    info: Option<map<string, Value>>,
    startedAt: Instant,
    finishedAt: Option<Instant>,
    status: string)

  /** A `JobRun` built from its required column only: status "OK", not finished. */
  function NewJobRun(id: nat, jobName: string, now: Instant): (j: JobRun)
    ensures j.id == id && j.jobName == jobName && j.startedAt == now
    ensures j.status == "OK" && j.finishedAt.None?
    ensures j.step.None? && j.inputHash.None? && j.info.None?
  {
    JobRun(id, jobName, None, None, None, now, None, "OK")
  }
}
