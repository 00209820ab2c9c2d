/**
 * The repository layer over an in-memory store. Each table is a sequence of
 * rows in insertion order whose ids are their positions counted from 1
 * (autoincrement without deletion), so "ordered by id" is the sequence
 * order and "the row with id n" is the row at position n - 1.
 */
module Repositories {
  import opened Wrappers
  import opened Text
  import opened Enums
  import opened Collections
  import opened Models

  // ---------------------------------------------------------------- plans

  /** Ids follow insertion order and plan numbers are unique. */
  predicate ValidPlans(plans: seq<Plan>) {
    && (forall i :: 0 <= i < |plans| ==> plans[i].id == i + 1)
    && (forall i, j :: 0 <= i < j < |plans| ==> plans[i].numeroPlano != plans[j].numeroPlano)
  }

  /** The position of the plan with number `numero` (`get_by_numero`). */
  function FindPlan(plans: seq<Plan>, numero: string): (r: Option<nat>)
    ensures r.Some? ==> r.value < |plans| && plans[r.value].numeroPlano == numero
    ensures r.None? ==> forall i :: 0 <= i < |plans| ==> plans[i].numeroPlano != numero
    decreases |plans|
  {
    if plans == [] then None
    else if plans[|plans| - 1].numeroPlano == numero then Some(|plans| - 1)
    else FindPlan(plans[..|plans| - 1], numero)
  }

  /** In a valid table the plan with a given number is unique, so any match is the one found. */
  lemma FindPlanUnique(plans: seq<Plan>, numero: string, i: nat)
    requires ValidPlans(plans)
    requires i < |plans| && plans[i].numeroPlano == numero
    ensures FindPlan(plans, numero) == Some(i)
  {
  }

  /** Why an insert is refused: the constructor only accepts mapped attributes. */
  datatype UpsertError = InvalidKeyword

  /** Every passed column is one the `Plan` class maps. */
  predicate AllMapped(fields: map<Column, Value>) {
    forall c :: c in fields ==> c.Mapped()
  }

  /** The passed columns the `Plan` class maps. */
  function MappedPart(fields: map<Column, Value>): (m: map<Column, Value>)
    ensures forall c :: c in m <==> c in fields && c.Mapped()
    ensures forall c :: c in m ==> m[c] == fields[c]
  {
    fields - {NumeroInscricao}
  }

  /**
   * `setattr(plan, key, value)` for every passed column; a column the
   * `Plan` class does not map only becomes a transient Python attribute
   * and is not stored.
   */
  function Assign(p: Plan, fields: map<Column, Value>): (r: Plan)
    ensures r.id == p.id && r.numeroPlano == p.numeroPlano
    ensures forall c: Column :: c.Mapped() ==> r.Get(c) == if c in fields then fields[c] else p.Get(c)
    ensures r.Get(NumeroInscricao) == p.Get(NumeroInscricao)
  {
    p.(columns := p.columns + (fields - {NumeroInscricao}))
  }

  /**
   * `PlanRepository.upsert`: insert a new plan when the number is unknown,
   * otherwise overwrite only the passed fields. `unmapped` holds the
   * keywords that name no column at all. The constructor refuses those and
   * every passed column the `Plan` class does not map, and `setattr` on a
   * loaded plan stores nothing for either. Returns the new table and the
   * stored plan.
   */
  function Upsert(plans: seq<Plan>, numero: string, fields: map<Column, Value>, unmapped: set<string>)
    : (r: Result<(seq<Plan>, Plan), UpsertError>)
    requires ValidPlans(plans)
    ensures r.Err? <==> FindPlan(plans, numero).None? && (unmapped != {} || !AllMapped(fields))
    ensures r.Ok? ==> ValidPlans(r.value.0) && r.value.1.numeroPlano == numero
    ensures r.Ok? ==>
      FindPlan(r.value.0, numero).Some? && r.value.0[FindPlan(r.value.0, numero).value] == r.value.1
  {
    match FindPlan(plans, numero)
    case None =>
      if unmapped == {} && AllMapped(fields) then
        var p := NewPlan(|plans| + 1, numero, fields);
        var t := plans + [p];
        FindPlanUnique(t, numero, |plans|);
        Ok((t, p))
      else
        Err(InvalidKeyword)
    case Some(i) =>
      var p := Assign(plans[i], fields);
      var t := plans[i := p];
      FindPlanUnique(t, numero, i);
      Ok((t, p))
  }

  /**
   * An unknown number inserts exactly when every passed column is mapped,
   * and then adds one plan at the end holding exactly the passed columns.
   */
  lemma UpsertInserts(plans: seq<Plan>, numero: string, fields: map<Column, Value>)
    requires ValidPlans(plans)
    requires forall i :: 0 <= i < |plans| ==> plans[i].numeroPlano != numero
    ensures Upsert(plans, numero, fields, {}).Ok? <==> AllMapped(fields)
    ensures AllMapped(fields) ==> var r := Upsert(plans, numero, fields, {}).value;
      && |r.0| == |plans| + 1 && r.0[..|plans|] == plans && r.0[|plans|] == r.1
      && r.1.id == |plans| + 1
      && forall c :: r.1.Get(c) == if c in fields then fields[c] else Null
  {
    assert (plans + [NewPlan(|plans| + 1, numero, fields)])[..|plans|] == plans;
  }

  /** A known number changes only that plan, and only in the passed mapped columns; unmapped ones are dropped. */
  lemma UpsertMerges(plans: seq<Plan>, numero: string, fields: map<Column, Value>, unmapped: set<string>, i: nat)
    requires ValidPlans(plans)
    requires i < |plans| && plans[i].numeroPlano == numero
    ensures Upsert(plans, numero, fields, unmapped).Ok?
    ensures var r := Upsert(plans, numero, fields, unmapped).value;
      && |r.0| == |plans| && r.0[i] == r.1 && r.1.id == plans[i].id
      && (forall j :: 0 <= j < |plans| && j != i ==> r.0[j] == plans[j])
      && forall c :: r.1.Get(c) == if c in fields && c.Mapped() then fields[c] else plans[i].Get(c)
  {
    FindPlanUnique(plans, numero, i);
  }

  /** The stored plan already holds every passed mapped column. */
  lemma UpsertStoresFields(plans: seq<Plan>, numero: string, fields: map<Column, Value>, unmapped: set<string>)
    requires ValidPlans(plans)
    requires Upsert(plans, numero, fields, unmapped).Ok?
    ensures var p := Upsert(plans, numero, fields, unmapped).value.1;
      p.columns + MappedPart(fields) == p.columns
  {
    if FindPlan(plans, numero).Some? {
      var i := FindPlan(plans, numero).value;
      assert plans[i].columns + MappedPart(fields) + MappedPart(fields) == plans[i].columns + MappedPart(fields);
    } else {
      assert MappedPart(fields) == fields;
    }
  }

  /** Repeating an upsert with the same arguments changes nothing more. */
  lemma UpsertIdempotent(plans: seq<Plan>, numero: string, fields: map<Column, Value>, unmapped: set<string>)
    requires ValidPlans(plans)
    requires Upsert(plans, numero, fields, unmapped).Ok?
    ensures var r := Upsert(plans, numero, fields, unmapped).value;
      Upsert(r.0, numero, fields, unmapped) == Ok(r)
  {
    var r := Upsert(plans, numero, fields, unmapped).value;
    var k := FindPlan(r.0, numero).value;
    UpsertStoresFields(plans, numero, fields, unmapped);
    var q := Assign(r.1, fields);
    assert q == r.1 && r.0[k] == r.1;
    assert r.0[k := q] == r.0;
  }

  /** The status argument: a `PlanStatus` member or any other value passed as text. */
  datatype StatusArg = Member(status: PlanStatus) | Raw(text: string)

  /** `status.value if isinstance(status, PlanStatus) else str(status)`. */
  function StatusText(s: StatusArg): (r: string)
    ensures s.Member? ==> PlanStatusFromValue(r) == Some(s.status)
  {
    match s
    case Member(m) =>
      PlanStatusRoundTrip(m);
      PlanStatusValue(m)
    case Raw(t) => t
  }

  /** Attribute assignments on the loaded plan at position `i`, as the session flushes them. */
  function UpdateAt(plans: seq<Plan>, i: nat, fields: map<Column, Value>): (r: seq<Plan>)
    requires ValidPlans(plans) && i < |plans|
    ensures ValidPlans(r) && |r| == |plans|
    ensures forall c: Column :: c.Mapped() ==> r[i].Get(c) == if c in fields then fields[c] else plans[i].Get(c)
    ensures r[i].Get(NumeroInscricao) == plans[i].Get(NumeroInscricao)
    ensures forall j :: 0 <= j < |plans| && j != i ==> r[j] == plans[j]
  {
    plans[i := Assign(plans[i], fields)]
  }

  /** `set_status`: store the status text in the plan at position `i`. */
  function SetStatus(plans: seq<Plan>, i: nat, status: StatusArg): (r: seq<Plan>)
    requires ValidPlans(plans) && i < |plans|
    ensures ValidPlans(r) && |r| == |plans|
    ensures r[i].Get(Status) == Text(StatusText(status))
    ensures forall c :: c != Status ==> r[i].Get(c) == plans[i].Get(c)
    ensures forall j :: 0 <= j < |plans| && j != i ==> r[j] == plans[j]
  {
    plans[i := Assign(plans[i], map[Status := Text(StatusText(status))])]
  }

  predicate HasStatus(p: Plan, text: string) {
    p.Get(Status) == Text(text)
  }

  /** `list_by_status`: the plans whose stored status is the status text, in table order. */
  function ListByStatus(plans: seq<Plan>, status: StatusArg): (r: seq<Plan>)
    ensures forall p :: p in r <==> p in plans && HasStatus(p, StatusText(status))
  {
    Filter(plans, p => HasStatus(p, StatusText(status)))
  }

  /**
   * After `set_status(plan, s)` that plan is listed under `s`, and every other
   * plan is listed exactly as before.
   */
  lemma SetStatusThenList(plans: seq<Plan>, i: nat, status: StatusArg, query: StatusArg, j: nat)
    requires ValidPlans(plans) && i < |plans| && j < |plans|
    ensures var t := SetStatus(plans, i, status);
      && t[i] in ListByStatus(t, status)
      && (j != i ==> (t[j] in ListByStatus(t, query) <==> plans[j] in ListByStatus(plans, query)))
  {
  }

  /** A member and its value as text select the same plans. */
  lemma ListByStatusSpellings(plans: seq<Plan>, m: PlanStatus)
    ensures ListByStatus(plans, Member(m)) == ListByStatus(plans, Raw(PlanStatusValue(m)))
  {
  }

  // ---------------------------------------------------------------- job runs

  predicate ValidJobs(jobs: seq<JobRun>) {
    forall i :: 0 <= i < |jobs| ==> jobs[i].id == i + 1
  }

  const StartStatusDefault: string := "RUNNING"

  /** `JobRunRepository.start`: append a row with the given name, step, hash, info and status. */
  function StartJob(
    jobs: seq<JobRun>, jobName: string, step: Option<string>, inputHash: Option<string>,
    info: Option<map<string, Value>>, status: string, now: Instant)
    : (r: (seq<JobRun>, JobRun))
    requires ValidJobs(jobs)
    ensures ValidJobs(r.0) && r.0 == jobs + [r.1] && r.1.id == |jobs| + 1
    ensures r.1.jobName == jobName && r.1.step == step && r.1.inputHash == inputHash
    ensures r.1.info == info && r.1.status == status
    ensures r.1.startedAt == now && r.1.finishedAt.None?
  {
    var j := NewJobRun(|jobs| + 1, jobName, now);
    var j := j.(step := step, inputHash := inputHash, info := info, status := status);
    (jobs + [j], j)
  }

  /** `info` after a finish: unchanged for an absent or empty update, otherwise the old map updated. */
  function MergeInfo(prev: Option<map<string, Value>>, update: Option<map<string, Value>>)
    : (r: Option<map<string, Value>>)
    ensures update.None? || update.value == map[] ==> r == prev
    ensures update.Some? && update.value != map[] ==>
      && r.Some?
      && r.value.Keys == update.value.Keys + (if prev.Some? then prev.value.Keys else {})
      && (forall k :: k in update.value ==> r.value[k] == update.value[k])
      && (forall k :: prev.Some? && k in prev.value && k !in update.value ==> r.value[k] == prev.value[k])
  {
    if update.Some? && update.value != map[] then
      Some(prev.GetOr(map[]) + update.value)
    else
      prev
  }

  /** Two successive updates merge like one update by their combination. */
  lemma MergeInfoTwice(prev: Option<map<string, Value>>, u1: map<string, Value>, u2: map<string, Value>)
    requires u1 != map[] && u2 != map[]
    ensures MergeInfo(MergeInfo(prev, Some(u1)), Some(u2)) == MergeInfo(prev, Some(u1 + u2))
  {
    assert u1 + u2 != map[] by {
      var k :| k in u1;
      assert k in u1 + u2;
    }
    var m := prev.GetOr(map[]);
    assert (m + u1) + u2 == m + (u1 + u2);
  }

  function NotFoundMessage(id: int): string {
    "JobRun com id=" + IntToString(id) + " não encontrado"
  }

  /**
   * `JobRunRepository.finish`: an error for an unknown id, otherwise the
   * row with its status and finish time set and its info merged.
   */
  function FinishJob(
    jobs: seq<JobRun>, id: int, status: string, infoUpdate: Option<map<string, Value>>, now: Instant)
    : (r: Result<(seq<JobRun>, JobRun), string>)
    requires ValidJobs(jobs)
    ensures r.Err? <==> forall i :: 0 <= i < |jobs| ==> jobs[i].id != id
    ensures r.Err? ==> r.error == NotFoundMessage(id)
    ensures r.Ok? ==>
      var (t, j) := r.value;
      && ValidJobs(t) && |t| == |jobs| && 1 <= id <= |jobs| && t[id - 1] == j
      && (forall i :: 0 <= i < |jobs| && i != id - 1 ==> t[i] == jobs[i])
      && j.id == id && j.status == status && j.finishedAt == Some(now)
      && j.jobName == jobs[id - 1].jobName && j.step == jobs[id - 1].step
      && j.inputHash == jobs[id - 1].inputHash && j.startedAt == jobs[id - 1].startedAt
      && j.info == MergeInfo(jobs[id - 1].info, infoUpdate)
  {
    if 1 <= id <= |jobs| then
      var j := jobs[id - 1].(status := status, finishedAt := Some(now),
                             info := MergeInfo(jobs[id - 1].info, infoUpdate));
      Ok((jobs[id - 1 := j], j))
    else
      Err(NotFoundMessage(id))
  }

  /** `JobRunRepository.fail`: a finish with status "FAIL". */
  function FailJob(jobs: seq<JobRun>, id: int, infoUpdate: Option<map<string, Value>>, now: Instant)
    : (r: Result<(seq<JobRun>, JobRun), string>)
    requires ValidJobs(jobs)
    ensures r.Err? <==> forall i :: 0 <= i < |jobs| ==> jobs[i].id != id
    ensures r.Ok? ==>
      && r.value.1.status == "FAIL" && r.value.1.finishedAt == Some(now)
      && r.value.0 == jobs[id - 1 := r.value.1]
      && r.value.1.info == MergeInfo(jobs[id - 1].info, infoUpdate)
  {
    FinishJob(jobs, id, "FAIL", infoUpdate, now)
  }

  /** A job started and then finished has the finish status and the start info merged with the update. */
  lemma StartThenFinish(
    jobs: seq<JobRun>, jobName: string, info: Option<map<string, Value>>,
    status: string, update: Option<map<string, Value>>, t0: Instant, t1: Instant)
    requires ValidJobs(jobs)
    ensures var (s, j) := StartJob(jobs, jobName, None, None, info, StartStatusDefault, t0);
      var r := FinishJob(s, j.id, status, update, t1);
      && j.status == "RUNNING"
      && r.Ok? && r.value.1.status == status && r.value.1.jobName == jobName
      && r.value.1.info == MergeInfo(info, update) && r.value.1.finishedAt == Some(t1)
  {
  }

  // ---------------------------------------------------------------- plan logs

  /** `_normalize_context`: trimmed and lower-cased, "geral" when nothing is left. */
  function NormalizeContext(value: string): (r: string)
    ensures r != "" && IsStripped(r) && Lower(r) == r
    ensures Strip(value) == "" ==> r == "geral"
    ensures Strip(value) != "" ==> r == Lower(Strip(value))
  {
    var t := Lower(Strip(value));
    LowerStripped(Strip(value));
    LowerIdempotent(Strip(value));
    if t == "" then "geral" else t
  }

  /** Normalising a normalised context changes nothing. */
  lemma NormalizeContextIdempotent(value: string)
    ensures NormalizeContext(NormalizeContext(value)) == NormalizeContext(value)
  {
    StripOfStripped(NormalizeContext(value));
  }

  /** Surrounding whitespace does not change the normalised context. */
  lemma NormalizeContextPadding(p: string, value: string, q: string)
    requires AllSpace(p) && AllSpace(q)
    ensures NormalizeContext(p + value + q) == NormalizeContext(value)
  {
    StripPadding(p, value, q);
  }

  lemma UpperIdempotent(s: string)
    ensures Upper(Upper(s)) == Upper(s)
  {
  }

  lemma UpperKeepsSpace(c: char)
    ensures IsSpace(UpperChar(c)) == IsSpace(c)
  {
  }

  /** The log status: trimmed and upper-cased, "INFO" when nothing is left. */
  function NormalizeLogStatus(status: string): (r: string)
    ensures r != "" && Upper(r) == r
    ensures Strip(status) == "" ==> r == "INFO"
    ensures Strip(status) != "" ==> r == Upper(Strip(status))
  {
    var t := Upper(Strip(status));
    UpperIdempotent(Strip(status));
    if t == "" then "INFO" else t
  }

  predicate ValidLogs(logs: seq<PlanLog>) {
    forall i :: 0 <= i < |logs| ==> logs[i].id == i + 1
  }

  /**
   * `PlanLogRepository.add`: append a row with the normalised context and
   * status; `created_at` is the given instant or else the clock's `now`.
   */
  function AddLog(
    logs: seq<PlanLog>, contexto: string, status: string, mensagem: string,
    numeroPlano: Option<string>, etapaNumero: Option<int>, etapaNome: Option<string>,
    treatmentId: Option<int>, createdAt: Option<Instant>, now: Instant)
    : (r: (seq<PlanLog>, PlanLog))
    requires ValidLogs(logs)
    ensures ValidLogs(r.0) && r.0 == logs + [r.1]
    ensures r.1.contexto == NormalizeContext(contexto) && r.1.status == NormalizeLogStatus(status)
    ensures r.1.mensagem == mensagem && r.1.numeroPlano == numeroPlano && r.1.treatmentId == treatmentId
    ensures r.1.etapaNumero == etapaNumero && r.1.etapaNome == etapaNome
    ensures r.1.createdAt == createdAt.GetOr(now)
  {
    var row := NewPlanLog(|logs| + 1, NormalizeContext(contexto), NormalizeLogStatus(status), mensagem, now);
    var row := row.(numeroPlano := numeroPlano, etapaNumero := etapaNumero, etapaNome := etapaNome,
                    treatmentId := treatmentId, createdAt := createdAt.GetOr(now));
    (logs + [row], row)
  }

  function LogKey(l: PlanLog): Key {
    Key(l.createdAt, l.id)
  }

  /** The rows a `recentes` query considers: all, or those of the given (normalised) context. */
  function LogsInContext(logs: seq<PlanLog>, contexto: Option<string>): (r: seq<PlanLog>)
    ensures forall l :: l in r <==>
      l in logs && (contexto.None? || contexto.value == "" || l.contexto == NormalizeContext(contexto.value))
  {
    if contexto.Some? && contexto.value != "" then
      Filter(logs, (l: PlanLog) => l.contexto == NormalizeContext(contexto.value))
    else
      logs
  }

  /**
   * `PlanLogRepository.recentes`: the rows of the context ordered by
   * (`created_at`, `id`), ascending when `order` is "asc" and descending
   * otherwise, cut to `limit` rows when `limit` is non-zero.
   */
  function Recentes(logs: seq<PlanLog>, limit: nat, contexto: Option<string>, order: string)
    : (r: seq<PlanLog>)
    ensures forall l :: l in r ==> l in LogsInContext(logs, contexto)
    ensures order == "asc" ==> SortedBy(r, LogKey)
    ensures order != "asc" ==> SortedDescBy(r, LogKey)
    ensures limit == 0 ==> multiset(r) == multiset(LogsInContext(logs, contexto))
    ensures limit != 0 ==> |r| == if |LogsInContext(logs, contexto)| <= limit then
      |LogsInContext(logs, contexto)| else limit
  {
    var scope := LogsInContext(logs, contexto);
    var ordered := OrderLogs(scope, order);
    SameElements(ordered, scope);
    if limit != 0 then
      TakeOrdered(ordered, limit);
      Take(ordered, limit)
    else ordered
  }

  /** The rows sorted by (`created_at`, `id`), ascending for "asc" and descending otherwise. */
  function OrderLogs(scope: seq<PlanLog>, order: string): (r: seq<PlanLog>)
    ensures multiset(r) == multiset(scope) && |r| == |scope|
    ensures order == "asc" ==> SortedBy(r, LogKey)
    ensures order != "asc" ==> SortedDescBy(r, LogKey)
  {
    var asc := SortBy(scope, LogKey);
    ReverseSorted(asc, LogKey);
    ReverseMultiset(asc);
    if order == "asc" then asc else Reverse(asc)
  }

  lemma SameElements(a: seq<PlanLog>, b: seq<PlanLog>)
    requires multiset(a) == multiset(b)
    ensures forall l :: l in a ==> l in b
  {
    forall l | l in a ensures l in b {
      assert l in multiset(a);
    }
  }

  /** A prefix of an ordered list is ordered the same way and holds only its rows. */
  lemma TakeOrdered(s: seq<PlanLog>, n: nat)
    ensures SortedBy(s, LogKey) ==> SortedBy(Take(s, n), LogKey)
    ensures SortedDescBy(s, LogKey) ==> SortedDescBy(Take(s, n), LogKey)
    ensures forall l :: l in Take(s, n) ==> l in s
  {
    var t := Take(s, n);
    assert forall i :: 0 <= i < |t| ==> t[i] == s[i];
  }

  /** A limited query returns the first rows of the unlimited one. */
  lemma RecentesLimit(logs: seq<PlanLog>, limit: nat, contexto: Option<string>, order: string)
    requires limit != 0
    ensures Recentes(logs, limit, contexto, order) == Take(Recentes(logs, 0, contexto, order), limit)
  {
  }

  // ---------------------------------------------------------------- discarded plans

  predicate ValidOccurrences(occs: seq<DiscardedPlan>) {
    forall i :: 0 <= i < |occs| ==> occs[i].id == i + 1
  }

  /** `OccurrenceRepository.add`: store a discarded-plan row, with the given optional columns, under the next id. */
  function AddOccurrence(
    occs: seq<DiscardedPlan>, numero: string, situacao: string, cnpj: string,
    tipo: Option<string>, saldo: Option<real>, dt: Option<Day>, now: Instant)
    : (r: (seq<DiscardedPlan>, DiscardedPlan))
    requires ValidOccurrences(occs)
    ensures ValidOccurrences(r.0) && r.0 == occs + [r.1] && r.1.id == |occs| + 1
    ensures r.1.numeroPlano == numero && r.1.situacao == situacao && r.1.cnpj == cnpj
    ensures r.1.tipo == tipo && r.1.saldo == saldo && r.1.dtSituacaoAtual == dt && r.1.createdAt == now
  {
    var row := NewDiscardedPlan(|occs| + 1, numero, situacao, cnpj, now).(
      tipo := tipo, saldo := saldo, dtSituacaoAtual := dt);
    (occs + [row], row)
  }

  // ---------------------------------------------------------------- treatment plans

  predicate ValidTreatments(ts: seq<TreatmentPlan>) {
    forall i :: 0 <= i < |ts| ==> ts[i].id == i + 1
  }

  /** `TreatmentPlanRepository.add`: store the treatment under the next id. */
  function AddTreatment(ts: seq<TreatmentPlan>, t: TreatmentPlan): (r: (seq<TreatmentPlan>, TreatmentPlan))
    requires ValidTreatments(ts)
    ensures ValidTreatments(r.0) && r.0 == ts + [r.1]
    ensures r.1 == t.(id := |ts| + 1)
  {
    var stored := t.(id := |ts| + 1);
    (ts + [stored], stored)
  }

  /** `TreatmentPlanRepository.by_plan_id`: the first treatment of the plan, if any. */
  function ByPlanId(ts: seq<TreatmentPlan>, planId: nat): (r: Option<TreatmentPlan>)
    ensures r.Some? ==> r.value in ts && r.value.planId == planId
    ensures r.None? <==> forall i :: 0 <= i < |ts| ==> ts[i].planId != planId
    decreases |ts|
  {
    if ts == [] then None
    else if ts[0].planId == planId then Some(ts[0])
    else ByPlanId(ts[1..], planId)
  }

  /** Rescinded within `[inicio, fim]`: status "rescindido" and a rescission date in range. */
  predicate RescindidoEm(t: TreatmentPlan, inicio: Day, fim: Day) {
    t.status == "rescindido" && t.rescisaoData.Some? && inicio <= t.rescisaoData.value <= fim
  }

  function RescisaoKey(t: TreatmentPlan): Key {
    Key(t.rescisaoData.GetOr(0), t.id)
  }

  /** `list_rescindidos_por_periodo`: the rescinded treatments of the period by date, then id. */
  function RescindidosPorPeriodo(ts: seq<TreatmentPlan>, inicio: Day, fim: Day): (r: seq<TreatmentPlan>)
    ensures forall t :: t in r <==> t in ts && RescindidoEm(t, inicio, fim)
    ensures SortedBy(r, RescisaoKey)
    ensures multiset(r) == multiset(Filter(ts, t => RescindidoEm(t, inicio, fim)))
  {
    var f := Filter(ts, t => RescindidoEm(t, inicio, fim));
    var r := SortBy(f, RescisaoKey);
    assert forall t :: t in r <==> t in multiset(f);
    r
  }
}
