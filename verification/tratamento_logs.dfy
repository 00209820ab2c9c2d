/**
 * The audit rows the treatment engine writes to the plan log: for every
 * stage the loop of `_process_plan` runs, an INICIO row when it starts and
 * a SUCESSO (or, for the stage-5 discard, DESCARTADO) row when it ends;
 * and a PAUSADO or RETOMADO row when the queue is paused or resumed.
 *
 * The rows are appended through `Repositories.AddLog`; the stage loop's
 * decisions are those of `StageList.Pass`, so these rows follow the run
 * `TratamentoStages.ProcessPlan` describes.
 */
module TratamentoLogs {
  import opened Wrappers
  import opened Text
  import opened Models
  import opened StageTables
  import opened StageList
  import Repositories
  import TratamentoControl
  import TratamentoStages

  const Contexto: string := "tratamento"
  const DescarteLog: string := "Plano descartado após revalidação"
  const Inicio: string := "INICIO"
  const Sucesso: string := "SUCESSO"
  const Descartado: string := "DESCARTADO"

  /** An upper-case ASCII status keeps its spelling through the log's normalisation. */
  lemma StatusKept(s: string)
    requires s != [] && forall i :: 0 <= i < |s| ==> 'A' <= s[i] <= 'Z'
    ensures Repositories.NormalizeLogStatus(s) == s
  {
    StripOfStripped(s);
    assert Upper(s) == s;
  }

  /** The stage rows' statuses keep their spelling. */
  lemma StageStatusesKept()
    ensures Repositories.NormalizeLogStatus(Inicio) == Inicio
    ensures Repositories.NormalizeLogStatus(Sucesso) == Sucesso
    ensures Repositories.NormalizeLogStatus(Descartado) == Descartado
  {
    StatusKept(Inicio);
    StatusKept(Sucesso);
    StatusKept(Descartado);
  }

  /** The engine's context name is already in normal form. */
  lemma ContextKept()
    ensures Repositories.NormalizeContext(Contexto) == Contexto
  {
    StripOfStripped(Contexto);
    assert Lower(Contexto) == Contexto;
  }

  /** `TRATAMENTO_STAGE_LABELS.get(n)`: the label of a table stage, none otherwise. */
  function Label(n: int): (r: Option<string>)
    ensures r.Some? <==> 1 <= n <= StageCount
    ensures r.Some? ==> StartsWith(r.value, TratamentoLabelPrefix)
  {
    TratamentoLabelsShape(n);
    if n in TratamentoLabels then Some(TratamentoLabels[n]) else None
  }

  /** The message of a stage's INICIO row: "Iniciada" and the stage's name. */
  function StartMessage(sid: int): (r: string)
    requires 1 <= sid <= StageCount
    ensures StartsWith(r, "Iniciada ")
  {
    var r := "Iniciada " + TratamentoDefinitions[sid];
    assert r[..|"Iniciada "|] == "Iniciada ";
    r
  }

  /** What a log row says about a stage: its number, status and message. */
  datatype LogEntry = LogEntry(etapa: int, status: string, mensagem: string)

  function Entry(l: PlanLog): LogEntry {
    LogEntry(l.etapaNumero.GetOr(0), l.status, l.mensagem)
  }

  function Entries(ls: seq<PlanLog>): (r: seq<LogEntry>)
    ensures |r| == |ls| && forall i :: 0 <= i < |ls| ==> r[i] == Entry(ls[i])
  {
    seq(|ls|, i requires 0 <= i < |ls| => Entry(ls[i]))
  }

  lemma Associative<T>(a: seq<T>, b: seq<T>, c: seq<T>)
    ensures a + b + c == a + (b + c)
  {
  }

  lemma AppendEmpty<T>(a: seq<T>)
    ensures a + [] == a
  {
  }

  lemma EntriesAppend(a: seq<PlanLog>, b: seq<PlanLog>)
    ensures Entries(a + b) == Entries(a) + Entries(b)
  {
  }

  /** A stage row of treatment `t`: its context, treatment, plan number and stage label. */
  predicate RowOf(l: PlanLog, t: TreatmentPlan) {
    && l.contexto == Contexto
    && l.treatmentId == Some(t.id as int)
    && l.numeroPlano == Some(t.numeroPlano)
    && l.etapaNumero.Some?
    && l.etapaNome == Label(l.etapaNumero.value)
  }

  /** Every row of `ls` is a stage row of treatment `t`. */
  predicate RowsOf(ls: seq<PlanLog>, t: TreatmentPlan) {
    forall i :: 0 <= i < |ls| ==> RowOf(ls[i], t)
  }

  lemma RowsOfAppend(a: seq<PlanLog>, b: seq<PlanLog>, t: TreatmentPlan)
    requires RowsOf(a, t) && RowsOf(b, t)
    ensures RowsOf(a + b, t)
  {
    forall i | 0 <= i < |a + b|
      ensures RowOf((a + b)[i], t)
    {
      if i < |a| {
        assert (a + b)[i] == a[i];
      } else {
        assert (a + b)[i] == b[i - |a|];
      }
    }
  }

  // ---------------------------------------------------------------- the stage loop

  /**
   * `logs_repo.add` for stage `sid` of treatment `t`: the row appended to
   * the table `logs`, carrying the stage, status and message given.
   */
  function StageRow(logs: seq<PlanLog>, t: TreatmentPlan, sid: int, status: string, mensagem: string, now: Instant)
    : (l: PlanLog)
    requires Repositories.ValidLogs(logs) && StageStatus(status)
    ensures Repositories.ValidLogs(logs + [l])
    ensures Entry(l) == LogEntry(sid, status, mensagem) && RowOf(l, t)
  {
    ContextKept();
    StageStatusesKept();
    Repositories.AddLog(logs, Contexto, status, mensagem, Some(t.numeroPlano), Some(sid), Label(sid),
      Some(t.id as int), None, now).1
  }

  /** The statuses of the stage rows. */
  predicate StageStatus(s: string) {
    s == Inicio || s == Sucesso || s == Descartado
  }

  /** Every entry carries a stage-row status. */
  predicate Kept(es: seq<LogEntry>) {
    forall i :: 0 <= i < |es| ==> StageStatus(es[i].status)
  }

  /**
   * `logs_repo.add` once per entry, in order: the rows appended to `logs`
   * for treatment `t`, each saying what its entry says.
   */
  function RowsFor(logs: seq<PlanLog>, t: TreatmentPlan, es: seq<LogEntry>, now: Instant): (r: seq<PlanLog>)
    requires Repositories.ValidLogs(logs) && Kept(es)
    ensures Repositories.ValidLogs(logs + r) && RowsOf(r, t)
    ensures Entries(r) == es
    decreases |es|
  {
    if es == [] then
      AppendEmpty(logs);
      []
    else
      var l := StageRow(logs, t, es[0].etapa, es[0].status, es[0].mensagem, now);
      KeptTail(es);
      var rest := RowsFor(logs + [l], t, es[1..], now);
      RowsCons(logs, l, rest, t, es);
      [l] + rest
  }

  lemma KeptTail(es: seq<LogEntry>)
    requires es != [] && Kept(es)
    ensures StageStatus(es[0].status) && Kept(es[1..])
  {
    assert forall i :: 0 <= i < |es[1..]| ==> es[1..][i] == es[i + 1];
  }

  /** A row followed by rows for the rest of the entries: rows for all of them. */
  lemma RowsCons(logs: seq<PlanLog>, l: PlanLog, rest: seq<PlanLog>, t: TreatmentPlan, es: seq<LogEntry>)
    requires es != [] && Entry(l) == es[0] && Entries(rest) == es[1..]
    requires RowOf(l, t) && RowsOf(rest, t) && Repositories.ValidLogs(logs + [l] + rest)
    ensures Repositories.ValidLogs(logs + ([l] + rest)) && RowsOf([l] + rest, t)
    ensures Entries([l] + rest) == es
  {
    Associative(logs, [l], rest);
    RowsOfAppend([l], rest, t);
    EntriesAppend([l], rest);
    assert [es[0]] + es[1..] == es;
  }

  /** The status and message of the row that closes stage `sid`. */
  function Outcome(sid: int, discarded: bool): (r: (string, string))
    ensures r.0 == Descartado <==> discarded
    ensures r.0 == Sucesso <==> !discarded
    ensures StageStatus(r.0)
  {
    if discarded then (Descartado, DescarteLog) else (Sucesso, SuccessMessage(sid))
  }

  /** The two rows of a run stage: it starts, then it ends. */
  function StageEntries(b: int, discarded: bool): (r: seq<LogEntry>)
    requires 1 <= b <= StageCount
    ensures Kept(r)
  {
    var (status, mensagem) := Outcome(b, discarded);
    [LogEntry(b, Inicio, StartMessage(b)), LogEntry(b, status, mensagem)]
  }

  /**
   * What the loop of `_process_plan` logs from table position `k` on,
   * pass by pass: nothing for a stage already finished or cancelled, the
   * stage's INICIO and closing rows otherwise, stopping after a discard.
   */
  function LoopEntries(etapas: seq<Stage>, k: nat, discard: bool, now: Instant): (r: seq<LogEntry>)
    requires k <= StageCount
    ensures Kept(r)
    decreases StageCount - k
  {
    if k == StageCount then []
    else
      var sid := k + 1;
      var p := Pass(etapas, sid, discard, now);
      if p.1 then PassEntries(etapas, sid, discard)
      else PassEntries(etapas, sid, discard) + LoopEntries(p.0, sid, discard, now)
  }

  /** What one pass logs: nothing for a finished or cancelled stage, its pair otherwise. */
  function PassEntries(etapas: seq<Stage>, sid: int, discard: bool): (r: seq<LogEntry>)
    requires 1 <= sid <= StageCount
    ensures Kept(r)
  {
    if Done(etapas, sid) then [] else StageEntries(sid, sid == 5 && discard)
  }

  /**
   * The rows `_process_plan` appends to the log table `logs` for treatment
   * `t` under the run's draws; the table afterwards is `logs` followed by
   * them. They are the rows the stored list leads one to expect: a pair
   * for each stage that runs, in stage order.
   */
  function ProcessPlanRows(logs: seq<PlanLog>, t: TreatmentPlan, d: TratamentoStages.Draws): (r: seq<PlanLog>)
    requires Repositories.ValidLogs(logs)
    ensures Repositories.ValidLogs(logs + r)
    ensures RowsOf(r, t)
    ensures Entries(r) == ExpectedEntries(t.etapas, d.discard, 0)
  {
    LoopEntriesExpected(t.etapas, 0, d.discard, d.now);
    RowsFor(logs, t, LoopEntries(t.etapas, 0, d.discard, d.now), d.now)
  }

  // ---------------------------------------------------------------- the rows, stage by stage

  /** Whether the loop runs stage `b` of a treatment stored with list `etapas`. */
  predicate Runs(etapas: seq<Stage>, discard: bool, b: int) {
    && 1 <= b <= StageCount
    && !Done(etapas, b)
    && !(b > 5 && discard && !Done(etapas, 5))
  }

  /**
   * The rows the loop is meant to write for the stages after position `k`,
   * stated on the stored list alone: two rows for each stage it runs, in
   * stage order, the stage-5 pair closing with DESCARTADO on a discard.
   */
  function ExpectedEntries(etapas: seq<Stage>, discard: bool, k: nat): (r: seq<LogEntry>)
    decreases StageCount - k
  {
    if k >= StageCount then []
    else RunEntries(etapas, discard, k + 1) + ExpectedEntries(etapas, discard, k + 1)
  }

  /** The rows stage `b` is meant to get: its pair when it runs, none otherwise. */
  function RunEntries(etapas: seq<Stage>, discard: bool, b: int): (r: seq<LogEntry>)
    requires 1 <= b <= StageCount
  {
    if Runs(etapas, discard, b) then StageEntries(b, b == 5 && discard) else []
  }

  /** Lists on which the same stages run from position `k` on expect the same rows. */
  lemma {:induction false} ExpectedSame(e1: seq<Stage>, e2: seq<Stage>, discard: bool, k: nat)
    requires forall b :: k < b <= StageCount ==> Runs(e1, discard, b) == Runs(e2, discard, b)
    ensures ExpectedEntries(e1, discard, k) == ExpectedEntries(e2, discard, k)
    decreases StageCount - k
  {
    if k < StageCount {
      ExpectedSame(e1, e2, discard, k + 1);
    }
  }

  /** A pass that does not discard leaves the later stages running as before. */
  lemma PassKeepsRuns(etapas: seq<Stage>, sid: int, discard: bool, now: Instant, b: int)
    requires 1 <= sid < b <= StageCount && !Pass(etapas, sid, discard, now).1
    requires sid > 5 ==> !discard || Done(etapas, 5)
    ensures Runs(Pass(etapas, sid, discard, now).0, discard, b) == Runs(etapas, discard, b)
  {
    var e := Pass(etapas, sid, discard, now).0;
    PassOther(etapas, sid, discard, now, b);
    assert Current(e, b) == Current(etapas, b);
    if sid == 5 {
      PassOwn(etapas, sid, discard, now);
      assert Done(e, 5);
    } else if b > 5 {
      PassOther(etapas, sid, discard, now, 5);
      assert Current(e, 5) == Current(etapas, 5);
    }
  }

  /** After a pass that does not discard, the later stages expect the same rows. */
  lemma PassKeepsExpected(etapas: seq<Stage>, sid: int, discard: bool, now: Instant)
    requires 1 <= sid <= StageCount && !Pass(etapas, sid, discard, now).1
    requires sid > 5 ==> !discard || Done(etapas, 5)
    ensures ExpectedEntries(Pass(etapas, sid, discard, now).0, discard, sid) == ExpectedEntries(etapas, discard, sid)
  {
    var e := Pass(etapas, sid, discard, now).0;
    forall b | sid < b <= StageCount
      ensures Runs(e, discard, b) == Runs(etapas, discard, b)
    {
      PassKeepsRuns(etapas, sid, discard, now, b);
    }
    ExpectedSame(e, etapas, discard, sid);
  }

  /** After a pass that discards, no later stage expects a row. */
  lemma DiscardEndsExpected(etapas: seq<Stage>, sid: int, discard: bool, now: Instant)
    requires 1 <= sid <= StageCount && Pass(etapas, sid, discard, now).1
    ensures ExpectedEntries(etapas, discard, sid) == []
  {
    forall b | sid < b <= StageCount
      ensures !Runs(etapas, discard, b)
    {
    }
    ExpectedNone(etapas, discard, sid);
  }

  /** Unless a discard was missed, a pass logs what its stage is meant to get. */
  lemma PassEntriesRun(etapas: seq<Stage>, sid: int, discard: bool)
    requires 1 <= sid <= StageCount
    requires sid > 5 ==> !discard || Done(etapas, 5)
    ensures PassEntries(etapas, sid, discard) == RunEntries(etapas, discard, sid)
  {
    assert Runs(etapas, discard, sid) == !Done(etapas, sid);
  }

  /**
   * The loop logs from position `k` on what the stored list leads one to
   * expect, as long as no discard was missed before `k`.
   */
  lemma {:induction false} LoopEntriesExpected(etapas: seq<Stage>, k: nat, discard: bool, now: Instant)
    requires k <= StageCount
    requires k >= 5 ==> !discard || Done(etapas, 5)
    ensures LoopEntries(etapas, k, discard, now) == ExpectedEntries(etapas, discard, k)
    decreases StageCount - k
  {
    if k < StageCount {
      var p := Pass(etapas, k + 1, discard, now);
      if p.1 {
        LoopDiscardStep(etapas, k, discard, now);
      } else {
        PassKeepsGuard(etapas, k + 1, discard, now);
        LoopEntriesExpected(p.0, k + 1, discard, now);
        LoopKeepStep(etapas, k, discard, now);
      }
    }
  }

  /** A pass that discards ends the loop with the rows its stage is meant to get, and nothing after. */
  lemma LoopDiscardStep(etapas: seq<Stage>, k: nat, discard: bool, now: Instant)
    requires k < StageCount && Pass(etapas, k + 1, discard, now).1
    requires k >= 5 ==> !discard || Done(etapas, 5)
    ensures LoopEntries(etapas, k, discard, now) == ExpectedEntries(etapas, discard, k)
  {
    var sid := k + 1;
    PassEntriesRun(etapas, sid, discard);
    DiscardEndsExpected(etapas, sid, discard, now);
    AppendEmpty(RunEntries(etapas, discard, sid));
  }

  /** A pass that does not discard logs its stage's rows, then the loop goes on as expected. */
  lemma LoopKeepStep(etapas: seq<Stage>, k: nat, discard: bool, now: Instant)
    requires k < StageCount && !Pass(etapas, k + 1, discard, now).1
    requires k >= 5 ==> !discard || Done(etapas, 5)
    requires var p := Pass(etapas, k + 1, discard, now);
      LoopEntries(p.0, k + 1, discard, now) == ExpectedEntries(p.0, discard, k + 1)
    ensures LoopEntries(etapas, k, discard, now) == ExpectedEntries(etapas, discard, k)
  {
    var sid := k + 1;
    PassEntriesRun(etapas, sid, discard);
    PassKeepsExpected(etapas, sid, discard, now);
  }

  /** A pass that does not discard leaves no discard missed up to its stage. */
  lemma PassKeepsGuard(etapas: seq<Stage>, sid: int, discard: bool, now: Instant)
    requires 1 <= sid <= StageCount && !Pass(etapas, sid, discard, now).1
    requires sid > 5 ==> !discard || Done(etapas, 5)
    ensures sid >= 5 ==> !discard || Done(Pass(etapas, sid, discard, now).0, 5)
  {
  }

  /** When no stage after `k` runs, no row is expected. */
  lemma {:induction false} ExpectedNone(etapas: seq<Stage>, discard: bool, k: nat)
    requires forall b :: k < b <= StageCount ==> !Runs(etapas, discard, b)
    ensures ExpectedEntries(etapas, discard, k) == []
    decreases StageCount - k
  {
    if k < StageCount {
      ExpectedNone(etapas, discard, k + 1);
    }
  }

  /** The entries about stage `b`, in order. */
  function OfStage(es: seq<LogEntry>, b: int): (r: seq<LogEntry>)
    ensures |r| <= |es|
  {
    if |es| == 0 then []
    else (if es[0].etapa == b then [es[0]] else []) + OfStage(es[1..], b)
  }

  lemma {:induction false} OfStageAppend(a: seq<LogEntry>, c: seq<LogEntry>, b: int)
    ensures OfStage(a + c, b) == OfStage(a, b) + OfStage(c, b)
    decreases |a|
  {
    if a == [] {
      assert a + c == c;
    } else {
      assert (a + c)[0] == a[0];
      assert (a + c)[1..] == a[1..] + c;
      OfStageAppend(a[1..], c, b);
    }
  }

  /** A stage's pair of rows is all about that stage. */
  lemma OfStageOwn(sid: int, discarded: bool, b: int)
    requires 1 <= sid <= StageCount
    ensures OfStage(StageEntries(sid, discarded), b) == if sid == b then StageEntries(sid, discarded) else []
  {
    var s := StageEntries(sid, discarded);
    OfStagePair(s[0], s[1], b);
    assert s == [s[0], s[1]];
  }

  lemma OfStagePair(x: LogEntry, y: LogEntry, b: int)
    requires x.etapa == y.etapa
    ensures OfStage([x, y], b) == if x.etapa == b then [x, y] else []
  {
    assert [x, y][1..] == [y];
    assert [y][1..] == [];
    assert OfStage([y], b) == (if y.etapa == b then [y] else []) + OfStage([], b);
    assert OfStage([x, y], b) == (if x.etapa == b then [x] else []) + OfStage([y], b);
  }

  /** A stage's own rows are all about that stage. */
  lemma OfRunEntries(etapas: seq<Stage>, discard: bool, sid: int, b: int)
    requires 1 <= sid <= StageCount
    ensures OfStage(RunEntries(etapas, discard, sid), b) == if sid == b then RunEntries(etapas, discard, sid) else []
  {
    if Runs(etapas, discard, sid) {
      OfStageOwn(sid, sid == 5 && discard, b);
    }
  }

  /** Of the expected rows from position `k` on, stage `b` gets its pair exactly when it runs. */
  lemma {:induction false} ExpectedOfStage(etapas: seq<Stage>, discard: bool, k: nat, b: int)
    ensures OfStage(ExpectedEntries(etapas, discard, k), b) == if k < b <= StageCount then RunEntries(etapas, discard, b) else []
    decreases StageCount - k
  {
    if k < StageCount {
      var sid := k + 1;
      OfStageAppend(RunEntries(etapas, discard, sid), ExpectedEntries(etapas, discard, sid), b);
      ExpectedOfStage(etapas, discard, sid, b);
      OfRunEntries(etapas, discard, sid, b);
    }
  }

  /**
   * One INICIO row and one closing row per stage the run executes, and
   * none for the others: the closing row is DESCARTADO for stage 5 on a
   * discard draw and SUCESSO otherwise.
   */
  lemma ProcessPlanRowsPerStage(logs: seq<PlanLog>, t: TreatmentPlan, d: TratamentoStages.Draws, b: int)
    requires Repositories.ValidLogs(logs) && 1 <= b <= StageCount
    ensures var added := Entries(ProcessPlanRows(logs, t, d));
      && (Runs(t.etapas, d.discard, b) ==>
            OfStage(added, b) == [LogEntry(b, Inicio, StartMessage(b)), LogEntry(b, Outcome(b, b == 5 && d.discard).0, Outcome(b, b == 5 && d.discard).1)])
      && (!Runs(t.etapas, d.discard, b) ==> OfStage(added, b) == [])
  {
    ExpectedOfStage(t.etapas, d.discard, 0, b);
  }

  /** The row a stage-5 discard writes. */
  const DiscardEntry := LogEntry(5, Descartado, DescarteLog)

  /** Only stage 5's rows can be the discard row, and they hold it exactly on a discard. */
  lemma DiscardEntryOf(etapas: seq<Stage>, discard: bool, b: int)
    requires 1 <= b <= StageCount
    ensures DiscardEntry in RunEntries(etapas, discard, b) <==> b == 5 && discard && !Done(etapas, 5)
  {
    if Runs(etapas, discard, b) {
      var s := StageEntries(b, b == 5 && discard);
      assert DiscardEntry in s <==> DiscardEntry == s[0] || DiscardEntry == s[1];
      assert |Inicio| != |Descartado| && |Sucesso| != |Descartado|;
    }
  }

  /** The expected rows from position `k` on hold the discard row exactly when stage 5 is ahead and discards. */
  lemma {:induction false} ExpectedDiscard(etapas: seq<Stage>, discard: bool, k: nat)
    ensures DiscardEntry in ExpectedEntries(etapas, discard, k) <==> k < 5 && discard && !Done(etapas, 5)
    decreases StageCount - k
  {
    if k < StageCount {
      ExpectedDiscard(etapas, discard, k + 1);
      DiscardEntryOf(etapas, discard, k + 1);
    }
  }

  /**
   * The log agrees with the outcome: a run gains a DESCARTADO row exactly
   * when `ProcessPlan` leaves the treatment "descartado".
   */
  lemma DescartadoLogged(logs: seq<PlanLog>, w: TratamentoStages.World, d: TratamentoStages.Draws)
    requires Repositories.ValidLogs(logs) && Repositories.ValidPlans(w.plans)
    ensures TratamentoStages.ProcessPlan(w, d).t.status == "descartado" <==>
      DiscardEntry in Entries(ProcessPlanRows(logs, w.t, d))
  {
    ExpectedDiscard(w.t.etapas, d.discard, 0);
  }

  // ---------------------------------------------------------------- pause and resume

  /** The treatment in hand: `get(self._current_id)` when the id is set and non-zero. */
  function CurrentTreatment(current: Option<int>, ts: seq<TreatmentPlan>): (r: Option<TreatmentPlan>)
    requires Repositories.ValidTreatments(ts)
    ensures r.Some? <==> current.Some? && 1 <= current.value <= |ts|
    ensures r.Some? ==> r.value.id == current.value
  {
    if current.Some? && current.value != 0 && 1 <= current.value <= |ts| then Some(ts[current.value - 1])
    else None
  }

  const Pausado: string := "PAUSADO"
  const Retomado: string := "RETOMADO"

  /** The control rows' statuses keep their spelling. */
  lemma ControlStatusesKept()
    ensures Repositories.NormalizeLogStatus(Pausado) == Pausado
    ensures Repositories.NormalizeLogStatus(Retomado) == Retomado
  {
    StatusKept(Pausado);
    StatusKept(Retomado);
  }

  /**
   * The control row of a pause or a resume, appended to `logs`: the
   * treatment's id and plan number and its current stage when there is a
   * treatment in hand, and `ControlLog`'s status, stage name and message.
   */
  function ControlRow(logs: seq<PlanLog>, resumed: bool, t: Option<TreatmentPlan>, now: Instant): (l: PlanLog)
    requires Repositories.ValidLogs(logs)
    ensures Repositories.ValidLogs(logs + [l])
    ensures l.contexto == Contexto && l.status == (if resumed then Retomado else Pausado)
    ensures l.etapaNumero == (if t.Some? then Some(t.value.etapaAtual) else None)
    ensures l.treatmentId == (if t.Some? then Some(t.value.id as int) else None)
    ensures l.numeroPlano == (if t.Some? then Some(t.value.numeroPlano) else None)
    ensures var c := TratamentoControl.ControlLog(resumed, l.etapaNumero);
      l.mensagem == c.mensagem && l.etapaNome == c.etapaNome
  {
    var c := TratamentoControl.ControlLog(resumed, if t.Some? then Some(t.value.etapaAtual) else None);
    ControlStatusesKept();
    ContextKept();
    Repositories.AddLog(logs, Contexto, c.status, c.mensagem,
      if t.Some? then Some(t.value.numeroPlano) else None, c.etapaNumero, c.etapaNome,
      if t.Some? then Some(t.value.id as int) else None, None, now).1
  }

  /**
   * `pausar` with its log row: an engine that is not running or waiting is
   * left alone and nothing is logged; otherwise it pauses and one PAUSADO
   * row is appended. The result holds the engine and the rows added.
   */
  function PausarLogged(e: TratamentoControl.Engine, ts: seq<TreatmentPlan>, logs: seq<PlanLog>, now: Instant)
    : (r: (TratamentoControl.Engine, seq<PlanLog>))
    requires Repositories.ValidTreatments(ts) && Repositories.ValidLogs(logs)
    ensures r.0 == TratamentoControl.Pausar(e) && Repositories.ValidLogs(logs + r.1)
    ensures e.estado != TratamentoControl.Processando && e.estado != TratamentoControl.Aguardando ==> r.1 == []
    ensures e.estado == TratamentoControl.Processando || e.estado == TratamentoControl.Aguardando ==>
      |r.1| == 1 && r.1[0].status == Pausado
  {
    if e.estado != TratamentoControl.Processando && e.estado != TratamentoControl.Aguardando then
      AppendEmpty(logs);
      (e, [])
    else
      var e1 := TratamentoControl.Pausar(e);
      (e1, [ControlRow(logs, false, CurrentTreatment(e1.current, ts), now)])
  }

  /**
   * `continuar` with its log row: the pending ids are restored; an engine
   * that is then not paused is left so and nothing is logged; otherwise it
   * resumes and one RETOMADO row is appended. The result holds the engine
   * and the rows added.
   */
  function ContinuarLogged(e: TratamentoControl.Engine, ids: seq<int>, ts: seq<TreatmentPlan>, logs: seq<PlanLog>, now: Instant)
    : (r: (TratamentoControl.Engine, seq<PlanLog>))
    requires Repositories.ValidTreatments(ts) && Repositories.ValidLogs(logs)
    ensures r.0 == TratamentoControl.Continuar(e, ids) && Repositories.ValidLogs(logs + r.1)
    ensures TratamentoControl.RestorePendingIds(e, ids).estado != TratamentoControl.Pausado ==> r.1 == []
    ensures TratamentoControl.RestorePendingIds(e, ids).estado == TratamentoControl.Pausado ==>
      |r.1| == 1 && r.1[0].status == Retomado
  {
    var restored := TratamentoControl.RestorePendingIds(e, ids);
    if restored.estado != TratamentoControl.Pausado then
      AppendEmpty(logs);
      (restored, [])
    else
      var e1 := TratamentoControl.Iniciar(restored);
      (e1, [ControlRow(logs, true, CurrentTreatment(e1.current, ts), now)])
  }

  /**
   * Pausing a running or waiting engine and resuming it logs exactly two
   * rows, PAUSADO then RETOMADO, about the same treatment and stage.
   */
  lemma PauseResumeLogged(e: TratamentoControl.Engine, ids: seq<int>, ts: seq<TreatmentPlan>, logs: seq<PlanLog>, t1: Instant, t2: Instant)
    requires Repositories.ValidTreatments(ts) && Repositories.ValidLogs(logs)
    requires e.estado == TratamentoControl.Processando || e.estado == TratamentoControl.Aguardando
    ensures var p := PausarLogged(e, ts, logs, t1);
      |p.1| == 1 && p.1[0].status == Pausado
    ensures var p := PausarLogged(e, ts, logs, t1);
      var c := ContinuarLogged(p.0, ids, ts, logs + p.1, t2);
      |c.1| == 1 && c.1[0].status == Retomado && c.0.enabled && c.0.current == e.current
    ensures var p := PausarLogged(e, ts, logs, t1);
      var c := ContinuarLogged(p.0, ids, ts, logs + p.1, t2);
      p.1[0].etapaNumero == c.1[0].etapaNumero && p.1[0].treatmentId == c.1[0].treatmentId
  {
    var p := PausarLogged(e, ts, logs, t1);
    assert TratamentoControl.RestorePendingIds(p.0, ids).estado == TratamentoControl.Pausado;
  }
}
