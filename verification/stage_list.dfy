/**
 * The `etapas` list of a treatment: locating a stage's entry the way
 * `_buscar_stage` does, the start/finish/cancel markers, and one pass of
 * the stage loop, all on the list alone.
 *
 * A list is addressed by stage id: the first entry carrying the id is the
 * stage's entry, and a stage without one is handed out as a fresh pending
 * entry that the list then keeps.
 */
module StageList {
  import opened Wrappers
  import opened Text
  import opened Models
  import opened StageTables

  // ---------------------------------------------------------------- locating a stage

  /** The entry of stage `id`: the first one carrying the id, if any. */
  function StageOf(etapas: seq<Stage>, id: int): (r: Option<Stage>)
    ensures r.Some? ==> r.value.id == id && r.value in etapas
    decreases |etapas|
  {
    if etapas == [] then None
    else if etapas[0].id == id then Some(etapas[0])
    else StageOf(etapas[1..], id)
  }

  /** The entry of a stage is its first entry: one with no earlier entry of the stage is found. */
  lemma {:induction false} StageOfFirst(etapas: seq<Stage>, i: nat)
    requires i < |etapas|
    requires forall j :: 0 <= j < i ==> etapas[j].id != etapas[i].id
    ensures StageOf(etapas, etapas[i].id) == Some(etapas[i])
    decreases i
  {
    if i > 0 {
      assert etapas[1..][i - 1] == etapas[i];
      StageOfFirst(etapas[1..], i - 1);
    }
  }

  /** The name a missing stage entry gets: its table name, or "Etapa n". */
  function DefaultStageName(id: int): (r: string)
    ensures 1 <= id <= 7 ==> r == TratamentoDefinitions[id]
  {
    if id in TratamentoDefinitions then TratamentoDefinitions[id] else "Etapa " + IntToString(id)
  }

  /** The entry `_buscar_stage` hands out: the existing one, or a fresh pending one. */
  function Current(etapas: seq<Stage>, id: int): (s: Stage)
    ensures s.id == id
    ensures StageOf(etapas, id).Some? ==> s == StageOf(etapas, id).value
    ensures StageOf(etapas, id).None? ==> s == PendingStage(id, DefaultStageName(id))
  {
    match StageOf(etapas, id)
    case Some(s) => s
    case None => PendingStage(id, DefaultStageName(id))
  }

  /**
   * The stage list with the entry of stage `id` replaced by `s`, or with
   * `s` appended when the stage has no entry: the stage's entry becomes
   * `s` and every other stage keeps its entry.
   */
  function SetStage(etapas: seq<Stage>, id: int, s: Stage): (r: seq<Stage>)
    requires s.id == id
    ensures |etapas| <= |r| <= |etapas| + 1
    ensures StageOf(r, id) == Some(s)
    ensures forall b :: b != id ==> StageOf(r, b) == StageOf(etapas, b)
    decreases |etapas|
  {
    if etapas == [] then [s]
    else if etapas[0].id == id then
      assert ([s] + etapas[1..])[1..] == etapas[1..];
      [s] + etapas[1..]
    else
      var t := SetStage(etapas[1..], id, s);
      assert ([etapas[0]] + t)[1..] == t;
      [etapas[0]] + t
  }

  // ---------------------------------------------------------------- `_buscar_stage` as written

  /** The position of the first entry with stage id `id`. */
  function FindStage(etapas: seq<Stage>, id: int): (r: Option<nat>)
    ensures r.Some? ==> r.value < |etapas| && etapas[r.value].id == id
    ensures r.Some? <==> StageOf(etapas, id).Some?
    ensures r.Some? ==> StageOf(etapas, id) == Some(etapas[r.value])
    decreases |etapas|
  {
    if etapas == [] then None
    else if etapas[0].id == id then Some(0)
    else
      var r := FindStage(etapas[1..], id);
      if r.Some? then Some(r.value + 1) else None
  }

  /**
   * `_buscar_stage`: the list, extended by a fresh pending entry when the
   * stage has none, and the position of the stage's entry in it.
   */
  function BuscarStage(etapas: seq<Stage>, id: int): (r: (seq<Stage>, nat))
    ensures r.1 < |r.0| && r.0[r.1].id == id
    ensures FindStage(etapas, id).Some? ==> r == (etapas, FindStage(etapas, id).value)
    ensures FindStage(etapas, id).None? ==> r == (etapas + [PendingStage(id, DefaultStageName(id))], |etapas|)
  {
    match FindStage(etapas, id)
    case Some(i) => (etapas, i)
    case None => (etapas + [PendingStage(id, DefaultStageName(id))], |etapas|)
  }

  /**
   * Fetching the entry with `_buscar_stage` and overwriting it in place is
   * `SetStage`, and the entry fetched is `Current`.
   */
  lemma {:induction false} BuscarThenSet(etapas: seq<Stage>, id: int, s: Stage)
    requires s.id == id
    ensures var (e, i) := BuscarStage(etapas, id);
      e[i] == Current(etapas, id) && e[i := s] == SetStage(etapas, id, s)
    decreases |etapas|
  {
    if etapas == [] || etapas[0].id == id {
      BuscarThenSetHead(etapas, id, s);
    } else {
      var t := etapas[1..];
      BuscarThenSet(t, id, s);
      var (e, i) := BuscarStage(t, id);
      BuscarStageCons(etapas, id);
      assert Current(etapas, id) == Current(t, id);
      assert SetStage(etapas, id, s) == [etapas[0]] + SetStage(t, id, s);
      ConsUpdate(etapas[0], e, i, s);
    }
  }

  /** `BuscarThenSet` when the list is empty or starts with the stage's entry. */
  lemma BuscarThenSetHead(etapas: seq<Stage>, id: int, s: Stage)
    requires s.id == id && (etapas == [] || etapas[0].id == id)
    ensures var (e, i) := BuscarStage(etapas, id);
      e[i] == Current(etapas, id) && e[i := s] == SetStage(etapas, id, s)
  {
    if etapas == [] {
      assert BuscarStage(etapas, id).0[0 := s] == [s];
    } else {
      assert etapas[0 := s] == [s] + etapas[1..];
    }
  }

  /** Overwriting past a first element is overwriting in the rest. */
  lemma ConsUpdate<T>(x: T, e: seq<T>, i: nat, s: T)
    requires i < |e|
    ensures ([x] + e)[i + 1 := s] == [x] + e[i := s]
  {
  }

  /** Past a first entry of another stage, the search happens in the rest of the list. */
  lemma BuscarStageCons(etapas: seq<Stage>, id: int)
    requires etapas != [] && etapas[0].id != id
    ensures var (e, i) := BuscarStage(etapas[1..], id);
      BuscarStage(etapas, id) == ([etapas[0]] + e, i + 1)
  {
    var f := FindStage(etapas[1..], id);
    assert FindStage(etapas, id) == if f.Some? then Some(f.value + 1) else None;
    if f.Some? {
      BuscarStageFound(etapas, id, f.value);
    } else {
      BuscarStageMissing(etapas, id, PendingStage(id, DefaultStageName(id)));
    }
  }

  lemma BuscarStageFound(etapas: seq<Stage>, id: int, i: nat)
    requires etapas != [] && FindStage(etapas[1..], id) == Some(i)
    requires FindStage(etapas, id) == Some(i + 1)
    ensures BuscarStage(etapas, id) == ([etapas[0]] + BuscarStage(etapas[1..], id).0, BuscarStage(etapas[1..], id).1 + 1)
  {
    assert etapas == [etapas[0]] + etapas[1..];
  }

  lemma BuscarStageMissing(etapas: seq<Stage>, id: int, pending: Stage)
    requires etapas != [] && FindStage(etapas[1..], id).None? && FindStage(etapas, id).None?
    requires pending == PendingStage(id, DefaultStageName(id))
    ensures BuscarStage(etapas, id) == ([etapas[0]] + BuscarStage(etapas[1..], id).0, BuscarStage(etapas[1..], id).1 + 1)
  {
    assert BuscarStage(etapas, id) == (etapas + [pending], |etapas|);
    assert BuscarStage(etapas[1..], id) == (etapas[1..] + [pending], |etapas| - 1);
    ConsAppend(etapas, pending);
  }

  /** Writing a stage's entry twice keeps only the second write. */
  /** Appending to a non-empty list is appending to its tail. */
  lemma ConsAppend<T>(a: seq<T>, x: T)
    requires a != []
    ensures a + [x] == [a[0]] + (a[1..] + [x])
  {
    assert (a + [x])[1..] == a[1..] + [x];
  }

  lemma {:induction false} SetStageTwice(etapas: seq<Stage>, id: int, s1: Stage, s2: Stage)
    requires s1.id == id && s2.id == id
    ensures SetStage(SetStage(etapas, id, s1), id, s2) == SetStage(etapas, id, s2)
    decreases |etapas|
  {
    if etapas != [] && etapas[0].id != id {
      SetStageTwice(etapas[1..], id, s1, s2);
      var t := SetStage(etapas[1..], id, s1);
      assert ([etapas[0]] + t)[1..] == t;
    } else if etapas != [] {
      assert ([s1] + etapas[1..])[1..] == etapas[1..];
    }
  }

  // ---------------------------------------------------------------- markers

  /** The entry of stage `id` exists and has the given status. */
  predicate StageHas(etapas: seq<Stage>, id: int, status: StageStatus) {
    var s := StageOf(etapas, id);
    s.Some? && s.value.status == status
  }

  /** The entry of stage `id` exists and has the given status and message. */
  predicate StageIs(etapas: seq<Stage>, id: int, status: StageStatus, mensagem: string) {
    var s := StageOf(etapas, id);
    s.Some? && s.value.status == status && s.value.mensagem == mensagem
  }

  /**
   * `_marcar_inicio_etapa` on one entry: processing, the start time kept or
   * set to now, and no message.
   */
  function Started(c: Stage, now: Instant): (r: Stage)
    ensures r.id == c.id && r.nome == c.nome && r.finalizadoEm == c.finalizadoEm
    ensures r.status == Processando && r.mensagem == ""
    ensures r.iniciadoEm.Some? && (c.iniciadoEm.Some? ==> r.iniciadoEm == c.iniciadoEm)
    ensures c.iniciadoEm.None? ==> r.iniciadoEm == Some(now)
  {
    c.(status := Processando, iniciadoEm := Some(c.iniciadoEm.GetOr(now)), mensagem := "")
  }

  /** `_marcar_conclusao_etapa` on one entry: finished now with the given message. */
  function Finished(c: Stage, mensagem: string, now: Instant): (r: Stage)
    ensures r.id == c.id && r.nome == c.nome && r.iniciadoEm == c.iniciadoEm
    ensures r.status == Concluido && r.mensagem == mensagem && r.finalizadoEm == Some(now)
  {
    c.(status := Concluido, finalizadoEm := Some(now), mensagem := mensagem)
  }

  /** `_marcar_inicio_etapa` on the list. */
  function StartStage(etapas: seq<Stage>, id: int, now: Instant): (r: seq<Stage>)
    ensures StageOf(r, id) == Some(Started(Current(etapas, id), now))
    ensures forall b :: b != id ==> StageOf(r, b) == StageOf(etapas, b)
  {
    SetStage(etapas, id, Started(Current(etapas, id), now))
  }

  /** `_marcar_conclusao_etapa` on the list. */
  function FinishStage(etapas: seq<Stage>, id: int, mensagem: string, now: Instant): (r: seq<Stage>)
    ensures StageIs(r, id, Concluido, mensagem)
    ensures StageOf(r, id) == Some(Finished(Current(etapas, id), mensagem, now))
    ensures forall b :: b != id ==> StageOf(r, b) == StageOf(etapas, b)
  {
    SetStage(etapas, id, Finished(Current(etapas, id), mensagem, now))
  }

  const DescarteMensagem: string := "Etapa não executada por descarte"

  /** A stage entry after the discard rule: finished stages stay, the others are cancelled. */
  function CancelOutcome(c: Stage): (r: Stage)
    ensures r.id == c.id && r.nome == c.nome
    ensures r.status == Concluido || r.status == Cancelado
    ensures c.status == Concluido ==> r == c
    ensures c.status != Concluido ==> r.status == Cancelado && r.mensagem == DescarteMensagem
  {
    if c.status != Concluido then c.(status := Cancelado, mensagem := DescarteMensagem) else c
  }

  /**
   * `_marcar_cancelamento_restante`, for the table stages after position
   * `k`: every one from `apartir` on that is not finished is cancelled; the
   * other stages keep their entries.
   */
  function CancelFrom(etapas: seq<Stage>, apartir: int, k: nat): (r: seq<Stage>)
    requires k <= StageCount
    ensures forall b :: (b <= k || b < apartir || b > StageCount) ==> StageOf(r, b) == StageOf(etapas, b)
    ensures forall b :: k < b <= StageCount && b >= apartir ==>
      StageOf(r, b) == Some(CancelOutcome(Current(etapas, b)))
    decreases StageCount - k
  {
    if k == StageCount then etapas
    else
      var sid := k + 1;
      var e1 := if sid >= apartir then SetStage(etapas, sid, CancelOutcome(Current(etapas, sid))) else etapas;
      CancelFrom(e1, apartir, k + 1)
  }

  // ---------------------------------------------------------------- one pass of the loop

  /** A stage the loop skips: already finished or cancelled. */
  predicate Done(etapas: seq<Stage>, id: int) {
    var c := Current(etapas, id);
    c.status == Concluido || c.status == Cancelado
  }

  /** A stage that is no longer pending has an entry of its own. */
  lemma StartedHasEntry(e: seq<Stage>, id: int)
    ensures Current(e, id).status != Pendente ==> StageOf(e, id) == Some(Current(e, id))
  {
  }

  /** The success message `_executar_etapa` records for each stage. */
  function SuccessMessage(id: int): string {
    if id == 1 then "Dados de aproveitamento registrados"
    else if id == 2 then "Análise de substituição concluída"
    else if id == 3 then "Pesquisa de guias registrada"
    else if id == 4 then "Lançamento de guias concluído"
    else if id == 5 then "Situação do plano validada"
    else if id == 6 then "Plano atualizado para RESCINDIDO"
    else if id == 7 then "Comunicação registrada"
    else "Etapa desconhecida"
  }

  /**
   * One pass of the loop of `_process_plan` for stage `sid`, on the list:
   * a finished or cancelled stage is only fetched (and so created if it
   * was missing); otherwise it is started and then either finished with its
   * success message or, at stage 5 with a discard draw, finished as
   * discarded with the later unfinished stages cancelled. The flag says
   * whether the pass discarded the treatment. `PassAsWritten` shows this
   * is the sequence of marker calls the source makes.
   */
  function Pass(etapas: seq<Stage>, sid: int, discard: bool, now: Instant): (r: (seq<Stage>, bool))
    ensures r.1 <==> sid == 5 && discard && !Done(etapas, 5)
  {
    if Done(etapas, sid) then (SetStage(etapas, sid, Current(etapas, sid)), false)
    else
      var c := Started(Current(etapas, sid), now);
      if sid == 5 && discard then (CancelFrom(SetStage(etapas, 5, Finished(c, "Plano descartado", now)), 6, 0), true)
      else (SetStage(etapas, sid, Finished(c, SuccessMessage(sid), now)), false)
  }

  /**
   * The pass is the source's sequence of calls: fetch the entry, mark the
   * start, then either mark the finish, or mark the finish as discarded and
   * cancel the rest from stage 6.
   */
  lemma PassAsWritten(etapas: seq<Stage>, sid: int, discard: bool, now: Instant)
    ensures var e1 := SetStage(etapas, sid, Current(etapas, sid));
      && (Done(e1, sid) ==> Pass(etapas, sid, discard, now) == (e1, false))
      && (!Done(e1, sid) && sid == 5 && discard ==>
            Pass(etapas, sid, discard, now) == (CancelFrom(FinishStage(StartStage(e1, 5, now), 5, "Plano descartado", now), 6, 0), true))
      && (!Done(e1, sid) && !(sid == 5 && discard) ==>
            Pass(etapas, sid, discard, now) == (FinishStage(StartStage(e1, sid, now), sid, SuccessMessage(sid), now), false))
  {
    var e1 := SetStage(etapas, sid, Current(etapas, sid));
    var c := Started(Current(etapas, sid), now);
    assert Current(e1, sid) == Current(etapas, sid);
    SetStageTwice(etapas, sid, Current(etapas, sid), c);
    var e2 := StartStage(e1, sid, now);
    assert Current(e2, sid) == c;
    SetStageTwice(etapas, sid, c, Finished(c, "Plano descartado", now));
    SetStageTwice(etapas, sid, c, Finished(c, SuccessMessage(sid), now));
  }

  /**
   * The entry a stage ends the loop with, from the entry it started with:
   * cancelled by the rule when a discard at stage 5 came before it; kept
   * when already finished or cancelled; otherwise started and finished,
   * as discarded at stage 5 on a discard, else with its success message.
   */
  function FinalEntry(c: Stage, b: int, discarded: bool, now: Instant): (r: Stage)
    ensures r.id == c.id && r.nome == c.nome
    ensures r.status == Concluido || r.status == Cancelado
    ensures c.status == Concluido ==> r == c
    ensures c.status == Cancelado ==> r.status == Cancelado
    ensures !discarded && c.status != Cancelado ==> r.status == Concluido
    ensures c.status == Pendente ==> r.status == (if discarded && b > 5 then Cancelado else Concluido)
    ensures c.status != Concluido && c.status != Cancelado && !(discarded && b > 5) ==>
      r.iniciadoEm.Some? && r.finalizadoEm == Some(now)
  {
    if discarded && b > 5 then CancelOutcome(c)
    else if c.status == Concluido || c.status == Cancelado then c
    else if discarded && b == 5 then Finished(Started(c, now), "Plano descartado", now)
    else Finished(Started(c, now), SuccessMessage(b), now)
  }

  /** A pass leaves its own stage with its final entry. */
  lemma PassOwn(etapas: seq<Stage>, sid: int, discard: bool, now: Instant)
    ensures var p := Pass(etapas, sid, discard, now);
      StageOf(p.0, sid) == Some(FinalEntry(Current(etapas, sid), sid, p.1, now))
  {
    StartedHasEntry(etapas, sid);
  }

  /**
   * A pass changes no other stage's entry, except that a discard cancels
   * the unfinished stages after stage 5.
   */
  lemma PassOther(etapas: seq<Stage>, sid: int, discard: bool, now: Instant, b: int)
    requires b != sid
    ensures var r := Pass(etapas, sid, discard, now).0;
      && (sid != 5 || !discard || Done(etapas, 5) || b < 5 || b > StageCount ==> StageOf(r, b) == StageOf(etapas, b))
      && (sid == 5 && discard && !Done(etapas, 5) && 6 <= b <= StageCount ==>
            StageOf(r, b) == Some(CancelOutcome(Current(etapas, b))))
  {
    var e1 := SetStage(etapas, sid, Current(etapas, sid));
    if !Done(etapas, sid) && sid == 5 && discard {
      var e2 := StartStage(e1, sid, now);
      assert Current(e2, b) == Current(etapas, b);
    }
  }

  // ---------------------------------------------------------------- the loop

  /**
   * The loop of `_process_plan` on the list, from table position `k` on:
   * one pass per stage in table order, stopping after a discard.
   */
  function Passes(etapas: seq<Stage>, k: nat, discard: bool, now: Instant): (r: (seq<Stage>, bool))
    requires k <= StageCount
    decreases StageCount - k
  {
    if k == StageCount then (etapas, false)
    else
      var (e1, discarded) := Pass(etapas, k + 1, discard, now);
      if discarded then (e1, true) else Passes(e1, k + 1, discard, now)
  }

  /** One step of the loop: a pass, then the rest unless it discarded. */
  lemma PassesStep(etapas: seq<Stage>, k: nat, discard: bool, now: Instant)
    requires k < StageCount
    ensures var p := Pass(etapas, k + 1, discard, now);
      Passes(etapas, k, discard, now) == if p.1 then p else Passes(p.0, k + 1, discard, now)
  {
  }

  /** The loop leaves the stages before position `k` and outside the table alone. */
  lemma {:induction false} PassesFrame(etapas: seq<Stage>, k: nat, discard: bool, now: Instant, b: int)
    requires k <= StageCount && (b <= k || b > StageCount)
    ensures StageOf(Passes(etapas, k, discard, now).0, b) == StageOf(etapas, b)
    decreases StageCount - k
  {
    if k < StageCount {
      PassesStep(etapas, k, discard, now);
      var p := Pass(etapas, k + 1, discard, now);
      PassOther(etapas, k + 1, discard, now, b);
      if !p.1 {
        PassesFrame(p.0, k + 1, discard, now, b);
      }
    }
  }

  /** A discard happens exactly when the draw says so and stage 5 was still to run. */
  lemma {:induction false} PassesDiscard(etapas: seq<Stage>, k: nat, discard: bool, now: Instant)
    requires k <= StageCount
    ensures Passes(etapas, k, discard, now).1 <==> discard && k < 5 && !Done(etapas, 5)
    decreases StageCount - k
  {
    if k < StageCount {
      PassesStep(etapas, k, discard, now);
      var p := Pass(etapas, k + 1, discard, now);
      if !p.1 {
        PassesDiscard(p.0, k + 1, discard, now);
        if k + 1 < 5 {
          PassOther(etapas, k + 1, discard, now, 5);
          assert Current(p.0, 5) == Current(etapas, 5);
        }
      }
    }
  }

  /** Whether the loop from position `k` on discards: the draw says so and stage 5 is still to run. */
  predicate Discards(etapas: seq<Stage>, k: nat, discard: bool) {
    discard && k < 5 && !Done(etapas, 5)
  }

  /** A pass's own discard flag and the loop's agree on the final entry of the pass's stage. */
  lemma DiscardsOwn(etapas: seq<Stage>, k: nat, discard: bool, now: Instant, c: Stage)
    requires k < StageCount
    ensures FinalEntry(c, k + 1, Pass(etapas, k + 1, discard, now).1, now)
      == FinalEntry(c, k + 1, Discards(etapas, k, discard), now)
  {
  }

  /** A pass that did not discard leaves the loop's discard decision to the rest of the loop. */
  lemma DiscardsNext(etapas: seq<Stage>, k: nat, discard: bool, now: Instant)
    requires k < StageCount && !Pass(etapas, k + 1, discard, now).1
    ensures Discards(etapas, k, discard) == Discards(Pass(etapas, k + 1, discard, now).0, k + 1, discard)
  {
    var p := Pass(etapas, k + 1, discard, now);
    if k + 1 < 5 {
      PassOther(etapas, k + 1, discard, now, 5);
      assert Current(p.0, 5) == Current(etapas, 5);
    }
  }

  /** After the pass at position `k`, the rest of the loop leaves that pass's stage alone. */
  lemma PassesKeepsOwn(etapas: seq<Stage>, k: nat, discard: bool, now: Instant)
    requires k < StageCount
    ensures StageOf(Passes(etapas, k, discard, now).0, k + 1) == StageOf(Pass(etapas, k + 1, discard, now).0, k + 1)
  {
    var p := Pass(etapas, k + 1, discard, now);
    PassesStep(etapas, k, discard, now);
    PassesFrame(p.0, k + 1, discard, now, k + 1);
    KeepStep(Passes(etapas, k, discard, now), p, Passes(p.0, k + 1, discard, now), k + 1);
  }

  /** A step of the loop that either stops at the pass or leaves the stage as the pass did. */
  lemma KeepStep(q: (seq<Stage>, bool), p: (seq<Stage>, bool), rest: (seq<Stage>, bool), b: int)
    requires q == (if p.1 then p else rest)
    requires StageOf(rest.0, b) == StageOf(p.0, b)
    ensures StageOf(q.0, b) == StageOf(p.0, b)
  {
  }

  /** The pass's own stage ends the loop with its final entry. */
  lemma PassesFinalOwn(etapas: seq<Stage>, k: nat, discard: bool, now: Instant)
    requires k < StageCount
    ensures StageOf(Passes(etapas, k, discard, now).0, k + 1)
      == Some(FinalEntry(Current(etapas, k + 1), k + 1, Discards(etapas, k, discard), now))
  {
    PassesKeepsOwn(etapas, k, discard, now);
    PassOwn(etapas, k + 1, discard, now);
    DiscardsOwn(etapas, k, discard, now, Current(etapas, k + 1));
  }

  /** A later stage ends the loop cancelled when this pass discards. */
  lemma PassesFinalCancel(etapas: seq<Stage>, k: nat, discard: bool, now: Instant, b: int)
    requires k + 1 < b <= StageCount && Pass(etapas, k + 1, discard, now).1
    ensures StageOf(Passes(etapas, k, discard, now).0, b)
      == Some(FinalEntry(Current(etapas, b), b, Discards(etapas, k, discard), now))
  {
    PassesStep(etapas, k, discard, now);
    var p := Pass(etapas, k + 1, discard, now);
    PassOther(etapas, k + 1, discard, now, b);
    assert Passes(etapas, k, discard, now).0 == p.0;
    assert Discards(etapas, k, discard) && b > 5;
  }

  /**
   * Every stage from position `k` on ends the loop with its final entry,
   * where the discard that cancels the later stages is the one at stage 5
   * when the loop still had stage 5 to run.
   */
  lemma {:induction false} PassesFinal(etapas: seq<Stage>, k: nat, discard: bool, now: Instant, b: int)
    requires k < b <= StageCount
    ensures StageOf(Passes(etapas, k, discard, now).0, b)
      == Some(FinalEntry(Current(etapas, b), b, Discards(etapas, k, discard), now))
    decreases StageCount - k
  {
    var p := Pass(etapas, k + 1, discard, now);
    if b == k + 1 {
      PassesFinalOwn(etapas, k, discard, now);
    } else if p.1 {
      PassesFinalCancel(etapas, k, discard, now, b);
    } else {
      PassesStep(etapas, k, discard, now);
      PassOther(etapas, k + 1, discard, now, b);
      assert Current(p.0, b) == Current(etapas, b);
      DiscardsNext(etapas, k, discard, now);
      PassesFinal(p.0, k + 1, discard, now, b);
      assert Passes(etapas, k, discard, now).0 == Passes(p.0, k + 1, discard, now).0;
    }
  }

  // ---------------------------------------------------------------- appends

  /** Every table stage from position `k` on has an entry in the list. */
  predicate HoldsStagesFrom(etapas: seq<Stage>, k: nat)
    decreases StageCount - k
  {
    k >= StageCount || (StageOf(etapas, k + 1).Some? && HoldsStagesFrom(etapas, k + 1))
  }

  /**
   * The list has an entry for every table stage: then no marker call
   * appends to it, and every update is made on an existing entry in place.
   */
  predicate HoldsAllStages(etapas: seq<Stage>) {
    HoldsStagesFrom(etapas, 0)
  }

  /** A list holds every stage from `k` on exactly when each of those stages has an entry. */
  lemma {:induction false} HoldsStagesFromIff(etapas: seq<Stage>, k: nat)
    ensures HoldsStagesFrom(etapas, k) <==> forall s :: k < s <= StageCount ==> StageOf(etapas, s).Some?
    decreases StageCount - k
  {
    if k < StageCount {
      HoldsStagesFromIff(etapas, k + 1);
      assert HoldsStagesFrom(etapas, k) <==> StageOf(etapas, k + 1).Some? && HoldsStagesFrom(etapas, k + 1);
      var all := forall s :: k < s <= StageCount ==> StageOf(etapas, s).Some?;
      var rest := forall s :: k + 1 < s <= StageCount ==> StageOf(etapas, s).Some?;
      assert all <==> StageOf(etapas, k + 1).Some? && rest by {
        if StageOf(etapas, k + 1).Some? && rest {
          forall s | k < s <= StageCount
            ensures StageOf(etapas, s).Some?
          {
            if s > k + 1 {
              assert k + 1 < s <= StageCount;
            }
          }
        }
      }
    }
  }

  /** Replacing an existing entry keeps the list's length: nothing is appended. */
  lemma {:induction false} SetStageInPlace(etapas: seq<Stage>, id: int, s: Stage)
    requires s.id == id && StageOf(etapas, id).Some?
    ensures |SetStage(etapas, id, s)| == |etapas|
    decreases |etapas|
  {
    if etapas[0].id != id {
      SetStageInPlace(etapas[1..], id, s);
    }
  }

  /** A replacement of a stage's entry on a list holding every stage keeps it holding every stage, in place. */
  lemma SetStageHolds(etapas: seq<Stage>, id: int, s: Stage)
    requires s.id == id && HoldsAllStages(etapas) && 1 <= id <= StageCount
    ensures |SetStage(etapas, id, s)| == |etapas| && HoldsAllStages(SetStage(etapas, id, s))
  {
    HoldsStagesFromIff(etapas, 0);
    SetStageInPlace(etapas, id, s);
    HoldsStagesFromIff(SetStage(etapas, id, s), 0);
  }

  /** Cancelling the rest of a list holding every stage appends nothing. */
  lemma {:induction false} CancelFromInPlace(etapas: seq<Stage>, apartir: int, k: nat)
    requires k <= StageCount && HoldsAllStages(etapas)
    ensures |CancelFrom(etapas, apartir, k)| == |etapas|
    decreases StageCount - k
  {
    if k < StageCount {
      var sid := k + 1;
      if sid >= apartir {
        var e1 := SetStage(etapas, sid, CancelOutcome(Current(etapas, sid)));
        SetStageHolds(etapas, sid, CancelOutcome(Current(etapas, sid)));
        assert CancelFrom(etapas, apartir, k) == CancelFrom(e1, apartir, k + 1);
        CancelFromInPlace(e1, apartir, k + 1);
      } else {
        assert CancelFrom(etapas, apartir, k) == CancelFrom(etapas, apartir, k + 1);
        CancelFromInPlace(etapas, apartir, k + 1);
      }
    }
  }

  /** One pass on a list holding every stage appends nothing and keeps it holding every stage. */
  lemma PassInPlace(etapas: seq<Stage>, sid: int, discard: bool, now: Instant)
    requires 1 <= sid <= StageCount && HoldsAllStages(etapas)
    ensures |Pass(etapas, sid, discard, now).0| == |etapas| && HoldsAllStages(Pass(etapas, sid, discard, now).0)
  {
    var c := Started(Current(etapas, sid), now);
    if Done(etapas, sid) {
      SetStageHolds(etapas, sid, Current(etapas, sid));
    } else if sid == 5 && discard {
      var e1 := SetStage(etapas, 5, Finished(c, "Plano descartado", now));
      SetStageHolds(etapas, 5, Finished(c, "Plano descartado", now));
      CancelFromInPlace(e1, 6, 0);
      HoldsStagesFromIff(e1, 0);
      HoldsStagesFromIff(CancelFrom(e1, 6, 0), 0);
    } else {
      SetStageHolds(etapas, sid, Finished(c, SuccessMessage(sid), now));
    }
  }

  /**
   * On a list holding every stage the loop of `_process_plan` only ever
   * updates entries in place: the list keeps its length and still holds
   * every stage.
   */
  lemma {:induction false} PassesInPlace(etapas: seq<Stage>, k: nat, discard: bool, now: Instant)
    requires k <= StageCount && HoldsAllStages(etapas)
    ensures |Passes(etapas, k, discard, now).0| == |etapas|
    ensures HoldsAllStages(Passes(etapas, k, discard, now).0)
    decreases StageCount - k
  {
    if k < StageCount {
      PassesStep(etapas, k, discard, now);
      var p := Pass(etapas, k + 1, discard, now);
      PassInPlace(etapas, k + 1, discard, now);
      if !p.1 {
        PassesInPlace(p.0, k + 1, discard, now);
      }
    }
  }
}
