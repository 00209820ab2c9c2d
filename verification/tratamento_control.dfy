/**
 * The control state of the treatment engine: the stored state, the
 * processing-enabled flag (the worker's resume event), the id being
 * processed and the pending queue. The asyncio queue and its shadow list
 * receive the same ids in the same order and lose their head together, so
 * one sequence stands for both. Every operation is a pure transition.
 */
module TratamentoControl {
  import opened Wrappers
  import opened Text
  import opened Collections
  import Models
  import StageTables

  datatype Estado = Ocioso | Aguardando | Processando | Pausado

  datatype Engine = Engine(estado: Estado, enabled: bool, current: Option<int>, queue: seq<int>)

  /** A freshly constructed service: idle, disabled, nothing queued. */
  const Initial: Engine := Engine(Ocioso, false, None, [])

  /** The state the current id and the queue call for. */
  function Derived(current: Option<int>, queue: seq<int>): (r: Estado)
    ensures r == Processando <==> current.Some?
    ensures r == Aguardando <==> current.None? && queue != []
    ensures r == Ocioso <==> current.None? && queue == []
  {
    if current.Some? then Processando else if queue != [] then Aguardando else Ocioso
  }

  /**
   * `estado()`: a stored pause always shows; otherwise an item in hand shows
   * as processing, a non-empty queue as waiting, and else the stored state.
   */
  function EstadoPublico(e: Engine): (r: Estado)
    ensures r == Pausado <==> e.estado == Pausado
    ensures e.estado != Pausado && e.current.Some? ==> r == Processando
    ensures e.estado != Pausado && e.current.None? && e.queue != [] ==> r == Aguardando
    ensures e.estado != Pausado && e.current.None? && e.queue == [] ==> r == e.estado
  {
    if e.estado == Pausado then Pausado
    else if e.current.Some? then Processando
    else if e.queue != [] then Aguardando
    else e.estado
  }

  /**
   * What every transition keeps: a stored "processing" has an item in hand,
   * and a stored "waiting" has an item in hand or in the queue.
   */
  predicate Inv(e: Engine) {
    && (e.estado == Processando ==> e.current.Some?)
    && (e.estado == Aguardando ==> e.current.Some? || e.queue != [])
  }

  /** Under the invariant the public state is the pause or else exactly the derived state. */
  lemma EstadoPublicoUnderInv(e: Engine)
    requires Inv(e)
    ensures EstadoPublico(e) == if e.estado == Pausado then Pausado else Derived(e.current, e.queue)
  {
  }

  /** `iniciar`: enable processing and take the derived state, whatever the stored one. */
  function Iniciar(e: Engine): (r: Engine)
    ensures r.enabled && r.current == e.current && r.queue == e.queue
    ensures r.estado == Derived(e.current, e.queue) && Inv(r)
  {
    e.(enabled := true, estado := Derived(e.current, e.queue))
  }

  /** `pausar`: only from processing or waiting; then disabled and paused. */
  function Pausar(e: Engine): (r: Engine)
    ensures e.estado != Processando && e.estado != Aguardando ==> r == e
    ensures e.estado == Processando || e.estado == Aguardando ==>
      r.estado == Pausado && !r.enabled && r.current == e.current && r.queue == e.queue
  {
    if e.estado != Processando && e.estado != Aguardando then e
    else e.(enabled := false, estado := Pausado)
  }

  /** `_enqueue`: append the id; an idle, unpaused engine starts waiting. */
  function Enqueue(e: Engine, id: int): (r: Engine)
    ensures r.queue == e.queue + [id] && r.current == e.current && r.enabled == e.enabled
    ensures e.current.None? && e.estado != Pausado ==> r.estado == Aguardando
    ensures e.current.Some? || e.estado == Pausado ==> r.estado == e.estado
  {
    var q := e.queue + [id];
    if e.current.None? && e.estado != Pausado then e.(queue := q, estado := Aguardando)
    else e.(queue := q)
  }

  /**
   * The worker taking the next id: the head of the queue, once processing is
   * enabled (the worker blocks on an empty queue or a cleared resume event).
   */
  function Pickup(e: Engine): (r: Option<Engine>)
    ensures r.None? <==> e.queue == [] || !e.enabled
    ensures r.Some? ==>
      && r.value.current == Some(e.queue[0]) && r.value.queue == e.queue[1..]
      && r.value.enabled == e.enabled
      && r.value.estado == (if e.estado == Pausado then Pausado else Processando)
  {
    if e.queue == [] || !e.enabled then None
    else
      var s := if e.estado == Pausado then Pausado else Processando;
      Some(e.(current := Some(e.queue[0]), queue := e.queue[1..], estado := s))
  }

  /**
   * The worker's transition after each item: nothing in hand; with ids left
   * it waits (or stays paused when disabled); with none it is idle and disabled.
   */
  function FinishItem(e: Engine): (r: Engine)
    ensures r.current.None? && r.queue == e.queue
    ensures e.queue != [] ==> r.enabled == e.enabled && r.estado == (if e.enabled then Aguardando else Pausado)
    ensures e.queue == [] ==> r.estado == Ocioso && !r.enabled
  {
    if e.queue != [] then
      e.(current := None, estado := if e.enabled then Aguardando else Pausado)
    else
      e.(current := None, estado := Ocioso, enabled := false)
  }

  // ---------------------------------------------------------------- queue restoration

  /** The ids of the treatments with the given status, in list order. */
  function IdsWithStatus(planos: seq<Models.TreatmentPlan>, status: string): (r: seq<int>)
    ensures |r| <= |planos|
    ensures forall x :: x in r <==> exists i :: 0 <= i < |planos| && planos[i].id == x && planos[i].status == status
    decreases |planos|
  {
    if planos == [] then []
    else
      var rest := IdsWithStatus(planos[1..], status);
      assert forall i :: 1 <= i < |planos| ==> planos[1..][i - 1] == planos[i];
      if planos[0].status == status then [planos[0].id as int] + rest else rest
  }

  /**
   * `_pending_ids_from_planos`: the "processando" ids, then the "pendente"
   * ids, each once at its first position.
   */
  function PendingIds(planos: seq<Models.TreatmentPlan>): (r: seq<int>)
    ensures NoDup(r)
    ensures forall x :: x in r <==>
      (exists i :: 0 <= i < |planos| && planos[i].id == x && planos[i].status in {"processando", "pendente"})
  {
    var prioridade := IdsWithStatus(planos, "processando");
    var pendentes := IdsWithStatus(planos, "pendente");
    var r := Dedup(prioridade + pendentes);
    assert forall x :: x in r <==> x in prioridade + pendentes;
    r
  }

  /**
   * The ids of in-progress treatments come before every id that is only
   * pending, and the whole list keeps the order of first appearance.
   */
  lemma PendingIdsOrder(planos: seq<Models.TreatmentPlan>)
    ensures var prioridade := IdsWithStatus(planos, "processando");
      var r := PendingIds(planos);
      && |Dedup(prioridade)| <= |r| && r[..|Dedup(prioridade)|] == Dedup(prioridade)
      && forall i :: |Dedup(prioridade)| <= i < |r| ==> r[i] !in prioridade
    ensures var o := IdsWithStatus(planos, "processando") + IdsWithStatus(planos, "pendente");
      forall i, j :: 0 <= i < j < |PendingIds(planos)| ==>
        FirstIndex(o, PendingIds(planos)[i]) < FirstIndex(o, PendingIds(planos)[j])
  {
    var prioridade := IdsWithStatus(planos, "processando");
    var pendentes := IdsWithStatus(planos, "pendente");
    DedupAppend(prioridade, pendentes);
    DedupOrder(prioridade + pendentes);
  }

  /**
   * The loop of `_restore_pending_ids`: each id not yet seen is appended and
   * becomes seen. Returns the appended ids.
   */
  function AppendUnseen(seen: set<int>, ids: seq<int>): (r: seq<int>)
    ensures NoDup(r)
    ensures forall x :: x in r <==> x in ids && x !in seen
    decreases |ids|
  {
    if ids == [] then []
    else if ids[0] in seen then AppendUnseen(seen, ids[1..])
    else [ids[0]] + AppendUnseen(seen + {ids[0]}, ids[1..])
  }

  /** The test "not seen yet", as one function value shared by the statements about it. */
  function NotIn(seen: set<int>): int -> bool {
    x => x !in seen
  }

  /** The appended ids are the unseen ids, deduplicated in order of first appearance. */
  lemma {:induction false} AppendUnseenIsDedup(seen: set<int>, ids: seq<int>)
    ensures AppendUnseen(seen, ids) == Dedup(Filter(ids, NotIn(seen)))
    decreases |ids|
  {
    if ids != [] {
      var p := ids[..|ids| - 1];
      var last := ids[|ids| - 1];
      assert ids == p + [last];
      AppendUnseenIsDedup(seen, p);
      AppendUnseenSnoc(seen, p, last);
      FilterAppend(p, [last], NotIn(seen));
      FilterOne(last, NotIn(seen));
      DedupUnseenStep(seen, last, AppendUnseen(seen, p), Filter(p, NotIn(seen)));
    }
  }

  /** One step of the induction above: one more id, with `a` the ids appended so far and `f` the unseen ones. */
  lemma DedupUnseenStep(seen: set<int>, last: int, a: seq<int>, f: seq<int>)
    requires a == Dedup(f)
    ensures (if last in seen || last in a then a else a + [last])
      == Dedup(if last in seen then f + [] else f + [last])
  {
    if last in seen {
      assert f + [] == f;
    } else {
      DedupSnoc(f, last);
      DedupHas(f, last);
    }
  }

  /** Nothing is appended when every id has been seen. */
  lemma {:induction false} AppendUnseenAllSeen(seen: set<int>, ids: seq<int>)
    requires forall i :: 0 <= i < |ids| ==> ids[i] in seen
    ensures AppendUnseen(seen, ids) == []
    decreases |ids|
  {
    if ids != [] {
      AppendUnseenAllSeen(seen, ids[1..]);
    }
  }

  lemma {:induction false} AppendUnseenSnoc(seen: set<int>, p: seq<int>, x: int)
    ensures AppendUnseen(seen, p + [x]) ==
      if x in seen || x in AppendUnseen(seen, p) then AppendUnseen(seen, p) else AppendUnseen(seen, p) + [x]
    decreases |p|
  {
    if p == [] {
      assert p + [x] == [x];
    } else {
      assert (p + [x])[1..] == p[1..] + [x];
      if p[0] in seen {
        AppendUnseenSnoc(seen, p[1..], x);
      } else {
        AppendUnseenSnoc(seen + {p[0]}, p[1..], x);
      }
    }
  }

  /** The ids already queued or in hand, which restoration never adds again. */
  function Existing(e: Engine): (s: set<int>)
    ensures forall x :: x in s <==> x in e.queue || e.current == Some(x)
  {
    (set x | x in e.queue) + (if e.current.Some? then {e.current.value} else {})
  }

  /**
   * `_restore_pending_ids`: append every id not already queued or in hand,
   * once; adding anything while processing is disabled pauses the engine.
   */
  function RestorePendingIds(e: Engine, ids: seq<int>): (r: Engine)
    ensures r.current == e.current && r.enabled == e.enabled
    ensures r.queue == e.queue + AppendUnseen(Existing(e), ids)
    ensures forall x :: x in ids ==> x in r.queue || e.current == Some(x)
    ensures |r.queue| > |e.queue| && !e.enabled ==> r.estado == Pausado
    ensures |r.queue| == |e.queue| || e.enabled ==> r.estado == e.estado
  {
    if ids == [] then e
    else
      var added := AppendUnseen(Existing(e), ids);
      var q := e.queue + added;
      if added != [] && !e.enabled then e.(queue := q, estado := Pausado) else e.(queue := q)
  }

  /** Restoring keeps the queue free of duplicates and of the id in hand. */
  lemma RestoreKeepsNoDup(e: Engine, ids: seq<int>)
    requires NoDup(e.queue) && (e.current.Some? ==> e.current.value !in e.queue)
    ensures var r := RestorePendingIds(e, ids);
      NoDup(r.queue) && (r.current.Some? ==> r.current.value !in r.queue)
  {
    var r := RestorePendingIds(e, ids);
    var added := AppendUnseen(Existing(e), ids);
    forall i, j | 0 <= i < j < |r.queue|
      ensures r.queue[i] != r.queue[j]
    {
      if j >= |e.queue| && i < |e.queue| {
        assert r.queue[i] in e.queue;
        assert r.queue[j] == added[j - |e.queue|];
      } else if i >= |e.queue| {
        assert r.queue[i] == added[i - |e.queue|] && r.queue[j] == added[j - |e.queue|];
      }
    }
  }

  /** Restoring the same ids a second time adds nothing. */
  lemma RestoreIdempotent(e: Engine, ids: seq<int>)
    ensures RestorePendingIds(RestorePendingIds(e, ids), ids).queue == RestorePendingIds(e, ids).queue
  {
    var r := RestorePendingIds(e, ids);
    var again := AppendUnseen(Existing(r), ids);
    AppendUnseenAllSeen(Existing(r), ids);
    assert r.queue + again == r.queue;
  }

  /**
   * `continuar`: restore the queue first (whatever the state), then only a
   * paused engine is re-enabled and takes the derived state.
   */
  function Continuar(e: Engine, ids: seq<int>): (r: Engine)
    ensures r.queue == RestorePendingIds(e, ids).queue && r.current == e.current
    ensures RestorePendingIds(e, ids).estado != Pausado ==> r == RestorePendingIds(e, ids)
    ensures RestorePendingIds(e, ids).estado == Pausado ==>
      r.enabled && r.estado == Derived(r.current, r.queue)
  {
    var restored := RestorePendingIds(e, ids);
    if restored.estado != Pausado then restored else Iniciar(restored)
  }

  /** Every transition keeps the invariant. */
  lemma TransitionsKeepInv(e: Engine, id: int, ids: seq<int>)
    requires Inv(e)
    ensures Inv(Iniciar(e)) && Inv(Pausar(e)) && Inv(Enqueue(e, id)) && Inv(FinishItem(e))
    ensures Inv(RestorePendingIds(e, ids)) && Inv(Continuar(e, ids))
    ensures Pickup(e).Some? ==> Inv(Pickup(e).value)
  {
  }

  /** Pausing then continuing with nothing to restore re-enables the engine in its derived state. */
  lemma PauseThenContinue(e: Engine)
    requires e.estado == Processando || e.estado == Aguardando
    ensures var r := Continuar(Pausar(e), []);
      r.enabled && r.queue == e.queue && r.current == e.current && r.estado == Derived(e.current, e.queue)
  {
  }

  // ---------------------------------------------------------------- control log entries

  /** The audit entry written by `pausar` (or `continuar`, when `resumed`). */
  datatype ControlEntry = ControlEntry(status: string, mensagem: string, etapaNumero: Option<int>, etapaNome: Option<string>)

  /**
   * The entry for the stage in hand: "Etapa n pausada"/"Etapa n retomada"
   * naming the stage label, or a queue-wide message when no stage is known.
   */
  function ControlLog(resumed: bool, etapaAtual: Option<int>): (r: ControlEntry)
    ensures r.status == (if resumed then "RETOMADO" else "PAUSADO")
    ensures r.etapaNumero == etapaAtual
    ensures etapaAtual.None? || etapaAtual.value == 0 ==>
      r.etapaNome == Some("") && r.mensagem == (if resumed then "Fila de tratamento retomada." else "Fila de tratamento pausada.")
    ensures etapaAtual.Some? && etapaAtual.value != 0 ==>
      && StartsWith(r.mensagem, "Etapa " + IntToString(etapaAtual.value))
      && r.mensagem == "Etapa " + IntToString(etapaAtual.value) + (if resumed then " retomada" else " pausada")
      && (r.etapaNome.Some? <==> 1 <= etapaAtual.value <= 7)
      && r.etapaNome == (if etapaAtual.value in StageTables.TratamentoLabels
                         then Some(StageTables.TratamentoLabels[etapaAtual.value]) else None)
  {
    if etapaAtual.Some? && etapaAtual.value != 0 then
      var n := etapaAtual.value;
      StageTables.TratamentoLabelsShape(n);
      var nome := if n in StageTables.TratamentoLabels then Some(StageTables.TratamentoLabels[n]) else None;
      var m := "Etapa " + IntToString(n) + (if resumed then " retomada" else " pausada");
      assert m[..|"Etapa " + IntToString(n)|] == "Etapa " + IntToString(n);
      ControlEntry(if resumed then "RETOMADO" else "PAUSADO", m, etapaAtual, nome)
    else
      ControlEntry(if resumed then "RETOMADO" else "PAUSADO",
        if resumed then "Fila de tratamento retomada." else "Fila de tratamento pausada.",
        etapaAtual, Some(""))
  }
}
