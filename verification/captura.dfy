/**
 * The plan-capture simulator: a state machine over an estado, three
 * counters, the map of plans in flight and a bounded window of history
 * entries mirrored into an append-only event store.
 *
 * The asyncio task, the pause Event and the store's session are replaced
 * by plain data: `pauseSignal` is the Event (`None` when there is none,
 * otherwise whether it is set), `taskActive` says whether the run task is
 * still going, and `Io` carries the clock reading and whether the store
 * answered. The random draws of one plan arrive as a `CapturaDraws`.
 */
module Captura {
  import opened Wrappers
  import opened Text
  import opened Collections
  import opened Enums
  import opened Models
  import opened Repositories
  import Cnpj

  // ---------------------------------------------------------------- state

  datatype Estado = Ocioso | Executando | Pausado | Concluido

  /** The stage labels a plan in flight carries by default. */
  const DefaultEtapas: seq<string> := ["Captura", "Situação especial", "Liquidação anterior", "GRDE"]

  datatype PlanoProgresso = PlanoProgresso(numeroPlano: string, progresso: int, etapas: seq<string>)

  /** `PlanoProgresso(numero, 0)`: no progress yet, default labels. */
  function NewProgresso(numero: string): (p: PlanoProgresso)
    ensures p.numeroPlano == numero && p.progresso == 0 && p.etapas == DefaultEtapas
  {
    PlanoProgresso(numero, 0, DefaultEtapas)
  }

  /** One history entry (`PlanoHistorico`). */
  datatype Evento = Evento(numeroPlano: string, mensagem: string, progresso: int, etapa: string, timestamp: Instant)

  /** A row of the capture-event store; its timestamp column may be empty. */
  datatype StoredEvent = StoredEvent(
    numeroPlano: string, mensagem: string, progresso: int, etapa: string, timestamp: Option<Instant>)

  datatype CapturaStatus = CapturaStatus(
    estado: Estado,
    processados: int,
    novos: int,
    falhas: int,
    emProgresso: map<string, PlanoProgresso>,
    ultimaAtualizacao: Option<Instant>,
    lastError: Option<string>,
    historico: seq<Evento>)

  /** `CapturaStatus()`: idle, zero counters, nothing in flight, no history. */
  function NewStatus(): (st: CapturaStatus)
    ensures st.estado == Ocioso && st.processados == 0 && st.novos == 0 && st.falhas == 0
    ensures st.emProgresso == map[] && st.historico == [] && st.ultimaAtualizacao.None? && st.lastError.None?
  {
    CapturaStatus(Ocioso, 0, 0, 0, map[], None, None, [])
  }

  /** The number of history entries kept in memory by default. */
  const DefaultHistoryLimit: nat := 200

  datatype Service = Service(
    status: CapturaStatus,
    historyLoaded: bool,
    historyLimit: nat,
    pauseSignal: Option<bool>,
    taskActive: bool)

  /** A freshly constructed service with the given history window. */
  function NewService(limit: nat): (s: Service)
    ensures s.status == NewStatus() && !s.historyLoaded && s.historyLimit == limit
    ensures s.pauseSignal.None? && !s.taskActive
  {
    Service(NewStatus(), false, limit, None, false)
  }

  /** `reset_estado`: a fresh status and no run, keeping only the configured window size. */
  function ResetEstado(s: Service): (r: Service)
    ensures r == NewService(s.historyLimit)
  {
    s.(status := NewStatus(), historyLoaded := false, pauseSignal := None, taskActive := false)
  }

  /** The service together with the tables it writes. */
  datatype World = World(svc: Service, events: seq<StoredEvent>, plans: seq<Plan>, occs: seq<DiscardedPlan>)

  /** What the outside world answers during one operation: the clock, and whether the store loads and saves. */
  datatype Io = Io(now: Instant, loadOk: bool, saveOk: bool)

  /** Replace the status, leaving the rest of the world alone. */
  function WithStatus(w: World, st: CapturaStatus): (r: World)
    ensures r.svc.status == st && r.events == w.events && r.plans == w.plans && r.occs == w.occs
    ensures r.svc == w.svc.(status := st)
  {
    w.(svc := w.svc.(status := st))
  }

  // ---------------------------------------------------------------- the history store

  /** The row the store keeps for an entry. */
  function ToStored(e: Evento): (r: StoredEvent)
    ensures r.timestamp == Some(e.timestamp)
  {
    StoredEvent(e.numeroPlano, e.mensagem, e.progresso, e.etapa, Some(e.timestamp))
  }

  /** The entry built from a stored row; a row without timestamp is stamped with the current instant. */
  function FromStored(row: StoredEvent, now: Instant): (e: Evento)
    ensures e.numeroPlano == row.numeroPlano && e.mensagem == row.mensagem
    ensures e.progresso == row.progresso && e.etapa == row.etapa
    ensures e.timestamp == row.timestamp.GetOr(now)
  {
    Evento(row.numeroPlano, row.mensagem, row.progresso, row.etapa, row.timestamp.GetOr(now))
  }

  /** Storing an entry and reading it back gives the entry. */
  lemma FromStoredToStored(e: Evento, now: Instant)
    ensures FromStored(ToStored(e), now) == e
  {
  }

  /** `get_recent(n)`: the newest `n` rows, newest first. */
  function GetRecent(store: seq<StoredEvent>, n: nat): (r: seq<StoredEvent>)
    ensures |r| == if |store| <= n then |store| else n
    ensures forall i :: 0 <= i < |r| ==> r[i] == store[|store| - 1 - i]
  {
    Reverse(LastN(store, n))
  }

  /** The entries of a list of rows, in the same order. */
  function LoadRows(rows: seq<StoredEvent>, now: Instant): (r: seq<Evento>)
    ensures |r| == |rows|
    ensures forall i :: 0 <= i < |rows| ==> r[i] == FromStored(rows[i], now)
  {
    seq(|rows|, i requires 0 <= i < |rows| => FromStored(rows[i], now))
  }

  /** Reversing the newest-first answer of `get_recent` gives the newest rows in store order. */
  lemma RecentChronological(store: seq<StoredEvent>, n: nat)
    ensures Reverse(GetRecent(store, n)) == LastN(store, n)
  {
    var l := LastN(store, n);
    var g := GetRecent(store, n);
    assert forall i :: 0 <= i < |l| ==> Reverse(g)[i] == g[|g| - 1 - i] == l[i];
  }

  /**
   * `_ensure_history_loaded`: once per service, replace the in-memory
   * history by the newest `historyLimit` stored rows in chronological order
   * and move `ultimaAtualizacao` to the last one; a store failure changes
   * nothing, so the next call tries again.
   */
  function Hydrate(w: World, io: Io): (r: World)
    ensures w.svc.historyLoaded || !io.loadOk ==> r == w
    ensures r.svc.historyLoaded == (w.svc.historyLoaded || io.loadOk)
    ensures r == w.(svc := w.svc.(historyLoaded := r.svc.historyLoaded, status := w.svc.status.(
      historico := r.svc.status.historico, ultimaAtualizacao := r.svc.status.ultimaAtualizacao)))
  {
    if w.svc.historyLoaded || !io.loadOk then w
    else
      var recent := GetRecent(w.events, w.svc.historyLimit);
      var h := LoadRows(Reverse(recent), io.now);
      var st := w.svc.status.(
        historico := h,
        ultimaAtualizacao := if h == [] then w.svc.status.ultimaAtualizacao else Some(h[|h| - 1].timestamp));
      w.(svc := w.svc.(status := st, historyLoaded := true))
  }

  /**
   * A first successful load puts the newest `historyLimit` stored rows in
   * memory in store order (oldest first), and moves `ultimaAtualizacao` to
   * the newest of them when there is one.
   */
  lemma HydrateLoads(w: World, io: Io)
    requires !w.svc.historyLoaded && io.loadOk
    ensures var h := Hydrate(w, io).svc.status.historico;
      && h == LoadRows(LastN(w.events, w.svc.historyLimit), io.now)
      && Hydrate(w, io).svc.status.ultimaAtualizacao ==
           if h == [] then w.svc.status.ultimaAtualizacao else Some(h[|h| - 1].timestamp)
  {
    RecentChronological(w.events, w.svc.historyLimit);
  }

  /** Hydration happens at most once: after a successful load, further calls change nothing. */
  lemma HydrateOnce(w: World, first: Io, later: Io)
    requires first.loadOk
    ensures Hydrate(Hydrate(w, first), later) == Hydrate(w, first)
  {
  }

  /** A failed load leaves the service as it was, so the next call loads as if it were the first. */
  lemma HydrateRetries(w: World, failed: Io, later: Io)
    requires !failed.loadOk
    ensures Hydrate(Hydrate(w, failed), later) == Hydrate(w, later)
  {
  }

  /** The entry `_registrar_historico` appends. */
  function Entry(numero: string, progresso: int, etapa: string, mensagem: string, io: Io): Evento {
    Evento(numero, mensagem, progresso, etapa, io.now)
  }

  /**
   * `_registrar_historico`: hydrate, try to persist the entry, append it to
   * the in-memory history, keep only the newest `historyLimit` entries, and
   * stamp `ultimaAtualizacao`. A store failure loses the row but not the
   * in-memory entry.
   */
  function Registrar(w: World, numero: string, progresso: int, etapa: string, mensagem: string, io: Io)
    : (r: World)
    ensures var w1 := Hydrate(w, io);
      r == w1.(events := r.events, svc := w1.svc.(status := w1.svc.status.(
        historico := r.svc.status.historico, ultimaAtualizacao := Some(io.now))))
    ensures r.events ==
      if io.saveOk then w.events + [ToStored(Entry(numero, progresso, etapa, mensagem, io))] else w.events
  {
    var w1 := Hydrate(w, io);
    var e := Entry(numero, progresso, etapa, mensagem, io);
    var events := if io.saveOk then w1.events + [ToStored(e)] else w1.events;
    var h := LastN(w1.svc.status.historico + [e], w1.svc.historyLimit);
    var st := w1.svc.status.(historico := h, ultimaAtualizacao := Some(io.now));
    w1.(events := events, svc := w1.svc.(status := st))
  }

  /**
   * The history after recording: the previous history with the new entry
   * appended, cut from the front to at most `historyLimit` entries; the
   * new entry is the last one whenever the window has room for anything.
   */
  lemma RegistrarWindow(w: World, numero: string, progresso: int, etapa: string, mensagem: string, io: Io)
    ensures var h0 := Hydrate(w, io).svc.status.historico;
      var e := Entry(numero, progresso, etapa, mensagem, io);
      var n := w.svc.historyLimit;
      var h := Registrar(w, numero, progresso, etapa, mensagem, io).svc.status.historico;
      && |h| == (if |h0| + 1 <= n then |h0| + 1 else n)
      && h == (h0 + [e])[|h0| + 1 - |h|..]
      && (|h0| + 1 <= n ==> h == h0 + [e])
      && (n > 0 ==> h[|h| - 1] == e)
  {
  }

  // ---------------------------------------------------------------- memory and store agree

  /** Every row carries its timestamp (the rows `Registrar` writes always do). */
  predicate Stamped(rows: seq<StoredEvent>) {
    forall i :: 0 <= i < |rows| ==> rows[i].timestamp.Some?
  }

  /** The in-memory history is exactly the newest `historyLimit` stored rows, oldest first. */
  predicate Synced(w: World) {
    && w.svc.historyLoaded && Stamped(w.events)
    && w.svc.status.historico == LoadRows(LastN(w.events, w.svc.historyLimit), 0)
  }

  /** For stamped rows the fallback instant plays no part. */
  lemma LoadRowsStamped(rows: seq<StoredEvent>, a: Instant, b: Instant)
    requires Stamped(rows)
    ensures LoadRows(rows, a) == LoadRows(rows, b)
  {
  }

  lemma LoadRowsLastN(rows: seq<StoredEvent>, n: nat, now: Instant)
    ensures LoadRows(LastN(rows, n), now) == LastN(LoadRows(rows, now), n)
  {
  }

  lemma LoadRowsSnoc(rows: seq<StoredEvent>, x: StoredEvent, now: Instant)
    ensures LoadRows(rows + [x], now) == LoadRows(rows, now) + [FromStored(x, now)]
  {
  }

  /** A first successful load from a stamped store brings memory and store in agreement. */
  lemma HydrateSyncs(w: World, io: Io)
    requires !w.svc.historyLoaded && io.loadOk && Stamped(w.events)
    ensures Synced(Hydrate(w, io))
  {
    LoadRowsStamped(LastN(w.events, w.svc.historyLimit), io.now, 0);
  }

  /** Recording through a working store keeps memory and store in agreement. */
  lemma RegistrarKeepsSync(w: World, numero: string, progresso: int, etapa: string, mensagem: string, io: Io)
    requires Synced(w) && io.saveOk
    ensures Synced(Registrar(w, numero, progresso, etapa, mensagem, io))
  {
    var e := Entry(numero, progresso, etapa, mensagem, io);
    var n := w.svc.historyLimit;
    var r := Registrar(w, numero, progresso, etapa, mensagem, io);
    assert r.events == w.events + [ToStored(e)];
    assert Stamped(r.events) by {
      assert forall i :: 0 <= i < |w.events| ==> r.events[i] == w.events[i];
    }
    calc {
      LoadRows(LastN(r.events, n), 0);
      { LoadRowsLastN(r.events, n, 0); }
      LastN(LoadRows(w.events + [ToStored(e)], 0), n);
      { LoadRowsSnoc(w.events, ToStored(e), 0); FromStoredToStored(e, 0); }
      LastN(LoadRows(w.events, 0) + [e], n);
      { LastNAppend(LoadRows(w.events, 0), e, n); }
      LastN(LastN(LoadRows(w.events, 0), n) + [e], n);
      { LoadRowsLastN(w.events, n, 0); }
      LastN(w.svc.status.historico + [e], n);
      { RegistrarWindow(w, numero, progresso, etapa, mensagem, io); }
      r.svc.status.historico;
    }
  }

  /**
   * A new service instance over the same store shows the same history
   * once it hydrates, and its `ultimaAtualizacao` is the last entry's
   * timestamp.
   */
  lemma FreshInstanceSameHistory(w: World, io: Io)
    requires Synced(w) && io.loadOk
    ensures var f := Hydrate(World(NewService(w.svc.historyLimit), w.events, w.plans, w.occs), io);
      var h := w.svc.status.historico;
      && f.svc.status.historico == h
      && (h != [] ==> f.svc.status.ultimaAtualizacao == Some(h[|h| - 1].timestamp))
  {
    LoadRowsStamped(LastN(w.events, w.svc.historyLimit), io.now, 0);
  }

  // ---------------------------------------------------------------- control

  const MsgIniciado := "Processamento iniciado."
  const MsgPausado := "Processamento pausado."
  const MsgRetomado := "Processamento retomado."
  const MsgConcluido := "Processamento concluído."

  /** `novos <= processados <= novos + falhas`, with no negative counter. */
  predicate CounterInv(st: CapturaStatus) {
    0 <= st.novos <= st.processados <= st.novos + st.falhas && 0 <= st.falhas
  }

  /**
   * `iniciar`: hydrate; while a run is executing or paused nothing else
   * happens. Otherwise start over with zero counters and nothing in
   * flight, keep the history and `ultimaAtualizacao`, record the start,
   * and create a set pause signal and a running task.
   */
  function Iniciar(w: World, io: Io): (r: World)
    ensures var w1 := Hydrate(w, io);
      w1.svc.status.estado in {Executando, Pausado} ==> r == w1
    ensures var w1 := Hydrate(w, io);
      w1.svc.status.estado !in {Executando, Pausado} ==>
        && r.svc.status.estado == Executando
        && r.svc.status.processados == 0 && r.svc.status.novos == 0 && r.svc.status.falhas == 0
        && r.svc.status.emProgresso == map[] && r.svc.status.lastError.None?
        && r.svc.pauseSignal == Some(true) && r.svc.taskActive
        && r.plans == w.plans && r.occs == w.occs
    ensures CounterInv(Hydrate(w, io).svc.status) ==> CounterInv(r.svc.status)
  {
    var w1 := Hydrate(w, io);
    var st := w1.svc.status;
    if st.estado in {Executando, Pausado} then w1
    else
      var novo := NewStatus().(
        estado := Executando, historico := st.historico, ultimaAtualizacao := st.ultimaAtualizacao);
      var w2 := Registrar(WithStatus(w1, novo), "", 0, "", MsgIniciado, io);
      w2.(svc := w2.svc.(pauseSignal := Some(true), taskActive := true))
  }

  /**
   * Starting keeps the earlier history: the start entry is appended to it
   * (cut to the window), as if recorded on the hydrated service.
   */
  lemma IniciarKeepsHistory(w: World, io: Io)
    requires Hydrate(w, io).svc.status.estado !in {Executando, Pausado}
    ensures Iniciar(w, io).svc.status.historico ==
      Registrar(Hydrate(w, io), "", 0, "", MsgIniciado, io).svc.status.historico
    ensures Iniciar(w, io).events == Registrar(Hydrate(w, io), "", 0, "", MsgIniciado, io).events
  {
  }

  /**
   * `pausar`: only an executing run reacts. If its task is already over
   * the estado becomes concluido and nothing else happens; otherwise the
   * estado becomes pausado, the pause signal is cleared and the pause is
   * recorded.
   */
  function Pausar(w: World, io: Io): (r: World)
    ensures w.svc.status.estado != Executando ==> r == w
    ensures w.svc.status.estado == Executando && !w.svc.taskActive ==>
      r == WithStatus(w, w.svc.status.(estado := Estado.Concluido))
    ensures w.svc.status.estado == Executando && w.svc.taskActive ==>
      && r.svc.status.estado == Pausado
      && r.svc.pauseSignal == (if w.svc.pauseSignal.Some? then Some(false) else None)
      && r.svc.taskActive
      && r.svc.status.(historico := w.svc.status.historico, ultimaAtualizacao := w.svc.status.ultimaAtualizacao)
         == w.svc.status.(estado := Pausado)
      && r.events == if io.saveOk then w.events + [ToStored(Entry("", 0, "", MsgPausado, io))] else w.events
    ensures r.plans == w.plans && r.occs == w.occs
    ensures CounterInv(w.svc.status) ==> CounterInv(r.svc.status)
  {
    var st := w.svc.status;
    if st.estado != Executando then w
    else if !w.svc.taskActive then WithStatus(w, st.(estado := Estado.Concluido))
    else
      var w1 := w.(svc := w.svc.(
        status := st.(estado := Pausado),
        pauseSignal := if w.svc.pauseSignal.Some? then Some(false) else None));
      Registrar(w1, "", 0, "", MsgPausado, io)
  }

  /**
   * `continuar`: only a paused run reacts. Without a pause signal there is
   * no run left and the estado becomes concluido; otherwise the estado
   * becomes executando, the signal is set and the resumption recorded.
   */
  function Continuar(w: World, io: Io): (r: World)
    ensures w.svc.status.estado != Pausado ==> r == w
    ensures w.svc.status.estado == Pausado && w.svc.pauseSignal.None? ==>
      r == WithStatus(w, w.svc.status.(estado := Estado.Concluido))
    ensures w.svc.status.estado == Pausado && w.svc.pauseSignal.Some? ==>
      && r.svc.status.estado == Executando
      && r.svc.pauseSignal == Some(true)
      && r.svc.taskActive == w.svc.taskActive
      && r.svc.status.(historico := w.svc.status.historico, ultimaAtualizacao := w.svc.status.ultimaAtualizacao)
         == w.svc.status.(estado := Executando)
      && r.events == if io.saveOk then w.events + [ToStored(Entry("", 0, "", MsgRetomado, io))] else w.events
    ensures r.plans == w.plans && r.occs == w.occs
    ensures CounterInv(w.svc.status) ==> CounterInv(r.svc.status)
  {
    var st := w.svc.status;
    if st.estado != Pausado then w
    else if w.svc.pauseSignal.None? then WithStatus(w, st.(estado := Estado.Concluido))
    else
      var w1 := w.(svc := w.svc.(status := st.(estado := Executando), pauseSignal := Some(true)));
      Registrar(w1, "", 0, "", MsgRetomado, io)
  }

  /** A live pause records "Processamento pausado." as the newest entry whenever the window holds anything. */
  lemma PausarRecords(w: World, io: Io)
    requires w.svc.status.estado == Executando && w.svc.taskActive && w.svc.historyLimit > 0
    ensures LastMessage(Pausar(w, io).svc.status.historico) == Some(MsgPausado)
  {
    var w1 := w.(svc := w.svc.(
      status := w.svc.status.(estado := Pausado),
      pauseSignal := if w.svc.pauseSignal.Some? then Some(false) else None));
    RegistrarWindow(w1, "", 0, "", MsgPausado, io);
  }

  /** A resumption with a pause signal records "Processamento retomado." as the newest entry whenever the window holds anything. */
  lemma ContinuarRecords(w: World, io: Io)
    requires w.svc.status.estado == Pausado && w.svc.pauseSignal.Some? && w.svc.historyLimit > 0
    ensures LastMessage(Continuar(w, io).svc.status.historico) == Some(MsgRetomado)
  {
    var w1 := w.(svc := w.svc.(status := w.svc.status.(estado := Executando), pauseSignal := Some(true)));
    RegistrarWindow(w1, "", 0, "", MsgRetomado, io);
  }

  /** Pausing a live run and continuing it returns to executando with the signal set and the counters untouched. */
  lemma PausarContinuar(w: World, a: Io, b: Io)
    requires w.svc.status.estado == Executando && w.svc.taskActive && w.svc.pauseSignal.Some?
    ensures var r := Continuar(Pausar(w, a), b);
      && r.svc.status.estado == Executando && r.svc.pauseSignal == Some(true) && r.svc.taskActive
      && r.svc.status.processados == w.svc.status.processados
      && r.svc.status.novos == w.svc.status.novos
      && r.svc.status.falhas == w.svc.status.falhas
      && r.svc.status.emProgresso == w.svc.status.emProgresso
  {
  }

  /** After a run has concluded, a pause request leaves it concluded and a new start is accepted. */
  lemma ConcludedThenRestart(w: World, a: Io, b: Io)
    requires w.svc.status.estado == Estado.Concluido
    ensures Pausar(w, a) == w
    ensures Continuar(w, a) == w
    ensures Hydrate(w, b).svc.status.estado == Estado.Concluido
    ensures Iniciar(w, b).svc.status.estado == Executando
  {
  }

  // ---------------------------------------------------------------- end of a run

  /** Some plan in flight has not reached the last stage (`progresso < 4`). */
  predicate PendingWork(em: map<string, PlanoProgresso>) {
    exists k :: k in em && em[k].progresso < 4
  }

  /** The message of the newest history entry, if any. */
  function LastMessage(h: seq<Evento>): (m: Option<string>)
    ensures m.Some? <==> h != []
    ensures h != [] ==> m.value == h[|h| - 1].mensagem
  {
    if h == [] then None else Some(h[|h| - 1].mensagem)
  }

  /** Whether the end of a run marks the capture concluded. */
  predicate MarksConcluded(st: CapturaStatus) {
    st.estado != Pausado || !PendingWork(st.emProgresso)
  }

  /**
   * The `finally` block of `_run`: mark the capture concluded unless it is
   * paused with work still pending, recording the conclusion unless it was
   * already concluded with that message last; then drop the pause signal
   * and the handle of the running coroutine.
   */
  function Finalizar(w: World, io: Io): (r: World)
    ensures r.svc.status.estado == if MarksConcluded(w.svc.status) then Estado.Concluido else w.svc.status.estado
    ensures r.svc.pauseSignal.None? && !r.svc.taskActive
    ensures r.svc.status.processados == w.svc.status.processados
    ensures r.svc.status.novos == w.svc.status.novos
    ensures r.svc.status.falhas == w.svc.status.falhas
    ensures r.svc.status.emProgresso == w.svc.status.emProgresso
    ensures r.plans == w.plans && r.occs == w.occs
    ensures !MarksConcluded(w.svc.status)
         || (w.svc.status.estado == Estado.Concluido && LastMessage(w.svc.status.historico) == Some(MsgConcluido))
      ==> r.svc.status.historico == w.svc.status.historico && r.events == w.events
  {
    var st := w.svc.status;
    var w1 :=
      if !MarksConcluded(st) then w
      else
        var w0 := WithStatus(w, st.(estado := Estado.Concluido));
        if st.estado == Estado.Concluido && LastMessage(st.historico) == Some(MsgConcluido) then w0
        else Registrar(w0, "", 4, "", MsgConcluido, io);
    w1.(svc := w1.svc.(pauseSignal := None, taskActive := false))
  }

  /** When the run is concluded and the window holds anything, the conclusion is the newest entry. */
  lemma FinalizarRecords(w: World, io: Io)
    requires MarksConcluded(w.svc.status) && w.svc.historyLimit > 0
    ensures LastMessage(Finalizar(w, io).svc.status.historico) == Some(MsgConcluido)
  {
    var st := w.svc.status;
    if !(st.estado == Estado.Concluido && LastMessage(st.historico) == Some(MsgConcluido)) {
      RegistrarWindow(WithStatus(w, st.(estado := Estado.Concluido)), "", 4, "", MsgConcluido, io);
    }
  }

  /** Finishing twice is finishing once: the second time adds no second conclusion entry. */
  lemma FinalizarTwice(w: World, a: Io, b: Io)
    requires MarksConcluded(w.svc.status) && w.svc.historyLimit > 0
    ensures Finalizar(Finalizar(w, a), b) == Finalizar(w, a)
  {
    FinalizarRecords(w, a);
    var r := Finalizar(w, a);
    assert WithStatus(r, r.svc.status.(estado := Estado.Concluido)) == r;
  }

  /**
   * The guard at the top of `_run`: without control signals the run cannot
   * proceed and the capture is marked concluded, with no history entry;
   * otherwise the run goes ahead from the world as it is.
   */
  function RunGuard(w: World): (r: World)
    ensures w.svc.pauseSignal.Some? ==> r == w
    ensures w.svc.pauseSignal.None? ==>
      r.svc.status == w.svc.status.(estado := Estado.Concluido) && r.events == w.events && r.svc.pauseSignal.None?
  {
    if w.svc.pauseSignal.None? then WithStatus(w, w.svc.status.(estado := Estado.Concluido)) else w
  }

  // ---------------------------------------------------------------- stage labels

  /** `min(max(p - 1, 0), n - 1)`: the progress value as a label index, clamped into range. */
  function EtapaIndex(p: int, n: nat): (i: nat)
    requires n >= 1
    ensures i < n
    ensures 1 <= p <= n ==> i == p - 1
    ensures p < 1 ==> i == 0
    ensures p > n ==> i == n - 1
  {
    var lo := if p - 1 > 0 then p - 1 else 0;
    if lo < n - 1 then lo else n - 1
  }

  /** `_obter_etapa`: the label of a plan in flight for a progress value, "" when it has no labels. */
  function ObterEtapa(em: map<string, PlanoProgresso>, numero: string, p: int): (r: string)
    ensures numero !in em || em[numero].etapas == [] ==> r == ""
    ensures numero in em && em[numero].etapas != [] ==>
      r == em[numero].etapas[EtapaIndex(p, |em[numero].etapas|)]
  {
    if numero in em && em[numero].etapas != [] then
      var etapas := em[numero].etapas;
      etapas[EtapaIndex(p, |etapas|)]
    else ""
  }

  /** With the default labels, progress 1 to 4 names the four capture stages and anything else clamps to an end. */
  lemma ObterEtapaDefault(em: map<string, PlanoProgresso>, numero: string, p: int)
    requires numero in em && em[numero].etapas == DefaultEtapas
    ensures p <= 1 ==> ObterEtapa(em, numero, p) == "Captura"
    ensures p == 2 ==> ObterEtapa(em, numero, p) == "Situação especial"
    ensures p == 3 ==> ObterEtapa(em, numero, p) == "Liquidação anterior"
    ensures p >= 4 ==> ObterEtapa(em, numero, p) == "GRDE"
  {
  }

  // ---------------------------------------------------------------- generated data

  /**
   * `_gerar_cnpj`: an 8-digit base, the head-office suffix `0001` and the
   * two check digits, printed through the CNPJ mask.
   */
  function GerarCnpj(base: seq<int>): (r: string)
    requires |base| == 8 && Cnpj.Digits(base)
    ensures Cnpj.IsMasked(r)
    ensures OnlyDigits(r) == Cnpj.DigitString(Cnpj.BuildDigits(base))
    ensures r[11..15] == "0001"
  {
    var c := Cnpj.BuildDigits(base);
    var s := Cnpj.DigitString(c);
    Cnpj.MaskShape(s);
    Cnpj.MaskDigits(s);
    assert s[8..12] == "0001" by {
      assert c[8..12] == Cnpj.HeadOffice;
      assert forall k :: 8 <= k < 12 ==> DigitValue(s[k]) == c[k];
    }
    Cnpj.Mask(s)
  }

  /** The digits of a generated number pass the Receita Federal check and start with the drawn base. */
  lemma GerarCnpjValid(base: seq<int>)
    requires |base| == 8 && Cnpj.Digits(base)
    ensures var c := Cnpj.BuildDigits(base);
      && Cnpj.ValidDigits(c) && c[..8] == base
      && OnlyDigits(GerarCnpj(base)) == Cnpj.DigitString(c)
  {
    Cnpj.BuildDigitsValid(base);
  }

  /** `_gerar_numero`: the year in four digits followed by the suffix in five. */
  function GerarNumero(ano: nat, sufixo: nat): (r: string)
    requires ano < 10000 && sufixo < 100000
    ensures |r| == 9 && AllDigits(r)
    ensures ParseNat(r[..4]) == ano && ParseNat(r[4..]) == sufixo
  {
    assert Pow10(4) == 10000 && Pow10(5) == 100000 by {
      assert Pow10(1) == 10 && Pow10(2) == 100 && Pow10(3) == 1000;
    }
    ZeroPadLength(ano, 4);
    ZeroPadLength(sufixo, 5);
    ParseZeroPad(ano, 4);
    ParseZeroPad(sufixo, 5);
    var r := ZeroPad(ano, 4) + ZeroPad(sufixo, 5);
    assert r[..4] == ZeroPad(ano, 4) && r[4..] == ZeroPad(sufixo, 5);
    r
  }

  // ---------------------------------------------------------------- one plan

  /** The situations a discarded plan may be reported with. */
  datatype Situacao = SitEspecial | Liquidado | Rescindido | GrdeEmitida {
    function Text(): string {
      match this
      case SitEspecial => "SIT ESPECIAL"
      case Liquidado => "LIQUIDADO"
      case Rescindido => "RESCINDIDO"
      case GrdeEmitida => "GRDE Emitida"
    }
  }

  /** Where the simulation of one plan ends, as decided by its random draws. */
  datatype Desfecho =
    | DescarteEspecial                           // discarded at stage 2
    | DescarteLiquidacao(rescindido: bool)       // discarded at stage 3, LIQUIDADO or RESCINDIDO
    | DescarteGrde                               // discarded before stage 4 is reached
    | DescarteFinal(sit: Situacao)               // discarded after stage 4
    | Capturado                                  // stored as a new plan
    | Falha(alcancado: Option<int>, erro: string) // an exception, with the progress reached if the plan was in flight

  /** The random draws of one plan: CNPJ base digits, balance, day, type, days late and the outcome. */
  datatype CapturaDraws = CapturaDraws(
    base: seq<int>, saldo: real, hoje: Day, tipo: string, diasEmAtraso: int, desfecho: Desfecho)

  predicate ValidDraws(d: CapturaDraws) {
    |d.base| == 8 && Cnpj.Digits(d.base)
  }

  predicate IsDescarte(o: Desfecho) {
    o.DescarteEspecial? || o.DescarteLiquidacao? || o.DescarteGrde? || o.DescarteFinal?
  }

  /** The situation a discard reports. */
  function SituacaoDescarte(o: Desfecho): (s: Situacao)
    requires IsDescarte(o)
  {
    match o
    case DescarteEspecial => SitEspecial
    case DescarteLiquidacao(resc) => if resc then Rescindido else Liquidado
    case DescarteGrde => GrdeEmitida
    case DescarteFinal(sit) => sit
  }

  /** The progress a plan that did not fail holds when its outcome is decided. */
  function ProgressoFinal(o: Desfecho): (p: int)
    requires !o.Falha?
  {
    match o
    case DescarteEspecial => 2
    case DescarteLiquidacao(_) => 3
    case DescarteGrde => 3
    case _ => 4
  }

  /** The progress written in the history entry of an outcome that did not fail. */
  function ProgressoRegistrado(o: Desfecho): (p: int)
    requires !o.Falha?
  {
    if o.DescarteGrde? then 4 else ProgressoFinal(o)
  }

  function MensagemDesfecho(o: Desfecho): (m: string)
    requires !o.Falha?
  {
    if o.Capturado? then "Capturado com sucesso" else "Descartado: " + SituacaoDescarte(o).Text()
  }

  const MsgFalha := "Falha inesperada"

  /** The columns a captured plan is stored with: a plan awaiting rescission. */
  function CapturedFields(d: CapturaDraws): (f: map<Column, Value>)
    ensures Status in f && f[Status] == Text(PlanStatusValue(PASSIVEL_RESC))
    ensures AllMapped(f)
  {
    map[
      Gifug := Text("MZ"),
      SituacaoAtual := Text("P. RESC"),
      SituacaoAnterior := Text("P. RESC"),
      DiasEmAtraso := Integer(d.diasEmAtraso),
      Tipo := Text(d.tipo),
      DtSituacaoAtual := Date(d.hoje),
      Saldo := Float(d.saldo),
      CmbAjuste := Text(""),
      Justificativa := Text(""),
      Matricula := Text(""),
      DtParcelaAtraso := Null,
      Representacao := Text(""),
      Status := Text(PlanStatusValue(PASSIVEL_RESC)),
      TipoParcelamento := Text(d.tipo),
      SaldoTotal := Float(d.saldo)]
  }

  /** Entering a plan in flight and removing it again leaves the rest of the map as it was. */
  lemma PutThenRemove(em: map<string, PlanoProgresso>, k: string, v: PlanoProgresso)
    ensures em[k := v] - {k} == em - {k}
  {
    assert forall x :: x in em[k := v] - {k} <==> x in em - {k};
  }

  /** The `finally` of `_processar_plano`: the plan leaves the in-flight map and the clock is stamped. */
  function Settle(w: World, numero: string, io: Io): World {
    WithStatus(w, w.svc.status.(
      emProgresso := w.svc.status.emProgresso - {numero}, ultimaAtualizacao := Some(io.now)))
  }

  /** The in-flight map as a failure finds it: the progress reached is noted when it is known. */
  function FalhaEm(em0: map<string, PlanoProgresso>, numero: string, alcancado: Option<int>)
    : (em: map<string, PlanoProgresso>)
    ensures em - {numero} == em0 - {numero}
    ensures alcancado.Some? ==>
      numero in em && em[numero].progresso == alcancado.value && em[numero].etapas == DefaultEtapas
  {
    if alcancado.Some? then
      var p := NewProgresso(numero).(progresso := alcancado.value);
      PutThenRemove(em0, numero, p);
      em0[numero := p]
    else em0
  }

  /** The progress a failure is recorded at, and the label of that stage (of stage 1 for progress 0). */
  function FalhaPonto(em: map<string, PlanoProgresso>, numero: string): (int, string) {
    var atual := if numero in em then em[numero].progresso else 0;
    (atual, ObterEtapa(em, numero, if atual == 0 then 1 else atual))
  }

  /**
   * The `except` path of `_processar_plano`: count a failure, keep the
   * error, and record it at the progress the plan had reached (its label
   * for progress 1 when it had none).
   */
  function Falhar(w: World, numero: string, alcancado: Option<int>, erro: string, io: Io): (r: World)
    ensures var st := w.svc.status; var rs := r.svc.status;
      && rs.novos == st.novos && rs.processados == st.processados && rs.falhas == st.falhas + 1
      && rs.emProgresso == st.emProgresso - {numero}
      && rs.estado == st.estado && rs.ultimaAtualizacao == Some(io.now) && rs.lastError == Some(erro)
    ensures r.plans == w.plans && r.occs == w.occs
  {
    var st := w.svc.status;
    var em := FalhaEm(st.emProgresso, numero, alcancado);
    var (atual, etapa) := FalhaPonto(em, numero);
    var w1 := WithStatus(w, st.(emProgresso := em, falhas := st.falhas + 1, lastError := Some(erro)));
    Settle(Registrar(w1, numero, atual, etapa, MsgFalha, io), numero, io)
  }

  /** A failure of a plan in flight is the newest history entry, at the progress reached and under its label. */
  lemma FalharRecords(w: World, numero: string, alcancado: Option<int>, erro: string, io: Io)
    requires w.svc.historyLimit > 0 && alcancado.Some?
    ensures var h := Falhar(w, numero, alcancado, erro, io).svc.status.historico; var p := alcancado.value;
      && h != []
      && h[|h| - 1] == Evento(numero, MsgFalha, p, DefaultEtapas[EtapaIndex(if p == 0 then 1 else p, 4)], io.now)
  {
    var st := w.svc.status;
    var em := FalhaEm(st.emProgresso, numero, alcancado);
    var (atual, etapa) := FalhaPonto(em, numero);
    assert |DefaultEtapas| == 4;
    var w1 := WithStatus(w, st.(emProgresso := em, falhas := st.falhas + 1, lastError := Some(erro)));
    RegistrarWindow(w1, numero, atual, etapa, MsgFalha, io);
  }

  /** The success path: upsert the plan as awaiting rescission, count it as new and processed, record it. */
  function Capturar(w: World, numero: string, d: CapturaDraws, io: Io): (r: World)
    requires ValidPlans(w.plans)
    ensures var st := w.svc.status; var rs := r.svc.status;
      && rs.novos == st.novos + 1 && rs.processados == st.processados + 1 && rs.falhas == st.falhas
      && rs.emProgresso == st.emProgresso - {numero}
      && rs.estado == st.estado && rs.ultimaAtualizacao == Some(io.now) && rs.lastError == st.lastError
    ensures ValidPlans(r.plans) && r.occs == w.occs
    ensures r.plans == Upsert(w.plans, numero, CapturedFields(d), {}).value.0
    ensures w.svc.historyLimit > 0 ==>
      var h := r.svc.status.historico;
      h != [] && h[|h| - 1] == Evento(numero, MensagemDesfecho(Capturado), 4, DefaultEtapas[3], io.now)
  {
    var st := w.svc.status;
    var em := st.emProgresso[numero := NewProgresso(numero).(progresso := 4)];
    PutThenRemove(st.emProgresso, numero, NewProgresso(numero).(progresso := 4));
    var stored := Upsert(w.plans, numero, CapturedFields(d), {}).value;
    var w1 := WithStatus(w.(plans := stored.0),
      st.(emProgresso := em, novos := st.novos + 1, processados := st.processados + 1));
    ObterEtapaDefault(em, numero, 4);
    RegistrarWindow(w1, numero, 4, ObterEtapa(em, numero, 4), MensagemDesfecho(Capturado), io);
    Settle(Registrar(w1, numero, 4, ObterEtapa(em, numero, 4), MensagemDesfecho(Capturado), io), numero, io)
  }

  /** A discard path: store a discarded-plan row, count a failure and a processed plan, record the situation. */
  function Descartar(w: World, numero: string, d: CapturaDraws, io: Io): (r: World)
    requires IsDescarte(d.desfecho) && ValidOccurrences(w.occs) && ValidDraws(d)
    ensures var st := w.svc.status; var rs := r.svc.status;
      && rs.novos == st.novos && rs.processados == st.processados + 1 && rs.falhas == st.falhas + 1
      && rs.emProgresso == st.emProgresso - {numero}
      && rs.estado == st.estado && rs.ultimaAtualizacao == Some(io.now) && rs.lastError == st.lastError
    ensures r.plans == w.plans
    ensures r.occs == AddOccurrence(w.occs, numero, SituacaoDescarte(d.desfecho).Text(), GerarCnpj(d.base),
      Some(d.tipo), Some(d.saldo), Some(d.hoje), io.now).0
    ensures w.svc.historyLimit > 0 ==>
      var h := r.svc.status.historico; var p := ProgressoRegistrado(d.desfecho);
      h != [] && h[|h| - 1] == Evento(numero, MensagemDesfecho(d.desfecho), p, DefaultEtapas[p - 1], io.now)
  {
    var st := w.svc.status;
    var o := d.desfecho;
    var em := st.emProgresso[numero := NewProgresso(numero).(progresso := ProgressoFinal(o))];
    PutThenRemove(st.emProgresso, numero, NewProgresso(numero).(progresso := ProgressoFinal(o)));
    var added := AddOccurrence(w.occs, numero, SituacaoDescarte(o).Text(), GerarCnpj(d.base),
      Some(d.tipo), Some(d.saldo), Some(d.hoje), io.now);
    var w1 := WithStatus(w.(occs := added.0),
      st.(emProgresso := em, falhas := st.falhas + 1, processados := st.processados + 1));
    var p := ProgressoRegistrado(o);
    ObterEtapaDefault(em, numero, p);
    RegistrarWindow(w1, numero, p, ObterEtapa(em, numero, p), MensagemDesfecho(o), io);
    Settle(Registrar(w1, numero, p, ObterEtapa(em, numero, p), MensagemDesfecho(o), io), numero, io)
  }

  /**
   * `_processar_plano`, with its sleeps and pause waits removed: walk the
   * plan to its drawn outcome. A discard adds one to `falhas` and to
   * `processados`, a capture one to `novos` and to `processados`, an
   * exception one to `falhas` only; the plan always leaves the in-flight
   * map.
   */
  function ProcessarPlano(w: World, numero: string, d: CapturaDraws, io: Io): (r: World)
    requires ValidPlans(w.plans) && ValidOccurrences(w.occs) && ValidDraws(d)
    ensures var o := d.desfecho; var st := w.svc.status; var rs := r.svc.status;
      && rs.novos == st.novos + (if o.Capturado? then 1 else 0)
      && rs.processados == st.processados + (if o.Falha? then 0 else 1)
      && rs.falhas == st.falhas + (if o.Capturado? then 0 else 1)
      && rs.emProgresso == st.emProgresso - {numero}
      && numero !in rs.emProgresso
      && rs.estado == st.estado
    ensures ValidPlans(r.plans) && ValidOccurrences(r.occs)
  {
    match d.desfecho
    case Falha(alcancado, erro) => Falhar(w, numero, alcancado, erro, io)
    case Capturado => Capturar(w, numero, d, io)
    case _ => Descartar(w, numero, d, io)
  }

  /** Every per-plan run keeps `novos <= processados <= novos + falhas`. */
  lemma ProcessarKeepsCounters(w: World, numero: string, d: CapturaDraws, io: Io)
    requires ValidPlans(w.plans) && ValidOccurrences(w.occs) && ValidDraws(d)
    requires CounterInv(w.svc.status)
    ensures CounterInv(ProcessarPlano(w, numero, d, io).svc.status)
  {
  }

  /** A captured plan is stored under its number with the status that the treatment migration queues. */
  lemma CapturedPlanStored(w: World, numero: string, d: CapturaDraws, io: Io)
    requires ValidPlans(w.plans) && ValidOccurrences(w.occs) && ValidDraws(d) && d.desfecho.Capturado?
    ensures var r := ProcessarPlano(w, numero, d, io);
      && FindPlan(r.plans, numero).Some?
      && r.plans[FindPlan(r.plans, numero).value].Get(Status) == Text(PlanStatusValue(PASSIVEL_RESC))
      && r.occs == w.occs
  {
    var fields := CapturedFields(d);
    var up := Upsert(w.plans, numero, fields, {}).value;
    UpsertStoresFields(w.plans, numero, fields, {});
    assert Status in MappedPart(fields);
    assert up.1.Get(Status) == fields[Status];
  }

  /** A discard stores one discarded-plan row with the plan's number, the situation and the generated CNPJ. */
  lemma DiscardStored(w: World, numero: string, d: CapturaDraws, io: Io)
    requires ValidPlans(w.plans) && ValidOccurrences(w.occs) && ValidDraws(d) && IsDescarte(d.desfecho)
    ensures var r := ProcessarPlano(w, numero, d, io); var row := r.occs[|r.occs| - 1];
      && r.occs == w.occs + [row] && r.plans == w.plans
      && row.id == |w.occs| + 1 && row.numeroPlano == numero
      && row.situacao == SituacaoDescarte(d.desfecho).Text()
      && Cnpj.IsMasked(row.cnpj) && row.cnpj == GerarCnpj(d.base)
      && row.tipo == Some(d.tipo) && row.saldo == Some(d.saldo) && row.dtSituacaoAtual == Some(d.hoje)
  {
    var r := Descartar(w, numero, d, io);
    assert ProcessarPlano(w, numero, d, io) == r;
    var a := AddOccurrence(w.occs, numero, SituacaoDescarte(d.desfecho).Text(), GerarCnpj(d.base),
      Some(d.tipo), Some(d.saldo), Some(d.hoje), io.now);
    assert r.occs == w.occs + [a.1];
    assert r.occs[|r.occs| - 1] == a.1;
  }

  /** An exception writes no table row and keeps the error for the status report. */
  lemma FailureStoresNothing(w: World, numero: string, d: CapturaDraws, io: Io)
    requires ValidPlans(w.plans) && ValidOccurrences(w.occs) && ValidDraws(d) && d.desfecho.Falha?
    ensures var r := ProcessarPlano(w, numero, d, io);
      r.plans == w.plans && r.occs == w.occs && r.svc.status.lastError == Some(d.desfecho.erro)
  {
  }

  /**
   * The newest history entry of a plan that did not fail names the plan,
   * the outcome's message, the progress it is recorded at and the label of
   * that stage.
   */
  lemma ProcessarRecords(w: World, numero: string, d: CapturaDraws, io: Io)
    requires ValidPlans(w.plans) && ValidOccurrences(w.occs) && ValidDraws(d)
    requires !d.desfecho.Falha? && w.svc.historyLimit > 0
    ensures var h := ProcessarPlano(w, numero, d, io).svc.status.historico;
      var p := ProgressoRegistrado(d.desfecho);
      && h != []
      && h[|h| - 1] == Evento(numero, MensagemDesfecho(d.desfecho), p, DefaultEtapas[p - 1], io.now)
  {
  }

  /**
   * A failure of a plan in flight is recorded at the progress it reached,
   * under the label of that progress (of the first stage for progress 0).
   */
  lemma FailureRecords(w: World, numero: string, d: CapturaDraws, io: Io)
    requires ValidPlans(w.plans) && ValidOccurrences(w.occs) && ValidDraws(d)
    requires d.desfecho.Falha? && d.desfecho.alcancado.Some? && w.svc.historyLimit > 0
    ensures var h := ProcessarPlano(w, numero, d, io).svc.status.historico;
      var p := d.desfecho.alcancado.value;
      && h != []
      && h[|h| - 1] == Evento(numero, MsgFalha, p, DefaultEtapas[EtapaIndex(if p == 0 then 1 else p, 4)], io.now)
  {
    FalharRecords(w, numero, d.desfecho.alcancado, d.desfecho.erro, io);
  }
}
