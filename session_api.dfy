/**
 * The FastAPI handlers of the session-scoped backend. Each request names its session in the
 * `X-Session-ID` header; the session's records are one `Store`, and the worker capacity is
 * shared through the `SessionManager`.
 */
module SessionApi {
  import opened Wrappers
  import opened Text
  import opened Seqs
  import opened Http
  import opened Estado
  import opened PyStore
  import PyApi
  import ExcelService
  import RefactoredStatus
  import opened Sessions

  /** `get_session_id`: a header of at least eight characters names the session, which is touched. */
  method SessionId(manager: SessionManager, header: Option<string>, now: int) returns (r: Result<string, HttpError>)
    requires manager.Valid()
    modifies manager
    ensures manager.Valid()
    ensures header.None? || |header.value| < 8 ==>
      r == Failure(HttpError(BadRequest, "Header X-Session-ID es requerido. Cada navegador debe enviar un UUID único."))
      && unchanged(manager)
    ensures header.Some? && |header.value| >= 8 ==>
      r == Success(header.value)
      && manager.sessions == Touched(old(manager.sessions), header.value, now)
      && manager.totalWorkers == old(manager.totalWorkers)
  {
    if header.None? || |header.value| < 8 {
      return Failure(HttpError(BadRequest, "Header X-Session-ID es requerido. Cada navegador debe enviar un UUID único."));
    }
    manager.Touch(header.value, now);
    r := Success(header.value);
  }

  predicate SupportedUpload(name: string)
  {
    EndsWith(name, ".xlsx") || EndsWith(name, ".xls") || EndsWith(name, ".csv") || EndsWith(name, ".txt")
  }

  datatype UploadResponse = UploadResponse(
    message: string, loteId: Option<nat>, totalDnis: nat, invalidDnis: seq<string>, totalInvalid: nat)

  /**
   * `upload_file`: an unsupported name is 400 and a parse failure 500; a file with neither valid
   * nor invalid entries is 400; a batch is created only when there are valid entries, and the
   * invalid ones are reported verbatim.
   */
  method UploadFile(store: Store, filename: string, sheet: Result<ExcelService.Sheet, string>,
                    lines: Result<seq<string>, string>, now: int)
    returns (r: Result<UploadResponse, HttpError>)
    requires store.Valid()
    modifies store
    ensures store.Valid()
    ensures !SupportedUpload(filename) ==> r == Failure(HttpError(BadRequest, "Formato no soportado")) && unchanged(store)
    ensures SupportedUpload(filename) ==>
      var raw := ExcelService.RawEntries(filename, sheet, lines);
      && (raw.Failure? ==> r == Failure(HttpError(InternalError, raw.error)) && unchanged(store))
      && (raw.Success? ==>
            var valid := ExcelService.Valid(raw.value);
            var invalid := ExcelService.Invalid(raw.value);
            && (valid == [] && invalid == [] ==>
                  r == Failure(HttpError(BadRequest, "No se encontraron DNIs en el archivo")) && unchanged(store))
            && (valid == [] && invalid != [] ==>
                  r == Success(UploadResponse("Archivo procesado", None, 0, invalid, |invalid|)) && unchanged(store))
            && (valid != [] ==>
                  var id := NextLoteId(old(store.lotes));
                  && store.lotes == old(store.lotes) + [Lote(id, filename, |valid|, now)]
                  && store.registros == old(store.registros) + NuevosRegistros(id, valid, NextRegistroId(old(store.registros)), now)
                  && r == Success(UploadResponse("Archivo procesado", Some(id), |valid|, invalid, |invalid|))))
  {
    if !SupportedUpload(filename) {
      return Failure(HttpError(BadRequest, "Formato no soportado"));
    }
    var parsed := ExcelService.ParseUploadedFile(filename, sheet, lines);
    if parsed.Failure? {
      return Failure(HttpError(InternalError, parsed.error));
    }
    var valid := parsed.value.valid;
    var invalid := parsed.value.invalid;
    if valid == [] && invalid == [] {
      return Failure(HttpError(BadRequest, "No se encontraron DNIs en el archivo"));
    }
    var lote: Option<nat> := None;
    if valid != [] {
      ValidStoredAsIs(ExcelService.RawEntries(filename, sheet, lines).value);
      var l := store.CrearLote(filename, valid, now);
      lote := Some(l.id);
    }
    r := Success(UploadResponse("Archivo procesado", lote, |valid|, invalid, |invalid|));
  }

  /** The valid list is already stripped and distinct, so the batch holds exactly that list. */
  lemma ValidStoredAsIs(raw: seq<string>)
    ensures UniqueDnis(ExcelService.Valid(raw)) == ExcelService.Valid(raw)
  {
    var valid := ExcelService.Valid(raw);
    ExcelService.Partition(raw);
    forall k | 0 <= k < |valid| ensures PyIsDigit(valid[k]) {
      assert ExcelService.IsDni(valid[k]);
    }
    PyApi.UniqueOfDigits(valid);
    DedupOfNoDup(valid);
  }

  /** `get_status`: the refactored figures, with both `running` flags from the session. */
  function GetStatus(store: Store, manager: SessionManager, sid: string): (r: RefactoredStatus.Status)
    reads store, manager
    ensures r == RefactoredStatus.StatusOf(store.registros, manager.SessionHasRunningWorkers(sid))
    ensures r.workers.sunedu == r.workers.minedu == (sid in manager.sessions && Running(manager.sessions[sid]))
  {
    RefactoredStatus.StatusOf(store.registros, manager.SessionHasRunningWorkers(sid))
  }

  datatype StartResponse = StartResponse(message: string, recovered: nat)

  /** The 503 detail, with the counts `get_stats` reports. */
  function CapacityMessage(total: nat): string
  {
    "Capacidad del servidor alcanzada (" + NatToString(total) + "/" + NatToString(MaxGlobalWorkers)
      + " workers activos). Intente más tarde."
  }

  /**
   * `start_workers`: stuck records are recovered first. A session whose workers run is only
   * resumed; without room for two more workers the answer is 503 and the manager is left
   * alone; otherwise a new orchestrator is started and two workers are registered.
   */
  method StartWorkers(manager: SessionManager, store: Store, sid: string, now: int)
    returns (r: Result<StartResponse, HttpError>)
    requires manager.Valid() && store.Valid()
    modifies manager, store
    ensures manager.Valid() && store.Valid()
    ensures store.registros == RecuperarTodos(old(store.registros), now) && store.lotes == old(store.lotes)
    ensures var recovered := CountIn(old(store.registros), Procesando);
      && (old(manager.SessionHasRunningWorkers(sid)) ==>
            && manager.sessions == old(manager.sessions)[sid := old(manager.sessions)[sid].(orchestrator := Some(Resumed(old(manager.sessions)[sid].orchestrator.value)))]
            && manager.totalWorkers == old(manager.totalWorkers)
            && r == Success(StartResponse("Workers reanudados", recovered)))
      && (!old(manager.SessionHasRunningWorkers(sid)) && !old(manager.CanStartWorkers(2)) ==>
            && manager.sessions == old(manager.sessions) && manager.totalWorkers == old(manager.totalWorkers)
            && r == Failure(HttpError(Unavailable, CapacityMessage(old(manager.totalWorkers)))))
      && (!old(manager.SessionHasRunningWorkers(sid)) && old(manager.CanStartWorkers(2)) ==>
            && sid in manager.sessions && manager.sessions[sid].workerCount == 2
            && manager.sessions[sid].orchestrator == Some(Orch(true, false))
            && manager.totalWorkers == old(manager.totalWorkers) + 2
            && (forall other :: other != sid ==> (other in manager.sessions <==> other in old(manager.sessions)))
            && (forall other :: other != sid && other in manager.sessions ==> manager.sessions[other] == old(manager.sessions)[other])
            && r == Success(StartResponse("Workers iniciados", recovered)))
    ensures old(manager.Consistent()) ==> manager.Consistent()
    ensures old(manager.WithinCapacity()) ==> manager.WithinCapacity()
  {
    var s, m := store.RecuperarProcesando(now);
    CountProcesando(old(store.registros));
    var recovered := s + m;
    if manager.SessionHasRunningWorkers(sid) {
      var o := manager.GetOrchestrator(sid);
      manager.SetOrchestrator(sid, Some(Resumed(o.value)), now);
      return Success(StartResponse("Workers reanudados", recovered));
    }
    if !manager.CanStartWorkers(2) {
      var stats := manager.GetStats();
      return Failure(HttpError(Unavailable, CapacityMessage(stats.totalWorkers)));
    }
    manager.SetOrchestrator(sid, Some(Started(FreshOrch)), now);
    manager.RegisterWorkers(sid, 2);
    r := Success(StartResponse("Workers iniciados", recovered));
  }

  /** `stop_workers`: only a session with an orchestrator is stopped and has its workers released. */
  method StopWorkers(manager: SessionManager, sid: string, now: int) returns (message: string)
    requires manager.Valid()
    modifies manager
    ensures manager.Valid()
    ensures message == "Workers detenidos"
    ensures old(manager.GetOrchestrator(sid)).None? ==> unchanged(manager)
    ensures old(manager.GetOrchestrator(sid)).Some? ==>
      (manager.sessions, manager.totalWorkers)
        == Unregistered(old(manager.sessions)[sid := old(manager.sessions)[sid].(orchestrator := Some(FreshOrch))],
                        old(manager.totalWorkers), sid)
    ensures !manager.SessionHasRunningWorkers(sid)
    ensures old(manager.Consistent()) ==> manager.Consistent()
    ensures manager.totalWorkers <= old(manager.totalWorkers)
  {
    var o := manager.GetOrchestrator(sid);
    if o.Some? {
      manager.SetOrchestrator(sid, Some(Stopped(o.value)), now);
      manager.UnregisterWorkers(sid);
    }
    message := "Workers detenidos";
  }

  /**
   * `limpiar_db`: a running orchestrator is stopped and its workers released, then the
   * session's records and batches are purged.
   */
  method LimpiarDb(manager: SessionManager, store: Store, sid: string, now: int)
    returns (message: string, registros: nat, lotes: nat)
    requires manager.Valid()
    modifies manager, store
    ensures manager.Valid() && store.Valid()
    ensures store.registros == [] && store.lotes == []
    ensures registros == |old(store.registros)| && lotes == |old(store.lotes)|
    ensures !old(manager.SessionHasRunningWorkers(sid)) ==>
      manager.sessions == old(manager.sessions) && manager.totalWorkers == old(manager.totalWorkers)
    ensures old(manager.SessionHasRunningWorkers(sid)) ==>
      (manager.sessions, manager.totalWorkers)
        == Unregistered(old(manager.sessions)[sid := old(manager.sessions)[sid].(orchestrator := Some(FreshOrch))],
                        old(manager.totalWorkers), sid)
    ensures !manager.SessionHasRunningWorkers(sid)
    ensures old(manager.Consistent()) ==> manager.Consistent()
    ensures message == "Base de datos limpia"
  {
    var o := manager.GetOrchestrator(sid);
    if o.Some? && o.value.running {
      manager.SetOrchestrator(sid, Some(Stopped(o.value)), now);
      manager.UnregisterWorkers(sid);
    }
    registros, lotes := store.LimpiarTodo();
    message := "Base de datos limpia";
  }

  /**
   * Under the handlers, a session's workers are counted only while its orchestrator runs, so
   * the sessions `cleanup_idle_sessions` removes hold no workers and the global count loses
   * nothing by their removal.
   */
  lemma CleanupDropsNoWorkers(ss: Table, now: int, sid: string)
    requires forall s :: s in ss && ss[s].workerCount > 0 ==> Running(ss[s])
    requires sid in IdleSessions(ss, now)
    ensures ss[sid].workerCount <= 0
  {
  }
}
