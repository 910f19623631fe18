/**
 * The FastAPI handlers of the refactored single-session backend: upload through the
 * zero-padding parser, the status figures, and worker start and stop on the one orchestrator.
 */
module RefactoredApi {
  import opened Wrappers
  import opened Text
  import opened Seqs
  import opened Http
  import opened PyStore
  import PyApi
  import ExcelService
  import ExcelServiceApp
  import RefactoredStatus
  import Sessions

  /** The four accepted file name endings. */
  predicate SupportedUpload(name: string)
  {
    EndsWith(name, ".xlsx") || EndsWith(name, ".xls") || EndsWith(name, ".csv") || EndsWith(name, ".txt")
  }

  datatype UploadResponse = UploadResponse(message: string, loteId: nat, total: nat)

  /**
   * The error `upload_file` answers for a file with no accepted entry. The 400 raised inside
   * the `try` is caught by the generic handler, which answers 500 with the text of the
   * exception: its status, a colon and its detail.
   */
  const EmptyUploadError: HttpError := HttpError(InternalError, "400: No se encontraron DNIs válidos")

  /**
   * `upload_file`: an unsupported name is refused with 400; a parse failure and an empty
   * result both come back as 500; otherwise one batch of the parsed entries is created.
   */
  method UploadFile(store: Store, filename: string, sheet: Result<ExcelService.Sheet, string>,
                    lines: Result<seq<string>, string>, now: int)
    returns (r: Result<UploadResponse, HttpError>)
    requires store.Valid()
    modifies store
    ensures store.Valid()
    ensures !SupportedUpload(filename) ==> r == Failure(HttpError(BadRequest, "Formato no soportado")) && unchanged(store)
    ensures SupportedUpload(filename) ==>
      var es := ExcelServiceApp.Entries(filename, sheet, lines);
      && (es.Failure? ==> r == Failure(HttpError(InternalError, "Error parseando archivo: " + es.error)) && unchanged(store))
      && (es.Success? && ExcelServiceApp.PaddedAccepted(es.value) == [] ==> r == Failure(EmptyUploadError) && unchanged(store))
      && (es.Success? && ExcelServiceApp.PaddedAccepted(es.value) != [] ==>
            var dnis := Dedup(ExcelServiceApp.PaddedAccepted(es.value));
            var id := NextLoteId(old(store.lotes));
            && store.lotes == old(store.lotes) + [Lote(id, filename, |dnis|, now)]
            && store.registros == old(store.registros) + NuevosRegistros(id, dnis, NextRegistroId(old(store.registros)), now)
            && r == Success(UploadResponse("Archivo procesado", id, |dnis|)))
  {
    if !SupportedUpload(filename) {
      return Failure(HttpError(BadRequest, "Formato no soportado"));
    }
    var parsed := ExcelServiceApp.ParseUploadedFile(filename, sheet, lines);
    if parsed.Failure? {
      return Failure(HttpError(InternalError, parsed.error));
    }
    var cleaned := parsed.value;
    if cleaned == [] {
      return Failure(EmptyUploadError);
    }
    ExcelServiceApp.OutputsAreDnis(ExcelServiceApp.Entries(filename, sheet, lines).value);
    PyApi.UniqueOfDigits(cleaned);
    var lote := store.CrearLote(filename, cleaned, now);
    r := Success(UploadResponse("Archivo procesado", lote.id, lote.totalDnis));
  }

  /** `get_status`: the refactored figures, with both `running` flags read from the orchestrator. */
  function GetStatus(store: Store, orch: Sessions.Orch): (r: RefactoredStatus.Status)
    reads store
    ensures r == RefactoredStatus.StatusOf(store.registros, orch.running)
    ensures r.workers.sunedu == r.workers.minedu == orch.running
  {
    RefactoredStatus.StatusOf(store.registros, orch.running)
  }

  /**
   * `start_workers`: a running orchestrator is only resumed, otherwise both loops are started;
   * either way the workers end up running and unpaused.
   */
  function StartWorkers(orch: Sessions.Orch): (r: (Sessions.Orch, string))
    ensures r.0.running && !r.0.paused
    ensures orch.running ==> r == (orch.(paused := false), "Workers reanudados")
    ensures !orch.running ==> r.1 == "Workers iniciados"
  {
    if orch.running then (Sessions.Resumed(orch), "Workers reanudados")
    else (Sessions.Started(orch), "Workers iniciados")
  }

  /** `stop_workers`: the orchestrator always ends stopped and unpaused. */
  function StopWorkers(orch: Sessions.Orch): (r: (Sessions.Orch, string))
    ensures !r.0.running && !r.0.paused && r.1 == "Workers detenidos"
  {
    (Sessions.Stopped(orch), "Workers detenidos")
  }

  /** Stopping after starting gives the state of a fresh orchestrator, whatever came before. */
  lemma StartThenStop(orch: Sessions.Orch)
    ensures StopWorkers(StartWorkers(orch).0).0 == Sessions.FreshOrch
    ensures StartWorkers(StartWorkers(orch).0) == (StartWorkers(orch).0, "Workers reanudados")
  {
  }

  /** `limpiar_db`: a purge, with the workers left as they are. */
  method LimpiarDb(store: Store) returns (message: string, registros: nat, lotes: nat)
    modifies store
    ensures store.Valid() && store.registros == [] && store.lotes == []
    ensures registros == |old(store.registros)| && lotes == |old(store.lotes)|
    ensures message == "Base de datos limpia"
  {
    registros, lotes := store.LimpiarTodo();
    message := "Base de datos limpia";
  }
}
