/**
 * The FastAPI handlers of the single-database web application: the upload filter, the status
 * aggregation, the retry guard, worker start with recovery first, and the purge. The worker
 * threads are reduced to the call the handler makes on the orchestrator.
 */
module PyApi {
  import opened Wrappers
  import opened Text
  import opened Seqs
  import opened Estado
  import opened Http
  import opened PyStore

  // ---- upload -------------------------------------------------------------------------

  /** The header names accepted as the DNI column, after strip and upper-casing. */
  const DniColumnNames: set<string> := {"DNI", "DOCUMENTO", "NRO_DOCUMENTO", "NUM_DOC"}

  predicate IsDniColumn(name: string)
  {
    Upper(Strip(name)) in DniColumnNames
  }

  /** The first column whose header names the DNI column. */
  function FindDniColumn(columns: seq<string>): (r: Option<nat>)
    ensures r.None? <==> forall k :: 0 <= k < |columns| ==> !IsDniColumn(columns[k])
    ensures r.Some? ==> r.value < |columns| && IsDniColumn(columns[r.value])
    ensures r.Some? ==> forall k :: 0 <= k < r.value ==> !IsDniColumn(columns[k])
  {
    var marks := seq(|columns|, k requires 0 <= k < |columns| => IsDniColumn(columns[k]));
    assert forall k :: 0 <= k < |columns| ==> marks[k] == IsDniColumn(columns[k]);
    FirstTrue(marks)
  }

  /** A spreadsheet read with every cell as text; a missing cell is None. */
  datatype Frame = Frame(columns: seq<string>, cells: seq<seq<Option<string>>>)

  /** `dropna().astype(str).str.strip()` followed by the digit and length filter, in column order. */
  function AcceptedCells(cells: seq<Option<string>>): (r: seq<string>)
    ensures |r| <= |cells|
    ensures forall k :: 0 <= k < |r| ==> PyIsDigit(r[k]) && |r[k]| >= 7
  {
    if cells == [] then []
    else
      var init := AcceptedCells(cells[..|cells| - 1]);
      var c := cells[|cells| - 1];
      if c.Some? && PyIsDigit(Strip(c.value)) && |Strip(c.value)| >= 7 then init + [Strip(c.value)] else init
  }

  /** The name the batch is stored under: `file.filename or "archivo"`. */
  function UploadName(filename: Option<string>): (r: string)
    ensures r != ""
  {
    if filename.Some? && filename.value != "" then filename.value else "archivo"
  }

  predicate SupportedUpload(name: string)
  {
    EndsWith(name, ".xlsx") || EndsWith(name, ".xls") || EndsWith(name, ".csv")
  }

  datatype UploadResponse = UploadResponse(loteId: nat, nombreArchivo: string, totalDnis: nat, mensaje: string)

  function Joined(parts: seq<string>, sep: string): string
  {
    if parts == [] then "" else if |parts| == 1 then parts[0] else parts[0] + sep + Joined(parts[1..], sep)
  }

  /**
   * The checks `upload_file` makes before it creates a batch, in order: the file type, the read,
   * the DNI column, and at least one accepted entry. Success carries the accepted entries.
   */
  function UploadFilter(name: string, read: Result<Frame, string>): (r: Result<seq<string>, HttpError>)
    ensures !SupportedUpload(name) ==> r == Failure(HttpError(BadRequest, "Formato no soportado. Use .xlsx, .xls o .csv"))
    ensures SupportedUpload(name) && read.Failure? ==> r == Failure(HttpError(BadRequest, "Error leyendo archivo: " + read.error))
    ensures r.Failure? ==> r.error.status == BadRequest
    ensures r.Success? ==>
      && read.Success? && r.value != []
      && var c := FindDniColumn(read.value.columns);
         c.Some? && c.value < |read.value.cells| && r.value == AcceptedCells(read.value.cells[c.value])
  {
    if !SupportedUpload(name) then Failure(HttpError(BadRequest, "Formato no soportado. Use .xlsx, .xls o .csv"))
    else if read.Failure? then Failure(HttpError(BadRequest, "Error leyendo archivo: " + read.error))
    else
      var frame := read.value;
      var col := FindDniColumn(frame.columns);
      if col.None? || col.value >= |frame.cells| then
        Failure(HttpError(BadRequest, "No se encontró columna 'DNI' o 'DOCUMENTO'. Columnas encontradas: " + Joined(frame.columns, ", ")))
      else
        var dnis := AcceptedCells(frame.cells[col.value]);
        if dnis == [] then Failure(HttpError(BadRequest, "No se encontraron DNIs válidos en el archivo"))
        else Success(dnis)
  }

  /** `upload_file`: a failed check creates no batch; otherwise one batch of the accepted entries. */
  method UploadFile(store: Store, filename: Option<string>, read: Result<Frame, string>, now: int)
    returns (r: Result<UploadResponse, HttpError>)
    requires store.Valid()
    modifies store
    ensures store.Valid()
    ensures UploadFilter(UploadName(filename), read).Failure? ==>
      r == Failure(UploadFilter(UploadName(filename), read).error) && unchanged(store)
    ensures UploadFilter(UploadName(filename), read).Success? ==>
      var dnis := UploadFilter(UploadName(filename), read).value;
      && store.lotes == old(store.lotes) + [Lote(NextLoteId(old(store.lotes)), UploadName(filename), |UniqueDnis(dnis)|, now)]
      && store.registros == old(store.registros) + NuevosRegistros(NextLoteId(old(store.lotes)), UniqueDnis(dnis), NextRegistroId(old(store.registros)), now)
      && r == Success(UploadResponse(NextLoteId(old(store.lotes)), UploadName(filename), |UniqueDnis(dnis)|,
                                     "Se cargaron " + NatToString(|UniqueDnis(dnis)|) + " DNIs correctamente"))
  {
    var name := UploadName(filename);
    var f := UploadFilter(name, read);
    if f.Failure? {
      return Failure(f.error);
    }
    var lote := store.CrearLote(name, f.value, now);
    r := Success(UploadResponse(lote.id, name, lote.totalDnis, "Se cargaron " + NatToString(lote.totalDnis) + " DNIs correctamente"));
  }

  /** Every accepted entry is already stripped, so the batch holds exactly the distinct accepted entries. */
  lemma UploadKeepsAccepted(cells: seq<Option<string>>)
    ensures forall d :: d in UniqueDnis(AcceptedCells(cells)) <==> d in AcceptedCells(cells)
    ensures |UniqueDnis(AcceptedCells(cells))| <= |AcceptedCells(cells)|
  {
    var acc := AcceptedCells(cells);
    forall k | 0 <= k < |acc| ensures Strip(acc[k]) == acc[k] {
      DigitsAreStripped(acc[k]);
    }
    assert StrippedNonEmpty(acc) == acc by {
      StrippedNonEmptyOfStripped(acc);
    }
  }

  /** Entries made of digits only reach the store unchanged, de-duplicated and nothing else. */
  lemma UniqueOfDigits(dnis: seq<string>)
    requires forall k :: 0 <= k < |dnis| ==> PyIsDigit(dnis[k])
    ensures UniqueDnis(dnis) == Dedup(dnis)
  {
    forall k | 0 <= k < |dnis| ensures Strip(dnis[k]) == dnis[k] && dnis[k] != "" {
      DigitsAreStripped(dnis[k]);
    }
    StrippedNonEmptyOfStripped(dnis);
  }

  lemma StrippedNonEmptyOfStripped(s: seq<string>)
    requires forall k :: 0 <= k < |s| ==> Strip(s[k]) == s[k] && s[k] != ""
    ensures StrippedNonEmpty(s) == s
  {
    assert StripEach(s) == s;
    NonEmptyOnlyOfNonEmpty(s);
  }

  // ---- status ---------------------------------------------------------------------------

  /** `progreso_pct` as the fraction it rounds: none for an empty table. */
  datatype Progreso = Cero | Fraccion(terminados: nat, total: nat)

  datatype SuneduStage = SuneduStage(pendientes: nat, procesando: nat, encontrados: nat, derivadosMinedu: nat, errores: nat)
  datatype MineduStage = MineduStage(pendientes: nat, procesando: nat, encontrados: nat, noEncontrados: nat, errores: nat)
  datatype RetryInfo = RetryInfo(retryables: nat, pipelineIdle: bool, canRetry: bool)
  datatype StatusResponse = StatusResponse(
    total: nat, terminados: nat, enProceso: nat, progreso: Progreso, conteos: map<Estado, nat>,
    sunedu: SuneduStage, minedu: MineduStage, retry: RetryInfo)

  /** `get_status` over the four store queries it makes. */
  function GetStatus(conteos: map<Estado, nat>, total: nat, retryables: nat, hayPendiente: bool): (r: StatusResponse)
    ensures r.terminados == GetCount(conteos, FOUND_SUNEDU) + GetCount(conteos, FOUND_MINEDU)
      + GetCount(conteos, NOT_FOUND) + GetCount(conteos, ERROR_SUNEDU) + GetCount(conteos, ERROR_MINEDU)
    ensures r.enProceso == GetCount(conteos, PROCESANDO_SUNEDU) + GetCount(conteos, PROCESANDO_MINEDU)
    ensures r.progreso == (if total > 0 then Fraccion(r.terminados, total) else Cero)
    ensures r.sunedu.derivadosMinedu == r.minedu.pendientes == GetCount(conteos, CHECK_MINEDU)
    ensures r.retry.pipelineIdle <==> !hayPendiente && total > 0
    ensures r.retry.canRetry <==> r.retry.pipelineIdle && retryables > 0
    ensures r.total == total && r.conteos == conteos && r.retry.retryables == retryables
  {
    var terminados := GetCount(conteos, FOUND_SUNEDU) + GetCount(conteos, FOUND_MINEDU)
      + GetCount(conteos, NOT_FOUND) + GetCount(conteos, ERROR_SUNEDU) + GetCount(conteos, ERROR_MINEDU);
    var enProceso := GetCount(conteos, PROCESANDO_SUNEDU) + GetCount(conteos, PROCESANDO_MINEDU);
    var idle := !hayPendiente && total > 0;
    StatusResponse(
      total, terminados, enProceso,
      if total > 0 then Fraccion(terminados, total) else Cero,
      conteos,
      SuneduStage(GetCount(conteos, PENDIENTE), GetCount(conteos, PROCESANDO_SUNEDU), GetCount(conteos, FOUND_SUNEDU),
                  GetCount(conteos, CHECK_MINEDU), GetCount(conteos, ERROR_SUNEDU)),
      MineduStage(GetCount(conteos, CHECK_MINEDU), GetCount(conteos, PROCESANDO_MINEDU), GetCount(conteos, FOUND_MINEDU),
                  GetCount(conteos, NOT_FOUND), GetCount(conteos, ERROR_MINEDU)),
      RetryInfo(retryables, idle, idle && retryables > 0))
  }

  /** The status of a table, as `get_status` computes it from the store. */
  function StatusOf(rs: seq<Registro>): StatusResponse
  {
    GetStatus(Conteos(rs), |rs|, CountIn(rs, RetryStates), CountIn(rs, PendingWork) > 0)
  }

  /** Finished, in processing, and waiting for either stage add up to the table's size. */
  lemma StatusAccounts(rs: seq<Registro>)
    ensures var st := StatusOf(rs);
      st.terminados + st.enProceso + st.sunedu.pendientes + st.minedu.pendientes == st.total
  {
    GetCountConteos(rs, PENDIENTE);
    GetCountConteos(rs, PROCESANDO_SUNEDU);
    GetCountConteos(rs, FOUND_SUNEDU);
    GetCountConteos(rs, CHECK_MINEDU);
    GetCountConteos(rs, PROCESANDO_MINEDU);
    GetCountConteos(rs, FOUND_MINEDU);
    GetCountConteos(rs, NOT_FOUND);
    GetCountConteos(rs, ERROR_SUNEDU);
    GetCountConteos(rs, ERROR_MINEDU);
    CountsSumToTotal(rs);
  }

  /**
   * Over a real table the figures account for every record: finished, in processing and waiting
   * (PENDIENTE and CHECK_MINEDU) add up to the total; the progress fraction never exceeds one;
   * retry is offered exactly when no record has pending work and some record is in a retry state.
   */
  lemma StatusOfTable(rs: seq<Registro>)
    ensures var st := StatusOf(rs);
      && st.terminados + st.enProceso + st.sunedu.pendientes + st.minedu.pendientes == st.total
      && (st.progreso.Fraccion? ==> st.progreso.terminados <= st.progreso.total)
      && (st.retry.canRetry <==>
            (forall i :: 0 <= i < |rs| ==> rs[i].estado !in PendingWork) &&
            (exists i :: 0 <= i < |rs| && rs[i].estado in RetryStates))
  {
    StatusAccounts(rs);
    CountInPositive(rs, PendingWork);
    CountInPositive(rs, RetryStates);
    if exists i :: 0 <= i < |rs| && rs[i].estado in RetryStates {
      assert |rs| > 0;
    }
  }

  // ---- retry ------------------------------------------------------------------------------

  datatype RetryResponse = RetryResponse(mensaje: string, reencolados: nat, workersStarted: Option<bool>)

  /**
   * `retry_not_found`: refused with 400 while any record has pending work; otherwise every
   * record in a retry state goes back to PENDIENTE, and the workers are started when some
   * record was re-queued and no worker was running.
   */
  method RetryNotFound(store: Store, anyRunning: bool, now: int) returns (r: Result<RetryResponse, HttpError>, startAll: bool)
    requires store.Valid()
    modifies store
    ensures store.Valid()
    ensures old(store.HayTrabajoPendiente()) ==>
      r == Failure(HttpError(BadRequest, "Aún hay registros en proceso. Espere a que terminen antes de reintentar."))
      && !startAll && unchanged(store)
    ensures !old(store.HayTrabajoPendiente()) ==>
      var n := CountIn(old(store.registros), RetryStates);
      && store.registros == ReintentarTodos(old(store.registros), now)
      && startAll == (n > 0 && !anyRunning)
      && r == Success(if n == 0 then RetryResponse("No hay registros para reintentar", 0, None)
                      else RetryResponse("Se re-encolaron " + NatToString(n) + " registros para nueva búsqueda", n, Some(!anyRunning)))
  {
    startAll := false;
    if store.HayTrabajoPendiente() {
      return Failure(HttpError(BadRequest, "Aún hay registros en proceso. Espere a que terminen antes de reintentar.")), false;
    }
    var n := store.ReintentarNoEncontrados(now);
    if n == 0 {
      return Success(RetryResponse("No hay registros para reintentar", 0, None)), false;
    }
    startAll := !anyRunning;
    r := Success(RetryResponse("Se re-encolaron " + NatToString(n) + " registros para nueva búsqueda", n, Some(!anyRunning)));
  }

  /** A retry that is allowed leaves nothing to retry and queues as PENDIENTE every record it took. */
  lemma RetryLeavesNothingToRetry(rs: seq<Registro>, now: int)
    requires CountIn(rs, PendingWork) == 0
    ensures CountIn(ReintentarTodos(rs, now), RetryStates) == 0
    ensures CountEstado(ReintentarTodos(rs, now), PENDIENTE) == CountIn(rs, RetryStates)
  {
    ReintentarTodosEffect(rs, now);
    CountPendingWork(rs);
  }

  // ---- worker control -----------------------------------------------------------------------

  /** What a start or stop request asks of the orchestrator. */
  datatype WorkerCall = One(worker: string) | All

  /** The worker-name check of `start_workers` and `stop_workers`; an empty name means both. */
  function WorkerChoice(worker: Option<string>): (r: Result<WorkerCall, HttpError>)
    ensures worker.None? || worker.value == "" ==> r == Success(All)
    ensures r.Success? && r.value.One? ==> r.value.worker in {"sunedu", "minedu"}
    ensures r.Failure? <==> worker.Some? && worker.value != "" && worker.value !in {"sunedu", "minedu"}
  {
    if worker.None? || worker.value == "" then Success(All)
    else if worker.value == "sunedu" || worker.value == "minedu" then Success(One(worker.value))
    else Failure(HttpError(BadRequest, "Worker debe ser 'sunedu' o 'minedu'"))
  }

  /** `start_workers`: stuck records are recovered before the worker name is even checked. */
  method StartWorkers(store: Store, worker: Option<string>, now: int) returns (r: Result<WorkerCall, HttpError>)
    requires store.Valid()
    modifies store
    ensures store.Valid()
    ensures store.registros == RecuperarTodos(old(store.registros), now)
    ensures r == WorkerChoice(worker)
  {
    var sunedu, minedu := store.RecuperarProcesando(now);
    r := WorkerChoice(worker);
  }

  /** `limpiar_datos`: stops every worker, then purges; returns the two deletion counts. */
  method LimpiarDatos(store: Store) returns (mensaje: string, registros: nat, lotes: nat, stopAll: bool)
    modifies store
    ensures store.Valid() && store.registros == [] && store.lotes == []
    ensures registros == |old(store.registros)| && lotes == |old(store.lotes)|
    ensures stopAll && mensaje == "Todo limpiado correctamente"
  {
    stopAll := true;
    registros, lotes := store.LimpiarTodo();
    mensaje := "Todo limpiado correctamente";
  }
}
