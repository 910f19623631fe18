/**
 * `get_status` of the two refactored backends. Unlike the single-database handler, the
 * pipeline counts as idle when no record is being processed (queued records do not count),
 * retry is offered whenever some record is in a retry state, and the SUNEDU stage reports as
 * derived to MINEDU every record that reached the second stage.
 */
module RefactoredStatus {
  import opened Estado
  import opened PyStore
  import PyApi

  datatype WorkersRunning = WorkersRunning(sunedu: bool, minedu: bool)

  datatype Status = Status(
    total: nat, terminados: nat, enProceso: nat, progreso: PyApi.Progreso, conteos: map<Estado, nat>,
    sunedu: PyApi.SuneduStage, minedu: PyApi.MineduStage, retry: PyApi.RetryInfo, workers: WorkersRunning)

  /** The figures of `get_status` from the store's counts and the orchestrator's `is_running()`. */
  function GetStatus(conteos: map<Estado, nat>, total: nat, retryables: nat, running: bool): (r: Status)
    ensures r.terminados == GetCount(conteos, FOUND_SUNEDU) + GetCount(conteos, FOUND_MINEDU)
      + GetCount(conteos, NOT_FOUND) + GetCount(conteos, ERROR_SUNEDU) + GetCount(conteos, ERROR_MINEDU)
    ensures r.enProceso == GetCount(conteos, PROCESANDO_SUNEDU) + GetCount(conteos, PROCESANDO_MINEDU)
    ensures r.progreso == (if total > 0 then PyApi.Fraccion(r.terminados, total) else PyApi.Cero)
    ensures r.sunedu.derivadosMinedu == GetCount(conteos, CHECK_MINEDU) + GetCount(conteos, PROCESANDO_MINEDU)
      + GetCount(conteos, FOUND_MINEDU) + GetCount(conteos, NOT_FOUND) + GetCount(conteos, ERROR_MINEDU)
    ensures r.minedu.pendientes == GetCount(conteos, CHECK_MINEDU)
    ensures r.retry.pipelineIdle <==> r.enProceso == 0
    ensures r.retry.canRetry <==> retryables > 0
    ensures r.workers == WorkersRunning(running, running)
    ensures r.total == total && r.conteos == conteos && r.retry.retryables == retryables
  {
    var terminados := GetCount(conteos, FOUND_SUNEDU) + GetCount(conteos, FOUND_MINEDU)
      + GetCount(conteos, NOT_FOUND) + GetCount(conteos, ERROR_SUNEDU) + GetCount(conteos, ERROR_MINEDU);
    var enProceso := GetCount(conteos, PROCESANDO_SUNEDU) + GetCount(conteos, PROCESANDO_MINEDU);
    var derivados := GetCount(conteos, CHECK_MINEDU) + GetCount(conteos, PROCESANDO_MINEDU)
      + GetCount(conteos, FOUND_MINEDU) + GetCount(conteos, NOT_FOUND) + GetCount(conteos, ERROR_MINEDU);
    Status(
      total, terminados, enProceso,
      if total > 0 then PyApi.Fraccion(terminados, total) else PyApi.Cero,
      conteos,
      PyApi.SuneduStage(GetCount(conteos, PENDIENTE), GetCount(conteos, PROCESANDO_SUNEDU),
                        GetCount(conteos, FOUND_SUNEDU), derivados, GetCount(conteos, ERROR_SUNEDU)),
      PyApi.MineduStage(GetCount(conteos, CHECK_MINEDU), GetCount(conteos, PROCESANDO_MINEDU),
                        GetCount(conteos, FOUND_MINEDU), GetCount(conteos, NOT_FOUND), GetCount(conteos, ERROR_MINEDU)),
      PyApi.RetryInfo(retryables, enProceso == 0, retryables > 0),
      WorkersRunning(running, running))
  }

  /** The status of a table, from the queries the handler makes. */
  function StatusOf(rs: seq<Registro>, running: bool): Status
  {
    GetStatus(Conteos(rs), |rs|, CountIn(rs, RetryStates), running)
  }

  /**
   * Over a real table the SUNEDU stage accounts for every record, the MINEDU stage accounts for
   * every record derived to it, and the idle and retry verdicts read the table directly.
   */
  lemma StatusOfTable(rs: seq<Registro>, running: bool)
    ensures var st := StatusOf(rs, running);
      && st.sunedu.pendientes + st.sunedu.procesando + st.sunedu.encontrados + st.sunedu.errores
         + st.sunedu.derivadosMinedu == st.total
      && st.minedu.pendientes + st.minedu.procesando + st.minedu.encontrados + st.minedu.noEncontrados
         + st.minedu.errores == st.sunedu.derivadosMinedu
      && (st.progreso.Fraccion? ==> st.progreso.terminados <= st.progreso.total)
      && (st.retry.pipelineIdle <==> forall i :: 0 <= i < |rs| ==> rs[i].estado !in Procesando)
      && (st.retry.canRetry <==> exists i :: 0 <= i < |rs| && rs[i].estado in RetryStates)
  {
    StageAccounts(rs, running);
    CountProcesando(rs);
    CountInPositive(rs, Procesando);
    CountInPositive(rs, RetryStates);
    GetCountConteos(rs, PROCESANDO_SUNEDU);
    GetCountConteos(rs, PROCESANDO_MINEDU);
  }

  /** The SUNEDU stage accounts for every record, and the MINEDU stage for every derived one. */
  lemma StageAccounts(rs: seq<Registro>, running: bool)
    ensures var st := StatusOf(rs, running);
      st.sunedu.pendientes + st.sunedu.procesando + st.sunedu.encontrados + st.sunedu.errores
        + st.sunedu.derivadosMinedu == st.total
    ensures var st := StatusOf(rs, running);
      st.minedu.pendientes + st.minedu.procesando + st.minedu.encontrados + st.minedu.noEncontrados
        + st.minedu.errores == st.sunedu.derivadosMinedu
  {
    GetCountConteos(rs, PENDIENTE);
    GetCountConteos(rs, PROCESANDO_SUNEDU);
    GetCountConteos(rs, FOUND_SUNEDU);
    GetCountConteos(rs, CHECK_MINEDU);
    GetCountConteos(rs, PROCESANDO_MINEDU);
    GetCountConteos(rs, FOUND_MINEDU);
    GetCountConteos(rs, NOT_FOUND);
    GetCountConteos(rs, ERROR_SUNEDU);
    GetCountConteos(rs, ERROR_MINEDU);
    CountsSumToTotal(rs);
  }

  /**
   * The two status handlers disagree on a table whose records are all queued: the refactored
   * one reports the pipeline idle, the single-database one does not.
   */
  lemma IdleWhileQueued(rs: seq<Registro>, running: bool)
    requires |rs| > 0 && forall i :: 0 <= i < |rs| ==> rs[i].estado == PENDIENTE
    ensures StatusOf(rs, running).retry.pipelineIdle
    ensures !PyApi.StatusOf(rs).retry.pipelineIdle
  {
    StatusOfTable(rs, running);
    PyApi.StatusOfTable(rs);
    assert rs[0].estado in PendingWork;
  }
}
