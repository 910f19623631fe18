/** The nine record states of the Python pipeline (`Estado`) and the groups the code uses. */
module Estado {
  import opened Wrappers

  datatype Estado =
    | PENDIENTE
    | PROCESANDO_SUNEDU
    | FOUND_SUNEDU
    | CHECK_MINEDU
    | PROCESANDO_MINEDU
    | FOUND_MINEDU
    | NOT_FOUND
    | ERROR_SUNEDU
    | ERROR_MINEDU

  const AllEstados: set<Estado> :=
    {PENDIENTE, PROCESANDO_SUNEDU, FOUND_SUNEDU, CHECK_MINEDU, PROCESANDO_MINEDU,
     FOUND_MINEDU, NOT_FOUND, ERROR_SUNEDU, ERROR_MINEDU}

  /** `Estado.TERMINALES`. */
  const Terminales: set<Estado> := {FOUND_SUNEDU, FOUND_MINEDU, NOT_FOUND, ERROR_SUNEDU, ERROR_MINEDU}

  /** The states `hay_trabajo_pendiente` looks for. */
  const PendingWork: set<Estado> := {PENDIENTE, PROCESANDO_SUNEDU, CHECK_MINEDU, PROCESANDO_MINEDU}

  /** The states `reintentar_no_encontrados` and `contar_retryables` select. */
  const RetryStates: set<Estado> := {NOT_FOUND, ERROR_SUNEDU, ERROR_MINEDU}

  /** The states a worker holds a claimed record in. */
  const Procesando: set<Estado> := {PROCESANDO_SUNEDU, PROCESANDO_MINEDU}

  /** The text stored in the `estado` column. */
  function Name(e: Estado): string
  {
    match e
    case PENDIENTE => "PENDIENTE"
    case PROCESANDO_SUNEDU => "PROCESANDO_SUNEDU"
    case FOUND_SUNEDU => "FOUND_SUNEDU"
    case CHECK_MINEDU => "CHECK_MINEDU"
    case PROCESANDO_MINEDU => "PROCESANDO_MINEDU"
    case FOUND_MINEDU => "FOUND_MINEDU"
    case NOT_FOUND => "NOT_FOUND"
    case ERROR_SUNEDU => "ERROR_SUNEDU"
    case ERROR_MINEDU => "ERROR_MINEDU"
  }

  function Parse(name: string): (r: Option<Estado>)
    ensures r.Some? ==> Name(r.value) == name
  {
    if name == "PENDIENTE" then Some(PENDIENTE)
    else if name == "PROCESANDO_SUNEDU" then Some(PROCESANDO_SUNEDU)
    else if name == "FOUND_SUNEDU" then Some(FOUND_SUNEDU)
    else if name == "CHECK_MINEDU" then Some(CHECK_MINEDU)
    else if name == "PROCESANDO_MINEDU" then Some(PROCESANDO_MINEDU)
    else if name == "FOUND_MINEDU" then Some(FOUND_MINEDU)
    else if name == "NOT_FOUND" then Some(NOT_FOUND)
    else if name == "ERROR_SUNEDU" then Some(ERROR_SUNEDU)
    else if name == "ERROR_MINEDU" then Some(ERROR_MINEDU)
    else None
  }

  lemma NameRoundTrip(e: Estado)
    ensures Parse(Name(e)) == Some(e)
  {
  }

  /**
   * The terminal states and the states with pending work split the nine states between them,
   * and every retryable state is terminal.
   */
  lemma StateGroups(e: Estado)
    ensures e in Terminales <==> e !in PendingWork
    ensures e in RetryStates ==> e in Terminales
    ensures e in Procesando ==> e in PendingWork
    ensures e in AllEstados
  {
  }
}
