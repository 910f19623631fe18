/**
 * The two Python stage workers: the claim-then-record transition of `sunedu_worker_loop` and
 * `minedu_worker_loop`, the loop that counts processed records until the stop event is set, and
 * the bounded attempt loop of `procesar_un_dni`. The browser lookup is an input: each call of
 * `procesar_un_dni` is a `Lookup`, and each of its attempts an `Attempt`.
 */
module PyWorkers {
  import opened Wrappers
  import opened Text
  import opened Json
  import opened Estado
  import opened PyStore

  /** `SUNEDU_MAX_RETRIES` and `MINEDU_MAX_RETRIES`. */
  const SuneduMaxRetries: nat := 5
  const MineduMaxRetries: nat := 8
  /** A stored exception text keeps at most this many characters. */
  const ErrorLimit: nat := 500
  /** An exception inside one attempt keeps at most this many characters in the motive. */
  const AttemptErrorLimit: nat := 200

  datatype Stage = Sunedu | Minedu

  /** The state a stage claims from and the state it holds the claimed record in. */
  function Origen(s: Stage): Estado
  {
    match s
    case Sunedu => PENDIENTE
    case Minedu => CHECK_MINEDU
  }

  function EnProceso(s: Stage): Estado
  {
    match s
    case Sunedu => PROCESANDO_SUNEDU
    case Minedu => PROCESANDO_MINEDU
  }

  function MaxRetries(s: Stage): nat
  {
    match s
    case Sunedu => SuneduMaxRetries
    case Minedu => MineduMaxRetries
  }

  /** `Motivo.SUNEDU_MAX_REINTENTOS` and `Motivo.MINEDU_MAX_REINTENTOS`. */
  function MaxReintentos(s: Stage): string
  {
    match s
    case Sunedu => "Se agotaron todos los reintentos en SUNEDU"
    case Minedu => "Se agotaron todos los reintentos en MINEDU"
  }

  /** `Motivo.SUNEDU_PAGINA_NO_CARGO` and `Motivo.MINEDU_PAGINA_NO_CARGO`. */
  function PaginaNoCargo(s: Stage): string
  {
    match s
    case Sunedu => "La página de SUNEDU no cargó correctamente"
    case Minedu => "La página de MINEDU no cargó correctamente"
  }

  /** The dict `procesar_un_dni` returns: `encontrado`, `datos` (JSON null for None) and `motivo`. */
  datatype Resultado = Resultado(encontrado: bool, datos: Json, motivo: string)

  /** What one call of `procesar_un_dni` does: return a result or raise. */
  datatype Lookup = Returned(r: Resultado) | Raised(message: string)

  // ---- the transition of one claimed record ---------------------------------------

  /** The arguments the worker passes to `actualizar_resultado`. */
  datatype Update = Update(estado: Estado, ps: Option<Json>, pm: Option<Json>, err: Option<string>)

  /** `datos if isinstance(datos, list) else [datos]`. */
  function SuneduEntries(datos: Json): seq<Json>
  {
    if datos.JList? then datos.items else [datos]
  }

  /** The four keys the SUNEDU payload copies from its first entry. */
  const SuneduCopied: set<string> := {"nombres", "grado_o_titulo", "institucion", "fecha_diploma"}

  /**
   * The SUNEDU payload: non-list data is wrapped in a list, and the first entry's fields are
   * copied to the top level. An empty list or a first entry that is not a dict raises.
   */
  function SuneduPayload(datos: Json): (r: Result<Json, string>)
    ensures r.Success? ==>
      && r.value.JObj? && r.value.fields.Keys == {"registros", "total"} + SuneduCopied
      && r.value.fields["registros"] == JList(SuneduEntries(datos))
      && r.value.fields["total"] == JInt(|SuneduEntries(datos)|)
    ensures r.Success? ==> SuneduEntries(datos) != [] && SuneduEntries(datos)[0].JObj?
    ensures r.Success? ==>
      forall k :: k in SuneduCopied ==> r.value.fields[k] == GetStr(SuneduEntries(datos)[0].fields, k)
    ensures datos.JList? && datos.items == [] ==> r == Failure("list index out of range")
    ensures datos.JList? && datos.items != [] ==> (r.Success? <==> datos.items[0].JObj?)
    ensures datos.JList? && datos.items != [] && !datos.items[0].JObj? ==> r == Failure(NoGetMessage(datos.items[0]))
    ensures !datos.JList? ==> (r.Success? <==> datos.JObj?)
    ensures !datos.JList? && !datos.JObj? ==> r == Failure(NoGetMessage(datos))
  {
    var payload := SuneduEntries(datos);
    if payload == [] then Failure("list index out of range")
    else if !payload[0].JObj? then Failure(NoGetMessage(payload[0]))
    else
      var first := payload[0].fields;
      Success(JObj(map[
        "registros" := JList(payload),
        "total" := JInt(|payload|),
        "nombres" := GetStr(first, "nombres"),
        "grado_o_titulo" := GetStr(first, "grado_o_titulo"),
        "institucion" := GetStr(first, "institucion"),
        "fecha_diploma" := GetStr(first, "fecha_diploma")]))
  }

  /** The six keys of the MINEDU payload. */
  const MineduKeys: set<string> := {"nombre_completo", "titulo", "institucion", "fecha_expedicion", "nivel", "codigo_dre"}

  /** The MINEDU payload: six fields read from a dict; anything else raises. */
  function MineduPayload(datos: Json): (r: Result<Json, string>)
    ensures r.Success? <==> datos.JObj?
    ensures r.Success? ==> r.value.JObj? && r.value.fields.Keys == MineduKeys
    ensures r.Success? ==> forall k :: k in MineduKeys ==> r.value.fields[k] == GetStr(datos.fields, k)
    ensures r.Failure? ==> r.error == NoGetMessage(datos)
  {
    if !datos.JObj? then Failure(NoGetMessage(datos))
    else
      var d := datos.fields;
      var m := map[
        "nombre_completo" := GetStr(d, "nombre_completo"),
        "titulo" := GetStr(d, "titulo"),
        "institucion" := GetStr(d, "institucion"),
        "fecha_expedicion" := GetStr(d, "fecha_expedicion"),
        "nivel" := GetStr(d, "nivel"),
        "codigo_dre" := GetStr(d, "codigo_dre")];
      Success(JObj(m))
  }

  /** The state a stage's exception handler writes. */
  function ErrorState(s: Stage): Estado
  {
    match s
    case Sunedu => ERROR_SUNEDU
    case Minedu => ERROR_MINEDU
  }

  /** The update a stage writes for the lookup's outcome; a raise inside the handler body lands in the except clause. */
  function UpdateFor(s: Stage, l: Lookup): Update
  {
    match l
    case Raised(m) => Update(ErrorState(s), None, None, Some(Truncate(m, ErrorLimit)))
    case Returned(r) =>
      if r.encontrado then
        match s
        case Sunedu =>
          (match SuneduPayload(r.datos)
           case Success(p) => Update(FOUND_SUNEDU, Some(p), None, None)
           case Failure(m) => Update(ERROR_SUNEDU, None, None, Some(Truncate(m, ErrorLimit))))
        case Minedu =>
          (match MineduPayload(r.datos)
           case Success(p) => Update(FOUND_MINEDU, None, Some(p), None)
           case Failure(m) => Update(ERROR_MINEDU, None, None, Some(Truncate(m, ErrorLimit))))
      else
        match s
        case Sunedu => Update(CHECK_MINEDU, None, None, Some(r.motivo))
        case Minedu => Update(NOT_FOUND, None, None, Some(r.motivo))
  }

  /**
   * The outcome table of both stages: found with a readable payload gives the stage's FOUND
   * state and stores that payload, not found hands the record to MINEDU (from SUNEDU) or ends it
   * as NOT_FOUND (from MINEDU) with the motive, and anything that raises gives the stage's ERROR
   * state with at most 500 characters of the message. No outcome leaves the record claimable by
   * the same stage or leaves it in processing.
   */
  lemma UpdateForOutcomes(s: Stage, l: Lookup)
    ensures var u := UpdateFor(s, l);
      && u.estado != Origen(s) && u.estado != EnProceso(s) && u.estado !in Procesando
      && (l.Raised? ==> u.estado == ErrorState(s) && u.err == Some(Truncate(l.message, ErrorLimit)))
      && (l.Returned? && !l.r.encontrado ==>
            u.err == Some(l.r.motivo) && u.estado == (if s == Sunedu then CHECK_MINEDU else NOT_FOUND))
      && (s == Sunedu && l.Returned? && l.r.encontrado && SuneduPayload(l.r.datos).Success? ==>
            u == Update(FOUND_SUNEDU, Some(SuneduPayload(l.r.datos).value), None, None))
      && (s == Minedu && l.Returned? && l.r.encontrado && l.r.datos.JObj? ==>
            u == Update(FOUND_MINEDU, None, Some(MineduPayload(l.r.datos).value), None))
      && (u.estado == ErrorState(s) ==> u.err.Some? && |u.err.value| <= ErrorLimit)
      && (u.estado in {FOUND_SUNEDU, FOUND_MINEDU} <==>
            l.Returned? && l.r.encontrado &&
            (if s == Sunedu then SuneduPayload(l.r.datos).Success? else l.r.datos.JObj?))
  {
  }

  /** One claim-and-record step of a stage worker over the table. */
  function StepOn(rs: seq<Registro>, s: Stage, u: Update, now: int): (t: Tomado)
  {
    var t := Tomar(rs, Origen(s), EnProceso(s), now);
    if t.dto.None? then t
    else
      Tomado(Actualizar(t.registros, t.dto.value.id, u.estado, u.ps, u.pm, u.err, now), t.dto)
  }

  /** A step finds nothing to claim exactly when no record waits for the stage, and then changes nothing. */
  lemma StepOnIdle(rs: seq<Registro>, s: Stage, u: Update, now: int)
    ensures var t := StepOn(rs, s, u, now);
      && (t.dto.None? <==> CountEstado(rs, Origen(s)) == 0)
      && (t.dto.None? ==> t.registros == rs)
  {
    CountInPositive(rs, {Origen(s)});
    CountSingleton(rs, Origen(s));
  }

  /**
   * Otherwise exactly the lowest-id record in the stage's source state is processed: it ends in
   * the outcome's state with the outcome's fields, and every other record is unchanged.
   */
  lemma StepOnEffect(rs: seq<Registro>, s: Stage, u: Update, now: int)
    requires IdsAscending(rs)
    ensures var t := StepOn(rs, s, u, now);
      t.dto.Some? ==>
        var i := FirstInEstado(rs, Origen(s)).value;
        && rs[i].estado == Origen(s) && t.dto.value.id == rs[i].id
        && (forall j :: 0 <= j < |rs| && rs[j].estado == Origen(s) ==> rs[i].id <= rs[j].id)
        && t.registros == rs[i := StepRecord(rs[i], u, now)]
  {
    match FirstInEstado(rs, Origen(s))
    case None =>
    case Some(i) =>
      RecordClaimed(rs, i, EnProceso(s), u, now);
      forall j | 0 <= j < |rs| && rs[j].estado == Origen(s) ensures rs[i].id <= rs[j].id {
        assert i <= j;
      }
  }

  /** Claiming row `i` and then updating it by id is one replacement of row `i`. */
  lemma RecordClaimed(rs: seq<Registro>, i: nat, procesando: Estado, u: Update, now: int)
    requires IdsAscending(rs) && i < |rs|
    ensures var mid := rs[i := rs[i].(estado := procesando, updatedAt := now)];
      Actualizar(mid, rs[i].id, u.estado, u.ps, u.pm, u.err, now) == rs[i := StepRecord(rs[i], u, now)]
  {
    var claimedRec := rs[i].(estado := procesando, updatedAt := now);
    var mid := rs[i := claimedRec];
    IndexOfIdAt(mid, i);
    assert StepRecord(claimedRec, u, now) == StepRecord(rs[i], u, now);
  }

  /** In a table with ascending ids, looking up a row's id finds that row. */
  lemma IndexOfIdAt(rs: seq<Registro>, i: nat)
    requires IdsAscending(rs) && i < |rs|
    ensures IndexOfId(rs, rs[i].id) == Some(i)
  {
  }

  /** The claimed record after its step: claimed, then overwritten with the outcome's update. */
  function StepRecord(r: Registro, u: Update, now: int): (out: Registro)
    ensures out.id == r.id && out.dni == r.dni && out.loteId == r.loteId && out.retryCount == r.retryCount
    ensures out.estado == u.estado && out.updatedAt == now
  {
    r.(estado := u.estado, updatedAt := now,
       payloadSunedu := if u.ps.Some? then u.ps else r.payloadSunedu,
       payloadMinedu := if u.pm.Some? then u.pm else r.payloadMinedu,
       errorMsg := if u.err.Some? then u.err else r.errorMsg)
  }

  /** A step that claims a record takes exactly one record out of the stage's source state. */
  lemma StepOnCount(rs: seq<Registro>, s: Stage, l: Lookup, now: int)
    requires IdsAscending(rs)
    ensures var t := StepOn(rs, s, UpdateFor(s, l), now);
      CountEstado(t.registros, Origen(s)) == CountEstado(rs, Origen(s)) - (if t.dto.Some? then 1 else 0)
  {
    var u := UpdateFor(s, l);
    StepOnIdle(rs, s, u, now);
    StepOnEffect(rs, s, u, now);
    if StepOn(rs, s, u, now).dto.Some? {
      var i := FirstInEstado(rs, Origen(s)).value;
      UpdateForOutcomes(s, l);
      CountReplace(rs, i, StepRecord(rs[i], u, now), Origen(s));
    }
  }

  /** One pass of a worker loop's body: claim, look up, record; returns the claimed record. */
  method Step(store: Store, s: Stage, l: Lookup, now: int) returns (claimed: Option<RegistroDTO>)
    requires store.Valid()
    modifies store
    ensures store.Valid()
    ensures Tomado(store.registros, claimed) == StepOn(old(store.registros), s, UpdateFor(s, l), now)
    ensures store.lotes == old(store.lotes)
  {
    claimed := store.TomarSiguiente(Origen(s), EnProceso(s), now);
    if claimed.Some? {
      var u := UpdateFor(s, l);
      store.ActualizarResultado(claimed.value.id, u.estado, u.ps, u.pm, u.err, now);
    }
  }

  /**
   * A worker loop that sees the stop event clear `rounds` times. A round that claims nothing
   * waits and does not count; every claimed record counts once, whatever the outcome, and uses
   * the next lookup. So the loop processes the smaller of `rounds` and the number of records
   * that were waiting for the stage.
   */
  method WorkerLoop(store: Store, s: Stage, rounds: nat, lookups: seq<Lookup>, now: int) returns (procesados: nat)
    requires store.Valid()
    requires |lookups| >= rounds
    modifies store
    ensures store.Valid()
    ensures |store.registros| == |old(store.registros)|
    ensures procesados == if rounds <= CountEstado(old(store.registros), Origen(s)) then rounds
                          else CountEstado(old(store.registros), Origen(s))
    ensures procesados < rounds ==> CountEstado(store.registros, Origen(s)) == 0
    ensures store.lotes == old(store.lotes)
  {
    procesados := 0;
    var round := 0;
    ghost var c0 := CountEstado(store.registros, Origen(s));
    while round < rounds
      invariant 0 <= round <= rounds
      invariant store.Valid()
      invariant |store.registros| == |old(store.registros)|
      invariant procesados == if round <= c0 then round else c0
      invariant CountEstado(store.registros, Origen(s)) == c0 - procesados
      invariant store.lotes == old(store.lotes)
    {
      StepOnCount(store.registros, s, lookups[procesados], now);
      StepOnIdle(store.registros, s, UpdateFor(s, lookups[procesados]), now);
      var claimed := Step(store, s, lookups[procesados], now);
      if claimed.Some? {
        procesados := procesados + 1;
      }
      round := round + 1;
    }
  }

  // ---- procesar_un_dni's attempt loop ----------------------------------------------------

  /**
   * One attempt of `procesar_un_dni`: it returns a result, gives up on this attempt with a
   * motive (`continue`), or raises inside the attempt.
   */
  datatype Attempt = Done(r: Resultado) | Again(motivo: string) | Crashed(message: string)

  /** The motive an unsuccessful attempt leaves in `ultimo_motivo`. */
  function MotiveOf(s: Stage, a: Attempt): string
  {
    match a
    case Done(_) => ""
    case Again(m) => m
    case Crashed(m) => PaginaNoCargo(s) + ": " + Truncate(m, AttemptErrorLimit)
  }

  /** `ultimo_motivo` after unsuccessful attempts `as`, starting from the give-up motive. */
  function LastMotive(s: Stage, as_: seq<Attempt>): string
  {
    if as_ == [] then MaxReintentos(s) else MotiveOf(s, as_[|as_| - 1])
  }

  /** The RuntimeError message raised when every attempt is used up. */
  function GiveUpMessage(s: Stage, ultimo: string): string
  {
    MaxReintentos(s) + " (" + NatToString(MaxRetries(s)) + " intentos) | Último motivo: " + ultimo
  }

  /**
   * `procesar_un_dni`: the attempts run in order until one returns; after `MaxRetries` attempts
   * without a result it raises with the give-up message carrying the last attempt's motive.
   * Attempts past the limit are never made.
   */
  method ProcesarUnDni(s: Stage, attempts: seq<Attempt>) returns (r: Result<Resultado, string>)
    requires |attempts| >= MaxRetries(s)
    ensures r.Success? <==> exists k :: 0 <= k < MaxRetries(s) && attempts[k].Done?
    ensures r.Success? ==> exists k :: (0 <= k < MaxRetries(s) && attempts[k] == Done(r.value)
      && forall j :: 0 <= j < k ==> !attempts[j].Done?)
    ensures r.Failure? ==> r.error == GiveUpMessage(s, LastMotive(s, attempts[..MaxRetries(s)]))
  {
    var ultimo := MaxReintentos(s);
    var intento := 1;
    while intento <= MaxRetries(s)
      invariant 1 <= intento <= MaxRetries(s) + 1
      invariant forall j :: 0 <= j < intento - 1 ==> !attempts[j].Done?
      invariant ultimo == LastMotive(s, attempts[..intento - 1])
    {
      var a := attempts[intento - 1];
      match a {
        case Done(res) =>
          return Success(res);
        case Again(m) =>
          ultimo := m;
        case Crashed(m) =>
          ultimo := PaginaNoCargo(s) + ": " + Truncate(m, AttemptErrorLimit);
      }
      assert attempts[..intento][..intento - 1] == attempts[..intento - 1];
      intento := intento + 1;
    }
    r := Failure(GiveUpMessage(s, ultimo));
  }
}
