/**
 * The Python record store: `crear_lote`, `tomar_siguiente`, `actualizar_resultado`, the count
 * queries, bulk retry and recovery, `obtener_registros` and `limpiar_todo`. The same operations
 * exist as module functions over one SQLite file and as `DniRepository` methods; one class
 * models both. A new row's id is one more than the largest id present, so ids start again at 1
 * after the tables are emptied.
 */
module PyStore {
  import opened Wrappers
  import opened Text
  import opened Seqs
  import opened Json
  import opened Estado

  datatype Registro = Registro(
    id: nat,
    loteId: nat,
    dni: string,
    estado: Estado,
    retryCount: nat,
    payloadSunedu: Option<Json>,   // the decoded JSON of the column, or NULL
    payloadMinedu: Option<Json>,
    errorMsg: Option<string>,
    createdAt: int,
    updatedAt: int)

  datatype Lote = Lote(id: nat, nombreArchivo: string, totalDnis: nat, createdAt: int)

  /** The detached copy `tomar_siguiente` returns. */
  datatype RegistroDTO = RegistroDTO(id: nat, dni: string, loteId: nat, retryCount: nat)

  predicate IdsAscending(rs: seq<Registro>)
  {
    forall i, j :: 0 <= i < j < |rs| ==> rs[i].id < rs[j].id
  }

  predicate LoteIdsAscending(ls: seq<Lote>)
  {
    forall i, j :: 0 <= i < j < |ls| ==> ls[i].id < ls[j].id
  }

  predicate SameIds(a: seq<Registro>, b: seq<Registro>)
  {
    |a| == |b| && forall i :: 0 <= i < |a| ==> a[i].id == b[i].id
  }

  /** The rowid SQLite gives the next row: one past the largest id, or 1 in an empty table. */
  function NextRegistroId(rs: seq<Registro>): (n: nat)
    ensures n >= 1
  {
    if rs == [] then 1 else rs[|rs| - 1].id + 1
  }

  function NextLoteId(ls: seq<Lote>): (n: nat)
    ensures n >= 1
  {
    if ls == [] then 1 else ls[|ls| - 1].id + 1
  }

  // ---- crear_lote ------------------------------------------------------------

  /** The entries that are not empty, in input order. */
  function NonEmptyOnly(ts: seq<string>): (r: seq<string>)
    ensures |r| <= |ts|
    ensures forall k :: 0 <= k < |r| ==> r[k] != ""
    ensures forall d :: d in r <==> d in ts && d != ""
  {
    if ts == [] then []
    else
      var init := NonEmptyOnly(ts[..|ts| - 1]);
      var t := ts[|ts| - 1];
      assert ts == ts[..|ts| - 1] + [t];
      if t != "" then init + [t] else init
  }

  /** A list with no empty entry passes the filter unchanged. */
  lemma {:induction false} NonEmptyOnlyOfNonEmpty(ts: seq<string>)
    requires forall k :: 0 <= k < |ts| ==> ts[k] != ""
    ensures NonEmptyOnly(ts) == ts
  {
    if ts != [] {
      NonEmptyOnlyOfNonEmpty(ts[..|ts| - 1]);
      assert ts[..|ts| - 1] + [ts[|ts| - 1]] == ts;
    }
  }

  /** The stripped forms of the entries, the empty ones dropped, in input order. */
  function StrippedNonEmpty(dnis: seq<string>): (r: seq<string>)
    ensures |r| <= |dnis|
    ensures forall k :: 0 <= k < |r| ==> r[k] != ""
  {
    NonEmptyOnly(StripEach(dnis))
  }

  /** The kept entries are exactly the non-empty stripped inputs. */
  lemma StrippedNonEmptyMembers(dnis: seq<string>)
    ensures forall d :: d in StrippedNonEmpty(dnis) <==> exists j :: 0 <= j < |dnis| && d == Strip(dnis[j]) && d != ""
  {
    var stripped := StripEach(dnis);
    assert StrippedNonEmpty(dnis) == NonEmptyOnly(stripped);
  }

  /** The `dnis_unicos` list `crear_lote` builds. */
  function UniqueDnis(dnis: seq<string>): seq<string>
  {
    Dedup(StrippedNonEmpty(dnis))
  }

  lemma NonEmptyOnlySnoc(ts: seq<string>, t: string)
    ensures NonEmptyOnly(ts + [t]) == if t != "" then NonEmptyOnly(ts) + [t] else NonEmptyOnly(ts)
  {
    assert (ts + [t])[..|ts|] == ts;
  }

  lemma StrippedNonEmptySnoc(dnis: seq<string>, i: nat)
    requires i < |dnis|
    ensures var c := Strip(dnis[i]);
      StrippedNonEmpty(dnis[..i + 1]) == if c != "" then StrippedNonEmpty(dnis[..i]) + [c] else StrippedNonEmpty(dnis[..i])
  {
    StripEachSnoc(dnis, i);
    NonEmptyOnlySnoc(StripEach(dnis[..i]), Strip(dnis[i]));
  }

  /** One more entry: its stripped form is appended when it is not empty and not yet seen. */
  lemma UniqueDnisStep(dnis: seq<string>, i: nat)
    requires i < |dnis|
    ensures var c := Strip(dnis[i]);
      UniqueDnis(dnis[..i + 1]) == if c != "" && c !in UniqueDnis(dnis[..i]) then UniqueDnis(dnis[..i]) + [c] else UniqueDnis(dnis[..i])
  {
    StrippedNonEmptySnoc(dnis, i);
    var c := Strip(dnis[i]);
    if c != "" {
      DedupSnoc(StrippedNonEmpty(dnis[..i]), c);
    }
  }

  /**
   * The batch keeps each distinct stripped, non-empty entry once, in the order of its first
   * occurrence, and nothing else.
   */
  lemma UniqueDnisSpec(dnis: seq<string>, x: string, y: string)
    ensures NoDup(UniqueDnis(dnis))
    ensures forall d :: d in UniqueDnis(dnis) <==> exists j :: 0 <= j < |dnis| && d == Strip(dnis[j]) && d != ""
    ensures x in StrippedNonEmpty(dnis) && y in StrippedNonEmpty(dnis) ==>
      x in UniqueDnis(dnis) && y in UniqueDnis(dnis) &&
      ((FirstIndex(UniqueDnis(dnis), x) < FirstIndex(UniqueDnis(dnis), y))
        <==> (FirstIndex(StrippedNonEmpty(dnis), x) < FirstIndex(StrippedNonEmpty(dnis), y)))
  {
    UniqueDnisMembers(dnis);
    UniqueDnisOrder(dnis, x, y);
  }

  lemma UniqueDnisMembers(dnis: seq<string>)
    ensures forall d :: d in UniqueDnis(dnis) <==> exists j :: 0 <= j < |dnis| && d == Strip(dnis[j]) && d != ""
  {
    var s := StrippedNonEmpty(dnis);
    StrippedNonEmptyMembers(dnis);
    assert forall d :: d in UniqueDnis(dnis) <==> d in s;
  }

  lemma UniqueDnisOrder(dnis: seq<string>, x: string, y: string)
    ensures x in StrippedNonEmpty(dnis) && y in StrippedNonEmpty(dnis) ==>
      x in UniqueDnis(dnis) && y in UniqueDnis(dnis) &&
      ((FirstIndex(UniqueDnis(dnis), x) < FirstIndex(UniqueDnis(dnis), y))
        <==> (FirstIndex(StrippedNonEmpty(dnis), x) < FirstIndex(StrippedNonEmpty(dnis), y)))
  {
    var s := StrippedNonEmpty(dnis);
    if x in s && y in s {
      DedupKeepsFirstOccurrenceOrder(s, x, y);
    }
  }

  /** The rows a new batch adds: one PENDIENTE row per unique DNI, numbered from `firstId`. */
  function NuevosRegistros(loteId: nat, dnis: seq<string>, firstId: nat, now: int): (r: seq<Registro>)
    ensures |r| == |dnis|
    ensures forall k :: 0 <= k < |r| ==>
      r[k] == Registro(firstId + k, loteId, dnis[k], PENDIENTE, 0, None, None, None, now, now)
  {
    seq(|dnis|, k requires 0 <= k < |dnis| =>
      Registro(firstId + k, loteId, dnis[k], PENDIENTE, 0, None, None, None, now, now))
  }

  /** Inserting one more entry appends its row, numbered after the ones before it. */
  lemma NuevosSnoc(loteId: nat, dnis: seq<string>, j: nat, firstId: nat, now: int)
    requires j < |dnis|
    ensures NuevosRegistros(loteId, dnis[..j + 1], firstId, now)
      == NuevosRegistros(loteId, dnis[..j], firstId, now) + [Registro(firstId + j, loteId, dnis[j], PENDIENTE, 0, None, None, None, now, now)]
  {
  }

  /** New rows numbered from the next id keep the ids ascending. */
  lemma NuevosAscending(rs: seq<Registro>, loteId: nat, dnis: seq<string>, now: int)
    requires IdsAscending(rs) && forall i :: 0 <= i < |rs| ==> rs[i].id >= 1
    ensures var all := rs + NuevosRegistros(loteId, dnis, NextRegistroId(rs), now);
      IdsAscending(all) && forall i :: 0 <= i < |all| ==> all[i].id >= 1
  {
    var all := rs + NuevosRegistros(loteId, dnis, NextRegistroId(rs), now);
    forall i, j | 0 <= i < j < |all| ensures all[i].id < all[j].id {
      if j >= |rs| && i < |rs| {
        assert rs[i].id <= rs[|rs| - 1].id;
      }
    }
  }

  /** A batch numbered with the next id keeps the batch ids ascending. */
  lemma LoteAppendAscending(ls: seq<Lote>, l: Lote)
    requires LoteIdsAscending(ls) && forall i :: 0 <= i < |ls| ==> ls[i].id >= 1
    requires l.id == NextLoteId(ls)
    ensures LoteIdsAscending(ls + [l]) && forall i :: 0 <= i < |ls + [l]| ==> (ls + [l])[i].id >= 1
  {
    var all := ls + [l];
    forall i, j | 0 <= i < j < |all| ensures all[i].id < all[j].id {
      if j == |ls| {
        assert ls[i].id <= ls[|ls| - 1].id;
      }
    }
  }

  // ---- counting --------------------------------------------------------------

  function CountEstado(rs: seq<Registro>, e: Estado): (n: nat)
    ensures n <= |rs|
  {
    if rs == [] then 0
    else CountEstado(rs[..|rs| - 1], e) + (if rs[|rs| - 1].estado == e then 1 else 0)
  }

  /** How many rows have a state in `es`. */
  function CountIn(rs: seq<Registro>, es: set<Estado>): (n: nat)
    ensures n <= |rs|
  {
    if rs == [] then 0
    else CountIn(rs[..|rs| - 1], es) + (if rs[|rs| - 1].estado in es then 1 else 0)
  }

  lemma CountPrefix(rs: seq<Registro>, i: nat, e: Estado)
    requires i < |rs|
    ensures CountEstado(rs[..i + 1], e) == CountEstado(rs[..i], e) + (if rs[i].estado == e then 1 else 0)
  {
    assert rs[..i + 1][..i] == rs[..i];
  }

  lemma CountInPrefix(rs: seq<Registro>, i: nat, es: set<Estado>)
    requires i < |rs|
    ensures CountIn(rs[..i + 1], es) == CountIn(rs[..i], es) + (if rs[i].estado in es then 1 else 0)
  {
    assert rs[..i + 1][..i] == rs[..i];
  }

  lemma {:induction false} CountInPositive(rs: seq<Registro>, es: set<Estado>)
    ensures CountIn(rs, es) > 0 <==> exists i :: 0 <= i < |rs| && rs[i].estado in es
  {
    if rs != [] {
      var init := rs[..|rs| - 1];
      CountInPositive(init, es);
      if exists i :: 0 <= i < |init| && init[i].estado in es {
        var i :| 0 <= i < |init| && init[i].estado in es;
        assert rs[i].estado in es;
      }
      if exists i :: 0 <= i < |rs| && rs[i].estado in es {
        var i :| 0 <= i < |rs| && rs[i].estado in es;
        if i < |init| {
          assert init[i].estado in es;
        }
      }
    }
  }

  /** Replacing one row changes a state's count only by what left and what arrived. */
  lemma {:induction false} CountReplace(rs: seq<Registro>, i: nat, r: Registro, e: Estado)
    requires i < |rs|
    ensures CountEstado(rs[i := r], e) + (if rs[i].estado == e then 1 else 0)
         == CountEstado(rs, e) + (if r.estado == e then 1 else 0)
  {
    var last := |rs| - 1;
    if i == last {
      assert rs[i := r][..last] == rs[..last];
    } else {
      CountReplace(rs[..last], i, r, e);
      assert rs[i := r][..last] == rs[..last][i := r];
    }
  }

  /** A count over several states is the sum of the per-state counts (for the three retry states). */
  lemma {:induction false} CountRetryStates(rs: seq<Registro>)
    ensures CountIn(rs, RetryStates) == CountEstado(rs, NOT_FOUND) + CountEstado(rs, ERROR_SUNEDU) + CountEstado(rs, ERROR_MINEDU)
  {
    if rs != [] {
      CountRetryStates(rs[..|rs| - 1]);
    }
  }

  lemma {:induction false} CountPendingWork(rs: seq<Registro>)
    ensures CountIn(rs, PendingWork) == CountEstado(rs, PENDIENTE) + CountEstado(rs, PROCESANDO_SUNEDU)
                                       + CountEstado(rs, CHECK_MINEDU) + CountEstado(rs, PROCESANDO_MINEDU)
  {
    if rs != [] {
      CountPendingWork(rs[..|rs| - 1]);
    }
  }

  lemma {:induction false} CountProcesando(rs: seq<Registro>)
    ensures CountIn(rs, Procesando) == CountEstado(rs, PROCESANDO_SUNEDU) + CountEstado(rs, PROCESANDO_MINEDU)
  {
    if rs != [] {
      CountProcesando(rs[..|rs| - 1]);
    }
  }

  /** The nine per-state counts add up to the number of rows. */
  lemma {:induction false} CountsSumToTotal(rs: seq<Registro>)
    ensures CountEstado(rs, PENDIENTE) + CountEstado(rs, PROCESANDO_SUNEDU) + CountEstado(rs, FOUND_SUNEDU)
          + CountEstado(rs, CHECK_MINEDU) + CountEstado(rs, PROCESANDO_MINEDU) + CountEstado(rs, FOUND_MINEDU)
          + CountEstado(rs, NOT_FOUND) + CountEstado(rs, ERROR_SUNEDU) + CountEstado(rs, ERROR_MINEDU) == |rs|
  {
    if rs != [] {
      CountsSumToTotal(rs[..|rs| - 1]);
    }
  }

  /** `{estado: count}` from the GROUP BY: only the states that occur. */
  function Conteos(rs: seq<Registro>): (m: map<Estado, nat>)
    ensures forall e :: e in m <==> CountEstado(rs, e) > 0
    ensures forall e :: e in m ==> m[e] == CountEstado(rs, e)
  {
    map e | e in AllEstados && CountEstado(rs, e) > 0 :: CountEstado(rs, e)
  }

  /** `conteos.get(e, 0)`. */
  function GetCount(m: map<Estado, nat>, e: Estado): (n: nat)
    ensures e !in m ==> n == 0
  {
    if e in m then m[e] else 0
  }

  /** Looking a state up in the grouped counts gives its count, zero when it does not occur. */
  lemma GetCountConteos(rs: seq<Registro>, e: Estado)
    ensures GetCount(Conteos(rs), e) == CountEstado(rs, e)
  {
  }

  // ---- tomar_siguiente -------------------------------------------------------

  function FirstInEstado(rs: seq<Registro>, e: Estado): (r: Option<nat>)
    ensures r.None? <==> forall i :: 0 <= i < |rs| ==> rs[i].estado != e
    ensures r.Some? ==> r.value < |rs| && rs[r.value].estado == e
    ensures r.Some? ==> forall i :: 0 <= i < r.value ==> rs[i].estado != e
  {
    if rs == [] then None
    else if rs[0].estado == e then Some(0)
    else match FirstInEstado(rs[1..], e)
      case None => None
      case Some(k) => Some(k + 1)
  }

  datatype Tomado = Tomado(registros: seq<Registro>, dto: Option<RegistroDTO>)

  /** The lowest-id row in `origen` moves to `procesando` with a fresh updated_at. */
  function Tomar(rs: seq<Registro>, origen: Estado, procesando: Estado, now: int): (t: Tomado)
    ensures SameIds(rs, t.registros)
  {
    match FirstInEstado(rs, origen)
    case None => Tomado(rs, None)
    case Some(i) =>
      var r := rs[i];
      Tomado(rs[i := r.(estado := procesando, updatedAt := now)], Some(RegistroDTO(r.id, r.dni, r.loteId, r.retryCount)))
  }

  /**
   * The claim describes the lowest-id row in `origen`, and it returns nothing, changing nothing,
   * exactly when no row is in `origen`.
   */
  lemma TomarPicksLowestId(rs: seq<Registro>, origen: Estado, procesando: Estado, now: int)
    requires IdsAscending(rs)
    ensures Tomar(rs, origen, procesando, now).dto.None? <==> CountEstado(rs, origen) == 0
    ensures Tomar(rs, origen, procesando, now).dto.None? ==> Tomar(rs, origen, procesando, now).registros == rs
    ensures var t := Tomar(rs, origen, procesando, now);
      t.dto.Some? ==>
        exists i :: (0 <= i < |rs| && rs[i].estado == origen
          && t.dto.value == RegistroDTO(rs[i].id, rs[i].dni, rs[i].loteId, rs[i].retryCount)
          && t.registros == rs[i := rs[i].(estado := procesando, updatedAt := now)]
          && forall j :: 0 <= j < |rs| && rs[j].estado == origen ==> rs[i].id <= rs[j].id)
  {
    CountEstadoZero(rs, origen);
    match FirstInEstado(rs, origen)
    case None =>
    case Some(i) =>
      forall j | 0 <= j < |rs| && rs[j].estado == origen ensures rs[i].id <= rs[j].id {
        assert i <= j;
      }
  }

  lemma {:induction false} CountEstadoZero(rs: seq<Registro>, e: Estado)
    ensures CountEstado(rs, e) == 0 <==> forall i :: 0 <= i < |rs| ==> rs[i].estado != e
  {
    if rs != [] {
      var init := rs[..|rs| - 1];
      CountEstadoZero(init, e);
      if CountEstado(rs, e) == 0 {
        forall i | 0 <= i < |rs| ensures rs[i].estado != e {
          if i < |init| {
            assert rs[i] == init[i];
          }
        }
      }
    }
  }

  lemma {:induction false} CountSingleton(rs: seq<Registro>, e: Estado)
    ensures CountIn(rs, {e}) == CountEstado(rs, e)
  {
    if rs != [] {
      CountSingleton(rs[..|rs| - 1], e);
    }
  }

  /** Two claims in a row never return the same row when the processing state differs from the source state. */
  lemma TomarTwiceDistinct(rs: seq<Registro>, origen: Estado, procesando: Estado, now1: int, now2: int)
    requires IdsAscending(rs) && origen != procesando
    ensures var t1 := Tomar(rs, origen, procesando, now1);
      var t2 := Tomar(t1.registros, origen, procesando, now2);
      t1.dto.Some? && t2.dto.Some? ==> t1.dto.value.id != t2.dto.value.id
  {
    var t1 := Tomar(rs, origen, procesando, now1);
    if t1.dto.Some? && Tomar(t1.registros, origen, procesando, now2).dto.Some? {
      var i := FirstInEstado(rs, origen).value;
      var j := FirstInEstado(t1.registros, origen).value;
      assert t1.registros[i].estado == procesando;
      assert i != j;
    }
  }

  // ---- actualizar_resultado --------------------------------------------------

  function IndexOfId(rs: seq<Registro>, id: nat): (r: Option<nat>)
    ensures r.None? <==> forall i :: 0 <= i < |rs| ==> rs[i].id != id
    ensures r.Some? ==> r.value < |rs| && rs[r.value].id == id
  {
    if rs == [] then None
    else if rs[0].id == id then Some(0)
    else match IndexOfId(rs[1..], id)
      case None => None
      case Some(k) => Some(k + 1)
  }

  /** `actualizar_resultado`: the state and updated_at always; each optional field only when given. */
  function Actualizar(rs: seq<Registro>, id: nat, estado: Estado, ps: Option<Json>, pm: Option<Json>,
                      err: Option<string>, now: int): (r: seq<Registro>)
    ensures SameIds(rs, r)
  {
    match IndexOfId(rs, id)
    case None => rs
    case Some(i) =>
      var reg := rs[i];
      rs[i := reg.(estado := estado,
                   updatedAt := now,
                   payloadSunedu := if ps.Some? then ps else reg.payloadSunedu,
                   payloadMinedu := if pm.Some? then pm else reg.payloadMinedu,
                   errorMsg := if err.Some? then err else reg.errorMsg)]
  }

  /**
   * An unknown id changes nothing; otherwise only that row changes, and a field given as None
   * keeps its value.
   */
  lemma ActualizarEffect(rs: seq<Registro>, id: nat, estado: Estado, ps: Option<Json>, pm: Option<Json>,
                         err: Option<string>, now: int)
    requires IdsAscending(rs)
    ensures (forall i :: 0 <= i < |rs| ==> rs[i].id != id) ==> Actualizar(rs, id, estado, ps, pm, err, now) == rs
    ensures var r := Actualizar(rs, id, estado, ps, pm, err, now);
      forall i :: 0 <= i < |rs| && rs[i].id != id ==> r[i] == rs[i]
    ensures var r := Actualizar(rs, id, estado, ps, pm, err, now);
      forall i :: 0 <= i < |rs| && rs[i].id == id ==>
        && r[i].estado == estado && r[i].updatedAt == now
        && r[i].dni == rs[i].dni && r[i].loteId == rs[i].loteId && r[i].retryCount == rs[i].retryCount
        && r[i].payloadSunedu == (if ps.Some? then ps else rs[i].payloadSunedu)
        && r[i].payloadMinedu == (if pm.Some? then pm else rs[i].payloadMinedu)
        && r[i].errorMsg == (if err.Some? then err else rs[i].errorMsg)
  {
    match IndexOfId(rs, id)
    case None =>
    case Some(i) =>
      assert forall j :: 0 <= j < |rs| && rs[j].id == id ==> j == i;
  }

  // ---- reintentar_no_encontrados / recuperar_procesando -------------------------

  /** The effect of `reintentar_no_encontrados` on one row: both payloads and the error are cleared. */
  function Reintentar(r: Registro, now: int): Registro
  {
    if r.estado in RetryStates then
      r.(estado := PENDIENTE, retryCount := r.retryCount + 1, errorMsg := None,
         payloadSunedu := None, payloadMinedu := None, updatedAt := now)
    else r
  }

  function ReintentarTodos(rs: seq<Registro>, now: int): (r: seq<Registro>)
    ensures |r| == |rs|
  {
    seq(|rs|, i requires 0 <= i < |rs| => Reintentar(rs[i], now))
  }

  /**
   * After a retry no row is in a retry state, PENDIENTE gained exactly the retried rows, the
   * retried rows carry no payload or error, and every other row is untouched.
   */
  lemma {:induction false} ReintentarTodosEffect(rs: seq<Registro>, now: int)
    ensures var r := ReintentarTodos(rs, now);
      && CountIn(r, RetryStates) == 0
      && CountEstado(r, PENDIENTE) == CountEstado(rs, PENDIENTE) + CountIn(rs, RetryStates)
      && (forall i :: 0 <= i < |rs| && rs[i].estado !in RetryStates ==> r[i] == rs[i])
      && (forall i :: 0 <= i < |rs| && rs[i].estado in RetryStates ==>
            r[i].payloadSunedu.None? && r[i].payloadMinedu.None? && r[i].errorMsg.None?
            && r[i].retryCount == rs[i].retryCount + 1)
      && SameIds(rs, r)
  {
    if rs != [] {
      var init := rs[..|rs| - 1];
      ReintentarTodosEffect(init, now);
      assert ReintentarTodos(rs, now)[..|rs| - 1] == ReintentarTodos(init, now);
    }
  }

  /** The effect of `recuperar_procesando` on one row. */
  function Recuperar(r: Registro, now: int): Registro
  {
    if r.estado == PROCESANDO_SUNEDU then r.(estado := PENDIENTE, updatedAt := now)
    else if r.estado == PROCESANDO_MINEDU then r.(estado := CHECK_MINEDU, updatedAt := now)
    else r
  }

  function Moved(r: Registro, origen: Estado, destino: Estado, now: int): Registro
  {
    if r.estado == origen then r.(estado := destino, updatedAt := now) else r
  }

  function MovedAll(rs: seq<Registro>, origen: Estado, destino: Estado, now: int): (r: seq<Registro>)
    ensures |r| == |rs|
  {
    seq(|rs|, i requires 0 <= i < |rs| => Moved(rs[i], origen, destino, now))
  }

  /** Moving rows out of one state leaves the count of an unrelated state alone. */
  lemma {:induction false} CountMovedKeeps(rs: seq<Registro>, origen: Estado, destino: Estado, e: Estado, now: int)
    requires e != origen && e != destino
    ensures CountEstado(MovedAll(rs, origen, destino, now), e) == CountEstado(rs, e)
  {
    if rs != [] {
      CountMovedKeeps(rs[..|rs| - 1], origen, destino, e, now);
      assert MovedAll(rs, origen, destino, now)[..|rs| - 1] == MovedAll(rs[..|rs| - 1], origen, destino, now);
    }
  }

  function RecuperarTodos(rs: seq<Registro>, now: int): (r: seq<Registro>)
    ensures |r| == |rs|
  {
    seq(|rs|, i requires 0 <= i < |rs| => Recuperar(rs[i], now))
  }

  /** Recovery empties both processing states into their source state. */
  lemma {:induction false} RecuperarTodosCounts(rs: seq<Registro>, now: int)
    ensures CountIn(RecuperarTodos(rs, now), Procesando) == 0
    ensures CountEstado(RecuperarTodos(rs, now), PENDIENTE) == CountEstado(rs, PENDIENTE) + CountEstado(rs, PROCESANDO_SUNEDU)
    ensures CountEstado(RecuperarTodos(rs, now), CHECK_MINEDU) == CountEstado(rs, CHECK_MINEDU) + CountEstado(rs, PROCESANDO_MINEDU)
  {
    if rs != [] {
      var init := rs[..|rs| - 1];
      RecuperarTodosCounts(init, now);
      var r := RecuperarTodos(rs, now);
      var ri := RecuperarTodos(init, now);
      assert r[..|rs| - 1] == ri;
      var x := rs[|rs| - 1];
      var y := r[|rs| - 1];
      assert y == Recuperar(x, now);
      assert y.estado !in Procesando;
      assert CountIn(r, Procesando) == CountIn(ri, Procesando);
      assert CountEstado(r, PENDIENTE) == CountEstado(ri, PENDIENTE) + (if y.estado == PENDIENTE then 1 else 0);
      assert CountEstado(r, CHECK_MINEDU) == CountEstado(ri, CHECK_MINEDU) + (if y.estado == CHECK_MINEDU then 1 else 0);
    }
  }

  /** Recovery empties both processing states into their source state and touches nothing else. */
  lemma RecuperarTodosEffect(rs: seq<Registro>, now: int)
    ensures CountIn(RecuperarTodos(rs, now), Procesando) == 0
    ensures CountEstado(RecuperarTodos(rs, now), PENDIENTE) == CountEstado(rs, PENDIENTE) + CountEstado(rs, PROCESANDO_SUNEDU)
    ensures CountEstado(RecuperarTodos(rs, now), CHECK_MINEDU) == CountEstado(rs, CHECK_MINEDU) + CountEstado(rs, PROCESANDO_MINEDU)
    ensures forall i :: 0 <= i < |rs| && rs[i].estado !in Procesando ==> RecuperarTodos(rs, now)[i] == rs[i]
    ensures SameIds(rs, RecuperarTodos(rs, now))
  {
    RecuperarTodosCounts(rs, now);
    RecuperarTodosFrame(rs, now);
  }

  lemma RecuperarTodosFrame(rs: seq<Registro>, now: int)
    ensures forall i :: 0 <= i < |rs| && rs[i].estado !in Procesando ==> RecuperarTodos(rs, now)[i] == rs[i]
    ensures SameIds(rs, RecuperarTodos(rs, now))
  {
    var r := RecuperarTodos(rs, now);
    forall i | 0 <= i < |rs|
      ensures r[i].id == rs[i].id
      ensures rs[i].estado !in Procesando ==> r[i] == rs[i]
    {
      assert r[i] == Recuperar(rs[i], now);
    }
  }

  // ---- obtener_registros --------------------------------------------------------

  /** `if estado:` and `if lote_id:` — an empty string or a zero id applies no filter. */
  predicate Passes(r: Registro, estado: Option<string>, loteId: Option<int>)
  {
    (estado.None? || estado.value == "" || Name(r.estado) == estado.value)
    && (loteId.None? || loteId.value == 0 || r.loteId == loteId.value)
  }

  function Filtrar(rs: seq<Registro>, estado: Option<string>, loteId: Option<int>): (r: seq<Registro>)
    ensures |r| <= |rs|
    ensures forall k :: 0 <= k < |r| ==> r[k] in rs && Passes(r[k], estado, loteId)
  {
    if rs == [] then []
    else
      var init := Filtrar(rs[..|rs| - 1], estado, loteId);
      if Passes(rs[|rs| - 1], estado, loteId) then init + [rs[|rs| - 1]] else init
  }

  /** Every row that passes the filters appears in the result. */
  lemma {:induction false} FiltrarComplete(rs: seq<Registro>, estado: Option<string>, loteId: Option<int>, x: Registro)
    requires x in rs && Passes(x, estado, loteId)
    ensures x in Filtrar(rs, estado, loteId)
  {
    var init := rs[..|rs| - 1];
    assert rs == init + [rs[|rs| - 1]];
    if x != rs[|rs| - 1] {
      FiltrarComplete(init, estado, loteId, x);
    }
  }

  /** `.offset(offset).limit(limit)`. */
  function Pagina(s: seq<Registro>, limit: nat, offset: nat): (r: seq<Registro>)
    ensures |r| <= limit
    ensures offset >= |s| ==> r == []
    ensures offset < |s| ==> |r| == if offset + limit <= |s| then limit else |s| - offset
    ensures offset < |s| ==> forall k :: 0 <= k < |r| ==> r[k] == s[offset + k]
  {
    var start := if offset <= |s| then offset else |s|;
    var end := if offset + limit <= |s| then offset + limit else |s|;
    s[start..end]
  }

  /** A page is a run of consecutive rows, so it keeps their id order. */
  lemma PaginaKeepsOrder(s: seq<Registro>, limit: nat, offset: nat)
    requires IdsAscending(s)
    ensures IdsAscending(Pagina(s, limit, offset))
  {
    var r := Pagina(s, limit, offset);
    if offset < |s| {
      assert forall k :: 0 <= k < |r| ==> r[k] == s[offset + k];
    }
  }

  lemma FiltrarKeepsOrder(rs: seq<Registro>, estado: Option<string>, loteId: Option<int>)
    requires IdsAscending(rs)
    ensures IdsAscending(Filtrar(rs, estado, loteId))
  {
    if rs != [] {
      var init := rs[..|rs| - 1];
      var x := rs[|rs| - 1];
      assert forall i :: 0 <= i < |init| ==> init[i] == rs[i];
      FiltrarKeepsOrder(init, estado, loteId);
      var f := Filtrar(init, estado, loteId);
      forall k | 0 <= k < |f| ensures f[k].id < x.id {
        var j :| 0 <= j < |init| && init[j] == f[k];
        assert rs[j].id < x.id;
      }
      AppendAscending(f, x);
    }
  }

  lemma AppendAscending(f: seq<Registro>, x: Registro)
    requires IdsAscending(f) && forall k :: 0 <= k < |f| ==> f[k].id < x.id
    ensures IdsAscending(f + [x])
  {
  }

  /** The SUNEDU columns of a listed row. */
  datatype SuneduCols = SuneduCols(nombres: Json, grado: Json, institucion: Json, fechaDiploma: Json)

  /** The MINEDU columns of a listed row. */
  datatype MineduCols = MineduCols(nombres: Json, titulo: Json, institucion: Json, fecha: Json)

  /** The dict `obtener_registros` builds for one row. */
  datatype Fila = Fila(
    id: nat, loteId: nat, dni: string, estado: string, retryCount: nat, errorMsg: Option<string>,
    createdAt: int, updatedAt: int, sunedu: Option<SuneduCols>, minedu: Option<MineduCols>)

  function SuneduColsOf(fields: map<string, Json>): SuneduCols
  {
    SuneduCols(GetStr(fields, "nombres"), GetStr(fields, "grado_o_titulo"),
               GetStr(fields, "institucion"), GetStr(fields, "fecha_diploma"))
  }

  function MineduColsOf(fields: map<string, Json>): MineduCols
  {
    MineduCols(GetStr(fields, "nombre_completo"), GetStr(fields, "titulo"),
               GetStr(fields, "institucion"), GetStr(fields, "fecha_expedicion"))
  }

  function BaseFila(r: Registro): Fila
  {
    Fila(r.id, r.loteId, r.dni, Name(r.estado), r.retryCount, r.errorMsg, r.createdAt, r.updatedAt, None, None)
  }

  /**
   * The module-level `obtener_registros` expansion: a truthy payload is read with `.get`, which
   * raises AttributeError when it is not a dict.
   */
  function FilaSinAplanar(r: Registro): (res: Result<Fila, string>)
    ensures res.Success? ==> res.value.id == r.id && res.value.dni == r.dni && res.value.estado == Name(r.estado)
  {
    var ps := r.payloadSunedu;
    var pm := r.payloadMinedu;
    if ps.Some? && Truthy(ps.value) && !ps.value.JObj? then Failure(NoGetMessage(ps.value))
    else
      var sunedu := if ps.Some? && Truthy(ps.value) then Some(SuneduColsOf(ps.value.fields)) else None;
      if pm.Some? && Truthy(pm.value) && !pm.value.JObj? then Failure(NoGetMessage(pm.value))
      else
        var minedu := if pm.Some? && Truthy(pm.value) then Some(MineduColsOf(pm.value.fields)) else None;
        Success(BaseFila(r).(sunedu := sunedu, minedu := minedu))
  }

  /** The rows of a page expanded in order; the first row that fails stops the listing with its error. */
  function Expandir(page: seq<Registro>): (r: Result<seq<Fila>, string>)
    ensures r.Success? ==> |r.value| == |page|
    decreases |page|
  {
    if page == [] then Success([])
    else match Expandir(page[..|page| - 1])
      case Failure(e) => Failure(e)
      case Success(fs) =>
        match FilaSinAplanar(page[|page| - 1])
        case Failure(e) => Failure(e)
        case Success(f) => Success(fs + [f])
  }

  /** Once a prefix of the page fails, the whole page fails with the same error. */
  lemma {:induction false} ExpandirPrefixFails(page: seq<Registro>, i: nat)
    requires i <= |page| && Expandir(page[..i]).Failure?
    ensures Expandir(page) == Expandir(page[..i])
    decreases |page|
  {
    if i < |page| {
      var init := page[..|page| - 1];
      assert init[..i] == page[..i];
      ExpandirPrefixFails(init, i);
    } else {
      assert page[..i] == page;
    }
  }

  /** One more row: it either extends the listing or ends the whole page with its error. */
  lemma ExpandirStep(page: seq<Registro>, i: nat, fs: seq<Fila>)
    requires i < |page| && Expandir(page[..i]) == Success(fs)
    ensures FilaSinAplanar(page[i]).Success? ==> Expandir(page[..i + 1]) == Success(fs + [FilaSinAplanar(page[i]).value])
    ensures FilaSinAplanar(page[i]).Failure? ==> Expandir(page) == Failure(FilaSinAplanar(page[i]).error)
  {
    assert page[..i + 1][..i] == page[..i];
    if FilaSinAplanar(page[i]).Failure? {
      ExpandirPrefixFails(page, i + 1);
    }
  }

  /** The listing succeeds exactly when every row expands, and then holds each row's expansion in order. */
  lemma {:induction false} ExpandirSuccess(page: seq<Registro>)
    ensures Expandir(page).Success? <==> forall k :: 0 <= k < |page| ==> FilaSinAplanar(page[k]).Success?
    ensures Expandir(page).Success? ==>
      forall k :: 0 <= k < |page| ==> FilaSinAplanar(page[k]) == Success(Expandir(page).value[k])
    decreases |page|
  {
    if page != [] {
      var init := page[..|page| - 1];
      ExpandirSuccess(init);
      assert forall k :: 0 <= k < |init| ==> init[k] == page[k];
    }
  }

  /** A failing listing fails with the error of the first row that does not expand. */
  lemma {:induction false} ExpandirFailure(page: seq<Registro>)
    ensures Expandir(page).Failure? ==>
      exists k :: 0 <= k < |page| && FilaSinAplanar(page[k]) == Failure(Expandir(page).error)
        && forall m :: 0 <= m < k ==> FilaSinAplanar(page[m]).Success?
    decreases |page|
  {
    if page != [] {
      var init := page[..|page| - 1];
      ExpandirFailure(init);
      ExpandirSuccess(init);
      assert forall k :: 0 <= k < |init| ==> init[k] == page[k];
      if Expandir(init).Success? && Expandir(page).Failure? {
        var k := |page| - 1;
        assert FilaSinAplanar(page[k]) == Failure(Expandir(page).error);
        assert forall m :: 0 <= m < k ==> FilaSinAplanar(page[m]).Success?;
      }
    }
  }

  /** `DniRepository.obtener_registros`' payload reading: a non-empty list stands for its first element, and only a dict is read. */
  function Aplanar(p: Option<Json>): Option<map<string, Json>>
  {
    if p.None? || !Truthy(p.value) then None
    else
      var q := if p.value.JList? && |p.value.items| > 0 then p.value.items[0] else p.value;
      if q.JObj? then Some(q.fields) else None
  }

  function FilaAplanada(r: Registro): (f: Fila)
    ensures f.id == r.id && f.dni == r.dni && f.estado == Name(r.estado)
  {
    var ps := Aplanar(r.payloadSunedu);
    var pm := Aplanar(r.payloadMinedu);
    BaseFila(r).(sunedu := if ps.Some? then Some(SuneduColsOf(ps.value)) else None,
                 minedu := if pm.Some? then Some(MineduColsOf(pm.value)) else None)
  }

  /** A payload that is absent, falsy or a dict. */
  predicate DictOrEmpty(p: Option<Json>)
  {
    p.None? || !Truthy(p.value) || p.value.JObj?
  }

  /**
   * The two readers agree on rows whose payloads are dicts (or empty); the flattening reader also
   * reads a one-element list of a dict exactly as that dict, where the other one fails.
   */
  lemma FlatteningAgrees(r: Registro, fields: map<string, Json>)
    ensures DictOrEmpty(r.payloadSunedu) && DictOrEmpty(r.payloadMinedu) ==>
      FilaSinAplanar(r) == Success(FilaAplanada(r))
    ensures fields != map[] ==>
      var wrapped := r.(payloadSunedu := Some(JList([JObj(fields)])));
      var plain := r.(payloadSunedu := Some(JObj(fields)));
      FilaAplanada(wrapped) == FilaAplanada(plain) && FilaSinAplanar(wrapped).Failure?
  {
  }

  class Store {
    var registros: seq<Registro>
    var lotes: seq<Lote>

    ghost predicate Valid()
      reads this
    {
      && IdsAscending(registros) && (forall i :: 0 <= i < |registros| ==> registros[i].id >= 1)
      && LoteIdsAscending(lotes) && (forall i :: 0 <= i < |lotes| ==> lotes[i].id >= 1)
    }

    constructor ()
      ensures Valid() && registros == [] && lotes == []
    {
      registros := [];
      lotes := [];
    }

    /** `crear_lote`. */
    method CrearLote(nombreArchivo: string, dnis: seq<string>, now: int) returns (lote: Lote)
      requires Valid()
      modifies this
      ensures Valid()
      ensures lote == Lote(NextLoteId(old(lotes)), nombreArchivo, |UniqueDnis(dnis)|, now)
      ensures lotes == old(lotes) + [lote]
      ensures registros == old(registros) + NuevosRegistros(lote.id, UniqueDnis(dnis), NextRegistroId(old(registros)), now)
    {
      var unicos := UnicosDe(dnis);
      lote := Lote(NextLoteId(lotes), nombreArchivo, |unicos|, now);
      LoteAppendAscending(lotes, lote);
      lotes := lotes + [lote];
      var nuevos := NuevosDe(lote.id, unicos, NextRegistroId(registros), now);
      NuevosAscending(registros, lote.id, unicos, now);
      registros := registros + nuevos;
    }

    /** The `session.add` loop of `crear_lote`: one PENDIENTE row per unique DNI, numbered from `firstId`. */
    static method NuevosDe(loteId: nat, unicos: seq<string>, firstId: nat, now: int) returns (nuevos: seq<Registro>)
      ensures nuevos == NuevosRegistros(loteId, unicos, firstId, now)
    {
      nuevos := [];
      var j := 0;
      while j < |unicos|
        invariant 0 <= j <= |unicos|
        invariant nuevos == NuevosRegistros(loteId, unicos[..j], firstId, now)
      {
        NuevosSnoc(loteId, unicos, j, firstId, now);
        nuevos := nuevos + [Registro(firstId + j, loteId, unicos[j], PENDIENTE, 0, None, None, None, now, now)];
        j := j + 1;
      }
      assert unicos[..j] == unicos;
    }

    /** The `vistos`/`dnis_unicos` loop of `crear_lote`. */
    static method UnicosDe(dnis: seq<string>) returns (unicos: seq<string>)
      ensures unicos == UniqueDnis(dnis)
    {
      var vistos: set<string> := {};
      unicos := [];
      var i := 0;
      while i < |dnis|
        invariant 0 <= i <= |dnis|
        invariant unicos == UniqueDnis(dnis[..i])
        invariant forall d :: d in vistos <==> d in unicos
      {
        UniqueDnisStep(dnis, i);
        var clean := Strip(dnis[i]);
        if clean != "" && clean !in vistos {
          vistos := vistos + {clean};
          unicos := unicos + [clean];
        }
        i := i + 1;
      }
      assert dnis[..i] == dnis;
    }

    /** `tomar_siguiente`; the None it returns on a database error is not modelled. */
    method TomarSiguiente(origen: Estado, procesando: Estado, now: int) returns (dto: Option<RegistroDTO>)
      requires Valid()
      modifies this
      ensures Valid()
      ensures Tomado(registros, dto) == Tomar(old(registros), origen, procesando, now)
      ensures lotes == old(lotes)
    {
      var t := Tomar(registros, origen, procesando, now);
      registros := t.registros;
      dto := t.dto;
    }

    /** `actualizar_resultado`. */
    method ActualizarResultado(id: nat, estado: Estado, ps: Option<Json>, pm: Option<Json>, err: Option<string>, now: int)
      requires Valid()
      modifies this
      ensures Valid()
      ensures registros == Actualizar(old(registros), id, estado, ps, pm, err, now)
      ensures lotes == old(lotes)
    {
      registros := Actualizar(registros, id, estado, ps, pm, err, now);
    }

    /** `obtener_conteos`: the reported counts are positive and add up to `obtener_total`. */
    function ObtenerConteos(): (m: map<Estado, nat>)
      reads this
      ensures forall e :: e in m ==> m[e] > 0
      ensures GetCount(m, PENDIENTE) + GetCount(m, PROCESANDO_SUNEDU) + GetCount(m, FOUND_SUNEDU)
            + GetCount(m, CHECK_MINEDU) + GetCount(m, PROCESANDO_MINEDU) + GetCount(m, FOUND_MINEDU)
            + GetCount(m, NOT_FOUND) + GetCount(m, ERROR_SUNEDU) + GetCount(m, ERROR_MINEDU) == ObtenerTotal()
    {
      GetCountConteos(registros, PENDIENTE);
      GetCountConteos(registros, PROCESANDO_SUNEDU);
      GetCountConteos(registros, FOUND_SUNEDU);
      GetCountConteos(registros, CHECK_MINEDU);
      GetCountConteos(registros, PROCESANDO_MINEDU);
      GetCountConteos(registros, FOUND_MINEDU);
      GetCountConteos(registros, NOT_FOUND);
      GetCountConteos(registros, ERROR_SUNEDU);
      GetCountConteos(registros, ERROR_MINEDU);
      CountsSumToTotal(registros);
      Conteos(registros)
    }

    function ObtenerTotal(): (n: nat)
      reads this
      ensures n == |registros|
    {
      |registros|
    }

    /** `hay_trabajo_pendiente`. */
    function HayTrabajoPendiente(): (b: bool)
      reads this
      ensures b <==> exists i :: 0 <= i < |registros| && registros[i].estado in PendingWork
    {
      CountInPositive(registros, PendingWork);
      CountIn(registros, PendingWork) > 0
    }

    /** `contar_retryables`. */
    function ContarRetryables(): (n: nat)
      reads this
      ensures n == CountEstado(registros, NOT_FOUND) + CountEstado(registros, ERROR_SUNEDU) + CountEstado(registros, ERROR_MINEDU)
      ensures n > 0 <==> exists i :: 0 <= i < |registros| && registros[i].estado in RetryStates
    {
      CountRetryStates(registros);
      CountInPositive(registros, RetryStates);
      CountIn(registros, RetryStates)
    }

    /** `reintentar_no_encontrados`: returns `reencolados`. */
    method ReintentarNoEncontrados(now: int) returns (reencolados: nat)
      requires Valid()
      modifies this
      ensures Valid()
      ensures registros == ReintentarTodos(old(registros), now)
      ensures reencolados == CountIn(old(registros), RetryStates)
      ensures lotes == old(lotes)
    {
      var rs;
      rs, reencolados := ReintentarFilas(registros, now);
      ReintentarTodosEffect(registros, now);
      assert forall k :: 0 <= k < |rs| ==> rs[k].id == registros[k].id;
      registros := rs;
    }

    /** The row loop of `reintentar_no_encontrados`: every retry-state row goes back to PENDIENTE. */
    static method ReintentarFilas(rs: seq<Registro>, now: int) returns (out: seq<Registro>, n: nat)
      ensures out == ReintentarTodos(rs, now)
      ensures n == CountIn(rs, RetryStates)
    {
      out := rs;
      n := 0;
      var i := 0;
      while i < |out|
        invariant 0 <= i <= |out| == |rs|
        invariant forall k :: 0 <= k < |out| ==> out[k] == if k < i then Reintentar(rs[k], now) else rs[k]
        invariant n == CountIn(rs[..i], RetryStates)
      {
        CountInPrefix(rs, i, RetryStates);
        var reg := out[i];
        if reg.estado in RetryStates {
          reg := reg.(estado := PENDIENTE, retryCount := reg.retryCount + 1, errorMsg := None,
                      payloadSunedu := None, payloadMinedu := None, updatedAt := now);
          out := out[i := reg];
          n := n + 1;
        }
        i := i + 1;
      }
      assert rs[..i] == rs;
    }

    /** `recuperar_procesando`: returns the two counts `sunedu_recuperados` and `minedu_recuperados`. */
    method RecuperarProcesando(now: int) returns (sunedu: nat, minedu: nat)
      requires Valid()
      modifies this
      ensures Valid()
      ensures registros == RecuperarTodos(old(registros), now)
      ensures sunedu == CountEstado(old(registros), PROCESANDO_SUNEDU)
      ensures minedu == CountEstado(old(registros), PROCESANDO_MINEDU)
      ensures lotes == old(lotes)
    {
      ghost var orig := registros;
      var rs, n := MoverEstado(registros, PROCESANDO_SUNEDU, PENDIENTE, now);
      sunedu := n;
      rs, n := MoverEstado(rs, PROCESANDO_MINEDU, CHECK_MINEDU, now);
      minedu := n;
      assert forall k :: 0 <= k < |orig| ==> rs[k] == Recuperar(orig[k], now);
      RecuperarTodosEffect(orig, now);
      CountMovedKeeps(orig, PROCESANDO_SUNEDU, PENDIENTE, PROCESANDO_MINEDU, now);
      registros := rs;
    }

    /** One of the two bulk UPDATEs of `recuperar_procesando`: every row in `origen` moves to `destino`. */
    static method MoverEstado(rs: seq<Registro>, origen: Estado, destino: Estado, now: int)
      returns (out: seq<Registro>, n: nat)
      ensures out == MovedAll(rs, origen, destino, now)
      ensures n == CountEstado(rs, origen)
    {
      out := rs;
      n := 0;
      var i := 0;
      while i < |out|
        invariant 0 <= i <= |out| == |rs|
        invariant forall k :: 0 <= k < |out| ==> out[k] == if k < i then Moved(rs[k], origen, destino, now) else rs[k]
        invariant n == CountEstado(rs[..i], origen)
      {
        CountPrefix(rs, i, origen);
        var r := out[i];
        if r.estado == origen {
          out := out[i := r.(estado := destino, updatedAt := now)];
          n := n + 1;
        }
        i := i + 1;
      }
      assert rs[..i] == rs;
    }

    /** The module-level `obtener_registros`: the listed page expanded row by row, stopping at the first AttributeError. */
    method ObtenerRegistros(estado: Option<string>, loteId: Option<int>, limit: nat, offset: nat)
      returns (res: Result<seq<Fila>, string>)
      ensures res == Expandir(Pagina(Filtrar(registros, estado, loteId), limit, offset))
    {
      var page := Pagina(Filtrar(registros, estado, loteId), limit, offset);
      var resultados: seq<Fila> := [];
      var i := 0;
      while i < |page|
        invariant 0 <= i <= |page|
        invariant Expandir(page[..i]) == Success(resultados)
      {
        ExpandirStep(page, i, resultados);
        var d := FilaSinAplanar(page[i]);
        if d.Failure? {
          return Failure(d.error);
        }
        resultados := resultados + [d.value];
        i := i + 1;
      }
      assert page[..i] == page;
      res := Success(resultados);
    }

    /** `DniRepository.obtener_registros`: the listed rows in id order, payloads flattened. */
    method ObtenerRegistrosAplanados(estado: Option<string>, loteId: Option<int>, limit: nat, offset: nat)
      returns (resultados: seq<Fila>)
      requires Valid()
      ensures var page := Pagina(Filtrar(registros, estado, loteId), limit, offset);
        |resultados| == |page| && forall k :: 0 <= k < |page| ==> resultados[k] == FilaAplanada(page[k])
      ensures |resultados| <= limit
      ensures forall k, l :: 0 <= k < l < |resultados| ==> resultados[k].id < resultados[l].id
    {
      FiltrarKeepsOrder(registros, estado, loteId);
      var filtrados := Filtrar(registros, estado, loteId);
      PaginaKeepsOrder(filtrados, limit, offset);
      var page := Pagina(filtrados, limit, offset);
      resultados := AplanarFilas(page);
      forall k, l | 0 <= k < l < |resultados| ensures resultados[k].id < resultados[l].id {
        assert resultados[k].id == page[k].id && resultados[l].id == page[l].id;
      }
    }

    /** The result-building loop of `obtener_registros`: each row flattened, in order. */
    static method AplanarFilas(page: seq<Registro>) returns (resultados: seq<Fila>)
      ensures |resultados| == |page|
      ensures forall k :: 0 <= k < |page| ==> resultados[k] == FilaAplanada(page[k])
    {
      resultados := [];
      var i := 0;
      while i < |page|
        invariant 0 <= i <= |page| && |resultados| == i
        invariant forall k :: 0 <= k < i ==> resultados[k] == FilaAplanada(page[k])
      {
        var fila := FilaAplanada(page[i]);
        resultados := resultados + [fila];
        i := i + 1;
      }
    }

    /** `limpiar_todo`: returns `registros_eliminados` and `lotes_eliminados`. */
    method LimpiarTodo() returns (registrosEliminados: nat, lotesEliminados: nat)
      modifies this
      ensures Valid()
      ensures registros == [] && lotes == []
      ensures registrosEliminados == |old(registros)| && lotesEliminados == |old(lotes)|
    {
      registrosEliminados := |registros|;
      lotesEliminados := |lotes|;
      registros := [];
      lotes := [];
    }
  }
}
