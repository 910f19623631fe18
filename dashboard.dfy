/**
 * The dashboard state of the React front end: the `reducer` behind `useReducer`, and the
 * provider that numbers toasts with a counter. Server values the dashboard displays but never
 * inspects are kept as decoded JSON.
 */
module Dashboard {
  import opened Wrappers
  import opened Json

  /** `MAX_LOGS`. */
  const MaxLogs: nat := 40

  datatype LogEntry = LogEntry(time: string, msg: string, color: string)

  datatype Toast = Toast(id: int, msg: string, kind: string)

  /**
   * The reducer's state. `invalidDnis` is absent from the initial state as written, hence
   * optional: none stands for `undefined`.
   */
  datatype State = State(
    total: Json, terminados: Json, enProceso: Json, progresoPct: Json, conteos: Json,
    pipeline: Json, retry: Json, workers: Json,
    records: Json, logs: seq<LogEntry>,
    currentTab: string, selectedFile: Option<string>, loading: bool,
    toasts: seq<Toast>, invalidDnis: Option<seq<string>>)

  /** The keys of a status response; a missing key leaves the state's field alone. */
  datatype StatusPatch = StatusPatch(
    total: Option<Json>, terminados: Option<Json>, enProceso: Option<Json>, progresoPct: Option<Json>,
    conteos: Option<Json>, pipeline: Option<Json>, retry: Option<Json>, workers: Option<Json>)

  /** The actions the components dispatch; `Unknown` is any other `type`. */
  datatype Action =
    | SetStatus(patch: StatusPatch)
    | SetWorkers(workersValue: Json)
    | SetRecords(recordsValue: Json)
    | SetTab(tab: string)
    | SetFile(file: Option<string>)
    | SetLoading(flag: bool)
    | AddLog(entry: LogEntry)
    | ClearLogs
    | AddToast(toast: Toast)
    | RemoveToast(toastId: int)
    | SetInvalidDnis(dnis: seq<string>)
    | Unknown(kind: string)

  /** `initialState`, with the first log line stamped `time`. */
  function Initial(time: string): (s: State)
    ensures |s.logs| == 1 && s.toasts == [] && s.invalidDnis.None?
  {
    State(
      JInt(0), JInt(0), JInt(0), JInt(0), JObj(map[]),
      JObj(map["sunedu" := JObj(map[]), "minedu" := JObj(map[])]),
      JObj(map["retryables" := JInt(0), "pipeline_idle" := JBool(false), "can_retry" := JBool(false)]),
      JObj(map["sunedu" := JObj(map["running" := JBool(false)]), "minedu" := JObj(map["running" := JBool(false)])]),
      JList([]), [LogEntry(time, "Initializing dashboard...", "text-slate-500")],
      "all", None, false, [], None)
  }

  function Merge(old_: Json, patch: Option<Json>): Json
  {
    if patch.Some? then patch.value else old_
  }

  /** `{ ...state, ...payload }` over the status keys. */
  function Patched(s: State, p: StatusPatch): (r: State)
    ensures r.logs == s.logs && r.toasts == s.toasts && r.records == s.records
    ensures r.currentTab == s.currentTab && r.selectedFile == s.selectedFile && r.loading == s.loading
    ensures r.invalidDnis == s.invalidDnis
    ensures p.total.Some? ==> r.total == p.total.value
    ensures p.total.None? ==> r.total == s.total
    ensures p.terminados.Some? ==> r.terminados == p.terminados.value
    ensures p.terminados.None? ==> r.terminados == s.terminados
    ensures p.enProceso.Some? ==> r.enProceso == p.enProceso.value
    ensures p.enProceso.None? ==> r.enProceso == s.enProceso
    ensures p.progresoPct.Some? ==> r.progresoPct == p.progresoPct.value
    ensures p.progresoPct.None? ==> r.progresoPct == s.progresoPct
    ensures p.conteos.Some? ==> r.conteos == p.conteos.value
    ensures p.conteos.None? ==> r.conteos == s.conteos
    ensures p.pipeline.Some? ==> r.pipeline == p.pipeline.value
    ensures p.pipeline.None? ==> r.pipeline == s.pipeline
    ensures p.retry.Some? ==> r.retry == p.retry.value
    ensures p.retry.None? ==> r.retry == s.retry
    ensures p.workers.Some? ==> r.workers == p.workers.value
    ensures p.workers.None? ==> r.workers == s.workers
  {
    s.(total := Merge(s.total, p.total), terminados := Merge(s.terminados, p.terminados),
       enProceso := Merge(s.enProceso, p.enProceso), progresoPct := Merge(s.progresoPct, p.progresoPct),
       conteos := Merge(s.conteos, p.conteos), pipeline := Merge(s.pipeline, p.pipeline),
       retry := Merge(s.retry, p.retry), workers := Merge(s.workers, p.workers))
  }

  /** `[...logs, entry]`, keeping only the last `MAX_LOGS` entries. */
  function AppendLog(logs: seq<LogEntry>, entry: LogEntry): (r: seq<LogEntry>)
    ensures |r| <= MaxLogs && |r| > 0 && r[|r| - 1] == entry
    ensures |logs| < MaxLogs ==> r == logs + [entry]
    ensures |logs| >= MaxLogs ==> |r| == MaxLogs && r == (logs + [entry])[|logs| + 1 - MaxLogs..]
  {
    var all := logs + [entry];
    if |all| > MaxLogs then all[|all| - MaxLogs..] else all
  }

  /** `toasts.filter(t => t.id !== id)`. */
  function WithoutToast(ts: seq<Toast>, id: int): (r: seq<Toast>)
    ensures |r| <= |ts|
  {
    if ts == [] then []
    else (if ts[0].id != id then [ts[0]] else []) + WithoutToast(ts[1..], id)
  }

  /** REMOVE_TOAST drops every toast with that id and keeps every other one. */
  lemma {:induction false} WithoutToastMembers(ts: seq<Toast>, id: int)
    ensures forall t :: t in WithoutToast(ts, id) <==> t in ts && t.id != id
    decreases |ts|
  {
    if ts != [] {
      WithoutToastMembers(ts[1..], id);
      assert ts == [ts[0]] + ts[1..];
    }
  }

  /** The reducer as written: a case for each action it knows, and the state back otherwise. */
  function Reduce(s: State, a: Action): State
  {
    match a
    case SetStatus(p) => Patched(s, p)
    case SetWorkers(w) => s.(workers := w)
    case SetRecords(rs) => s.(records := rs)
    case SetTab(t) => s.(currentTab := t)
    case SetFile(f) => s.(selectedFile := f)
    case SetLoading(b) => s.(loading := b)
    case AddLog(e) => s.(logs := AppendLog(s.logs, e))
    case ClearLogs => s.(logs := [])
    case AddToast(t) => s.(toasts := s.toasts + [t])
    case RemoveToast(id) => s.(toasts := WithoutToast(s.toasts, id))
    case SetInvalidDnis(_) => s
    case Unknown(_) => s
  }

  /** The state after a run of actions, first to last. */
  function ReduceAll(s: State, actions: seq<Action>): State
    decreases |actions|
  {
    if actions == [] then s else ReduceAll(Reduce(s, actions[0]), actions[1..])
  }

  /** ADD_LOG keeps the buffer bounded, with the new entry last and the older ones in order. */
  lemma AddLogBounded(s: State, e: LogEntry)
    ensures var r := Reduce(s, AddLog(e));
      && |r.logs| <= MaxLogs && r.logs[|r.logs| - 1] == e
      && (|s.logs| < MaxLogs ==> r.logs == s.logs + [e])
      && (|s.logs| >= MaxLogs ==> r.logs[..MaxLogs - 1] == s.logs[|s.logs| + 1 - MaxLogs..])
      && r.(logs := s.logs) == s
  {
    var all := s.logs + [e];
    if |s.logs| >= MaxLogs {
      assert all[|all| - MaxLogs..][..MaxLogs - 1] == s.logs[|s.logs| + 1 - MaxLogs..];
    }
  }

  /** No run of actions takes the log buffer over `MAX_LOGS` once it is within it. */
  lemma {:induction false} LogsStayBounded(s: State, actions: seq<Action>)
    requires |s.logs| <= MaxLogs
    ensures |ReduceAll(s, actions).logs| <= MaxLogs
    decreases |actions|
  {
    if actions != [] {
      var n := Reduce(s, actions[0]);
      assert |n.logs| <= MaxLogs;
      LogsStayBounded(n, actions[1..]);
    }
  }

  /** CLEAR_LOGS empties the buffer and nothing else. */
  lemma ClearLogsOnly(s: State)
    ensures Reduce(s, ClearLogs) == s.(logs := [])
    ensures Reduce(s, ClearLogs).logs == []
  {
  }

  /**
   * REMOVE_TOAST keeps the other toasts in their order: the filter works piece by piece, and
   * on one toast it keeps it exactly when its id differs.
   */
  lemma {:induction false} RemoveToastKeepsOrder(a: seq<Toast>, b: seq<Toast>, id: int)
    ensures WithoutToast(a + b, id) == WithoutToast(a, id) + WithoutToast(b, id)
    decreases |a|
  {
    if a == [] {
      assert a + b == b;
    } else {
      RemoveToastKeepsOrder(a[1..], b, id);
      var ab := a + b;
      assert ab[0] == a[0] && ab[1..] == a[1..] + b;
      var h := if a[0].id != id then [a[0]] else [];
      assert WithoutToast(ab, id) == h + WithoutToast(a[1..] + b, id);
      assert WithoutToast(a, id) == h + WithoutToast(a[1..], id);
    }
  }

  lemma WithoutOneToast(t: Toast, id: int)
    ensures WithoutToast([t], id) == if t.id != id then [t] else []
  {
    assert [t][1..] == [];
  }

  /** Each single-field action replaces its field and leaves the rest of the state alone. */
  lemma SingleFieldActions(s: State, w: Json, rs: Json, t: string, f: Option<string>, b: bool)
    ensures Reduce(s, SetWorkers(w)) == s.(workers := w)
    ensures Reduce(s, SetRecords(rs)) == s.(records := rs)
    ensures Reduce(s, SetTab(t)) == s.(currentTab := t)
    ensures Reduce(s, SetFile(f)) == s.(selectedFile := f)
    ensures Reduce(s, SetLoading(b)) == s.(loading := b)
  {
  }

  /** An action the reducer does not know gives the same state back. */
  lemma UnknownUnchanged(s: State, kind: string)
    ensures Reduce(s, Unknown(kind)) == s
  {
  }

  /**
   * As written, SET_INVALID_DNIS is one of the unknown actions: the list the upload handler
   * dispatches is dropped, and from the initial state `invalidDnis` stays undefined, which the
   * sidebar then reads the length of.
   */
  lemma {:induction false} InvalidDnisNeverSet(s: State, actions: seq<Action>)
    requires s.invalidDnis.None?
    ensures ReduceAll(s, actions).invalidDnis.None?
    ensures forall dnis :: Reduce(s, SetInvalidDnis(dnis)) == s
    decreases |actions|
  {
    if actions != [] {
      InvalidDnisNeverSet(Reduce(s, actions[0]), actions[1..]);
    }
  }

  /** The initial state with the `invalidDnis: []` the sidebar expects. */
  function InitialFixed(time: string): (s: State)
    ensures s == Initial(time).(invalidDnis := Some([]))
  {
    Initial(time).(invalidDnis := Some([]))
  }

  /** The reducer with a SET_INVALID_DNIS case that stores the list. */
  function ReduceFixed(s: State, a: Action): (r: State)
    ensures a.SetInvalidDnis? ==> r == s.(invalidDnis := Some(a.dnis))
    ensures !a.SetInvalidDnis? ==> r == Reduce(s, a)
  {
    match a
    case SetInvalidDnis(dnis) => s.(invalidDnis := Some(dnis))
    case _ => Reduce(s, a)
  }

  function ReduceAllFixed(s: State, actions: seq<Action>): State
    decreases |actions|
  {
    if actions == [] then s else ReduceAllFixed(ReduceFixed(s, actions[0]), actions[1..])
  }

  /** With the fix `invalidDnis` is a list in every state reached, never undefined. */
  lemma {:induction false} InvalidDnisAlwaysSet(s: State, actions: seq<Action>)
    requires s.invalidDnis.Some?
    ensures ReduceAllFixed(s, actions).invalidDnis.Some?
    decreases |actions|
  {
    if actions != [] {
      InvalidDnisAlwaysSet(ReduceFixed(s, actions[0]), actions[1..]);
    }
  }

  /** Toast ids that are positive, at most `bound` and strictly increasing along the list. */
  predicate IdsUpTo(ts: seq<Toast>, bound: int)
  {
    && (forall i :: 0 <= i < |ts| ==> 1 <= ts[i].id <= bound)
    && (forall i, j :: 0 <= i < j < |ts| ==> ts[i].id < ts[j].id)
  }

  lemma IdsUpToTail(ts: seq<Toast>, bound: int)
    requires ts != [] && IdsUpTo(ts, bound)
    ensures IdsUpTo(ts[1..], bound)
    ensures forall k :: 0 <= k < |ts| - 1 ==> ts[0].id < ts[1..][k].id
  {
    var tail := ts[1..];
    forall i, j | 0 <= i < j < |tail| ensures tail[i].id < tail[j].id {
      assert tail[i] == ts[i + 1] && tail[j] == ts[j + 1];
    }
    forall k | 0 <= k < |tail| ensures ts[0].id < tail[k].id {
      assert tail[k] == ts[k + 1];
    }
  }

  lemma IdsUpToCons(t: Toast, rest: seq<Toast>, bound: int)
    requires IdsUpTo(rest, bound) && 1 <= t.id <= bound
    requires forall k :: 0 <= k < |rest| ==> t.id < rest[k].id
    ensures IdsUpTo([t] + rest, bound)
  {
    var r := [t] + rest;
    forall i, j | 0 <= i < j < |r| ensures r[i].id < r[j].id {
      assert r[j] == rest[j - 1];
      if i > 0 {
        assert r[i] == rest[i - 1];
      }
    }
    forall i | 0 <= i < |r| ensures 1 <= r[i].id <= bound {
      if i > 0 {
        assert r[i] == rest[i - 1];
      }
    }
  }

  lemma {:induction false} WithoutToastKeepsIds(ts: seq<Toast>, id: int, bound: int)
    requires IdsUpTo(ts, bound)
    ensures IdsUpTo(WithoutToast(ts, id), bound)
    decreases |ts|
  {
    if ts != [] {
      var tail := ts[1..];
      IdsUpToTail(ts, bound);
      WithoutToastKeepsIds(tail, id, bound);
      var rest := WithoutToast(tail, id);
      if ts[0].id != id {
        WithoutToastMembers(tail, id);
        forall k | 0 <= k < |rest| ensures ts[0].id < rest[k].id {
          assert rest[k] in tail;
        }
        IdsUpToCons(ts[0], rest, bound);
        assert WithoutToast(ts, id) == [ts[0]] + rest;
      } else {
        assert WithoutToast(ts, id) == rest;
      }
    }
  }

  /** `DashboardProvider`: the reducer's state and the `toastId` ref. */
  class DashboardProvider {
    var state: State
    var toastId: int

    ghost predicate Valid()
      reads this
    {
      toastId >= 0 && |state.logs| <= MaxLogs
    }

    /** The toasts on screen carry ids the counter handed out, in increasing order. */
    ghost predicate ToastsFromCounter()
      reads this
    {
      IdsUpTo(state.toasts, toastId)
    }

    constructor (time: string)
      ensures Valid() && ToastsFromCounter() && state == InitialFixed(time) && toastId == 0
    {
      state := InitialFixed(time);
      toastId := 0;
    }

    /** `dispatch`. */
    method Dispatch(a: Action)
      requires Valid()
      modifies this
      ensures Valid()
      ensures state == ReduceFixed(old(state), a) && toastId == old(toastId)
      ensures !a.AddToast? && old(ToastsFromCounter()) ==> ToastsFromCounter()
    {
      if a.RemoveToast? && ToastsFromCounter() {
        WithoutToastKeepsIds(state.toasts, a.toastId, toastId);
      }
      state := ReduceFixed(state, a);
    }

    /** `addLog`: an ADD_LOG stamped `time`. */
    method AddLogLine(msg: string, color: string, time: string)
      requires Valid()
      modifies this
      ensures Valid()
      ensures state == Reduce(old(state), AddLog(LogEntry(time, msg, color))) && toastId == old(toastId)
      ensures old(ToastsFromCounter()) ==> ToastsFromCounter()
    {
      state := ReduceFixed(state, AddLog(LogEntry(time, msg, color)));
    }

    /**
     * `showToast`: the counter is incremented first and the new value is the toast's id, so
     * ids start at 1 and grow strictly. The timed REMOVE_TOAST is a later `Dispatch`.
     */
    method ShowToast(msg: string, kind: string) returns (id: int)
      requires Valid()
      modifies this
      ensures Valid()
      ensures id == old(toastId) + 1 && toastId == id && id >= 1
      ensures state == old(state).(toasts := old(state).toasts + [Toast(id, msg, kind)])
      ensures old(ToastsFromCounter()) ==> forall t :: t in old(state).toasts ==> t.id < id
      ensures old(ToastsFromCounter()) ==> ToastsFromCounter()
    {
      toastId := toastId + 1;
      id := toastId;
      state := ReduceFixed(state, AddToast(Toast(id, msg, kind)));
    }
  }
}
