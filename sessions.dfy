/**
 * `SessionManager` of the session-scoped backend: one entry per browser session (its last
 * activity, how many browser workers it started and its orchestrator), and one global count
 * of workers checked against a fixed capacity.
 */
module Sessions {
  import opened Wrappers

  /** `MAX_GLOBAL_WORKERS`: browser instances allowed across all sessions. */
  const MaxGlobalWorkers: int := 10

  /** `SESSION_IDLE_TIMEOUT`, in seconds. */
  const SessionIdleTimeout: int := 1800

  /**
   * An orchestrator, reduced to what the manager and the endpoints ask of it: whether a
   * worker thread is alive (`is_running`) and whether it is paused (`is_paused`).
   */
  datatype Orch = Orch(running: bool, paused: bool)

  /** `Orchestrator(session_id)`: no thread yet, and the pause event set. */
  const FreshOrch: Orch := Orch(false, false)

  /** `start_workers`: nothing happens while a thread is alive; otherwise the threads start unpaused. */
  function Started(o: Orch): Orch
  {
    if o.running then o else Orch(true, false)
  }

  /** `resume_workers`. */
  function Resumed(o: Orch): Orch
  {
    o.(paused := false)
  }

  /** `stop_workers`: the threads are joined and the pause event is set again. */
  function Stopped(o: Orch): Orch
  {
    Orch(false, false)
  }

  /** `SessionInfo`; clock readings are whole seconds. */
  datatype SessionInfo = SessionInfo(lastActivity: int, workerCount: int, orchestrator: Option<Orch>)

  /** A session as `SessionInfo(session_id)` creates it at time `now`. */
  function NewSession(now: int): SessionInfo
  {
    SessionInfo(now, 0, None)
  }

  /** `SessionInfo.is_idle`: more than the timeout has passed since the last activity. */
  predicate IsIdle(info: SessionInfo, now: int)
  {
    now - info.lastActivity > SessionIdleTimeout
  }

  /** `info.orchestrator and info.orchestrator.is_running()`. */
  predicate Running(info: SessionInfo)
  {
    info.orchestrator.Some? && info.orchestrator.value.running
  }

  type Table = map<string, SessionInfo>

  /** The sessions after `touch(sid)`: created if missing, and its activity set to `now`. */
  function Touched(ss: Table, sid: string, now: int): (r: Table)
    ensures r.Keys == ss.Keys + {sid}
    ensures r[sid].lastActivity == now
    ensures sid in ss ==> r[sid] == ss[sid].(lastActivity := now)
    ensures sid !in ss ==> r[sid] == NewSession(now)
    ensures forall other :: other in ss && other != sid ==> r[other] == ss[other]
  {
    ss[sid := if sid in ss then ss[sid].(lastActivity := now) else NewSession(now)]
  }

  /** The sessions and the global count after `register_workers(sid, count)`. */
  function Registered(ss: Table, total: int, sid: string, count: nat): (r: (Table, int))
    ensures sid !in ss ==> r == (ss, total)
    ensures sid in ss ==> r.0 == ss[sid := ss[sid].(workerCount := count)] && r.1 == total + count
  {
    if sid in ss then (ss[sid := ss[sid].(workerCount := count)], total + count) else (ss, total)
  }

  /**
   * The sessions and the global count after `unregister_workers(sid)`: only a session holding
   * workers is touched; its count is taken off the total, which is clamped at zero.
   */
  function Unregistered(ss: Table, total: int, sid: string): (r: (Table, int))
    ensures !(sid in ss && ss[sid].workerCount > 0) ==> r == (ss, total)
    ensures sid in ss && ss[sid].workerCount > 0 ==>
      r.0 == ss[sid := ss[sid].(workerCount := 0)] && r.1 == if total - ss[sid].workerCount < 0 then 0 else total - ss[sid].workerCount
  {
    if sid in ss && ss[sid].workerCount > 0 then
      var t := total - ss[sid].workerCount;
      (ss[sid := ss[sid].(workerCount := 0)], if t < 0 then 0 else t)
    else (ss, total)
  }

  /** Afterwards the session holds no workers, so a second call changes nothing. */
  lemma UnregisterIdempotent(ss: Table, total: int, sid: string)
    ensures var r := Unregistered(ss, total, sid);
      && !(sid in r.0 && r.0[sid].workerCount > 0)
      && Unregistered(r.0, r.1, sid) == r
  {
  }

  /** The global count stays non-negative whatever the session counts are. */
  lemma UnregisterNonNegative(ss: Table, total: int, sid: string)
    requires total >= 0
    ensures Unregistered(ss, total, sid).1 >= 0
    ensures Unregistered(ss, total, sid).1 <= total
  {
  }

  /**
   * Registering workers for a session that held none and then unregistering them gives the
   * global count back and leaves the session as it was.
   */
  lemma RegisterThenUnregister(ss: Table, total: int, sid: string, count: nat)
    requires sid in ss && ss[sid].workerCount == 0 && total >= 0
    ensures var r := Registered(ss, total, sid, count);
      Unregistered(r.0, r.1, sid) == (ss, total)
  {
    var r := Registered(ss, total, sid, count);
    if count > 0 {
      assert r.0[sid := r.0[sid].(workerCount := 0)] == ss;
    } else {
      assert r.0 == ss;
    }
  }

  /** The sessions `cleanup_idle_sessions` selects: idle and without a running orchestrator. */
  function IdleSessions(ss: Table, now: int): (r: set<string>)
    ensures r <= ss.Keys
    ensures forall sid :: sid in r <==> sid in ss && IsIdle(ss[sid], now) && !Running(ss[sid])
  {
    set sid | sid in ss && IsIdle(ss[sid], now) && !Running(ss[sid])
  }

  /** The sessions that survive the clean-up. */
  function AfterCleanup(ss: Table, now: int): (r: Table)
    ensures r.Keys <= ss.Keys
    ensures forall sid :: sid in r ==> r[sid] == ss[sid]
  {
    map sid | sid in ss && sid !in IdleSessions(ss, now) :: ss[sid]
  }

  /**
   * Every session that is active or has a running orchestrator survives, nothing else does,
   * and the surviving and the removed sessions together are all of them.
   */
  lemma CleanupPartition(ss: Table, now: int)
    ensures forall sid :: sid in AfterCleanup(ss, now) <==> sid in ss && (!IsIdle(ss[sid], now) || Running(ss[sid]))
    ensures |AfterCleanup(ss, now)| + |IdleSessions(ss, now)| == |ss|
  {
    var idle := IdleSessions(ss, now);
    var kept := AfterCleanup(ss, now);
    assert kept.Keys == ss.Keys - idle;
    assert ss.Keys == kept.Keys + idle;
    assert kept.Keys * idle == {};
  }

  /** The sessions whose orchestrator is running. */
  function ActiveSessions(ss: Table): (r: set<string>)
    ensures r <= ss.Keys
    ensures forall sid :: sid in r <==> sid in ss && Running(ss[sid])
  {
    set sid | sid in ss && Running(ss[sid])
  }

  lemma ActiveAtMostAll(ss: Table)
    ensures |ActiveSessions(ss)| <= |ss|
  {
    var a := ActiveSessions(ss);
    assert ss.Keys == a + (ss.Keys - a);
  }

  /** `get_stats`. */
  datatype Stats = Stats(totalSessions: nat, activeSessions: nat, totalWorkers: int, maxWorkers: int)

  class SessionManager {
    var sessions: Table
    var totalWorkers: int

    /** The global count and every session count are never negative. */
    ghost predicate Valid()
      reads this
    {
      totalWorkers >= 0 && forall sid :: sid in sessions ==> sessions[sid].workerCount >= 0
    }

    /** Workers are counted only for a session whose orchestrator is running. */
    ghost predicate Consistent()
      reads this
    {
      forall sid :: sid in sessions && sessions[sid].workerCount > 0 ==> Running(sessions[sid])
    }

    /** The global count is within the capacity. */
    ghost predicate WithinCapacity()
      reads this
    {
      totalWorkers <= MaxGlobalWorkers
    }

    constructor ()
      ensures Valid() && Consistent() && WithinCapacity()
      ensures sessions == map[] && totalWorkers == 0
    {
      sessions := map[];
      totalWorkers := 0;
    }

    /** `touch`. */
    method Touch(sid: string, now: int)
      requires Valid()
      modifies this
      ensures Valid()
      ensures sessions == Touched(old(sessions), sid, now)
      ensures totalWorkers == old(totalWorkers)
    {
      sessions := Touched(sessions, sid, now);
    }

    /** `get_session`: the same as `touch`, returning the session. */
    method GetSession(sid: string, now: int) returns (info: SessionInfo)
      requires Valid()
      modifies this
      ensures Valid()
      ensures sessions == Touched(old(sessions), sid, now)
      ensures totalWorkers == old(totalWorkers)
      ensures sid in sessions && info == sessions[sid]
    {
      sessions := Touched(sessions, sid, now);
      info := sessions[sid];
    }

    /** `can_start_workers(n)`: room for `n` more workers under the global capacity. */
    function CanStartWorkers(n: int): (b: bool)
      reads this
      ensures b <==> totalWorkers + n <= MaxGlobalWorkers
    {
      totalWorkers + n <= MaxGlobalWorkers
    }

    /** `register_workers`. */
    method RegisterWorkers(sid: string, count: nat)
      requires Valid()
      modifies this
      ensures Valid()
      ensures (sessions, totalWorkers) == Registered(old(sessions), old(totalWorkers), sid, count)
      ensures old(CanStartWorkers(count)) ==> totalWorkers <= MaxGlobalWorkers
    {
      if sid in sessions {
        sessions := sessions[sid := sessions[sid].(workerCount := count)];
        totalWorkers := totalWorkers + count;
      }
    }

    /** `unregister_workers`. */
    method UnregisterWorkers(sid: string)
      requires Valid()
      modifies this
      ensures Valid()
      ensures (sessions, totalWorkers) == Unregistered(old(sessions), old(totalWorkers), sid)
      ensures totalWorkers <= old(totalWorkers)
    {
      if sid in sessions && sessions[sid].workerCount > 0 {
        totalWorkers := totalWorkers - sessions[sid].workerCount;
        if totalWorkers < 0 {
          totalWorkers := 0;
        }
        sessions := sessions[sid := sessions[sid].(workerCount := 0)];
      }
    }

    /** `get_orchestrator`: none for an unknown session. */
    function GetOrchestrator(sid: string): (o: Option<Orch>)
      reads this
      ensures sid !in sessions ==> o.None?
      ensures sid in sessions ==> o == sessions[sid].orchestrator
    {
      if sid in sessions then sessions[sid].orchestrator else None
    }

    /** `set_orchestrator`: creates the session if missing, without touching its activity otherwise. */
    method SetOrchestrator(sid: string, o: Option<Orch>, now: int)
      requires Valid()
      modifies this
      ensures Valid()
      ensures sessions == old(sessions)[sid := (if sid in old(sessions) then old(sessions)[sid] else NewSession(now)).(orchestrator := o)]
      ensures totalWorkers == old(totalWorkers)
    {
      var info := if sid in sessions then sessions[sid] else NewSession(now);
      sessions := sessions[sid := info.(orchestrator := o)];
    }

    /** `session_has_running_workers`: false for an unknown session or one without orchestrator. */
    function SessionHasRunningWorkers(sid: string): (b: bool)
      reads this
      ensures b <==> sid in ActiveSessions(sessions)
      ensures b ==> GetOrchestrator(sid).Some? && GetOrchestrator(sid).value.running
    {
      sid in sessions && Running(sessions[sid])
    }

    /**
     * `cleanup_idle_sessions`: removes the idle sessions without a running orchestrator and
     * returns how many. The source's branch that releases the workers of a running
     * orchestrator cannot fire here: the selection excludes those and nothing runs between
     * the selection and the removal.
     */
    method CleanupIdleSessions(now: int) returns (removed: nat)
      requires Valid()
      modifies this
      ensures Valid()
      ensures sessions == AfterCleanup(old(sessions), now)
      ensures removed == |IdleSessions(old(sessions), now)|
      ensures totalWorkers == old(totalWorkers)
    {
      var idle := IdleSessions(sessions, now);
      var pending := idle;
      while pending != {}
        invariant pending <= idle
        invariant sessions == map sid | sid in old(sessions) && sid !in idle - pending :: old(sessions)[sid]
        invariant totalWorkers == old(totalWorkers)
        decreases |pending|
      {
        var sid :| sid in pending;
        if sid in sessions {
          sessions := sessions - {sid};
        }
        pending := pending - {sid};
      }
      assert idle - pending == idle;
      removed := |idle|;
    }

    /** `get_stats`. */
    function GetStats(): (st: Stats)
      reads this
      ensures st.totalSessions == |sessions| && st.activeSessions == |ActiveSessions(sessions)|
      ensures st.activeSessions <= st.totalSessions
      ensures st.totalWorkers == totalWorkers && st.maxWorkers == MaxGlobalWorkers
    {
      ActiveAtMostAll(sessions);
      Stats(|sessions|, |ActiveSessions(sessions)|, totalWorkers, MaxGlobalWorkers)
    }
  }
}
