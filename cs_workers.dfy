/**
 * One iteration of the C# `UniversityWorker` and `InstituteWorker` processing loops, and the
 * pause/resume/stop flags their signal handler drives. The scraper's answer is an input.
 */
module CsWorkers {
  import opened Wrappers
  import opened Text
  import opened DniStatus
  import opened CsStore
  import opened CsQueue
  import opened CsUseCases

  /** The pause and stop flags after the handler sees message `s`. */
  function NextFlags(paused: bool, stopped: bool, s: string): (r: (bool, bool))
    ensures s == Pause ==> r == (true, stopped)
    ensures s == Resume ==> r == (false, stopped)
    ensures s == Stop ==> r == (paused, true)
    ensures s != Pause && s != Resume && s != Stop ==> r == (paused, stopped)
  {
    if s == Pause then (true, stopped)
    else if s == Resume then (false, stopped)
    else if s == Stop then (paused, true)
    else (paused, stopped)
  }

  /** The flags after a sequence of signals. */
  function FlagsAfter(paused: bool, stopped: bool, signals: seq<string>): (bool, bool)
    decreases |signals|
  {
    if signals == [] then (paused, stopped)
    else
      var f := NextFlags(paused, stopped, signals[0]);
      FlagsAfter(f.0, f.1, signals[1..])
  }

  /** No message clears the stop flag: once STOP has been seen, the worker stays stopped. */
  lemma {:induction false} StopIsSticky(paused: bool, signals: seq<string>)
    ensures FlagsAfter(paused, true, signals).1
    decreases |signals|
  {
    if signals != [] {
      StopIsSticky(NextFlags(paused, true, signals[0]).0, signals[1..]);
    }
  }

  /** The pause flag reflects the last PAUSE or RESUME seen, and other messages leave it alone. */
  lemma {:induction false} PausedFollowsLastPauseOrResume(paused: bool, stopped: bool, signals: seq<string>, k: nat)
    requires k < |signals| && (signals[k] == Pause || signals[k] == Resume)
    requires forall j :: k < j < |signals| ==> signals[j] != Pause && signals[j] != Resume
    ensures FlagsAfter(paused, stopped, signals).0 == (signals[k] == Pause)
    decreases |signals|
  {
    var f := NextFlags(paused, stopped, signals[0]);
    if k == 0 {
      NoPauseOrResumeKeepsPaused(f.0, f.1, signals[1..]);
    } else {
      PausedFollowsLastPauseOrResume(f.0, f.1, signals[1..], k - 1);
    }
  }

  lemma {:induction false} NoPauseOrResumeKeepsPaused(paused: bool, stopped: bool, signals: seq<string>)
    requires forall j :: 0 <= j < |signals| ==> signals[j] != Pause && signals[j] != Resume
    ensures FlagsAfter(paused, stopped, signals).0 == paused
    decreases |signals|
  {
    if signals != [] {
      var f := NextFlags(paused, stopped, signals[0]);
      NoPauseOrResumeKeepsPaused(f.0, f.1, signals[1..]);
    }
  }

  /** The worker's volatile `_paused` and `_stopped` fields and the subscribed handler. */
  class SignalFlags {
    var paused: bool
    var stopped: bool

    constructor ()
      ensures !paused && !stopped
    {
      paused := false;
      stopped := false;
    }

    /** The handler passed to `SubscribeSignalAsync`. */
    method OnSignal(s: string)
      modifies this
      ensures (paused, stopped) == NextFlags(old(paused), old(stopped), s)
    {
      if s == Pause {
        paused := true;
      } else if s == Resume {
        paused := false;
      } else if s == Stop {
        stopped := true;
      }
    }
  }

  /** `val.Split(':', 2)` followed by `int.TryParse(parts[0], ...)`: the batch id and the rest. */
  function ParseItem(item: string): (r: Option<(int, string)>)
    ensures r.Some? ==> ':' in item && Int32Min <= r.value.0 <= Int32Max
    ensures ':' !in item ==> r.None?
  {
    var parts := SplitFirst(item, ':');
    if |parts| != 2 then None
    else match TryParseInt32(parts[0])
      case None => None
      case Some(v) => Some((v, parts[1]))
  }

  /** An item the upload or a worker enqueues parses back into its batch id and DNI, colons in the DNI included. */
  lemma ParseQueueItem(batchId: nat, dni: string)
    requires batchId <= Int32Max
    ensures ParseItem(QueueItem(batchId, dni)) == Some((batchId, dni))
  {
    var prefix := NatToString(batchId);
    var item := QueueItem(batchId, dni);
    assert ':' !in prefix by {
      forall k | 0 <= k < |prefix| ensures prefix[k] != ':' {
        assert IsDigit(prefix[k]);
      }
    }
    assert item[|prefix|] == ':';
    var parts := SplitFirst(item, ':');
    assert |parts| == 2;
    assert |parts[0]| == |prefix|;
    assert parts[0] == item[..|prefix|] == prefix;
    assert parts[1] == item[|prefix| + 1..] == dni;
    TryParseInt32OfNatToString(batchId);
  }

  /** What the scraper's `ProcessDniAsync` does for one DNI: answers (found, payload, reason) or throws. */
  datatype ScrapeOutcome = Scraped(found: bool, payload: Option<string>, reason: string) | ScrapeThrew

  /** How one pass of the processing loop ends. */
  datatype Step =
    | Exited          // `_stopped` is set: the loop condition fails
    | PausedWait      // `_paused`: delay and continue
    | NoItem          // the dequeue timed out
    | Malformed       // the item does not parse
    | NoRecord        // nothing to work on
    | Processed(id: nat)
    | ScrapeError(id: nat)   // logged; the record keeps its checking status

  /** One pass of `UniversityWorker`'s inner loop. The item only triggers work: the claimed record is the lowest-id Pending one. */
  method UniversityStep(flags: SignalFlags, repo: DniRecordRepository, queue: InMemoryQueueService,
                        outcome: ScrapeOutcome, now: int) returns (step: Step)
    requires repo.Valid()
    modifies repo, queue
    ensures repo.Valid() && queue.handlers == old(queue.handlers)
    ensures old(flags.stopped) ==> step == Exited && unchanged(repo) && unchanged(queue)
    ensures !old(flags.stopped) && old(flags.paused) ==> step == PausedWait && unchanged(repo) && unchanged(queue)
    ensures !old(flags.stopped) && !old(flags.paused) ==>
      var (qs1, item) := Pop(old(queue.queues), UniversityQueue);
      var c := Claim(old(repo.records), Pending, CheckingUniversity, now);
      && (item.None? ==> step == NoItem && repo.records == old(repo.records) && queue.queues == qs1)
      && (item.Some? && ParseItem(item.value).None? ==>
            step == Malformed && repo.records == old(repo.records) && queue.queues == qs1)
      && (item.Some? && ParseItem(item.value).Some? && c.claimed.None? ==>
            step == NoRecord && repo.records == old(repo.records) && queue.queues == qs1)
      && (item.Some? && ParseItem(item.value).Some? && c.claimed.Some? ==>
            var rec := c.claimed.value;
            match outcome
            case ScrapeThrew =>
              step == ScrapeError(rec.id) && repo.records == c.records && queue.queues == qs1
            case Scraped(found, payload, _) =>
              && step == Processed(rec.id)
              && (found ==>
                    repo.records == UpdateById(c.records, rec.id, FoundUniversity, payload, None, None, now)
                    && queue.queues == qs1)
              && (!found ==>
                    repo.records == UpdateById(c.records, rec.id, CheckingInstitute, None, None, None, now)
                    && queue.queues == PushAll(qs1, InstituteQueue, [QueueItem(rec.batchId, rec.dni)])))
    ensures repo.batches == old(repo.batches)
  {
    if flags.stopped {
      return Exited;
    }
    if flags.paused {
      return PausedWait;
    }
    var val := queue.Dequeue(UniversityQueue);
    if val.None? {
      return NoItem;
    }
    var parsed := ParseItem(val.value);
    if parsed.None? {
      return Malformed;
    }
    var rec := repo.DequeueNext(Pending, CheckingUniversity, now);
    if rec.None? {
      return NoRecord;
    }
    match outcome
    case ScrapeThrew =>
      step := ScrapeError(rec.value.id);
    case Scraped(found, payload, _) =>
      if found {
        repo.UpdateStatus(rec.value.id, FoundUniversity, payload, None, None, now);
      } else {
        repo.UpdateStatus(rec.value.id, CheckingInstitute, None, None, None, now);
        queue.Enqueue(InstituteQueue, QueueItem(rec.value.batchId, rec.value.dni));
      }
      step := Processed(rec.value.id);
  }

  /** `records.FirstOrDefault(r => r.Dni == dni)`. */
  function FirstWithDni(rs: seq<DniRecord>, dni: string): (r: Option<DniRecord>)
    ensures r.Some? ==> r.value in rs && r.value.dni == dni
    ensures r.None? <==> forall k :: 0 <= k < |rs| ==> rs[k].dni != dni
  {
    if rs == [] then None
    else if rs[0].dni == dni then Some(rs[0])
    else FirstWithDni(rs[1..], dni)
  }

  /** The record `InstituteWorker` acts on: the first CheckingInstitute record of the batch, if its DNI is the item's. */
  function InstituteTarget(rs: seq<DniRecord>, batchId: int, dni: string): Option<DniRecord>
  {
    FirstWithDni(Page(Filtered(rs, Some(CheckingInstitute), Some(batchId)), 1, 0), dni)
  }

  /**
   * The target, when there is one, is the lowest-id CheckingInstitute record of the batch and
   * carries the item's DNI; when that lowest record has another DNI, there is no target.
   */
  lemma InstituteTargetIsFirstOfBatch(rs: seq<DniRecord>, batchId: int, dni: string)
    requires IdsAscending(rs)
    ensures var t := InstituteTarget(rs, batchId, dni);
      var f := Filtered(rs, Some(CheckingInstitute), Some(batchId));
      && (t.Some? <==> f != [] && f[0].dni == dni)
      && (t.Some? ==> t.value == f[0] && t.value.status == CheckingInstitute && t.value.batchId == batchId
                      && t.value in rs
                      && forall k :: 0 <= k < |rs| && rs[k].status == CheckingInstitute && rs[k].batchId == batchId
                           ==> t.value.id <= rs[k].id)
  {
    var f := Filtered(rs, Some(CheckingInstitute), Some(batchId));
    FilteredKeepsOrder(rs, Some(CheckingInstitute), Some(batchId));
    if f != [] {
      assert Page(f, 1, 0) == [f[0]];
      forall k | 0 <= k < |rs| && rs[k].status == CheckingInstitute && rs[k].batchId == batchId
        ensures f[0].id <= rs[k].id
      {
        FilteredComplete(rs, Some(CheckingInstitute), Some(batchId), rs[k]);
        var j :| 0 <= j < |f| && f[j] == rs[k];
      }
    }
  }

  /** One pass of `InstituteWorker`'s inner loop; it does not claim, it reads and then updates. */
  method InstituteStep(flags: SignalFlags, repo: DniRecordRepository, queue: InMemoryQueueService,
                       outcome: ScrapeOutcome, now: int) returns (step: Step)
    requires repo.Valid()
    modifies repo, queue
    ensures repo.Valid() && queue.handlers == old(queue.handlers) && repo.batches == old(repo.batches)
    ensures old(flags.stopped) ==> step == Exited && unchanged(repo) && unchanged(queue)
    ensures !old(flags.stopped) && old(flags.paused) ==> step == PausedWait && unchanged(repo) && unchanged(queue)
    ensures !old(flags.stopped) && !old(flags.paused) ==>
      var (qs1, item) := Pop(old(queue.queues), InstituteQueue);
      && queue.queues == qs1
      && (item.None? ==> step == NoItem && repo.records == old(repo.records))
      && (item.Some? && ParseItem(item.value).None? ==> step == Malformed && repo.records == old(repo.records))
      && (item.Some? && ParseItem(item.value).Some? ==>
            var (batchId, dni) := ParseItem(item.value).value;
            var t := InstituteTarget(old(repo.records), batchId, dni);
            && (t.None? ==> step == NoRecord && repo.records == old(repo.records))
            && (t.Some? ==>
                  match outcome
                  case ScrapeThrew => step == ScrapeError(t.value.id) && repo.records == old(repo.records)
                  case Scraped(found, payload, reason) =>
                    && step == Processed(t.value.id)
                    && (found ==>
                          repo.records == UpdateById(old(repo.records), t.value.id, FoundInstitute, None, payload, None, now))
                    && (!found ==>
                          repo.records == UpdateById(old(repo.records), t.value.id, NotFound, None, None, Some(reason), now))))
  {
    if flags.stopped {
      return Exited;
    }
    if flags.paused {
      return PausedWait;
    }
    var val := queue.Dequeue(InstituteQueue);
    if val.None? {
      return NoItem;
    }
    var parsed := ParseItem(val.value);
    if parsed.None? {
      return Malformed;
    }
    var (batchId, dni) := parsed.value;
    var records := repo.GetRecords(Some(CheckingInstitute), Some(batchId), 1, 0);
    var rec := FirstWithDni(records, dni);
    if rec.None? {
      return NoRecord;
    }
    match outcome
    case ScrapeThrew =>
      step := ScrapeError(rec.value.id);
    case Scraped(found, payload, reason) =>
      if found {
        repo.UpdateStatus(rec.value.id, FoundInstitute, None, payload, None, now);
      } else {
        repo.UpdateStatus(rec.value.id, NotFound, None, None, Some(reason), now);
      }
      step := Processed(rec.value.id);
  }
}
