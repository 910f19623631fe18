/**
 * The C# application use cases: bulk upload, status aggregation and retry, written against the
 * record store and the in-process queue.
 */
module CsUseCases {
  import opened Wrappers
  import opened Text
  import opened Seqs
  import opened DniStatus
  import opened CsStore
  import opened CsQueue

  /** The queue item `"{batchId}:{dni}"` that carries one DNI through the pipeline. */
  function QueueItem(batchId: nat, dni: string): string
  {
    NatToString(batchId) + ":" + dni
  }

  /** One queue item per DNI, in order. */
  function QueueItems(batchId: nat, dnis: seq<string>): (r: seq<string>)
    ensures |r| == |dnis|
    ensures forall k :: 0 <= k < |r| ==> r[k] == QueueItem(batchId, dnis[k])
  {
    seq(|dnis|, k requires 0 <= k < |dnis| => QueueItem(batchId, dnis[k]))
  }

  /** The items for records already stored: each record's own batch id and DNI. */
  function RecordItems(rs: seq<DniRecord>): (r: seq<string>)
    ensures |r| == |rs|
    ensures forall k :: 0 <= k < |r| ==> r[k] == QueueItem(rs[k].batchId, rs[k].dni)
  {
    seq(|rs|, k requires 0 <= k < |rs| => QueueItem(rs[k].batchId, rs[k].dni))
  }

  /** The upload filter: at least seven characters, all digits. */
  predicate Acceptable(d: string)
  {
    |d| >= 7 && AllDigits(d)
  }

  /** `Where(...)`: the entries that pass the filter, in input order. */
  function AcceptableOnly(ts: seq<string>): (r: seq<string>)
    ensures forall k :: 0 <= k < |r| ==> Acceptable(r[k])
    ensures forall d :: d in r <==> d in ts && Acceptable(d)
  {
    if ts == [] then []
    else
      var init := AcceptableOnly(ts[..|ts| - 1]);
      var t := ts[|ts| - 1];
      assert ts == ts[..|ts| - 1] + [t];
      if Acceptable(t) then init + [t] else init
  }

  /** `Select(Trim).Where(...)`: the trimmed entries that pass the filter, in input order. */
  function TrimmedAcceptable(dnis: seq<string>): (r: seq<string>)
    ensures forall k :: 0 <= k < |r| ==> Acceptable(r[k])
    ensures forall d :: d in r <==> exists j :: 0 <= j < |dnis| && d == Strip(dnis[j]) && Acceptable(d)
  {
    AcceptableOnly(StripEach(dnis))
  }

  /** The accepted list: `Distinct()` over the filtered, trimmed entries. */
  function AcceptedDnis(dnis: seq<string>): seq<string>
  {
    Dedup(TrimmedAcceptable(dnis))
  }

  /**
   * The accepted list has no duplicates, holds exactly the trimmed entries that are seven or more
   * digits, and every one of them is already trimmed.
   */
  lemma AcceptedDnisSpec(dnis: seq<string>)
    ensures NoDup(AcceptedDnis(dnis))
    ensures forall d :: d in AcceptedDnis(dnis) <==>
      exists j :: 0 <= j < |dnis| && d == Strip(dnis[j]) && Acceptable(d)
    ensures forall k :: 0 <= k < |AcceptedDnis(dnis)| ==>
      Acceptable(AcceptedDnis(dnis)[k]) && Strip(AcceptedDnis(dnis)[k]) == AcceptedDnis(dnis)[k]
  {
    var a := AcceptedDnis(dnis);
    forall k | 0 <= k < |a| ensures Acceptable(a[k]) && Strip(a[k]) == a[k] {
      assert a[k] in TrimmedAcceptable(dnis);
      DigitsAreStripped(a[k]);
    }
  }

  datatype BulkUploadResponse = BulkUploadResponse(batchId: nat, fileName: string, totalDnis: nat, message: string)

  /** `BulkUploadUseCase.ExecuteAsync`; a null DNI list is `None`; the two ArgumentExceptions are failures. */
  method BulkUpload(repo: DniRecordRepository, queue: InMemoryQueueService, fileName: string,
                    dnis: Option<seq<string>>, now: int) returns (r: Result<BulkUploadResponse, string>)
    requires repo.Valid()
    modifies repo, queue
    ensures repo.Valid()
    ensures (dnis.None? || dnis.value == []) ==>
      r == Failure("No valid DNIs provided.") && unchanged(repo) && unchanged(queue)
    ensures dnis.Some? && dnis.value != [] && AcceptedDnis(dnis.value) == [] ==>
      r == Failure("No valid DNIs found after filtering.") && unchanged(repo) && unchanged(queue)
    ensures dnis.Some? && AcceptedDnis(dnis.value) != [] ==>
      var accepted := AcceptedDnis(dnis.value);
      && r == Success(BulkUploadResponse(old(repo.nextBatchId), fileName, |accepted|,
                        "Se cargaron " + NatToString(|accepted|) + " DNIs correctamente"))
      && repo.batches == old(repo.batches) + [Batch(old(repo.nextBatchId), fileName, |accepted|, now)]
      && repo.records == old(repo.records)
           + DniRecordRepository.NewRecords(old(repo.nextBatchId), accepted, old(repo.nextRecordId), now)
      && queue.queues == PushAll(old(queue.queues), UniversityQueue, QueueItems(old(repo.nextBatchId), accepted))
      && queue.handlers == old(queue.handlers)
  {
    if dnis.None? || dnis.value == [] {
      return Failure("No valid DNIs provided.");
    }
    var unique := AcceptedDnis(dnis.value);
    if unique == [] {
      return Failure("No valid DNIs found after filtering.");
    }
    var batch := repo.CreateBatch(fileName, unique, now);
    queue.EnqueueBulk(UniversityQueue, QueueItems(batch.id, unique));
    r := Success(BulkUploadResponse(batch.id, fileName, batch.totalDnis,
                   "Se cargaron " + NatToString(batch.totalDnis) + " DNIs correctamente"));
  }

  datatype StageInfo = StageInfo(pending: nat, processing: nat, found: nat, errors: nat, derivedToNext: nat, notFound: nat)

  datatype RetryInfo = RetryInfo(retryable: nat, pipelineIdle: bool, canRetry: bool)

  /** The progress figure, kept as the exact fraction `completed / total` that the source rounds to a percentage. */
  datatype Progress = NoProgress | Fraction(completed: nat, total: nat)

  datatype StatusResponse = StatusResponse(
    total: nat,
    completed: nat,
    inProgress: nat,
    progress: Progress,
    counts: map<string, nat>,
    university: StageInfo,
    institute: StageInfo,
    retry: RetryInfo)

  /** The local `Get`: a missing status counts 0. */
  function Get(counts: map<DniStatus, nat>, s: DniStatus): (n: nat)
    ensures s !in counts ==> n == 0
  {
    if s in counts then counts[s] else 0
  }

  /** `counts.ToDictionary(kv => kv.Key.ToString(), ...)`. */
  function CountsByName(counts: map<DniStatus, nat>): (m: map<string, nat>)
    ensures forall s :: s in counts ==> Name(s) in m && m[Name(s)] == counts[s]
    ensures forall k :: k in m ==> exists s :: s in counts && Name(s) == k
  {
    assert forall s, t :: s in counts && t in counts && Name(s) == Name(t) ==> s == t by {
      forall s, t | s in counts && t in counts && Name(s) == Name(t) ensures s == t {
        NameInjective(s, t);
      }
    }
    map s | s in counts :: Name(s) := counts[s]
  }

  /** `GetStatusUseCase.ExecuteAsync` over the four repository query results. */
  function GetStatus(counts: map<DniStatus, nat>, total: nat, retryable: nat, hasActive: bool): (r: StatusResponse)
    ensures r.total == total
    ensures r.completed == Get(counts, FoundUniversity) + Get(counts, FoundInstitute)
                         + Get(counts, NotFound) + Get(counts, Failed)
    ensures r.inProgress == Get(counts, CheckingUniversity) + Get(counts, CheckingInstitute)
    ensures total > 0 ==> r.progress == Fraction(r.completed, total)
    ensures r.counts == CountsByName(counts)
    ensures r.university == StageInfo(Get(counts, Pending), Get(counts, CheckingUniversity),
                                      Get(counts, FoundUniversity), 0, Get(counts, CheckingInstitute), 0)
    ensures r.institute == StageInfo(Get(counts, CheckingInstitute), Get(counts, CheckingInstitute),
                                     Get(counts, FoundInstitute), 0, 0, Get(counts, NotFound))
    ensures r.institute.pending == r.institute.processing == r.university.derivedToNext
    ensures r.retry.retryable == retryable
    ensures r.retry.canRetry <==> r.retry.pipelineIdle && retryable > 0
    ensures r.retry.pipelineIdle <==> !hasActive && total > 0
    ensures total == 0 ==> r.progress == NoProgress
    ensures r.university.errors == 0 && r.institute.errors == 0
  {
    var completed := Get(counts, FoundUniversity) + Get(counts, FoundInstitute) + Get(counts, NotFound) + Get(counts, Failed);
    var inProgress := Get(counts, CheckingUniversity) + Get(counts, CheckingInstitute);
    StatusResponse(
      total,
      completed,
      inProgress,
      if total > 0 then Fraction(completed, total) else NoProgress,
      CountsByName(counts),
      StageInfo(Get(counts, Pending), Get(counts, CheckingUniversity), Get(counts, FoundUniversity), 0,
                Get(counts, CheckingInstitute), 0),
      StageInfo(Get(counts, CheckingInstitute), Get(counts, CheckingInstitute), Get(counts, FoundInstitute), 0,
                0, Get(counts, NotFound)),
      RetryInfo(retryable, !hasActive && total > 0, !hasActive && total > 0 && retryable > 0))
  }

  /** The status the use case reports for a given table of records. */
  function StatusOf(rs: seq<DniRecord>): StatusResponse
  {
    CountStatusPositive(rs, Pending);
    CountStatusPositive(rs, CheckingUniversity);
    CountStatusPositive(rs, CheckingInstitute);
    GetStatus(CountsByStatus(rs), |rs|, CountRetryableIn(rs),
              CountStatus(rs, Pending) + CountStatus(rs, CheckingUniversity) + CountStatus(rs, CheckingInstitute) > 0)
  }

  /**
   * On a real table: Completed counts the terminal records, InProgress the checking ones, Pending
   * the rest, so the three add up to Total; retry is offered exactly when nothing is active and
   * some record is retryable.
   */
  lemma StatusOfRecords(rs: seq<DniRecord>)
    ensures var st := StatusOf(rs);
      && st.total == |rs|
      && st.completed == CountStatus(rs, FoundUniversity) + CountStatus(rs, FoundInstitute)
                       + CountStatus(rs, NotFound) + CountStatus(rs, Failed)
      && st.inProgress == CountStatus(rs, CheckingUniversity) + CountStatus(rs, CheckingInstitute)
      && st.completed + st.inProgress + st.university.pending == st.total
      && (st.retry.canRetry <==>
            (forall i :: 0 <= i < |rs| ==> !IsActive(rs[i].status))
            && (exists i :: 0 <= i < |rs| && IsRetryable(rs[i].status)))
  {
    CountsSumToTotal(rs);
    CountStatusPositive(rs, Pending);
    CountStatusPositive(rs, CheckingUniversity);
    CountStatusPositive(rs, CheckingInstitute);
    CountStatusPositive(rs, NotFound);
    CountStatusPositive(rs, Failed);
    var counts := CountsByStatus(rs);
    assert forall s :: Get(counts, s) == CountStatus(rs, s);
  }

  /**
   * On a real table, each stage reports the records of its own statuses: the university stage
   * its Pending, CheckingUniversity and FoundUniversity records and, as derived, the
   * CheckingInstitute ones, which the institute stage reports as pending and processing next to
   * its FoundInstitute and NotFound records.
   */
  lemma StatusOfRecordsStages(rs: seq<DniRecord>)
    ensures StatusOf(rs).university.pending == CountStatus(rs, Pending)
    ensures StatusOf(rs).university.processing == CountStatus(rs, CheckingUniversity)
    ensures StatusOf(rs).university.found == CountStatus(rs, FoundUniversity)
    ensures StatusOf(rs).university.derivedToNext == CountStatus(rs, CheckingInstitute)
    ensures StatusOf(rs).institute.pending == CountStatus(rs, CheckingInstitute)
    ensures StatusOf(rs).institute.processing == CountStatus(rs, CheckingInstitute)
    ensures StatusOf(rs).institute.found == CountStatus(rs, FoundInstitute)
    ensures StatusOf(rs).institute.notFound == CountStatus(rs, NotFound)
    ensures StatusOf(rs).retry.retryable == CountStatus(rs, NotFound) + CountStatus(rs, Failed)
  {
    CountStatusPositive(rs, Pending);
    CountStatusPositive(rs, CheckingUniversity);
    CountStatusPositive(rs, CheckingInstitute);
    CountStatusPositive(rs, FoundUniversity);
    CountStatusPositive(rs, FoundInstitute);
    CountStatusPositive(rs, NotFound);
    var counts := CountsByStatus(rs);
    assert forall s :: Get(counts, s) == CountStatus(rs, s);
  }

  datatype RetryResponse = RetryResponse(message: string, count: nat)

  /** The largest page `RetryUseCase` reads back. */
  const RetryPageSize: nat := 50000

  /** `RetryUseCase.ExecuteAsync`; the InvalidOperationException is a failure. */
  method Retry(repo: DniRecordRepository, queue: InMemoryQueueService, now: int) returns (r: Result<RetryResponse, string>)
    requires repo.Valid()
    modifies repo, queue
    ensures repo.Valid()
    ensures old(repo.HasActiveWork()) ==> r == Failure("Aún hay registros en proceso.") && unchanged(repo) && unchanged(queue)
    ensures !old(repo.HasActiveWork()) ==> repo.records == RetriedAll(old(repo.records), now)
    ensures !old(repo.HasActiveWork()) && CountRetryableIn(old(repo.records)) == 0 ==>
      r == Success(RetryResponse("No hay registros para reintentar", 0)) && unchanged(queue)
    ensures !old(repo.HasActiveWork()) && CountRetryableIn(old(repo.records)) > 0 ==>
      var n := CountRetryableIn(old(repo.records));
      && r == Success(RetryResponse("Se re-encolaron " + NatToString(n) + " registros", n))
      && queue.queues == PushAll(old(queue.queues), UniversityQueue,
           RecordItems(Page(Filtered(RetriedAll(old(repo.records), now), Some(Pending), None), RetryPageSize, 0)))
      && queue.handlers == old(queue.handlers)
  {
    if repo.HasActiveWork() {
      return Failure("Aún hay registros en proceso.");
    }
    var retried := repo.RetryFailed(now);
    if retried == 0 {
      return Success(RetryResponse("No hay registros para reintentar", 0));
    }
    var records := repo.GetRecords(Some(Pending), None, RetryPageSize, 0);
    queue.EnqueueBulk(UniversityQueue, RecordItems(records));
    r := Success(RetryResponse("Se re-encolaron " + NatToString(retried) + " registros", retried));
  }

  /** The retryable records of a table, in id order. */
  function RetryableRecords(rs: seq<DniRecord>): (r: seq<DniRecord>)
    ensures |r| == CountRetryableIn(rs)
  {
    if rs == [] then []
    else
      var init := RetryableRecords(rs[..|rs| - 1]);
      if IsRetryable(rs[|rs| - 1].status) then init + [rs[|rs| - 1]] else init
  }

  /**
   * With no Pending record beforehand, the Pending records after a retry are exactly the retried
   * ones, in id order, so Retry enqueues one item per retried record (up to the page size).
   */
  lemma {:induction false} RetryEnqueuesRetried(rs: seq<DniRecord>, now: int)
    requires forall i :: 0 <= i < |rs| ==> rs[i].status != Pending
    ensures Filtered(RetriedAll(rs, now), Some(Pending), None) == RetriedAll(RetryableRecords(rs), now)
  {
    if rs != [] {
      var init := rs[..|rs| - 1];
      var x := rs[|rs| - 1];
      assert rs == init + [x];
      assert forall i :: 0 <= i < |init| ==> init[i] == rs[i];
      RetryEnqueuesRetried(init, now);
      RetriedAllAppend(init, x, now);
      var after := RetriedAll(rs, now);
      assert after[..|rs| - 1] == RetriedAll(init, now);
      assert after[|rs| - 1] == RetryOne(x, now);
      assert Matches(RetryOne(x, now), Some(Pending), None) <==> IsRetryable(x.status);
      if IsRetryable(x.status) {
        RetriedAllAppend(RetryableRecords(init), x, now);
      }
    }
  }

  /** Retrying one more record appends its retried form. */
  lemma RetriedAllAppend(a: seq<DniRecord>, x: DniRecord, now: int)
    ensures RetriedAll(a + [x], now) == RetriedAll(a, now) + [RetryOne(x, now)]
  {
    assert forall k :: 0 <= k < |a| ==> (a + [x])[k] == a[k];
  }

  /** How many items Retry enqueues when no record was Pending: every retried record, capped at the page size. */
  lemma RetryEnqueueCount(rs: seq<DniRecord>, now: int)
    requires forall i :: 0 <= i < |rs| ==> rs[i].status != Pending
    ensures |Page(Filtered(RetriedAll(rs, now), Some(Pending), None), RetryPageSize, 0)|
            == if CountRetryableIn(rs) <= RetryPageSize then CountRetryableIn(rs) else RetryPageSize
  {
    RetryEnqueuesRetried(rs, now);
  }
}
