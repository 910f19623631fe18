/**
 * The C# record store (`DniRecordRepository`): a table of DNI records ordered by id and a
 * table of batches. Ids come from a counter that only grows, as an identity column does.
 */
module CsStore {
  import opened Wrappers
  import opened DniStatus

  datatype DniRecord = DniRecord(
    id: nat,
    batchId: nat,
    dni: string,
    status: DniStatus,
    retryCount: nat,
    payloadSunedu: Option<string>,
    payloadMinedu: Option<string>,
    errorMessage: Option<string>,
    createdAt: int,
    updatedAt: int)

  datatype Batch = Batch(id: nat, fileName: string, totalDnis: nat, createdAt: int)

  predicate IdsAscending(rs: seq<DniRecord>)
  {
    forall i, j :: 0 <= i < j < |rs| ==> rs[i].id < rs[j].id
  }

  predicate BatchIdsAscending(bs: seq<Batch>)
  {
    forall i, j :: 0 <= i < j < |bs| ==> bs[i].id < bs[j].id
  }

  /** Two tables holding the same ids in the same places. */
  predicate SameIds(a: seq<DniRecord>, b: seq<DniRecord>)
  {
    |a| == |b| && forall i :: 0 <= i < |a| ==> a[i].id == b[i].id
  }

  lemma SameIdsKeepOrder(a: seq<DniRecord>, b: seq<DniRecord>)
    requires IdsAscending(a) && SameIds(a, b)
    ensures IdsAscending(b)
  {
  }

  /** How many records hold status `st`. */
  function CountStatus(rs: seq<DniRecord>, st: DniStatus): (n: nat)
    ensures n <= |rs|
  {
    if rs == [] then 0
    else CountStatus(rs[..|rs| - 1], st) + (if rs[|rs| - 1].status == st then 1 else 0)
  }

  lemma {:induction false} CountStatusPositive(rs: seq<DniRecord>, st: DniStatus)
    ensures CountStatus(rs, st) > 0 <==> exists i :: 0 <= i < |rs| && rs[i].status == st
  {
    if rs != [] {
      var init := rs[..|rs| - 1];
      CountStatusPositive(init, st);
      if exists i :: 0 <= i < |init| && init[i].status == st {
        var i :| 0 <= i < |init| && init[i].status == st;
        assert rs[i].status == st;
      }
      if exists i :: 0 <= i < |rs| && rs[i].status == st {
        var i :| 0 <= i < |rs| && rs[i].status == st;
        if i < |init| {
          assert init[i].status == st;
        }
      }
    }
  }

  lemma CountStatusPrefix(rs: seq<DniRecord>, i: nat, st: DniStatus)
    requires i < |rs|
    ensures CountStatus(rs[..i + 1], st) == CountStatus(rs[..i], st) + (if rs[i].status == st then 1 else 0)
  {
    assert rs[..i + 1][..i] == rs[..i];
  }

  /** The seven per-status counts add up to the number of records. */
  lemma {:induction false} CountsSumToTotal(rs: seq<DniRecord>)
    ensures CountStatus(rs, Pending) + CountStatus(rs, CheckingUniversity) + CountStatus(rs, FoundUniversity)
          + CountStatus(rs, CheckingInstitute) + CountStatus(rs, FoundInstitute) + CountStatus(rs, NotFound)
          + CountStatus(rs, Failed) == |rs|
  {
    if rs != [] {
      CountsSumToTotal(rs[..|rs| - 1]);
    }
  }

  /** What `GROUP BY Status` returns: a count for each status that occurs, and no entry otherwise. */
  function CountsByStatus(rs: seq<DniRecord>): (m: map<DniStatus, nat>)
    ensures forall s :: s in m <==> CountStatus(rs, s) > 0
    ensures forall s :: s in m ==> m[s] == CountStatus(rs, s)
  {
    map s | s in AllStatuses && CountStatus(rs, s) > 0 :: CountStatus(rs, s)
  }

  /** Looking a status up in the grouped counts gives its count, zero when it does not occur. */
  lemma CountLookup(rs: seq<DniRecord>, s: DniStatus)
    ensures (if s in CountsByStatus(rs) then CountsByStatus(rs)[s] else 0) == CountStatus(rs, s)
  {
  }

  /** The index of the first record with status `st`; ids ascend, so it holds the smallest such id. */
  function FirstWithStatus(rs: seq<DniRecord>, st: DniStatus): (r: Option<nat>)
    ensures r.None? <==> forall i :: 0 <= i < |rs| ==> rs[i].status != st
    ensures r.Some? ==> r.value < |rs| && rs[r.value].status == st
    ensures r.Some? ==> forall i :: 0 <= i < r.value ==> rs[i].status != st
  {
    if rs == [] then None
    else if rs[0].status == st then Some(0)
    else match FirstWithStatus(rs[1..], st)
      case None => None
      case Some(k) => Some(k + 1)
  }

  datatype ClaimResult = ClaimResult(records: seq<DniRecord>, claimed: Option<DniRecord>)

  /**
   * `UPDATE TOP(1) ... OUTPUT INSERTED.*`: the smallest-id record in `from` moves to `to` with a
   * fresh UpdatedAt and is returned as updated; with no such record nothing changes.
   */
  function Claim(rs: seq<DniRecord>, from: DniStatus, to: DniStatus, now: int): (c: ClaimResult)
    ensures |c.records| == |rs|
  {
    match FirstWithStatus(rs, from)
    case None => ClaimResult(rs, None)
    case Some(i) =>
      var r := rs[i].(status := to, updatedAt := now);
      ClaimResult(rs[i := r], Some(r))
  }

  /** The claim returns the record with the smallest id in `from`, and returns nothing only when there is none. */
  lemma ClaimPicksMinimumId(rs: seq<DniRecord>, from: DniStatus, to: DniStatus, now: int)
    requires IdsAscending(rs)
    ensures Claim(rs, from, to, now).claimed.None? <==> CountStatus(rs, from) == 0
    ensures Claim(rs, from, to, now).claimed.None? ==> Claim(rs, from, to, now).records == rs
    ensures var c := Claim(rs, from, to, now);
      c.claimed.Some? ==> c.claimed.value.status == to && c.claimed.value.updatedAt == now
    ensures var c := Claim(rs, from, to, now);
      c.claimed.Some? ==>
        exists i :: 0 <= i < |rs| && rs[i].status == from && rs[i].id == c.claimed.value.id
          && c.claimed.value == rs[i].(status := to, updatedAt := now)
          && c.records == rs[i := c.claimed.value]
    ensures var c := Claim(rs, from, to, now);
      c.claimed.Some? ==> forall j :: 0 <= j < |rs| && rs[j].status == from ==> c.claimed.value.id <= rs[j].id
  {
    CountStatusPositive(rs, from);
    var c := Claim(rs, from, to, now);
    match FirstWithStatus(rs, from)
    case None =>
    case Some(i) =>
      assert c.claimed == Some(rs[i].(status := to, updatedAt := now));
      assert c.records == rs[i := c.claimed.value];
      forall j | 0 <= j < |rs| && rs[j].status == from
        ensures c.claimed.value.id <= rs[j].id
      {
        assert i <= j;
      }
  }

  /** A claim keeps every id in place, so the ids stay in ascending order. */
  lemma ClaimKeepsIds(rs: seq<DniRecord>, from: DniStatus, to: DniStatus, now: int)
    requires IdsAscending(rs)
    ensures var c := Claim(rs, from, to, now);
      && IdsAscending(c.records)
      && (forall i :: 0 <= i < |rs| ==> c.records[i].id == rs[i].id)
  {
  }

  /** Two claims in a row from `from` to another status never hand out the same record. */
  lemma ClaimTwiceDistinct(rs: seq<DniRecord>, from: DniStatus, to: DniStatus, now1: int, now2: int)
    requires IdsAscending(rs) && from != to
    ensures var c1 := Claim(rs, from, to, now1);
      var c2 := Claim(c1.records, from, to, now2);
      c1.claimed.Some? && c2.claimed.Some? ==> c1.claimed.value.id != c2.claimed.value.id
  {
    var c1 := Claim(rs, from, to, now1);
    ClaimKeepsIds(rs, from, to, now1);
    var c2 := Claim(c1.records, from, to, now2);
    if c1.claimed.Some? && c2.claimed.Some? {
      var i := FirstWithStatus(rs, from).value;
      var j := FirstWithStatus(c1.records, from).value;
      assert c1.records[i].status == to;
      assert i != j;
      assert c1.records[i].id == c1.claimed.value.id;
    }
  }

  /** `UpdateStatusAsync` applied to one record: each nullable argument overwrites only when present. */
  function UpdateOne(r: DniRecord, status: DniStatus, payloadSunedu: Option<string>,
                     payloadMinedu: Option<string>, errorMessage: Option<string>, now: int): DniRecord
  {
    r.(status := status,
       updatedAt := now,
       payloadSunedu := if payloadSunedu.Some? then payloadSunedu else r.payloadSunedu,
       payloadMinedu := if payloadMinedu.Some? then payloadMinedu else r.payloadMinedu,
       errorMessage := if errorMessage.Some? then errorMessage else r.errorMessage)
  }

  /** The index of the record with a given id. */
  function IndexOfId(rs: seq<DniRecord>, id: nat): (r: Option<nat>)
    ensures r.None? <==> forall i :: 0 <= i < |rs| ==> rs[i].id != id
    ensures r.Some? ==> r.value < |rs| && rs[r.value].id == id
  {
    if rs == [] then None
    else if rs[0].id == id then Some(0)
    else match IndexOfId(rs[1..], id)
      case None => None
      case Some(k) => Some(k + 1)
  }

  function UpdateById(rs: seq<DniRecord>, id: nat, status: DniStatus, payloadSunedu: Option<string>,
                      payloadMinedu: Option<string>, errorMessage: Option<string>, now: int): (r: seq<DniRecord>)
    ensures SameIds(rs, r)
  {
    match IndexOfId(rs, id)
    case None => rs
    case Some(i) => rs[i := UpdateOne(rs[i], status, payloadSunedu, payloadMinedu, errorMessage, now)]
  }

  /**
   * Updating an unknown id changes nothing; otherwise only the record with that id changes, and its
   * payloads and error keep their old value exactly when the matching argument is null.
   */
  lemma UpdateByIdEffect(rs: seq<DniRecord>, id: nat, status: DniStatus, ps: Option<string>,
                         pm: Option<string>, err: Option<string>, now: int)
    requires IdsAscending(rs)
    ensures (forall i :: 0 <= i < |rs| ==> rs[i].id != id) ==> UpdateById(rs, id, status, ps, pm, err, now) == rs
    ensures var r := UpdateById(rs, id, status, ps, pm, err, now);
      forall i :: 0 <= i < |rs| && rs[i].id != id ==> r[i] == rs[i]
    ensures var r := UpdateById(rs, id, status, ps, pm, err, now);
      forall i :: 0 <= i < |rs| && rs[i].id == id ==>
        && r[i].id == id && r[i].status == status && r[i].updatedAt == now
        && r[i].dni == rs[i].dni && r[i].batchId == rs[i].batchId && r[i].retryCount == rs[i].retryCount
        && (ps.None? ==> r[i].payloadSunedu == rs[i].payloadSunedu)
        && (ps.Some? ==> r[i].payloadSunedu == ps)
        && (pm.None? ==> r[i].payloadMinedu == rs[i].payloadMinedu)
        && (pm.Some? ==> r[i].payloadMinedu == pm)
        && (err.None? ==> r[i].errorMessage == rs[i].errorMessage)
        && (err.Some? ==> r[i].errorMessage == err)
  {
    match IndexOfId(rs, id)
    case None =>
    case Some(i) =>
      assert forall j :: 0 <= j < |rs| && rs[j].id == id ==> j == i;
  }

  /** The effect of `RetryFailedAsync` on one record. */
  function RetryOne(r: DniRecord, now: int): DniRecord
  {
    if IsRetryable(r.status) then
      r.(status := Pending, retryCount := r.retryCount + 1, updatedAt := now, errorMessage := None)
    else r
  }

  function RetriedAll(rs: seq<DniRecord>, now: int): (r: seq<DniRecord>)
    ensures |r| == |rs|
  {
    seq(|rs|, i requires 0 <= i < |rs| => RetryOne(rs[i], now))
  }

  function CountRetryableIn(rs: seq<DniRecord>): nat
  {
    CountStatus(rs, NotFound) + CountStatus(rs, Failed)
  }

  /**
   * Retry leaves no retryable record, moves exactly the retryable ones to Pending with one more
   * retry, a fresh UpdatedAt and no error message, and keeps every other record, every id, dni and
   * payload.
   */
  lemma {:induction false} RetriedAllEffect(rs: seq<DniRecord>, now: int)
    ensures var r := RetriedAll(rs, now);
      && CountRetryableIn(r) == 0
      && CountStatus(r, Pending) == CountStatus(rs, Pending) + CountRetryableIn(rs)
      && (forall i :: 0 <= i < |rs| && !IsRetryable(rs[i].status) ==> r[i] == rs[i])
      && (forall i :: 0 <= i < |rs| && IsRetryable(rs[i].status) ==>
            r[i] == rs[i].(status := Pending, retryCount := rs[i].retryCount + 1, updatedAt := now, errorMessage := None))
      && (forall i :: 0 <= i < |rs| ==>
            && r[i].id == rs[i].id && r[i].dni == rs[i].dni
            && r[i].payloadSunedu == rs[i].payloadSunedu && r[i].payloadMinedu == rs[i].payloadMinedu)
  {
    if rs != [] {
      var init := rs[..|rs| - 1];
      RetriedAllEffect(init, now);
      assert RetriedAll(rs, now)[..|rs| - 1] == RetriedAll(init, now);
    }
  }

  /** The effect of `RecoverStuckAsync` on one record: only CheckingUniversity is reset. */
  function RecoverOne(r: DniRecord): DniRecord
  {
    if r.status == CheckingUniversity then r.(status := Pending) else r
  }

  function RecoveredAll(rs: seq<DniRecord>): (r: seq<DniRecord>)
    ensures |r| == |rs|
  {
    seq(|rs|, i requires 0 <= i < |rs| => RecoverOne(rs[i]))
  }

  /**
   * Recovery empties CheckingUniversity into Pending, keeps every CheckingInstitute record as it was,
   * and touches no other record or timestamp.
   */
  lemma {:induction false} RecoveredAllEffect(rs: seq<DniRecord>)
    ensures var r := RecoveredAll(rs);
      && CountStatus(r, CheckingUniversity) == 0
      && CountStatus(r, Pending) == CountStatus(rs, Pending) + CountStatus(rs, CheckingUniversity)
      && CountStatus(r, CheckingInstitute) == CountStatus(rs, CheckingInstitute)
      && (forall i :: 0 <= i < |rs| && rs[i].status != CheckingUniversity ==> r[i] == rs[i])
      && (forall i :: 0 <= i < |rs| ==> r[i].updatedAt == rs[i].updatedAt)
  {
    if rs != [] {
      var init := rs[..|rs| - 1];
      RecoveredAllEffect(init);
      assert RecoveredAll(rs)[..|rs| - 1] == RecoveredAll(init);
    }
  }

  predicate Matches(x: DniRecord, status: Option<DniStatus>, batchId: Option<int>)
  {
    (status.None? || x.status == status.value) && (batchId.None? || x.batchId == batchId.value)
  }

  /** The query behind `GetRecordsAsync` before paging: the optional filters, in id order. */
  function Filtered(rs: seq<DniRecord>, status: Option<DniStatus>, batchId: Option<int>): (r: seq<DniRecord>)
    ensures |r| <= |rs|
    ensures forall k :: 0 <= k < |r| ==> r[k] in rs
    ensures forall k :: 0 <= k < |r| ==>
      (status.Some? ==> r[k].status == status.value) && (batchId.Some? ==> r[k].batchId == batchId.value)
  {
    if rs == [] then []
    else
      var init := Filtered(rs[..|rs| - 1], status, batchId);
      var x := rs[|rs| - 1];
      if Matches(x, status, batchId) then init + [x] else init
  }

  lemma {:induction false} FilteredKeepsOrder(rs: seq<DniRecord>, status: Option<DniStatus>, batchId: Option<int>)
    requires IdsAscending(rs)
    ensures IdsAscending(Filtered(rs, status, batchId))
  {
    if rs != [] {
      var init := rs[..|rs| - 1];
      var x := rs[|rs| - 1];
      assert forall i :: 0 <= i < |init| ==> init[i] == rs[i];
      FilteredKeepsOrder(init, status, batchId);
      var f := Filtered(init, status, batchId);
      forall k | 0 <= k < |f| ensures f[k].id < x.id {
        var j :| 0 <= j < |init| && init[j] == f[k];
        assert rs[j].id < x.id;
      }
      AppendAscending(f, x);
    }
  }

  lemma AppendAscending(f: seq<DniRecord>, x: DniRecord)
    requires IdsAscending(f) && forall k :: 0 <= k < |f| ==> f[k].id < x.id
    ensures IdsAscending(f + [x])
  {
  }

  /** Every record that passes the filters appears in the result. */
  lemma {:induction false} FilteredComplete(rs: seq<DniRecord>, status: Option<DniStatus>, batchId: Option<int>, x: DniRecord)
    requires x in rs && Matches(x, status, batchId)
    ensures x in Filtered(rs, status, batchId)
  {
    var init := rs[..|rs| - 1];
    assert rs == init + [rs[|rs| - 1]];
    if x != rs[|rs| - 1] {
      FilteredComplete(init, status, batchId, x);
    }
  }

  /** `Skip(offset).Take(limit)`. */
  function Page(s: seq<DniRecord>, limit: nat, offset: nat): (r: seq<DniRecord>)
    ensures |r| <= limit
    ensures offset >= |s| ==> r == []
    ensures offset < |s| ==> |r| == if offset + limit <= |s| then limit else |s| - offset
    ensures offset < |s| ==> forall k :: 0 <= k < |r| ==> r[k] == s[offset + k]
  {
    var start := if offset <= |s| then offset else |s|;
    var end := if offset + limit <= |s| then offset + limit else |s|;
    s[start..end]
  }

  /** A page is a run of consecutive elements, so it keeps their order. */
  lemma PageKeepsOrder(s: seq<DniRecord>, limit: nat, offset: nat)
    requires IdsAscending(s)
    ensures IdsAscending(Page(s, limit, offset))
    ensures forall k :: 0 <= k < |Page(s, limit, offset)| ==> Page(s, limit, offset)[k] in s
  {
    var r := Page(s, limit, offset);
    if offset < |s| {
      assert forall k :: 0 <= k < |r| ==> r[k] == s[offset + k];
    }
  }

  /** Two consecutive pages join into one page of the combined size. */
  lemma PagesJoin(s: seq<DniRecord>, l1: nat, l2: nat, offset: nat)
    ensures Page(s, l1, offset) + Page(s, l2, offset + l1) == Page(s, l1 + l2, offset)
  {
  }

  class DniRecordRepository {
    var records: seq<DniRecord>
    var batches: seq<Batch>
    var nextRecordId: nat
    var nextBatchId: nat

    ghost predicate Valid()
      reads this
    {
      && IdsAscending(records)
      && (forall i :: 0 <= i < |records| ==> 1 <= records[i].id < nextRecordId)
      && BatchIdsAscending(batches)
      && (forall i :: 0 <= i < |batches| ==> 1 <= batches[i].id < nextBatchId)
      && 1 <= nextRecordId && 1 <= nextBatchId
    }

    constructor ()
      ensures Valid() && records == [] && batches == []
    {
      records := [];
      batches := [];
      nextRecordId := 1;
      nextBatchId := 1;
    }

    /** The records a new batch adds: one Pending record per input value, in input order. */
    static function NewRecords(batchId: nat, dnis: seq<string>, firstId: nat, now: int): (r: seq<DniRecord>)
      ensures |r| == |dnis|
      ensures forall k :: 0 <= k < |r| ==>
        r[k] == DniRecord(firstId + k, batchId, dnis[k], Pending, 0, None, None, None, now, now)
    {
      seq(|dnis|, k requires 0 <= k < |dnis| =>
        DniRecord(firstId + k, batchId, dnis[k], Pending, 0, None, None, None, now, now))
    }

    /** `CreateBatchAsync`: no filtering or de-duplication happens here. */
    method CreateBatch(fileName: string, dnis: seq<string>, now: int) returns (batch: Batch)
      requires Valid()
      modifies this
      ensures Valid()
      ensures batch == Batch(old(nextBatchId), fileName, |dnis|, now)
      ensures batches == old(batches) + [batch]
      ensures records == old(records) + NewRecords(batch.id, dnis, old(nextRecordId), now)
      ensures nextBatchId == old(nextBatchId) + 1 && nextRecordId == old(nextRecordId) + |dnis|
    {
      batch := Batch(nextBatchId, fileName, |dnis|, now);
      batches := batches + [batch];
      nextBatchId := nextBatchId + 1;
      records := records + NewRecords(batch.id, dnis, nextRecordId, now);
      nextRecordId := nextRecordId + |dnis|;
    }

    /** `DequeueNextAsync`. */
    method DequeueNext(from: DniStatus, to: DniStatus, now: int) returns (r: Option<DniRecord>)
      requires Valid()
      modifies this
      ensures Valid()
      ensures ClaimResult(records, r) == Claim(old(records), from, to, now)
      ensures batches == old(batches) && nextRecordId == old(nextRecordId) && nextBatchId == old(nextBatchId)
    {
      var c := Claim(records, from, to, now);
      ClaimKeepsIds(records, from, to, now);
      records := c.records;
      r := c.claimed;
    }

    /** `UpdateStatusAsync`. */
    method UpdateStatus(recordId: nat, status: DniStatus, payloadSunedu: Option<string>,
                        payloadMinedu: Option<string>, errorMessage: Option<string>, now: int)
      requires Valid()
      modifies this
      ensures Valid()
      ensures records == UpdateById(old(records), recordId, status, payloadSunedu, payloadMinedu, errorMessage, now)
      ensures batches == old(batches) && nextRecordId == old(nextRecordId) && nextBatchId == old(nextBatchId)
    {
      var updated := UpdateById(records, recordId, status, payloadSunedu, payloadMinedu, errorMessage, now);
      SameIdsKeepOrder(records, updated);
      records := updated;
    }

    /** `GetCountsByStatusAsync`: every count it reports is positive, and together they cover every record. */
    function GetCountsByStatus(): (m: map<DniStatus, nat>)
      reads this
      ensures forall s :: s in m ==> m[s] > 0
      ensures (if Pending in m then m[Pending] else 0) + (if CheckingUniversity in m then m[CheckingUniversity] else 0)
            + (if FoundUniversity in m then m[FoundUniversity] else 0)
            + (if CheckingInstitute in m then m[CheckingInstitute] else 0)
            + (if FoundInstitute in m then m[FoundInstitute] else 0)
            + (if NotFound in m then m[NotFound] else 0) + (if Failed in m then m[Failed] else 0) == |records|
    {
      CountLookup(records, Pending);
      CountLookup(records, CheckingUniversity);
      CountLookup(records, FoundUniversity);
      CountLookup(records, CheckingInstitute);
      CountLookup(records, FoundInstitute);
      CountLookup(records, NotFound);
      CountLookup(records, Failed);
      CountsSumToTotal(records);
      CountsByStatus(records)
    }

    function GetTotalCount(): (n: nat)
      reads this
      ensures n == |records|
    {
      |records|
    }

    /** `GetRecordsAsync`: a page of the filtered records in id order. */
    function GetRecords(status: Option<DniStatus>, batchId: Option<int>, limit: nat, offset: nat): (r: seq<DniRecord>)
      requires Valid()
      reads this
      ensures |r| <= limit && IdsAscending(r)
      ensures r == Page(Filtered(records, status, batchId), limit, offset)
      ensures forall k :: 0 <= k < |r| ==> r[k] in records
      ensures forall k :: 0 <= k < |r| ==>
        (status.Some? ==> r[k].status == status.value) && (batchId.Some? ==> r[k].batchId == batchId.value)
    {
      FilteredKeepsOrder(records, status, batchId);
      var f := Filtered(records, status, batchId);
      PageKeepsOrder(f, limit, offset);
      Page(f, limit, offset)
    }

    /** `HasActiveWorkAsync`. */
    function HasActiveWork(): (b: bool)
      reads this
      ensures b <==> exists i :: 0 <= i < |records| && IsActive(records[i].status)
    {
      CountStatusPositive(records, Pending);
      CountStatusPositive(records, CheckingUniversity);
      CountStatusPositive(records, CheckingInstitute);
      CountStatus(records, Pending) + CountStatus(records, CheckingUniversity) + CountStatus(records, CheckingInstitute) > 0
    }

    /** `CountRetryableAsync`. */
    function CountRetryable(): (n: nat)
      reads this
      ensures n == CountStatus(records, NotFound) + CountStatus(records, Failed)
      ensures n > 0 <==> exists i :: 0 <= i < |records| && IsRetryable(records[i].status)
    {
      CountStatusPositive(records, NotFound);
      CountStatusPositive(records, Failed);
      CountRetryableIn(records)
    }

    /** `RetryFailedAsync`. */
    method RetryFailed(now: int) returns (n: nat)
      requires Valid()
      modifies this
      ensures Valid()
      ensures records == RetriedAll(old(records), now)
      ensures n == CountRetryableIn(old(records))
      ensures batches == old(batches) && nextRecordId == old(nextRecordId) && nextBatchId == old(nextBatchId)
    {
      var i := 0;
      n := 0;
      while i < |records|
        invariant 0 <= i <= |records| == |old(records)|
        invariant forall k :: 0 <= k < |records| ==> records[k] == if k < i then RetryOne(old(records)[k], now) else old(records)[k]
        invariant n == CountRetryableIn(old(records)[..i])
        invariant batches == old(batches) && nextRecordId == old(nextRecordId) && nextBatchId == old(nextBatchId)
      {
        CountStatusPrefix(old(records), i, NotFound);
        CountStatusPrefix(old(records), i, Failed);
        var r := records[i];
        if IsRetryable(r.status) {
          records := records[i := r.(status := Pending, retryCount := r.retryCount + 1,
                                     updatedAt := now, errorMessage := None)];
          n := n + 1;
        }
        i := i + 1;
      }
      assert old(records)[..i] == old(records);
      assert SameIds(old(records), records);
      SameIdsKeepOrder(old(records), records);
    }

    /** `RecoverStuckAsync`: the second loop writes CheckingInstitute over CheckingInstitute. */
    method RecoverStuck() returns (uni: nat, inst: nat)
      requires Valid()
      modifies this
      ensures Valid()
      ensures records == RecoveredAll(old(records))
      ensures uni == CountStatus(old(records), CheckingUniversity)
      ensures inst == CountStatus(old(records), CheckingInstitute)
      ensures batches == old(batches) && nextRecordId == old(nextRecordId) && nextBatchId == old(nextBatchId)
    {
      var rs;
      rs, uni := RecoverUniversity(records);
      rs, inst := RewriteInstitute(rs);
      RecoveredAllEffect(records);
      assert forall k :: 0 <= k < |rs| ==> rs[k].id == records[k].id;
      SameIdsKeepOrder(records, rs);
      records := rs;
    }

    /** The first loop of `RecoverStuckAsync`: every CheckingUniversity record goes back to Pending. */
    static method RecoverUniversity(rs: seq<DniRecord>) returns (out: seq<DniRecord>, n: nat)
      ensures out == RecoveredAll(rs)
      ensures n == CountStatus(rs, CheckingUniversity)
    {
      out := rs;
      n := 0;
      var i := 0;
      while i < |out|
        invariant 0 <= i <= |out| == |rs|
        invariant forall k :: 0 <= k < |out| ==> out[k] == if k < i then RecoverOne(rs[k]) else rs[k]
        invariant n == CountStatus(rs[..i], CheckingUniversity)
      {
        CountStatusPrefix(rs, i, CheckingUniversity);
        var r := out[i];
        if r.status == CheckingUniversity {
          out := out[i := r.(status := Pending)];
          n := n + 1;
        }
        i := i + 1;
      }
      assert rs[..i] == rs;
    }

    /** The second loop of `RecoverStuckAsync`: it sets CheckingInstitute where it already is, and counts. */
    static method RewriteInstitute(rs: seq<DniRecord>) returns (out: seq<DniRecord>, n: nat)
      ensures out == rs
      ensures n == CountStatus(rs, CheckingInstitute)
    {
      out := rs;
      n := 0;
      var i := 0;
      while i < |out|
        invariant 0 <= i <= |out| == |rs|
        invariant out == rs
        invariant n == CountStatus(rs[..i], CheckingInstitute)
      {
        CountStatusPrefix(rs, i, CheckingInstitute);
        var r := out[i];
        if r.status == CheckingInstitute {
          out := out[i := r.(status := CheckingInstitute)];
          n := n + 1;
        }
        i := i + 1;
      }
      assert rs[..i] == rs;
    }

    /** `CleanAllAsync`: deletes every record and batch and reports both counts. */
    method CleanAll() returns (deletedRecords: nat, deletedBatches: nat)
      requires Valid()
      modifies this
      ensures Valid()
      ensures records == [] && batches == []
      ensures deletedRecords == |old(records)| && deletedBatches == |old(batches)|
      ensures nextRecordId == old(nextRecordId) && nextBatchId == old(nextBatchId)
    {
      deletedRecords := |records|;
      deletedBatches := |batches|;
      records := [];
      batches := [];
    }
  }
}
