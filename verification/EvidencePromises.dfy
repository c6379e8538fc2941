/** What becomes of each piece of evidence, told from its row. */
module EvidencePromises {
  import opened Base
  import opened Sums
  import opened EvidenceSweep

  /*** A prune ***/

  /** An upload left pending for seven days. */
  predicate Stale(now: int, row: Row) {
    row.status == Pending && row.createdAt + 604_800_000 <= now
  }

  /** When a photo was stored, or prepared if that is all that is known. */
  function KeptFrom(row: Row): int {
    match row.storedAt case Some(at) => at case None => row.createdAt
  }

  /** A stored photo whose days are over. */
  predicate Expired(now: int, days: Option<nat>, row: Row) {
    row.status == StoredPrivate && days.Some? && KeptFrom(row) + 86_400_000 * days.value <= now
  }

  /** What a prune makes of a row: a stale upload or an expired photo is deleted at that time unless the provider fails,
      and every stored photo is stamped with the end of its days while a policy is set. */
  predicate Becomes(now: int, days: Option<nat>, failing: Failing, row: Row, after: Row) {
    var stamp := if row.status == StoredPrivate && days.Some? then Some(KeptFrom(row) + 86_400_000 * days.value) else row.retainUntil;
    if (Stale(now, row) || Expired(now, days, row)) && !failing(row.objectKey) then
      after == row.(status := Deleted, deletedAt := Some(now), retainUntil := if row.status == Pending then None else stamp)
    else after == row.(retainUntil := stamp)
  }

  function Gone(now: int, days: Option<nat>, failing: Failing): Row -> int {
    (row: Row) => if (Stale(now, row) || Expired(now, days, row)) && !failing(row.objectKey) then 1 else 0
  }

  function LeftDue(now: int, days: Option<nat>, failing: Failing): Row -> int {
    (row: Row) => if (Stale(now, row) || Expired(now, days, row)) && failing(row.objectKey) then 1 else 0
  }

  lemma RowBecomes(now: int, days: Option<nat>, failing: Failing, row: Row)
    ensures Becomes(now, days, failing, row, PrunedRow(now, days, failing, row))
  {
  }

  lemma RowCounts(now: int, days: Option<nat>, failing: Failing, row: Row)
    ensures var pending, stored := Sweep(Pending, now, days, failing), Sweep(StoredPrivate, now, days, failing);
            && Gone(now, days, failing)(row) == Removed(pending)(row) + (if days.Some? then Removed(stored)(row) else 0)
            && LeftDue(now, days, failing)(row) == Failed(pending)(row) + (if days.Some? then Failed(stored)(row) else 0)
  {
  }

  lemma {:induction false} Counts(now: int, days: Option<nat>, failing: Failing, rows: seq<Row>)
    ensures var pending, stored := Sweep(Pending, now, days, failing), Sweep(StoredPrivate, now, days, failing);
            && Sum(rows, Gone(now, days, failing))
               == Sum(rows, Removed(pending)) + (if days.Some? then Sum(rows, Removed(stored)) else 0)
            && Sum(rows, LeftDue(now, days, failing))
               == Sum(rows, Failed(pending)) + (if days.Some? then Sum(rows, Failed(stored)) else 0)
  {
    if rows != [] {
      Counts(now, days, failing, rows[1..]);
      RowCounts(now, days, failing, rows[0]);
    }
  }

  /** A prune under no policy, or one of 120 to 3650 days, makes of every row just that; its deletions and failures are the
      rows gone and the rows left due.  Under any other policy it is refused. */
  lemma PruneIs(now: int, days: Option<nat>, failing: Failing, rows: seq<Row>)
    ensures RetentionOk(days) <==> (days.Some? ==> 120 <= days.value <= 3650)
    ensures |Pruned(now, days, failing, rows)| == |rows|
    ensures forall i :: 0 <= i < |rows| ==> Becomes(now, days, failing, rows[i], Pruned(now, days, failing, rows)[i])
    ensures Sum(rows, LeftDue(now, days, failing)) == FailuresOf(now, days, failing, rows)
    ensures Sum(rows, Gone(now, days, failing))
            == Sum(rows, Removed(Sweep(Pending, now, days, failing)))
               + (if days.Some? then Sum(rows, Removed(Sweep(StoredPrivate, now, days, failing))) else 0)
  {
    PrunedEach(now, days, failing, rows);
    forall i | 0 <= i < |rows| ensures Becomes(now, days, failing, rows[i], Pruned(now, days, failing, rows)[i]) {
      RowBecomes(now, days, failing, rows[i]);
    }
    Counts(now, days, failing, rows);
  }

  /** The pending sweep takes the stale uploads, and the stored sweep every stored photo, to stamp or delete it. */
  lemma TakesIff(s: Sweep, row: Row)
    requires s.status != Deleted
    ensures Selected(s, row) <==> if s.status == Pending then Stale(s.now, row) else row.status == StoredPrivate
  {
  }

  /*** Uploads ***/

  /** No row is of the upload. */
  ghost predicate NewUpload(rows: seq<Row>, uploadId: string) {
    forall i :: 0 <= i < |rows| ==> rows[i].upload.uploadId != uploadId
  }

  /** The upload's row, the last one if there were several. */
  ghost predicate RowOf(rows: seq<Row>, uploadId: string, k: nat) {
    && k < |rows| && rows[k].upload.uploadId == uploadId
    && forall j :: k < j < |rows| ==> rows[j].upload.uploadId != uploadId
  }

  lemma {:induction false} FoundIs(rows: seq<Row>, uploadId: string)
    ensures FindUpload(rows, uploadId).None? <==> NewUpload(rows, uploadId)
    ensures forall k: nat :: FindUpload(rows, uploadId) == Some(k) <==> RowOf(rows, uploadId, k)
  {
    if rows != [] && rows[|rows| - 1].upload.uploadId != uploadId {
      FoundIs(rows[..|rows| - 1], uploadId);
    }
  }

  /** A new upload adds one pending row, prepared now and holding nothing yet; a known one changes nothing. */
  lemma PrepareLeaves(rows: seq<Row>, upload: Upload, objectKey: string, at: nat, now: int)
    requires at <= |rows|
    ensures var later := AfterPrepare(rows, upload, objectKey, at, now);
            if NewUpload(rows, upload.uploadId) then
              && |later| == |rows| + 1 && later[..at] + later[at + 1..] == rows
              && later[at].upload == upload && later[at].objectKey == objectKey && later[at].status == Pending
              && later[at].createdAt == now && later[at].storedAt == None && later[at].retainUntil == None
              && later[at].deletedAt == None
            else later == rows
  {
    FoundIs(rows, upload.uploadId);
  }

  /** The upload is the order's, is not deleted, and its bytes are the ones it was prepared for. */
  ghost predicate Ready(rows: seq<Row>, uploadId: string, orderId: string, bytesMatch: bool, k: nat) {
    RowOf(rows, uploadId, k) && rows[k].upload.orderId == orderId && rows[k].status != Deleted && bytesMatch
  }

  /** A completion succeeds exactly for a ready upload that is stored already, or whose bytes are now written; and it
      marks a pending one stored now, to be kept for the policy's days, and changes nothing else. */
  lemma CompleteLeaves(rows: seq<Row>, uploadId: string, orderId: string, bytesMatch: bool, written: bool, now: int,
                       days: Option<nat>, k: nat)
    requires RowOf(rows, uploadId, k)
    ensures var later := AfterComplete(rows, uploadId, orderId, bytesMatch, written, now, days);
            && (Completable(rows, uploadId, orderId, bytesMatch, written) <==>
                  Ready(rows, uploadId, orderId, bytesMatch, k) && (rows[k].status == StoredPrivate || written))
            && (if Ready(rows, uploadId, orderId, bytesMatch, k) && rows[k].status == Pending && written then
                  later == rows[k := rows[k].(status := StoredPrivate, storedAt := Some(now),
                                              retainUntil := if days.Some? then Some(now + 86_400_000 * days.value) else None)]
                else later == rows)
  {
    FoundIs(rows, uploadId);
  }

  lemma UnknownIsNotCompleted(rows: seq<Row>, uploadId: string, orderId: string, bytesMatch: bool, written: bool, now: int,
                              days: Option<nat>)
    requires NewUpload(rows, uploadId)
    ensures !Completable(rows, uploadId, orderId, bytesMatch, written)
    ensures AfterComplete(rows, uploadId, orderId, bytesMatch, written, now, days) == rows
  {
    FoundIs(rows, uploadId);
  }
}
