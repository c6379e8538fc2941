/** Delivery evidence: uploads prepared and completed, and the retention sweep that deletes what is due. */
module EvidenceSweep {
  import opened Base
  import opened Clock
  import opened Sums

  datatype Status = Pending | StoredPrivate | Deleted

  datatype Upload = Upload(uploadId: string, orderId: string, contentType: string, sizeBytes: nat, sha256: string)

  datatype Row = Row(upload: Upload, objectKey: string, status: Status, createdAt: int, storedAt: Option<int>,
                     retainUntil: Option<int>, deletedAt: Option<int>)

  datatype Error =
    | InvalidRetention
    | UploadIdConflict
    | UploadNotFound
    | ContentMismatch
    | ProviderFailed

  const GRACE := 7 * DAY
  const BATCH := 100

  /** The provider refuses to delete these objects. */
  type Failing = string -> bool

  /** A sweep's settings: the rows it takes, the clock, the retention policy, and the provider's failures. */
  datatype Sweep = Sweep(status: Status, now: int, days: Option<nat>, failing: Failing)

  predicate RetentionOk(days: Option<nat>) {
    days.None? || 120 <= days.value <= 3650
  }

  function RetainUntil(row: Row, days: Option<nat>): Option<int> {
    if days.None? then None
    else Some((if row.storedAt.Some? then row.storedAt.value else row.createdAt) + days.value * DAY)
  }

  /** The rows the sweep's query returns. */
  predicate Selected(s: Sweep, row: Row) {
    row.status == s.status && (s.status == Pending ==> row.createdAt <= s.now - GRACE)
  }

  predicate Due(s: Sweep, row: Row) {
    && Selected(s, row)
    && (s.status == StoredPrivate ==> RetainUntil(row, s.days).Some? && RetainUntil(row, s.days).value <= s.now)
  }

  /** A stored row is stamped with the policy in force before anything is decided. */
  function Stamped(s: Sweep, row: Row): Row {
    if s.status == StoredPrivate then row.(retainUntil := RetainUntil(row, s.days)) else row
  }

  /** What the sweep makes of one row. */
  function Visit(s: Sweep, row: Row): Row {
    if !Selected(s, row) then row
    else if !Due(s, row) || s.failing(row.objectKey) then Stamped(s, row)
    else row.(status := Deleted, deletedAt := Some(s.now),
              retainUntil := if s.status == StoredPrivate then RetainUntil(row, s.days) else None)
  }

  function Removed(s: Sweep): Row -> int {
    (row: Row) => if Due(s, row) && !s.failing(row.objectKey) then 1 else 0
  }

  function Failed(s: Sweep): Row -> int {
    (row: Row) => if Due(s, row) && s.failing(row.objectKey) then 1 else 0
  }

  function Swept(s: Sweep, rows: seq<Row>): (r: seq<Row>)
    ensures |r| == |rows| && forall i :: 0 <= i < |rows| ==> r[i] == Visit(s, rows[i])
  {
    if rows == [] then [] else [Visit(s, rows[0])] + Swept(s, rows[1..])
  }

  /** The selected rows from one place up to another, in order.  A row is named by its place in evidence-id order. */
  function Between(s: Sweep, rows: seq<Row>, from: nat, to: nat): seq<nat>
    requires to <= |rows|
    decreases if from < to then to - from else 0
  {
    if from >= to then []
    else if Selected(s, rows[from]) then [from] + Between(s, rows, from + 1, to)
    else Between(s, rows, from + 1, to)
  }

  /** One page of the query: the first selected rows from a place on. */
  function Page(s: Sweep, rows: seq<Row>, from: nat, limit: nat): seq<nat>
    decreases if from < |rows| then |rows| - from else 0
  {
    if from >= |rows| || limit == 0 then []
    else if Selected(s, rows[from]) then [from] + Page(s, rows, from + 1, limit - 1)
    else Page(s, rows, from + 1, limit)
  }

  lemma {:induction false} PageLaw(s: Sweep, rows: seq<Row>, from: nat, limit: nat)
    requires limit > 0
    ensures var page := Page(s, rows, from, limit);
            if page == [] then from >= |rows| || Between(s, rows, from, |rows|) == []
            else from <= page[|page| - 1] < |rows| && page == Between(s, rows, from, page[|page| - 1] + 1)
    decreases if from < |rows| then |rows| - from else 0
  {
    if from < |rows| && Selected(s, rows[from]) {
      var page, rest := Page(s, rows, from, limit), Page(s, rows, from + 1, limit - 1);
      assert page == [from] + rest;
      if limit == 1 || rest == [] {
        assert page == [from] && Between(s, rows, from + 1, from + 1) == [];
      } else {
        PageLaw(s, rows, from + 1, limit - 1);
        assert page[|page| - 1] == rest[|rest| - 1];
      }
    } else if from < |rows| {
      PageLaw(s, rows, from + 1, limit);
    }
  }

  lemma {:induction false} BetweenJoins(s: Sweep, rows: seq<Row>, from: nat, mid: nat, to: nat)
    requires from <= mid <= to <= |rows|
    ensures Between(s, rows, from, mid) + Between(s, rows, mid, to) == Between(s, rows, from, to)
    decreases mid - from
  {
    if from < mid {
      BetweenJoins(s, rows, from + 1, mid, to);
      var first, second := Between(s, rows, from + 1, mid), Between(s, rows, mid, to);
      assert ([from] + first) + second == [from] + (first + second);
    } else {
      assert [] + Between(s, rows, mid, to) == Between(s, rows, mid, to);
    }
  }

  predicate Rising(places: seq<nat>) {
    forall i, j :: 0 <= i < j < |places| ==> places[i] < places[j]
  }

  lemma NotYet(places: seq<nat>, j: nat)
    requires Rising(places) && j < |places|
    ensures places[j] in places && places[j] !in places[..j]
  {
  }

  lemma {:induction false} BetweenMembers(s: Sweep, rows: seq<Row>, from: nat, to: nat)
    requires to <= |rows|
    ensures forall k :: k in Between(s, rows, from, to) <==> from <= k < to && Selected(s, rows[k])
    decreases if from < to then to - from else 0
  {
    if from < to {
      BetweenMembers(s, rows, from + 1, to);
    }
  }

  lemma {:induction false} BetweenRises(s: Sweep, rows: seq<Row>, from: nat, to: nat)
    requires to <= |rows|
    ensures Rising(Between(s, rows, from, to))
    decreases if from < to then to - from else 0
  {
    if from < to {
      BetweenRises(s, rows, from + 1, to);
      BetweenMembers(s, rows, from + 1, to);
      var rest := Between(s, rows, from + 1, to);
      forall i | 0 <= i < |rest| ensures from < rest[i] { assert rest[i] in rest; }
      if Selected(s, rows[from]) {
        RisesAfter(from, rest, Between(s, rows, from, to));
      }
    }
  }

  lemma RisesAfter(first: nat, rest: seq<nat>, all: seq<nat>)
    requires Rising(rest) && (forall i :: 0 <= i < |rest| ==> first < rest[i])
    requires |all| == |rest| + 1 && all[0] == first && forall i :: 0 <= i < |rest| ==> all[i + 1] == rest[i]
    ensures Rising(all)
  {
    forall i, j | 0 <= i < j < |all| ensures all[i] < all[j] {
      assert all[(j - 1) + 1] == rest[j - 1];
      assert i > 0 ==> all[(i - 1) + 1] == rest[i - 1];
    }
  }

  lemma {:induction false} BetweenAgrees(s: Sweep, a: seq<Row>, b: seq<Row>, from: nat, to: nat)
    requires |a| == |b| && to <= |a| && forall i :: from <= i < to ==> a[i] == b[i]
    ensures Between(s, a, from, to) == Between(s, b, from, to)
    decreases if from < to then to - from else 0
  {
    if from < to {
      BetweenAgrees(s, a, b, from + 1, to);
    }
  }

  /** The table of evidence, one row per upload, in evidence-id order. */
  class Vault {
    var rows: seq<Row>

    constructor ()
      ensures rows == []
    {
      rows := [];
    }

    /** One row of a page: stamp it, then delete its object and the row under the row's lock, or count the failure. */
    method PruneRow(s: Sweep, i: nat) returns (removed: bool, bad: bool)
      requires i < |rows| && Selected(s, rows[i]) && s.status != Deleted
      modifies this
      ensures rows == old(rows)[i := Visit(s, old(rows)[i])]
      ensures removed == (Removed(s)(old(rows)[i]) == 1) && bad == (Failed(s)(old(rows)[i]) == 1)
    {
      removed, bad := false, false;
      var retainUntil := if s.status == StoredPrivate then RetainUntil(rows[i], s.days) else None;
      if s.status == StoredPrivate {
        if rows[i].retainUntil != retainUntil {
          rows := rows[i := rows[i].(retainUntil := retainUntil)];
        }
        if retainUntil.None? || retainUntil.value > s.now { return; }
      }
      var locked := rows[i];
      if !Due(s, locked) { return; }
      if s.failing(locked.objectKey) {
        bad := true;
        return;
      }
      rows := rows[i := locked.(status := Deleted, deletedAt := Some(s.now), retainUntil := retainUntil)];
      removed := true;
    }

    /** One turn of the loop over a page. */
    method PruneNext(s: Sweep, page: seq<nat>, j: nat, ghost at: seq<Row>, deleted: nat, failed: nat)
      returns (deleted': nat, failed': nat)
      requires j < |page| && Rising(page) && page[j] < |at| && Selected(s, at[page[j]]) && s.status != Deleted
      requires PageProgress(s, at, rows, page[..j], deleted, failed)
      modifies this
      ensures PageProgress(s, at, rows, page[..j + 1], deleted', failed')
    {
      NotYet(page, j);
      PageStep(s, at, rows, page[..j], page[j], deleted, failed);
      assert page[..j + 1] == page[..j] + [page[j]];
      var removed, bad := PruneRow(s, page[j]);
      deleted' := if removed then deleted + 1 else deleted;
      failed' := if bad then failed + 1 else failed;
    }

    /** The rows of one page. */
    method PrunePage(s: Sweep, page: seq<nat>, ghost from: nat, ghost to: nat) returns (deleted: nat, failed: nat)
      requires from <= to <= |rows| && page == Between(s, rows, from, to) && s.status != Deleted
      modifies this
      ensures PageSwept(s, old(rows), rows, from, to, deleted, failed)
    {
      deleted, failed := 0, 0;
      ghost var at := rows;
      BetweenRises(s, at, from, to);
      BetweenMembers(s, at, from, to);
      for j := 0 to |page|
        invariant PageProgress(s, at, rows, page[..j], deleted, failed)
      {
        assert page[j] in page;
        deleted, failed := PruneNext(s, page, j, at, deleted, failed);
      }
      assert page[..|page|] == page;
      PageDone(s, at, rows, from, to, deleted, failed);
    }

    /** One turn of the sweep's loop: the next page past the cursor, if it is not empty. */
    method SweepPage(s: Sweep, cursor: int, ghost at: seq<Row>, ghost visited: seq<nat>, deleted: nat, failed: nat)
      returns (next: Option<int>, ghost visited': seq<nat>, deleted': nat, failed': nat)
      requires s.status != Deleted && -1 <= cursor < |at| && Progress(s, at, rows, cursor + 1, visited, deleted, failed)
      modifies this
      ensures next.Some? ==> cursor < next.value < |at| && Progress(s, at, rows, next.value + 1, visited', deleted', failed')
      ensures next.None? ==> deleted' == deleted && failed' == failed && Finished(s, at, rows, visited', deleted', failed')
    {
      var batch := BATCH;
      var page := Page(s, rows, cursor + 1, batch);
      visited' := visited + page;
      deleted', failed' := deleted, failed;
      if page == [] {
        Finish(s, at, rows, cursor + 1, batch, visited, deleted, failed);
        return None, visited', deleted, failed;
      }
      PageLaw(s, rows, cursor + 1, batch);
      var last := page[|page| - 1];
      deleted', failed' := SweepFound(s, page, cursor + 1, last + 1, at, visited, deleted, failed);
      return Some(last), visited', deleted', failed';
    }

    /** The rows a page found, pruned and counted. */
    method SweepFound(s: Sweep, page: seq<nat>, ghost from: nat, ghost to: nat, ghost at: seq<Row>, ghost visited: seq<nat>,
                      deleted: nat, failed: nat)
      returns (deleted': nat, failed': nat)
      requires s.status != Deleted && from <= to <= |rows| && page == Between(s, rows, from, to)
      requires Progress(s, at, rows, from, visited, deleted, failed)
      modifies this
      ensures Progress(s, at, rows, to, visited + page, deleted', failed')
    {
      ghost var before := rows;
      var d, f := PrunePage(s, page, from, to);
      PageAdvances(s, at, before, rows, from, to, page, visited, deleted, failed, d, f);
      return deleted + d, failed + f;
    }

    /** One sweep: pages of a hundred past a rising cursor, until a page is empty. */
    method SweepStatus(s: Sweep) returns (deleted: nat, failed: nat, ghost visited: seq<nat>)
      requires s.status != Deleted
      modifies this
      ensures rows == Swept(s, old(rows))
      ensures visited == Between(s, old(rows), 0, |old(rows)|)
      ensures deleted == Sum(old(rows), Removed(s)) && failed == Sum(old(rows), Failed(s))
    {
      deleted, failed, visited := 0, 0, [];
      var cursor := -1;
      ghost var at := rows;
      while true
        invariant -1 <= cursor < |at| && Progress(s, at, rows, cursor + 1, visited, deleted, failed)
        decreases |at| - cursor
      {
        var next;
        next, visited, deleted, failed := SweepPage(s, cursor, at, visited, deleted, failed);
        if next.None? { return; }
        cursor := next.value;
      }
    }

    /** `pruneExpiredEvidence`: stale pending uploads first, then stored photos if a policy is set. */
    method PruneExpiredEvidence(now: int, days: Option<nat>, failing: Failing) returns (r: Result<nat, Error>, deleted: nat, failed: nat)
      modifies this
      ensures !RetentionOk(days) ==> r == Err(InvalidRetention) && rows == old(rows)
      ensures RetentionOk(days) ==>
                && rows == Pruned(now, days, failing, old(rows))
                && deleted == Sum(old(rows), Removed(Sweep(Pending, now, days, failing)))
                              + (if days.Some? then Sum(old(rows), Removed(Sweep(StoredPrivate, now, days, failing))) else 0)
                && failed == FailuresOf(now, days, failing, old(rows))
                && r == if failed > 0 then Err(ProviderFailed) else Ok(deleted)
    {
      deleted, failed := 0, 0;
      if !RetentionOk(days) { return Err(InvalidRetention), 0, 0; }
      var pending, stored := Sweep(Pending, now, days, failing), Sweep(StoredPrivate, now, days, failing);
      ghost var visited;
      deleted, failed, visited := SweepStatus(pending);
      if days.Some? {
        PendingThenStored(pending, stored, old(rows));
        var d, f, v := SweepStatus(stored);
        deleted, failed := deleted + d, failed + f;
      }
      r := if failed > 0 then Err(ProviderFailed) else Ok(deleted);
    }

    /** `prepare`: the upload's identity is committed before its bytes; a repeat finds the same row. */
    method Prepare(upload: Upload, objectKey: string, at: nat, now: int) returns (r: Result<(nat, bool), Error>)
      requires at <= |rows|
      modifies this
      ensures rows == AfterPrepare(old(rows), upload, objectKey, at, now)
      ensures r.Ok? ==> r.value.0 < |rows| && rows[r.value.0].upload == upload && rows[r.value.0].status != Deleted
      ensures r.Ok? ==> (r.value.1 <==> rows == old(rows))
      ensures r.Err? <==> FindUpload(old(rows), upload.uploadId).Some?
                          && var found := old(rows)[FindUpload(old(rows), upload.uploadId).value];
                             found.upload != upload || found.status == Deleted
    {
      var found := FindUpload(rows, upload.uploadId);
      if found.None? {
        rows := rows[..at] + [NewRow(upload, objectKey, now)] + rows[at..];
        return Ok((at, false));
      }
      if rows[found.value].upload != upload || rows[found.value].status == Deleted { return Err(UploadIdConflict); }
      return Ok((found.value, true));
    }

    /** `complete`: the object is written and the row stored, once, under the row's lock. */
    method Complete(uploadId: string, orderId: string, bytesMatch: bool, written: bool, now: int, days: Option<nat>)
      returns (r: Result<bool, Error>)
      modifies this
      ensures rows == AfterComplete(old(rows), uploadId, orderId, bytesMatch, written, now, days)
      ensures r.Ok? ==> FindUpload(rows, uploadId).Some? && rows[FindUpload(rows, uploadId).value].status == StoredPrivate
      ensures r == Ok(true) ==> rows == old(rows)
      ensures r.Err? ==> rows == old(rows)
      ensures r.Ok? <==> Completable(old(rows), uploadId, orderId, bytesMatch, written)
    {
      var found := FindUpload(rows, uploadId);
      if found.None? || rows[found.value].upload.orderId != orderId || rows[found.value].status == Deleted {
        return Err(UploadNotFound);
      }
      var i := found.value;
      if !bytesMatch { return Err(ContentMismatch); }
      if rows[i].status == StoredPrivate { return Ok(true); }
      if !written { return Err(ProviderFailed); }
      ghost var before := rows;
      rows := rows[i := StoredRow(rows[i], now, days)];
      SameUploads(before, rows, uploadId);
      return Ok(false);
    }
  }

  /*** Uploads ***/

  function FindUpload(rows: seq<Row>, uploadId: string): Option<nat> {
    FindLast(rows, (row: Row) => row.upload.uploadId == uploadId)
  }

  lemma {:induction false} SameUploads(a: seq<Row>, b: seq<Row>, uploadId: string)
    requires |a| == |b| && forall i :: 0 <= i < |a| ==> a[i].upload == b[i].upload
    ensures FindUpload(a, uploadId) == FindUpload(b, uploadId)
  {
    if a != [] {
      SameUploads(a[..|a| - 1], b[..|b| - 1], uploadId);
    }
  }

  function NewRow(upload: Upload, objectKey: string, now: int): Row {
    Row(upload, objectKey, Pending, now, None, None, None)
  }

  function StoredRow(row: Row, now: int, days: Option<nat>): Row {
    row.(status := StoredPrivate, storedAt := Some(now),
         retainUntil := if days.None? then None else Some(now + days.value * DAY))
  }

  function AfterPrepare(rows: seq<Row>, upload: Upload, objectKey: string, at: nat, now: int): seq<Row>
    requires at <= |rows|
  {
    if FindUpload(rows, upload.uploadId).None? then rows[..at] + [NewRow(upload, objectKey, now)] + rows[at..] else rows
  }

  /** The upload is there for the order, not deleted, its bytes match, and they are stored already or now written. */
  predicate Completable(rows: seq<Row>, uploadId: string, orderId: string, bytesMatch: bool, written: bool) {
    var found := FindUpload(rows, uploadId);
    && found.Some? && rows[found.value].upload.orderId == orderId && rows[found.value].status != Deleted && bytesMatch
    && (rows[found.value].status == StoredPrivate || written)
  }

  function AfterComplete(rows: seq<Row>, uploadId: string, orderId: string, bytesMatch: bool, written: bool, now: int,
                         days: Option<nat>): seq<Row>
  {
    var found := FindUpload(rows, uploadId);
    if found.Some? && rows[found.value].upload.orderId == orderId && rows[found.value].status == Pending && bytesMatch && written then
      rows[found.value := StoredRow(rows[found.value], now, days)]
    else rows
  }

  /*** Counting over a page ***/

  function At(rows: seq<Row>, f: Row -> int): nat -> int {
    (k: nat) => if k < |rows| then f(rows[k]) else 0
  }

  /** Counting the selected rows of a stretch is counting the stretch, for counts that only selected rows add to. */
  lemma {:induction false} CountedBetween(s: Sweep, rows: seq<Row>, from: nat, to: nat, f: Row -> int)
    requires from <= to <= |rows| && forall row :: !Selected(s, row) ==> f(row) == 0
    ensures Sum(Between(s, rows, from, to), At(rows, f)) == Sum(rows[from..to], f)
    decreases if from < to then to - from else 0
  {
    if from < to {
      CountedBetween(s, rows, from + 1, to, f);
      assert rows[from..to] == [rows[from]] + rows[from + 1..to];
      var rest := Between(s, rows, from + 1, to);
      assert ([from] + rest)[1..] == rest;
    }
  }

  ghost predicate VisitedAt(s: Sweep, at: seq<Row>, rows: seq<Row>, places: seq<nat>) {
    |rows| == |at| && forall k :: 0 <= k < |at| ==> rows[k] == if k in places then Visit(s, at[k]) else at[k]
  }

  /** Part way through a page. */
  ghost predicate PageProgress(s: Sweep, at: seq<Row>, rows: seq<Row>, done: seq<nat>, deleted: int, failed: int) {
    && VisitedAt(s, at, rows, done)
    && deleted == Sum(done, At(at, Removed(s))) && failed == Sum(done, At(at, Failed(s)))
  }

  lemma PageStep(s: Sweep, at: seq<Row>, rows: seq<Row>, done: seq<nat>, k: nat, deleted: int, failed: int)
    requires PageProgress(s, at, rows, done, deleted, failed) && k < |at| && k !in done
    ensures rows[k] == at[k]
    ensures PageProgress(s, at, rows[k := Visit(s, rows[k])], done + [k], deleted + Removed(s)(at[k]), failed + Failed(s)(at[k]))
  {
    SumSnoc(done, k, At(at, Removed(s)));
    SumSnoc(done, k, At(at, Failed(s)));
  }

  lemma VisitedPage(s: Sweep, at: seq<Row>, rows: seq<Row>, from: nat, to: nat)
    requires from <= to <= |at| && VisitedAt(s, at, rows, Between(s, at, from, to))
    ensures forall k :: 0 <= k < |rows| ==> rows[k] == if from <= k < to then Visit(s, at[k]) else at[k]
  {
    BetweenMembers(s, at, from, to);
  }

  /** The table, part way through a sweep: rows before the cursor have been visited. */
  ghost predicate SweptTo(s: Sweep, at: seq<Row>, rows: seq<Row>, n: nat) {
    |rows| == |at| && forall k :: 0 <= k < |at| ==> rows[k] == if k < n then Visit(s, at[k]) else at[k]
  }

  /** Part way through a sweep. */
  ghost predicate Progress(s: Sweep, at: seq<Row>, rows: seq<Row>, n: nat, visited: seq<nat>, deleted: int, failed: int) {
    && n <= |at| && SweptTo(s, at, rows, n) && visited == Between(s, at, 0, n)
    && deleted == Sum(at[..n], Removed(s)) && failed == Sum(at[..n], Failed(s))
  }

  /** Rows not yet reached are as they were. */
  lemma SameStretch(s: Sweep, at: seq<Row>, rows: seq<Row>, from: nat, to: nat)
    requires from <= to <= |at| && SweptTo(s, at, rows, from)
    ensures Between(s, rows, from, to) == Between(s, at, from, to) && rows[from..to] == at[from..to]
  {
    BetweenAgrees(s, rows, at, from, to);
  }

  /** A stretch has been swept, and its deletions and failures counted. */
  ghost predicate PageSwept(s: Sweep, before: seq<Row>, rows: seq<Row>, from: nat, to: nat, d: int, f: int) {
    && from <= to <= |before| && |rows| == |before|
    && (forall k :: 0 <= k < |rows| ==> rows[k] == if from <= k < to then Visit(s, before[k]) else before[k])
    && d == Sum(before[from..to], Removed(s)) && f == Sum(before[from..to], Failed(s))
  }

  lemma PageDone(s: Sweep, at: seq<Row>, rows: seq<Row>, from: nat, to: nat, deleted: int, failed: int)
    requires from <= to <= |at| && PageProgress(s, at, rows, Between(s, at, from, to), deleted, failed)
    ensures PageSwept(s, at, rows, from, to, deleted, failed)
  {
    VisitedPage(s, at, rows, from, to);
    CountedBetween(s, at, from, to, Removed(s));
    CountedBetween(s, at, from, to, Failed(s));
  }

  lemma PageAdvances(s: Sweep, at: seq<Row>, before: seq<Row>, rows: seq<Row>, from: nat, to: nat, page: seq<nat>,
                     visited: seq<nat>, deleted: int, failed: int, d: int, f: int)
    requires Progress(s, at, before, from, visited, deleted, failed) && PageSwept(s, before, rows, from, to, d, f)
    requires page == Between(s, before, from, to)
    ensures Progress(s, at, rows, to, visited + page, deleted + d, failed + f)
  {
    SameStretch(s, at, before, from, to);
    BetweenJoins(s, at, 0, from, to);
    CountsJoin(at, from, to, Removed(s));
    CountsJoin(at, from, to, Failed(s));
  }

  lemma CountsJoin(at: seq<Row>, from: nat, to: nat, f: Row -> int)
    requires from <= to <= |at|
    ensures Sum(at[..to], f) == Sum(at[..from], f) + Sum(at[from..to], f)
  {
    assert at[..to] == at[..from] + at[from..to];
    SumAppends(at[..from], at[from..to], f);
  }

  /** When a page is empty, the rows past the cursor are none of the sweep's. */
  lemma LastPage(s: Sweep, at: seq<Row>, rows: seq<Row>, from: nat, limit: nat)
    requires from <= |at| && SweptTo(s, at, rows, from) && limit > 0 && Page(s, rows, from, limit) == []
    ensures forall k :: from <= k < |at| ==> !Selected(s, at[k])
    ensures Between(s, at, 0, from) == Between(s, at, 0, |at|)
  {
    PageLaw(s, rows, from, limit);
    BetweenAgrees(s, rows, at, from, |at|);
    BetweenMembers(s, at, from, |at|);
    BetweenJoins(s, at, 0, from, |at|);
    forall k | from <= k < |at| ensures !Selected(s, at[k]) {
      assert k !in Between(s, at, from, |at|);
    }
  }

  /** The sweep is over: every row visited as the specification says, and counted. */
  ghost predicate Finished(s: Sweep, at: seq<Row>, rows: seq<Row>, visited: seq<nat>, deleted: int, failed: int) {
    && rows == Swept(s, at) && visited == Between(s, at, 0, |at|)
    && deleted == Sum(at, Removed(s)) && failed == Sum(at, Failed(s))
  }

  lemma Finish(s: Sweep, at: seq<Row>, rows: seq<Row>, from: nat, limit: nat, visited: seq<nat>, deleted: int, failed: int)
    requires Progress(s, at, rows, from, visited, deleted, failed) && limit > 0 && Page(s, rows, from, limit) == []
    ensures Finished(s, at, rows, visited + [], deleted, failed)
  {
    LastPage(s, at, rows, from, limit);
    OnlySelectedCount(s);
    RestCounts(s, at, from, Removed(s));
    RestCounts(s, at, from, Failed(s));
    assert visited + [] == visited;
  }

  lemma OnlySelectedCount(s: Sweep)
    ensures forall row :: !Selected(s, row) ==> Removed(s)(row) == 0
    ensures forall row :: !Selected(s, row) ==> Failed(s)(row) == 0
  {
    forall row | !Selected(s, row) ensures Removed(s)(row) == 0 && Failed(s)(row) == 0 {
      assert !Due(s, row);
    }
  }

  lemma RestCounts(s: Sweep, at: seq<Row>, from: nat, f: Row -> int)
    requires from <= |at| && (forall k :: from <= k < |at| ==> !Selected(s, at[k]))
    requires forall row :: !Selected(s, row) ==> f(row) == 0
    ensures Sum(at[..from], f) == Sum(at, f)
  {
    assert at == at[..from] + at[from..];
    SumAppends(at[..from], at[from..], f);
    AllZero(at[from..], f);
  }

  lemma {:induction false} AllZero(rows: seq<Row>, f: Row -> int)
    requires forall i :: 0 <= i < |rows| ==> f(rows[i]) == 0
    ensures Sum(rows, f) == 0
  {
    if rows != [] {
      AllZero(rows[1..], f);
    }
  }

  /*** The whole prune ***/

  function Pruned(now: int, days: Option<nat>, failing: Failing, rows: seq<Row>): seq<Row> {
    var first := Swept(Sweep(Pending, now, days, failing), rows);
    if days.Some? then Swept(Sweep(StoredPrivate, now, days, failing), first) else first
  }

  function FailuresOf(now: int, days: Option<nat>, failing: Failing, rows: seq<Row>): int {
    Sum(rows, Failed(Sweep(Pending, now, days, failing)))
    + (if days.Some? then Sum(rows, Failed(Sweep(StoredPrivate, now, days, failing))) else 0)
  }

  lemma NotForStored(pending: Sweep, stored: Sweep, row: Row)
    requires pending.status == Pending && stored.status == StoredPrivate
    ensures Removed(stored)(Visit(pending, row)) == Removed(stored)(row)
    ensures Failed(stored)(Visit(pending, row)) == Failed(stored)(row)
  {
  }

  /** The pending sweep leaves the stored sweep's work as it was. */
  lemma {:induction false} PendingThenStored(pending: Sweep, stored: Sweep, rows: seq<Row>)
    requires pending.status == Pending && stored.status == StoredPrivate
    ensures Sum(Swept(pending, rows), Removed(stored)) == Sum(rows, Removed(stored))
    ensures Sum(Swept(pending, rows), Failed(stored)) == Sum(rows, Failed(stored))
  {
    if rows != [] {
      PendingThenStored(pending, stored, rows[1..]);
      assert Swept(pending, rows)[1..] == Swept(pending, rows[1..]);
      NotForStored(pending, stored, rows[0]);
    }
  }

  /** Whether a row is due, whichever sweep takes it. */
  predicate DueAtAll(now: int, days: Option<nat>, failing: Failing, row: Row) {
    Due(Sweep(Pending, now, days, failing), row) || (days.Some? && Due(Sweep(StoredPrivate, now, days, failing), row))
  }

  /** What a prune makes of a row. */
  predicate RightlyPruned(now: int, days: Option<nat>, failing: Failing, row: Row, after: Row) {
    var gone := DueAtAll(now, days, failing, row) && !failing(row.objectKey);
    && (gone ==> after.status == Deleted && after.deletedAt == Some(now))
    && (!gone ==> after.status == row.status && after.deletedAt == row.deletedAt)
    && after.upload == row.upload && after.objectKey == row.objectKey && after.createdAt == row.createdAt
    && after.storedAt == row.storedAt
    && (DueAtAll(now, days, failing, row) && failing(row.objectKey) ==> DueAtAll(now, days, failing, after))
  }

  lemma PrunedRowLaw(now: int, days: Option<nat>, failing: Failing, row: Row)
    ensures RightlyPruned(now, days, failing, row, PrunedRow(now, days, failing, row))
  {
  }

  /** Every row, after a prune: deleted if it was due and the provider allowed; otherwise its status is untouched.  So
      nothing is touched before it is due, and every due row is deleted or left to be retried. */
  lemma RowAfterPrune(now: int, days: Option<nat>, failing: Failing, rows: seq<Row>, i: nat)
    requires i < |rows|
    ensures |Pruned(now, days, failing, rows)| == |rows|
    ensures RightlyPruned(now, days, failing, rows[i], Pruned(now, days, failing, rows)[i])
  {
    PrunedEach(now, days, failing, rows);
    PrunedRowLaw(now, days, failing, rows[i]);
  }

  /** A page-by-page sweep visits each of its rows exactly once, in order. */
  lemma VisitedOnce(s: Sweep, rows: seq<Row>, k: nat)
    ensures var visited := Between(s, rows, 0, |rows|);
            (k in visited <==> k < |rows| && Selected(s, rows[k])) && Rising(visited)
  {
    BetweenMembers(s, rows, 0, |rows|);
    BetweenRises(s, rows, 0, |rows|);
  }

  function PrunedRow(now: int, days: Option<nat>, failing: Failing, row: Row): Row {
    var first := Visit(Sweep(Pending, now, days, failing), row);
    if days.Some? then Visit(Sweep(StoredPrivate, now, days, failing), first) else first
  }

  lemma PruneRowTwice(now: int, days: Option<nat>, failing: Failing, row: Row)
    requires DueAtAll(now, days, failing, row) ==> !failing(row.objectKey)
    ensures PrunedRow(now, days, failing, PrunedRow(now, days, failing, row)) == PrunedRow(now, days, failing, row)
    ensures !DueAtAll(now, days, failing, PrunedRow(now, days, failing, row))
  {
  }

  lemma PrunedEach(now: int, days: Option<nat>, failing: Failing, rows: seq<Row>)
    ensures |Pruned(now, days, failing, rows)| == |rows|
    ensures forall i :: 0 <= i < |rows| ==> Pruned(now, days, failing, rows)[i] == PrunedRow(now, days, failing, rows[i])
  {
  }

  /** Pruning again at the same time, with no failures the first time, finds nothing to do. */
  lemma PruneTwice(now: int, days: Option<nat>, failing: Failing, rows: seq<Row>)
    requires FailuresOf(now, days, failing, rows) == 0
    ensures Pruned(now, days, failing, Pruned(now, days, failing, rows)) == Pruned(now, days, failing, rows)
    ensures forall i :: 0 <= i < |rows| ==> !DueAtAll(now, days, failing, PrunedRow(now, days, failing, rows[i]))
  {
    NoFailures(now, days, failing, rows);
    var once := Pruned(now, days, failing, rows);
    PrunedEach(now, days, failing, rows);
    PrunedEach(now, days, failing, once);
    forall i | 0 <= i < |rows|
      ensures PrunedRow(now, days, failing, once[i]) == once[i] && !DueAtAll(now, days, failing, once[i])
    {
      PruneRowTwice(now, days, failing, rows[i]);
    }
  }

  lemma {:induction false} CountsEach(rows: seq<Row>, f: Row -> int)
    requires forall row :: f(row) >= 0
    ensures Sum(rows, f) >= 0
    ensures Sum(rows, f) == 0 ==> forall i :: 0 <= i < |rows| ==> f(rows[i]) == 0
  {
    if rows != [] {
      CountsEach(rows[1..], f);
    }
  }

  lemma NoFailures(now: int, days: Option<nat>, failing: Failing, rows: seq<Row>)
    requires FailuresOf(now, days, failing, rows) == 0
    ensures forall i :: 0 <= i < |rows| && DueAtAll(now, days, failing, rows[i]) ==> !failing(rows[i].objectKey)
  {
    var pending, stored := Sweep(Pending, now, days, failing), Sweep(StoredPrivate, now, days, failing);
    CountsEach(rows, Failed(pending));
    CountsEach(rows, Failed(stored));
    forall i | 0 <= i < |rows| && DueAtAll(now, days, failing, rows[i]) ensures !failing(rows[i].objectKey) {
      assert Failed(pending)(rows[i]) == 0;
      assert days.Some? ==> Failed(stored)(rows[i]) == 0;
    }
  }

  /*** Over runs ***/

  datatype Op =
    | PrepareOp(upload: Upload, objectKey: string, at: nat, preparedAt: int)
    | CompleteOp(uploadId: string, orderId: string, bytesMatch: bool, written: bool, completedAt: int, policy: Option<nat>)
    | PruneOp(now: int, days: Option<nat>, failing: Failing)

  function Step(rows: seq<Row>, op: Op): seq<Row> {
    match op
    case PrepareOp(upload, objectKey, at, now) => if at <= |rows| then AfterPrepare(rows, upload, objectKey, at, now) else rows
    case CompleteOp(uploadId, orderId, bytesMatch, written, now, days) =>
      AfterComplete(rows, uploadId, orderId, bytesMatch, written, now, days)
    case PruneOp(now, days, failing) => if RetentionOk(days) then Pruned(now, days, failing, rows) else rows
  }

  function Run(rows: seq<Row>, ops: seq<Op>): seq<Row>
    decreases |ops|
  {
    if ops == [] then rows else Run(Step(rows, ops[0]), ops[1..])
  }

  ghost predicate OneRowPerUpload(rows: seq<Row>) {
    forall i, j :: 0 <= i < j < |rows| ==> rows[i].upload.uploadId != rows[j].upload.uploadId
  }

  function StatusRank(s: Status): nat {
    match s case Pending => 0 case StoredPrivate => 1 case Deleted => 2
  }

  /** A row is still there, for the same upload and object, and its status has only moved on. */
  ghost predicate MovedOn(row: Row, later: seq<Row>) {
    exists k :: 0 <= k < |later| && later[k].upload == row.upload && later[k].objectKey == row.objectKey
                && StatusRank(row.status) <= StatusRank(later[k].status)
                && (row.status == Deleted ==> later[k].status == Deleted && later[k].deletedAt == row.deletedAt)
  }

  lemma PrepareMovesOn(rows: seq<Row>, upload: Upload, objectKey: string, at: nat, now: int)
    requires at <= |rows| && OneRowPerUpload(rows)
    ensures OneRowPerUpload(AfterPrepare(rows, upload, objectKey, at, now))
    ensures forall i :: 0 <= i < |rows| ==> MovedOn(rows[i], AfterPrepare(rows, upload, objectKey, at, now))
  {
    var later := AfterPrepare(rows, upload, objectKey, at, now);
    if later == rows {
      forall i | 0 <= i < |rows| ensures MovedOn(rows[i], later) { assert later[i] == rows[i]; }
    } else {
      forall i | 0 <= i < |rows| ensures MovedOn(rows[i], later) {
        var k := if i < at then i else i + 1;
        assert later[k] == rows[i];
      }
    }
  }

  lemma InPlaceMovesOn(rows: seq<Row>, op: Op)
    requires !op.PrepareOp? && OneRowPerUpload(rows)
    ensures OneRowPerUpload(Step(rows, op))
    ensures forall i :: 0 <= i < |rows| ==> MovedOn(rows[i], Step(rows, op))
  {
    var later := Step(rows, op);
    assert |later| == |rows|;
    forall i | 0 <= i < |rows| ensures later[i].upload == rows[i].upload && MovedOn(rows[i], later) {
      if op.PruneOp? && RetentionOk(op.days) {
        RowAfterPrune(op.now, op.days, op.failing, rows, i);
      }
      assert later[i].upload == rows[i].upload;
    }
  }

  lemma MovedOnTwice(row: Row, mid: seq<Row>, last: seq<Row>)
    requires MovedOn(row, mid) && forall k :: 0 <= k < |mid| ==> MovedOn(mid[k], last)
    ensures MovedOn(row, last)
  {
    var k :| 0 <= k < |mid| && mid[k].upload == row.upload && mid[k].objectKey == row.objectKey
             && StatusRank(row.status) <= StatusRank(mid[k].status)
             && (row.status == Deleted ==> mid[k].status == Deleted && mid[k].deletedAt == row.deletedAt);
    assert MovedOn(mid[k], last);
  }

  /** Over any run of uploads and prunes, an upload keeps its one row and its object, pending becomes stored becomes
      deleted and never back, and a deletion keeps its time. */
  lemma {:induction false} RunMovesOn(rows: seq<Row>, ops: seq<Op>)
    requires OneRowPerUpload(rows)
    ensures OneRowPerUpload(Run(rows, ops))
    ensures forall i :: 0 <= i < |rows| ==> MovedOn(rows[i], Run(rows, ops))
    decreases |ops|
  {
    if ops == [] {
      forall i | 0 <= i < |rows| ensures MovedOn(rows[i], rows) {}
    } else {
      var next := Step(rows, ops[0]);
      if ops[0].PrepareOp? && ops[0].at <= |rows| {
        PrepareMovesOn(rows, ops[0].upload, ops[0].objectKey, ops[0].at, ops[0].preparedAt);
      } else if ops[0].PrepareOp? {
        forall i | 0 <= i < |rows| ensures MovedOn(rows[i], rows) {}
      } else {
        InPlaceMovesOn(rows, ops[0]);
      }
      RunMovesOn(next, ops[1..]);
      forall i | 0 <= i < |rows| ensures MovedOn(rows[i], Run(rows, ops)) {
        MovedOnTwice(rows[i], next, Run(next, ops[1..]));
      }
    }
  }

  /*** Nothing is deleted early ***/

  /** What a row's dates say: a pending upload has not been stored, a stored one has; one deleted without ever being
      stored had its seven days, and one that was stored had at least the hundred and twenty that any policy gives. */
  predicate DatesOk(row: Row) {
    && (row.status == Pending ==> row.storedAt.None?)
    && (row.status == StoredPrivate ==> row.storedAt.Some?)
    && (row.status == Deleted ==>
          && row.deletedAt.Some?
          && (row.storedAt.None? ==> row.createdAt + GRACE <= row.deletedAt.value)
          && (row.storedAt.Some? ==> row.storedAt.value + 120 * DAY <= row.deletedAt.value))
  }

  lemma VisitKeepsDates(s: Sweep, row: Row)
    requires DatesOk(row) && RetentionOk(s.days) && s.status != Deleted
    ensures DatesOk(Visit(s, row))
  {
    if s.days.Some? {
      assert s.days.value * DAY >= 120 * DAY;
    }
  }

  lemma StepKeepsDates(rows: seq<Row>, op: Op)
    requires forall row :: row in rows ==> DatesOk(row)
    ensures forall row :: row in Step(rows, op) ==> DatesOk(row)
  {
    if op.PruneOp? && RetentionOk(op.days) {
      PrunedEach(op.now, op.days, op.failing, rows);
      forall i | 0 <= i < |rows| ensures DatesOk(PrunedRow(op.now, op.days, op.failing, rows[i])) {
        var pending := Sweep(Pending, op.now, op.days, op.failing);
        VisitKeepsDates(pending, rows[i]);
        VisitKeepsDates(pending.(status := StoredPrivate), Visit(pending, rows[i]));
      }
    }
  }

  /** Over any run from an empty table, whatever the clocks and policies were: a deleted upload that was never stored
      was deleted at least seven days after it was prepared, and a stored photo at least a hundred and twenty days
      after it was stored. */
  lemma {:induction false} NothingDeletedEarly(rows: seq<Row>, ops: seq<Op>)
    requires forall row :: row in rows ==> DatesOk(row)
    ensures forall row :: row in Run(rows, ops) ==> DatesOk(row)
    decreases |ops|
  {
    if ops != [] {
      StepKeepsDates(rows, ops[0]);
      NothingDeletedEarly(Step(rows, ops[0]), ops[1..]);
    }
  }
}
