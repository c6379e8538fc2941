/** What each stock command does, told from its own arguments and the rows it finds. */
module StockCommands {
  import opened Base
  import opened Text
  import opened Permutations
  import opened Sorting
  import opened Sums
  import opened Stock
  import opened StockLaws

  /*** Quantities ***/

  function OnBatch(batch: nat): Commitment -> int {
    (c: Commitment) => if c.batch == batch then c.remaining else 0
  }

  function OfDemand(demand: string): Commitment -> int {
    (c: Commitment) => if c.demand == demand then c.remaining else 0
  }

  lemma {:induction false} OpenIsSum(cs: seq<Commitment>, batch: nat, demand: string)
    ensures Open(cs, batch) == Sum(cs, OnBatch(batch)) && OpenFor(cs, demand) == Sum(cs, OfDemand(demand))
  {
    if cs != [] {
      OpenIsSum(cs[1..], batch, demand);
    }
  }

  /*** Flagging ***/

  /** What the batch, with `total` units promised from it, does to a promise needed by then. */
  function Verdict(b: Batch, total: int, neededBy: int): Option<Reason> {
    match b.status
    case Cancelled => Some(IncomingCancelled)
    case _ =>
      if b.confirmed < total then Some(IncomingShort) else if neededBy < b.usableAt then Some(IncomingLate) else None
  }

  predicate PromisesFrom(cs: seq<Commitment>, batch: nat, d: string) {
    exists i :: 0 <= i < |cs| && cs[i].batch == batch && cs[i].demand == d && 0 < cs[i].remaining
  }

  /** The demand as a changed batch leaves it: flagged for the first reason that applies if it is promised units of the
      batch, and otherwise as it was. */
  function Flagged(cs: seq<Commitment>, batch: nat, b: Batch, total: int, d: string, demand: Demand): Demand {
    if PromisesFrom(cs, batch, d) && Verdict(b, total, demand.neededBy).Some?
    then demand.(exception := Verdict(b, total, demand.neededBy)) else demand
  }

  lemma PromisesSnoc(cs: seq<Commitment>, n: nat, batch: nat, d: string)
    requires 0 < n <= |cs|
    ensures PromisesFrom(cs[..n], batch, d) <==>
            PromisesFrom(cs[..n - 1], batch, d)
            || (cs[n - 1].batch == batch && cs[n - 1].demand == d && 0 < cs[n - 1].remaining)
  {
    var a, b := cs[..n - 1], cs[..n];
    assert b == a + [cs[n - 1]];
    if PromisesFrom(a, batch, d) {
      var i :| 0 <= i < |a| && a[i].batch == batch && a[i].demand == d && 0 < a[i].remaining;
      assert b[i] == a[i];
    }
    if cs[n - 1].batch == batch && cs[n - 1].demand == d && 0 < cs[n - 1].remaining {
      assert b[n - 1] == cs[n - 1];
    }
  }

  lemma {:induction false} FlagLaw(t: Tables, batch: nat, n: nat, d: string)
    requires batch < |t.batches| && n <= |t.commitments| && d in t.demands
    ensures d in Flag(t, batch, n).0
    ensures Flag(t, batch, n).0[d] ==
            Flagged(t.commitments[..n], batch, t.batches[batch], Open(t.commitments, batch), d, t.demands[d])
  {
    if n > 0 {
      FlagLaw(t, batch, n - 1, d);
      PromisesSnoc(t.commitments, n, batch, d);
    }
  }

  /** The demands reported as affected: those behind an open promise that the batch no longer keeps. */
  lemma {:induction false} AffectedLaw(t: Tables, batch: nat, n: nat, d: string)
    requires References(t) && batch < |t.batches| && n <= |t.commitments|
    ensures d in Flag(t, batch, n).1 <==>
            && d in t.demands && PromisesFrom(t.commitments[..n], batch, d)
            && Verdict(t.batches[batch], Open(t.commitments, batch), t.demands[d].neededBy).Some?
  {
    if n > 0 {
      AffectedLaw(t, batch, n - 1, d);
      PromisesSnoc(t.commitments, n, batch, d);
      FlagFrame(t, batch, n - 1, t.commitments[n - 1].demand);
    }
  }

  /** Only this batch has changed, to `b`; the demands it no longer keeps are flagged and reported, and nothing else is
      touched but, it may be, the list of receipts. */
  ghost predicate BatchBecomes(t: Tables, u: Tables, batch: nat, b: Batch, affected: seq<string>) {
    && batch < |t.batches| && u.batches == t.batches[batch := b] && u.commitments == t.commitments
    && (forall d: string :: d in u.demands <==> d in t.demands)
    && (forall d <- t.demands ::
          u.demands[d] == Flagged(t.commitments, batch, b, Sum(t.commitments, OnBatch(batch)), d, t.demands[d]))
    && (forall d: string :: d in affected <==>
          && d in t.demands && PromisesFrom(t.commitments, batch, d)
          && Verdict(b, Sum(t.commitments, OnBatch(batch)), t.demands[d].neededBy).Some?)
  }

  lemma WithBatchLaw(t: Tables, batch: nat, b: Batch)
    requires References(t) && batch < |t.batches|
    ensures var (u, affected) := WithBatch(t, batch, b);
            BatchBecomes(t, u, batch, b, affected) && u.receipts == t.receipts
  {
    var v := t.(batches := t.batches[batch := b]);
    var n := |t.commitments|;
    OpenIsSum(t.commitments, batch, "");
    assert v.commitments[..n] == t.commitments;
    forall d: string
      ensures d in Flag(v, batch, n).0 <==> d in t.demands
      ensures d in t.demands ==>
                Flag(v, batch, n).0[d] ==
                Flagged(t.commitments, batch, b, Sum(t.commitments, OnBatch(batch)), d, t.demands[d])
    {
      FlagFrame(v, batch, n, d);
      if d in t.demands {
        FlagLaw(v, batch, n, d);
      }
    }
    forall d: string
      ensures d in Flag(v, batch, n).1 <==>
              && d in t.demands && PromisesFrom(t.commitments, batch, d)
              && Verdict(b, Sum(t.commitments, OnBatch(batch)), t.demands[d].neededBy).Some?
    {
      AffectedLaw(v, batch, n, d);
    }
  }

  /*** Batch commands ***/

  /** The variant is on order under this identity only, if at all. */
  predicate SameIdentity(t: Tables, identity: Identity) {
    forall i :: 0 <= i < |t.batches| && t.batches[i].identity.variant == identity.variant ==> t.batches[i].identity == identity
  }

  lemma IdentityMatchesIff(t: Tables, identity: Identity)
    requires OneIdentity(t)
    ensures IdentityMatches(t, identity) <==> SameIdentity(t, identity)
  {
    forall i | IdentityMatches(t, identity) && 0 <= i < |t.batches| && t.batches[i].identity.variant == identity.variant
      ensures t.batches[i].identity == identity
    {
      MatchingIdentity(t, identity, i);
    }
    if SameIdentity(t, identity) && FirstIdentity(t.batches, identity.variant).Some? {
      FirstIdentityIsThere(t.batches, identity.variant);
    }
  }

  lemma {:induction false} FirstIdentityIsThere(batches: seq<Batch>, variant: string)
    requires FirstIdentity(batches, variant).Some?
    ensures exists i :: 0 <= i < |batches| && batches[i].identity == FirstIdentity(batches, variant).value
                        && batches[i].identity.variant == variant
  {
    if batches[0].identity.variant != variant {
      FirstIdentityIsThere(batches[1..], variant);
      var i :| 0 <= i < |batches[1..]| && batches[1..][i].identity == FirstIdentity(batches[1..], variant).value
               && batches[1..][i].identity.variant == variant;
      assert batches[i + 1].identity == FirstIdentity(batches, variant).value;
    } else {
      assert batches[0].identity == FirstIdentity(batches, variant).value;
    }
  }

  /** A batch can be put on order exactly when its variant has no other identity and its source is not recorded yet; it
      starts as a draft of what is expected, with nothing confirmed. */
  lemma CreateIff(t: Tables, rank: Rank, i: Identity, system: string, ref: string, q: int, at: int)
    requires TablesOk(t) && ValidCommand(CreateBatch(i, system, ref, q, at))
    ensures var r := Apply(t, rank, CreateBatch(i, system, ref, q, at));
            && (r.Ok? <==> SameIdentity(t, i)
                           && forall k :: 0 <= k < |t.batches| ==> t.batches[k].sourceSystem != system || t.batches[k].sourceRef != ref)
            && (r.Ok? ==> r.value.1 == BatchCreated(|t.batches|)
                          && r.value.0 == t.(batches := t.batches + [Batch(i, system, ref, q, 0, at, Draft, 0)]))
            && (r.Err? ==> r.error == Conflict)
  {
    IdentityMatchesIff(t, i);
  }

  /** What a command asks of a batch it changes: the current revision, and a status it may be changed from. */
  predicate MayChange(b: Batch, c: Command) {
    match c
    case ConfirmBatch(_, revision, _, _) => b.revision == revision && b.status == Draft
    case ReviseBatch(_, revision, _, _) => b.revision == revision && b.status == Confirmed
    case CancelBatch(_, revision) => b.revision == revision && (b.status == Draft || b.status == Confirmed)
    case StageReceipt(_, revision, _, _, _, _) => b.revision == revision && b.status == Confirmed
    case _ => false
  }

  /** The batch afterwards: what the command says is confirmed and when it is usable, at the next revision; what it is,
      where it comes from and what was expected stay. */
  predicate ChangedTo(b: Batch, next: Batch, c: Command) {
    && next.identity == b.identity && next.sourceSystem == b.sourceSystem && next.sourceRef == b.sourceRef
    && next.expected == b.expected && next.revision == b.revision + 1
    && match c
       case ConfirmBatch(_, _, q, at) => next.confirmed == q && next.usableAt == at && next.status == Confirmed
       case ReviseBatch(_, _, q, at) => next.confirmed == q && next.usableAt == at && next.status == Confirmed
       case CancelBatch(_, _) => next.confirmed == 0 && next.usableAt == b.usableAt && next.status == Cancelled
       case StageReceipt(_, _, _, _, q, at) => next.confirmed == q && next.usableAt == at && next.status == ReceiptPending
       case _ => false
  }

  predicate ChangesBatch(c: Command) {
    c.ConfirmBatch? || c.ReviseBatch? || c.CancelBatch? || c.StageReceipt?
  }

  /** A batch is confirmed, revised, cancelled or received exactly when its revision is current and its status allows it,
      and no receipt is recorded twice; it then says what the command said, the promises it no longer keeps are flagged
      and reported, and no other batch, no commitment and no other demand changes. */
  ghost predicate DoneRightly(t: Tables, c: Command, r: Result<(Tables, Receipt), Outcome>)
    requires TargetExists(t, c) && ChangesBatch(c)
  {
    && (r.Ok? <==> MayChange(t.batches[c.batch], c) && (c.StageReceipt? ==> (c.sourceSystem, c.sourceRef) !in t.receipts))
    && (r.Ok? ==>
          && r.value.1.BatchChanged? && r.value.1.index == c.batch && c.batch < |r.value.0.batches|
          && ChangedTo(t.batches[c.batch], r.value.0.batches[c.batch], c)
          && BatchBecomes(t, r.value.0, c.batch, r.value.0.batches[c.batch], r.value.1.affected)
          && r.value.0.receipts == t.receipts + (if c.StageReceipt? then {(c.sourceSystem, c.sourceRef)} else {}))
    && (r.Err? ==> r.error == Conflict)
  }

  lemma ReviseRightly(t: Tables, rank: Rank, c: Command)
    requires References(t) && ValidCommand(c) && TargetExists(t, c) && (c.ConfirmBatch? || c.ReviseBatch?)
    ensures DoneRightly(t, c, Apply(t, rank, c))
  {
    var b := t.batches[c.batch];
    WithBatchLaw(t, c.batch, b.(confirmed := c.quantity, usableAt := c.usableAt, status := Confirmed, revision := b.revision + 1));
  }

  lemma CancelRightly(t: Tables, rank: Rank, c: Command)
    requires References(t) && ValidCommand(c) && TargetExists(t, c) && c.CancelBatch?
    ensures DoneRightly(t, c, Apply(t, rank, c))
  {
    var b := t.batches[c.batch];
    WithBatchLaw(t, c.batch, b.(confirmed := 0, status := Cancelled, revision := b.revision + 1));
  }

  lemma StageRightly(t: Tables, rank: Rank, c: Command)
    requires References(t) && ValidCommand(c) && TargetExists(t, c) && c.StageReceipt?
    ensures DoneRightly(t, c, Apply(t, rank, c))
  {
    var b := t.batches[c.batch];
    WithBatchLaw(t.(receipts := t.receipts + {(c.sourceSystem, c.sourceRef)}), c.batch,
                 b.(status := ReceiptPending, confirmed := c.quantity, usableAt := c.usableAt, revision := b.revision + 1));
  }

  lemma BatchCommandIff(t: Tables, rank: Rank, c: Command)
    requires References(t) && ValidCommand(c) && TargetExists(t, c) && ChangesBatch(c)
    ensures DoneRightly(t, c, Apply(t, rank, c))
  {
    if c.CancelBatch? {
      CancelRightly(t, rank, c);
    } else if c.StageReceipt? {
      StageRightly(t, rank, c);
    } else {
      ReviseRightly(t, rank, c);
    }
  }

  /*** Reserving and releasing ***/

  /** What a reservation adds: commitments of the demand's own, each of a supplying batch at its current revision and open
      for all its units, adding up to what was asked. */
  ghost predicate CommitsTo(t: Tables, added: seq<Commitment>, identity: Identity, neededBy: int, d: string, q: int) {
    && (forall c :: c in added ==>
          && c.demand == d && 0 < c.quantity == c.remaining && c.batch < |t.batches|
          && var b := t.batches[c.batch];
             c.batchRevision == b.revision && b.identity == identity && b.status == Confirmed && b.usableAt <= neededBy)
    && Sum(added, OfDemand(d)) == q
  }

  /** A reservation succeeds exactly when the identity is the variant's own, the demand is new, and the preview shows
      enough; it records the demand as asked and commits it. */
  lemma ReserveIff(t: Tables, rank: Rank, identity: Identity, neededBy: int, d: string, ref: string, q: int)
    requires TablesOk(t) && ValidCommand(Reserve(identity, neededBy, d, ref, q))
    ensures var r := Apply(t, rank, Reserve(identity, neededBy, d, ref, q));
            && (r.Ok? <==> SameIdentity(t, identity) && d !in t.demands && q <= Preview(t, rank, identity, neededBy))
            && (r.Err? ==> r.error == Conflict)
            && (r.Ok? ==>
                  && r.value.1.Reserved? && r.value.1.demandId == d
                  && r.value.0.batches == t.batches && r.value.0.receipts == t.receipts
                  && r.value.0.demands == t.demands[d := Demand(identity, neededBy, ref, q, q, Committed, None)]
                  && |t.commitments| <= |r.value.0.commitments| && r.value.0.commitments[..|t.commitments|] == t.commitments
                  && CommitsTo(t, r.value.0.commitments[|t.commitments|..], identity, neededBy, d, q))
  {
    IdentityMatchesIff(t, identity);
    if Apply(t, rank, Reserve(identity, neededBy, d, ref, q)).Ok? {
      AllottedCommits(t, rank, identity, neededBy, d, q);
      var added := Commitments(t, d, Allot(t, Supply(t.batches, rank, identity, neededBy), q));
      assert (t.commitments + added)[|t.commitments|..] == added;
    }
  }

  lemma AllottedCommits(t: Tables, rank: Rank, identity: Identity, neededBy: int, d: string, q: nat)
    requires TablesOk(t) && q <= Preview(t, rank, identity, neededBy)
    ensures CommitsTo(t, Commitments(t, d, Allot(t, Supply(t.batches, rank, identity, neededBy), q)), identity, neededBy, d, q)
  {
    var rows := Supply(t.batches, rank, identity, neededBy);
    var a := Allot(t, rows, q);
    var added := Commitments(t, d, a);
    CommitmentsAt(t, d, a);
    AllotUnits(t, rows, q);
    CommitmentsLaw(t, d, a, 0, d);
    OpenIsSum(added, 0, d);
    forall c | c in added
      ensures c.demand == d && 0 < c.quantity == c.remaining && c.batch < |t.batches|
      ensures var b := t.batches[c.batch];
              c.batchRevision == b.revision && b.identity == identity && b.status == Confirmed && b.usableAt <= neededBy
    {
      var i :| 0 <= i < |added| && added[i] == c;
      ReservedRow(t, rank, identity, neededBy, q, i);
    }
  }

  /** A release succeeds exactly within what the demand still holds; the units come off the demand and off its own
      commitments, the demand is closed when none are left, and nothing else changes. */
  lemma ReleaseIff(t: Tables, rank: Rank, d: string, q: int)
    requires TablesOk(t) && ValidCommand(Release(d, q)) && d in t.demands
    ensures var r, left := Apply(t, rank, Release(d, q)), t.demands[d].remaining - q;
            && (r.Ok? <==> 0 <= left)
            && (r.Err? ==> r.error == Conflict)
            && (r.Ok? ==>
                  && r.value.1 == ReleasedUnits(d, q, left)
                  && r.value.0.batches == t.batches && r.value.0.receipts == t.receipts
                  && r.value.0.demands ==
                     t.demands[d := t.demands[d].(remaining := left, status := if left == 0 then Released else Committed)]
                  && Drained(t.commitments, r.value.0.commitments, d)
                  && Sum(r.value.0.commitments, OfDemand(d)) == Sum(t.commitments, OfDemand(d)) - q)
  {
    if q <= t.demands[d].remaining {
      var cs := Drain(t.commitments, rank, d, q).0;
      DrainTotal(t.commitments, rank, d, q, d);
      DrainShape(t.commitments, rank, d, q);
      OpenIsSum(cs, 0, d);
      OpenIsSum(t.commitments, 0, d);
    }
  }

  /*** The preview ***/

  predicate FlaggedPromise(t: Tables, batch: nat) {
    exists i :: 0 <= i < |t.commitments| && t.commitments[i].batch == batch && 0 < t.commitments[i].remaining
                && t.commitments[i].demand in t.demands && t.demands[t.commitments[i].demand].exception.Some?
  }

  /** What a batch offers a buyer: nothing unless it is confirmed, of the right identity and usable in time; nothing while
      a promise of it is flagged; and otherwise what is confirmed less what is promised. */
  function Offers(t: Tables, identity: Identity, neededBy: int): nat -> int {
    (batch: nat) =>
      if batch < |t.batches| && t.batches[batch].identity == identity && t.batches[batch].status == Confirmed
         && t.batches[batch].usableAt <= neededBy && !FlaggedPromise(t, batch)
      then Max(0, t.batches[batch].confirmed - Sum(t.commitments, OnBatch(batch)))
      else 0
  }

  function UpTo(n: nat): seq<nat> {
    if n == 0 then [] else UpTo(n - 1) + [n - 1]
  }

  function AvailableAt(t: Tables): nat -> int {
    (batch: nat) => if batch < |t.batches| then Available(t, batch) else 0
  }

  lemma {:induction false} TotalIsSum(t: Tables, rows: seq<nat>)
    requires Indices(t.batches, rows)
    ensures TotalAvailable(t, rows) == Sum(rows, AvailableAt(t))
  {
    if rows != [] {
      TotalIsSum(t, rows[1..]);
    }
  }

  lemma OffersIsAvailable(t: Tables, identity: Identity, neededBy: int, batch: nat)
    requires batch < |t.batches|
    ensures Offers(t, identity, neededBy)(batch) ==
            if Supplies(t.batches[batch], identity, neededBy) then Available(t, batch) else 0
  {
    OpenIsSum(t.commitments, batch, "");
    assert FlaggedPromise(t, batch) <==> HasException(t, batch) by {
      if FlaggedPromise(t, batch) {
        var i :| 0 <= i < |t.commitments| && t.commitments[i].batch == batch && 0 < t.commitments[i].remaining
                 && t.commitments[i].demand in t.demands && t.demands[t.commitments[i].demand].exception.Some?;
        assert OpenOn(t.commitments[i], batch);
      }
    }
  }

  lemma {:induction false} MatchingSum(t: Tables, identity: Identity, neededBy: int, n: nat)
    requires n <= |t.batches|
    ensures Sum(Matching(t.batches, identity, neededBy, n), AvailableAt(t)) == Sum(UpTo(n), Offers(t, identity, neededBy))
  {
    if n > 0 {
      MatchingSum(t, identity, neededBy, n - 1);
      OffersIsAvailable(t, identity, neededBy, n - 1);
      SumSnoc<nat>(UpTo(n - 1), n - 1, Offers(t, identity, neededBy));
      SumSnoc<nat>(Matching(t.batches, identity, neededBy, n - 1), n - 1, AvailableAt(t));
    }
  }

  /** The preview is the sum of what each batch offers. */
  lemma PreviewIsOffers(t: Tables, rank: Rank, identity: Identity, neededBy: int)
    ensures Preview(t, rank, identity, neededBy) == Sum(UpTo(|t.batches|), Offers(t, identity, neededBy))
  {
    var rows := Matching(t.batches, identity, neededBy, |t.batches|);
    EarlierOrders(t.batches, rank);
    SortedLaw<nat>(rows, Earlier(t.batches, rank));
    SumPermutes<nat>(Supply(t.batches, rank, identity, neededBy), rows, AvailableAt(t));
    TotalIsSum(t, Supply(t.batches, rank, identity, neededBy));
    MatchingSum(t, identity, neededBy, |t.batches|);
  }

  /*** Confirming adds to the preview ***/

  /** Nothing is promised from a batch that is still a draft. */
  predicate DraftsFree(t: Tables) {
    forall i :: 0 <= i < |t.commitments| && t.commitments[i].batch < |t.batches| ==>
      t.batches[t.commitments[i].batch].status != Draft
  }

  lemma CommittingKeepsDraftsFree(t: Tables, u: Tables, identity: Identity, neededBy: int, d: string, q: int)
    requires DraftsFree(t) && u.batches == t.batches
    requires |t.commitments| <= |u.commitments| && u.commitments[..|t.commitments|] == t.commitments
    requires CommitsTo(t, u.commitments[|t.commitments|..], identity, neededBy, d, q)
    ensures DraftsFree(u)
  {
    var n := |t.commitments|;
    forall i | 0 <= i < |u.commitments| && u.commitments[i].batch < |u.batches|
      ensures u.batches[u.commitments[i].batch].status != Draft
    {
      if i < n {
        assert u.commitments[..n][i] == t.commitments[i];
      } else {
        assert u.commitments[n..][i - n] in u.commitments[n..];
      }
    }
  }

  lemma BatchKeepsDraftsFree(t: Tables, u: Tables, c: Command, affected: seq<string>)
    requires DraftsFree(t) && ChangesBatch(c) && TargetExists(t, c) && c.batch < |u.batches|
    requires ChangedTo(t.batches[c.batch], u.batches[c.batch], c) && BatchBecomes(t, u, c.batch, u.batches[c.batch], affected)
    ensures DraftsFree(u)
  {
  }

  lemma ReleaseKeepsDraftsFree(t: Tables, u: Tables, d: string)
    requires DraftsFree(t) && u.batches == t.batches && Drained(t.commitments, u.commitments, d)
    ensures DraftsFree(u)
  {
  }

  lemma ApplyKeepsDraftsFree(t: Tables, rank: Rank, c: Command)
    requires TablesOk(t) && ValidCommand(c) && TargetExists(t, c) && DraftsFree(t) && Apply(t, rank, c).Ok?
    ensures DraftsFree(Apply(t, rank, c).value.0)
  {
    var u, receipt := Apply(t, rank, c).value.0, Apply(t, rank, c).value.1;
    if c.Reserve? {
      ReserveIff(t, rank, c.identity, c.neededBy, c.demand, c.reference, c.quantity);
      CommittingKeepsDraftsFree(t, u, c.identity, c.neededBy, c.demand, c.quantity);
    } else if c.Release? {
      ReleaseIff(t, rank, c.demand, c.quantity);
      ReleaseKeepsDraftsFree(t, u, c.demand);
    } else if ChangesBatch(c) {
      BatchCommandIff(t, rank, c);
      BatchKeepsDraftsFree(t, u, c, receipt.affected);
    } else {
      CreateIff(t, rank, c.identity, c.sourceSystem, c.sourceRef, c.quantity, c.usableAt);
    }
  }

  lemma {:induction false} RunKeepsDraftsFree(s: State, rank: Rank, rs: seq<Request>)
    requires Inv(s) && DraftsFree(s.tables)
    ensures DraftsFree(Run(s, rank, rs).tables)
    decreases |rs|
  {
    if rs != [] {
      var next := Execute(s, rank, rs[0]).0;
      if next != s {
        ApplyKeepsDraftsFree(s.tables, rank, rs[0].command);
      }
      ExecuteKeepsInv(s, rank, rs[0]);
      RunKeepsDraftsFree(next, rank, rs[1..]);
    }
  }

  lemma {:induction false} NothingOn(cs: seq<Commitment>, batch: nat)
    requires forall c :: c in cs ==> c.batch != batch
    ensures Sum(cs, OnBatch(batch)) == 0
  {
    if cs != [] {
      NothingOn(cs[1..], batch);
    }
  }

  lemma {:induction false} OneMore(n: nat, f: nat -> int, g: nat -> int, batch: nat, more: int)
    requires forall i: nat :: i < n ==> g(i) == f(i) + (if i == batch then more else 0)
    ensures Sum(UpTo(n), g) == Sum(UpTo(n), f) + (if batch < n then more else 0)
  {
    if n > 0 {
      OneMore(n - 1, f, g, batch, more);
      SumSnoc<nat>(UpTo(n - 1), n - 1, f);
      SumSnoc<nat>(UpTo(n - 1), n - 1, g);
    }
  }

  lemma ConfirmOffers(t: Tables, u: Tables, c: Command, affected: seq<string>, identity: Identity, neededBy: int, i: nat)
    requires References(t) && DraftsFree(t) && c.ConfirmBatch? && TargetExists(t, c) && MayChange(t.batches[c.batch], c)
    requires c.batch < |u.batches| && ChangedTo(t.batches[c.batch], u.batches[c.batch], c)
    requires BatchBecomes(t, u, c.batch, u.batches[c.batch], affected) && i < |t.batches|
    ensures Offers(u, identity, neededBy)(i) == Offers(t, identity, neededBy)(i) +
            (if i == c.batch && t.batches[i].identity == identity && c.usableAt <= neededBy then Max(0, c.quantity) else 0)
  {
    forall x | x in t.commitments ensures x.batch != c.batch {
      var k :| 0 <= k < |t.commitments| && t.commitments[k] == x;
    }
    NothingOn(t.commitments, c.batch);
    forall d | d in t.demands ensures u.demands[d] == t.demands[d] {
      assert !PromisesFrom(t.commitments, c.batch, d);
    }
    if i == c.batch {
      assert !FlaggedPromise(u, i);
    }
  }

  /** After any stream of commands, confirming a batch raises the preview of its identity by exactly the units confirmed,
      for every deadline it is usable by, and no other preview. */
  lemma ConfirmRaisesPreview(rank: Rank, rs: seq<Request>, c: Command, identity: Identity, neededBy: int)
    requires c.ConfirmBatch? && ValidCommand(c) && TargetExists(Run(EMPTY, rank, rs).tables, c)
    requires Apply(Run(EMPTY, rank, rs).tables, rank, c).Ok?
    ensures var t := Run(EMPTY, rank, rs).tables;
            var u := Apply(t, rank, c).value.0;
            Preview(u, rank, identity, neededBy) == Preview(t, rank, identity, neededBy) +
            (if t.batches[c.batch].identity == identity && c.usableAt <= neededBy then c.quantity else 0)
  {
    var t := Run(EMPTY, rank, rs).tables;
    RunKeepsInv(EMPTY, rank, rs);
    RunKeepsDraftsFree(EMPTY, rank, rs);
    BatchCommandIff(t, rank, c);
    var u, affected := Apply(t, rank, c).value.0, Apply(t, rank, c).value.1.affected;
    forall i: nat | i < |t.batches|
      ensures Offers(u, identity, neededBy)(i) == Offers(t, identity, neededBy)(i) +
              (if i == c.batch then
                 (if t.batches[c.batch].identity == identity && c.usableAt <= neededBy then c.quantity else 0) else 0)
    {
      ConfirmOffers(t, u, c, affected, identity, neededBy, i);
    }
    OneMore(|t.batches|, Offers(t, identity, neededBy), Offers(u, identity, neededBy), c.batch,
            if t.batches[c.batch].identity == identity && c.usableAt <= neededBy then c.quantity else 0);
    PreviewIsOffers(t, rank, identity, neededBy);
    PreviewIsOffers(u, rank, identity, neededBy);
  }

  /*** Requests ***/

  /** The units a command may name: some, and no more than a 32-bit column holds; none only of what is expected or
      received. */
  predicate UnitsInRange(c: Command) {
    match c
    case CreateBatch(_, _, _, q, _) => 0 <= q <= 2_147_483_647
    case StageReceipt(_, _, _, _, q, _) => 0 <= q <= 2_147_483_647
    case ConfirmBatch(_, _, q, _) => 1 <= q <= 2_147_483_647
    case ReviseBatch(_, _, q, _) => 1 <= q <= 2_147_483_647
    case Reserve(_, _, _, _, q) => 1 <= q <= 2_147_483_647
    case Release(_, q) => 1 <= q <= 2_147_483_647
    case CancelBatch(_, _) => true
  }

  predicate RevisionInRange(c: Command) {
    ChangesBatch(c) ==> 0 <= c.revision
  }

  /** A text that is present, not padded and not too long. */
  predicate Filled(text: string, max: nat) {
    text != "" && !White(text[0]) && !White(text[|text| - 1]) && |text| <= max
  }

  predicate IdentityFilled(i: Identity) {
    Filled(i.variant, 200) && Filled(i.listId, 200) && Filled(i.unit, 80)
  }

  predicate TextsFilled(c: Command) {
    match c
    case CreateBatch(i, system, ref, _, _) => IdentityFilled(i) && Filled(system, 200) && Filled(ref, 200)
    case StageReceipt(_, _, system, ref, _, _) => Filled(system, 200) && Filled(ref, 200)
    case Reserve(i, _, demand, ref, _) => IdentityFilled(i) && Filled(demand, 200) && Filled(ref, 200)
    case Release(demand, _) => Filled(demand, 200)
    case _ => true
  }

  /** The batch or demand the command names is there. */
  predicate Names(t: Tables, c: Command) {
    (ChangesBatch(c) ==> c.batch < |t.batches|) && (c.Release? ==> c.demand in t.demands)
  }

  /** A request that is in order: its texts are filled, its numbers in range, and what it names is there. */
  predicate InOrder(t: Tables, r: Request) {
    && Filled(r.id, 200) && Filled(r.actor, 200) && Filled(r.reason, 1000)
    && TextsFilled(r.command) && UnitsInRange(r.command) && RevisionInRange(r.command) && Names(t, r.command)
  }

  lemma FilledIff()
    ensures forall text: string, max: nat :: ValidText(text, max) <==> Filled(text, max)
  {
    forall text: string, max: nat ensures ValidText(text, max) <==> Filled(text, max) { StableIff(text); }
  }

  lemma ValidIff(c: Command)
    ensures ValidCommand(c) <==> TextsFilled(c) && UnitsInRange(c) && RevisionInRange(c)
  {
    FilledIff();
  }

  lemma InOrderIff(t: Tables, r: Request)
    ensures InOrder(t, r) <==>
            && ValidCommand(r.command) && TargetExists(t, r.command)
            && ValidText(r.id, 200) && ValidText(r.actor, 200) && ValidText(r.reason, 1000)
  {
    ValidIff(r.command);
    FilledIff();
  }

  /** A request out of order is invalid and changes nothing; one in order under a known id is answered from the log, or in
      conflict if it is not the same; and one under a new id does exactly what its command does, and is logged with its
      receipt when that succeeds. */
  lemma ExecuteLaw(s: State, rank: Rank, r: Request)
    ensures var (u, outcome) := Execute(s, rank, r);
            && (!InOrder(s.tables, r) ==> outcome == Invalid && u == s)
            && (InOrder(s.tables, r) && r.id in s.log ==>
                  u == s && outcome == (if s.log[r.id].0 == r then Done(s.log[r.id].1) else Conflict))
            && (InOrder(s.tables, r) ==> ValidCommand(r.command) && TargetExists(s.tables, r.command))
            && (InOrder(s.tables, r) && r.id !in s.log ==>
                  match Apply(s.tables, rank, r.command)
                  case Ok((tables, receipt)) => outcome == Done(receipt) && u == State(tables, s.log[r.id := (r, receipt)])
                  case Err(error) => outcome == error && u == s)
  {
    InOrderIff(s.tables, r);
  }
}
