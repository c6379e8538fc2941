/** The incoming stock commands over their tables, in place. */
module StockDesk {
  import opened Base
  import opened Sorting
  import opened Stock
  import opened StockLaws

  class Desk {
    const rank: Rank
    var batches: seq<Batch>
    var demands: map<string, Demand>
    var commitments: seq<Commitment>
    var receipts: set<(string, string)>
    var log: map<string, (Request, Receipt)>

    function CurrentTables(): Tables
      reads this
    {
      Tables(batches, demands, commitments, receipts)
    }

    function CurrentState(): State
      reads this
    {
      State(CurrentTables(), log)
    }

    constructor (rank: Rank)
      ensures CurrentState() == EMPTY && Inv(CurrentState()) && this.rank == rank
    {
      this.rank := rank;
      batches, demands, commitments, receipts, log := [], map[], [], {}, map[];
    }

    method CommittedQuantity(batch: nat) returns (total: nat)
      ensures total == Open(commitments, batch)
    {
      total := 0;
      assert commitments[..0] == [] && commitments[..|commitments|] == commitments;
      for i := 0 to |commitments|
        invariant total == Open(commitments[..i], batch)
      {
        assert commitments[..i + 1] == commitments[..i] + [commitments[i]];
        OpenAppend(commitments[..i], [commitments[i]], batch);
        if OpenOn(commitments[i], batch) {
          total := total + commitments[i].remaining;
        }
      }
    }

    method CarriesException(batch: nat) returns (found: bool)
      ensures found == HasException(CurrentTables(), batch)
    {
      for i := 0 to |commitments|
        invariant forall k | 0 <= k < i ::
                    !(&& OpenOn(commitments[k], batch) && commitments[k].demand in demands
                      && demands[commitments[k].demand].exception.Some?)
      {
        var c := commitments[i];
        if OpenOn(c, batch) && c.demand in demands && demands[c.demand].exception.Some? {
          assert OpenOn(commitments[i], batch);
          return true;
        }
      }
      return false;
    }

    /** The query behind the supply: the matching batches, ordered by when they are usable and then by id. */
    method RowsInOrder(identity: Identity, neededBy: int) returns (rows: seq<nat>)
      ensures rows == Supply(batches, rank, identity, neededBy)
    {
      rows := [];
      ghost var order := Earlier(batches, rank);
      for i := 0 to |batches|
        invariant rows == Sorted<nat>(Matching(batches, identity, neededBy, i), order)
      {
        var b := batches[i];
        if b.identity == identity && b.status == Confirmed && b.usableAt <= neededBy {
          SortedSnoc<nat>(Matching(batches, identity, neededBy, i), i, order);
          rows := InsertRow(rows, i);
        }
      }
    }

    /** A row goes behind every row that may come before it. */
    method InsertRow(rows: seq<nat>, b: nat) returns (r: seq<nat>)
      ensures r == Insert<nat>(rows, b, Earlier(batches, rank))
    {
      var order := Earlier(batches, rank);
      var k := 0;
      while k < |rows| && order(rows[k], b)
        invariant 0 <= k <= |rows| && forall j :: 0 <= j < k ==> order(rows[j], b)
      {
        k := k + 1;
      }
      InsertAt<nat>(rows, b, order, k);
      r := rows[..k] + [b] + rows[k..];
    }

    /** `supplyRows`: the batches that can supply, earliest first, and what each has available. */
    method SupplyRows(identity: Identity, neededBy: int) returns (rows: seq<nat>, available: seq<nat>)
      ensures rows == Supply(batches, rank, identity, neededBy) && |available| == |rows|
      ensures forall i | 0 <= i < |rows| :: available[i] == Available(CurrentTables(), rows[i])
    {
      rows := RowsInOrder(identity, neededBy);
      available := [];
      for i := 0 to |rows|
        invariant |available| == i
        invariant forall k | 0 <= k < i :: available[k] == Available(CurrentTables(), rows[k])
      {
        var total := CommittedQuantity(rows[i]);
        var exceptions := CarriesException(rows[i]);
        available := available + [if exceptions then 0 else Max(0, batches[rows[i]].confirmed - total)];
      }
    }

    method PreviewIncomingStock(identity: Identity, neededBy: int) returns (total: nat)
      ensures total == Preview(CurrentTables(), rank, identity, neededBy)
    {
      var rows, available := SupplyRows(identity, neededBy);
      total := 0;
      for i := 0 to |rows|
        invariant total + TotalAvailable(CurrentTables(), rows[i..]) == Preview(CurrentTables(), rank, identity, neededBy)
      {
        total := total + available[i];
      }
    }

    /** `affectedDemands`: flag every demand the changed batch no longer covers. */
    method AffectedDemands(batch: nat) returns (affected: seq<string>)
      requires batch < |batches|
      modifies this`demands
      ensures (demands, affected) == Flag(old(CurrentTables()), batch, |commitments|)
    {
      var total := CommittedQuantity(batch);
      affected := [];
      for i := 0 to |commitments|
        invariant (demands, affected) == Flag(old(CurrentTables()), batch, i)
      {
        var c := commitments[i];
        if OpenOn(c, batch) && c.demand in demands {
          var reason := ReasonFor(batches[batch], total, demands[c.demand].neededBy);
          if reason.Some? {
            demands := demands[c.demand := demands[c.demand].(exception := reason)];
            affected := affected + [c.demand];
          }
        }
      }
    }

    method ReviseBatchRow(batch: nat, b: Batch) returns (affected: seq<string>)
      requires batch < |batches|
      modifies this`batches, this`demands
      ensures (CurrentTables(), affected) == WithBatch(old(CurrentTables()), batch, b)
    {
      batches := batches[batch := b];
      affected := AffectedDemands(batch);
    }

    /** Allot the reservation batch by batch until nothing remains to be taken. */
    method InsertCommitments(rows: seq<nat>, available: seq<nat>, demand: string, quantity: nat, ghost t: Tables)
      returns (allotted: seq<(nat, nat)>)
      requires Indices(t.batches, rows) && |available| == |rows| && t.batches == batches
      requires forall i | 0 <= i < |rows| :: available[i] == Available(t, rows[i])
      modifies this`commitments
      ensures allotted == Allot(t, rows, quantity)
      ensures commitments == old(commitments) + Commitments(t, demand, allotted)
    {
      var remaining := quantity;
      allotted := [];
      ghost var before := commitments;
      var i := 0;
      while i < |rows| && remaining > 0
        invariant 0 <= i <= |rows| && batches == t.batches && 0 <= remaining
        invariant allotted + Allot(t, rows[i..], remaining) == Allot(t, rows, quantity)
        invariant commitments == before + Commitments(t, demand, allotted)
        decreases |rows| - i
      {
        var q := Min(remaining, available[i]);
        AllotTurn(t, rows, i, remaining, allotted);
        if q > 0 {
          CommitmentsGrow(before, t, demand, allotted, (rows[i], q));
          commitments := commitments + [Commitment(demand, rows[i], batches[rows[i]].revision, q, q)];
          allotted := allotted + [(rows[i], q)];
          remaining := remaining - q;
        }
        i := i + 1;
      }
      assert Allot(t, rows[i..], remaining) == [];
    }

    method ReserveIncomingStock(identity: Identity, neededBy: int, d: string, ref: string, q: nat) returns (r: Outcome)
      requires ValidCommand(Reserve(identity, neededBy, d, ref, q))
      modifies this`demands, this`commitments
      ensures Outcomes(r, Apply(old(CurrentTables()), rank, Reserve(identity, neededBy, d, ref, q)), old(CurrentTables()))
    {
      ghost var t := CurrentTables();
      var first := FirstIdentity(batches, identity.variant);
      if first.Some? && first.value != identity {
        return Conflict;
      }
      if d in demands {
        return Conflict;
      }
      var rows, available := SupplyRows(identity, neededBy);
      var total := PreviewIncomingStock(identity, neededBy);
      if total < q {
        return Conflict;
      }
      demands := demands[d := Demand(identity, neededBy, ref, q, q, Committed, None)];
      var allotted := InsertCommitments(rows, available, d, q, t);
      r := Done(Reserved(d, allotted));
    }

    /** The demand's open commitment with the largest id. */
    method LargestOpen(d: string) returns (top: Option<nat>)
      ensures top == TopOpen(commitments, rank, d, |commitments|)
    {
      top := None;
      for i := 0 to |commitments|
        invariant top == TopOpen(commitments, rank, d, i)
      {
        if OpenCommitment(commitments[i], d) && (top.None? || rank(i) > rank(top.value)) {
          top := Some(i);
        }
      }
    }

    /** Take units off the demand's commitments; the remainder is what could not be taken. */
    method TakeFromCommitments(d: string, quantity: nat) returns (remaining: nat)
      modifies this`commitments
      ensures (commitments, remaining) == Drain(old(commitments), rank, d, quantity)
    {
      remaining := quantity;
      while remaining > 0
        invariant Drain(commitments, rank, d, remaining) == Drain(old(commitments), rank, d, quantity)
      {
        var top := LargestOpen(d);
        if top.None? {
          return;
        }
        var i := top.value;
        var q := Min(remaining, commitments[i].remaining);
        commitments := commitments[i := commitments[i].(remaining := commitments[i].remaining - q)];
        remaining := remaining - q;
      }
    }

    method ReleaseIncomingStock(d: string, q: nat) returns (r: Outcome)
      requires ValidCommand(Release(d, q)) && d in demands
      modifies this`demands, this`commitments
      ensures Outcomes(r, Apply(old(CurrentTables()), rank, Release(d, q)), old(CurrentTables()))
    {
      if q > demands[d].remaining {
        return Conflict;
      }
      var rollback := commitments;
      var remaining := TakeFromCommitments(d, q);
      if remaining > 0 {
        commitments := rollback;
        return Conflict;
      }
      var next := demands[d].remaining - q;
      demands := demands[d := demands[d].(remaining := next, status := if next > 0 then Committed else Released)];
      r := Done(ReleasedUnits(d, q, next));
    }

    /** The result of a transaction: its receipt and the new tables, or the error and the old ones. */
    ghost predicate Outcomes(r: Outcome, expected: Result<(Tables, Receipt), Outcome>, before: Tables)
      reads this
    {
      match expected
      case Ok((t, receipt)) => r == Done(receipt) && CurrentTables() == t
      case Err(outcome) => r == outcome && CurrentTables() == before
    }

    method CreateIncomingBatch(identity: Identity, system: string, ref: string, q: nat, usableAt: int) returns (r: Outcome)
      requires ValidCommand(CreateBatch(identity, system, ref, q, usableAt))
      modifies this`batches
      ensures Outcomes(r, Apply(old(CurrentTables()), rank, CreateBatch(identity, system, ref, q, usableAt)), old(CurrentTables()))
    {
      var first := FirstIdentity(batches, identity.variant);
      if first.Some? && first.value != identity {
        return Conflict;
      }
      for i := 0 to |batches|
        invariant batches == old(batches)
        invariant forall k | 0 <= k < i :: !(batches[k].sourceSystem == system && batches[k].sourceRef == ref)
      {
        if batches[i].sourceSystem == system && batches[i].sourceRef == ref {
          return Conflict;
        }
      }
      r := Done(BatchCreated(|batches|));
      batches := batches + [Batch(identity, system, ref, q, 0, usableAt, Draft, 0)];
    }

    method ReviseIncomingBatch(c: Command) returns (r: Outcome)
      requires c.ConfirmBatch? || c.ReviseBatch? || c.CancelBatch?
      requires ValidCommand(c) && TargetExists(CurrentTables(), c)
      modifies this`batches, this`demands
      ensures Outcomes(r, Apply(old(CurrentTables()), rank, c), old(CurrentTables()))
    {
      var b := batches[c.batch];
      if b.revision != c.revision || b.status in {Cancelled, ReceiptPending} {
        return Conflict;
      }
      if !c.CancelBatch? && c.ConfirmBatch? != (b.status == Draft) {
        return Conflict;
      }
      var next := if c.CancelBatch? then b.(confirmed := 0, status := Cancelled, revision := b.revision + 1)
        else b.(confirmed := c.quantity, usableAt := c.usableAt, status := Confirmed, revision := b.revision + 1);
      var affected := ReviseBatchRow(c.batch, next);
      r := Done(BatchChanged(c.batch, affected));
    }

    method StageIncomingReceipt(c: Command) returns (r: Outcome)
      requires c.StageReceipt? && ValidCommand(c) && TargetExists(CurrentTables(), c)
      modifies this`batches, this`demands, this`receipts
      ensures Outcomes(r, Apply(old(CurrentTables()), rank, c), old(CurrentTables()))
    {
      var b := batches[c.batch];
      if b.revision != c.revision || b.status != Confirmed || (c.sourceSystem, c.sourceRef) in receipts {
        return Conflict;
      }
      receipts := receipts + {(c.sourceSystem, c.sourceRef)};
      var affected := ReviseBatchRow(c.batch, b.(status := ReceiptPending, confirmed := c.quantity,
                                                 usableAt := c.usableAt, revision := b.revision + 1));
      r := Done(BatchChanged(c.batch, affected));
    }

    method ApplyCommand(c: Command) returns (r: Outcome)
      requires ValidCommand(c) && TargetExists(CurrentTables(), c)
      modifies this
      ensures Outcomes(r, Apply(old(CurrentTables()), rank, c), old(CurrentTables())) && log == old(log)
    {
      match c
      case CreateBatch(i, system, ref, q, at) => r := CreateIncomingBatch(i, system, ref, q, at);
      case ConfirmBatch(_, _, _, _) => r := ReviseIncomingBatch(c);
      case ReviseBatch(_, _, _, _) => r := ReviseIncomingBatch(c);
      case CancelBatch(_, _) => r := ReviseIncomingBatch(c);
      case StageReceipt(_, _, _, _, _, _) => r := StageIncomingReceipt(c);
      case Reserve(i, at, d, ref, q) => r := ReserveIncomingStock(i, at, d, ref, q);
      case Release(d, q) => r := ReleaseIncomingStock(d, q);
    }

    /** `command`: validate, replay or refuse a used request id, otherwise apply and log in one transaction. */
    method Submit(request: Request) returns (r: Outcome)
      modifies this
      ensures (CurrentState(), r) == Execute(old(CurrentState()), rank, request)
      ensures old(Inv(CurrentState())) ==> Inv(CurrentState())
    {
      ghost var s := CurrentState();
      if !ValidCommand(request.command) || !TargetExists(CurrentTables(), request.command) {
        return Invalid;
      }
      if !ValidText(request.id, 200) || !ValidText(request.actor, 200) || !ValidText(request.reason, 1000) {
        return Invalid;
      }
      if request.id in log {
        return if log[request.id].0 == request then Done(log[request.id].1) else Conflict;
      }
      r := ApplyCommand(request.command);
      if r.Done? {
        log := log[request.id := (request, r.receipt)];
      }
      if Inv(s) {
        ExecuteKeepsInv(s, rank, request);
      }
    }
  }

  /** One turn of the allotting loop. */
  lemma AllotTurn(t: Tables, rows: seq<nat>, i: nat, remaining: nat, allotted: seq<(nat, nat)>)
    requires Indices(t.batches, rows) && i < |rows| && remaining > 0
    ensures Indices(t.batches, rows[i..]) && Indices(t.batches, rows[i + 1..])
    ensures var q := Min(remaining, Available(t, rows[i]));
            && (q > 0 ==> allotted + Allot(t, rows[i..], remaining)
                          == (allotted + [(rows[i], q as nat)]) + Allot(t, rows[i + 1..], remaining - q))
            && (q == 0 ==> Allot(t, rows[i..], remaining) == Allot(t, rows[i + 1..], remaining))
  {
    var q := Min(remaining, Available(t, rows[i]));
    assert rows[i..][0] == rows[i] && rows[i..][1..] == rows[i + 1..];
    var rest := Allot(t, rows[i + 1..], remaining - q);
    if q > 0 {
      assert allotted + ([(rows[i], q as nat)] + rest) == (allotted + [(rows[i], q as nat)]) + rest;
    }
  }

  lemma {:induction false} CommitmentsSnoc(t: Tables, demand: string, a: seq<(nat, nat)>, x: (nat, nat))
    ensures Commitments(t, demand, a + [x]) == Commitments(t, demand, a) + [CommitmentOf(t, demand, x)]
  {
    if a != [] {
      CommitmentsSnoc(t, demand, a[1..], x);
      assert (a + [x])[1..] == a[1..] + [x];
    }
  }

  lemma CommitmentsGrow(before: seq<Commitment>, t: Tables, demand: string, a: seq<(nat, nat)>, x: (nat, nat))
    ensures before + Commitments(t, demand, a + [x]) == (before + Commitments(t, demand, a)) + [CommitmentOf(t, demand, x)]
  {
    CommitmentsSnoc(t, demand, a, x);
  }
}
