/** The incoming stock ledger: batches on order, demands promised from them, and the commitments between.

    Rows of a table are named by their position.  Their stored ids are random, so where the code orders by
    id the order is an arbitrary function `rank` of the position. */
module Stock {
  import opened Base
  import opened Text
  import opened Sorting

  const MAX_UNITS := 2147483647

  type Rank = nat -> int

  datatype Identity = Identity(variant: string, listId: string, unit: string)
  datatype BatchStatus = Draft | Confirmed | Cancelled | ReceiptPending
  datatype Batch = Batch(identity: Identity, sourceSystem: string, sourceRef: string, expected: nat,
                         confirmed: nat, usableAt: int, status: BatchStatus, revision: nat)
  datatype Reason = IncomingCancelled | IncomingShort | IncomingLate
  datatype DemandStatus = Committed | Released
  datatype Demand = Demand(identity: Identity, neededBy: int, reference: string, quantity: nat,
                           remaining: nat, status: DemandStatus, exception: Option<Reason>)
  datatype Commitment = Commitment(demand: string, batch: nat, batchRevision: nat, quantity: nat, remaining: nat)

  datatype Command =
    | CreateBatch(identity: Identity, sourceSystem: string, sourceRef: string, quantity: int, usableAt: int)
    | ConfirmBatch(batch: nat, revision: int, quantity: int, usableAt: int)
    | ReviseBatch(batch: nat, revision: int, quantity: int, usableAt: int)
    | CancelBatch(batch: nat, revision: int)
    | Reserve(identity: Identity, neededBy: int, demand: string, reference: string, quantity: int)
    | Release(demand: string, quantity: int)
    | StageReceipt(batch: nat, revision: int, sourceSystem: string, sourceRef: string, quantity: int, usableAt: int)

  datatype Request = Request(id: string, actor: string, reason: string, command: Command)

  datatype Receipt =
    | BatchCreated(index: nat)
    | BatchChanged(index: nat, affected: seq<string>)
    | Reserved(demandId: string, allotted: seq<(nat, nat)>)
    | ReleasedUnits(demandId: string, released: nat, left: nat)

  datatype Outcome = Done(receipt: Receipt) | Invalid | Conflict

  datatype Tables = Tables(batches: seq<Batch>, demands: map<string, Demand>, commitments: seq<Commitment>,
                           receipts: set<(string, string)>)

  /** The request log keeps the whole request in place of its hash. */
  datatype State = State(tables: Tables, log: map<string, (Request, Receipt)>)

  /*** Validation ***/

  predicate ValidText(s: string, max: nat) {
    Stable(s) && |s| <= max
  }

  predicate ValidUnits(n: int, zero: bool) {
    (if zero then 0 else 1) <= n <= MAX_UNITS
  }

  predicate ValidIdentity(i: Identity) {
    ValidText(i.variant, 200) && ValidText(i.listId, 200) && ValidText(i.unit, 80)
  }

  predicate ValidCommand(c: Command) {
    match c
    case CreateBatch(i, system, ref, q, _) =>
      ValidIdentity(i) && ValidText(system, 200) && ValidText(ref, 200) && ValidUnits(q, true)
    case ConfirmBatch(_, rev, q, _) => rev >= 0 && ValidUnits(q, false)
    case ReviseBatch(_, rev, q, _) => rev >= 0 && ValidUnits(q, false)
    case CancelBatch(_, rev) => rev >= 0
    case Reserve(i, _, demand, ref, q) =>
      ValidIdentity(i) && ValidText(demand, 200) && ValidText(ref, 200) && ValidUnits(q, false)
    case Release(demand, q) => ValidText(demand, 200) && ValidUnits(q, false)
    case StageReceipt(_, rev, system, ref, q, _) =>
      rev >= 0 && ValidText(system, 200) && ValidText(ref, 200) && ValidUnits(q, true)
  }

  /** The row a command refers to is looked up before the request log is. */
  predicate TargetExists(t: Tables, c: Command) {
    match c
    case ConfirmBatch(b, _, _, _) => b < |t.batches|
    case ReviseBatch(b, _, _, _) => b < |t.batches|
    case CancelBatch(b, _) => b < |t.batches|
    case StageReceipt(b, _, _, _, _, _) => b < |t.batches|
    case Release(d, _) => d in t.demands
    case _ => true
  }

  /*** Sums ***/

  function Open(cs: seq<Commitment>, batch: nat): nat {
    if cs == [] then 0
    else (if cs[0].batch == batch then cs[0].remaining else 0) + Open(cs[1..], batch)
  }

  function OpenFor(cs: seq<Commitment>, demand: string): nat {
    if cs == [] then 0
    else (if cs[0].demand == demand then cs[0].remaining else 0) + OpenFor(cs[1..], demand)
  }

  /*** Supply ***/

  predicate OpenOn(c: Commitment, batch: nat) {
    c.batch == batch && c.remaining > 0
  }

  /** Some open commitment of the batch belongs to a demand that already carries an exception. */
  predicate HasException(t: Tables, batch: nat) {
    exists i | 0 <= i < |t.commitments| ::
      && OpenOn(t.commitments[i], batch) && t.commitments[i].demand in t.demands
      && t.demands[t.commitments[i].demand].exception.Some?
  }

  function Available(t: Tables, batch: nat): nat
    requires batch < |t.batches|
  {
    if HasException(t, batch) then 0 else Max(0, t.batches[batch].confirmed - Open(t.commitments, batch))
  }

  predicate Supplies(b: Batch, identity: Identity, neededBy: int) {
    b.identity == identity && b.status == Confirmed && b.usableAt <= neededBy
  }

  predicate Indices(batches: seq<Batch>, rows: seq<nat>) {
    forall i | 0 <= i < |rows| :: rows[i] < |batches|
  }

  function UsableAt(batches: seq<Batch>, b: nat): int {
    if b < |batches| then batches[b].usableAt else 0
  }

  /** Usable earlier, or at the same time and of smaller id. */
  function Earlier(batches: seq<Batch>, rank: Rank): AtMost<nat> {
    (a: nat, b: nat) =>
      UsableAt(batches, a) < UsableAt(batches, b) || (UsableAt(batches, a) == UsableAt(batches, b) && rank(a) <= rank(b))
  }

  lemma EarlierOrders(batches: seq<Batch>, rank: Rank)
    ensures TotalPreorder(Earlier(batches, rank))
  {
  }

  /** The first `n` batches that can supply. */
  function Matching(batches: seq<Batch>, identity: Identity, neededBy: int, n: nat): (r: seq<nat>)
    requires n <= |batches|
    ensures Indices(batches, r)
  {
    if n == 0 then []
    else
      var rest := Matching(batches, identity, neededBy, n - 1);
      if Supplies(batches[n - 1], identity, neededBy) then rest + [n - 1] else rest
  }

  /** The batches that can supply, earliest first. */
  function Supply(batches: seq<Batch>, rank: Rank, identity: Identity, neededBy: int): (r: seq<nat>)
    ensures Indices(batches, r)
  {
    EarlierOrders(batches, rank);
    SortedMembers<nat>(Matching(batches, identity, neededBy, |batches|), Earlier(batches, rank));
    var rows := Sorted<nat>(Matching(batches, identity, neededBy, |batches|), Earlier(batches, rank));
    assert forall i | 0 <= i < |rows| :: rows[i] in rows;
    rows
  }

  function TotalAvailable(t: Tables, rows: seq<nat>): nat
    requires Indices(t.batches, rows)
  {
    if rows == [] then 0 else Available(t, rows[0]) + TotalAvailable(t, rows[1..])
  }

  /** `previewIncomingStock`. */
  function Preview(t: Tables, rank: Rank, identity: Identity, neededBy: int): nat {
    TotalAvailable(t, Supply(t.batches, rank, identity, neededBy))
  }

  /*** Reserving ***/

  /** What the first row gives. */
  function First(t: Tables, rows: seq<nat>, quantity: nat): nat
    requires Indices(t.batches, rows) && rows != []
  {
    Min(quantity, Available(t, rows[0]))
  }

  /** Units taken from each supplying batch, in order; batches that give nothing are skipped. */
  function Allot(t: Tables, rows: seq<nat>, quantity: nat): seq<(nat, nat)>
    requires Indices(t.batches, rows)
  {
    if rows == [] || quantity == 0 then []
    else
      var q := First(t, rows, quantity);
      var rest := Allot(t, rows[1..], quantity - q);
      if q > 0 then [(rows[0], q)] + rest else rest
  }

  function CommitmentOf(t: Tables, demand: string, a: (nat, nat)): Commitment {
    Commitment(demand, a.0, if a.0 < |t.batches| then t.batches[a.0].revision else 0, a.1, a.1)
  }

  function Commitments(t: Tables, demand: string, allotted: seq<(nat, nat)>): seq<Commitment> {
    if allotted == [] then [] else [CommitmentOf(t, demand, allotted[0])] + Commitments(t, demand, allotted[1..])
  }

  /** The identity under which a variant is first on order. */
  function FirstIdentity(batches: seq<Batch>, variant: string): Option<Identity> {
    if batches == [] then None
    else if batches[0].identity.variant == variant then Some(batches[0].identity)
    else FirstIdentity(batches[1..], variant)
  }

  /** The variant is not yet on order under another identity. */
  predicate IdentityMatches(t: Tables, identity: Identity) {
    FirstIdentity(t.batches, identity.variant) in {None, Some(identity)}
  }

  /*** Exceptions ***/

  function ReasonFor(b: Batch, total: nat, neededBy: int): Option<Reason> {
    if b.status == Cancelled then Some(IncomingCancelled)
    else if total > b.confirmed then Some(IncomingShort)
    else if b.usableAt > neededBy then Some(IncomingLate)
    else None
  }

  /** Flag the demands behind the first `n` commitments that the changed batch no longer covers. */
  function Flag(t: Tables, batch: nat, n: nat): (map<string, Demand>, seq<string>)
    requires batch < |t.batches| && n <= |t.commitments|
  {
    if n == 0 then (t.demands, [])
    else
      var (demands, affected) := Flag(t, batch, n - 1);
      var c := t.commitments[n - 1];
      if !OpenOn(c, batch) || c.demand !in demands then (demands, affected)
      else
        var reason := ReasonFor(t.batches[batch], Open(t.commitments, batch), demands[c.demand].neededBy);
        if reason == None then (demands, affected)
        else (demands[c.demand := demands[c.demand].(exception := reason)], affected + [c.demand])
  }

  function WithBatch(t: Tables, batch: nat, b: Batch): (Tables, seq<string>)
    requires batch < |t.batches|
  {
    var u := t.(batches := t.batches[batch := b]);
    var (demands, affected) := Flag(u, batch, |u.commitments|);
    (u.(demands := demands), affected)
  }

  /*** Releasing ***/

  predicate OpenCommitment(c: Commitment, demand: string) {
    c.demand == demand && c.remaining > 0
  }

  /** The demand's open commitment with the largest id among the first `n`. */
  function TopOpen(cs: seq<Commitment>, rank: Rank, demand: string, n: nat): (r: Option<nat>)
    requires n <= |cs|
    ensures r.Some? ==> r.value < n && OpenCommitment(cs[r.value], demand)
  {
    if n == 0 then None
    else
      var best := TopOpen(cs, rank, demand, n - 1);
      if !OpenCommitment(cs[n - 1], demand) then best
      else if best.Some? && rank(n - 1) <= rank(best.value) then best
      else Some(n - 1)
  }

  /** Take `quantity` units off the demand's commitments, largest id first; also what could not be taken. */
  function Drain(cs: seq<Commitment>, rank: Rank, demand: string, quantity: nat): (seq<Commitment>, nat)
    decreases quantity
  {
    if quantity == 0 then (cs, 0)
    else
      var top := TopOpen(cs, rank, demand, |cs|);
      if top.None? then (cs, quantity)
      else
        var i := top.value;
        var q := Min(quantity, cs[i].remaining);
        Drain(cs[i := cs[i].(remaining := cs[i].remaining - q)], rank, demand, quantity - q)
  }

  /*** Commands ***/

  function ChangedBatch(t: Tables, batch: nat, b: Batch): Result<(Tables, Receipt), Outcome>
    requires batch < |t.batches|
  {
    var (u, affected) := WithBatch(t, batch, b);
    Ok((u, BatchChanged(batch, affected)))
  }

  function Revise(t: Tables, batch: nat, revision: int, needs: BatchStatus, quantity: nat, usableAt: int): Result<(Tables, Receipt), Outcome>
    requires batch < |t.batches|
  {
    var b := t.batches[batch];
    if b.revision != revision || b.status in {Cancelled, ReceiptPending} || b.status != needs then Err(Conflict)
    else ChangedBatch(t, batch, b.(confirmed := quantity, usableAt := usableAt, status := Confirmed, revision := b.revision + 1))
  }

  /** What a command does to the tables inside its transaction. */
  function Apply(t: Tables, rank: Rank, c: Command): Result<(Tables, Receipt), Outcome>
    requires ValidCommand(c) && TargetExists(t, c)
  {
    match c
    case CreateBatch(i, system, ref, q, usableAt) =>
      if !IdentityMatches(t, i) then Err(Conflict)
      else if exists k | 0 <= k < |t.batches| :: t.batches[k].sourceSystem == system && t.batches[k].sourceRef == ref
      then Err(Conflict)
      else Ok((t.(batches := t.batches + [Batch(i, system, ref, q, 0, usableAt, Draft, 0)]), BatchCreated(|t.batches|)))
    case ConfirmBatch(b, rev, q, usableAt) => Revise(t, b, rev, Draft, q, usableAt)
    case ReviseBatch(b, rev, q, usableAt) => Revise(t, b, rev, Confirmed, q, usableAt)
    case CancelBatch(i, rev) =>
      var b := t.batches[i];
      if b.revision != rev || b.status in {Cancelled, ReceiptPending} then Err(Conflict)
      else ChangedBatch(t, i, b.(confirmed := 0, status := Cancelled, revision := b.revision + 1))
    case StageReceipt(i, rev, system, ref, q, usableAt) =>
      var b := t.batches[i];
      if b.revision != rev || b.status != Confirmed || (system, ref) in t.receipts then Err(Conflict)
      else ChangedBatch(t.(receipts := t.receipts + {(system, ref)}), i,
                        b.(status := ReceiptPending, confirmed := q, usableAt := usableAt, revision := b.revision + 1))
    case Reserve(i, neededBy, d, ref, q) =>
      var rows := Supply(t.batches, rank, i, neededBy);
      if !IdentityMatches(t, i) || d in t.demands || TotalAvailable(t, rows) < q then Err(Conflict)
      else
        var allotted := Allot(t, rows, q);
        Ok((t.(demands := t.demands[d := Demand(i, neededBy, ref, q, q, Committed, None)],
               commitments := t.commitments + Commitments(t, d, allotted)),
            Reserved(d, allotted)))
    case Release(d, q) =>
      var demand := t.demands[d];
      if q > demand.remaining then Err(Conflict)
      else
        var (cs, left) := Drain(t.commitments, rank, d, q);
        if left > 0 then Err(Conflict)
        else
          var next := demand.remaining - q;
          Ok((t.(commitments := cs,
                 demands := t.demands[d := demand.(remaining := next, status := if next > 0 then Committed else Released)]),
              ReleasedUnits(d, q, next)))
  }

  /** `command`: at most one application per request id. */
  function Execute(s: State, rank: Rank, r: Request): (State, Outcome) {
    if !ValidCommand(r.command) || !TargetExists(s.tables, r.command) then (s, Invalid)
    else if !ValidText(r.id, 200) || !ValidText(r.actor, 200) || !ValidText(r.reason, 1000) then (s, Invalid)
    else if r.id in s.log then
      if s.log[r.id].0 == r then (s, Done(s.log[r.id].1)) else (s, Conflict)
    else
      match Apply(s.tables, rank, r.command)
      case Ok((tables, receipt)) => (State(tables, s.log[r.id := (r, receipt)]), Done(receipt))
      case Err(outcome) => (s, outcome)
  }

  function Run(s: State, rank: Rank, rs: seq<Request>): State
    decreases |rs|
  {
    if rs == [] then s else Run(Execute(s, rank, rs[0]).0, rank, rs[1..])
  }

  const EMPTY := State(Tables([], map[], [], {}), map[])
}
