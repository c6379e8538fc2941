/** Order promises: a reviewed promise is accepted, and bound to the order it was placed as. */
module OrderPromise {
  import opened Base
  import opened Text
  import opened Permutations
  import opened Sorting

  datatype Line = Line(cartLineId: string, perLb: bool, ratePerLb: Option<real>, weightLb: Option<real>, rest: string)

  datatype Assignment = Assignment(experimentId: string, version: Option<string>, rest: string)

  datatype PaymentMode = Card | CardAtPlacement | InvoiceTerms

  datatype Terms = Terms(mode: PaymentMode, consentVersion: string, consentText: string, invoiceTerms: string, rest: string)

  /** `rest` fields stand for the parts of a promise that are only carried along. */
  datatype Promise = Promise(cartId: string, customerId: string, lines: seq<Line>, assignments: seq<Assignment>,
                             terms: Terms, rest: string)

  /** A fixed order of texts, by which different texts never tie. */
  type Rank = string -> int

  ghost predicate Faithful(rank: Rank) {
    forall a: string, b: string :: rank(a) == rank(b) ==> a == b
  }

  function LineKey(): Key<Line> {
    (line: Line) => Some(line.cartLineId)
  }

  function ExperimentKey(): Key<Assignment> {
    (a: Assignment) => Some(a.experimentId)
  }

  /** A text field that is present, not padded and not too long. */
  predicate Identifier(s: string) {
    Stable(s) && |s| <= 500
  }

  predicate TermsOk(t: Terms) {
    if t.mode == InvoiceTerms then t.invoiceTerms != "" else t.consentVersion != "" && t.consentText != ""
  }

  predicate Schema(p: Promise) {
    && Identifier(p.cartId) && Identifier(p.customerId)
    && 1 <= |p.lines| <= 500 && AllDistinct(p.lines, LineKey())
    && (forall i :: 0 <= i < |p.lines| ==> Identifier(p.lines[i].cartLineId))
    && (forall i :: 0 <= i < |p.lines| && p.lines[i].perLb ==> p.lines[i].ratePerLb.Some? && p.lines[i].weightLb.Some?)
    && |p.assignments| <= 100 && AllDistinct(p.assignments, ExperimentKey())
    && (forall i :: 0 <= i < |p.assignments| ==> Identifier(p.assignments[i].experimentId))
    && TermsOk(p.terms)
  }

  function ByLineId(rank: Rank): AtMost<Line> {
    (a: Line, b: Line) => rank(a.cartLineId) <= rank(b.cartLineId)
  }

  function VersionText(a: Assignment): string {
    if a.version.Some? then a.version.value else ""
  }

  function ByExperiment(rank: Rank): AtMost<Assignment> {
    (a: Assignment, b: Assignment) =>
      rank(a.experimentId) < rank(b.experimentId)
      || (rank(a.experimentId) == rank(b.experimentId) && rank(VersionText(a)) <= rank(VersionText(b)))
  }

  function Normal(rank: Rank, p: Promise): Promise {
    p.(lines := Sorted(p.lines, ByLineId(rank)), assignments := Sorted(p.assignments, ByExperiment(rank)))
  }

  /** `orderPromiseHash`: the digest stands for the normal form; there is none outside the schema. */
  function Hash(rank: Rank, p: Promise): Option<Promise> {
    if Schema(p) then Some(Normal(rank, p)) else None
  }

  /*** Rows ***/

  /** Reviews and snapshots are named by their place in their table. */
  datatype Review = Review(cartId: string, customerId: string, requestId: string, hash: Promise, promise: Promise,
                           createdAt: int, expiresAt: int)

  datatype Snapshot = Snapshot(cartId: string, customerId: string, reviewId: nat, revision: nat, requestId: string,
                               hash: Promise, promise: Promise, acceptedAt: int)

  datatype Cart = Cart(customerId: string, completed: bool, pointer: Option<nat>)

  datatype Order = Order(customerId: string, pointer: Option<nat>, createdAt: Option<int>)

  datatype Binding = Binding(cartId: string, snapshotId: nat, runId: string, placedAt: int)

  datatype State = State(carts: map<string, Cart>, reviews: seq<Review>, snapshots: seq<Snapshot>,
                         orders: map<string, Order>, links: map<string, string>, bindings: map<string, Binding>)

  datatype Error =
    | Incomplete
    | InvalidExpiry
    | InvalidIdentifier
    | CartUnavailable
    | IdempotencyConflict
    | EvidenceInvalid
    | AlreadyPlaced
    | AcceptanceConflict
    | Superseded
    | RefreshRequired
    | AlreadyAccepted
    | CompletionUnconfirmed
    | OrderUnavailable
    | BindingUnavailable
    | BindingConflict
    | OriginalUnavailable

  const FIFTEEN_MINUTES := 900_000

  predicate Placed(st: State, cartId: string) {
    (cartId in st.carts && st.carts[cartId].completed) || exists o :: o in st.links && st.links[o] == cartId
  }

  function OwnedCart(st: State, cartId: string, customerId: string): Option<Error> {
    if !Identifier(cartId) then Some(InvalidIdentifier)
    else if cartId !in st.carts then Some(CartUnavailable)
    else if !Identifier(customerId) then Some(InvalidIdentifier)
    else if st.carts[cartId].customerId != customerId then Some(CartUnavailable)
    else None
  }

  function FindReview(reviews: seq<Review>, cartId: string, requestId: string): Option<nat> {
    FindLast(reviews, (row: Review) => row.cartId == cartId && row.requestId == requestId)
  }

  function FindSnapshot(snapshots: seq<Snapshot>, cartId: string, requestId: string): Option<nat> {
    FindLast(snapshots, (row: Snapshot) => row.cartId == cartId && row.requestId == requestId)
  }

  function Latest(snapshots: seq<Snapshot>, cartId: string): nat {
    if snapshots == [] then 0
    else
      var last := snapshots[|snapshots| - 1];
      var before := Latest(snapshots[..|snapshots| - 1], cartId);
      if last.cartId == cartId && last.revision > before then last.revision else before
  }

  predicate ReviewUsed(snapshots: seq<Snapshot>, reviewId: nat) {
    exists i :: 0 <= i < |snapshots| && snapshots[i].reviewId == reviewId
  }

  /*** The three operations ***/

  /** What keeps a review from being created, or the earlier review a replay returns. */
  function CreateOutcome(rank: Rank, st: State, p: Promise, requestId: string, expiresAt: int, now: int): Result<Option<nat>, Error> {
    if !Schema(p) then Err(Incomplete)
    else if expiresAt <= now || expiresAt > now + FIFTEEN_MINUTES then Err(InvalidExpiry)
    else if !Identifier(requestId) then Err(InvalidIdentifier)
    else if OwnedCart(st, p.cartId, p.customerId).Some? then Err(OwnedCart(st, p.cartId, p.customerId).value)
    else
      var prior := FindReview(st.reviews, p.cartId, requestId);
      if prior.Some? then
        var row := st.reviews[prior.value];
        if Some(row.hash) != Hash(rank, p) then Err(IdempotencyConflict)
        else if Hash(rank, row.promise) != Some(row.hash) then Err(EvidenceInvalid)
        else Ok(prior)
      else if Placed(st, p.cartId) then Err(AlreadyPlaced)
      else Ok(None)
  }

  function ReviewRow(rank: Rank, p: Promise, requestId: string, expiresAt: int, now: int): Review {
    Review(p.cartId, p.customerId, requestId, Normal(rank, p), Normal(rank, p), now, expiresAt)
  }

  function ReplayOutcome(rank: Rank, st: State, p: Promise, reviewId: nat, replay: nat): Result<Option<nat>, Error>
    requires replay < |st.snapshots| && p.cartId in st.carts
  {
    var row := st.snapshots[replay];
    if row.reviewId != reviewId || Some(row.hash) != Hash(rank, p) then Err(AcceptanceConflict)
    else if st.carts[p.cartId].pointer != Some(replay) then Err(Superseded)
    else if Hash(rank, row.promise) != Some(row.hash) then Err(EvidenceInvalid)
    else Ok(Some(replay))
  }

  predicate ReviewMatches(rank: Rank, st: State, p: Promise, reviewId: nat, now: int) {
    && reviewId < |st.reviews|
    && var r := st.reviews[reviewId];
       && r.cartId == p.cartId && r.customerId == p.customerId && Some(r.hash) == Hash(rank, p)
       && r.createdAt <= now < r.expiresAt
  }

  function AcceptOutcome(rank: Rank, st: State, p: Promise, reviewId: nat, requestId: string, now: int): Result<Option<nat>, Error> {
    if !Schema(p) then Err(Incomplete)
    else if !Identifier(requestId) then Err(InvalidIdentifier)
    else if OwnedCart(st, p.cartId, p.customerId).Some? then Err(OwnedCart(st, p.cartId, p.customerId).value)
    else
      var replay := FindSnapshot(st.snapshots, p.cartId, requestId);
      if replay.Some? then ReplayOutcome(rank, st, p, reviewId, replay.value)
      else if Placed(st, p.cartId) then Err(AlreadyPlaced)
      else if !ReviewMatches(rank, st, p, reviewId, now) then Err(RefreshRequired)
      else if Hash(rank, st.reviews[reviewId].promise) != Some(st.reviews[reviewId].hash) then Err(EvidenceInvalid)
      else if ReviewUsed(st.snapshots, reviewId) then Err(AlreadyAccepted)
      else Ok(None)
  }

  function SnapshotRow(st: State, p: Promise, reviewId: nat, requestId: string, hash: Promise, now: int): Snapshot
    requires reviewId < |st.reviews|
  {
    Snapshot(p.cartId, p.customerId, reviewId, Latest(st.snapshots, p.cartId) + 1, requestId, hash,
             st.reviews[reviewId].promise, now)
  }

  /** A finished native completion, as its own receipt shows it: the order and the run. */
  datatype Completion = Completion(orderId: string, runId: string)

  function BindOutcome(rank: Rank, st: State, cartId: string, completion: Option<Completion>): Result<Option<Binding>, Error> {
    if !Identifier(cartId) then Err(InvalidIdentifier)
    else if completion.None? then Err(CompletionUnconfirmed)
    else if !Identifier(completion.value.orderId) || !Identifier(completion.value.runId) then Err(InvalidIdentifier)
    else
      var orderId := completion.value.orderId;
      if orderId !in st.orders || cartId !in st.carts || !st.carts[cartId].completed
         || st.carts[cartId].customerId != st.orders[orderId].customerId then Err(OrderUnavailable)
      else
        var id := st.orders[orderId].pointer;
        if !(orderId in st.links && st.links[orderId] == cartId) || id.None? || st.carts[cartId].pointer != id
           || id.value >= |st.snapshots| || st.snapshots[id.value].cartId != cartId
           || st.snapshots[id.value].customerId != st.orders[orderId].customerId then Err(BindingUnavailable)
        else if Hash(rank, st.snapshots[id.value].promise) != Some(st.snapshots[id.value].hash) then Err(EvidenceInvalid)
        else if orderId in st.bindings then
          if st.bindings[orderId].cartId != cartId || st.bindings[orderId].snapshotId != id.value then Err(BindingConflict)
          else Ok(None)
        else if st.orders[orderId].createdAt.None? then Err(OrderUnavailable)
        else Ok(Some(Binding(cartId, id.value, completion.value.runId, st.orders[orderId].createdAt.value)))
  }

  function ReadOriginal(rank: Rank, st: State, orderId: string): Result<Snapshot, Error> {
    if !Identifier(orderId) then Err(InvalidIdentifier)
    else if orderId !in st.bindings || st.bindings[orderId].snapshotId >= |st.snapshots| || orderId !in st.orders
            || orderId !in st.links || st.links[orderId] != st.bindings[orderId].cartId then Err(OriginalUnavailable)
    else
      var row := st.snapshots[st.bindings[orderId].snapshotId];
      if st.orders[orderId].customerId != row.customerId then Err(OriginalUnavailable)
      else if Hash(rank, row.promise) != Some(row.hash) then Err(EvidenceInvalid)
      else Ok(row)
  }

  /*** Steps of a run ***/

  datatype Op =
    | CreateReview(promise: Promise, requestId: string, expiresAt: int, now: int)
    | AcceptReview(current: Promise, reviewId: nat, request: string, at: int)
    | NewCart(cart: string, customer: string)
    | Place(cartId: string, orderId: string, createdAt: Option<int>)
    | Bind(boundCart: string, completion: Option<Completion>)

  function AfterCreate(rank: Rank, st: State, p: Promise, requestId: string, expiresAt: int, now: int): State {
    if CreateOutcome(rank, st, p, requestId, expiresAt, now) == Ok(None) then
      st.(reviews := st.reviews + [ReviewRow(rank, p, requestId, expiresAt, now)])
    else st
  }

  function AfterAccept(rank: Rank, st: State, p: Promise, reviewId: nat, requestId: string, now: int): State {
    if AcceptOutcome(rank, st, p, reviewId, requestId, now) == Ok(None) then
      st.(snapshots := st.snapshots + [SnapshotRow(st, p, reviewId, requestId, Normal(rank, p), now)],
          carts := st.carts[p.cartId := st.carts[p.cartId].(pointer := Some(|st.snapshots|))])
    else st
  }

  function AfterBind(rank: Rank, st: State, cartId: string, completion: Option<Completion>): State {
    match BindOutcome(rank, st, cartId, completion)
    case Ok(Some(binding)) => st.(bindings := st.bindings[completion.value.orderId := binding])
    case _ => st
  }

  /** Native completion: the cart is closed, and an order appears with the cart's customer and its metadata. */
  function AfterPlace(st: State, cartId: string, orderId: string, createdAt: Option<int>): State {
    if cartId !in st.carts || Placed(st, cartId) || orderId in st.orders || orderId in st.links then st
    else
      var cart := st.carts[cartId];
      st.(carts := st.carts[cartId := cart.(completed := true)],
          orders := st.orders[orderId := Order(cart.customerId, cart.pointer, createdAt)],
          links := st.links[orderId := cartId])
  }

  function Step(rank: Rank, st: State, op: Op): State {
    match op
    case CreateReview(p, requestId, expiresAt, now) => AfterCreate(rank, st, p, requestId, expiresAt, now)
    case AcceptReview(p, reviewId, requestId, now) => AfterAccept(rank, st, p, reviewId, requestId, now)
    case NewCart(cart, customer) =>
      if cart in st.carts then st else st.(carts := st.carts[cart := Cart(customer, false, None)])
    case Place(cartId, orderId, createdAt) => AfterPlace(st, cartId, orderId, createdAt)
    case Bind(cartId, completion) => AfterBind(rank, st, cartId, completion)
  }

  function Run(rank: Rank, st: State, ops: seq<Op>): State
    decreases |ops|
  {
    if ops == [] then st else Run(rank, Step(rank, st, ops[0]), ops[1..])
  }

  const EMPTY := State(map[], [], [], map[], map[], map[])

  /** What a caller is told: the row a replay found, or the place of the new one. */
  function Answer(outcome: Result<Option<nat>, Error>, next: nat): Result<nat, Error> {
    match outcome
    case Err(error) => Err(error)
    case Ok(None) => Ok(next)
    case Ok(Some(row)) => Ok(row)
  }

  /** The tables, as the transactions update them. */
  class Tables {
    var carts: map<string, Cart>
    var reviews: seq<Review>
    var snapshots: seq<Snapshot>
    var orders: map<string, Order>
    var links: map<string, string>
    var bindings: map<string, Binding>

    function Contents(): State
      reads this
    {
      State(carts, reviews, snapshots, orders, links, bindings)
    }

    constructor ()
      ensures Contents() == EMPTY
    {
      carts, reviews, snapshots, orders, links, bindings := map[], [], [], map[], map[], map[];
    }

    method CreateOrderPromiseReview(rank: Rank, p: Promise, requestId: string, expiresAt: int, now: int)
      returns (r: Result<nat, Error>)
      modifies this
      ensures Contents() == AfterCreate(rank, old(Contents()), p, requestId, expiresAt, now)
      ensures r == Answer(CreateOutcome(rank, old(Contents()), p, requestId, expiresAt, now), |old(reviews)|)
      ensures r.Ok? ==> r.value < |reviews| && Some(reviews[r.value].hash) == Hash(rank, p)
    {
      if !Schema(p) { return Err(Incomplete); }
      var hash := Hash(rank, p).value;
      if expiresAt <= now || expiresAt > now + FIFTEEN_MINUTES { return Err(InvalidExpiry); }
      if !Identifier(requestId) { return Err(InvalidIdentifier); }
      var refusal := OwnedCart(Contents(), p.cartId, p.customerId);
      if refusal.Some? { return Err(refusal.value); }
      var prior := FindReview(reviews, p.cartId, requestId);
      if prior.Some? {
        if reviews[prior.value].hash != hash { return Err(IdempotencyConflict); }
        if Hash(rank, reviews[prior.value].promise) != Some(hash) { return Err(EvidenceInvalid); }
        return Ok(prior.value);
      }
      if Placed(Contents(), p.cartId) { return Err(AlreadyPlaced); }
      reviews := reviews + [Review(p.cartId, p.customerId, requestId, hash, hash, now, expiresAt)];
      return Ok(|reviews| - 1);
    }

    method AcceptOrderPromiseReview(rank: Rank, p: Promise, reviewId: nat, requestId: string, now: int)
      returns (r: Result<nat, Error>)
      modifies this
      ensures Contents() == AfterAccept(rank, old(Contents()), p, reviewId, requestId, now)
      ensures r == Answer(AcceptOutcome(rank, old(Contents()), p, reviewId, requestId, now), |old(snapshots)|)
      ensures r.Ok? ==> r.value < |snapshots| && Some(snapshots[r.value].hash) == Hash(rank, p)
                        && p.cartId in carts && carts[p.cartId].pointer == Some(r.value)
    {
      if !Schema(p) { return Err(Incomplete); }
      var hash := Hash(rank, p).value;
      if !Identifier(requestId) { return Err(InvalidIdentifier); }
      var refusal := OwnedCart(Contents(), p.cartId, p.customerId);
      if refusal.Some? { return Err(refusal.value); }
      var replay := FindSnapshot(snapshots, p.cartId, requestId);
      if replay.Some? {
        var row := snapshots[replay.value];
        if row.reviewId != reviewId || row.hash != hash { return Err(AcceptanceConflict); }
        if carts[p.cartId].pointer != Some(replay.value) { return Err(Superseded); }
        if Hash(rank, row.promise) != Some(hash) { return Err(EvidenceInvalid); }
        return Ok(replay.value);
      }
      if Placed(Contents(), p.cartId) { return Err(AlreadyPlaced); }
      if !ReviewMatches(rank, Contents(), p, reviewId, now) { return Err(RefreshRequired); }
      if Hash(rank, reviews[reviewId].promise) != Some(reviews[reviewId].hash) { return Err(EvidenceInvalid); }
      if ReviewUsed(snapshots, reviewId) { return Err(AlreadyAccepted); }
      var id := |snapshots|;
      snapshots := snapshots + [SnapshotRow(Contents(), p, reviewId, requestId, hash, now)];
      carts := carts[p.cartId := carts[p.cartId].(pointer := Some(id))];
      return Ok(id);
    }

    method BindOrderPromise(rank: Rank, cartId: string, completion: Option<Completion>) returns (r: Result<Binding, Error>)
      modifies this
      ensures Contents() == AfterBind(rank, old(Contents()), cartId, completion)
      ensures r.Ok? == BindOutcome(rank, old(Contents()), cartId, completion).Ok?
      ensures r.Err? ==> BindOutcome(rank, old(Contents()), cartId, completion) == Err(r.error)
      ensures r.Ok? ==> completion.Some? && completion.value.orderId in bindings && bindings[completion.value.orderId] == r.value
    {
      if !Identifier(cartId) { return Err(InvalidIdentifier); }
      if completion.None? { return Err(CompletionUnconfirmed); }
      var orderId, runId := completion.value.orderId, completion.value.runId;
      if !Identifier(orderId) || !Identifier(runId) { return Err(InvalidIdentifier); }
      if orderId !in orders || cartId !in carts { return Err(OrderUnavailable); }
      var cart, order := carts[cartId], orders[orderId];
      if !cart.completed || cart.customerId != order.customerId { return Err(OrderUnavailable); }
      var snapshot := PlacedSnapshot(cartId, orderId);
      if snapshot.None? { return Err(BindingUnavailable); }
      var row := snapshots[snapshot.value];
      if Hash(rank, row.promise) != Some(row.hash) { return Err(EvidenceInvalid); }
      if orderId in bindings {
        var existing := bindings[orderId];
        if existing.cartId != cartId || existing.snapshotId != snapshot.value { return Err(BindingConflict); }
        return Ok(existing);
      }
      if order.createdAt.None? { return Err(OrderUnavailable); }
      var binding := Binding(cartId, snapshot.value, runId, order.createdAt.value);
      bindings := bindings[orderId := binding];
      return Ok(binding);
    }

    /** The snapshot that both the order and its linked cart point to, if it is theirs. */
    method PlacedSnapshot(cartId: string, orderId: string) returns (r: Option<nat>)
      requires orderId in orders && cartId in carts
      ensures r.Some? ==> r == orders[orderId].pointer
      ensures r.Some? <==>
              && orderId in links && links[orderId] == cartId
              && orders[orderId].pointer.Some? && carts[cartId].pointer == orders[orderId].pointer
              && var id := orders[orderId].pointer.value;
                 id < |snapshots| && snapshots[id].cartId == cartId && snapshots[id].customerId == orders[orderId].customerId
    {
      if orderId !in links || links[orderId] != cartId { return None; }
      var id := orders[orderId].pointer;
      if id.None? || carts[cartId].pointer != id || id.value >= |snapshots| { return None; }
      var row := snapshots[id.value];
      if row.cartId != links[orderId] || row.customerId != orders[orderId].customerId { return None; }
      return id;
    }
  }
}
