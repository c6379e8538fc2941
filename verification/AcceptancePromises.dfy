/** What each step of an order promise needs and leaves, told from the rows and the promise. */
module AcceptancePromises {
  import opened Base
  import opened Text
  import opened Permutations
  import opened Sorting
  import opened OrderPromise
  import opened OrderPromiseLaws

  /*** A complete promise ***/

  /** A text that is present, not padded, and no longer than five hundred characters. */
  predicate Given(s: string) {
    s != "" && !White(s[0]) && !White(s[|s| - 1]) && |s| <= 500
  }

  predicate CompleteLine(line: Line) {
    Given(line.cartLineId) && (line.perLb ==> line.ratePerLb.Some? && line.weightLb.Some?)
  }

  ghost predicate Complete(p: Promise) {
    && Given(p.cartId) && Given(p.customerId) && 1 <= |p.lines| <= 500 && |p.assignments| <= 100
    && (forall i :: 0 <= i < |p.lines| ==> CompleteLine(p.lines[i]))
    && (forall i, j :: 0 <= i < j < |p.lines| ==> p.lines[i].cartLineId != p.lines[j].cartLineId)
    && (forall i :: 0 <= i < |p.assignments| ==> Given(p.assignments[i].experimentId))
    && (forall i, j :: 0 <= i < j < |p.assignments| ==> p.assignments[i].experimentId != p.assignments[j].experimentId)
    && (match p.terms.mode
        case InvoiceTerms => p.terms.invoiceTerms != ""
        case _ => p.terms.consentVersion != "" && p.terms.consentText != "")
  }

  lemma GivenIff(s: string)
    ensures Identifier(s) <==> Given(s)
  {
    StableIff(s);
  }

  lemma AllGiven()
    ensures forall s: string :: Identifier(s) <==> Given(s)
  {
    forall s: string ensures Identifier(s) <==> Given(s) { GivenIff(s); }
  }

  lemma LinesApart(lines: seq<Line>)
    ensures AllDistinct(lines, LineKey()) <==> forall i, j :: 0 <= i < j < |lines| ==> lines[i].cartLineId != lines[j].cartLineId
  {
    forall i, j | 0 <= i < j < |lines|
      ensures LineKey()(lines[i]) != LineKey()(lines[j]) <==> lines[i].cartLineId != lines[j].cartLineId
    {
    }
  }

  lemma AssignmentsApart(items: seq<Assignment>)
    ensures AllDistinct(items, ExperimentKey()) <==>
            forall i, j :: 0 <= i < j < |items| ==> items[i].experimentId != items[j].experimentId
  {
    forall i, j | 0 <= i < j < |items|
      ensures ExperimentKey()(items[i]) != ExperimentKey()(items[j]) <==> items[i].experimentId != items[j].experimentId
    {
    }
  }

  lemma CompleteIff(p: Promise)
    ensures Schema(p) <==> Complete(p)
  {
    AllGiven();
    LinesApart(p.lines);
    AssignmentsApart(p.assignments);
  }

  /*** Owners and evidence ***/

  /** The cart exists and is this customer's. */
  predicate Owns(st: State, p: Promise) {
    p.cartId in st.carts && st.carts[p.cartId].customerId == p.customerId
  }

  ghost predicate AlreadyAnOrder(st: State, cartId: string) {
    (cartId in st.carts && st.carts[cartId].completed) || exists o :: o in st.links && st.links[o] == cartId
  }

  /** The stored promise still hashes to what was stored with it. */
  predicate Verifies(rank: Rank, promise: Promise, hash: Promise) {
    Hash(rank, promise) == Some(hash)
  }

  lemma OwnsIff(st: State, p: Promise)
    requires Schema(p)
    ensures OwnedCart(st, p.cartId, p.customerId).None? <==> Owns(st, p)
  {
  }

  /** Verified evidence with a promise's hash is evidence of that promise, up to the order of its lists. */
  lemma SameHash(rank: Rank, p: Promise, promise: Promise, hash: Promise)
    requires Faithful(rank) && Schema(p)
    ensures Some(hash) == Hash(rank, p) && Verifies(rank, promise, hash) <==> SamePromise(p, promise) && Verifies(rank, promise, hash)
  {
    HashIgnoresOrder(rank, p, promise);
  }

  /*** Reviews ***/

  predicate IsReview(r: Review, cartId: string, requestId: string) {
    r.cartId == cartId && r.requestId == requestId
  }

  /** The cart has no review for the request. */
  ghost predicate NoReview(st: State, cartId: string, requestId: string) {
    forall i :: 0 <= i < |st.reviews| ==> !IsReview(st.reviews[i], cartId, requestId)
  }

  /** The cart's last review for the request. */
  ghost predicate LastReview(st: State, cartId: string, requestId: string, k: nat) {
    && k < |st.reviews| && IsReview(st.reviews[k], cartId, requestId)
    && forall j :: k < j < |st.reviews| ==> !IsReview(st.reviews[j], cartId, requestId)
  }

  lemma {:induction false} FindsLast<T>(items: seq<T>, test: T -> bool, k: nat)
    ensures FindLast(items, test) == Some(k) <==>
            k < |items| && test(items[k]) && forall j :: k < j < |items| ==> !test(items[j])
  {
    if items != [] && !test(items[|items| - 1]) {
      FindsLast(items[..|items| - 1], test, k);
    }
  }

  lemma FindsReview(st: State, cartId: string, requestId: string)
    ensures FindReview(st.reviews, cartId, requestId).None? <==> NoReview(st, cartId, requestId)
    ensures forall k: nat :: FindReview(st.reviews, cartId, requestId) == Some(k) <==> LastReview(st, cartId, requestId, k)
  {
    var test := (row: Review) => row.cartId == cartId && row.requestId == requestId;
    forall k: nat ensures FindReview(st.reviews, cartId, requestId) == Some(k) <==> LastReview(st, cartId, requestId, k) {
      FindsLast(st.reviews, test, k);
    }
  }

  /** A request that may be reviewed: complete, expiring within a quarter of an hour, and for a cart of the customer's. */
  ghost predicate MayReview(st: State, p: Promise, requestId: string, expiresAt: int, now: int) {
    Complete(p) && now < expiresAt <= now + 900_000 && Given(requestId) && Owns(st, p)
  }

  /** A review of this promise that still verifies. */
  ghost predicate Repeats(rank: Rank, st: State, p: Promise, requestId: string, k: nat) {
    && LastReview(st, p.cartId, requestId, k) && SamePromise(p, st.reviews[k].promise)
    && Verifies(rank, st.reviews[k].promise, st.reviews[k].hash)
  }

  /** A review is created exactly for a request that may be reviewed and has none, on a cart that is no order yet; and an
      earlier one is found exactly when it is of the same promise and still verifies. */
  lemma CreateIff(rank: Rank, st: State, p: Promise, requestId: string, expiresAt: int, now: int, k: nat)
    requires Faithful(rank)
    ensures var r := CreateOutcome(rank, st, p, requestId, expiresAt, now);
            && (r == Ok(None) <==> MayReview(st, p, requestId, expiresAt, now) && NoReview(st, p.cartId, requestId)
                                   && !AlreadyAnOrder(st, p.cartId))
            && (r == Ok(Some(k)) <==> MayReview(st, p, requestId, expiresAt, now) && Repeats(rank, st, p, requestId, k))
  {
    CompleteIff(p);
    GivenIff(requestId);
    FindsReview(st, p.cartId, requestId);
    if Schema(p) {
      OwnsIff(st, p);
      if k < |st.reviews| {
        SameHash(rank, p, st.reviews[k].promise, st.reviews[k].hash);
      }
    }
  }

  /** The review stored is of this promise, for the cart, the customer and the times given, and verifies. */
  ghost predicate RightReview(rank: Rank, r: Review, p: Promise, requestId: string, expiresAt: int, now: int) {
    && r.cartId == p.cartId && r.customerId == p.customerId && r.requestId == requestId && r.createdAt == now
    && r.expiresAt == expiresAt && SamePromise(p, r.promise) && Verifies(rank, r.promise, r.hash)
  }

  /** A created review is the one row added, and nothing else changes; nothing at all changes otherwise. */
  lemma CreateAdds(rank: Rank, st: State, p: Promise, requestId: string, expiresAt: int, now: int)
    requires Faithful(rank)
    ensures var later := AfterCreate(rank, st, p, requestId, expiresAt, now);
            if CreateOutcome(rank, st, p, requestId, expiresAt, now) == Ok(None) then
              && |later.reviews| == |st.reviews| + 1 && later == st.(reviews := st.reviews + [later.reviews[|st.reviews|]])
              && RightReview(rank, later.reviews[|st.reviews|], p, requestId, expiresAt, now)
            else later == st
  {
    if CreateOutcome(rank, st, p, requestId, expiresAt, now) == Ok(None) {
      StoredHash(rank, p);
      NormalIsSame(rank, p);
    }
  }

  /*** Acceptances ***/

  predicate IsSnapshot(s: Snapshot, cartId: string, requestId: string) {
    s.cartId == cartId && s.requestId == requestId
  }

  ghost predicate NoSnapshot(st: State, cartId: string, requestId: string) {
    forall i :: 0 <= i < |st.snapshots| ==> !IsSnapshot(st.snapshots[i], cartId, requestId)
  }

  ghost predicate LastSnapshot(st: State, cartId: string, requestId: string, k: nat) {
    && k < |st.snapshots| && IsSnapshot(st.snapshots[k], cartId, requestId)
    && forall j :: k < j < |st.snapshots| ==> !IsSnapshot(st.snapshots[j], cartId, requestId)
  }

  lemma FindsSnapshot(st: State, cartId: string, requestId: string)
    ensures FindSnapshot(st.snapshots, cartId, requestId).None? <==> NoSnapshot(st, cartId, requestId)
    ensures forall k: nat :: FindSnapshot(st.snapshots, cartId, requestId) == Some(k) <==> LastSnapshot(st, cartId, requestId, k)
  {
    var test := (row: Snapshot) => row.cartId == cartId && row.requestId == requestId;
    forall k: nat ensures FindSnapshot(st.snapshots, cartId, requestId) == Some(k) <==> LastSnapshot(st, cartId, requestId, k) {
      FindsLast(st.snapshots, test, k);
    }
  }

  ghost predicate MayAccept(st: State, p: Promise, requestId: string) {
    Complete(p) && Given(requestId) && Owns(st, p)
  }

  /** The review is of this very promise, cart and customer, is in force, still verifies, and was never accepted. */
  ghost predicate Acceptable(rank: Rank, st: State, p: Promise, reviewId: nat, now: int) {
    && reviewId < |st.reviews|
    && var r := st.reviews[reviewId];
       && r.cartId == p.cartId && r.customerId == p.customerId && r.createdAt <= now < r.expiresAt
       && SamePromise(p, r.promise) && Verifies(rank, r.promise, r.hash)
       && forall i :: 0 <= i < |st.snapshots| ==> st.snapshots[i].reviewId != reviewId
  }

  /** An acceptance of this promise by the same review, to which the cart still points, and which verifies. */
  ghost predicate StillAccepted(rank: Rank, st: State, p: Promise, reviewId: nat, requestId: string, k: nat)
    requires p.cartId in st.carts
  {
    && LastSnapshot(st, p.cartId, requestId, k) && st.snapshots[k].reviewId == reviewId
    && st.carts[p.cartId].pointer == Some(k) && SamePromise(p, st.snapshots[k].promise)
    && Verifies(rank, st.snapshots[k].promise, st.snapshots[k].hash)
  }

  lemma AcceptNewIff(rank: Rank, st: State, p: Promise, reviewId: nat, requestId: string, now: int)
    requires Faithful(rank)
    ensures AcceptOutcome(rank, st, p, reviewId, requestId, now) == Ok(None) <==>
            MayAccept(st, p, requestId) && NoSnapshot(st, p.cartId, requestId)
            && !AlreadyAnOrder(st, p.cartId) && Acceptable(rank, st, p, reviewId, now)
  {
    CompleteIff(p);
    GivenIff(requestId);
    FindsSnapshot(st, p.cartId, requestId);
    if Schema(p) {
      OwnsIff(st, p);
      if reviewId < |st.reviews| {
        SameHash(rank, p, st.reviews[reviewId].promise, st.reviews[reviewId].hash);
      }
    }
  }

  lemma AcceptAgainIff(rank: Rank, st: State, p: Promise, reviewId: nat, requestId: string, now: int, k: nat)
    requires Faithful(rank)
    ensures AcceptOutcome(rank, st, p, reviewId, requestId, now) == Ok(Some(k)) <==>
            MayAccept(st, p, requestId) && StillAccepted(rank, st, p, reviewId, requestId, k)
  {
    CompleteIff(p);
    GivenIff(requestId);
    FindsSnapshot(st, p.cartId, requestId);
    if Schema(p) {
      OwnsIff(st, p);
      if k < |st.snapshots| {
        SameHash(rank, p, st.snapshots[k].promise, st.snapshots[k].hash);
      }
    }
  }

  /** A promise is accepted anew exactly on a cart that is no order yet, for a request not yet used, by an acceptable
      review; and an earlier acceptance is found exactly while it still stands. */
  lemma AcceptIff(rank: Rank, st: State, p: Promise, reviewId: nat, requestId: string, now: int, k: nat)
    requires Faithful(rank)
    ensures var r := AcceptOutcome(rank, st, p, reviewId, requestId, now);
            && (r == Ok(None) <==> MayAccept(st, p, requestId) && NoSnapshot(st, p.cartId, requestId)
                                   && !AlreadyAnOrder(st, p.cartId) && Acceptable(rank, st, p, reviewId, now))
            && (r == Ok(Some(k)) <==> MayAccept(st, p, requestId) && StillAccepted(rank, st, p, reviewId, requestId, k))
  {
    AcceptNewIff(rank, st, p, reviewId, requestId, now);
    AcceptAgainIff(rank, st, p, reviewId, requestId, now, k);
  }

  /** What a refusal says is so. */
  ghost predicate RefusedFor(st: State, p: Promise, requestId: string, error: Error) {
    match error
    case Incomplete => !Complete(p)
    case InvalidIdentifier => !Given(requestId)
    case CartUnavailable => !Owns(st, p)
    case AlreadyPlaced => AlreadyAnOrder(st, p.cartId)
    case IdempotencyConflict => !NoReview(st, p.cartId, requestId)
    case AcceptanceConflict => !NoSnapshot(st, p.cartId, requestId)
    case Superseded => !NoSnapshot(st, p.cartId, requestId)
    case _ => true
  }

  lemma CreateRefusedFor(rank: Rank, st: State, p: Promise, requestId: string, expiresAt: int, now: int, error: Error)
    requires CreateOutcome(rank, st, p, requestId, expiresAt, now) == Err(error)
    ensures RefusedFor(st, p, requestId, error) && (error == InvalidExpiry ==> expiresAt <= now || now + 900_000 < expiresAt)
  {
    if error == Incomplete {
      CompleteIff(p);
    } else if error == InvalidIdentifier {
      GivenIff(requestId);
    } else if error == IdempotencyConflict {
      FindsReview(st, p.cartId, requestId);
    }
  }

  lemma AcceptRefusedFor(rank: Rank, st: State, p: Promise, reviewId: nat, requestId: string, now: int, error: Error)
    requires AcceptOutcome(rank, st, p, reviewId, requestId, now) == Err(error)
    ensures RefusedFor(st, p, requestId, error)
  {
    if error == Incomplete {
      CompleteIff(p);
    } else if error == InvalidIdentifier {
      GivenIff(requestId);
    } else if error == AcceptanceConflict || error == Superseded {
      FindsSnapshot(st, p.cartId, requestId);
    }
  }

  /** One more than the highest revision of the cart, or the first. */
  ghost predicate NextRevision(snapshots: seq<Snapshot>, cartId: string, revision: nat) {
    && (forall i :: 0 <= i < |snapshots| && snapshots[i].cartId == cartId ==> snapshots[i].revision < revision)
    && (revision == 1 || exists i :: 0 <= i < |snapshots| && snapshots[i].cartId == cartId && snapshots[i].revision + 1 == revision)
  }

  lemma {:induction false} LatestIsHighest(snapshots: seq<Snapshot>, cartId: string)
    ensures forall i :: 0 <= i < |snapshots| && snapshots[i].cartId == cartId ==> snapshots[i].revision <= Latest(snapshots, cartId)
    ensures Latest(snapshots, cartId) == 0
            || exists i :: 0 <= i < |snapshots| && snapshots[i].cartId == cartId && snapshots[i].revision == Latest(snapshots, cartId)
  {
    if snapshots != [] {
      var n := |snapshots| - 1;
      LatestIsHighest(snapshots[..n], cartId);
      assert forall i :: 0 <= i < n ==> snapshots[..n][i] == snapshots[i];
      assert snapshots[n].cartId == cartId ==> snapshots[n].revision <= Latest(snapshots, cartId);
    }
  }

  /** The snapshot stored is the reviewed promise, under the cart's next revision, and verifies. */
  ghost predicate RightSnapshot(rank: Rank, st: State, s: Snapshot, p: Promise, reviewId: nat, requestId: string, now: int)
    requires reviewId < |st.reviews|
  {
    && s.cartId == p.cartId && s.customerId == p.customerId && s.reviewId == reviewId && s.requestId == requestId
    && s.acceptedAt == now && s.promise == st.reviews[reviewId].promise && Verifies(rank, s.promise, s.hash)
    && NextRevision(st.snapshots, p.cartId, s.revision)
  }

  /** A new acceptance adds one snapshot and points the cart to it, and nothing else changes; nothing at all changes
      otherwise. */
  lemma AcceptAddsOne(rank: Rank, st: State, p: Promise, reviewId: nat, requestId: string, now: int)
    requires Faithful(rank)
    ensures var later := AfterAccept(rank, st, p, reviewId, requestId, now);
            if AcceptOutcome(rank, st, p, reviewId, requestId, now) == Ok(None) then
              && |later.snapshots| == |st.snapshots| + 1 && p.cartId in st.carts && reviewId < |st.reviews|
              && later == st.(snapshots := st.snapshots + [later.snapshots[|st.snapshots|]],
                              carts := st.carts[p.cartId := st.carts[p.cartId].(pointer := Some(|st.snapshots|))])
              && RightSnapshot(rank, st, later.snapshots[|st.snapshots|], p, reviewId, requestId, now)
            else later == st
  {
    if AcceptOutcome(rank, st, p, reviewId, requestId, now) == Ok(None) {
      LatestIsHighest(st.snapshots, p.cartId);
      assert Hash(rank, p) == Some(Normal(rank, p));
    }
  }

  /*** Bindings ***/

  /** The completion's order is the cart's: both are the same customer's, linked, and point to one of their snapshots. */
  ghost predicate Confirmed(rank: Rank, st: State, cartId: string, completion: Option<Completion>, k: nat) {
    && Given(cartId) && completion.Some? && Given(completion.value.orderId) && Given(completion.value.runId)
    && var o := completion.value.orderId;
       && o in st.orders && cartId in st.carts && st.carts[cartId].completed
       && st.carts[cartId].customerId == st.orders[o].customerId && o in st.links && st.links[o] == cartId
       && st.orders[o].pointer == Some(k) && st.carts[cartId].pointer == Some(k) && k < |st.snapshots|
       && st.snapshots[k].cartId == cartId && st.snapshots[k].customerId == st.orders[o].customerId
       && Verifies(rank, st.snapshots[k].promise, st.snapshots[k].hash)
  }

  /** A binding is made exactly for a confirmed order that has none and has a time; and an earlier one stands exactly
      when it binds the same cart and snapshot. */
  lemma BindIff(rank: Rank, st: State, cartId: string, completion: Option<Completion>, b: Binding)
    ensures var r := BindOutcome(rank, st, cartId, completion);
            && (r == Ok(Some(b)) <==>
                  && Confirmed(rank, st, cartId, completion, b.snapshotId) && completion.value.orderId !in st.bindings
                  && b.cartId == cartId && b.runId == completion.value.runId
                  && st.orders[completion.value.orderId].createdAt == Some(b.placedAt))
            && (r == Ok(None) <==>
                  && completion.Some? && completion.value.orderId in st.bindings
                  && st.bindings[completion.value.orderId].cartId == cartId
                  && Confirmed(rank, st, cartId, completion, st.bindings[completion.value.orderId].snapshotId))
  {
    AllGiven();
  }

  /** A binding made is the one row added; nothing else changes. */
  lemma BindAdds(rank: Rank, st: State, cartId: string, completion: Option<Completion>)
    ensures var r, later := BindOutcome(rank, st, cartId, completion), AfterBind(rank, st, cartId, completion);
            if r.Ok? && r.value.Some? then
              completion.Some? && later == st.(bindings := st.bindings[completion.value.orderId := r.value.value])
            else later == st
  {
  }

  /** An order's original promise is read exactly when it is bound to a snapshot of its own customer and cart that still
      verifies; and it is that snapshot. */
  lemma ReadIff(rank: Rank, st: State, orderId: string, s: Snapshot)
    ensures ReadOriginal(rank, st, orderId) == Ok(s) <==>
            && Given(orderId) && orderId in st.bindings && orderId in st.orders && orderId in st.links
            && st.bindings[orderId].cartId == st.links[orderId]
            && st.bindings[orderId].snapshotId < |st.snapshots| && st.snapshots[st.bindings[orderId].snapshotId] == s
            && s.customerId == st.orders[orderId].customerId && Verifies(rank, s.promise, s.hash)
  {
    GivenIff(orderId);
  }
}
