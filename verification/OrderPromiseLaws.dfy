/** What holds of order promises over every run. */
module OrderPromiseLaws {
  import opened Base
  import opened Text
  import opened Permutations
  import opened Sorting
  import opened OrderPromise

  /*** The hash ***/

  /** Two promises that differ at most in the order of their lines and assignments. */
  ghost predicate SamePromise(p: Promise, q: Promise) {
    && multiset(p.lines) == multiset(q.lines) && multiset(p.assignments) == multiset(q.assignments)
    && p.(lines := [], assignments := []) == q.(lines := [], assignments := [])
  }

  lemma Compares(rank: Rank)
    ensures TotalPreorder(ByLineId(rank)) && TotalPreorder(ByExperiment(rank))
  {
  }

  /** Keys tell items apart, so sorting by them is canonical. */
  lemma LinesTellApart(rank: Rank, lines: seq<Line>)
    requires Faithful(rank) && AllDistinct(lines, LineKey())
    ensures forall x, y :: x in lines && y in lines && ByLineId(rank)(x, y) && ByLineId(rank)(y, x) ==> x == y
  {
    forall x, y | x in lines && y in lines && ByLineId(rank)(x, y) && ByLineId(rank)(y, x) ensures x == y {
      var i :| 0 <= i < |lines| && lines[i] == x;
      var j :| 0 <= j < |lines| && lines[j] == y;
      assert x.cartLineId == y.cartLineId;
      assert LineKey()(lines[i]) == LineKey()(lines[j]);
    }
  }

  lemma AssignmentsTellApart(rank: Rank, items: seq<Assignment>)
    requires Faithful(rank) && AllDistinct(items, ExperimentKey())
    ensures forall x, y :: x in items && y in items && ByExperiment(rank)(x, y) && ByExperiment(rank)(y, x) ==> x == y
  {
    forall x, y | x in items && y in items && ByExperiment(rank)(x, y) && ByExperiment(rank)(y, x) ensures x == y {
      var i :| 0 <= i < |items| && items[i] == x;
      var j :| 0 <= j < |items| && items[j] == y;
      assert x.experimentId == y.experimentId;
      assert ExperimentKey()(items[i]) == ExperimentKey()(items[j]);
    }
  }

  lemma NormalIsSame(rank: Rank, p: Promise)
    ensures SamePromise(p, Normal(rank, p))
  {
    Compares(rank);
    SortedLaw(p.lines, ByLineId(rank));
    SortedLaw(p.assignments, ByExperiment(rank));
  }

  lemma SameNormal(rank: Rank, p: Promise, q: Promise)
    requires Faithful(rank) && SamePromise(p, q)
    requires AllDistinct(p.lines, LineKey()) && AllDistinct(p.assignments, ExperimentKey())
    ensures Normal(rank, p) == Normal(rank, q)
  {
    Compares(rank);
    LinesTellApart(rank, p.lines);
    SortedCanonical(p.lines, q.lines, ByLineId(rank));
    AssignmentsTellApart(rank, p.assignments);
    SortedCanonical(p.assignments, q.assignments, ByExperiment(rank));
  }

  lemma SameSchema(p: Promise, q: Promise)
    requires SamePromise(p, q) && Schema(p)
    ensures Schema(q)
  {
    DistinctPermutes(p.lines, q.lines, LineKey());
    DistinctPermutes(p.assignments, q.assignments, ExperimentKey());
    SameMembers(p.lines, q.lines);
    assert |multiset(p.lines)| == |multiset(q.lines)| && |multiset(p.assignments)| == |multiset(q.assignments)|;
    SameMembers(p.assignments, q.assignments);
    var bare := p.(lines := [], assignments := []);
    assert p.terms == bare.terms && p.cartId == bare.cartId && p.customerId == bare.customerId;
    forall i | 0 <= i < |q.lines| ensures Identifier(q.lines[i].cartLineId) {
      assert q.lines[i] in p.lines;
    }
    forall i | 0 <= i < |q.assignments| ensures Identifier(q.assignments[i].experimentId) {
      assert q.assignments[i] in p.assignments;
    }
    forall i | 0 <= i < |q.lines| && q.lines[i].perLb ensures q.lines[i].ratePerLb.Some? && q.lines[i].weightLb.Some? {
      assert q.lines[i] in p.lines;
    }
  }

  /** The hash ignores the order of lines and assignments, and nothing else: two complete promises hash alike exactly
      when they agree apart from those orders. */
  lemma HashIgnoresOrder(rank: Rank, p: Promise, q: Promise)
    requires Faithful(rank) && Schema(p)
    ensures Hash(rank, p) == Hash(rank, q) <==> SamePromise(p, q)
  {
    NormalIsSame(rank, p);
    NormalIsSame(rank, q);
    if SamePromise(p, q) {
      SameSchema(p, q);
      SameNormal(rank, p, q);
    }
  }

  /** A stored promise is in normal form, and keeps hashing to itself. */
  lemma StoredHash(rank: Rank, p: Promise)
    requires Faithful(rank) && Schema(p)
    ensures Hash(rank, Normal(rank, p)) == Some(Normal(rank, p))
  {
    NormalIsSame(rank, p);
    SameSchema(p, Normal(rank, p));
    SameNormal(rank, p, Normal(rank, p));
  }

  /*** Revisions ***/

  function CountOf(snapshots: seq<Snapshot>, cartId: string): nat {
    if snapshots == [] then 0
    else CountOf(snapshots[..|snapshots| - 1], cartId) + (if snapshots[|snapshots| - 1].cartId == cartId then 1 else 0)
  }

  function LastOf(snapshots: seq<Snapshot>, cartId: string): (r: Option<nat>)
    ensures r.Some? ==> r.value < |snapshots|
  {
    if snapshots == [] then None
    else if snapshots[|snapshots| - 1].cartId == cartId then Some(|snapshots| - 1)
    else LastOf(snapshots[..|snapshots| - 1], cartId)
  }

  /** Each snapshot's revision is one more than its cart had before it. */
  ghost predicate RevisionsOk(snapshots: seq<Snapshot>) {
    forall i :: 0 <= i < |snapshots| ==> snapshots[i].revision == CountOf(snapshots[..i], snapshots[i].cartId) + 1
  }

  lemma RevisionsPrefix(snapshots: seq<Snapshot>, n: nat)
    requires RevisionsOk(snapshots) && n <= |snapshots|
    ensures RevisionsOk(snapshots[..n])
  {
    forall i | 0 <= i < n ensures snapshots[..n][i].revision == CountOf(snapshots[..n][..i], snapshots[..n][i].cartId) + 1 {
      assert snapshots[..n][..i] == snapshots[..i];
    }
  }

  lemma {:induction false} LatestIsCount(snapshots: seq<Snapshot>, cartId: string)
    requires RevisionsOk(snapshots)
    ensures Latest(snapshots, cartId) == CountOf(snapshots, cartId)
  {
    if snapshots != [] {
      var n := |snapshots| - 1;
      RevisionsPrefix(snapshots, n);
      LatestIsCount(snapshots[..n], cartId);
      assert snapshots[n].cartId == cartId ==> snapshots[n].revision == CountOf(snapshots[..n], cartId) + 1;
    }
  }

  lemma RevisionsGrow(snapshots: seq<Snapshot>, s: Snapshot)
    requires RevisionsOk(snapshots) && s.revision == Latest(snapshots, s.cartId) + 1
    ensures RevisionsOk(snapshots + [s])
  {
    LatestIsCount(snapshots, s.cartId);
    var longer := snapshots + [s];
    forall i | 0 <= i < |longer| ensures longer[i].revision == CountOf(longer[..i], longer[i].cartId) + 1 {
      assert longer[..i] == snapshots[..i];
      assert i == |snapshots| ==> snapshots[..i] == snapshots;
    }
  }

  lemma {:induction false} CountGrows(snapshots: seq<Snapshot>, n: nat, cartId: string)
    requires n <= |snapshots|
    ensures CountOf(snapshots[..n], cartId) <= CountOf(snapshots, cartId)
    ensures n < |snapshots| && snapshots[n].cartId == cartId ==> CountOf(snapshots[..n], cartId) < CountOf(snapshots, cartId)
  {
    var last := |snapshots| - 1;
    if n == |snapshots| {
      assert snapshots[..n] == snapshots;
    } else if n < last {
      CountGrows(snapshots[..last], n, cartId);
      assert snapshots[..last][..n] == snapshots[..n] && snapshots[..last][n] == snapshots[n];
    }
  }

  /** Revisions of a cart rise in the order they were accepted. */
  lemma RevisionsRise(snapshots: seq<Snapshot>, i: nat, j: nat)
    requires RevisionsOk(snapshots) && i < |snapshots| && j < |snapshots| && snapshots[i].cartId == snapshots[j].cartId
    ensures 1 <= snapshots[i].revision <= CountOf(snapshots, snapshots[i].cartId)
    ensures i < j ==> snapshots[i].revision < snapshots[j].revision
  {
    CountGrows(snapshots, i, snapshots[i].cartId);
    if i < j {
      CountGrows(snapshots[..j], i, snapshots[i].cartId);
      assert snapshots[..j][..i] == snapshots[..i] && snapshots[..j][i] == snapshots[i];
    }
  }

  /** A cart's revisions are 1 to k, with none missing. */
  lemma {:induction false} RevisionsOneToK(snapshots: seq<Snapshot>, cartId: string, k: nat)
    requires RevisionsOk(snapshots)
    ensures 1 <= k <= CountOf(snapshots, cartId) <==>
            exists i :: 0 <= i < |snapshots| && snapshots[i].cartId == cartId && snapshots[i].revision == k
  {
    forall i | 0 <= i < |snapshots| && snapshots[i].cartId == cartId ensures 1 <= snapshots[i].revision <= CountOf(snapshots, cartId) {
      RevisionsRise(snapshots, i, i);
    }
    if snapshots != [] && 1 <= k <= CountOf(snapshots, cartId) {
      var n := |snapshots| - 1;
      RevisionsPrefix(snapshots, n);
      if !(snapshots[n].cartId == cartId && snapshots[n].revision == k) {
        RevisionsOneToK(snapshots[..n], cartId, k);
        var i :| 0 <= i < n && snapshots[..n][i].cartId == cartId && snapshots[..n][i].revision == k;
        assert snapshots[i].cartId == cartId && snapshots[i].revision == k;
      }
    }
  }

  /** The last accepted has the highest. */
  lemma {:induction false} LastIsHighest(snapshots: seq<Snapshot>, cartId: string)
    requires RevisionsOk(snapshots)
    ensures var last := LastOf(snapshots, cartId);
            && (last.Some? <==> CountOf(snapshots, cartId) > 0)
            && (last.Some? ==> snapshots[last.value].cartId == cartId
                               && snapshots[last.value].revision == CountOf(snapshots, cartId))
  {
    if snapshots != [] {
      var n := |snapshots| - 1;
      RevisionsPrefix(snapshots, n);
      LastIsHighest(snapshots[..n], cartId);
      assert snapshots[n].cartId == cartId ==> snapshots[n].revision == CountOf(snapshots[..n], cartId) + 1;
    }
  }

  /*** The invariant ***/

  ghost predicate EvidenceOk(rank: Rank, st: State) {
    && (forall i :: 0 <= i < |st.reviews| ==> Hash(rank, st.reviews[i].promise) == Some(st.reviews[i].hash))
    && (forall i :: 0 <= i < |st.snapshots| ==> Hash(rank, st.snapshots[i].promise) == Some(st.snapshots[i].hash))
  }

  /** Every snapshot is of a review of its own cart and content, and no review has two. */
  ghost predicate AcceptedOnce(st: State) {
    && (forall i :: 0 <= i < |st.snapshots| ==> Reviewed(st.reviews, st.snapshots[i]))
    && (forall i, j :: 0 <= i < j < |st.snapshots| ==> st.snapshots[i].reviewId != st.snapshots[j].reviewId)
  }

  ghost predicate Reviewed(reviews: seq<Review>, s: Snapshot) {
    && s.reviewId < |reviews|
    && var r := reviews[s.reviewId];
       r.cartId == s.cartId && r.customerId == s.customerId && r.promise == s.promise && r.createdAt <= s.acceptedAt < r.expiresAt
  }

  ghost predicate PointersOk(st: State) {
    && (forall c :: c in st.carts ==> st.carts[c].pointer == LastOf(st.snapshots, c))
    && (forall i :: 0 <= i < |st.snapshots| ==> st.snapshots[i].cartId in st.carts)
  }

  ghost predicate OrdersOk(st: State) {
    && (forall o :: o in st.orders <==> o in st.links)
    && (forall o :: o in st.links ==>
          && st.links[o] in st.carts && st.carts[st.links[o]].completed
          && st.orders[o].pointer == st.carts[st.links[o]].pointer
          && st.orders[o].customerId == st.carts[st.links[o]].customerId)
  }

  ghost predicate BindingsOk(st: State) {
    forall o :: o in st.bindings ==>
      && o in st.links && st.bindings[o].cartId == st.links[o] && o in st.orders
      && st.orders[o].pointer == Some(st.bindings[o].snapshotId) && st.bindings[o].snapshotId < |st.snapshots|
      && st.snapshots[st.bindings[o].snapshotId].customerId == st.orders[o].customerId
  }

  ghost predicate Inv(rank: Rank, st: State) {
    && RevisionsOk(st.snapshots) && EvidenceOk(rank, st) && AcceptedOnce(st) && PointersOk(st) && OrdersOk(st) && BindingsOk(st)
  }

  lemma CreateKeepsTables(rank: Rank, st: State, row: Review)
    requires EvidenceOk(rank, st) && AcceptedOnce(st) && Hash(rank, row.promise) == Some(row.hash)
    ensures EvidenceOk(rank, st.(reviews := st.reviews + [row])) && AcceptedOnce(st.(reviews := st.reviews + [row]))
  {
    forall i | 0 <= i < |st.snapshots| ensures Reviewed(st.reviews + [row], st.snapshots[i]) {
      assert Reviewed(st.reviews, st.snapshots[i]);
    }
  }

  lemma CreateKeepsInv(rank: Rank, st: State, p: Promise, requestId: string, expiresAt: int, now: int)
    requires Faithful(rank) && Inv(rank, st)
    ensures Inv(rank, AfterCreate(rank, st, p, requestId, expiresAt, now))
  {
    if CreateOutcome(rank, st, p, requestId, expiresAt, now) == Ok(None) {
      StoredHash(rank, p);
      CreateKeepsTables(rank, st, ReviewRow(rank, p, requestId, expiresAt, now));
    }
  }

  lemma LastSnoc(snapshots: seq<Snapshot>, s: Snapshot, c: string)
    ensures LastOf(snapshots + [s], c) == if s.cartId == c then Some(|snapshots|) else LastOf(snapshots, c)
  {
    assert (snapshots + [s])[..|snapshots|] == snapshots;
  }

  /** A snapshot of an unused review, added to an open cart. */
  ghost predicate Adds(rank: Rank, st: State, row: Snapshot) {
    && row.cartId in st.carts && !Placed(st, row.cartId) && !ReviewUsed(st.snapshots, row.reviewId)
    && Reviewed(st.reviews, row) && row.revision == Latest(st.snapshots, row.cartId) + 1
    && Hash(rank, row.promise) == Some(row.hash)
  }

  function Added(st: State, row: Snapshot): State
    requires row.cartId in st.carts
  {
    st.(snapshots := st.snapshots + [row],
        carts := st.carts[row.cartId := st.carts[row.cartId].(pointer := Some(|st.snapshots|))])
  }

  lemma AddingKeepsTables(rank: Rank, st: State, row: Snapshot)
    requires Adds(rank, st, row) && RevisionsOk(st.snapshots) && EvidenceOk(rank, st) && AcceptedOnce(st)
    ensures RevisionsOk(Added(st, row).snapshots) && EvidenceOk(rank, Added(st, row)) && AcceptedOnce(Added(st, row))
  {
    RevisionsGrow(st.snapshots, row);
    AddingKeepsEvidence(rank, st, row);
    AddingAcceptsOnce(st, row);
  }

  lemma AddingKeepsEvidence(rank: Rank, st: State, row: Snapshot)
    requires EvidenceOk(rank, st) && row.cartId in st.carts && Hash(rank, row.promise) == Some(row.hash)
    ensures EvidenceOk(rank, Added(st, row))
  {
  }

  lemma AddingAcceptsOnce(st: State, row: Snapshot)
    requires AcceptedOnce(st) && row.cartId in st.carts && Reviewed(st.reviews, row) && !ReviewUsed(st.snapshots, row.reviewId)
    ensures AcceptedOnce(Added(st, row))
  {
  }

  lemma AddingKeepsPointers(rank: Rank, st: State, row: Snapshot)
    requires Adds(rank, st, row) && PointersOk(st)
    ensures PointersOk(Added(st, row))
  {
    forall c | c in Added(st, row).carts ensures Added(st, row).carts[c].pointer == LastOf(st.snapshots + [row], c) {
      PointerAfter(st, row, c);
    }
  }

  lemma PointerAfter(st: State, row: Snapshot, c: string)
    requires row.cartId in st.carts && c in st.carts && st.carts[c].pointer == LastOf(st.snapshots, c)
    ensures Added(st, row).carts[c].pointer == LastOf(st.snapshots + [row], c)
  {
    LastSnoc(st.snapshots, row, c);
  }

  lemma AddingKeepsOrders(rank: Rank, st: State, row: Snapshot)
    requires Adds(rank, st, row) && OrdersOk(st)
    ensures OrdersOk(Added(st, row))
  {
    forall o | o in st.links ensures st.links[o] != row.cartId {
      assert st.links[o] == row.cartId ==> Placed(st, row.cartId);
    }
  }

  lemma AddingKeepsBindings(st: State, row: Snapshot)
    requires row.cartId in st.carts && BindingsOk(st)
    ensures BindingsOk(Added(st, row))
  {
  }

  lemma AcceptKeepsInv(rank: Rank, st: State, p: Promise, reviewId: nat, requestId: string, now: int)
    requires Faithful(rank) && Inv(rank, st)
    ensures Inv(rank, AfterAccept(rank, st, p, reviewId, requestId, now))
  {
    if AcceptOutcome(rank, st, p, reviewId, requestId, now) == Ok(None) {
      var row := AcceptAdds(rank, st, p, reviewId, requestId, now);
      AddingKeepsTables(rank, st, row);
      AddingKeepsPointers(rank, st, row);
      AddingKeepsOrders(rank, st, row);
      AddingKeepsBindings(st, row);
    }
  }

  /** What accepting adds: one snapshot of an unused review of the cart, which the cart then points to. */
  lemma AcceptAdds(rank: Rank, st: State, p: Promise, reviewId: nat, requestId: string, now: int) returns (row: Snapshot)
    requires AcceptOutcome(rank, st, p, reviewId, requestId, now) == Ok(None)
    ensures row.cartId == p.cartId && row.requestId == requestId && row.reviewId == reviewId && Adds(rank, st, row)
    ensures AfterAccept(rank, st, p, reviewId, requestId, now) == Added(st, row)
  {
    assert ReviewMatches(rank, st, p, reviewId, now);
    row := SnapshotRow(st, p, reviewId, requestId, Normal(rank, p), now);
  }

  lemma PlaceKeepsOrders(st: State, cartId: string, orderId: string, createdAt: Option<int>)
    requires OrdersOk(st)
    ensures OrdersOk(AfterPlace(st, cartId, orderId, createdAt))
  {
  }

  lemma PlaceKeepsPointers(st: State, cartId: string, orderId: string, createdAt: Option<int>)
    requires PointersOk(st)
    ensures PointersOk(AfterPlace(st, cartId, orderId, createdAt))
  {
  }

  lemma PlaceKeepsBindings(st: State, cartId: string, orderId: string, createdAt: Option<int>)
    requires OrdersOk(st) && BindingsOk(st)
    ensures BindingsOk(AfterPlace(st, cartId, orderId, createdAt))
  {
  }

  lemma PlaceKeepsInv(rank: Rank, st: State, cartId: string, orderId: string, createdAt: Option<int>)
    requires Inv(rank, st)
    ensures Inv(rank, AfterPlace(st, cartId, orderId, createdAt))
  {
    PlaceKeepsPointers(st, cartId, orderId, createdAt);
    PlaceKeepsOrders(st, cartId, orderId, createdAt);
    PlaceKeepsBindings(st, cartId, orderId, createdAt);
    var later := AfterPlace(st, cartId, orderId, createdAt);
    assert later.snapshots == st.snapshots && later.reviews == st.reviews;
  }

  lemma BindKeepsBindings(rank: Rank, st: State, cartId: string, completion: Option<Completion>)
    requires BindingsOk(st)
    ensures BindingsOk(AfterBind(rank, st, cartId, completion))
  {
  }

  lemma BindKeepsInv(rank: Rank, st: State, cartId: string, completion: Option<Completion>)
    requires Inv(rank, st)
    ensures Inv(rank, AfterBind(rank, st, cartId, completion))
  {
    BindKeepsBindings(rank, st, cartId, completion);
  }

  lemma StepKeepsInv(rank: Rank, st: State, op: Op)
    requires Faithful(rank) && Inv(rank, st)
    ensures Inv(rank, Step(rank, st, op))
  {
    match op
    case CreateReview(p, requestId, expiresAt, now) => CreateKeepsInv(rank, st, p, requestId, expiresAt, now);
    case AcceptReview(p, reviewId, requestId, now) => AcceptKeepsInv(rank, st, p, reviewId, requestId, now);
    case NewCart(cart, customer) => NewCartKeepsInv(rank, st, cart, customer);
    case Place(cartId, orderId, createdAt) => PlaceKeepsInv(rank, st, cartId, orderId, createdAt);
    case Bind(cartId, completion) => BindKeepsInv(rank, st, cartId, completion);
  }

  lemma {:induction false} NoneOfCart(snapshots: seq<Snapshot>, c: string)
    requires forall i :: 0 <= i < |snapshots| ==> snapshots[i].cartId != c
    ensures LastOf(snapshots, c).None?
  {
    if snapshots != [] {
      NoneOfCart(snapshots[..|snapshots| - 1], c);
    }
  }

  lemma NewCartKeepsTables(st: State, cart: string, customer: string)
    requires PointersOk(st) && OrdersOk(st) && cart !in st.carts
    ensures var later := st.(carts := st.carts[cart := Cart(customer, false, None)]);
            PointersOk(later) && OrdersOk(later)
  {
    NoneOfCart(st.snapshots, cart);
  }

  lemma NewCartKeepsInv(rank: Rank, st: State, cart: string, customer: string)
    requires Inv(rank, st)
    ensures Inv(rank, Step(rank, st, NewCart(cart, customer)))
  {
    if cart !in st.carts {
      NewCartKeepsTables(st, cart, customer);
    }
  }

  lemma {:induction false} RunKeepsInv(rank: Rank, st: State, ops: seq<Op>)
    requires Faithful(rank) && Inv(rank, st)
    ensures Inv(rank, Run(rank, st, ops))
    decreases |ops|
  {
    if ops != [] {
      StepKeepsInv(rank, st, ops[0]);
      RunKeepsInv(rank, Step(rank, st, ops[0]), ops[1..]);
    }
  }

  /** From empty tables, over every run: a cart's revisions are 1 to k in order, its pointer names the highest, each
      review is accepted at most once, and every stored promise still verifies. */
  lemma EveryRun(rank: Rank, ops: seq<Op>, cartId: string, k: nat)
    requires Faithful(rank)
    ensures var st := Run(rank, EMPTY, ops);
            && (1 <= k <= CountOf(st.snapshots, cartId) <==>
                  exists i :: 0 <= i < |st.snapshots| && st.snapshots[i].cartId == cartId && st.snapshots[i].revision == k)
            && (cartId in st.carts && st.carts[cartId].pointer.Some? ==> PointsToHighest(st, cartId))
            && AcceptedOnce(st) && EvidenceOk(rank, st)
    ensures var snapshots := Run(rank, EMPTY, ops).snapshots;
            forall i, j :: 0 <= i < j < |snapshots| && snapshots[i].cartId == cartId && snapshots[j].cartId == cartId ==>
              snapshots[i].revision < snapshots[j].revision
  {
    RunKeepsInv(rank, EMPTY, ops);
    InvSpeaks(rank, Run(rank, EMPTY, ops), cartId, k);
  }

  lemma InvSpeaks(rank: Rank, st: State, cartId: string, k: nat)
    requires Inv(rank, st)
    ensures 1 <= k <= CountOf(st.snapshots, cartId) <==>
            exists i :: 0 <= i < |st.snapshots| && st.snapshots[i].cartId == cartId && st.snapshots[i].revision == k
    ensures cartId in st.carts && st.carts[cartId].pointer.Some? ==> PointsToHighest(st, cartId)
    ensures forall i, j :: 0 <= i < j < |st.snapshots| && st.snapshots[i].cartId == cartId && st.snapshots[j].cartId == cartId ==>
              st.snapshots[i].revision < st.snapshots[j].revision
  {
    var snapshots := st.snapshots;
    RevisionsOneToK(snapshots, cartId, k);
    LastIsHighest(snapshots, cartId);
    forall i, j | 0 <= i < j < |snapshots| && snapshots[i].cartId == cartId && snapshots[j].cartId == cartId
      ensures snapshots[i].revision < snapshots[j].revision
    {
      RevisionsRise(snapshots, i, j);
    }
  }

  ghost predicate PointsToHighest(st: State, cartId: string)
    requires cartId in st.carts && st.carts[cartId].pointer.Some?
  {
    && st.carts[cartId].pointer.value < |st.snapshots|
    && var s := st.snapshots[st.carts[cartId].pointer.value];
       s.cartId == cartId && s.revision == CountOf(st.snapshots, cartId)
  }

  /*** Nothing moves after placement ***/

  /** What a later state keeps of an earlier one: tables only grow, and a placed cart gains nothing. */
  ghost predicate Keeps(st: State, later: State) {
    && st.reviews <= later.reviews && st.snapshots <= later.snapshots
    && (forall o :: o in st.bindings ==> o in later.bindings && later.bindings[o] == st.bindings[o])
    && (forall o :: o in st.orders ==> o in later.orders && later.orders[o] == st.orders[o])
    && (forall o :: o in st.links ==> o in later.links && later.links[o] == st.links[o])
    && (forall c :: c in st.carts ==> c in later.carts && later.carts[c].customerId == st.carts[c].customerId)
    && (forall c :: Placed(st, c) && c in st.carts ==> Closed(st, later, c))
  }

  ghost predicate Closed(st: State, later: State, c: string)
    requires c in st.carts && c in later.carts
  {
    && Placed(later, c) && later.carts[c].pointer == st.carts[c].pointer
    && (forall i :: |st.reviews| <= i < |later.reviews| ==> later.reviews[i].cartId != c)
    && (forall i :: |st.snapshots| <= i < |later.snapshots| ==> later.snapshots[i].cartId != c)
  }

  lemma StillPlaced(st: State, later: State, c: string)
    requires Placed(st, c)
    requires c in st.carts ==> c in later.carts && (st.carts[c].completed ==> later.carts[c].completed)
    requires forall o :: o in st.links ==> o in later.links && later.links[o] == st.links[o]
    ensures Placed(later, c)
  {
    if o :| o in st.links && st.links[o] == c {
      assert later.links[o] == c;
    }
  }

  lemma AddingKeeps(rank: Rank, st: State, row: Snapshot)
    requires Adds(rank, st, row)
    ensures Keeps(st, Added(st, row))
  {
    forall c | Placed(st, c) && c in st.carts ensures Closed(st, Added(st, row), c) {
      StillPlaced(st, Added(st, row), c);
    }
  }

  lemma PlaceKeeps(st: State, cartId: string, orderId: string, createdAt: Option<int>)
    ensures Keeps(st, AfterPlace(st, cartId, orderId, createdAt))
  {
    var later := AfterPlace(st, cartId, orderId, createdAt);
    forall c | Placed(st, c) && c in st.carts ensures Closed(st, later, c) {
      StillPlaced(st, later, c);
    }
  }

  /** A review for a cart not yet placed, or a binding, takes nothing away. */
  lemma RowsKeep(st: State, later: State)
    requires later == st.(reviews := later.reviews, bindings := later.bindings) && st.reviews <= later.reviews
    requires forall i :: |st.reviews| <= i < |later.reviews| ==> !Placed(st, later.reviews[i].cartId)
    requires forall o :: o in st.bindings ==> o in later.bindings && later.bindings[o] == st.bindings[o]
    ensures Keeps(st, later)
  {
    forall c | Placed(st, c) && c in st.carts ensures Closed(st, later, c) {
      StillPlaced(st, later, c);
    }
  }

  lemma CreateKeeps(rank: Rank, st: State, p: Promise, requestId: string, expiresAt: int, now: int)
    ensures Keeps(st, AfterCreate(rank, st, p, requestId, expiresAt, now))
  {
    RowsKeep(st, AfterCreate(rank, st, p, requestId, expiresAt, now));
  }

  lemma NewCartKeeps(st: State, cart: string, customer: string)
    requires cart !in st.carts
    ensures Keeps(st, st.(carts := st.carts[cart := Cart(customer, false, None)]))
  {
    var later := st.(carts := st.carts[cart := Cart(customer, false, None)]);
    forall c | Placed(st, c) && c in st.carts ensures Closed(st, later, c) {
      StillPlaced(st, later, c);
    }
  }

  lemma BindKeeps(rank: Rank, st: State, cartId: string, completion: Option<Completion>)
    ensures Keeps(st, AfterBind(rank, st, cartId, completion))
  {
    RowsKeep(st, AfterBind(rank, st, cartId, completion));
  }

  lemma StepKeeps(rank: Rank, st: State, op: Op)
    ensures Keeps(st, Step(rank, st, op))
  {
    match op
    case CreateReview(p, requestId, expiresAt, now) => CreateKeeps(rank, st, p, requestId, expiresAt, now);
    case AcceptReview(p, reviewId, requestId, now) =>
      if AcceptOutcome(rank, st, p, reviewId, requestId, now) == Ok(None) {
        var row := AcceptAdds(rank, st, p, reviewId, requestId, now);
        AddingKeeps(rank, st, row);
      } else {
        KeepsItself(st);
      }
    case Place(cartId, orderId, createdAt) => PlaceKeeps(st, cartId, orderId, createdAt);
    case NewCart(cart, customer) =>
      if cart in st.carts { KeepsItself(st); } else { NewCartKeeps(st, cart, customer); }
    case Bind(cartId, completion) => BindKeeps(rank, st, cartId, completion);
  }

  lemma KeepsItself(st: State)
    ensures Keeps(st, st)
  {
  }

  lemma KeepsOn(a: State, b: State, c: State)
    requires Keeps(a, b) && Keeps(b, c)
    ensures Keeps(a, c)
  {
    forall x | Placed(a, x) && x in a.carts ensures Closed(a, c, x) {
      assert Closed(a, b, x) && Closed(b, c, x);
      forall i | |a.reviews| <= i < |c.reviews| ensures c.reviews[i].cartId != x {
        assert i < |b.reviews| ==> c.reviews[i] == b.reviews[i];
      }
      forall i | |a.snapshots| <= i < |c.snapshots| ensures c.snapshots[i].cartId != x {
        assert i < |b.snapshots| ==> c.snapshots[i] == b.snapshots[i];
      }
    }
  }

  /** Over any run tables only grow, and once a cart is placed nothing is added to it and its pointer stays. */
  lemma {:induction false} RunKeeps(rank: Rank, st: State, ops: seq<Op>)
    ensures Keeps(st, Run(rank, st, ops))
    decreases |ops|
  {
    if ops != [] {
      var next := Step(rank, st, ops[0]);
      StepKeeps(rank, st, ops[0]);
      RunKeeps(rank, next, ops[1..]);
      KeepsOn(st, next, Run(rank, next, ops[1..]));
    }
  }

  /** Once an order's original promise can be read, it reads the same after any run. */
  lemma OriginalNeverChanges(rank: Rank, st: State, ops: seq<Op>, orderId: string)
    requires ReadOriginal(rank, st, orderId).Ok?
    ensures ReadOriginal(rank, Run(rank, st, ops), orderId) == ReadOriginal(rank, st, orderId)
  {
    RunKeeps(rank, st, ops);
  }

  /** A bound order reads back, and what it reads is the highest revision its cart ever had. */
  lemma BoundReadsHighest(rank: Rank, ops: seq<Op>, orderId: string)
    requires Faithful(rank) && Identifier(orderId) && orderId in Run(rank, EMPTY, ops).bindings
    ensures var st := Run(rank, EMPTY, ops);
            var r := ReadOriginal(rank, st, orderId);
            && r.Ok? && r.value.cartId == st.bindings[orderId].cartId
            && r.value.revision == CountOf(st.snapshots, r.value.cartId)
            && Reviewed(st.reviews, r.value)
  {
    RunKeepsInv(rank, EMPTY, ops);
    var st := Run(rank, EMPTY, ops);
    LastIsHighest(st.snapshots, st.bindings[orderId].cartId);
  }

  /** The snapshot of a cart's request, once there is one, is the only one there will be. */
  lemma FoundStays(rank: Rank, st: State, op: Op, cartId: string, requestId: string)
    ensures var found := FindSnapshot(st.snapshots, cartId, requestId);
            found.Some? ==> FindSnapshot(Step(rank, st, op).snapshots, cartId, requestId) == found
  {
    if op.AcceptReview? && AcceptOutcome(rank, st, op.current, op.reviewId, op.request, op.at) == Ok(None) {
      var row := AcceptAdds(rank, st, op.current, op.reviewId, op.request, op.at);
      assert row.cartId == cartId && row.requestId == requestId ==> FindSnapshot(st.snapshots, cartId, requestId).None?;
      assert (st.snapshots + [row])[..|st.snapshots|] == st.snapshots;
    }
  }

  lemma {:induction false} RunKeepsFound(rank: Rank, st: State, ops: seq<Op>, cartId: string, requestId: string)
    requires FindSnapshot(st.snapshots, cartId, requestId).Some?
    ensures FindSnapshot(Run(rank, st, ops).snapshots, cartId, requestId) == FindSnapshot(st.snapshots, cartId, requestId)
    decreases |ops|
  {
    if ops != [] {
      FoundStays(rank, st, ops[0], cartId, requestId);
      RunKeepsFound(rank, Step(rank, st, ops[0]), ops[1..], cartId, requestId);
    }
  }

  /** Where an acceptance stands in a state: it was made as snapshot `k`, with this promise's hash. */
  ghost predicate Made(rank: Rank, st: State, p: Promise, reviewId: nat, requestId: string, k: nat) {
    && FindSnapshot(st.snapshots, p.cartId, requestId) == Some(k)
    && k < |st.snapshots| && st.snapshots[k].reviewId == reviewId && Some(st.snapshots[k].hash) == Hash(rank, p)
    && OwnedCart(st, p.cartId, p.customerId).None?
  }

  lemma AcceptMakes(rank: Rank, st: State, p: Promise, reviewId: nat, requestId: string, now: int)
    requires AcceptOutcome(rank, st, p, reviewId, requestId, now) == Ok(None)
    ensures Made(rank, AfterAccept(rank, st, p, reviewId, requestId, now), p, reviewId, requestId, |st.snapshots|)
    ensures Schema(p) && Identifier(requestId)
  {
  }

  lemma StaysMade(rank: Rank, st: State, ops: seq<Op>, p: Promise, reviewId: nat, requestId: string, k: nat)
    requires Made(rank, st, p, reviewId, requestId, k)
    ensures Made(rank, Run(rank, st, ops), p, reviewId, requestId, k)
  {
    RunKeeps(rank, st, ops);
    RunKeepsFound(rank, st, ops, p.cartId, requestId);
  }

  /** A retried acceptance, however late it comes and whatever happened in between, adds nothing; and it returns the
      snapshot that the first one made exactly when the cart still points to it, and is superseded otherwise. */
  lemma RetryFindsTheSame(rank: Rank, st: State, p: Promise, reviewId: nat, requestId: string, now: int, ops: seq<Op>, later: int)
    requires Faithful(rank) && Inv(rank, st) && AcceptOutcome(rank, st, p, reviewId, requestId, now) == Ok(None)
    ensures var k, st' := |st.snapshots|, Run(rank, AfterAccept(rank, st, p, reviewId, requestId, now), ops);
            && p.cartId in st'.carts
            && AcceptOutcome(rank, st', p, reviewId, requestId, later)
               == (if st'.carts[p.cartId].pointer == Some(k) then Ok(Some(k)) else Err(Superseded))
            && AfterAccept(rank, st', p, reviewId, requestId, later) == st'
  {
    FirstAcceptance(rank, st, p, reviewId, requestId, now);
    RetryOf(rank, AfterAccept(rank, st, p, reviewId, requestId, now), p, reviewId, requestId, |st.snapshots|, ops, later);
  }

  lemma FirstAcceptance(rank: Rank, st: State, p: Promise, reviewId: nat, requestId: string, now: int)
    requires Faithful(rank) && Inv(rank, st) && AcceptOutcome(rank, st, p, reviewId, requestId, now) == Ok(None)
    ensures Holds(rank, AfterAccept(rank, st, p, reviewId, requestId, now), p, reviewId, requestId, |st.snapshots|)
  {
    AcceptKeepsInv(rank, st, p, reviewId, requestId, now);
    AcceptMakes(rank, st, p, reviewId, requestId, now);
  }

  ghost predicate Holds(rank: Rank, st: State, p: Promise, reviewId: nat, requestId: string, k: nat) {
    Inv(rank, st) && Made(rank, st, p, reviewId, requestId, k) && Schema(p) && Identifier(requestId)
  }

  lemma RetryOf(rank: Rank, st: State, p: Promise, reviewId: nat, requestId: string, k: nat, ops: seq<Op>, later: int)
    requires Faithful(rank) && Holds(rank, st, p, reviewId, requestId, k)
    ensures var st' := Run(rank, st, ops);
            && p.cartId in st'.carts
            && AcceptOutcome(rank, st', p, reviewId, requestId, later)
               == (if st'.carts[p.cartId].pointer == Some(k) then Ok(Some(k)) else Err(Superseded))
            && AfterAccept(rank, st', p, reviewId, requestId, later) == st'
  {
    RunKeepsInv(rank, st, ops);
    StaysMade(rank, st, ops, p, reviewId, requestId, k);
    MadeOutcome(rank, Run(rank, st, ops), p, reviewId, requestId, k, later);
  }

  lemma MadeOutcome(rank: Rank, st: State, p: Promise, reviewId: nat, requestId: string, k: nat, now: int)
    requires Made(rank, st, p, reviewId, requestId, k) && EvidenceOk(rank, st) && Schema(p) && Identifier(requestId)
    ensures p.cartId in st.carts
    ensures AcceptOutcome(rank, st, p, reviewId, requestId, now)
            == (if st.carts[p.cartId].pointer == Some(k) then Ok(Some(k)) else Err(Superseded))
    ensures AfterAccept(rank, st, p, reviewId, requestId, now) == st
  {
  }
}
