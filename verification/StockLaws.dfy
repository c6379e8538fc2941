/** What the incoming stock ledger keeps: promises are covered or flagged, quantities balance, commands
    apply once. */
module StockLaws {
  import opened Base
  import opened Text
  import opened Permutations
  import opened Sorting
  import opened Stock

  /*** Sums over commitments ***/

  lemma {:induction false} OpenAppend(a: seq<Commitment>, b: seq<Commitment>, batch: nat)
    ensures Open(a + b, batch) == Open(a, batch) + Open(b, batch)
  {
    if a == [] {
      assert a + b == b;
    } else {
      assert (a + b)[1..] == a[1..] + b;
      OpenAppend(a[1..], b, batch);
    }
  }

  lemma {:induction false} OpenForAppend(a: seq<Commitment>, b: seq<Commitment>, demand: string)
    ensures OpenFor(a + b, demand) == OpenFor(a, demand) + OpenFor(b, demand)
  {
    if a == [] {
      assert a + b == b;
    } else {
      assert (a + b)[1..] == a[1..] + b;
      OpenForAppend(a[1..], b, demand);
    }
  }

  lemma {:induction false} RowReplaced(cs: seq<Commitment>, i: nat, c: Commitment, batch: nat, demand: string)
    requires i < |cs| && c.batch == cs[i].batch && c.demand == cs[i].demand
    ensures Open(cs[i := c], batch) == Open(cs, batch) + (if c.batch == batch then c.remaining - cs[i].remaining else 0)
    ensures OpenFor(cs[i := c], demand) ==
            OpenFor(cs, demand) + (if c.demand == demand then c.remaining - cs[i].remaining else 0)
  {
    var ds := cs[i := c];
    assert cs == cs[..i] + ([cs[i]] + cs[i + 1..]) && ds == cs[..i] + ([c] + cs[i + 1..]);
    OpenAppend(cs[..i], [cs[i]] + cs[i + 1..], batch);
    OpenAppend(cs[..i], [c] + cs[i + 1..], batch);
    OpenForAppend(cs[..i], [cs[i]] + cs[i + 1..], demand);
    OpenForAppend(cs[..i], [c] + cs[i + 1..], demand);
  }

  /*** Invariant ***/

  predicate References(t: Tables) {
    forall i | 0 <= i < |t.commitments| ::
      t.commitments[i].batch < |t.batches| && t.commitments[i].demand in t.demands
  }

  predicate Balanced(t: Tables) {
    forall d <- t.demands ::
      && t.demands[d].remaining == OpenFor(t.commitments, d)
      && (t.demands[d].status == Released <==> t.demands[d].remaining == 0)
  }

  /** The batch holds enough, early enough, for everything committed from it. */
  predicate CoveredBy(b: Batch, total: nat, neededBy: int) {
    b.status in {Confirmed, ReceiptPending} && b.usableAt <= neededBy && total <= b.confirmed
  }

  predicate CoveredRow(t: Tables, i: nat)
    requires References(t) && i < |t.commitments|
  {
    var c := t.commitments[i];
    c.remaining > 0 && t.demands[c.demand].exception == None ==>
      CoveredBy(t.batches[c.batch], Open(t.commitments, c.batch), t.demands[c.demand].neededBy)
  }

  /** An open promise that carries no exception is covered by its batch. */
  predicate Covered(t: Tables)
    requires References(t)
  {
    forall i: nat | i < |t.commitments| :: CoveredRow(t, i)
  }

  predicate OneIdentity(t: Tables) {
    forall i, j | 0 <= i < |t.batches| && 0 <= j < |t.batches|
      && t.batches[i].identity.variant == t.batches[j].identity.variant ::
      t.batches[i].identity == t.batches[j].identity
  }

  predicate TablesOk(t: Tables) {
    References(t) && Balanced(t) && Covered(t) && OneIdentity(t)
  }

  predicate LogOk(s: State) {
    forall id <- s.log ::
      var r := s.log[id].0;
      && r.id == id && ValidCommand(r.command) && TargetExists(s.tables, r.command)
      && ValidText(r.id, 200) && ValidText(r.actor, 200) && ValidText(r.reason, 1000)
  }

  predicate Inv(s: State) {
    TablesOk(s.tables) && LogOk(s)
  }

  /** Rows are never removed and an exception is never cleared. */
  predicate Extends(t: Tables, u: Tables) {
    && |t.batches| <= |u.batches|
    && (forall i | 0 <= i < |t.batches| :: u.batches[i].identity == t.batches[i].identity)
    && (forall d <- t.demands :: d in u.demands && (t.demands[d].exception.Some? ==> u.demands[d].exception.Some?))
  }

  /*** Changing a batch ***/

  /** Flagging adds no demand, and changes nothing of a demand but its exception, which it never clears. */
  lemma {:induction false} FlagFrame(t: Tables, batch: nat, n: nat, d: string)
    requires batch < |t.batches| && n <= |t.commitments|
    ensures var demands := Flag(t, batch, n).0;
            && (d in demands <==> d in t.demands)
            && (d in t.demands ==>
                  && (demands[d] == t.demands[d] || demands[d].exception.Some?)
                  && demands[d] == t.demands[d].(exception := demands[d].exception))
  {
    if n > 0 {
      FlagFrame(t, batch, n - 1, d);
    }
  }

  /** The demand behind an open commitment of the batch is flagged, or the batch still covers it. */
  lemma {:induction false} FlagReaches(t: Tables, batch: nat, n: nat, i: nat)
    requires References(t) && batch < |t.batches| && i < n <= |t.commitments| && OpenOn(t.commitments[i], batch)
    ensures var d := t.commitments[i].demand;
            && d in Flag(t, batch, n).0
            && (Flag(t, batch, n).0[d].exception == None ==>
                  ReasonFor(t.batches[batch], Open(t.commitments, batch), t.demands[d].neededBy) == None)
  {
    FlagFrame(t, batch, n - 1, t.commitments[i].demand);
    if i < n - 1 {
      FlagReaches(t, batch, n - 1, i);
    }
  }

  lemma ChangedBatchLaw(t: Tables, batch: nat, b: Batch)
    requires TablesOk(t) && batch < |t.batches|
    requires b.identity == t.batches[batch].identity && b.status != Draft
    ensures TablesOk(WithBatch(t, batch, b).0) && Extends(t, WithBatch(t, batch, b).0)
  {
    var u := t.(batches := t.batches[batch := b]);
    var v := WithBatch(t, batch, b).0;
    forall d: string
      ensures d in v.demands <==> d in t.demands
      ensures d in t.demands ==>
                && (v.demands[d] == t.demands[d] || v.demands[d].exception.Some?)
                && v.demands[d] == t.demands[d].(exception := v.demands[d].exception)
    {
      FlagFrame(u, batch, |u.commitments|, d);
    }
    forall i: nat | i < |v.commitments|
      ensures CoveredRow(v, i)
    {
      assert CoveredRow(t, i);
      if OpenOn(v.commitments[i], batch) {
        FlagReaches(u, batch, |u.commitments|, i);
      }
    }
  }

  /*** The supply list ***/

  lemma {:induction false} MatchingLaw(batches: seq<Batch>, identity: Identity, neededBy: int, n: nat)
    requires n <= |batches|
    ensures var r := Matching(batches, identity, neededBy, n);
            Distinct(r) && forall b: nat :: b in r <==> b < n && Supplies(batches[b], identity, neededBy)
  {
    if n > 0 {
      MatchingLaw(batches, identity, neededBy, n - 1);
    }
  }

  /** The supply list holds exactly the confirmed batches of the identity usable in time, each once,
      earliest first. */
  lemma SupplyLaw(batches: seq<Batch>, rank: Rank, identity: Identity, neededBy: int)
    ensures var r := Supply(batches, rank, identity, neededBy);
            && Distinct(r) && Ordered(r, Earlier(batches, rank))
            && forall b: nat :: b in r <==> b < |batches| && Supplies(batches[b], identity, neededBy)
  {
    var rows, order := Matching(batches, identity, neededBy, |batches|), Earlier(batches, rank);
    MatchingLaw(batches, identity, neededBy, |batches|);
    EarlierOrders(batches, rank);
    SortedLaw<nat>(rows, order);
    SortedMembers<nat>(rows, order);
    RearrangedDistinct<nat>(rows, Sorted<nat>(rows, order));
  }

  /*** Allotting ***/

  function Units(allotted: seq<(nat, nat)>): nat {
    if allotted == [] then 0 else allotted[0].1 + Units(allotted[1..])
  }

  function Taken(allotted: seq<(nat, nat)>, batch: nat): nat {
    if allotted == [] then 0
    else (if allotted[0].0 == batch then allotted[0].1 else 0) + Taken(allotted[1..], batch)
  }

  function Rest(t: Tables, rows: seq<nat>, quantity: nat): seq<(nat, nat)>
    requires Indices(t.batches, rows) && rows != []
  {
    Allot(t, rows[1..], quantity - First(t, rows, quantity))
  }

  lemma AllotHead(t: Tables, rows: seq<nat>, quantity: nat)
    requires Indices(t.batches, rows) && rows != [] && quantity > 0
    ensures var q, rest := First(t, rows, quantity), Rest(t, rows, quantity);
            Allot(t, rows, quantity) == if q > 0 then [(rows[0], q)] + rest else rest
  {
  }

  lemma UnitsHead(t: Tables, rows: seq<nat>, quantity: nat)
    requires Indices(t.batches, rows) && rows != [] && quantity > 0
    ensures Units(Allot(t, rows, quantity)) == First(t, rows, quantity) + Units(Rest(t, rows, quantity))
  {
    AllotHead(t, rows, quantity);
    var q, rest := First(t, rows, quantity), Rest(t, rows, quantity);
    assert ([(rows[0], q)] + rest)[1..] == rest;
  }

  lemma TakenHead(t: Tables, rows: seq<nat>, quantity: nat, batch: nat)
    requires Indices(t.batches, rows) && rows != [] && quantity > 0
    ensures Taken(Allot(t, rows, quantity), batch) ==
            (if batch == rows[0] then First(t, rows, quantity) else 0) + Taken(Rest(t, rows, quantity), batch)
  {
    AllotHead(t, rows, quantity);
    var q, rest := First(t, rows, quantity), Rest(t, rows, quantity);
    assert ([(rows[0], q)] + rest)[1..] == rest;
  }

  /** As much as is asked for is taken, while supply lasts. */
  lemma {:induction false} AllotUnits(t: Tables, rows: seq<nat>, quantity: nat)
    requires Indices(t.batches, rows)
    ensures Units(Allot(t, rows, quantity)) == Min(quantity, TotalAvailable(t, rows))
    decreases |rows|
  {
    if rows != [] && quantity > 0 {
      UnitsHead(t, rows, quantity);
      AllotUnits(t, rows[1..], quantity - First(t, rows, quantity));
    }
  }

  lemma {:induction false} AllotRows(t: Tables, rows: seq<nat>, quantity: nat, a: (nat, nat))
    requires Indices(t.batches, rows) && a in Allot(t, rows, quantity)
    ensures a.0 in rows && a.1 > 0
    decreases |rows|
  {
    var q := First(t, rows, quantity);
    AllotHead(t, rows, quantity);
    if !(q > 0 && a == (rows[0], q)) {
      AllotRows(t, rows[1..], quantity - q, a);
    }
  }

  /** Nothing is taken beyond what is available. */
  lemma {:induction false} AllotTaken(t: Tables, rows: seq<nat>, quantity: nat, batch: nat)
    requires Indices(t.batches, rows) && Distinct(rows)
    ensures batch !in rows ==> Taken(Allot(t, rows, quantity), batch) == 0
    ensures batch in rows ==> Taken(Allot(t, rows, quantity), batch) <= Available(t, batch)
    decreases |rows|
  {
    if rows != [] && quantity > 0 {
      var left := quantity - First(t, rows, quantity);
      TakenHead(t, rows, quantity, batch);
      AllotTaken(t, rows[1..], left, batch);
    }
  }

  lemma {:induction false} CommitmentsAt(t: Tables, demand: string, a: seq<(nat, nat)>)
    ensures var r := Commitments(t, demand, a);
            |r| == |a| && forall i :: 0 <= i < |a| ==> r[i] == CommitmentOf(t, demand, a[i])
  {
    if a != [] {
      CommitmentsAt(t, demand, a[1..]);
    }
  }

  lemma {:induction false} CommitmentsLaw(t: Tables, demand: string, a: seq<(nat, nat)>, batch: nat, other: string)
    ensures Open(Commitments(t, demand, a), batch) == Taken(a, batch)
    ensures OpenFor(Commitments(t, demand, a), other) == if other == demand then Units(a) else 0
  {
    if a != [] {
      var cs := Commitments(t, demand, a);
      assert cs[1..] == Commitments(t, demand, a[1..]);
      CommitmentsLaw(t, demand, a[1..], batch, other);
    }
  }

  lemma {:induction false} TakenAtLeast(a: seq<(nat, nat)>, i: nat)
    requires i < |a|
    ensures Taken(a, a[i].0) >= a[i].1
  {
    if i > 0 {
      TakenAtLeast(a[1..], i - 1);
    }
  }

  lemma {:induction false} NoneOpenFor(cs: seq<Commitment>, demand: string)
    requires forall c <- cs :: c.demand != demand
    ensures OpenFor(cs, demand) == 0
  {
    if cs != [] {
      NoneOpenFor(cs[1..], demand);
    }
  }

  /** The tables after a reservation that the supply allows. */
  function Reserving(t: Tables, rank: Rank, identity: Identity, neededBy: int, d: string, ref: string, q: nat): Tables {
    t.(demands := t.demands[d := Demand(identity, neededBy, ref, q, q, Committed, None)],
       commitments := t.commitments + Commitments(t, d, Allot(t, Supply(t.batches, rank, identity, neededBy), q)))
  }

  predicate CanReserve(t: Tables, rank: Rank, identity: Identity, neededBy: int, d: string, q: nat) {
    TablesOk(t) && q > 0 && d !in t.demands && Preview(t, rank, identity, neededBy) >= q
  }

  /** What a reservation adds to each batch's committed total. */
  lemma ReservedFromBatch(t: Tables, rank: Rank, identity: Identity, neededBy: int, d: string, ref: string, q: nat, batch: nat)
    requires CanReserve(t, rank, identity, neededBy, d, q) && batch < |t.batches|
    ensures var a := Allot(t, Supply(t.batches, rank, identity, neededBy), q);
            && Open(Reserving(t, rank, identity, neededBy, d, ref, q).commitments, batch) ==
               Open(t.commitments, batch) + Taken(a, batch)
            && Taken(a, batch) <= Available(t, batch)
            && (Taken(a, batch) > 0 ==> Supplies(t.batches[batch], identity, neededBy))
  {
    var rows := Supply(t.batches, rank, identity, neededBy);
    var a := Allot(t, rows, q);
    SupplyLaw(t.batches, rank, identity, neededBy);
    AllotTaken(t, rows, q, batch);
    CommitmentsLaw(t, d, a, batch, d);
    OpenAppend(t.commitments, Commitments(t, d, a), batch);
  }

  lemma ReservedForDemand(t: Tables, rank: Rank, identity: Identity, neededBy: int, d: string, ref: string, q: nat, e: string)
    requires CanReserve(t, rank, identity, neededBy, d, q)
    ensures OpenFor(Reserving(t, rank, identity, neededBy, d, ref, q).commitments, e) ==
            if e == d then q else OpenFor(t.commitments, e)
  {
    var rows := Supply(t.batches, rank, identity, neededBy);
    var a := Allot(t, rows, q);
    AllotUnits(t, rows, q);
    CommitmentsLaw(t, d, a, 0, e);
    OpenForAppend(t.commitments, Commitments(t, d, a), e);
    NoneOpenFor(t.commitments, d);
  }

  lemma ReservedRow(t: Tables, rank: Rank, identity: Identity, neededBy: int, q: nat, i: nat)
    requires TablesOk(t)
    requires i < |Allot(t, Supply(t.batches, rank, identity, neededBy), q)|
    ensures var x := Allot(t, Supply(t.batches, rank, identity, neededBy), q)[i];
            && x.0 < |t.batches| && x.1 > 0 && Supplies(t.batches[x.0], identity, neededBy)
            && Taken(Allot(t, Supply(t.batches, rank, identity, neededBy), q), x.0) > 0
  {
    var rows := Supply(t.batches, rank, identity, neededBy);
    AllotRows(t, rows, q, Allot(t, rows, q)[i]);
    SupplyLaw(t.batches, rank, identity, neededBy);
    TakenAtLeast(Allot(t, rows, q), i);
  }

  lemma ReservedReference(t: Tables, rank: Rank, identity: Identity, neededBy: int, d: string, ref: string, q: nat, i: nat)
    requires CanReserve(t, rank, identity, neededBy, d, q)
    requires i < |Reserving(t, rank, identity, neededBy, d, ref, q).commitments|
    ensures var u := Reserving(t, rank, identity, neededBy, d, ref, q);
            u.commitments[i].batch < |u.batches| && u.commitments[i].demand in u.demands
  {
    var a := Allot(t, Supply(t.batches, rank, identity, neededBy), q);
    CommitmentsAt(t, d, a);
    if |t.commitments| <= i {
      ReservedRow(t, rank, identity, neededBy, q, i - |t.commitments|);
    }
  }

  lemma ReservedReferences(t: Tables, rank: Rank, identity: Identity, neededBy: int, d: string, ref: string, q: nat)
    requires CanReserve(t, rank, identity, neededBy, d, q)
    ensures References(Reserving(t, rank, identity, neededBy, d, ref, q))
  {
    var u := Reserving(t, rank, identity, neededBy, d, ref, q);
    forall i | 0 <= i < |u.commitments|
      ensures u.commitments[i].batch < |u.batches| && u.commitments[i].demand in u.demands
    {
      ReservedReference(t, rank, identity, neededBy, d, ref, q, i);
    }
  }

  lemma ReserveBalances(t: Tables, rank: Rank, identity: Identity, neededBy: int, d: string, ref: string, q: nat)
    requires CanReserve(t, rank, identity, neededBy, d, q)
    ensures Balanced(Reserving(t, rank, identity, neededBy, d, ref, q))
  {
    var u := Reserving(t, rank, identity, neededBy, d, ref, q);
    forall e | e in u.demands
      ensures u.demands[e].remaining == OpenFor(u.commitments, e)
    {
      ReservedForDemand(t, rank, identity, neededBy, d, ref, q, e);
    }
  }

  lemma ReserveCovers(t: Tables, rank: Rank, identity: Identity, neededBy: int, d: string, ref: string, q: nat, i: nat)
    requires CanReserve(t, rank, identity, neededBy, d, q)
    requires References(Reserving(t, rank, identity, neededBy, d, ref, q))
    requires i < |Reserving(t, rank, identity, neededBy, d, ref, q).commitments|
    ensures CoveredRow(Reserving(t, rank, identity, neededBy, d, ref, q), i)
  {
    var u := Reserving(t, rank, identity, neededBy, d, ref, q);
    CommitmentsAt(t, d, Allot(t, Supply(t.batches, rank, identity, neededBy), q));
    ReservedFromBatch(t, rank, identity, neededBy, d, ref, q, u.commitments[i].batch);
    if i < |t.commitments| {
      assert CoveredRow(t, i);
    } else {
      ReservedRow(t, rank, identity, neededBy, q, i - |t.commitments|);
    }
  }

  lemma ReserveKeepsTables(t: Tables, rank: Rank, identity: Identity, neededBy: int, d: string, ref: string, q: nat)
    requires CanReserve(t, rank, identity, neededBy, d, q)
    ensures TablesOk(Reserving(t, rank, identity, neededBy, d, ref, q))
    ensures Extends(t, Reserving(t, rank, identity, neededBy, d, ref, q))
  {
    var u := Reserving(t, rank, identity, neededBy, d, ref, q);
    ReservedReferences(t, rank, identity, neededBy, d, ref, q);
    ReserveBalances(t, rank, identity, neededBy, d, ref, q);
    forall i: nat | i < |u.commitments|
      ensures CoveredRow(u, i)
    {
      ReserveCovers(t, rank, identity, neededBy, d, ref, q, i);
    }
  }

  /*** Preview and reservation agree ***/

  lemma ReserveKeepsExceptions(t: Tables, rank: Rank, identity: Identity, neededBy: int, d: string, ref: string, q: nat, batch: nat)
    requires CanReserve(t, rank, identity, neededBy, d, q)
    ensures HasException(Reserving(t, rank, identity, neededBy, d, ref, q), batch) <==> HasException(t, batch)
  {
    var u := Reserving(t, rank, identity, neededBy, d, ref, q);
    CommitmentsAt(t, d, Allot(t, Supply(t.batches, rank, identity, neededBy), q));
    if HasException(t, batch) {
      var i :| 0 <= i < |t.commitments| && OpenOn(t.commitments[i], batch) && t.commitments[i].demand in t.demands
               && t.demands[t.commitments[i].demand].exception.Some?;
      assert u.commitments[i] == t.commitments[i];
    }
    if HasException(u, batch) {
      var i :| 0 <= i < |u.commitments| && OpenOn(u.commitments[i], batch) && u.commitments[i].demand in u.demands
               && u.demands[u.commitments[i].demand].exception.Some?;
      assert u.commitments[i] == t.commitments[i];
    }
  }

  /** Each batch's availability falls by exactly what was taken from it. */
  lemma ReservedAvailability(t: Tables, rank: Rank, identity: Identity, neededBy: int, d: string, ref: string, q: nat, batch: nat)
    requires CanReserve(t, rank, identity, neededBy, d, q) && batch < |t.batches|
    ensures Available(Reserving(t, rank, identity, neededBy, d, ref, q), batch) ==
            Available(t, batch) - Taken(Allot(t, Supply(t.batches, rank, identity, neededBy), q), batch)
  {
    ReservedFromBatch(t, rank, identity, neededBy, d, ref, q, batch);
    ReserveKeepsExceptions(t, rank, identity, neededBy, d, ref, q, batch);
  }

  /** A batch's availability in `u` is what `quantity` allotted from `rows` leaves of it in `t`. */
  ghost predicate FallsBy(t: Tables, u: Tables, rows: seq<nat>, quantity: nat, b: nat)
    requires t.batches == u.batches && Indices(t.batches, rows) && b < |t.batches|
  {
    Available(u, b) == Available(t, b) - Taken(Allot(t, rows, quantity), b)
  }

  lemma RestFalls(t: Tables, u: Tables, rows: seq<nat>, quantity: nat, b: nat)
    requires t.batches == u.batches && Indices(t.batches, rows) && rows != [] && Distinct(rows) && b in rows[1..]
    requires b < |t.batches| && FallsBy(t, u, rows, quantity, b)
    ensures FallsBy(t, u, rows[1..], quantity - First(t, rows, quantity), b)
  {
    if quantity > 0 {
      TakenHead(t, rows, quantity, b);
    }
  }

  lemma HeadFalls(t: Tables, u: Tables, rows: seq<nat>, quantity: nat)
    requires t.batches == u.batches && Indices(t.batches, rows) && rows != [] && Distinct(rows)
    requires FallsBy(t, u, rows, quantity, rows[0])
    ensures Available(u, rows[0]) == Available(t, rows[0]) - First(t, rows, quantity)
  {
    if quantity > 0 {
      TakenHead(t, rows, quantity, rows[0]);
      AllotTaken(t, rows[1..], quantity - First(t, rows, quantity), rows[0]);
    }
  }

  lemma {:induction false} AvailabilityFalls(t: Tables, u: Tables, rows: seq<nat>, quantity: nat)
    requires t.batches == u.batches && Indices(t.batches, rows) && Distinct(rows)
    requires forall b <- rows :: FallsBy(t, u, rows, quantity, b)
    ensures TotalAvailable(u, rows) == TotalAvailable(t, rows) - Units(Allot(t, rows, quantity))
    decreases |rows|
  {
    if rows != [] {
      var left := quantity - First(t, rows, quantity);
      HeadFalls(t, u, rows, quantity);
      forall b | b in rows[1..] ensures FallsBy(t, u, rows[1..], left, b) {
        RestFalls(t, u, rows, quantity, b);
      }
      AvailabilityFalls(t, u, rows[1..], left);
      if quantity > 0 {
        UnitsHead(t, rows, quantity);
      }
    }
  }

  /** A reservation succeeds exactly when the preview shows enough, and lowers that preview by the units reserved. */
  lemma PreviewAgreesWithReserve(t: Tables, rank: Rank, identity: Identity, neededBy: int, d: string, ref: string, q: int)
    requires TablesOk(t) && IdentityMatches(t, identity) && d !in t.demands
    requires ValidCommand(Reserve(identity, neededBy, d, ref, q))
    ensures var r := Apply(t, rank, Reserve(identity, neededBy, d, ref, q));
            && (r.Ok? <==> Preview(t, rank, identity, neededBy) >= q)
            && (r.Ok? ==> Preview(r.value.0, rank, identity, neededBy) == Preview(t, rank, identity, neededBy) - q)
  {
    if Preview(t, rank, identity, neededBy) >= q {
      var rows := Supply(t.batches, rank, identity, neededBy);
      var u := Reserving(t, rank, identity, neededBy, d, ref, q);
      SupplyLaw(t.batches, rank, identity, neededBy);
      forall b | b in rows
        ensures FallsBy(t, u, rows, q, b)
      {
        ReservedAvailability(t, rank, identity, neededBy, d, ref, q, b);
      }
      AvailabilityFalls(t, u, rows, q);
      AllotUnits(t, rows, q);
    }
  }

  lemma {:induction false} SkippedMeansNoneLeft(t: Tables, rows: seq<nat>, quantity: nat, i: nat, j: nat)
    requires Indices(t.batches, rows) && Distinct(rows) && i < j < |rows|
    requires Taken(Allot(t, rows, quantity), rows[j]) > 0
    ensures Taken(Allot(t, rows, quantity), rows[i]) == Available(t, rows[i])
    decreases |rows|
  {
    if quantity > 0 {
      var q := First(t, rows, quantity);
      TakenHead(t, rows, quantity, rows[i]);
      TakenHead(t, rows, quantity, rows[j]);
      if i == 0 {
        AllotTaken(t, rows[1..], quantity - q, rows[0]);
      } else {
        SkippedMeansNoneLeft(t, rows[1..], quantity - q, i - 1, j - 1);
      }
    }
  }

  /** Earliest batches are drained first: a batch is used only when every strictly earlier one that could
      supply has given all it had. */
  lemma EarliestFirst(t: Tables, rank: Rank, identity: Identity, neededBy: int, q: nat, a: nat, b: nat)
    requires a < |t.batches| && b < |t.batches| && Supplies(t.batches[a], identity, neededBy)
    requires !Earlier(t.batches, rank)(b, a)
    requires Taken(Allot(t, Supply(t.batches, rank, identity, neededBy), q), b) > 0
    ensures Taken(Allot(t, Supply(t.batches, rank, identity, neededBy), q), a) == Available(t, a)
  {
    var rows := Supply(t.batches, rank, identity, neededBy);
    SupplyLaw(t.batches, rank, identity, neededBy);
    AllotTaken(t, rows, q, b);
    var i :| 0 <= i < |rows| && rows[i] == a;
    var j :| 0 <= j < |rows| && rows[j] == b;
    assert i < j;
    SkippedMeansNoneLeft(t, rows, q, i, j);
  }

  /*** Releasing ***/

  lemma {:induction false} TopOpenLaw(cs: seq<Commitment>, rank: Rank, demand: string, n: nat)
    requires n <= |cs|
    ensures var top := TopOpen(cs, rank, demand, n);
            forall i: nat | i < n && OpenCommitment(cs[i], demand) :: top.Some? && rank(i) <= rank(top.value)
  {
    if n > 0 {
      TopOpenLaw(cs, rank, demand, n - 1);
    }
  }

  /** Only the demand's own rows change, and only downwards. */
  predicate Drained(old': seq<Commitment>, new': seq<Commitment>, demand: string) {
    && |new'| == |old'|
    && forall i | 0 <= i < |old'| ::
         && new'[i] == old'[i].(remaining := new'[i].remaining)
         && new'[i].remaining <= old'[i].remaining
         && (old'[i].demand != demand ==> new'[i] == old'[i])
  }

  lemma {:induction false} SomeOpen(cs: seq<Commitment>, demand: string)
    requires OpenFor(cs, demand) > 0
    ensures exists i: nat :: i < |cs| && OpenCommitment(cs[i], demand)
  {
    if OpenCommitment(cs[0], demand) {
      assert 0 < |cs| && OpenCommitment(cs[0], demand);
    } else {
      SomeOpen(cs[1..], demand);
      var i: nat :| i < |cs[1..]| && OpenCommitment(cs[1..][i], demand);
      assert OpenCommitment(cs[i + 1], demand);
    }
  }

  lemma {:induction false} DrainShape(cs: seq<Commitment>, rank: Rank, demand: string, q: nat)
    ensures Drained(cs, Drain(cs, rank, demand, q).0, demand)
    decreases q
  {
    if q > 0 {
      var top := TopOpen(cs, rank, demand, |cs|);
      if top.Some? {
        var i := top.value;
        var take := Min(q, cs[i].remaining);
        DrainShape(cs[i := cs[i].(remaining := cs[i].remaining - take)], rank, demand, q - take);
      }
    }
  }

  /** The units released come off the demand, all of them whenever it holds that many. */
  lemma {:induction false} DrainTotal(cs: seq<Commitment>, rank: Rank, demand: string, q: nat, e: string)
    requires q <= OpenFor(cs, demand)
    ensures var (ds, left) := Drain(cs, rank, demand, q);
            && left == 0
            && OpenFor(ds, demand) == OpenFor(cs, demand) - q
            && (e != demand ==> OpenFor(ds, e) == OpenFor(cs, e))
    decreases q
  {
    if q > 0 {
      SomeOpen(cs, demand);
      TopOpenLaw(cs, rank, demand, |cs|);
      var i := TopOpen(cs, rank, demand, |cs|).value;
      var take := Min(q, cs[i].remaining);
      var c := cs[i].(remaining := cs[i].remaining - take);
      RowReplaced(cs, i, c, 0, demand);
      RowReplaced(cs, i, c, 0, e);
      DrainTotal(cs[i := c], rank, demand, q - take, e);
    }
  }

  /** One turn of the drain: the open row of largest id gives what it can. */
  lemma DrainTurn(cs: seq<Commitment>, rank: Rank, demand: string, q: nat)
    returns (k: nat, next: seq<Commitment>, left: nat)
    requires 0 < q <= OpenFor(cs, demand)
    ensures k < |cs| && OpenCommitment(cs[k], demand)
    ensures forall i: nat :: i < |cs| && OpenCommitment(cs[i], demand) ==> rank(i) <= rank(k)
    ensures |next| == |cs| && next == cs[k := cs[k].(remaining := next[k].remaining)] && next[k].remaining < cs[k].remaining
    ensures left < q && left <= OpenFor(next, demand)
    ensures Drain(cs, rank, demand, q).0 == Drain(next, rank, demand, left).0
  {
    SomeOpen(cs, demand);
    TopOpenLaw(cs, rank, demand, |cs|);
    k := TopOpen(cs, rank, demand, |cs|).value;
    var take := Min(q, cs[k].remaining);
    next, left := cs[k := cs[k].(remaining := cs[k].remaining - take)], q - take;
    RowReplaced(cs, k, next[k], 0, demand);
  }

  /** A row gives up units only after every open row of the demand with a larger id is empty. */
  lemma {:induction false} LargestIdFirst(cs: seq<Commitment>, rank: Rank, demand: string, q: nat, i: nat, j: nat)
    requires i < |cs| && j < |cs| && cs[i].demand == cs[j].demand == demand && rank(i) < rank(j)
    requires q <= OpenFor(cs, demand)
    requires |Drain(cs, rank, demand, q).0| == |cs| && Drain(cs, rank, demand, q).0[i] != cs[i]
    ensures Drain(cs, rank, demand, q).0[j].remaining == 0
    decreases q
  {
    if q > 0 {
      var k, next, left := DrainTurn(cs, rank, demand, q);
      DrainShape(next, rank, demand, left);
      if k == i {
        assert !OpenCommitment(cs[j], demand);
      } else {
        LargestIdFirst(next, rank, demand, left, i, j);
      }
    }
  }

  lemma {:induction false} DrainedOpen(old': seq<Commitment>, new': seq<Commitment>, demand: string, batch: nat)
    requires Drained(old', new', demand)
    ensures Open(new', batch) <= Open(old', batch)
  {
    if old' != [] {
      DrainedOpen(old'[1..], new'[1..], demand, batch);
    }
  }

  function Releasing(t: Tables, rank: Rank, d: string, q: nat): Tables
    requires d in t.demands && q <= t.demands[d].remaining
  {
    var next := t.demands[d].remaining - q;
    t.(commitments := Drain(t.commitments, rank, d, q).0,
       demands := t.demands[d := t.demands[d].(remaining := next, status := if next > 0 then Committed else Released)])
  }

  lemma ReleaseKeepsTables(t: Tables, rank: Rank, d: string, q: nat)
    requires TablesOk(t) && d in t.demands && q <= t.demands[d].remaining
    ensures TablesOk(Releasing(t, rank, d, q)) && Extends(t, Releasing(t, rank, d, q))
  {
    var u := Releasing(t, rank, d, q);
    DrainShape(t.commitments, rank, d, q);
    forall e | e in u.demands
      ensures u.demands[e].remaining == OpenFor(u.commitments, e)
    {
      DrainTotal(t.commitments, rank, d, q, e);
    }
    forall i: nat | i < |u.commitments|
      ensures CoveredRow(u, i)
    {
      assert CoveredRow(t, i);
      DrainedOpen(t.commitments, u.commitments, d, u.commitments[i].batch);
    }
  }

  /** Commitments always reconcile: a release within the remaining quantity never fails. */
  lemma ReleaseReconciles(t: Tables, rank: Rank, d: string, q: int)
    requires TablesOk(t) && ValidCommand(Release(d, q)) && d in t.demands
    ensures Apply(t, rank, Release(d, q)).Ok? <==> q <= t.demands[d].remaining
  {
    if q <= t.demands[d].remaining {
      DrainTotal(t.commitments, rank, d, q, d);
    }
  }

  /*** Releasing undoes reserving ***/

  lemma {:induction false} EmptiedRows(cs: seq<Commitment>, demand: string, batch: nat)
    requires OpenFor(cs, demand) == 0 && forall c <- cs :: c.demand == demand
    ensures Open(cs, batch) == 0
  {
    if cs != [] {
      EmptiedRows(cs[1..], demand, batch);
    }
  }

  /** Draining touches the rows of its demand only, and leaves the others where they were. */
  lemma DrainTail(cs: seq<Commitment>, ds: seq<Commitment>, rank: Rank, demand: string, q: nat)
    requires (forall c <- cs :: c.demand != demand) && (forall c <- ds :: c.demand == demand)
    ensures var es := Drain(cs + ds, rank, demand, q).0;
            && |es| == |cs| + |ds| && es == cs + es[|cs|..] && forall c <- es[|cs|..] :: c.demand == demand
  {
    var es := Drain(cs + ds, rank, demand, q).0;
    DrainShape(cs + ds, rank, demand, q);
    assert es[..|cs|] == cs;
    forall c | c in es[|cs|..]
      ensures c.demand == demand
    {
      var k :| 0 <= k < |es[|cs|..]| && es[|cs|..][k] == c;
      assert es[|cs| + k] == c && (cs + ds)[|cs| + k] == ds[k];
    }
  }

  /** Draining everything a demand holds leaves only the rows of others. */
  lemma DrainAll(cs: seq<Commitment>, ds: seq<Commitment>, rank: Rank, demand: string, batch: nat)
    requires (forall c <- cs :: c.demand != demand) && (forall c <- ds :: c.demand == demand)
    ensures Open(Drain(cs + ds, rank, demand, OpenFor(cs + ds, demand)).0, batch) == Open(cs, batch)
  {
    var q := OpenFor(cs + ds, demand);
    DrainTail(cs, ds, rank, demand, q);
    var tail := Drain(cs + ds, rank, demand, q).0[|cs|..];
    DrainTotal(cs + ds, rank, demand, q, demand);
    OpenAppend(cs, tail, batch);
    OpenForAppend(cs, tail, demand);
    NoneOpenFor(cs, demand);
    EmptiedRows(tail, demand, batch);
  }

  /** Reserving and then releasing everything leaves every batch's committed total as it was. */
  lemma FullReleaseRestores(t: Tables, rank: Rank, identity: Identity, neededBy: int, d: string, ref: string, q: nat, batch: nat)
    requires CanReserve(t, rank, identity, neededBy, d, q)
    ensures var v := Releasing(Reserving(t, rank, identity, neededBy, d, ref, q), rank, d, q);
            && Open(v.commitments, batch) == Open(t.commitments, batch)
            && v.batches == t.batches
            && (forall e <- t.demands :: e in v.demands && v.demands[e] == t.demands[e])
            && v.demands[d].remaining == 0 && v.demands[d].status == Released
  {
    ReservedForDemand(t, rank, identity, neededBy, d, ref, q, d);
    CommitmentsAt(t, d, Allot(t, Supply(t.batches, rank, identity, neededBy), q));
    DrainAll(t.commitments, Commitments(t, d, Allot(t, Supply(t.batches, rank, identity, neededBy), q)), rank, d, batch);
  }

  /*** Commands ***/

  lemma {:induction false} FirstIdentityFound(batches: seq<Batch>, i: nat)
    requires i < |batches|
    ensures var first := FirstIdentity(batches, batches[i].identity.variant);
            && first.Some? && first.value.variant == batches[i].identity.variant
            && exists k: nat :: k < |batches| && batches[k].identity == first.value
  {
    if batches[0].identity.variant == batches[i].identity.variant {
      assert 0 < |batches| && batches[0].identity == FirstIdentity(batches, batches[i].identity.variant).value;
    } else {
      FirstIdentityFound(batches[1..], i - 1);
      var k: nat :| k < |batches[1..]| && batches[1..][k].identity == FirstIdentity(batches[1..], batches[i].identity.variant).value;
      assert batches[k + 1].identity == FirstIdentity(batches, batches[i].identity.variant).value;
    }
  }

  lemma MatchingIdentity(t: Tables, identity: Identity, i: nat)
    requires OneIdentity(t) && IdentityMatches(t, identity)
    requires i < |t.batches| && t.batches[i].identity.variant == identity.variant
    ensures t.batches[i].identity == identity
  {
    FirstIdentityFound(t.batches, i);
  }

  lemma CreateKeepsTables(t: Tables, b: Batch)
    requires TablesOk(t) && IdentityMatches(t, b.identity)
    ensures TablesOk(t.(batches := t.batches + [b])) && Extends(t, t.(batches := t.batches + [b]))
  {
    var u := t.(batches := t.batches + [b]);
    forall i: nat | i < |t.batches| && t.batches[i].identity.variant == b.identity.variant
      ensures t.batches[i].identity == b.identity
    {
      MatchingIdentity(t, b.identity, i);
    }
    forall i: nat | i < |u.commitments|
      ensures CoveredRow(u, i)
    {
      assert CoveredRow(t, i);
    }
  }

  lemma ReviseKeepsTables(t: Tables, batch: nat, revision: int, needs: BatchStatus, quantity: nat, usableAt: int)
    requires TablesOk(t) && batch < |t.batches| && Revise(t, batch, revision, needs, quantity, usableAt).Ok?
    ensures var u := Revise(t, batch, revision, needs, quantity, usableAt).value.0; TablesOk(u) && Extends(t, u)
  {
    var b := t.batches[batch];
    ChangedBatchLaw(t, batch, b.(confirmed := quantity, usableAt := usableAt, status := Confirmed, revision := b.revision + 1));
  }

  predicate Kept(t: Tables, r: Result<(Tables, Receipt), Outcome>) {
    r.Ok? ==> TablesOk(r.value.0) && Extends(t, r.value.0)
  }

  lemma CancelKeepsTables(t: Tables, rank: Rank, i: nat, rev: int)
    requires TablesOk(t) && ValidCommand(CancelBatch(i, rev)) && TargetExists(t, CancelBatch(i, rev))
    ensures Kept(t, Apply(t, rank, CancelBatch(i, rev)))
  {
    CancelApplied(t, rank, i, rev);
    ChangeKept(t, t, i, t.batches[i].(confirmed := 0, status := Cancelled, revision := t.batches[i].revision + 1));
  }

  lemma StageKeepsTables(t: Tables, rank: Rank, i: nat, rev: int, system: string, ref: string, q: nat, at: int)
    requires var c := StageReceipt(i, rev, system, ref, q, at); TablesOk(t) && ValidCommand(c) && TargetExists(t, c)
    ensures Kept(t, Apply(t, rank, StageReceipt(i, rev, system, ref, q, at)))
  {
    StageApplied(t, rank, i, rev, system, ref, q, at);
    ChangeKept(t, t.(receipts := t.receipts + {(system, ref)}), i,
               t.batches[i].(status := ReceiptPending, confirmed := q, usableAt := at, revision := t.batches[i].revision + 1));
  }

  lemma CancelApplied(t: Tables, rank: Rank, i: nat, rev: int)
    requires ValidCommand(CancelBatch(i, rev)) && TargetExists(t, CancelBatch(i, rev))
    ensures var r, b := Apply(t, rank, CancelBatch(i, rev)), t.batches[i];
            r.Err? || r == ChangedBatch(t, i, b.(confirmed := 0, status := Cancelled, revision := b.revision + 1))
  {
  }

  lemma StageApplied(t: Tables, rank: Rank, i: nat, rev: int, system: string, ref: string, q: nat, at: int)
    requires var c := StageReceipt(i, rev, system, ref, q, at); ValidCommand(c) && TargetExists(t, c)
    ensures var r, b := Apply(t, rank, StageReceipt(i, rev, system, ref, q, at)), t.batches[i];
            || r.Err?
            || r == ChangedBatch(t.(receipts := t.receipts + {(system, ref)}), i,
                                 b.(status := ReceiptPending, confirmed := q, usableAt := at, revision := b.revision + 1))
  {
  }

  /** Changing a batch, beside whatever is recorded of receipts, keeps the tables. */
  lemma ChangeKept(t: Tables, u: Tables, i: nat, b: Batch)
    requires TablesOk(t) && u == t.(receipts := u.receipts)
    requires i < |t.batches| && b.identity == t.batches[i].identity && b.status != Draft
    ensures Kept(t, ChangedBatch(u, i, b))
  {
    SameCover(t, u);
    ChangedBatchLaw(u, i, b);
  }

  lemma BatchCommandKeepsTables(t: Tables, rank: Rank, c: Command)
    requires TablesOk(t) && ValidCommand(c) && TargetExists(t, c) && !c.Reserve? && !c.Release?
    ensures Kept(t, Apply(t, rank, c))
  {
    match c
    case CreateBatch(i, system, ref, q, usableAt) =>
      if IdentityMatches(t, i) {
        CreateKeepsTables(t, Batch(i, system, ref, q, 0, usableAt, Draft, 0));
      }
    case ConfirmBatch(b, rev, q, at) =>
      if Revise(t, b, rev, Draft, q, at).Ok? {
        ReviseKeepsTables(t, b, rev, Draft, q, at);
      }
    case ReviseBatch(b, rev, q, at) =>
      if Revise(t, b, rev, Confirmed, q, at).Ok? {
        ReviseKeepsTables(t, b, rev, Confirmed, q, at);
      }
    case CancelBatch(i, rev) => CancelKeepsTables(t, rank, i, rev);
    case StageReceipt(i, rev, system, ref, q, at) => StageKeepsTables(t, rank, i, rev, system, ref, q, at);
  }

  lemma SameCover(t: Tables, u: Tables)
    requires TablesOk(t) && u.batches == t.batches && u.demands == t.demands && u.commitments == t.commitments
    ensures TablesOk(u)
  {
    forall i: nat | i < |u.commitments|
      ensures CoveredRow(u, i)
    {
      assert CoveredRow(t, i);
    }
  }

  /** Every command keeps promises covered or flagged, quantities balanced and exceptions standing. */
  lemma ApplyKeepsTables(t: Tables, rank: Rank, c: Command)
    requires TablesOk(t) && ValidCommand(c) && TargetExists(t, c)
    ensures Kept(t, Apply(t, rank, c))
  {
    if c.Reserve? {
      ReserveCommandKeepsTables(t, rank, c);
    } else if c.Release? {
      ReleaseCommandKeepsTables(t, rank, c);
    } else {
      BatchCommandKeepsTables(t, rank, c);
    }
  }

  lemma ReserveCommandKeepsTables(t: Tables, rank: Rank, c: Command)
    requires TablesOk(t) && ValidCommand(c) && TargetExists(t, c) && c.Reserve?
    ensures Kept(t, Apply(t, rank, c))
  {
    if Apply(t, rank, c).Ok? {
      ReserveKeepsTables(t, rank, c.identity, c.neededBy, c.demand, c.reference, c.quantity);
    }
  }

  lemma ReleaseCommandKeepsTables(t: Tables, rank: Rank, c: Command)
    requires TablesOk(t) && ValidCommand(c) && TargetExists(t, c) && c.Release?
    ensures Kept(t, Apply(t, rank, c))
  {
    if c.quantity <= t.demands[c.demand].remaining {
      ReleaseKeepsTables(t, rank, c.demand, c.quantity);
      ReleaseApplied(t, rank, c.demand, c.quantity);
    }
  }

  lemma ReleaseApplied(t: Tables, rank: Rank, d: string, q: nat)
    requires ValidCommand(Release(d, q)) && d in t.demands && q <= t.demands[d].remaining
    ensures Apply(t, rank, Release(d, q)).Ok? ==> Apply(t, rank, Release(d, q)).value.0 == Releasing(t, rank, d, q)
  {
  }

  lemma TargetsStay(t: Tables, u: Tables, c: Command)
    requires Extends(t, u) && TargetExists(t, c)
    ensures TargetExists(u, c)
  {
  }

  /** `Execute` keeps the invariant, removes no row and clears no exception. */
  lemma ExecuteKeepsInv(s: State, rank: Rank, r: Request)
    requires Inv(s)
    ensures Inv(Execute(s, rank, r).0) && Extends(s.tables, Execute(s, rank, r).0.tables)
  {
    var u := Execute(s, rank, r).0;
    if u != s {
      ApplyKeepsTables(s.tables, rank, r.command);
      forall id | id in u.log
        ensures TargetExists(u.tables, u.log[id].0.command)
      {
        TargetsStay(s.tables, u.tables, u.log[id].0.command);
      }
    }
  }

  lemma {:induction false} RunKeepsInv(s: State, rank: Rank, rs: seq<Request>)
    requires Inv(s)
    ensures Inv(Run(s, rank, rs)) && Extends(s.tables, Run(s, rank, rs).tables)
    decreases |rs|
  {
    if rs != [] {
      ExecuteKeepsInv(s, rank, rs[0]);
      RunKeepsInv(Execute(s, rank, rs[0]).0, rank, rs[1..]);
    }
  }

  /** After any stream of commands, an open promise without an exception has a confirmed or received batch that
      is usable in time and holds at least everything committed from it. */
  lemma UnflaggedPromiseIsCovered(rank: Rank, rs: seq<Request>, i: nat)
    requires i < |Run(EMPTY, rank, rs).tables.commitments|
    requires var t := Run(EMPTY, rank, rs).tables;
             var c := t.commitments[i];
             c.remaining > 0 && c.demand in t.demands && t.demands[c.demand].exception == None
    ensures var t := Run(EMPTY, rank, rs).tables;
            var c := t.commitments[i];
            && c.batch < |t.batches|
            && t.batches[c.batch].status in {Confirmed, ReceiptPending}
            && t.batches[c.batch].usableAt <= t.demands[c.demand].neededBy
            && Open(t.commitments, c.batch) <= t.batches[c.batch].confirmed
  {
    RunKeepsInv(EMPTY, rank, rs);
    assert CoveredRow(Run(EMPTY, rank, rs).tables, i);
  }

  /** Each demand's remaining quantity is the sum of its commitments, after any stream of commands. */
  lemma QuantitiesBalance(rank: Rank, rs: seq<Request>, d: string)
    requires d in Run(EMPTY, rank, rs).tables.demands
    ensures var t := Run(EMPTY, rank, rs).tables; t.demands[d].remaining == OpenFor(t.commitments, d)
  {
    RunKeepsInv(EMPTY, rank, rs);
  }

  /*** Exactly once ***/

  /** A replay returns the stored receipt; a reused id with other data, or any failure, changes nothing. */
  lemma ReplayOrRefuse(s: State, rank: Rank, r: Request)
    requires Inv(s)
    ensures r.id in s.log && s.log[r.id].0 == r ==> Execute(s, rank, r) == (s, Done(s.log[r.id].1))
    ensures r.id in s.log && s.log[r.id].0 != r ==> Execute(s, rank, r).0 == s && !Execute(s, rank, r).1.Done?
    ensures !Execute(s, rank, r).1.Done? ==> Execute(s, rank, r).0 == s
    ensures Execute(s, rank, r).1.Done? && r.id !in s.log ==>
              Execute(s, rank, r).0.log == s.log[r.id := (r, Execute(s, rank, r).1.receipt)]
  {
  }

  /** The request takes effect: it is a first success under a new id. */
  predicate TakesEffect(s: State, rank: Rank, r: Request) {
    Execute(s, rank, r).1.Done? && r.id !in s.log
  }

  lemma NoEffectNoChange(s: State, rank: Rank, r: Request)
    requires Inv(s)
    ensures !TakesEffect(s, rank, r) ==> Execute(s, rank, r).0 == s
    ensures TakesEffect(s, rank, r) ==> r.id in Execute(s, rank, r).0.log
    ensures forall id <- s.log :: id in Execute(s, rank, r).0.log && Execute(s, rank, r).0.log[id] == s.log[id]
  {
    ReplayOrRefuse(s, rank, r);
  }

  /** The requests of a stream that took effect: the first success under each new id. */
  function FirstSuccesses(s: State, rank: Rank, rs: seq<Request>): seq<Request>
    decreases |rs|
  {
    if rs == [] then []
    else
      var rest := FirstSuccesses(Execute(s, rank, rs[0]).0, rank, rs[1..]);
      if TakesEffect(s, rank, rs[0]) then [rs[0]] + rest else rest
  }

  /** What was logged never changes. */
  lemma {:induction false} LogOnlyGrows(s: State, rank: Rank, rs: seq<Request>)
    requires Inv(s)
    ensures forall id <- s.log :: id in Run(s, rank, rs).log && Run(s, rank, rs).log[id] == s.log[id]
    decreases |rs|
  {
    if rs != [] {
      NoEffectNoChange(s, rank, rs[0]);
      ExecuteKeepsInv(s, rank, rs[0]);
      LogOnlyGrows(Execute(s, rank, rs[0]).0, rank, rs[1..]);
    }
  }

  predicate DistinctIds(rs: seq<Request>) {
    forall i, j | 0 <= i < j < |rs| :: rs[i].id != rs[j].id
  }

  lemma {:induction false} EffectNotLogged(s: State, rank: Rank, rs: seq<Request>, r: Request)
    requires Inv(s) && r in FirstSuccesses(s, rank, rs)
    ensures r.id !in s.log
    decreases |rs|
  {
    if !(TakesEffect(s, rank, rs[0]) && r == rs[0]) {
      NoEffectNoChange(s, rank, rs[0]);
      ExecuteKeepsInv(s, rank, rs[0]);
      EffectNotLogged(Execute(s, rank, rs[0]).0, rank, rs[1..], r);
    }
  }

  /** No request id takes effect twice. */
  lemma {:induction false} EffectsAreNew(s: State, rank: Rank, rs: seq<Request>)
    requires Inv(s)
    ensures DistinctIds(FirstSuccesses(s, rank, rs))
    decreases |rs|
  {
    if rs != [] {
      var u := Execute(s, rank, rs[0]).0;
      var rest := FirstSuccesses(u, rank, rs[1..]);
      NoEffectNoChange(s, rank, rs[0]);
      ExecuteKeepsInv(s, rank, rs[0]);
      EffectsAreNew(u, rank, rs[1..]);
      if TakesEffect(s, rank, rs[0]) {
        forall i | 0 <= i < |rest| ensures rest[i].id != rs[0].id {
          EffectNotLogged(u, rank, rs[1..], rest[i]);
        }
      }
    }
  }

  /** A stream with retries ends where the stream of its first successes ends; no request id takes effect twice
      or after it is logged, and what was logged never changes. */
  lemma ExactlyOnce(s: State, rank: Rank, rs: seq<Request>)
    requires Inv(s)
    ensures Run(s, rank, rs) == Run(s, rank, FirstSuccesses(s, rank, rs))
    ensures DistinctIds(FirstSuccesses(s, rank, rs)) && forall r <- FirstSuccesses(s, rank, rs) :: r.id !in s.log
    ensures forall id <- s.log :: id in Run(s, rank, rs).log && Run(s, rank, rs).log[id] == s.log[id]
  {
    EffectsAreNew(s, rank, rs);
    forall r | r in FirstSuccesses(s, rank, rs) ensures r.id !in s.log {
      EffectNotLogged(s, rank, rs, r);
    }
    LogOnlyGrows(s, rank, rs);
    SameEnd(s, rank, rs);
  }

  lemma {:induction false} SameEnd(s: State, rank: Rank, rs: seq<Request>)
    requires Inv(s)
    ensures Run(s, rank, rs) == Run(s, rank, FirstSuccesses(s, rank, rs))
    decreases |rs|
  {
    if rs != [] {
      var u := Execute(s, rank, rs[0]).0;
      NoEffectNoChange(s, rank, rs[0]);
      ExecuteKeepsInv(s, rank, rs[0]);
      SameEnd(u, rank, rs[1..]);
      var rest := FirstSuccesses(u, rank, rs[1..]);
      assert ([rs[0]] + rest)[1..] == rest;
    }
  }
}
