/** What exposure counts, and how far it can go over any run of reservations. */
module ExposureLaws {
  import opened Base
  import opened Text
  import opened Permutations
  import opened Sums
  import opened Exposure

  /*** Well-formed inputs ***/

  function InvoiceKey(): Key<Invoice> {
    (i: Invoice) => Some(Trim(i.txnId))
  }

  function OrderKey(): Key<Commitment> {
    (c: Commitment) => Some(Trim(c.orderId))
  }

  function LinkKey(): Key<Commitment> {
    (c: Commitment) => Link(c)
  }

  predicate InvoiceOk(i: Invoice) {
    Trim(i.txnId) != "" && Cents(i.remainingCents)
  }

  predicate CommitmentOk(c: Commitment) {
    Trim(c.orderId) != "" && Cents(c.amountCents) && Link(c) != Some("")
  }

  function Ids(invoices: seq<Invoice>): set<string> {
    set i | i in invoices :: Trim(i.txnId)
  }

  ghost predicate InvoicesOk(invoices: seq<Invoice>) {
    (forall i :: i in invoices ==> InvoiceOk(i)) && AllDistinct(invoices, InvoiceKey())
  }

  ghost predicate CommitmentsOk(commitments: seq<Commitment>) {
    && (forall c :: c in commitments ==> CommitmentOk(c))
    && AllDistinct(commitments, OrderKey()) && AllDistinct(commitments, LinkKey())
  }

  lemma IdsHead(invoices: seq<Invoice>)
    requires invoices != []
    ensures Ids(invoices) == {Trim(invoices[0].txnId)} + Ids(invoices[1..])
    ensures forall i :: i in invoices <==> i == invoices[0] || i in invoices[1..]
  {
    assert invoices == [invoices[0]] + invoices[1..];
  }

  lemma {:induction false} InvoiceScanLaw(seen: set<string>, invoices: seq<Invoice>)
    ensures InvoiceScan(seen, invoices).Ok? <==>
            && (forall i :: i in invoices ==> InvoiceOk(i) && Trim(i.txnId) !in seen) && AllDistinct(invoices, InvoiceKey())
    ensures InvoiceScan(seen, invoices).Ok? ==> InvoiceScan(seen, invoices).value == seen + Ids(invoices)
    decreases |invoices|
  {
    if invoices != [] {
      InvoiceScanLaw(seen + {Trim(invoices[0].txnId)}, invoices[1..]);
      DistinctHead(invoices, InvoiceKey());
      IdsHead(invoices);
    }
  }

  ghost predicate ApartFrom(c: Commitment, orders: set<string>, mapped: set<string>) {
    Trim(c.orderId) !in orders && (Link(c).Some? ==> Link(c).value !in mapped)
  }

  /** The second order shares neither its id nor its invoice with the first. */
  ghost predicate Differs(a: Commitment, b: Commitment) {
    OrderKey()(b) != OrderKey()(a) && (LinkKey()(a).Some? ==> LinkKey()(b) != LinkKey()(a))
  }

  lemma ErrorIff(orders: set<string>, mapped: set<string>, c: Commitment)
    ensures CommitmentError(orders, mapped, c).None? <==> CommitmentOk(c) && ApartFrom(c, orders, mapped)
  {
  }

  lemma ApartWith(head: Commitment, c: Commitment, orders: set<string>, mapped: set<string>)
    ensures ApartFrom(c, orders + {Trim(head.orderId)}, WithLink(mapped, head)) <==>
            ApartFrom(c, orders, mapped) && Differs(head, c)
  {
  }

  lemma DiffersFromAll(head: Commitment, rest: seq<Commitment>)
    ensures (forall c :: c in rest ==> Differs(head, c)) <==>
            && (OrderKey()(head).Some? ==> forall c :: c in rest ==> OrderKey()(c) != OrderKey()(head))
            && (LinkKey()(head).Some? ==> forall c :: c in rest ==> LinkKey()(c) != LinkKey()(head))
  {
    assert OrderKey()(head).Some?;
  }

  lemma EachOkHead(commitments: seq<Commitment>)
    requires commitments != []
    ensures (forall c :: c in commitments ==> CommitmentOk(c)) <==>
            CommitmentOk(commitments[0]) && forall c :: c in commitments[1..] ==> CommitmentOk(c)
  {
    assert commitments == [commitments[0]] + commitments[1..];
  }

  lemma CommitmentsHead(commitments: seq<Commitment>)
    requires commitments != []
    ensures CommitmentsOk(commitments) <==>
            && CommitmentOk(commitments[0]) && CommitmentsOk(commitments[1..])
            && forall c :: c in commitments[1..] ==> Differs(commitments[0], c)
  {
    DistinctHead(commitments, OrderKey());
    DistinctHead(commitments, LinkKey());
    EachOkHead(commitments);
    DiffersFromAll(commitments[0], commitments[1..]);
  }

  lemma {:induction false} CommitmentScanLaw(orders: set<string>, mapped: set<string>, commitments: seq<Commitment>)
    ensures CommitmentScan(orders, mapped, commitments).None? <==>
            CommitmentsOk(commitments) && forall c :: c in commitments ==> ApartFrom(c, orders, mapped)
    decreases |commitments|
  {
    if commitments != [] {
      var head, rest := commitments[0], commitments[1..];
      var orders', mapped' := orders + {Trim(head.orderId)}, WithLink(mapped, head);
      CommitmentScanLaw(orders', mapped', rest);
      ErrorIff(orders, mapped, head);
      CommitmentsHead(commitments);
      forall c ensures ApartFrom(c, orders', mapped') <==> ApartFrom(c, orders, mapped) && Differs(head, c) {
        ApartWith(head, c, orders, mapped);
      }
      assert forall c :: c in commitments <==> c == head || c in rest;
    }
  }

  /** Exposure, as a sum over the books and the commitments the books do not yet show. */
  function Total(invoices: seq<Invoice>, commitments: seq<Commitment>): int {
    Sum(invoices, Remaining()) + Sum(commitments, Counted(Ids(invoices)))
  }

  /** A calculation succeeds exactly on well-formed lists of safe total; and then it is the sum. */
  lemma CalculateIff(invoices: seq<Invoice>, commitments: seq<Commitment>, pendingCredits: seq<string>)
    ensures var r := Calculate(invoices, commitments, pendingCredits);
            && (r.Ok? <==> InvoicesOk(invoices) && CommitmentsOk(commitments) && Cents(Total(invoices, commitments)))
            && (r.Ok? ==> r.value.invoiceCents + r.value.commitmentCents == Total(invoices, commitments)
                          && r.value.invoiceCents == Sum(invoices, Remaining()))
  {
    InvoiceScanLaw({}, invoices);
    CommitmentScanLaw({}, {}, commitments);
    assert {} + Ids(invoices) == Ids(invoices);
  }

  /*** The order of the lists ***/

  /** Exposure does not depend on the order of invoices or commitments: the cents are the same, and the reasons for
      quarantine are the same reasons. */
  lemma OrderDoesNotMatter(invoices: seq<Invoice>, invoices': seq<Invoice>, commitments: seq<Commitment>,
                           commitments': seq<Commitment>, pendingCredits: seq<string>)
    requires multiset(invoices) == multiset(invoices') && multiset(commitments) == multiset(commitments')
    ensures var r, r' := Calculate(invoices, commitments, pendingCredits), Calculate(invoices', commitments', pendingCredits);
            && r.Ok? == r'.Ok?
            && (r.Ok? ==> r.value.invoiceCents == r'.value.invoiceCents && r.value.commitmentCents == r'.value.commitmentCents)
            && (r.Ok? ==> multiset(r.value.reasons) == multiset(r'.value.reasons))
  {
    SameTotal(invoices, invoices', commitments, commitments');
    SameWellFormed(invoices, invoices', commitments, commitments');
    CalculateIff(invoices, commitments, pendingCredits);
    CalculateIff(invoices', commitments', pendingCredits);
    if Calculate(invoices, commitments, pendingCredits).Ok? {
      CalculatedReasons(invoices, commitments, pendingCredits);
      CalculatedReasons(invoices', commitments', pendingCredits);
      FlatPermutes(commitments, commitments', (c: Commitment) => ReasonsFor(c, Ids(invoices)));
    }
  }

  lemma CalculatedReasons(invoices: seq<Invoice>, commitments: seq<Commitment>, pendingCredits: seq<string>)
    requires Calculate(invoices, commitments, pendingCredits).Ok?
    ensures Calculate(invoices, commitments, pendingCredits).value.reasons ==
            AllReasons(commitments, Ids(invoices)) + (if pendingCredits != [] then [CreditWaitingForReadback] else [])
  {
    InvoiceScanLaw({}, invoices);
    assert {} + Ids(invoices) == Ids(invoices);
  }

  lemma SameTotal(invoices: seq<Invoice>, invoices': seq<Invoice>, commitments: seq<Commitment>, commitments': seq<Commitment>)
    requires multiset(invoices) == multiset(invoices') && multiset(commitments) == multiset(commitments')
    ensures Ids(invoices) == Ids(invoices')
    ensures Sum(invoices, Remaining()) == Sum(invoices', Remaining())
    ensures Total(invoices, commitments) == Total(invoices', commitments')
  {
    SameMembers(invoices, invoices');
    SumPermutes(invoices, invoices', Remaining());
    SumPermutes(commitments, commitments', Counted(Ids(invoices)));
  }

  lemma SameWellFormed(invoices: seq<Invoice>, invoices': seq<Invoice>, commitments: seq<Commitment>, commitments': seq<Commitment>)
    requires multiset(invoices) == multiset(invoices') && multiset(commitments) == multiset(commitments')
    ensures InvoicesOk(invoices) == InvoicesOk(invoices') && CommitmentsOk(commitments) == CommitmentsOk(commitments')
  {
    SameMembers(invoices, invoices');
    SameMembers(commitments, commitments');
    if AllDistinct(invoices, InvoiceKey()) { DistinctPermutes(invoices, invoices', InvoiceKey()); }
    if AllDistinct(invoices', InvoiceKey()) { DistinctPermutes(invoices', invoices, InvoiceKey()); }
    if AllDistinct(commitments, OrderKey()) { DistinctPermutes(commitments, commitments', OrderKey()); }
    if AllDistinct(commitments', OrderKey()) { DistinctPermutes(commitments', commitments, OrderKey()); }
    if AllDistinct(commitments, LinkKey()) { DistinctPermutes(commitments, commitments', LinkKey()); }
    if AllDistinct(commitments', LinkKey()) { DistinctPermutes(commitments', commitments, LinkKey()); }
  }

  /*** No credit is counted twice ***/

  /** When the books come to show an order's invoice, its balance takes the commitment's place in the total. */
  lemma InvoiceReplacesCommitment(invoices: seq<Invoice>, commitments: seq<Commitment>, k: nat, invoice: Invoice)
    requires k < |commitments| && Outstanding(commitments[k], Ids(invoices))
    requires Link(commitments[k]) == Some(Trim(invoice.txnId)) && AllDistinct(commitments, LinkKey())
    ensures Total(invoices + [invoice], commitments) ==
            Total(invoices, commitments) - commitments[k].amountCents + invoice.remainingCents
  {
    var read, read' := Ids(invoices), Ids(invoices + [invoice]);
    assert read' == read + {Trim(invoice.txnId)};
    SumSnoc(invoices, invoice, Remaining());
    SumWithout(commitments, k, Counted(read));
    SumWithout(commitments, k, Counted(read'));
    OthersCountTheSame(commitments, k, read, Trim(invoice.txnId));
  }

  lemma OthersCountTheSame(commitments: seq<Commitment>, k: nat, read: set<string>, id: string)
    requires k < |commitments| && Link(commitments[k]) == Some(id) && AllDistinct(commitments, LinkKey())
    ensures var rest := commitments[..k] + commitments[k + 1..];
            Sum(rest, Counted(read)) == Sum(rest, Counted(read + {id}))
  {
    var rest := commitments[..k] + commitments[k + 1..];
    forall c | c in rest ensures Counted(read)(c) == Counted(read + {id})(c) {
      var i :| 0 <= i < |rest| && rest[i] == c;
      var i' := if i < k then i else i + 1;
      assert commitments[i'] == c;
      assert LinkKey()(commitments[i']) == Link(c) && LinkKey()(commitments[k]) == Link(commitments[k]);
    }
    SumsAgree(rest, Counted(read), Counted(read + {id}));
  }

  /*** Over runs of reservations ***/

  lemma {:induction false} NewOrderRows(rows: seq<Commitment>, c: Commitment)
    requires SameOrder(rows, c.orderId) == []
    ensures OtherOrders(rows, c.orderId) == rows && Upsert(rows, c) == rows + [c]
  {
    if rows != [] {
      NewOrderRows(rows[1..], c);
    }
  }

  lemma {:induction false} StoredOrderRows(rows: seq<Commitment>, c: Commitment)
    requires SameOrder(rows, c.orderId) != []
    ensures exists k :: 0 <= k < |rows| && rows[k] == SameOrder(rows, c.orderId)[0] && Upsert(rows, c) == rows[k := c]
  {
    if rows[0].orderId == c.orderId {
      assert Upsert(rows, c) == rows[0 := c];
    } else {
      StoredOrderRows(rows[1..], c);
      var k :| 0 <= k < |rows[1..]| && rows[1..][k] == SameOrder(rows[1..], c.orderId)[0] && Upsert(rows[1..], c) == rows[1..][k := c];
      assert Upsert(rows, c) == rows[k + 1 := c] && rows[k + 1] == rows[1..][k];
    }
  }

  /** A new order is admitted only if exposure with it stays within the limit; otherwise the store is as it was. */
  lemma NewOrderWithinLimit(rows: seq<Commitment>, call: Call)
    requires SameOrder(rows, call.commitment.orderId) == []
    ensures var r := Reserve(rows, call);
            if r.Ok? && r.value.Reserved? then
              && After(rows, call) == rows + [call.commitment] && call.limitCents.Some?
              && Total(call.invoices, rows + [call.commitment]) <= r.value.projectedCents <= call.limitCents.value
              && (Outstanding(call.commitment, Ids(call.invoices)) ==>
                    Total(call.invoices, rows + [call.commitment]) == r.value.projectedCents)
            else After(rows, call) == rows
  {
    NewOrderRows(rows, call.commitment);
    WithNewOrder(call.invoices, rows, call.commitment);
    if Reserve(rows, call).Ok? && Reserve(rows, call).value.Reserved? {
      CalculateIff(call.invoices, rows, call.pendingCredits);
    }
  }

  lemma WithNewOrder(invoices: seq<Invoice>, rows: seq<Commitment>, c: Commitment)
    ensures Total(invoices, rows + [c]) == Total(invoices, rows) + Counted(Ids(invoices))(c)
  {
    SumSnoc(rows, c, Counted(Ids(invoices)));
  }

  /** How much a call raises the amount of an order already stored. */
  function Raise(rows: seq<Commitment>, call: Call): nat {
    var same := SameOrder(rows, call.commitment.orderId);
    if |same| == 1 then Max(0, call.commitment.amountCents - same[0].amountCents) else 0
  }

  lemma StoredOrderRaise(rows: seq<Commitment>, call: Call)
    requires SameOrder(rows, call.commitment.orderId) != []
    ensures Total(call.invoices, After(rows, call)) <= Total(call.invoices, rows) + Raise(rows, call)
  {
    var same := SameOrder(rows, call.commitment.orderId);
    if After(rows, call) != rows {
      StoredOrderRows(rows, call.commitment);
      var k :| 0 <= k < |rows| && rows[k] == same[0] && Upsert(rows, call.commitment) == rows[k := call.commitment];
      SumUpdated(rows, k, call.commitment, Counted(Ids(call.invoices)));
    }
  }

  function Run(rows: seq<Commitment>, calls: seq<Call>): seq<Commitment>
    decreases |calls|
  {
    if calls == [] then rows else Run(After(rows, calls[0]), calls[1..])
  }

  function Raises(rows: seq<Commitment>, calls: seq<Call>): nat
    decreases |calls|
  {
    if calls == [] then 0 else Raise(rows, calls[0]) + Raises(After(rows, calls[0]), calls[1..])
  }

  /** Over any run against the same books and limit, exposure passes the limit, or its start, by no more than refreshes
      of orders already stored have raised it. */
  lemma {:induction false} RunStaysWithinLimit(rows: seq<Commitment>, calls: seq<Call>, invoices: seq<Invoice>, limit: int)
    requires forall call :: call in calls ==> call.invoices == invoices && call.limitCents == Some(limit)
    ensures Total(invoices, Run(rows, calls)) <= Max(limit, Total(invoices, rows)) + Raises(rows, calls)
    decreases |calls|
  {
    if calls != [] {
      var call, next := calls[0], After(rows, calls[0]);
      if SameOrder(rows, call.commitment.orderId) == [] {
        NewOrderWithinLimit(rows, call);
      } else {
        StoredOrderRaise(rows, call);
      }
      RunStaysWithinLimit(next, calls[1..], invoices, limit);
    }
  }

  ghost predicate OneRowPerOrder(rows: seq<Commitment>) {
    forall i, j :: 0 <= i < j < |rows| ==> rows[i].orderId != rows[j].orderId
  }

  lemma {:induction false} SameOrderLaw(rows: seq<Commitment>, id: string)
    ensures SameOrder(rows, id) == [] <==> forall i :: 0 <= i < |rows| ==> rows[i].orderId != id
    ensures forall c :: c in SameOrder(rows, id) ==> c in rows && c.orderId == id
  {
    if rows != [] {
      SameOrderLaw(rows[1..], id);
      if SameOrder(rows, id) == [] {
        forall i | 0 <= i < |rows| ensures rows[i].orderId != id {
          assert i > 0 ==> rows[i] == rows[1..][i - 1];
        }
      }
    }
  }

  lemma CallKeepsOneRow(rows: seq<Commitment>, call: Call)
    requires OneRowPerOrder(rows)
    ensures OneRowPerOrder(After(rows, call))
  {
    SameOrderLaw(rows, call.commitment.orderId);
    if SameOrder(rows, call.commitment.orderId) == [] {
      NewOrderRows(rows, call.commitment);
    } else {
      StoredOrderRows(rows, call.commitment);
      assert SameOrder(rows, call.commitment.orderId)[0].orderId == call.commitment.orderId;
    }
  }

  /** A refresh never makes a second row: from an empty store, an order has at most one row after any run. */
  lemma {:induction false} RunKeepsOneRow(rows: seq<Commitment>, calls: seq<Call>)
    requires OneRowPerOrder(rows)
    ensures OneRowPerOrder(Run(rows, calls))
    decreases |calls|
  {
    if calls != [] {
      CallKeepsOneRow(rows, calls[0]);
      RunKeepsOneRow(After(rows, calls[0]), calls[1..]);
    }
  }
}
