/** What a credit reservation promises, told from the books and the stored commitments. */
module ExposurePromises {
  import opened Base
  import opened Text
  import opened Permutations
  import opened Sums
  import opened Exposure
  import opened ExposureLaws

  /*** One commitment against the books ***/

  predicate Unlinked(c: Commitment) {
    c.invoiceTxnId == None || c.invoiceTxnId == Some("")
  }

  /** The books show the commitment's invoice. */
  predicate ShownIn(invoices: seq<Invoice>, c: Commitment) {
    !Unlinked(c) && exists i :: 0 <= i < |invoices| && Trim(invoices[i].txnId) == Trim(c.invoiceTxnId.value)
  }

  /** The commitment still takes up credit: the books do not show it, it is not settled, and if it was cancelled it had been
      posted. */
  predicate StillOwed(invoices: seq<Invoice>, c: Commitment) {
    !ShownIn(invoices, c) && c.state != Reconciled && (c.state == Cancelled ==> !Unlinked(c))
  }

  function Owed(invoices: seq<Invoice>): Commitment -> int {
    (c: Commitment) => if StillOwed(invoices, c) then c.amountCents else 0
  }

  /** What the books and the commitments come to. */
  function Exposed(invoices: seq<Invoice>, commitments: seq<Commitment>): int {
    Sum(invoices, (i: Invoice) => i.remainingCents) + Sum(commitments, Owed(invoices))
  }

  lemma LinkIs(c: Commitment)
    ensures Unlinked(c) <==> Link(c).None?
    ensures !Unlinked(c) ==> Link(c) == Some(Trim(c.invoiceTxnId.value))
  {
  }

  lemma OwedIff(invoices: seq<Invoice>, c: Commitment)
    ensures Outstanding(c, Ids(invoices)) <==> StillOwed(invoices, c)
  {
    LinkIs(c);
    if !Unlinked(c) && Link(c).value in Ids(invoices) {
      var x :| x in invoices && Trim(x.txnId) == Link(c).value;
      var i :| 0 <= i < |invoices| && invoices[i] == x;
      assert ShownIn(invoices, c);
    }
    if ShownIn(invoices, c) {
      var i :| 0 <= i < |invoices| && Trim(invoices[i].txnId) == Trim(c.invoiceTxnId.value);
      assert invoices[i] in invoices;
    }
  }

  lemma ExposedIs(invoices: seq<Invoice>, commitments: seq<Commitment>)
    ensures Sum(commitments, Counted(Ids(invoices))) == Sum(commitments, Owed(invoices))
    ensures Exposed(invoices, commitments) == Total(invoices, commitments)
  {
    forall c ensures Counted(Ids(invoices))(c) == Owed(invoices)(c) {
      OwedIff(invoices, c);
    }
    SumsAgree(commitments, Counted(Ids(invoices)), Owed(invoices));
    SumsAgree(invoices, Remaining(), (i: Invoice) => i.remainingCents);
  }

  /*** Lists that can be counted ***/

  ghost predicate SoundBooks(invoices: seq<Invoice>) {
    && (forall i :: 0 <= i < |invoices| ==> Trim(invoices[i].txnId) != "" && Cents(invoices[i].remainingCents))
    && (forall i, j :: 0 <= i < j < |invoices| ==> Trim(invoices[i].txnId) != Trim(invoices[j].txnId))
  }

  predicate SoundOrder(c: Commitment) {
    Trim(c.orderId) != "" && Cents(c.amountCents) && (Unlinked(c) || Trim(c.invoiceTxnId.value) != "")
  }

  /** Two orders are not the same order, and do not share an invoice. */
  predicate Apart(a: Commitment, b: Commitment) {
    && Trim(a.orderId) != Trim(b.orderId)
    && (!Unlinked(a) && !Unlinked(b) ==> Trim(a.invoiceTxnId.value) != Trim(b.invoiceTxnId.value))
  }

  ghost predicate SoundOrders(commitments: seq<Commitment>) {
    && (forall i :: 0 <= i < |commitments| ==> SoundOrder(commitments[i]))
    && (forall i, j :: 0 <= i < j < |commitments| ==> Apart(commitments[i], commitments[j]))
  }

  lemma BooksIff(invoices: seq<Invoice>)
    ensures InvoicesOk(invoices) <==> SoundBooks(invoices)
  {
    if InvoicesOk(invoices) {
      forall i | 0 <= i < |invoices| ensures InvoiceOk(invoices[i]) {
        assert invoices[i] in invoices;
      }
      forall i, j | 0 <= i < j < |invoices| ensures Trim(invoices[i].txnId) != Trim(invoices[j].txnId) {
        assert InvoiceKey()(invoices[i]) != InvoiceKey()(invoices[j]);
      }
    }
  }

  lemma ApartIff(a: Commitment, b: Commitment)
    ensures Apart(a, b) <==> OrderKey()(a) != OrderKey()(b) && (LinkKey()(a).Some? ==> LinkKey()(a) != LinkKey()(b))
  {
    LinkIs(a);
    LinkIs(b);
  }

  lemma OrdersIff(commitments: seq<Commitment>)
    ensures CommitmentsOk(commitments) <==> SoundOrders(commitments)
  {
    forall i | 0 <= i < |commitments| ensures CommitmentOk(commitments[i]) <==> SoundOrder(commitments[i]) {
      LinkIs(commitments[i]);
    }
    forall i, j | 0 <= i < j < |commitments|
      ensures Apart(commitments[i], commitments[j]) <==>
              && OrderKey()(commitments[i]) != OrderKey()(commitments[j])
              && (LinkKey()(commitments[i]).Some? ==> LinkKey()(commitments[i]) != LinkKey()(commitments[j]))
    {
      ApartIff(commitments[i], commitments[j]);
    }
    if CommitmentsOk(commitments) {
      forall i | 0 <= i < |commitments| ensures CommitmentOk(commitments[i]) {
        assert commitments[i] in commitments;
      }
      forall i, j | 0 <= i < j < |commitments| ensures Apart(commitments[i], commitments[j]) {
        assert OrderKey()(commitments[i]).Some?;
      }
    }
    if SoundOrders(commitments) {
      forall i, j | 0 <= i < j < |commitments| ensures OrderKey()(commitments[i]) != OrderKey()(commitments[j]) {
        assert Apart(commitments[i], commitments[j]);
      }
    }
  }

  /*** Reasons for doubt ***/

  /** A commitment that was posted, or cancelled after it was, and that the books do not show. */
  predicate InDoubt(invoices: seq<Invoice>, c: Commitment) {
    StillOwed(invoices, c) && (c.state == Posted || c.state == Cancelled)
  }

  /** The reason names the doubt about this commitment. */
  predicate Names(invoices: seq<Invoice>, c: Commitment, reason: Reason) {
    match reason
    case PostedWithoutInvoiceIdentity(id) => InDoubt(invoices, c) && c.state == Posted && Unlinked(c) && id == Trim(c.orderId)
    case PostedInvoiceNotInRead(id) => InDoubt(invoices, c) && c.state == Posted && !Unlinked(c) && id == Trim(c.orderId)
    case PostedCancellationWaiting(id) => InDoubt(invoices, c) && c.state == Cancelled && id == Trim(c.orderId)
    case CreditWaitingForReadback => false
  }

  /** The reasons are those of the commitments in doubt, and of credits that wait. */
  ghost predicate Doubts(invoices: seq<Invoice>, commitments: seq<Commitment>, pendingCredits: seq<string>, reasons: seq<Reason>) {
    forall reason :: reason in reasons <==>
      || (reason == CreditWaitingForReadback && pendingCredits != [])
      || exists i :: 0 <= i < |commitments| && Names(invoices, commitments[i], reason)
  }

  lemma NamesIff(invoices: seq<Invoice>, c: Commitment, reason: Reason)
    ensures reason in ReasonsFor(c, Ids(invoices)) <==> Names(invoices, c, reason)
  {
    OwedIff(invoices, c);
    LinkIs(c);
  }

  lemma {:induction false} AllReasonsIff(invoices: seq<Invoice>, commitments: seq<Commitment>, reason: Reason)
    ensures reason in AllReasons(commitments, Ids(invoices)) <==>
            exists i :: 0 <= i < |commitments| && Names(invoices, commitments[i], reason)
  {
    if commitments != [] {
      AllReasonsIff(invoices, commitments[1..], reason);
      NamesIff(invoices, commitments[0], reason);
      if i :| 0 <= i < |commitments| && Names(invoices, commitments[i], reason) {
        assert i > 0 ==> commitments[i] == commitments[1..][i - 1];
      }
      if j :| 0 <= j < |commitments[1..]| && Names(invoices, commitments[1..][j], reason) {
        assert commitments[j + 1] == commitments[1..][j];
      }
    }
  }

  /** The exposure is what the books and commitments come to, with every reason to doubt it. */
  ghost predicate Exposes(invoices: seq<Invoice>, commitments: seq<Commitment>, pendingCredits: seq<string>, x: Exposure) {
    && x.invoiceCents == Sum(invoices, (i: Invoice) => i.remainingCents)
    && x.invoiceCents + x.commitmentCents == Exposed(invoices, commitments)
    && Doubts(invoices, commitments, pendingCredits, x.reasons)
  }

  lemma ExposureIff(invoices: seq<Invoice>, commitments: seq<Commitment>, pendingCredits: seq<string>)
    ensures var r := Calculate(invoices, commitments, pendingCredits);
            && (r.Ok? <==> SoundBooks(invoices) && SoundOrders(commitments) && Cents(Exposed(invoices, commitments)))
            && (r.Ok? ==> Exposes(invoices, commitments, pendingCredits, r.value))
  {
    CalculateIff(invoices, commitments, pendingCredits);
    BooksIff(invoices);
    OrdersIff(commitments);
    ExposedIs(invoices, commitments);
    if Calculate(invoices, commitments, pendingCredits).Ok? {
      CalculatedDoubts(invoices, commitments, pendingCredits);
      SumsAgree(invoices, Remaining(), (i: Invoice) => i.remainingCents);
    }
  }

  lemma CalculatedDoubts(invoices: seq<Invoice>, commitments: seq<Commitment>, pendingCredits: seq<string>)
    requires Calculate(invoices, commitments, pendingCredits).Ok?
    ensures Doubts(invoices, commitments, pendingCredits, Calculate(invoices, commitments, pendingCredits).value.reasons)
  {
    var reasons := Calculate(invoices, commitments, pendingCredits).value.reasons;
    CalculatedReasons(invoices, commitments, pendingCredits);
    forall reason ensures reason in reasons <==>
      || (reason == CreditWaitingForReadback && pendingCredits != [])
      || exists i :: 0 <= i < |commitments| && Names(invoices, commitments[i], reason)
    {
      AllReasonsIff(invoices, commitments, reason);
    }
  }

  lemma NoDoubtIff(invoices: seq<Invoice>, commitments: seq<Commitment>, pendingCredits: seq<string>, reasons: seq<Reason>)
    requires Doubts(invoices, commitments, pendingCredits, reasons)
    ensures reasons == [] <==> pendingCredits == [] && forall i :: 0 <= i < |commitments| ==> !InDoubt(invoices, commitments[i])
  {
    if reasons != [] {
      assert reasons[0] in reasons;
    }
    if pendingCredits != [] {
      assert CreditWaitingForReadback in reasons;
    }
    if i :| 0 <= i < |commitments| && InDoubt(invoices, commitments[i]) {
      var id := Trim(commitments[i].orderId);
      var reason := if commitments[i].state == Cancelled then PostedCancellationWaiting(id)
                    else if Unlinked(commitments[i]) then PostedWithoutInvoiceIdentity(id) else PostedInvoiceNotInRead(id);
      assert Names(invoices, commitments[i], reason);
      assert reason in reasons;
    }
  }

  /*** A reservation ***/

  /** The other orders of the account, each as often as it is stored. */
  ghost predicate OthersAre(rows: seq<Commitment>, orderId: string, others: seq<Commitment>) {
    forall c :: multiset(others)[c] == if c.orderId != orderId then multiset(rows)[c] else 0
  }

  lemma {:induction false} OthersLaw(rows: seq<Commitment>, orderId: string)
    ensures OthersAre(rows, orderId, OtherOrders(rows, orderId))
  {
    if rows != [] {
      OthersLaw(rows[1..], orderId);
      assert rows == [rows[0]] + rows[1..];
      assert [] + OtherOrders(rows[1..], orderId) == OtherOrders(rows[1..], orderId);
    }
  }

  /** The order is not stored, or only once, as accepted and without an invoice. */
  ghost predicate Reservable(rows: seq<Commitment>, orderId: string) {
    && (forall i, j :: 0 <= i < j < |rows| && rows[i].orderId == orderId ==> rows[j].orderId != orderId)
    && (forall i :: 0 <= i < |rows| && rows[i].orderId == orderId ==> rows[i].state == Accepted && Unlinked(rows[i]))
  }

  lemma {:induction false} ReservableIff(rows: seq<Commitment>, orderId: string)
    ensures Blocked(SameOrder(rows, orderId)) <==> !Reservable(rows, orderId)
    ensures |SameOrder(rows, orderId)| == 0 <==> forall i :: 0 <= i < |rows| ==> rows[i].orderId != orderId
  {
    if rows != [] {
      var rest := rows[1..];
      ReservableIff(rest, orderId);
      assert forall i :: 0 <= i < |rest| ==> rest[i] == rows[i + 1];
      assert forall i :: 0 < i < |rows| ==> rows[i] == rest[i - 1];
      assert [] + SameOrder(rest, orderId) == SameOrder(rest, orderId);
      ReservableHead(rows, orderId);
      LinkIs(rows[0]);
    }
  }

  lemma ReservableHead(rows: seq<Commitment>, orderId: string)
    requires rows != []
    ensures Reservable(rows, orderId) <==>
            if rows[0].orderId != orderId then Reservable(rows[1..], orderId)
            else rows[0].state == Accepted && Unlinked(rows[0]) && forall i :: 0 <= i < |rows[1..]| ==> rows[1..][i].orderId != orderId
  {
    var rest := rows[1..];
    assert forall i :: 0 <= i < |rest| ==> rest[i] == rows[i + 1];
    assert forall i :: 0 < i < |rows| ==> rows[i] == rest[i - 1];
  }

  /** The call is from a named account and for a valid accepted order. */
  predicate Considered(call: Call) {
    && call.enabled && Trim(call.companyKey) != "" && Trim(call.customerListId) != ""
    && call.commitment.state == Accepted && Cents(call.commitment.amountCents)
  }

  predicate LimitKnown(call: Call) {
    call.limitCents.Some? && 1 <= call.limitCents.value <= 9_007_199_254_740_991
  }

  /** What the account would come to with the order. */
  function Projected(others: seq<Commitment>, call: Call): int {
    Exposed(call.invoices, others) + call.commitment.amountCents
  }

  ghost predicate Measurable(others: seq<Commitment>, call: Call) {
    && SoundBooks(call.invoices) && SoundOrders(others)
    && Cents(Exposed(call.invoices, others)) && Cents(Projected(others, call))
  }

  /** Nothing is in doubt. */
  predicate Certain(others: seq<Commitment>, call: Call) {
    call.pendingCredits == [] && forall i :: 0 <= i < |others| ==> !InDoubt(call.invoices, others[i])
  }

  /** The decision the account's rows and books call for: reserved exactly when everything is known, nothing is in doubt,
      and the order fits in the limit; otherwise held for the first reason that applies. */
  ghost predicate Decides(rows: seq<Commitment>, others: seq<Commitment>, call: Call, r: Result<Decision, Error>) {
    if !call.enabled then r == Ok(Hold(FeatureDisabled, None))
    else if !Considered(call) then r.Err?
    else if !Reservable(rows, call.commitment.orderId) then r == Ok(Hold(ExistingNotReservable, None))
    else if !call.sourceFresh then r == Ok(Hold(StaleExposure, None))
    else if !LimitKnown(call) then r == Ok(Hold(MissingCreditLimit, None))
    else if !Measurable(others, call) then r.Err?
    else if !Certain(others, call) then r == Ok(Hold(ReconciliationUncertain, Some(Projected(others, call))))
    else if call.limitCents.value < Projected(others, call) then r == Ok(Hold(CreditLimitExceeded, Some(Projected(others, call))))
    else
      && r.Ok? && r.value.Reserved? && r.value.projectedCents == Projected(others, call)
      && Exposes(call.invoices, others, call.pendingCredits, r.value.exposure)
  }

  ghost predicate IsStored(rows: seq<Commitment>, orderId: string) {
    exists i :: 0 <= i < |rows| && rows[i].orderId == orderId
  }

  /** The order's one row is replaced. */
  ghost predicate Replaced(rows: seq<Commitment>, c: Commitment, rows': seq<Commitment>) {
    exists i :: 0 <= i < |rows| && rows[i].orderId == c.orderId && rows' == rows[i := c]
  }

  /** What is stored afterwards: an order already stored takes the call's amount even when it is held, a new order is added
      only when it is reserved, and nothing else changes. */
  ghost predicate Stores(rows: seq<Commitment>, call: Call, r: Result<Decision, Error>, rows': seq<Commitment>) {
    if r.Ok? && Considered(call) && Reservable(rows, call.commitment.orderId) && IsStored(rows, call.commitment.orderId) then
      Replaced(rows, call.commitment, rows')
    else if r.Ok? && r.value.Reserved? then rows' == rows + [call.commitment]
    else rows' == rows
  }

  lemma ConsideredIff(call: Call)
    ensures Refusal(call).None? <==> Considered(call)
    ensures !call.enabled ==> Refusal(call) == Some(Ok(Hold(FeatureDisabled, None)))
    ensures call.enabled && Refusal(call).Some? ==> Refusal(call).value.Err?
  {
  }

  lemma MeasuredDecision(others: seq<Commitment>, call: Call, exposure: Result<Exposure, Error>)
    requires exposure == Calculate(call.invoices, others, call.pendingCredits)
    ensures exposure.Ok? && Cents(exposure.value.invoiceCents + exposure.value.commitmentCents + call.commitment.amountCents) <==>
            Measurable(others, call)
    ensures exposure.Ok? ==>
              && exposure.value.invoiceCents + exposure.value.commitmentCents + call.commitment.amountCents == Projected(others, call)
              && (exposure.value.reasons == [] <==> Certain(others, call))
              && Exposes(call.invoices, others, call.pendingCredits, exposure.value)
  {
    ExposureIff(call.invoices, others, call.pendingCredits);
    if exposure.Ok? {
      NoDoubtIff(call.invoices, others, call.pendingCredits, exposure.value.reasons);
    }
  }

  /** The decision on an exposure already calculated. */
  lemma DecideOn(rows: seq<Commitment>, call: Call, exposure: Result<Exposure, Error>, projected: int)
    requires exposure == Calculate(call.invoices, OtherOrders(rows, call.commitment.orderId), call.pendingCredits)
    requires exposure.Ok? ==>
               projected == exposure.value.invoiceCents + exposure.value.commitmentCents + call.commitment.amountCents
    ensures var r := Decide(rows, call);
            if Blocked(SameOrder(rows, call.commitment.orderId)) then r == Ok(Hold(ExistingNotReservable, None))
            else if !call.sourceFresh then r == Ok(Hold(StaleExposure, None))
            else if !LimitKnown(call) then r == Ok(Hold(MissingCreditLimit, None))
            else if exposure.Err? || !Cents(projected) then r.Err?
            else if exposure.value.reasons != [] then r == Ok(Hold(ReconciliationUncertain, Some(projected)))
            else if call.limitCents.value < projected then r == Ok(Hold(CreditLimitExceeded, Some(projected)))
            else r == Ok(Reserved(projected, exposure.value))
  {
  }

  lemma DecideRight(rows: seq<Commitment>, call: Call)
    requires Considered(call)
    ensures Decides(rows, OtherOrders(rows, call.commitment.orderId), call, Decide(rows, call))
  {
    var others := OtherOrders(rows, call.commitment.orderId);
    var exposure := Calculate(call.invoices, others, call.pendingCredits);
    ReservableIff(rows, call.commitment.orderId);
    MeasuredDecision(others, call, exposure);
    DecideOn(rows, call, exposure, Projected(others, call));
  }

  /** A call decides and stores exactly as the account's rows, the books and the limit call for. */
  lemma ReserveRight(rows: seq<Commitment>, call: Call) returns (others: seq<Commitment>)
    ensures OthersAre(rows, call.commitment.orderId, others)
    ensures Decides(rows, others, call, Reserve(rows, call))
    ensures Stores(rows, call, Reserve(rows, call), After(rows, call))
  {
    others := OtherOrders(rows, call.commitment.orderId);
    OthersLaw(rows, call.commitment.orderId);
    ConsideredIff(call);
    if Considered(call) {
      DecideRight(rows, call);
      StoreRight(rows, call);
    }
  }

  lemma StoreRight(rows: seq<Commitment>, call: Call)
    requires Considered(call) && Refusal(call).None?
    ensures Stores(rows, call, Reserve(rows, call), After(rows, call))
  {
    var id := call.commitment.orderId;
    ReservableIff(rows, id);
    DecideRight(rows, call);
    if IsStored(rows, id) {
      StoredOrderRows(rows, call.commitment);
      SameOrderLaw(rows, id);
    } else {
      NewOrderRows(rows, call.commitment);
    }
  }
}
