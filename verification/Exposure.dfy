/** Institutional credit: exposure from the books' invoices and local commitments, and reservations under an account's
    lock. */
module Exposure {
  import opened Base
  import opened Sums
  import opened Text

  datatype Invoice = Invoice(txnId: string, remainingCents: int)

  datatype CommitmentState = Accepted | Posting | Posted | Cancelled | Reconciled

  datatype Commitment = Commitment(orderId: string, amountCents: int, state: CommitmentState, invoiceTxnId: Option<string>)

  datatype Reason =
    | PostedWithoutInvoiceIdentity(orderId: string)
    | PostedInvoiceNotInRead(orderId: string)
    | PostedCancellationWaiting(orderId: string)
    | CreditWaitingForReadback

  datatype Exposure = Exposure(invoiceCents: int, commitmentCents: int, reasons: seq<Reason>)

  datatype Error =
    | MissingId
    | DuplicateInvoice
    | InvalidBalance
    | DuplicateOrder
    | InvalidCommitment
    | InvoiceLinkedTwice
    | UnsafePrecision
    | NotReservable

  /** The link to an invoice, if there is one: an empty id is none. */
  function Link(c: Commitment): Option<string> {
    if c.invoiceTxnId.None? || c.invoiceTxnId.value == "" then None else Some(Trim(c.invoiceTxnId.value))
  }

  /*** One commitment against the ids of a complete read ***/

  predicate Outstanding(c: Commitment, read: set<string>) {
    && !(Link(c).Some? && Link(c).value in read)
    && c.state != Reconciled && !(c.state == Cancelled && Link(c).None?)
  }

  function Counted(read: set<string>): Commitment -> int {
    (c: Commitment) => if Outstanding(c, read) then c.amountCents else 0
  }

  function ReasonsFor(c: Commitment, read: set<string>): seq<Reason> {
    if !Outstanding(c, read) then []
    else if c.state == Posted then
      [if Link(c).None? then PostedWithoutInvoiceIdentity(Trim(c.orderId)) else PostedInvoiceNotInRead(Trim(c.orderId))]
    else if c.state == Cancelled then [PostedCancellationWaiting(Trim(c.orderId))]
    else []
  }

  function Remaining(): Invoice -> int {
    (i: Invoice) => i.remainingCents
  }

  /*** The two scans ***/

  function InvoiceScan(seen: set<string>, invoices: seq<Invoice>): Result<set<string>, Error>
    decreases |invoices|
  {
    if invoices == [] then Ok(seen)
    else
      var id := Trim(invoices[0].txnId);
      if id == "" then Err(MissingId)
      else if id in seen then Err(DuplicateInvoice)
      else if !Cents(invoices[0].remainingCents) then Err(InvalidBalance)
      else InvoiceScan(seen + {id}, invoices[1..])
  }

  function CommitmentError(orders: set<string>, mapped: set<string>, c: Commitment): Option<Error> {
    if Trim(c.orderId) == "" then Some(MissingId)
    else if Trim(c.orderId) in orders then Some(DuplicateOrder)
    else if !Cents(c.amountCents) then Some(InvalidCommitment)
    else if Link(c) == Some("") then Some(MissingId)
    else if Link(c).Some? && Link(c).value in mapped then Some(InvoiceLinkedTwice)
    else None
  }

  function WithLink(mapped: set<string>, c: Commitment): set<string> {
    if Link(c).Some? then mapped + {Link(c).value} else mapped
  }

  function CommitmentScan(orders: set<string>, mapped: set<string>, commitments: seq<Commitment>): Option<Error>
    decreases |commitments|
  {
    if commitments == [] then None
    else
      match CommitmentError(orders, mapped, commitments[0])
      case Some(error) => Some(error)
      case None => CommitmentScan(orders + {Trim(commitments[0].orderId)}, WithLink(mapped, commitments[0]), commitments[1..])
  }

  function AllReasons(commitments: seq<Commitment>, read: set<string>): seq<Reason> {
    Flat(commitments, (c: Commitment) => ReasonsFor(c, read))
  }

  function Calculate(invoices: seq<Invoice>, commitments: seq<Commitment>, pendingCredits: seq<string>): Result<Exposure, Error> {
    match InvoiceScan({}, invoices)
    case Err(error) => Err(error)
    case Ok(read) =>
      match CommitmentScan({}, {}, commitments)
      case Some(error) => Err(error)
      case None =>
        var invoiceCents, commitmentCents := Sum(invoices, Remaining()), Sum(commitments, Counted(read));
        if !Cents(invoiceCents + commitmentCents) then Err(UnsafePrecision)
        else Ok(Exposure(invoiceCents, commitmentCents,
                         AllReasons(commitments, read) + (if pendingCredits != [] then [CreditWaitingForReadback] else [])))
  }

  /** The first loop: collect the ids of the read and add up what its invoices leave unpaid. */
  method ScanInvoices(invoices: seq<Invoice>) returns (r: Result<set<string>, Error>, cents: int)
    ensures r == InvoiceScan({}, invoices)
    ensures r.Ok? ==> cents == Sum(invoices, Remaining())
  {
    var read: set<string> := {};
    cents := 0;
    for i := 0 to |invoices|
      invariant InvoiceScan({}, invoices) == InvoiceScan(read, invoices[i..])
      invariant cents == Sum(invoices[..i], Remaining())
    {
      var id := Trim(invoices[i].txnId);
      assert invoices[i..][1..] == invoices[i + 1..];
      if id == "" { return Err(MissingId), cents; }
      if id in read { return Err(DuplicateInvoice), cents; }
      if !Cents(invoices[i].remainingCents) { return Err(InvalidBalance), cents; }
      read := read + {id};
      SumSnoc(invoices[..i], invoices[i], Remaining());
      assert invoices[..i + 1] == invoices[..i] + [invoices[i]];
      cents := cents + invoices[i].remainingCents;
    }
    assert invoices[..|invoices|] == invoices;
    return Ok(read), cents;
  }

  lemma AllReasonsSnoc(commitments: seq<Commitment>, c: Commitment, read: set<string>)
    ensures AllReasons(commitments + [c], read) == AllReasons(commitments, read) + ReasonsFor(c, read)
  {
    FlatSnoc(commitments, c, (c: Commitment) => ReasonsFor(c, read));
  }

  /** One turn of the second loop's checks. */
  lemma CommitmentTurn(orders: set<string>, mapped: set<string>, commitments: seq<Commitment>, i: nat)
    requires i < |commitments|
    ensures var c := commitments[i];
            CommitmentScan(orders, mapped, commitments[i..]) ==
            if CommitmentError(orders, mapped, c).Some? then CommitmentError(orders, mapped, c)
            else CommitmentScan(orders + {Trim(c.orderId)}, WithLink(mapped, c), commitments[i + 1..])
  {
    assert commitments[i..][0] == commitments[i] && commitments[i..][1..] == commitments[i + 1..];
  }

  /** The second loop: check each commitment, add up what is not yet an invoice of the read, and collect reasons. */
  method ScanCommitments(commitments: seq<Commitment>, read: set<string>)
    returns (error: Option<Error>, cents: int, reasons: seq<Reason>)
    ensures error == CommitmentScan({}, {}, commitments)
    ensures error.None? ==> cents == Sum(commitments, Counted(read)) && reasons == AllReasons(commitments, read)
  {
    var orders: set<string>, mapped: set<string> := {}, {};
    cents, reasons := 0, [];
    for i := 0 to |commitments|
      invariant CommitmentScan({}, {}, commitments) == CommitmentScan(orders, mapped, commitments[i..])
      invariant cents == Sum(commitments[..i], Counted(read)) && reasons == AllReasons(commitments[..i], read)
    {
      var c := commitments[i];
      CommitmentTurn(orders, mapped, commitments, i);
      error := CommitmentError(orders, mapped, c);
      if error.Some? { return; }
      orders := orders + {Trim(c.orderId)};
      mapped := WithLink(mapped, c);
      cents, reasons := AddCommitment(commitments, i, read, cents, reasons);
    }
    assert commitments[..|commitments|] == commitments;
    error := None;
  }

  method AddCommitment(commitments: seq<Commitment>, i: nat, read: set<string>, cents: int, reasons: seq<Reason>)
    returns (cents': int, reasons': seq<Reason>)
    requires i < |commitments| && cents == Sum(commitments[..i], Counted(read))
    requires reasons == AllReasons(commitments[..i], read)
    ensures cents' == Sum(commitments[..i + 1], Counted(read)) && reasons' == AllReasons(commitments[..i + 1], read)
  {
    var c := commitments[i];
    assert commitments[..i + 1] == commitments[..i] + [c];
    SumSnoc(commitments[..i], c, Counted(read));
    AllReasonsSnoc(commitments[..i], c, read);
    cents', reasons' := cents, reasons;
    if Outstanding(c, read) {
      cents', reasons' := cents + c.amountCents, reasons + ReasonsFor(c, read);
    }
  }

  method CalculateInstitutionalExposure(invoices: seq<Invoice>, commitments: seq<Commitment>, pendingCredits: seq<string>)
    returns (r: Result<Exposure, Error>)
    ensures r == Calculate(invoices, commitments, pendingCredits)
  {
    var read, invoiceCents := ScanInvoices(invoices);
    if read.Err? { return Err(read.error); }
    var error, commitmentCents, reasons := ScanCommitments(commitments, read.value);
    if error.Some? { return Err(error.value); }
    reasons := reasons + (if pendingCredits != [] then [CreditWaitingForReadback] else []);
    if !Cents(invoiceCents + commitmentCents) { return Err(UnsafePrecision); }
    return Ok(Exposure(invoiceCents, commitmentCents, reasons));
  }

  /*** Reservations ***/

  datatype HoldReason =
    | FeatureDisabled
    | ExistingNotReservable
    | StaleExposure
    | MissingCreditLimit
    | ReconciliationUncertain
    | CreditLimitExceeded

  datatype Decision =
    | Reserved(projectedCents: int, exposure: Exposure)
    | Hold(reason: HoldReason, projected: Option<int>)

  /** What one reservation call brings: the books as read, and the order. */
  datatype Call = Call(enabled: bool, companyKey: string, customerListId: string, sourceFresh: bool, limitCents: Option<int>,
                       invoices: seq<Invoice>, pendingCredits: seq<string>, commitment: Commitment)

  function SameOrder(rows: seq<Commitment>, orderId: string): seq<Commitment> {
    if rows == [] then []
    else (if rows[0].orderId == orderId then [rows[0]] else []) + SameOrder(rows[1..], orderId)
  }

  function OtherOrders(rows: seq<Commitment>, orderId: string): seq<Commitment> {
    if rows == [] then []
    else (if rows[0].orderId != orderId then [rows[0]] else []) + OtherOrders(rows[1..], orderId)
  }

  /** The store's upsert by order id. */
  function Upsert(rows: seq<Commitment>, c: Commitment): seq<Commitment> {
    if rows == [] then [c]
    else if rows[0].orderId == c.orderId then [c] + rows[1..]
    else [rows[0]] + Upsert(rows[1..], c)
  }

  lemma {:induction false} UpsertAt(rows: seq<Commitment>, i: nat, c: Commitment)
    requires i <= |rows| && forall k :: 0 <= k < i ==> rows[k].orderId != c.orderId
    requires i < |rows| ==> rows[i].orderId == c.orderId
    ensures Upsert(rows, c) == if i < |rows| then rows[i := c] else rows + [c]
  {
    if i > 0 {
      UpsertAt(rows[1..], i - 1, c);
    }
  }

  predicate Blocked(same: seq<Commitment>) {
    |same| > 1 || (|same| == 1 && (same[0].state != Accepted || Linked(same[0])))
  }

  predicate Linked(c: Commitment) {
    c.invoiceTxnId.Some? && c.invoiceTxnId.value != ""
  }

  /** The decision once the account is locked, from the stored rows. */
  function Decide(rows: seq<Commitment>, call: Call): Result<Decision, Error> {
    if Blocked(SameOrder(rows, call.commitment.orderId)) then Ok(Hold(ExistingNotReservable, None))
    else if !call.sourceFresh then Ok(Hold(StaleExposure, None))
    else if call.limitCents.None? || !Cents(call.limitCents.value) || call.limitCents.value == 0 then
      Ok(Hold(MissingCreditLimit, None))
    else
      match Calculate(call.invoices, OtherOrders(rows, call.commitment.orderId), call.pendingCredits)
      case Err(error) => Err(error)
      case Ok(exposure) =>
        var projected := exposure.invoiceCents + exposure.commitmentCents + call.commitment.amountCents;
        if !Cents(projected) then Err(UnsafePrecision)
        else if exposure.reasons != [] then Ok(Hold(ReconciliationUncertain, Some(projected)))
        else if projected > call.limitCents.value then Ok(Hold(CreditLimitExceeded, Some(projected)))
        else Ok(Reserved(projected, exposure))
  }

  /** Checks before the lock is taken. */
  function Refusal(call: Call): Option<Result<Decision, Error>> {
    if !call.enabled then Some(Ok(Hold(FeatureDisabled, None)))
    else if Trim(call.companyKey) == "" || Trim(call.customerListId) == "" then Some(Err(MissingId))
    else if call.commitment.state != Accepted || !Cents(call.commitment.amountCents) then Some(Err(NotReservable))
    else None
  }

  function Reserve(rows: seq<Commitment>, call: Call): Result<Decision, Error> {
    if Refusal(call).Some? then Refusal(call).value else Decide(rows, call)
  }

  /** The rows after a call: a refresh of the one row the order has is kept even when held, an error undoes it, and a
      new order is stored only when reserved. */
  function After(rows: seq<Commitment>, call: Call): seq<Commitment> {
    var same := SameOrder(rows, call.commitment.orderId);
    if Refusal(call).Some? || Decide(rows, call).Err? || Blocked(same) then rows
    else if |same| == 1 || Decide(rows, call).value.Reserved? then Upsert(rows, call.commitment)
    else rows
  }

  /** The commitments stored for one account. */
  class Account {
    var rows: seq<Commitment>

    constructor ()
      ensures rows == []
    {
      rows := [];
    }

    method Store(c: Commitment)
      modifies this
      ensures rows == Upsert(old(rows), c)
    {
      var i := 0;
      while i < |rows| && rows[i].orderId != c.orderId
        invariant 0 <= i <= |rows| && rows == old(rows)
        invariant forall k :: 0 <= k < i ==> rows[k].orderId != c.orderId
      {
        i := i + 1;
      }
      UpsertAt(rows, i, c);
      rows := if i < |rows| then rows[i := c] else rows + [c];
    }

    /** `reserveInstitutionalCredit`, inside the account's transaction. */
    method ReserveInstitutionalCredit(call: Call) returns (r: Result<Decision, Error>)
      modifies this
      ensures r == Reserve(old(rows), call)
      ensures rows == After(old(rows), call)
    {
      var refusal := Refusal(call);
      if refusal.Some? { return refusal.value; }
      var existing := rows;
      var same := SameOrder(existing, call.commitment.orderId);
      if Blocked(same) { return Ok(Hold(ExistingNotReservable, None)); }
      if |same| == 1 {
        Store(call.commitment);
      }
      r := Judge(existing, call);
      if r.Err? {
        rows := existing;
      } else if r.value.Reserved? && |same| == 0 {
        Store(call.commitment);
      }
    }

    /** The decision on the rows as they were: the call's books, and the stored commitments of other orders. */
    method Judge(existing: seq<Commitment>, call: Call) returns (r: Result<Decision, Error>)
      requires !Blocked(SameOrder(existing, call.commitment.orderId))
      ensures r == Decide(existing, call)
    {
      if !call.sourceFresh { return Ok(Hold(StaleExposure, None)); }
      if call.limitCents.None? || !Cents(call.limitCents.value) || call.limitCents.value == 0 {
        return Ok(Hold(MissingCreditLimit, None));
      }
      var exposure := CalculateInstitutionalExposure(call.invoices, OtherOrders(existing, call.commitment.orderId), call.pendingCredits);
      if exposure.Err? { return Err(exposure.error); }
      var projected := exposure.value.invoiceCents + exposure.value.commitmentCents + call.commitment.amountCents;
      if !Cents(projected) { return Err(UnsafePrecision); }
      if exposure.value.reasons != [] { return Ok(Hold(ReconciliationUncertain, Some(projected))); }
      if projected > call.limitCents.value { return Ok(Hold(CreditLimitExceeded, Some(projected))); }
      return Ok(Reserved(projected, exposure.value));
    }
  }
}
