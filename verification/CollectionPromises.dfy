/** What each collection event needs and does, told from the state's own fields. */
module CollectionPromises {
  import opened Base
  import opened Text
  import opened Collections

  /*** Totals ***/

  /** What is applied is the sum of the entries, each counted once: nothing at first, and an entry's cents more with each
      new entry. */
  lemma TotalLaw(applied: map<string, Applied>, key: string, a: Applied)
    ensures Total(map[]) == 0
    ensures key !in applied ==> Total(applied[key := a]) == Total(applied) + a.cents
  {
    if key !in applied {
      TotalEntered(applied, key, a);
    }
  }

  function Receipts(m: Money, kind: Kind): map<string, Applied> {
    match kind case Collection => m.receipts case Credit => m.credits
  }

  /** What is applied to the invoice so far. */
  ghost function AppliedSoFar(m: Money): int {
    Total(m.receipts) + Total(m.credits)
  }

  /*** What each event needs ***/

  predicate MayPost(m: Money, txnId: string, cents: int, revision: string) {
    && Stable(txnId) && Stable(revision) && Cents(cents) && !m.cancelled
    && (m.invoice.Some? ==> m.invoice.value.txnId == txnId && m.invoice.value.cents == cents)
  }

  /** The request agrees with one already pending under its key, if there is one. */
  predicate Matches(m: Money, key: string, kind: Kind, cents: int) {
    key in m.pending ==> m.pending[key] == Pending(kind, cents)
  }

  predicate MayRequest(m: Money, kind: Kind, key: string, cents: int) {
    && Stable(key) && Cents(cents) && 0 < cents && m.invoice.Some? && (kind == Collection ==> !m.cancelled)
    && Matches(m, key, kind, cents)
  }

  predicate WellFormed(c: Confirmation) {
    && Stable(c.txnId) && Stable(c.invoiceTxnId) && Stable(c.sourceRevision) && Cents(c.appliedCents)
    && (c.request.Some? ==> Stable(c.request.value))
  }

  /** The confirmation is of the invoice on record, for something. */
  predicate OnInvoice(m: Money, c: Confirmation) {
    m.invoice.Some? && m.invoice.value.txnId == c.invoiceTxnId && 0 < c.appliedCents
  }

  /** The document was entered before, for the same amount and request. */
  predicate Repeats(m: Money, kind: Kind, c: Confirmation) {
    c.txnId in Receipts(m, kind)
    && Receipts(m, kind)[c.txnId].cents == c.appliedCents && Receipts(m, kind)[c.txnId].request == c.request
  }

  /** The document is new, agrees with its request, and leaves no more applied than was invoiced. */
  ghost predicate MayEnter(m: Money, kind: Kind, c: Confirmation)
    requires m.invoice.Some?
  {
    && c.txnId !in Receipts(m, kind) && (c.request.Some? ==> Matches(m, c.request.value, kind, c.appliedCents))
    && AppliedSoFar(m) + c.appliedCents <= m.invoice.value.cents && Cents(AppliedSoFar(m) + c.appliedCents)
  }

  /** The document is entered in its book and its request is no longer pending; the last readback no longer stands. */
  ghost predicate Entered(m: Money, kind: Kind, c: Confirmation, later: Money) {
    && later.invoice == m.invoice && later.cancelled == m.cancelled && later.lastReadback == None
    && (forall key :: key in later.pending <==> key in m.pending && c.request != Some(key))
    && (forall key :: key in later.pending ==> later.pending[key] == m.pending[key])
    && Receipts(later, kind) == Receipts(m, kind)[c.txnId := Applied(c.appliedCents, c.request, c.sourceRevision)]
    && (forall other :: other != kind ==> Receipts(later, other) == Receipts(m, other))
  }

  ghost predicate Confirmed(m: Money, kind: Kind, c: Confirmation, r: Outcome) {
    && (r.Ok? <==> WellFormed(c) && OnInvoice(m, c) && (Repeats(m, kind, c) || MayEnter(m, kind, c)))
    && (r.Ok? ==> if c.txnId in Receipts(m, kind) then r.value == m else Entered(m, kind, c, r.value))
  }

  ghost predicate MayReadBack(m: Money, txnId: string, remaining: int, revision: string) {
    && Stable(txnId) && Stable(revision) && Cents(remaining) && m.invoice.Some? && m.invoice.value.txnId == txnId
    && AppliedSoFar(m) + remaining == m.invoice.value.cents
  }

  /** When an event is taken, and what it does to the money. */
  ghost predicate Does(m: Money, e: Event, r: Outcome) {
    match e
    case InvoicePosted(_, txnId, cents, revision) =>
      && (r.Ok? <==> MayPost(m, txnId, cents, revision))
      && (r.Ok? ==> r.value == m.(invoice := Some(Invoice(txnId, cents, revision))))
    case CollectionRequested(_, key, cents) =>
      && (r.Ok? <==> MayRequest(m, Collection, key, cents))
      && (r.Ok? ==> r.value == m.(pending := m.pending[key := Pending(Collection, cents)]))
    case CreditRequested(_, key, cents) =>
      && (r.Ok? <==> MayRequest(m, Credit, key, cents))
      && (r.Ok? ==> r.value == m.(pending := m.pending[key := Pending(Credit, cents)]))
    case CollectionConfirmed(_, c) => Confirmed(m, Collection, c, r)
    case CreditConfirmed(_, c) => Confirmed(m, Credit, c, r)
    case InvoiceReadback(_, txnId, remaining, revision) =>
      && (r.Ok? <==> MayReadBack(m, txnId, remaining, revision))
      && (r.Ok? ==> r.value == m.(lastReadback := Some(Readback(remaining, revision))))
    case CancelUnposted(_) => (r.Ok? <==> m.invoice.None?) && (r.Ok? ==> r.value == m.(cancelled := true))
    case OutcomeUncertain(_, key) => r == Err(if Stable(key) then Uncertain(key) else MalformedEvent)
    case UnknownEvent(_, _) => r == Err(UnknownEventType)
  }

  lemma WellFormedIff(c: Confirmation)
    ensures ConfirmationOk(c) <==> WellFormed(c)
  {
  }

  lemma EntersIt(m: Money, kind: Kind, c: Confirmation)
    ensures Entered(m, kind, c, Enter(m, kind, c))
  {
  }

  lemma ConfirmDoes(m: Money, kind: Kind, c: Confirmation)
    ensures Confirmed(m, kind, c, Confirm(m, kind, c))
  {
    WellFormedIff(c);
    EntersIt(m, kind, c);
    ConfirmsIff(m, kind, c);
  }

  /** A confirmation of a well-formed document is taken by these tests. */
  lemma ConfirmsIff(m: Money, kind: Kind, c: Confirmation)
    ensures Confirm(m, kind, c).Ok? <==> ConfirmationOk(c) && OnInvoice(m, c) && (Repeats(m, kind, c) || MayEnter(m, kind, c))
    ensures Confirm(m, kind, c).Ok? ==>
              Confirm(m, kind, c).value == if c.txnId in Receipts(m, kind) then m else Enter(m, kind, c)
  {
  }

  /** Every event is taken exactly when it may be, and does exactly that. */
  lemma EffectIs(m: Money, e: Event)
    ensures Does(m, e, Effect(m, e))
  {
    match e
    case CollectionConfirmed(_, c) => ConfirmDoes(m, Collection, c);
    case CreditConfirmed(_, c) => ConfirmDoes(m, Credit, c);
    case _ =>
  }

  /*** Why an event is refused ***/

  /** Something the event gives is missing, padded, or no amount. */
  predicate Malformed(e: Event) {
    match e
    case InvoicePosted(_, txnId, cents, revision) => !Stable(txnId) || !Stable(revision) || !Cents(cents)
    case CollectionRequested(_, key, cents) => !Stable(key) || !Cents(cents)
    case CreditRequested(_, key, cents) => !Stable(key) || !Cents(cents)
    case CollectionConfirmed(_, c) => !WellFormed(c)
    case CreditConfirmed(_, c) => !WellFormed(c)
    case InvoiceReadback(_, txnId, remaining, revision) => !Stable(txnId) || !Stable(revision) || !Cents(remaining)
    case OutcomeUncertain(_, key) => !Stable(key)
    case _ => false
  }

  /** What a confirmation is refused for. */
  ghost predicate ConfirmationFault(m: Money, kind: Kind, c: Confirmation, reason: Reason) {
    match reason
    case IdentityMismatch(k) => k == kind && !OnInvoice(m, c)
    case ConflictingTxnId(k) => k == kind && c.txnId in Receipts(m, kind) && !Repeats(m, kind, c)
    case AmountMismatch(k) => k == kind && c.request.Some? && !Matches(m, c.request.value, kind, c.appliedCents)
    case ExceedsInvoice(k) =>
      k == kind && m.invoice.Some? && c.txnId !in Receipts(m, kind)
      && (m.invoice.value.cents < AppliedSoFar(m) + c.appliedCents || !Cents(AppliedSoFar(m) + c.appliedCents))
    case _ => false
  }

  predicate RequestFault(m: Money, kind: Kind, key: string, cents: int, reason: Reason) {
    match reason
    case RequestWithoutInvoice(k) => k == kind && (m.invoice.None? || cents == 0 || (kind == Collection && m.cancelled))
    case ConflictingRequest(k) => k == kind && !Matches(m, key, kind, cents)
    case _ => false
  }

  /** The reason given is so. */
  ghost predicate Faulted(m: Money, e: Event, reason: Reason) {
    if reason == MalformedEvent then Malformed(e)
    else
      match e
      case InvoicePosted(_, txnId, cents, revision) => reason == ConflictingInvoicePosting && !MayPost(m, txnId, cents, revision)
      case CollectionRequested(_, key, cents) => RequestFault(m, Collection, key, cents, reason)
      case CreditRequested(_, key, cents) => RequestFault(m, Credit, key, cents, reason)
      case CollectionConfirmed(_, c) => ConfirmationFault(m, Collection, c, reason)
      case CreditConfirmed(_, c) => ConfirmationFault(m, Credit, c, reason)
      case InvoiceReadback(_, txnId, remaining, revision) =>
        || (reason == ReadbackIdentityMismatch && (m.invoice.None? || m.invoice.value.txnId != txnId))
        || (reason == BalanceUnexplained && m.invoice.Some? && AppliedSoFar(m) + remaining != m.invoice.value.cents)
      case CancelUnposted(_) => reason == PostedCancellation && m.invoice.Some?
      case OutcomeUncertain(_, key) => reason == Uncertain(key)
      case UnknownEvent(_, _) => reason == UnknownEventType
  }

  /** A refused event is refused for a reason that is so. */
  lemma RefusedRightly(m: Money, e: Event)
    requires Effect(m, e).Err?
    ensures Faulted(m, e, Effect(m, e).error)
  {
    match e
    case CollectionConfirmed(_, c) => ConfirmRefused(m, Collection, c);
    case CreditConfirmed(_, c) => ConfirmRefused(m, Credit, c);
    case _ =>
  }

  lemma ConfirmRefused(m: Money, kind: Kind, c: Confirmation)
    requires Confirm(m, kind, c).Err?
    ensures var reason := Confirm(m, kind, c).error;
            if reason == MalformedEvent then !WellFormed(c) else ConfirmationFault(m, kind, c, reason)
  {
    WellFormedIff(c);
  }

  /*** What an event leaves of the state ***/

  /** A reason is recorded once, behind those already there, and nothing else changes. */
  predicate Records(s: State, reason: Reason, later: State) {
    later == s.(reasons := later.reasons) && later.reasons == (if reason in s.reasons then s.reasons else s.reasons + [reason])
  }

  /** An event without a name is only noted; one already seen changes nothing, or is noted if it differs; a new one is
      marked seen, and then taken, refused for its reason, or, after any quarantine, only noted. */
  ghost predicate Leaves(s: State, e: Event, r: Outcome, later: State) {
    if !Stable(e.eventId) then Records(s, MalformedEvent, later)
    else if e.eventId in s.seen then
      if s.seen[e.eventId] == e then later == s else Records(s, ConflictingEvent(e.eventId), later)
    else
      var marked := s.(seen := s.seen[e.eventId := e]);
      if s.reasons != [] then Records(marked, EventAfterQuarantine, later)
      else if r.Ok? then later == marked.(money := r.value)
      else Records(marked, r.error, later)
  }

  /** What any event leaves: by its outcome on the money, which is as it should be. */
  lemma ApplyLeaves(s: State, e: Event)
    ensures Leaves(s, e, Effect(s.money, e), Apply(s, e)) && Does(s.money, e, Effect(s.money, e))
  {
    EffectIs(s.money, e);
  }

  /** An order is taken up exactly with a name and an amount, and then with nothing on record. */
  lemma AcceptedIff(orderId: string, cents: int, s: State)
    ensures Accepted(orderId, cents) == Some(s) <==>
            && Stable(orderId) && Cents(cents) && s.orderId == orderId && s.acceptedCents == cents && s.seen == map[] && s.reasons == []
            && s.money.invoice == None && s.money.receipts == map[] && s.money.credits == map[] && s.money.pending == map[]
            && s.money.lastReadback == None && !s.money.cancelled
  {
  }

  /*** The view ***/

  /** The order is shown for what it is, by the first of these that holds. */
  ghost predicate ShownAs(s: State, status: Status) {
    var m := s.money;
    match status
    case Quarantined => s.reasons != []
    case Cancelled => s.reasons == [] && m.cancelled
    case AcceptedOnTerms => s.reasons == [] && !m.cancelled && m.invoice.None?
    case CollectionPending => s.reasons == [] && !m.cancelled && m.invoice.Some? && m.pending != map[]
    case PaidInFull =>
      Settling(s) && m.lastReadback.Some? && m.lastReadback.value.remainingCents == 0
    case BalanceVerified => Settling(s) && m.lastReadback.Some? && m.lastReadback.value.remainingCents != 0
    case CollectionConfirmedStatus => Settling(s) && m.lastReadback.None? && (Total(m.receipts) != 0 || Total(m.credits) != 0)
    case InvoiceOutstanding => Settling(s) && m.lastReadback.None? && Total(m.receipts) == 0 && Total(m.credits) == 0
  }

  /** Invoiced, with nothing pending. */
  predicate Settling(s: State) {
    s.reasons == [] && !s.money.cancelled && s.money.invoice.Some? && s.money.pending == map[]
  }

  /** The view shows the status there is, what was collected and credited, and what is left; a balance is shown as verified
      only while a readback stands and nothing is quarantined. */
  lemma ViewShows(s: State)
    ensures var v, m := ViewOf(s), s.money;
            && (forall status :: ShownAs(s, status) <==> status == v.status)
            && v.collected == Total(m.receipts) && v.credited == Total(m.credits) && v.receiptCount == |m.receipts|
            && (v.expectedRemaining.Some? <==> m.invoice.Some?)
            && (m.invoice.Some? ==> v.expectedRemaining.value + v.collected + v.credited == m.invoice.value.cents)
            && (v.verifiedRemaining.Some? <==> s.reasons == [] && m.lastReadback.Some?)
            && (v.verifiedRemaining.Some? ==> v.verifiedRemaining.value == m.lastReadback.value.remainingCents)
  {
  }
}
