/** Institutional receivables: one order's projection, reduced from a stream of collection events. */
module Collections {
  import opened Base
  import opened Text

  datatype Event =
    | InvoicePosted(eventId: string, invoiceTxnId: string, finalCents: int, sourceRevision: string)
    | CollectionRequested(eventId: string, requestKey: string, amountCents: int)
    | CollectionConfirmed(eventId: string, confirmed: Confirmation)
    | CreditRequested(eventId: string, requestKey: string, amountCents: int)
    | CreditConfirmed(eventId: string, confirmed: Confirmation)
    | InvoiceReadback(eventId: string, invoiceTxnId: string, remainingCents: int, sourceRevision: string)
    | CancelUnposted(eventId: string)
    | OutcomeUncertain(eventId: string, requestKey: string)
    | UnknownEvent(eventId: string, text: string)

  /** A payment's or a credit's effect on the invoice. */
  datatype Confirmation = Confirmation(request: Option<string>, txnId: string, invoiceTxnId: string,
                                       appliedCents: int, sourceRevision: string)

  datatype Kind = Collection | Credit

  datatype Applied = Applied(cents: int, request: Option<string>, sourceRevision: string)

  datatype Pending = Pending(kind: Kind, cents: int)

  datatype Invoice = Invoice(txnId: string, cents: int, revision: string)

  datatype Readback = Readback(remainingCents: int, sourceRevision: string)

  datatype Reason =
    | ConflictingEvent(eventId: string)
    | EventAfterQuarantine
    | ConflictingInvoicePosting
    | RequestWithoutInvoice(kind: Kind)
    | ConflictingRequest(kind: Kind)
    | IdentityMismatch(kind: Kind)
    | ConflictingTxnId(kind: Kind)
    | AmountMismatch(kind: Kind)
    | ExceedsInvoice(kind: Kind)
    | ReadbackIdentityMismatch
    | BalanceUnexplained
    | PostedCancellation
    | Uncertain(requestKey: string)
    | UnknownEventType
    | MalformedEvent

  /** The money part of a state: what quarantine freezes. */
  datatype Money = Money(invoice: Option<Invoice>, receipts: map<string, Applied>, credits: map<string, Applied>,
                         pending: map<string, Pending>, lastReadback: Option<Readback>, cancelled: bool)

  /** An event's fingerprint is the event itself: canonical text differs for different events. */
  datatype State = State(orderId: string, acceptedCents: int, money: Money, seen: map<string, Event>,
                         reasons: seq<Reason>)

  function Accepted(orderId: string, acceptedCents: int): Option<State> {
    if Stable(orderId) && Cents(acceptedCents) then
      Some(State(orderId, acceptedCents, Money(None, map[], map[], map[], None, false), map[], []))
    else None
  }

  ghost function Total(applied: map<string, Applied>): int {
    if applied == map[] then 0
    else
      var k :| k in applied;
      applied[k].cents + Total(applied - {k})
  }

  ghost function AppliedTotal(m: Money): int {
    Total(m.receipts) + Total(m.credits)
  }

  function Quarantine(s: State, reason: Reason): State {
    if reason in s.reasons then s else s.(reasons := s.reasons + [reason])
  }

  /*** What each event does to the money, or why it must not ***/

  type Outcome = Result<Money, Reason>

  function PostInvoice(m: Money, txnId: string, cents: int, revision: string): Outcome {
    if !Stable(txnId) || !Stable(revision) || !Cents(cents) then Err(MalformedEvent)
    else if m.cancelled || (m.invoice.Some? && (m.invoice.value.txnId != txnId || m.invoice.value.cents != cents)) then
      Err(ConflictingInvoicePosting)
    else Ok(m.(invoice := Some(Invoice(txnId, cents, revision))))
  }

  predicate Refused(m: Money, kind: Kind, cents: int) {
    m.invoice.None? || cents == 0 || (kind == Collection && m.cancelled)
  }

  /** A request already pending under the key disagrees in kind or amount. */
  predicate Disagrees(m: Money, key: string, kind: Kind, cents: int) {
    key in m.pending && m.pending[key] != Pending(kind, cents)
  }

  function MakeRequest(m: Money, kind: Kind, key: string, cents: int): Outcome {
    if !Stable(key) || !Cents(cents) then Err(MalformedEvent)
    else if Refused(m, kind, cents) then Err(RequestWithoutInvoice(kind))
    else if Disagrees(m, key, kind, cents) then Err(ConflictingRequest(kind))
    else Ok(m.(pending := m.pending[key := Pending(kind, cents)]))
  }

  function Book(m: Money, kind: Kind): map<string, Applied> {
    if kind == Collection then m.receipts else m.credits
  }

  function WithBook(m: Money, kind: Kind, book: map<string, Applied>): Money {
    if kind == Collection then m.(receipts := book) else m.(credits := book)
  }

  predicate ConfirmationOk(c: Confirmation) {
    && Stable(c.txnId) && Stable(c.invoiceTxnId) && Stable(c.sourceRevision) && Cents(c.appliedCents)
    && (c.request.Some? ==> Stable(c.request.value))
  }

  function WithoutRequest(m: Money, request: Option<string>): map<string, Pending> {
    if request.Some? then m.pending - {request.value} else m.pending
  }

  function Enter(m: Money, kind: Kind, c: Confirmation): Money {
    WithBook(m, kind, Book(m, kind)[c.txnId := Applied(c.appliedCents, c.request, c.sourceRevision)])
    .(pending := WithoutRequest(m, c.request), lastReadback := None)
  }

  ghost function Confirm(m: Money, kind: Kind, c: Confirmation): Outcome {
    if !ConfirmationOk(c) then Err(MalformedEvent)
    else if m.invoice.None? || m.invoice.value.txnId != c.invoiceTxnId || c.appliedCents == 0 then Err(IdentityMismatch(kind))
    else if c.txnId in Book(m, kind) then
      var prior := Book(m, kind)[c.txnId];
      if prior.cents == c.appliedCents && prior.request == c.request then Ok(m) else Err(ConflictingTxnId(kind))
    else if c.request.Some? && Disagrees(m, c.request.value, kind, c.appliedCents) then Err(AmountMismatch(kind))
    else if !Cents(AppliedTotal(m) + c.appliedCents) || AppliedTotal(m) + c.appliedCents > m.invoice.value.cents then
      Err(ExceedsInvoice(kind))
    else Ok(Enter(m, kind, c))
  }

  ghost function ReadBack(m: Money, txnId: string, remaining: int, revision: string): Outcome {
    if !Stable(txnId) || !Stable(revision) || !Cents(remaining) then Err(MalformedEvent)
    else if m.invoice.None? || m.invoice.value.txnId != txnId then Err(ReadbackIdentityMismatch)
    else if remaining != m.invoice.value.cents - AppliedTotal(m) then Err(BalanceUnexplained)
    else Ok(m.(lastReadback := Some(Readback(remaining, revision))))
  }

  ghost function Effect(m: Money, e: Event): Outcome {
    match e
    case InvoicePosted(_, txnId, cents, revision) => PostInvoice(m, txnId, cents, revision)
    case CollectionRequested(_, key, cents) => MakeRequest(m, Collection, key, cents)
    case CreditRequested(_, key, cents) => MakeRequest(m, Credit, key, cents)
    case CollectionConfirmed(_, c) => Confirm(m, Collection, c)
    case CreditConfirmed(_, c) => Confirm(m, Credit, c)
    case InvoiceReadback(_, txnId, remaining, revision) => ReadBack(m, txnId, remaining, revision)
    case CancelUnposted(_) => if m.invoice.Some? then Err(PostedCancellation) else Ok(m.(cancelled := true))
    case OutcomeUncertain(_, key) => Err(if Stable(key) then Uncertain(key) else MalformedEvent)
    case UnknownEvent(_, _) => Err(UnknownEventType)
  }

  /** `applyInstitutionalCollectionEvent`. */
  ghost function Apply(s: State, e: Event): State {
    if !Stable(e.eventId) then Quarantine(s, MalformedEvent)
    else if e.eventId in s.seen then
      if s.seen[e.eventId] == e then s else Quarantine(s, ConflictingEvent(e.eventId))
    else
      var next := s.(seen := s.seen[e.eventId := e]);
      if s.reasons != [] then Quarantine(next, EventAfterQuarantine)
      else
        match Effect(s.money, e)
        case Err(reason) => Quarantine(next, reason)
        case Ok(money) => next.(money := money)
  }

  ghost function Run(s: State, events: seq<Event>): State
    decreases |events|
  {
    if events == [] then s else Run(Apply(s, events[0]), events[1..])
  }

  /*** The view ***/

  datatype Status =
    | AcceptedOnTerms
    | InvoiceOutstanding
    | CollectionPending
    | CollectionConfirmedStatus
    | BalanceVerified
    | PaidInFull
    | Cancelled
    | Quarantined

  datatype View = View(status: Status, collected: int, credited: int, expectedRemaining: Option<int>,
                       verifiedRemaining: Option<int>, receiptCount: nat)

  ghost function StatusOf(s: State): Status {
    var m := s.money;
    if s.reasons != [] then Quarantined
    else if m.cancelled then Cancelled
    else if m.invoice.None? then AcceptedOnTerms
    else if m.pending != map[] then CollectionPending
    else if m.lastReadback.Some? then if m.lastReadback.value.remainingCents == 0 then PaidInFull else BalanceVerified
    else if Total(m.receipts) != 0 || Total(m.credits) != 0 then CollectionConfirmedStatus
    else InvoiceOutstanding
  }

  ghost function ViewOf(s: State): View {
    var m := s.money;
    View(StatusOf(s), Total(m.receipts), Total(m.credits),
         if m.invoice.None? then None else Some(m.invoice.value.cents - Total(m.receipts) - Total(m.credits)),
         if s.reasons == [] && m.lastReadback.Some? then Some(m.lastReadback.value.remainingCents) else None,
         |m.receipts|)
  }

  /*** Totals ***/

  lemma {:induction false} TotalWithout(applied: map<string, Applied>, key: string)
    requires key in applied
    ensures Total(applied) == applied[key].cents + Total(applied - {key})
    decreases applied
  {
    var k :| k in applied && Total(applied) == applied[k].cents + Total(applied - {k});
    if k != key {
      TotalWithout(applied - {k}, key);
      TotalWithout(applied - {key}, k);
      assert applied - {k} - {key} == applied - {key} - {k};
    }
  }

  lemma TotalEntered(applied: map<string, Applied>, key: string, a: Applied)
    requires key !in applied
    ensures Total(applied[key := a]) == Total(applied) + a.cents
  {
    TotalWithout(applied[key := a], key);
    assert applied[key := a] - {key} == applied;
  }

  lemma EnterLaw(m: Money, kind: Kind, c: Confirmation)
    requires c.txnId !in Book(m, kind)
    ensures AppliedTotal(Enter(m, kind, c)) == AppliedTotal(m) + c.appliedCents
  {
    TotalEntered(Book(m, kind), c.txnId, Applied(c.appliedCents, c.request, c.sourceRevision));
  }

  /*** Every stream ***/

  ghost predicate MoneyOk(m: Money) {
    && (m.invoice.None? ==> AppliedTotal(m) == 0 && m.lastReadback.None?)
    && (m.invoice.Some? ==> !m.cancelled && 0 <= AppliedTotal(m) <= m.invoice.value.cents <= MAX_SAFE)
    && (m.lastReadback.Some? ==> m.lastReadback.value.remainingCents == m.invoice.value.cents - AppliedTotal(m))
  }

  /** Cents applied never exceed the invoice, a readback held always equals what is left, and a cancelled order is
      never invoiced. */
  lemma EffectKeepsMoney(m: Money, e: Event)
    requires MoneyOk(m) && Effect(m, e).Ok?
    ensures MoneyOk(Effect(m, e).value)
  {
    if Confirms(e) {
      ConfirmKeepsMoney(m, KindOf(e), e.confirmed);
    }
  }

  lemma ConfirmKeepsMoney(m: Money, kind: Kind, c: Confirmation)
    requires MoneyOk(m) && Confirm(m, kind, c).Ok?
    ensures MoneyOk(Confirm(m, kind, c).value)
  {
    if c.txnId !in Book(m, kind) {
      EnterLaw(m, kind, c);
    }
  }

  lemma {:induction false} RunKeepsMoney(s: State, events: seq<Event>)
    requires MoneyOk(s.money)
    ensures MoneyOk(Run(s, events).money)
    decreases |events|
  {
    if events != [] {
      if Effect(s.money, events[0]).Ok? {
        EffectKeepsMoney(s.money, events[0]);
      }
      RunKeepsMoney(Apply(s, events[0]), events[1..]);
    }
  }

  lemma {:induction false} RunAppends(s: State, a: seq<Event>, b: seq<Event>)
    ensures Run(s, a + b) == Run(Run(s, a), b)
    decreases |a|
  {
    if a == [] {
      assert a + b == b;
    } else {
      RunAppends(Apply(s, a[0]), a[1..], b);
      assert (a + b)[1..] == a[1..] + b;
    }
  }

  /** From acceptance on, over any stream of events: the money is in order. */
  lemma EveryStream(orderId: string, acceptedCents: int, events: seq<Event>)
    requires Accepted(orderId, acceptedCents).Some?
    ensures MoneyOk(Run(Accepted(orderId, acceptedCents).value, events).money)
  {
    RunKeepsMoney(Accepted(orderId, acceptedCents).value, events);
  }

  /** Quarantine is permanent: its reasons are only added to, and no event moves money again. */
  lemma {:induction false} QuarantineIsPermanent(s: State, events: seq<Event>)
    requires s.reasons != []
    ensures Run(s, events).money == s.money && s.reasons <= Run(s, events).reasons
    decreases |events|
  {
    if events != [] {
      QuarantineIsPermanent(Apply(s, events[0]), events[1..]);
    }
  }

  /*** Replays ***/

  /** The event has been dealt with: recorded, or refused for a reason that still stands. */
  predicate Settled(s: State, e: Event) {
    if !Stable(e.eventId) then MalformedEvent in s.reasons
    else e.eventId in s.seen && (s.seen[e.eventId] == e || ConflictingEvent(e.eventId) in s.reasons)
  }

  lemma {:induction false} StaysSettled(s: State, e: Event, events: seq<Event>)
    requires Settled(s, e)
    ensures Settled(Run(s, events), e)
    decreases |events|
  {
    if events != [] {
      StaysSettled(Apply(s, events[0]), e, events[1..]);
    }
  }

  lemma SettledAfter(s: State, before: seq<Event>, e: Event, between: seq<Event>)
    ensures Settled(Run(s, before + [e] + between), e)
  {
    RunAppends(s, before + [e], between);
    RunAppends(s, before, [e]);
    RunOne(Run(s, before), e);
    StaysSettled(Apply(Run(s, before), e), e, between);
  }

  lemma RunOne(s: State, e: Event)
    ensures Run(s, [e]) == Apply(s, e)
  {
    assert Run(s, [e]) == Run(Apply(s, e), []);
  }

  lemma SettledChangesNothing(s: State, e: Event)
    requires Settled(s, e)
    ensures Apply(s, e) == s
  {
  }

  lemma Skipped(s: State, mid: seq<Event>, e: Event, after: seq<Event>)
    requires Apply(Run(s, mid), e) == Run(s, mid)
    ensures Run(s, mid + [e] + after) == Run(s, mid + after)
  {
    RunAppends(s, mid + [e], after);
    RunAppends(s, mid, [e]);
    RunOne(Run(s, mid), e);
    RunAppends(s, mid, after);
  }

  /** Inserting a duplicate of any earlier event, anywhere later in the stream, changes nothing. */
  lemma DuplicateChangesNothing(s: State, before: seq<Event>, e: Event, between: seq<Event>, after: seq<Event>)
    ensures Run(s, before + [e] + between + [e] + after) == Run(s, before + [e] + between + after)
  {
    SettledAfter(s, before, e, between);
    SettledChangesNothing(Run(s, before + [e] + between), e);
    Skipped(s, before + [e] + between, e, after);
  }

  /*** Confirmations in either order ***/

  predicate Confirms(e: Event) {
    e.CollectionConfirmed? || e.CreditConfirmed?
  }

  function KindOf(e: Event): Kind
    requires Confirms(e)
  {
    if e.CollectionConfirmed? then Collection else Credit
  }

  /** Different events, about different documents and answering different requests. */
  predicate Independent(a: Event, b: Event)
    requires Confirms(a) && Confirms(b)
  {
    a.eventId != b.eventId && Apart(KindOf(a), a.confirmed, KindOf(b), b.confirmed)
  }

  /** A new document of this confirmation can be entered, apart from the room left on the invoice. */
  predicate Enterable(m: Money, kind: Kind, c: Confirmation) {
    && ConfirmationOk(c) && m.invoice.Some? && m.invoice.value.txnId == c.invoiceTxnId && c.appliedCents != 0
    && c.txnId !in Book(m, kind) && !(c.request.Some? && Disagrees(m, c.request.value, kind, c.appliedCents))
  }

  /** Distinct documents, answering no common request. */
  predicate Apart(k1: Kind, c1: Confirmation, k2: Kind, c2: Confirmation) {
    && (k1 == k2 ==> c1.txnId != c2.txnId)
    && (c1.request.Some? ==> c1.request != c2.request)
  }

  lemma EnterCommutes(m: Money, k1: Kind, c1: Confirmation, k2: Kind, c2: Confirmation)
    requires Apart(k1, c1, k2, c2)
    ensures Enter(Enter(m, k1, c1), k2, c2) == Enter(Enter(m, k2, c2), k1, c1)
  {
    PendingCommutes(m, k1, c1, k2, c2);
    BooksCommute(m, k1, c1, k2, c2, Collection);
    BooksCommute(m, k1, c1, k2, c2, Credit);
  }

  lemma BooksCommute(m: Money, k1: Kind, c1: Confirmation, k2: Kind, c2: Confirmation, kind: Kind)
    requires Apart(k1, c1, k2, c2)
    ensures Book(Enter(Enter(m, k1, c1), k2, c2), kind) == Book(Enter(Enter(m, k2, c2), k1, c1), kind)
  {
    if k1 == kind && k2 == kind {
      var book := Book(m, kind);
      var a, b := Applied(c1.appliedCents, c1.request, c1.sourceRevision), Applied(c2.appliedCents, c2.request, c2.sourceRevision);
      assert book[c1.txnId := a][c2.txnId := b] == book[c2.txnId := b][c1.txnId := a];
    }
  }

  lemma PendingCommutes(m: Money, k1: Kind, c1: Confirmation, k2: Kind, c2: Confirmation)
    ensures Enter(Enter(m, k1, c1), k2, c2).pending == Enter(Enter(m, k2, c2), k1, c1).pending
  {
    if c1.request.Some? && c2.request.Some? {
      var x, y := c1.request.value, c2.request.value;
      assert m.pending - {x} - {y} == m.pending - {y} - {x};
    }
  }

  /** Entering one confirmation leaves the other's conditions as they were. */
  lemma EnterLeaves(m: Money, k1: Kind, c1: Confirmation, k2: Kind, c2: Confirmation)
    requires Apart(k1, c1, k2, c2)
    ensures Enterable(Enter(m, k1, c1), k2, c2) == Enterable(m, k2, c2)
    ensures (c2.txnId in Book(Enter(m, k1, c1), k2)) == (c2.txnId in Book(m, k2))
    ensures c2.txnId in Book(m, k2) ==> Book(Enter(m, k1, c1), k2)[c2.txnId] == Book(m, k2)[c2.txnId]
    ensures Enter(m, k1, c1).invoice == m.invoice
  {
  }

  /** A new document is confirmed exactly when it can be entered and the invoice has room for it. */
  lemma ConfirmIff(m: Money, kind: Kind, c: Confirmation)
    requires c.txnId !in Book(m, kind) && MoneyOk(m)
    ensures Confirm(m, kind, c).Ok? <==> Enterable(m, kind, c) && AppliedTotal(m) + c.appliedCents <= m.invoice.value.cents
    ensures Confirm(m, kind, c).Ok? ==> Confirm(m, kind, c) == Ok(Enter(m, kind, c)) && MoneyOk(Enter(m, kind, c))
    ensures AppliedTotal(Enter(m, kind, c)) == AppliedTotal(m) + c.appliedCents
  {
    EnterLaw(m, kind, c);
  }

  /** A document already entered is left as it is, or refused. */
  lemma ConfirmAgain(m: Money, kind: Kind, c: Confirmation)
    requires c.txnId in Book(m, kind)
    ensures Confirm(m, kind, c).Ok? ==> Confirm(m, kind, c) == Ok(m)
    ensures Confirm(m, kind, c).Ok? <==>
            && ConfirmationOk(c) && m.invoice.Some? && m.invoice.value.txnId == c.invoiceTxnId && c.appliedCents != 0
            && Book(m, kind)[c.txnId].cents == c.appliedCents && Book(m, kind)[c.txnId].request == c.request
  {
  }

  ghost function Then(r: Outcome, kind: Kind, c: Confirmation): Outcome {
    if r.Err? then r else Confirm(r.value, kind, c)
  }

  lemma NewThenNew(m: Money, k1: Kind, c1: Confirmation, k2: Kind, c2: Confirmation)
    requires MoneyOk(m) && Apart(k1, c1, k2, c2) && c1.txnId !in Book(m, k1) && c2.txnId !in Book(m, k2)
    ensures var r := Then(Confirm(m, k1, c1), k2, c2);
            && (r.Ok? ==> r == Ok(Enter(Enter(m, k1, c1), k2, c2)))
            && (r.Ok? <==> Enterable(m, k1, c1) && Enterable(m, k2, c2)
                           && AppliedTotal(m) + c1.appliedCents + c2.appliedCents <= m.invoice.value.cents)
  {
    ConfirmIff(m, k1, c1);
    EnterLeaves(m, k1, c1, k2, c2);
    if Confirm(m, k1, c1).Ok? {
      ConfirmIff(Enter(m, k1, c1), k2, c2);
    }
  }

  lemma OldAndNew(m: Money, k1: Kind, c1: Confirmation, k2: Kind, c2: Confirmation)
    requires MoneyOk(m) && Apart(k1, c1, k2, c2) && c1.txnId !in Book(m, k1) && c2.txnId in Book(m, k2)
    ensures var r := Then(Confirm(m, k1, c1), k2, c2);
            && r.Ok? == Then(Confirm(m, k2, c2), k1, c1).Ok?
            && (r.Ok? ==> r == Then(Confirm(m, k2, c2), k1, c1))
  {
    ConfirmIff(m, k1, c1);
    EnterLeaves(m, k1, c1, k2, c2);
    ConfirmAgain(m, k2, c2);
    if Confirm(m, k1, c1).Ok? {
      ConfirmAgain(Enter(m, k1, c1), k2, c2);
    }
  }

  /** The effects of two confirmations that are apart: both orders succeed with the same money, or both fail. */
  lemma EffectsCommute(m: Money, k1: Kind, c1: Confirmation, k2: Kind, c2: Confirmation)
    requires MoneyOk(m) && Apart(k1, c1, k2, c2)
    ensures Then(Confirm(m, k1, c1), k2, c2).Ok? == Then(Confirm(m, k2, c2), k1, c1).Ok?
    ensures Then(Confirm(m, k1, c1), k2, c2).Ok? ==> Then(Confirm(m, k1, c1), k2, c2) == Then(Confirm(m, k2, c2), k1, c1)
  {
    if c1.txnId !in Book(m, k1) && c2.txnId !in Book(m, k2) {
      NewThenNew(m, k1, c1, k2, c2);
      NewThenNew(m, k2, c2, k1, c1);
      EnterCommutes(m, k1, c1, k2, c2);
    } else if c1.txnId !in Book(m, k1) {
      OldAndNew(m, k1, c1, k2, c2);
    } else if c2.txnId !in Book(m, k2) {
      OldAndNew(m, k2, c2, k1, c1);
    } else {
      ConfirmAgain(m, k1, c1);
      ConfirmAgain(m, k2, c2);
    }
  }

  /** An event not seen before, on an order in good standing. */
  lemma ApplyNew(s: State, e: Event)
    requires Confirms(e) && Stable(e.eventId) && e.eventId !in s.seen && s.reasons == []
    ensures var r := Confirm(s.money, KindOf(e), e.confirmed);
            Apply(s, e) == if r.Ok? then s.(seen := s.seen[e.eventId := e], money := r.value)
                           else Quarantine(s.(seen := s.seen[e.eventId := e]), r.error)
  {
  }

  predicate New(s: State, e: Event) {
    Stable(e.eventId) && e.eventId !in s.seen
  }

  /** Two confirmations, with event ids, documents and requests of their own, give the same state in either order; or
      whichever comes first, the order ends up quarantined. */
  lemma ConfirmationsCommute(s: State, a: Event, b: Event)
    requires Confirms(a) && Confirms(b) && Independent(a, b) && MoneyOk(s.money)
    ensures (Run(s, [a, b]).reasons == []) == (Run(s, [b, a]).reasons == [])
    ensures Run(s, [a, b]).reasons == [] ==> Run(s, [a, b]) == Run(s, [b, a])
  {
    if !New(s, a) {
      NotNew(s, a, b);
    } else if !New(s, b) {
      NotNew(s, b, a);
    } else {
      BothNew(s, a, b);
    }
  }

  lemma BothNew(s: State, a: Event, b: Event)
    requires Confirms(a) && Confirms(b) && Independent(a, b) && MoneyOk(s.money) && New(s, a) && New(s, b)
    ensures (Run(s, [a, b]).reasons == []) == (Run(s, [b, a]).reasons == [])
    ensures Run(s, [a, b]).reasons == [] ==> Run(s, [a, b]) == Run(s, [b, a])
  {
    if s.reasons != [] {
      QuarantineIsPermanent(s, [a, b]);
      QuarantineIsPermanent(s, [b, a]);
    } else {
      InTurn(s, a, b);
      InTurn(s, b, a);
      EffectsCommute(s.money, KindOf(a), a.confirmed, KindOf(b), b.confirmed);
      SameEnd(s, a, b, Run(s, [a, b]), Run(s, [b, a]), Together(s, a, b), Together(s, b, a));
    }
  }

  /** What two confirmations do to the money, one after the other. */
  ghost function Together(s: State, a: Event, b: Event): Outcome
    requires Confirms(a) && Confirms(b)
  {
    Then(Confirm(s.money, KindOf(a), a.confirmed), KindOf(b), b.confirmed)
  }

  /** The state comes of both events with this outcome: quarantined, or in order with the new money. */
  predicate ComesOf(s: State, a: Event, b: Event, t: State, r: Outcome) {
    if r.Err? then t.reasons != []
    else t.reasons == [] && t == s.(seen := s.seen[a.eventId := a][b.eventId := b], money := r.value)
  }

  lemma SameEnd(s: State, a: Event, b: Event, t: State, u: State, r: Outcome, q: Outcome)
    requires a.eventId != b.eventId && ComesOf(s, a, b, t, r) && ComesOf(s, b, a, u, q)
    requires r.Ok? == q.Ok? && (r.Ok? ==> r == q)
    ensures (t.reasons == []) == (u.reasons == []) && (t.reasons == [] ==> t == u)
  {
    assert s.seen[a.eventId := a][b.eventId := b] == s.seen[b.eventId := b][a.eventId := a];
  }

  /** An event that is not new changes nothing or quarantines, before another event or after it. */
  lemma NotNew(s: State, a: Event, b: Event)
    requires !New(s, a) && a.eventId != b.eventId
    ensures (Run(s, [a, b]).reasons == []) == (Run(s, [b, a]).reasons == [])
    ensures Run(s, [a, b]).reasons == [] ==> Run(s, [a, b]) == Run(s, [b, a])
  {
    RunTwo(s, a, b);
    RunTwo(s, b, a);
    StaleApply(s, a);
    StaleLater(s, b, a);
    if Apply(s, a).reasons != [] {
      QuarantineIsPermanent(Apply(s, a), [b]);
      RunTwo(Apply(s, a), b, b);
    }
  }

  lemma StaleLater(s: State, b: Event, a: Event)
    requires !New(s, a) && a.eventId != b.eventId
    ensures if Stable(a.eventId) && s.seen[a.eventId] == a then Apply(Apply(s, b), a) == Apply(s, b)
            else Apply(Apply(s, b), a).reasons != []
  {
    SeenGrows(s, b);
    StaleApply(Apply(s, b), a);
  }

  lemma SeenGrows(s: State, e: Event)
    ensures Apply(s, e).seen == s.seen || Apply(s, e).seen == s.seen[e.eventId := e]
  {
  }

  lemma RunTwo(s: State, a: Event, b: Event)
    ensures Run(s, [a, b]) == Apply(Apply(s, a), b) && Run(s, [a]) == Apply(s, a)
  {
    assert Run(s, [a, b]) == Run(Apply(s, a), [b]);
    RunOne(Apply(s, a), b);
    RunOne(s, a);
  }

  /** What an event that is not new does. */
  lemma StaleApply(s: State, e: Event)
    requires !New(s, e)
    ensures if Stable(e.eventId) && s.seen[e.eventId] == e then Apply(s, e) == s else Apply(s, e).reasons != []
  {
  }

  lemma InTurn(s: State, a: Event, b: Event)
    requires Confirms(a) && Confirms(b) && a.eventId != b.eventId && New(s, a) && New(s, b) && s.reasons == []
    ensures ComesOf(s, a, b, Run(s, [a, b]), Together(s, a, b))
  {
    RunTwo(s, a, b);
    ApplyNew(s, a);
    if Confirm(s.money, KindOf(a), a.confirmed).Ok? {
      ApplyNew(Apply(s, a), b);
    }
  }

  /*** The view is honest ***/

  /** A balance shown as verified is the invoice less everything applied; and an order shown as paid in full has the
      whole invoice applied, with nothing pending. */
  lemma ViewIsHonest(orderId: string, acceptedCents: int, events: seq<Event>)
    requires Accepted(orderId, acceptedCents).Some?
    ensures var s := Run(Accepted(orderId, acceptedCents).value, events);
            var v := ViewOf(s);
            && (v.verifiedRemaining.Some? ==> v.verifiedRemaining == v.expectedRemaining && 0 <= v.verifiedRemaining.value)
            && (v.status == PaidInFull ==> s.money.invoice.Some? && s.money.pending == map[]
                                           && v.collected + v.credited == s.money.invoice.value.cents)
            && (v.status == Cancelled ==> v.collected + v.credited == 0)
  {
    EveryStream(orderId, acceptedCents, events);
  }
}
