/** The final card charge of one packed order, as a transition system.

    Any number of callers (staff, the automatic trigger, retries after a crash) run
    `runFinalChargeAndRelease` against four shared records: the charge attempt rows, the
    finalization row, the order metadata and Stripe.  Every locked transaction is one event;
    every unlocked read or write is an event of its own, so callers interleave between them,
    stall for any time, and may die at any point.

    A row is named by its position in the table (`slot`).  Stripe keeps one fixed intent per
    idempotency key, so an intent is named by the decline generation of the key that created it. */
module ChargeModel {
  import opened Base

  /*** Stripe ***/

  datatype IntentStatus = RequiresPaymentMethod | Processing | SucceededIntent | OtherIntentStatus
  datatype ErrorCode = NoCode | CardDeclined | OtherCode
  datatype PaymentIntent = PaymentIntent(id: nat, status: IntentStatus, lastError: ErrorCode)

  /** A 2xx body, or an error body with its code and the intent it may carry. */
  datatype StripeReply =
    | Accepted(intent: PaymentIntent)
    | Refused(code: ErrorCode, attached: Option<PaymentIntent>)

  predicate CardDeclinedIntent(p: PaymentIntent) {
    p.status == RequiresPaymentMethod && p.lastError == CardDeclined
  }

  /*** Charge attempts ***/

  datatype Terms = Terms(amount: int, currency: string, customer: string, card: string)
  datatype AttemptStatus = Pending | Succeeded | Failed

  datatype Attempt = Attempt(
    number: nat, terms: Terms, generation: nat, status: AttemptStatus,
    intent: Option<nat>, stripeStatus: Option<IntentStatus>, failureCode: ErrorCode,
    declineConfirmed: bool, token: nat,
    requestedAt: int, updatedAt: int, succeededAt: Option<int>)

  datatype FinStatus =
    | Packing | PackedPendingCharge | ChargeAttempting | ChargeFailedHold | RecordingFailed | ChargedReady

  /** Only a durably identified card decline may open a new key generation. */
  predicate ConfirmedDecline(a: Attempt) {
    && a.status == Failed
    && a.intent.Some?
    && a.stripeStatus == Some(RequiresPaymentMethod)
    && (a.failureCode == CardDeclined || a.declineConfirmed)
  }

  predicate ConfirmedStripeDecline(code: ErrorCode, attached: Option<PaymentIntent>) {
    && attached.Some?
    && attached.value.status == RequiresPaymentMethod
    && (code == CardDeclined || attached.value.lastError == CardDeclined)
  }

  function DeclineGenerations(attempts: seq<Attempt>): set<nat> {
    set i | 0 <= i < |attempts| && ConfirmedDecline(attempts[i]) :: attempts[i].generation
  }

  function LargestNumber(attempts: seq<Attempt>): nat {
    if attempts == [] then 0
    else Max(LargestNumber(attempts[..|attempts| - 1]), attempts[|attempts| - 1].number)
  }

  const DEFAULT_CLAIM_TTL_MS := 300_000

  datatype ClaimInput = ClaimInput(finStatus: FinStatus, terms: Terms, now: int, ttl: int, token: nat)

  /** Another caller's work on the newest row is too recent to be taken over. */
  predicate NewestStillFresh(a: Attempt, input: ClaimInput) {
    var ttl := Max(1, input.ttl);
    || (a.status == Pending && input.now - a.requestedAt < ttl)
    || (a.status == Failed && input.finStatus == ChargeAttempting && input.now - a.updatedAt < ttl)
    || (a.status == Succeeded && input.finStatus != RecordingFailed
        && input.now - (if a.succeededAt.Some? then a.succeededAt.value else a.updatedAt) < ttl)
  }

  function Reclaimed(a: Attempt, input: ClaimInput): Attempt {
    a.(status := if a.status == Succeeded then Succeeded else Pending,
       requestedAt := input.now, updatedAt := input.now, token := input.token)
  }

  function FreshAttempt(attempts: seq<Attempt>, input: ClaimInput): Attempt {
    Attempt(LargestNumber(attempts) + 1, input.terms, |DeclineGenerations(attempts)|, Pending,
            None, None, NoCode, false, input.token, input.now, input.now, None)
  }

  /** The claim transaction: the table afterwards and whether the caller owns the newest row. */
  function Claim(attempts: seq<Attempt>, input: ClaimInput): (seq<Attempt>, bool) {
    var last := |attempts| - 1;
    if last >= 0 && NewestStillFresh(attempts[last], input) then (attempts, false)
    else if last >= 0 && !ConfirmedDecline(attempts[last]) then
      (attempts[last := Reclaimed(attempts[last], input)], true)
    else (attempts + [FreshAttempt(attempts, input)], true)
  }

  datatype SettleInput = SettleInput(
    succeeded: bool, intent: Option<nat>, stripeStatus: Option<IntentStatus>,
    failureCode: ErrorCode, declineConfirmed: bool, now: int)

  datatype SettleOutcome = ClaimLost | KeptSucceeded | Settled

  function SettledRow(a: Attempt, input: SettleInput): Attempt {
    a.(status := if input.succeeded then Succeeded else Failed,
       intent := if input.intent.Some? then input.intent else a.intent,
       stripeStatus := if input.stripeStatus.Some? then input.stripeStatus else a.stripeStatus,
       failureCode := if input.succeeded then NoCode else input.failureCode,
       declineConfirmed := a.declineConfirmed || input.declineConfirmed,
       succeededAt := if input.succeeded then Some(input.now) else None,
       updatedAt := input.now)
  }

  function Settle(attempts: seq<Attempt>, slot: nat, token: nat, input: SettleInput): (seq<Attempt>, SettleOutcome)
    requires slot < |attempts|
  {
    var a := attempts[slot];
    if token != a.token then (attempts, ClaimLost)
    else if a.status == Succeeded && !input.succeeded then (attempts, KeptSucceeded)
    else (attempts[slot := SettledRow(a, input)], Settled)
  }

  /*** Finalization row, order metadata, callers ***/

  datatype Finalization = Finalization(status: FinStatus, attempt: Option<nat>, intent: Option<nat>)
  datatype ChargeMark = NoMark | MarkFailed | MarkRecordingFailed | MarkSucceeded
  datatype OrderMeta = OrderMeta(mark: ChargeMark, intent: Option<nat>)

  /** Where a caller is in `runFinalChargeAndRelease`. */
  datatype Phase =
    | Started | Previewed | Approved | Claimed | Linked | Creating | Retrieving | Replied
    | Settling | Recording | Released | Announcing | Failing | Holding | Held

  datatype Caller = Caller(
    phase: Phase, order: OrderMeta, preview: Finalization,
    slot: nat, token: nat, key: nat, terms: Terms,
    known: Option<nat>,              // intent adopted instead of charging again
    payment: Option<PaymentIntent>,  // local `paymentIntent`
    persisted: Option<nat>,          // local `persistedPaymentIntentId`
    errorCode: ErrorCode, errorIntent: Option<PaymentIntent>)

  /** The attempt rows, and what Stripe holds and was asked to create. */
  datatype Ledger = Ledger(
    attempts: seq<Attempt>, stripe: map<nat, PaymentIntent>, creates: set<(nat, Terms)>, nextToken: nat)

  datatype System = System(
    ledger: Ledger, finalization: Finalization, order: OrderMeta, orderHistory: set<OrderMeta>,
    callers: map<nat, Caller>)

  /** The intent a claimed caller reconciles with instead of creating one. */
  function AdoptedIntent(a: Attempt, slot: nat, preview: Finalization, order: OrderMeta): Option<nat> {
    var recovering := preview.status == RecordingFailed || order.mark == MarkRecordingFailed;
    var mayAdopt := recovering || preview.attempt == Some(slot) || a.generation == 0;
    if a.intent.Some? then a.intent
    else if !mayAdopt then None
    else if preview.intent.Some? then preview.intent
    else if recovering then order.intent
    else None
  }

  predicate MayCharge(status: FinStatus) {
    status in {PackedPendingCharge, ChargeFailedHold, RecordingFailed, ChargeAttempting}
  }

  function PaymentSucceeded(c: Caller): bool {
    c.payment.Some? && c.payment.value.status == SucceededIntent
  }

  function FailureSettlement(c: Caller, now: int): SettleInput {
    var good := PaymentSucceeded(c);
    SettleInput(good, FailureIntent(c),
                if c.payment.Some? then Some(c.payment.value.status)
                else if c.errorIntent.Some? then Some(c.errorIntent.value.status) else None,
                if good then NoCode else c.errorCode,
                !good && ConfirmedStripeDecline(c.errorCode, c.errorIntent), now)
  }

  function FailureIntent(c: Caller): Option<nat> {
    if c.persisted.Some? then c.persisted
    else if c.errorIntent.Some? then Some(c.errorIntent.value.id) else None
  }

  /*** Events ***/

  datatype Event =
    | Start(c: nat)
    | ReadPreview(c: nat)
    | WritePreview(c: nat)
    | ClaimAttempt(c: nat, now: int, ttl: int, newTerms: Terms)
    | LinkFinalization(c: nat)
    | CallStripe(c: nat)
    | Receive(c: nat, reply: StripeReply)
    | WriteIntent(c: nat)
    | SettleSuccess(c: nat, now: int)
    | RecordRelease(c: nat)
    | RecordOrder(c: nat)
    | Throw(c: nat)
    | SettleFailure(c: nat, now: int)
    | WriteHold(c: nat)
    | WriteHoldOrder(c: nat)
    | Leave(c: nat)
    | StaffStatus(status: FinStatus)
    | RestoreOrder(meta: OrderMeta)
    | StripeCreates(key: nat, intentStatus: IntentStatus, lastError: ErrorCode)
    | StripeMoves(key: nat, intentStatus: IntentStatus, lastError: ErrorCode)

  /** Stripe tells the truth about terminal outcomes; anything else it says may be stale. */
  predicate Truthful(stripe: map<nat, PaymentIntent>, key: nat, p: PaymentIntent) {
    && p.id == key && key in stripe
    && (p.status == SucceededIntent ==> stripe[key].status == SucceededIntent)
    && (CardDeclinedIntent(p) ==> CardDeclinedIntent(stripe[key]))
  }

  predicate TerminallyDeclined(stripe: map<nat, PaymentIntent>, key: nat) {
    key in stripe && CardDeclinedIntent(stripe[key])
  }

  predicate StripeMaySay(stripe: map<nat, PaymentIntent>, key: nat, reply: StripeReply) {
    match reply
    case Accepted(p) => Truthful(stripe, key, p)
    case Refused(code, attached) =>
      && (code == CardDeclined ==> TerminallyDeclined(stripe, key))
      && (attached.Some? ==> Truthful(stripe, key, attached.value))
  }

  predicate At(s: System, c: nat, phase: Phase) {
    c in s.callers && s.callers[c].phase == phase
  }

  /** Inside the guarded part of the run, where an exception leads to the failure path. */
  predicate InTry(p: Phase) {
    p.Linked? || p.Creating? || p.Retrieving? || p.Replied? || p.Settling? || p.Recording? || p.Released? || p.Announcing?
  }

  predicate KeyUsed(creates: set<(nat, Terms)>, key: nat) {
    exists create <- creates :: create.0 == key
  }

  predicate Enabled(s: System, e: Event) {
    match e
    case Start(c) => c !in s.callers && s.order.mark != MarkSucceeded
    case ReadPreview(c) => At(s, c, Started)
    case WritePreview(c) => At(s, c, Previewed)
    case ClaimAttempt(c, _, _, _) => At(s, c, Approved) && MayCharge(s.callers[c].preview.status)
    case LinkFinalization(c) => At(s, c, Claimed)
    case CallStripe(c) => At(s, c, Linked)
    case Receive(c, reply) =>
      || (At(s, c, Creating) && StripeMaySay(s.ledger.stripe, s.callers[c].key, reply))
      || (At(s, c, Retrieving) && s.callers[c].known.Some?
          && StripeMaySay(s.ledger.stripe, s.callers[c].known.value, reply))
    case WriteIntent(c) => At(s, c, Replied) && s.callers[c].payment.Some?
    case SettleSuccess(c, _) => At(s, c, Settling) && s.callers[c].payment.Some? && s.callers[c].slot < |s.ledger.attempts|
    case RecordRelease(c) => At(s, c, Recording) && s.callers[c].payment.Some?
    case RecordOrder(c) => At(s, c, Released) && s.callers[c].payment.Some?
    case Throw(c) => c in s.callers && InTry(s.callers[c].phase)
    case SettleFailure(c, _) => At(s, c, Failing) && s.callers[c].slot < |s.ledger.attempts|
    case WriteHold(c) => At(s, c, Holding)
    case WriteHoldOrder(c) => At(s, c, Held)
    case Leave(c) => c in s.callers
    case StaffStatus(status) => status in {Packing, PackedPendingCharge}
    case RestoreOrder(meta) => meta in s.orderHistory
    case StripeCreates(key, _, _) => key !in s.ledger.stripe && KeyUsed(s.ledger.creates, key)
    case StripeMoves(key, _, _) =>
      key in s.ledger.stripe && s.ledger.stripe[key].status != SucceededIntent && !CardDeclinedIntent(s.ledger.stripe[key])
  }

  function WithCaller(s: System, c: nat, caller: Caller): System {
    s.(callers := s.callers[c := caller])
  }

  function Without(s: System, c: nat): System {
    s.(callers := s.callers - {c})
  }

  function WithOrder(s: System, meta: OrderMeta): System {
    s.(order := meta, orderHistory := s.orderHistory + {meta})
  }

  function WithIntent(l: Ledger, key: nat, status: IntentStatus, lastError: ErrorCode): Ledger {
    l.(stripe := l.stripe[key := PaymentIntent(key, status, lastError)])
  }

  function NewCaller(meta: OrderMeta): Caller {
    Caller(Started, meta, Finalization(Packing, None, None), 0, 0, 0, Terms(0, "", "", ""), None, None, None, NoCode, None)
  }

  /** The code of the error raised for an intent that has not succeeded. */
  function AssertErrorCode(p: PaymentIntent): ErrorCode {
    if p.lastError == NoCode then OtherCode else p.lastError
  }

  function Claiming(s: System, e: Event): System
    requires e.ClaimAttempt? && Enabled(s, e)
  {
    var me := s.callers[e.c];
    var (attempts, owned) := Claim(s.ledger.attempts, ClaimInput(me.preview.status, e.newTerms, e.now, e.ttl, s.ledger.nextToken));
    if !owned || |attempts| == 0 then Without(s, e.c)
    else
      var slot := |attempts| - 1;
      var row := attempts[slot];
      var me' := me.(phase := Claimed, slot := slot, token := row.token, key := row.generation, terms := row.terms,
                     known := AdoptedIntent(row, slot, me.preview, me.order));
      WithCaller(s, e.c, me').(ledger := s.ledger.(attempts := attempts, nextToken := s.ledger.nextToken + 1))
  }

  function Settlement(s: System, c: nat, input: SettleInput, stop: bool, next: Phase): System
    requires c in s.callers && s.callers[c].slot < |s.ledger.attempts|
  {
    var me := s.callers[c];
    var (attempts, outcome) := Settle(s.ledger.attempts, me.slot, me.token, input);
    if outcome == ClaimLost || (stop && outcome == KeptSucceeded) then Without(s, c)
    else WithCaller(s, c, me.(phase := next)).(ledger := s.ledger.(attempts := attempts))
  }

  function Receiving(me: Caller, reply: StripeReply): Caller {
    match reply
    case Accepted(p) => me.(phase := Replied, payment := Some(p), persisted := Some(p.id))
    case Refused(code, attached) => me.(phase := Failing, errorCode := code, errorIntent := attached)
  }

  function AfterIntentWrite(me: Caller): Caller
    requires me.payment.Some?
  {
    var p := me.payment.value;
    if p.status == SucceededIntent then me.(phase := Settling)
    else me.(phase := Failing, errorCode := AssertErrorCode(p), errorIntent := Some(p))
  }

  function Apply(s: System, e: Event): System
    requires Enabled(s, e)
  {
    match e
    case Start(c) => WithCaller(s, c, NewCaller(s.order))
    case ReadPreview(c) => WithCaller(s, c, s.callers[c].(phase := Previewed, preview := s.finalization))
    case WritePreview(c) =>
      var me := s.callers[c];
      WithCaller(s, c, me.(phase := Approved)).(finalization := s.finalization.(status := me.preview.status))
    case ClaimAttempt(c, _, _, _) => Claiming(s, e)
    case LinkFinalization(c) =>
      var me := s.callers[c];
      WithCaller(s, c, me.(phase := Linked)).(finalization := Finalization(ChargeAttempting, Some(me.slot), me.known))
    case CallStripe(c) =>
      var me := s.callers[c];
      if me.known.Some? then WithCaller(s, c, me.(phase := Retrieving, persisted := me.known))
      else WithCaller(s, c, me.(phase := Creating)).(
             ledger := s.ledger.(creates := s.ledger.creates + {(me.key, me.terms)}))
    case Receive(c, reply) => WithCaller(s, c, Receiving(s.callers[c], reply))
    case WriteIntent(c) =>
      var me := s.callers[c];
      WithCaller(s, c, AfterIntentWrite(me)).(finalization := s.finalization.(intent := Some(me.payment.value.id)))
    case SettleSuccess(c, now) =>
      var p := s.callers[c].payment.value;
      Settlement(s, c, SettleInput(true, Some(p.id), Some(p.status), NoCode, false, now), false, Recording)
    case RecordRelease(c) =>
      var me := s.callers[c];
      WithCaller(s, c, me.(phase := Released)).(
        finalization := Finalization(ChargedReady, Some(me.slot), Some(me.payment.value.id)))
    case RecordOrder(c) =>
      var me := s.callers[c];
      WithOrder(WithCaller(s, c, me.(phase := Announcing)), OrderMeta(MarkSucceeded, Some(me.payment.value.id)))
    case Throw(c) => WithCaller(s, c, s.callers[c].(phase := Failing, errorCode := NoCode, errorIntent := None))
    case SettleFailure(c, now) =>
      var me := s.callers[c];
      Settlement(s, c, FailureSettlement(me, now), !PaymentSucceeded(me), Holding)
    case WriteHold(c) =>
      var me := s.callers[c];
      WithCaller(s, c, me.(phase := Held)).(
        finalization := Finalization(if PaymentSucceeded(me) then RecordingFailed else ChargeFailedHold,
                                     Some(me.slot), FailureIntent(me)))
    case WriteHoldOrder(c) =>
      var me := s.callers[c];
      WithOrder(Without(s, c),
                OrderMeta(if PaymentSucceeded(me) then MarkRecordingFailed else MarkFailed, FailureIntent(me)))
    case Leave(c) => Without(s, c)
    case StaffStatus(status) => s.(finalization := s.finalization.(status := status))
    case RestoreOrder(meta) => WithOrder(s, meta)
    case StripeCreates(key, status, lastError) => s.(ledger := WithIntent(s.ledger, key, status, lastError))
    case StripeMoves(key, status, lastError) => s.(ledger := WithIntent(s.ledger, key, status, lastError))
  }

  function Step(s: System, e: Event): System {
    if Enabled(s, e) then Apply(s, e) else s
  }

  function Exec(s: System, es: seq<Event>): System
    decreases |es|
  {
    if es == [] then s else Exec(Step(s, es[0]), es[1..])
  }

  /** No attempt has been made and no charge outcome recorded yet. */
  predicate Initial(s: System) {
    && s.ledger.attempts == [] && s.ledger.stripe == map[] && s.ledger.creates == {} && s.callers == map[]
    && s.finalization.attempt == None && s.finalization.intent == None
    && s.finalization.status in {Packing, PackedPendingCharge}
    && s.order.mark == NoMark && s.orderHistory == {s.order}
  }
}
