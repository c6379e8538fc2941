/** The charge protocol charges a card at most once. */
module ChargeSafety {
  import opened Base
  import opened ChargeModel

  /*** Invariant ***/

  predicate Own(intent: Option<nat>, slot: nat) {
    intent == None || intent == Some(slot)
  }

  predicate RowOk(l: Ledger, i: nat)
    requires i < |l.attempts|
  {
    var a := l.attempts[i];
    && a.generation == i && a.number == i + 1 && a.token < l.nextToken
    && Own(a.intent, i)
    && (a.intent.Some? ==> i in l.stripe)
    && (a.status == Succeeded ==> a.intent.Some? && l.stripe[i].status == SucceededIntent)
    && (a.declineConfirmed || ConfirmedDecline(a) ==> TerminallyDeclined(l.stripe, i))
    && (i < |l.attempts| - 1 ==> ConfirmedDecline(a))
  }

  /** The newest attempt has settled as succeeded. */
  predicate SuccessRecorded(l: Ledger) {
    |l.attempts| > 0 && l.attempts[|l.attempts| - 1].status == Succeeded
  }

  /** A finalization row, or a caller's old snapshot of one, that names the newest attempt carries
      no intent or that attempt's own. */
  predicate LinkOk(l: Ledger, f: Finalization) {
    var n := |l.attempts|;
    && (f.attempt.Some? ==> f.attempt.value < n)
    && (n > 0 && f.attempt == Some(n - 1) ==> Own(f.intent, n - 1))
    && (n <= 1 ==> Own(f.intent, 0))
    && (f.intent.Some? ==> f.intent.value in l.stripe)
    && (f.status in {RecordingFailed, ChargedReady} ==> SuccessRecorded(l))
  }

  predicate MetaOk(l: Ledger, m: OrderMeta) {
    m.mark in {MarkRecordingFailed, MarkSucceeded} ==> SuccessRecorded(l)
  }

  /** Holding a claim that has not been settled as failed. */
  predicate Owns(p: Phase) {
    p.Claimed? || InTry(p) || p.Failing?
  }

  predicate HasClaim(p: Phase) {
    Owns(p) || p.Holding? || p.Held?
  }

  predicate PastReply(p: Phase) {
    p.Replied? || p.Settling? || p.Recording? || p.Released? || p.Announcing?
  }

  predicate PastSettlement(p: Phase) {
    p.Recording? || p.Released? || p.Announcing?
  }

  predicate ClaimOk(l: Ledger, me: Caller) {
    && me.slot < |l.attempts| && me.token < l.nextToken
    && me.key == me.slot && me.terms == l.attempts[me.slot].terms
    && Own(me.known, me.slot) && Own(me.persisted, me.slot)
    && (me.known.Some? || me.persisted.Some? ==> me.slot in l.stripe)
    && (me.payment.Some? ==> Truthful(l.stripe, me.slot, me.payment.value) && me.persisted.Some?)
    && (me.errorIntent.Some? ==> Truthful(l.stripe, me.slot, me.errorIntent.value))
    && (me.errorCode == CardDeclined ==>
          || TerminallyDeclined(l.stripe, me.slot)
          || (me.payment.Some? && me.payment.value.status != RequiresPaymentMethod))
    && (Owns(me.phase) && l.attempts[me.slot].token == me.token ==> l.attempts[me.slot].status != Failed)
    && (PastReply(me.phase) ==> me.payment.Some?)
    && (me.phase.Settling? || PastSettlement(me.phase) ==> PaymentSucceeded(me))
    && (PastSettlement(me.phase) || ((me.phase.Holding? || me.phase.Held?) && PaymentSucceeded(me)) ==>
          l.attempts[me.slot].status == Succeeded)
    && (me.phase.Claimed? || me.phase.Linked? || me.phase.Creating? || me.phase.Retrieving? ==> me.payment == None)
    && (Owns(me.phase) && !me.phase.Failing? ==> me.errorCode == NoCode && me.errorIntent == None)
    && (me.payment.Some? && me.errorIntent.Some? ==> me.errorIntent == me.payment)
    && (me.phase.Claimed? || me.phase.Linked? || me.phase.Creating? ==> me.persisted == None)
    && (me.phase == Retrieving ==> me.known.Some? && me.persisted == me.known)
  }

  /** A caller that has not claimed yet holds no payment state. */
  predicate Blank(me: Caller) {
    me.payment == None && me.persisted == None && me.errorCode == NoCode && me.errorIntent == None
  }

  predicate CallerOk(l: Ledger, me: Caller) {
    && MetaOk(l, me.order)
    && LinkOk(l, me.preview)
    && (if HasClaim(me.phase) then ClaimOk(l, me) else Blank(me))
  }

  predicate StripeOk(l: Ledger) {
    && (forall k <- l.stripe :: l.stripe[k].id == k && KeyUsed(l.creates, k))
    && (forall create <- l.creates :: create.0 < |l.attempts| && create.1 == l.attempts[create.0].terms)
  }

  predicate TokensApart(callers: map<nat, Caller>) {
    forall c, d | c in callers && d in callers && c != d
      && HasClaim(callers[c].phase) && HasClaim(callers[d].phase) ::
      callers[c].token != callers[d].token
  }

  predicate RowsOk(l: Ledger) {
    forall i: nat | i < |l.attempts| :: RowOk(l, i)
  }

  predicate LedgerOk(l: Ledger) {
    RowsOk(l) && StripeOk(l)
  }

  predicate RecordsOk(l: Ledger, f: Finalization, order: OrderMeta, history: set<OrderMeta>) {
    LinkOk(l, f) && (forall m <- history + {order} :: MetaOk(l, m))
  }

  predicate CallersOk(l: Ledger, callers: map<nat, Caller>) {
    (forall c <- callers :: CallerOk(l, callers[c])) && TokensApart(callers)
  }

  predicate Inv(s: System) {
    && LedgerOk(s.ledger)
    && RecordsOk(s.ledger, s.finalization, s.order, s.orderHistory)
    && CallersOk(s.ledger, s.callers)
  }

  /** Line 403 writes the intent without checking who owns the finalization.  It is harmless when the
      writer's attempt is the newest one, or the finalization does not name the newest attempt. */
  predicate IntentWriteGuard(s: System, c: nat)
    requires c in s.callers
  {
    var n := |s.ledger.attempts|;
    s.callers[c].slot == n - 1 || s.finalization.attempt != Some(n - 1)
  }

  predicate Guarded(s: System, e: Event) {
    e.WriteIntent? && Enabled(s, e) ==> IntentWriteGuard(s, e.c)
  }

  predicate GuardedRun(s: System, es: seq<Event>)
    decreases |es|
  {
    es == [] || (Guarded(s, es[0]) && GuardedRun(Step(s, es[0]), es[1..]))
  }

  /*** What every event keeps ***/

  predicate StripeGrows(old': map<nat, PaymentIntent>, new': map<nat, PaymentIntent>) {
    forall k <- old' ::
      && k in new'
      && (old'[k].status == SucceededIntent ==> new'[k].status == SucceededIntent)
      && (CardDeclinedIntent(old'[k]) ==> CardDeclinedIntent(new'[k]))
  }

  /** Rows keep their terms, a success is never downgraded, and a row is only added after a confirmed decline. */
  predicate AttemptsGrow(old': seq<Attempt>, new': seq<Attempt>) {
    && |old'| <= |new'| <= |old'| + 1
    && (forall i | 0 <= i < |old'| ::
          && new'[i].terms == old'[i].terms
          && (old'[i].status == Succeeded ==> new'[i].status == Succeeded))
    && (|new'| > |old'| > 0 ==> ConfirmedDecline(old'[|old'| - 1]))
  }

  predicate Grows(l: Ledger, k: Ledger) {
    AttemptsGrow(l.attempts, k.attempts) && StripeGrows(l.stripe, k.stripe) && l.nextToken <= k.nextToken
  }

  lemma LinkStable(l: Ledger, k: Ledger, f: Finalization)
    requires Grows(l, k) && LinkOk(l, f)
    ensures LinkOk(k, f)
  {
  }

  lemma MetaStable(l: Ledger, k: Ledger, m: OrderMeta)
    requires Grows(l, k) && MetaOk(l, m)
    ensures MetaOk(k, m)
  {
  }

  /** Nobody failed a row that `me` still holds the token of. */
  predicate OwnerUntouched(l: Ledger, k: Ledger, me: Caller)
    requires Grows(l, k) && me.slot < |l.attempts|
  {
    Owns(me.phase) && k.attempts[me.slot].token == me.token ==> k.attempts[me.slot].status != Failed
  }

  lemma CallerStable(l: Ledger, k: Ledger, me: Caller)
    requires Grows(l, k) && CallerOk(l, me)
    requires HasClaim(me.phase) ==> OwnerUntouched(l, k, me)
    ensures CallerOk(k, me)
  {
    LinkStable(l, k, me.preview);
    MetaStable(l, k, me.order);
  }

  lemma CallerReplaced(l: Ledger, callers: map<nat, Caller>, c: nat, me: Caller)
    requires CallersOk(l, callers) && CallerOk(l, me)
    requires HasClaim(me.phase) ==>
               c in callers && HasClaim(callers[c].phase) && callers[c].token == me.token
    ensures CallersOk(l, callers[c := me])
  {
  }

  lemma CallerGone(l: Ledger, callers: map<nat, Caller>, c: nat)
    requires CallersOk(l, callers)
    ensures CallersOk(l, callers - {c})
  {
  }

  lemma OrderReplaced(l: Ledger, f: Finalization, order: OrderMeta, history: set<OrderMeta>, m: OrderMeta)
    requires RecordsOk(l, f, order, history) && MetaOk(l, m)
    ensures RecordsOk(l, f, m, history + {m})
  {
  }

  lemma FinalizationReplaced(l: Ledger, f: Finalization, order: OrderMeta, history: set<OrderMeta>, g: Finalization)
    requires RecordsOk(l, f, order, history) && LinkOk(l, g)
    ensures RecordsOk(l, g, order, history)
  {
  }

  lemma Linking(l: Ledger, me: Caller)
    requires CallerOk(l, me) && me.phase == Claimed && RowsOk(l)
    ensures CallerOk(l, me.(phase := Linked))
    ensures LinkOk(l, Finalization(ChargeAttempting, Some(me.slot), me.known))
  {
  }

  lemma KeepsStart(s: System, c: nat)
    requires Inv(s) && Enabled(s, Start(c))
    ensures Inv(Apply(s, Start(c)))
  {
    assert MetaOk(s.ledger, s.order);
    CallerReplaced(s.ledger, s.callers, c, NewCaller(s.order));
  }

  lemma PreviewRead(l: Ledger, me: Caller, f: Finalization)
    requires CallerOk(l, me) && me.phase == Started && LinkOk(l, f)
    ensures CallerOk(l, me.(phase := Previewed, preview := f)) && !HasClaim(me.(phase := Previewed, preview := f).phase)
  {
  }

  lemma KeepsReadPreview(s: System, c: nat)
    requires Inv(s) && Enabled(s, ReadPreview(c))
    ensures Inv(Apply(s, ReadPreview(c)))
  {
    var me := s.callers[c];
    assert CallerOk(s.ledger, me);
    PreviewRead(s.ledger, me, s.finalization);
    CallerReplaced(s.ledger, s.callers, c, me.(phase := Previewed, preview := s.finalization));
  }

  /** The preview writes back the status it read, however old. */
  lemma KeepsWritePreview(s: System, c: nat)
    requires Inv(s) && Enabled(s, WritePreview(c))
    ensures Inv(Apply(s, WritePreview(c)))
  {
    var me := s.callers[c];
    assert CallerOk(s.ledger, me);
    ApprovedOk(s.ledger, me);
    CallerReplaced(s.ledger, s.callers, c, me.(phase := Approved));
    StatusRewritten(s.ledger, me.preview, s.finalization);
    FinalizationReplaced(s.ledger, s.finalization, s.order, s.orderHistory,
                         s.finalization.(status := me.preview.status));
  }

  lemma ApprovedOk(l: Ledger, me: Caller)
    requires CallerOk(l, me) && me.phase == Previewed
    ensures CallerOk(l, me.(phase := Approved)) && !HasClaim(me.(phase := Approved).phase)
  {
  }

  lemma StatusRewritten(l: Ledger, preview: Finalization, f: Finalization)
    requires LinkOk(l, preview) && LinkOk(l, f)
    ensures LinkOk(l, f.(status := preview.status))
  {
  }

  lemma KeepsLeave(s: System, c: nat)
    requires Inv(s) && Enabled(s, Leave(c))
    ensures Inv(Apply(s, Leave(c)))
  {
    CallerGone(s.ledger, s.callers, c);
  }

  lemma KeepsLink(s: System, c: nat)
    requires Inv(s) && Enabled(s, LinkFinalization(c))
    ensures Inv(Apply(s, LinkFinalization(c)))
  {
    var me := s.callers[c];
    Linking(s.ledger, me);
    CallerReplaced(s.ledger, s.callers, c, me.(phase := Linked));
    FinalizationReplaced(s.ledger, s.finalization, s.order, s.orderHistory,
                         Finalization(ChargeAttempting, Some(me.slot), me.known));
  }

  lemma ReplyReceived(l: Ledger, me: Caller, reply: StripeReply)
    requires CallerOk(l, me) && (me.phase.Creating? || (me.phase.Retrieving? && me.known.Some?))
    requires StripeMaySay(l.stripe, if me.phase.Creating? then me.key else me.known.value, reply)
    ensures CallerOk(l, Receiving(me, reply)) && HasClaim(Receiving(me, reply).phase)
    ensures Receiving(me, reply).token == me.token
  {
  }

  lemma KeepsReceive(s: System, c: nat, reply: StripeReply)
    requires Inv(s) && Enabled(s, Receive(c, reply))
    ensures Inv(Apply(s, Receive(c, reply)))
  {
    assert CallerOk(s.ledger, s.callers[c]);
    ReplyReceived(s.ledger, s.callers[c], reply);
    CallerReplaced(s.ledger, s.callers, c, Receiving(s.callers[c], reply));
  }

  function Thrown(me: Caller): Caller {
    me.(phase := Failing, errorCode := NoCode, errorIntent := None)
  }

  lemma ThrowKeeps(l: Ledger, me: Caller)
    requires CallerOk(l, me) && InTry(me.phase)
    ensures CallerOk(l, Thrown(me))
  {
  }

  lemma KeepsThrow(s: System, c: nat)
    requires Inv(s) && Enabled(s, Throw(c))
    ensures Inv(Apply(s, Throw(c)))
  {
    assert CallerOk(s.ledger, s.callers[c]);
    ThrowKeeps(s.ledger, s.callers[c]);
    CallerReplaced(s.ledger, s.callers, c, Thrown(s.callers[c]));
  }

  lemma IntentWritten(l: Ledger, me: Caller, f: Finalization)
    requires CallerOk(l, me) && me.phase == Replied && LinkOk(l, f)
    requires me.slot == |l.attempts| - 1 || f.attempt != Some(|l.attempts| - 1)
    ensures me.payment.Some?
    ensures CallerOk(l, AfterIntentWrite(me))
    ensures AfterIntentWrite(me).token == me.token
    ensures LinkOk(l, f.(intent := Some(me.payment.value.id)))
  {
  }

  lemma KeepsWriteIntent(s: System, c: nat)
    requires Inv(s) && Enabled(s, WriteIntent(c)) && IntentWriteGuard(s, c)
    ensures Inv(Apply(s, WriteIntent(c)))
  {
    var me := s.callers[c];
    var f := s.finalization.(intent := Some(me.payment.value.id));
    assert CallerOk(s.ledger, AfterIntentWrite(me)) && LinkOk(s.ledger, f) && AfterIntentWrite(me).token == me.token by {
      IntentWritten(s.ledger, me, s.finalization);
    }
    assert CallersOk(s.ledger, s.callers[c := AfterIntentWrite(me)]) by {
      CallerReplaced(s.ledger, s.callers, c, AfterIntentWrite(me));
    }
    assert RecordsOk(s.ledger, f, s.order, s.orderHistory) by {
      FinalizationReplaced(s.ledger, s.finalization, s.order, s.orderHistory, f);
    }
    assert Apply(s, WriteIntent(c)) ==
      System(s.ledger, f, s.order, s.orderHistory, s.callers[c := AfterIntentWrite(me)]);
  }

  /** A row whose success is recorded is the newest one. */
  lemma SucceededIsNewest(l: Ledger, slot: nat)
    requires RowsOk(l) && slot < |l.attempts| && l.attempts[slot].status == Succeeded
    ensures slot == |l.attempts| - 1 && SuccessRecorded(l)
  {
    assert RowOk(l, slot);
  }

  lemma ReleaseRecorded(l: Ledger, me: Caller)
    requires RowsOk(l) && CallerOk(l, me) && (me.phase.Recording? || me.phase.Released?)
    ensures me.payment.Some? && SuccessRecorded(l)
    ensures CallerOk(l, me.(phase := Released)) && CallerOk(l, me.(phase := Announcing))
    ensures LinkOk(l, Finalization(ChargedReady, Some(me.slot), Some(me.payment.value.id)))
  {
    SucceededIsNewest(l, me.slot);
  }

  lemma KeepsRecordRelease(s: System, c: nat)
    requires Inv(s) && Enabled(s, RecordRelease(c))
    ensures Inv(Apply(s, RecordRelease(c)))
  {
    var me := s.callers[c];
    ReleaseRecorded(s.ledger, me);
    CallerReplaced(s.ledger, s.callers, c, me.(phase := Released));
  }

  lemma KeepsRecordOrder(s: System, c: nat)
    requires Inv(s) && Enabled(s, RecordOrder(c))
    ensures Inv(Apply(s, RecordOrder(c)))
  {
    var me := s.callers[c];
    ReleaseRecorded(s.ledger, me);
    CallerReplaced(s.ledger, s.callers, c, me.(phase := Announcing));
    OrderReplaced(s.ledger, s.finalization, s.order, s.orderHistory, OrderMeta(MarkSucceeded, Some(me.payment.value.id)));
  }

  lemma HoldRecorded(l: Ledger, me: Caller)
    requires RowsOk(l) && CallerOk(l, me) && (me.phase.Holding? || me.phase.Held?)
    ensures PaymentSucceeded(me) ==> SuccessRecorded(l)
    ensures CallerOk(l, me.(phase := Held))
    ensures LinkOk(l, Finalization(if PaymentSucceeded(me) then RecordingFailed else ChargeFailedHold,
                                   Some(me.slot), FailureIntent(me)))
  {
    if PaymentSucceeded(me) {
      SucceededIsNewest(l, me.slot);
    }
  }

  lemma KeepsWriteHold(s: System, c: nat)
    requires Inv(s) && Enabled(s, WriteHold(c))
    ensures Inv(Apply(s, WriteHold(c)))
  {
    var me := s.callers[c];
    HoldRecorded(s.ledger, me);
    CallerReplaced(s.ledger, s.callers, c, me.(phase := Held));
  }

  lemma KeepsWriteHoldOrder(s: System, c: nat)
    requires Inv(s) && Enabled(s, WriteHoldOrder(c))
    ensures Inv(Apply(s, WriteHoldOrder(c)))
  {
    HoldRecorded(s.ledger, s.callers[c]);
    CallerGone(s.ledger, s.callers, c);
  }

  lemma KeepsStaff(s: System, e: Event)
    requires Inv(s) && Enabled(s, e) && (e.StaffStatus? || e.RestoreOrder?)
    ensures Inv(Apply(s, e))
  {
  }

  /*** Events that change the attempt rows or Stripe ***/

  lemma RecordsStable(l: Ledger, k: Ledger, f: Finalization, order: OrderMeta, history: set<OrderMeta>)
    requires Grows(l, k) && RecordsOk(l, f, order, history)
    ensures RecordsOk(k, f, order, history)
  {
    LinkStable(l, k, f);
    forall m | m in history + {order}
      ensures MetaOk(k, m)
    {
      MetaStable(l, k, m);
    }
  }

  /** No row's unsettled owner was failed by somebody else. */
  predicate OwnersUntouched(l: Ledger, k: Ledger, callers: map<nat, Caller>)
    requires Grows(l, k)
  {
    forall c <- callers :: HasClaim(callers[c].phase) ==>
      callers[c].slot < |l.attempts| && OwnerUntouched(l, k, callers[c])
  }

  lemma CallersStable(l: Ledger, k: Ledger, callers: map<nat, Caller>)
    requires Grows(l, k) && CallersOk(l, callers) && OwnersUntouched(l, k, callers)
    ensures CallersOk(k, callers)
  {
    forall c | c in callers
      ensures CallerOk(k, callers[c])
    {
      CallerStable(l, k, callers[c]);
    }
  }

  lemma StripeOnlyGrows(l: Ledger, k: Ledger)
    requires RowsOk(l) && StripeGrows(l.stripe, k.stripe)
    requires k.attempts == l.attempts && k.nextToken == l.nextToken
    ensures RowsOk(k)
  {
    forall i: nat | i < |k.attempts|
      ensures RowOk(k, i)
    {
      assert RowOk(l, i);
    }
  }

  /** An intent may appear or move on, unless it has reached a terminal outcome. */
  predicate MayMove(l: Ledger, key: nat) {
    && KeyUsed(l.creates, key)
    && (key in l.stripe ==> l.stripe[key].status != SucceededIntent && !CardDeclinedIntent(l.stripe[key]))
  }

  lemma IntentMoved(l: Ledger, key: nat, status: IntentStatus, lastError: ErrorCode)
    requires LedgerOk(l) && MayMove(l, key)
    ensures var k := WithIntent(l, key, status, lastError); Grows(l, k) && LedgerOk(k)
  {
    StripeOnlyGrows(l, WithIntent(l, key, status, lastError));
  }

  lemma KeepsStripe(s: System, key: nat, status: IntentStatus, lastError: ErrorCode)
    requires Inv(s) && MayMove(s.ledger, key)
    ensures Inv(s.(ledger := WithIntent(s.ledger, key, status, lastError)))
  {
    var k := WithIntent(s.ledger, key, status, lastError);
    IntentMoved(s.ledger, key, status, lastError);
    RecordsStable(s.ledger, k, s.finalization, s.order, s.orderHistory);
    CallersStable(s.ledger, k, s.callers);
  }

  function Asked(l: Ledger, me: Caller): Ledger {
    l.(creates := l.creates + {(me.key, me.terms)})
  }

  lemma CreateCalled(l: Ledger, me: Caller)
    requires LedgerOk(l) && CallerOk(l, me) && me.phase == Linked
    ensures Grows(l, Asked(l, me)) && LedgerOk(Asked(l, me)) && CallerOk(l, me.(phase := Creating))
  {
    var k := Asked(l, me);
    StripeOnlyGrows(l, k);
    forall key | key in k.stripe
      ensures KeyUsed(k.creates, key)
    {
      var create :| create in l.creates && create.0 == key;
      assert create in k.creates;
    }
  }

  lemma RetrieveCalled(l: Ledger, me: Caller)
    requires CallerOk(l, me) && me.phase == Linked && me.known.Some?
    ensures CallerOk(l, me.(phase := Retrieving, persisted := me.known))
  {
  }

  lemma NobodyTouched(l: Ledger, k: Ledger, callers: map<nat, Caller>)
    requires CallersOk(l, callers) && Grows(l, k) && k.attempts == l.attempts
    ensures OwnersUntouched(l, k, callers)
  {
    forall c | c in callers && HasClaim(callers[c].phase)
      ensures callers[c].slot < |l.attempts| && OwnerUntouched(l, k, callers[c])
    {
      assert CallerOk(l, callers[c]);
    }
  }

  lemma KeepsCreateCall(s: System, c: nat)
    requires Inv(s) && Enabled(s, CallStripe(c)) && s.callers[c].known.None?
    ensures Inv(Apply(s, CallStripe(c)))
  {
    var me := s.callers[c];
    assert CallerOk(s.ledger, me);
    CreateCalled(s.ledger, me);
    var k, callers := Asked(s.ledger, me), s.callers[c := me.(phase := Creating)];
    CallerReplaced(s.ledger, s.callers, c, me.(phase := Creating));
    NobodyTouched(s.ledger, k, callers);
    Stays(s.(callers := callers), k);
  }

  /** Everything stays in order over a ledger that grows under nobody's feet. */
  lemma Stays(s: System, k: Ledger)
    requires Inv(s) && Grows(s.ledger, k) && LedgerOk(k) && OwnersUntouched(s.ledger, k, s.callers)
    ensures Inv(s.(ledger := k))
  {
    RecordsStable(s.ledger, k, s.finalization, s.order, s.orderHistory);
    CallersStable(s.ledger, k, s.callers);
  }

  lemma KeepsCallStripe(s: System, c: nat)
    requires Inv(s) && Enabled(s, CallStripe(c))
    ensures Inv(Apply(s, CallStripe(c)))
  {
    var me := s.callers[c];
    if me.known.Some? {
      assert CallerOk(s.ledger, me);
      RetrieveCalled(s.ledger, me);
      CallerReplaced(s.ledger, s.callers, c, me.(phase := Retrieving, persisted := me.known));
    } else {
      KeepsCreateCall(s, c);
    }
  }

  /** `c` moves to `me` over a growing ledger, keeping its token or holding a brand new one. */
  lemma CallersMoved(l: Ledger, k: Ledger, callers: map<nat, Caller>, c: nat, me: Caller)
    requires Grows(l, k) && CallersOk(l, callers) && c in callers
    requires OwnersUntouched(l, k, callers - {c})
    requires CallerOk(k, me) && HasClaim(me.phase)
    requires (HasClaim(callers[c].phase) && callers[c].token == me.token) || me.token == l.nextToken
    ensures CallersOk(k, callers[c := me])
  {
    CallerGone(l, callers, c);
    CallersStable(l, k, callers - {c});
    assert forall d | d in callers && d != c :: d in callers - {c};
  }

  /*** Claiming ***/

  function Below(n: nat): set<nat> {
    if n == 0 then {} else Below(n - 1) + {n - 1}
  }

  lemma {:induction false} BelowCounted(n: nat)
    ensures |Below(n)| == n && forall g: nat :: g in Below(n) <==> g < n
  {
    if n > 0 {
      BelowCounted(n - 1);
    }
  }

  lemma {:induction false} LargestIsLast(attempts: seq<Attempt>)
    requires forall i: nat | i < |attempts| :: attempts[i].number == i + 1
    ensures LargestNumber(attempts) == |attempts|
  {
    if attempts != [] {
      LargestIsLast(attempts[..|attempts| - 1]);
    }
  }

  lemma GenerationsCounted(attempts: seq<Attempt>)
    requires forall i: nat | i < |attempts| ::
               ConfirmedDecline(attempts[i]) && attempts[i].generation == i && attempts[i].number == i + 1
    ensures |DeclineGenerations(attempts)| == |attempts| == LargestNumber(attempts)
  {
    LargestIsLast(attempts);
    BelowCounted(|attempts|);
    assert DeclineGenerations(attempts) == Below(|attempts|) by {
      forall g | g in Below(|attempts|)
        ensures g in DeclineGenerations(attempts)
      {
        assert attempts[g].generation == g;
      }
    }
  }

  /** The row a successful claim owns: the newest, pending unless it has already succeeded. */
  lemma ClaimedRow(l: Ledger, input: ClaimInput)
    requires LedgerOk(l) && input.token == l.nextToken && Claim(l.attempts, input).1
    ensures var k := ClaimedLedger(l, input);
            var n := |k.attempts| - 1;
            && NewlyClaimed(l, k)
            && (n < |l.attempts| ==> k.attempts[n].status == Succeeded || l.attempts[n].status != Succeeded)
  {
    var last := |l.attempts| - 1;
    var k := ClaimedLedger(l, input);
    if last >= 0 {
      assert RowOk(l, last);
    }
    if last >= 0 && !ConfirmedDecline(l.attempts[last]) {
      assert k.attempts == l.attempts[last := Reclaimed(l.attempts[last], input)];
    } else {
      forall i: nat | i < |l.attempts|
        ensures ConfirmedDecline(l.attempts[i]) && l.attempts[i].generation == i && l.attempts[i].number == i + 1
      {
        assert RowOk(l, i);
      }
      GenerationsCounted(l.attempts);
      assert k.attempts == l.attempts + [FreshAttempt(l.attempts, input)];
    }
    forall i: nat | i < |k.attempts|
      ensures RowOk(k, i)
    {
      if i < |l.attempts| {
        assert RowOk(l, i);
      }
    }
  }

  /** Whatever a fresh claim adopts, from however old a preview, is its own attempt's intent. */
  lemma AdoptsOwnIntent(l: Ledger, k: Ledger, preview: Finalization, order: OrderMeta)
    requires LedgerOk(l) && LedgerOk(k) && Grows(l, k) && LinkOk(l, preview) && MetaOk(l, order)
    requires |k.attempts| > 0 && l.stripe == k.stripe
    requires |l.attempts| == |k.attempts| && SuccessRecorded(l) ==> SuccessRecorded(k)
    ensures var slot := |k.attempts| - 1;
            var known := AdoptedIntent(k.attempts[slot], slot, preview, order);
            Own(known, slot) && (known.Some? ==> slot in k.stripe)
  {
    var slot := |k.attempts| - 1;
    assert RowOk(k, slot);
    LinkStable(l, k, preview);
    MetaStable(l, k, order);
  }

  function Installed(k: Ledger, me: Caller): Caller
    requires |k.attempts| > 0
  {
    var slot := |k.attempts| - 1;
    var row := k.attempts[slot];
    me.(phase := Claimed, slot := slot, token := row.token, key := row.generation, terms := row.terms,
        known := AdoptedIntent(row, slot, me.preview, me.order))
  }

  /** A ledger in which the newest row has just been claimed. */
  predicate NewlyClaimed(l: Ledger, k: Ledger) {
    && Grows(l, k) && LedgerOk(k) && |k.attempts| > 0 && k.nextToken == l.nextToken + 1
    && var n := |k.attempts| - 1;
       && k.attempts[n].token == l.nextToken && k.attempts[n].status != Failed
       && forall i: nat | i < n :: k.attempts[i] == l.attempts[i]
  }

  lemma ClaimantOk(l: Ledger, k: Ledger, me: Caller)
    requires NewlyClaimed(l, k) && CallerOk(l, me) && me.phase == Approved
    requires var n := |k.attempts| - 1;
             var known := AdoptedIntent(k.attempts[n], n, me.preview, me.order);
             Own(known, n) && (known.Some? ==> n in k.stripe)
    ensures CallerOk(k, Installed(k, me)) && Installed(k, me).token == l.nextToken
  {
    LinkStable(l, k, me.preview);
    MetaStable(l, k, me.order);
    InstalledClaim(k, me);
  }

  lemma InstalledClaim(k: Ledger, me: Caller)
    requires RowsOk(k) && |k.attempts| > 0 && Blank(me) && k.attempts[|k.attempts| - 1].status != Failed
    requires var known := Installed(k, me).known;
             Own(known, |k.attempts| - 1) && (known.Some? ==> |k.attempts| - 1 in k.stripe)
    ensures ClaimOk(k, Installed(k, me))
  {
    assert RowOk(k, |k.attempts| - 1);
  }

  lemma OthersUntouched(l: Ledger, k: Ledger, callers: map<nat, Caller>)
    requires NewlyClaimed(l, k) && CallersOk(l, callers)
    ensures OwnersUntouched(l, k, callers)
  {
    forall d | d in callers && HasClaim(callers[d].phase)
      ensures callers[d].slot < |l.attempts| && OwnerUntouched(l, k, callers[d])
    {
      assert CallerOk(l, callers[d]);
    }
  }

  lemma ClaimInstalled(s: System, k: Ledger, c: nat)
    requires Inv(s) && At(s, c, Approved) && NewlyClaimed(s.ledger, k)
    requires var n := |k.attempts| - 1;
             var known := AdoptedIntent(k.attempts[n], n, s.callers[c].preview, s.callers[c].order);
             Own(known, n) && (known.Some? ==> n in k.stripe)
    ensures Inv(s.(ledger := k, callers := s.callers[c := Installed(k, s.callers[c])]))
  {
    assert CallerOk(s.ledger, s.callers[c]);
    ClaimantOk(s.ledger, k, s.callers[c]);
    CallerGone(s.ledger, s.callers, c);
    OthersUntouched(s.ledger, k, s.callers - {c});
    Moves(s, k, c, Installed(k, s.callers[c]));
  }

  /** Everything stays in order when one caller moves over a growing ledger. */
  lemma Moves(s: System, k: Ledger, c: nat, me: Caller)
    requires Inv(s) && c in s.callers && Grows(s.ledger, k) && LedgerOk(k) && OwnersUntouched(s.ledger, k, s.callers - {c})
    requires CallerOk(k, me) && HasClaim(me.phase)
    requires (HasClaim(s.callers[c].phase) && s.callers[c].token == me.token) || me.token == s.ledger.nextToken
    ensures Inv(s.(ledger := k, callers := s.callers[c := me]))
  {
    CallersMoved(s.ledger, k, s.callers, c, me);
    RecordsStable(s.ledger, k, s.finalization, s.order, s.orderHistory);
  }

  function ClaimInputOf(s: System, e: Event): ClaimInput
    requires e.ClaimAttempt? && Enabled(s, e)
  {
    ClaimInput(s.callers[e.c].preview.status, e.newTerms, e.now, e.ttl, s.ledger.nextToken)
  }

  function ClaimedLedger(l: Ledger, input: ClaimInput): Ledger {
    l.(attempts := Claim(l.attempts, input).0, nextToken := l.nextToken + 1)
  }

  lemma OwnedClaimShape(s: System, e: Event)
    requires e.ClaimAttempt? && Enabled(s, e) && Claim(s.ledger.attempts, ClaimInputOf(s, e)).1
    ensures var k := ClaimedLedger(s.ledger, ClaimInputOf(s, e));
            |k.attempts| > 0 && Apply(s, e) == s.(ledger := k, callers := s.callers[e.c := Installed(k, s.callers[e.c])])
  {
  }

  lemma KeepsOwnedClaim(s: System, e: Event)
    requires Inv(s) && e.ClaimAttempt? && Enabled(s, e) && Claim(s.ledger.attempts, ClaimInputOf(s, e)).1
    ensures Inv(Apply(s, e))
  {
    var me := s.callers[e.c];
    var input := ClaimInputOf(s, e);
    ClaimedRow(s.ledger, input);
    var k := ClaimedLedger(s.ledger, input);
    assert LinkOk(s.ledger, me.preview) && MetaOk(s.ledger, me.order) by {
      assert CallerOk(s.ledger, me);
    }
    AdoptsOwnIntent(s.ledger, k, me.preview, me.order);
    ClaimInstalled(s, k, e.c);
    OwnedClaimShape(s, e);
  }

  lemma KeepsClaim(s: System, e: Event)
    requires Inv(s) && e.ClaimAttempt? && Enabled(s, e)
    ensures Inv(Apply(s, e))
  {
    if Claim(s.ledger.attempts, ClaimInputOf(s, e)).1 {
      KeepsOwnedClaim(s, e);
    } else {
      CallerGone(s.ledger, s.callers, e.c);
    }
  }

  /*** Settling ***/

  /** What a settlement says about Stripe is true of the attempt's own intent. */
  predicate Evidence(l: Ledger, slot: nat, input: SettleInput) {
    && Own(input.intent, slot)
    && (input.intent.Some? ==> slot in l.stripe)
    && (input.succeeded ==> input.intent.Some? && l.stripe[slot].status == SucceededIntent)
    && (input.declineConfirmed ==> TerminallyDeclined(l.stripe, slot))
    && (input.failureCode == CardDeclined ==>
          || TerminallyDeclined(l.stripe, slot)
          || (input.stripeStatus.Some? && input.stripeStatus.value != RequiresPaymentMethod))
  }

  lemma SettledLedger(l: Ledger, slot: nat, token: nat, input: SettleInput)
    requires LedgerOk(l) && slot < |l.attempts| && Evidence(l, slot, input)
    requires token == l.attempts[slot].token ==> l.attempts[slot].status != Failed
    ensures var k := l.(attempts := Settle(l.attempts, slot, token, input).0); Grows(l, k) && LedgerOk(k)
    ensures token == l.attempts[slot].token ==> slot == |l.attempts| - 1
  {
    var k := l.(attempts := Settle(l.attempts, slot, token, input).0);
    assert RowOk(l, slot);
    forall i: nat | i < |k.attempts|
      ensures RowOk(k, i)
    {
      assert RowOk(l, i);
    }
  }

  lemma FailureEvidence(l: Ledger, me: Caller, now: int)
    requires LedgerOk(l) && ClaimOk(l, me) && me.phase == Failing
    ensures Evidence(l, me.slot, FailureSettlement(me, now))
  {
  }

  lemma KeepsSettlement(s: System, c: nat, input: SettleInput, stop: bool, next: Phase)
    requires Inv(s) && (At(s, c, Settling) || At(s, c, Failing)) && s.callers[c].slot < |s.ledger.attempts|
    requires Evidence(s.ledger, s.callers[c].slot, input) && MayFollow(s.callers[c], input, next)
    requires next == Holding ==> stop != input.succeeded
    ensures Inv(Settlement(s, c, input, stop, next))
  {
    var me := s.callers[c];
    if Settle(s.ledger.attempts, me.slot, me.token, input).1 == Settled {
      SettledMoves(s, c, input, next);
    } else {
      CallerGone(s.ledger, s.callers, c);
    }
  }

  /** A success is recorded next, and only for an intent that succeeded; anything else puts the order on hold. */
  predicate MayFollow(me: Caller, input: SettleInput, next: Phase) {
    && (next.Recording? || next.Holding?)
    && (next == Recording ==> input.succeeded && me.phase.Settling? && PaymentSucceeded(me))
    && (next == Holding ==> input.succeeded == PaymentSucceeded(me))
  }

  lemma SettledMoves(s: System, c: nat, input: SettleInput, next: Phase)
    requires Inv(s) && (At(s, c, Settling) || At(s, c, Failing)) && s.callers[c].slot < |s.ledger.attempts|
    requires Evidence(s.ledger, s.callers[c].slot, input) && MayFollow(s.callers[c], input, next)
    requires Settle(s.ledger.attempts, s.callers[c].slot, s.callers[c].token, input).1 == Settled
    ensures var me := s.callers[c];
            var k := s.ledger.(attempts := Settle(s.ledger.attempts, me.slot, me.token, input).0);
            Inv(s.(ledger := k, callers := s.callers[c := me.(phase := next)]))
  {
    var me, l := s.callers[c], s.ledger;
    assert CallerOk(l, me);
    SettledCaller(l, me, input, next);
    var k := l.(attempts := l.attempts[me.slot := SettledRow(l.attempts[me.slot], input)]);
    OthersKeepRows(s, k, c);
    Moves(s, k, c, me.(phase := next));
  }

  lemma SettledCaller(l: Ledger, me: Caller, input: SettleInput, next: Phase)
    requires LedgerOk(l) && CallerOk(l, me) && (me.phase.Settling? || me.phase.Failing?) && me.slot < |l.attempts|
    requires Evidence(l, me.slot, input) && MayFollow(me, input, next)
    requires Settle(l.attempts, me.slot, me.token, input).1 == Settled
    ensures var k := l.(attempts := l.attempts[me.slot := SettledRow(l.attempts[me.slot], input)]);
            && k.attempts == Settle(l.attempts, me.slot, me.token, input).0
            && Grows(l, k) && LedgerOk(k) && CallerOk(k, me.(phase := next))
  {
    SettledLedger(l, me.slot, me.token, input);
    CallerSettled(l, l.(attempts := Settle(l.attempts, me.slot, me.token, input).0), me, next, input);
  }

  lemma CallerSettled(l: Ledger, k: Ledger, me: Caller, next: Phase, input: SettleInput)
    requires CallerOk(l, me) && (me.phase.Settling? || me.phase.Failing?) && Grows(l, k) && me.slot < |l.attempts|
    requires k == l.(attempts := l.attempts[me.slot := SettledRow(l.attempts[me.slot], input)])
    requires MayFollow(me, input, next)
    ensures CallerOk(k, me.(phase := next))
  {
    LinkStable(l, k, me.preview);
    MetaStable(l, k, me.order);
  }

  lemma OthersKeepRows(s: System, k: Ledger, c: nat)
    requires Inv(s) && c in s.callers && HasClaim(s.callers[c].phase) && Grows(s.ledger, k)
    requires s.callers[c].slot < |s.ledger.attempts| == |k.attempts|
    requires s.callers[c].token == s.ledger.attempts[s.callers[c].slot].token
    requires forall i: nat | i < |k.attempts| :: k.attempts[i].token == s.ledger.attempts[i].token
    requires forall i: nat | i < |k.attempts| && i != s.callers[c].slot :: k.attempts[i] == s.ledger.attempts[i]
    ensures OwnersUntouched(s.ledger, k, s.callers - {c})
  {
    forall d | d in s.callers - {c} && HasClaim(s.callers[d].phase)
      ensures s.callers[d].slot < |s.ledger.attempts| && OwnerUntouched(s.ledger, k, s.callers[d])
    {
      assert CallerOk(s.ledger, s.callers[d]);
    }
  }
}
