/** The charge code itself: the two locked transactions over the attempt table, and one caller's run. */
module ChargeDesk {
  import opened Base
  import opened ChargeModel
  import opened ChargeSafety
  import opened ChargeTheorems

  /*** Idempotency keys ***/

  function Digit(d: nat): char
    requires d < 10
  {
    "0123456789"[d]
  }

  function Decimal(n: nat): string {
    if n < 10 then [Digit(n)] else Decimal(n / 10) + [Digit(n % 10)]
  }

  function IdempotencyKey(root: string, declines: int): string {
    var generation := Max(0, declines);
    if generation > 0 then root + ":decline:" + Decimal(generation) else root
  }

  lemma {:induction false} DecimalInjective(m: nat, n: nat)
    requires Decimal(m) == Decimal(n)
    ensures m == n
  {
    DecimalLength(m);
    DecimalLength(n);
    if m >= 10 && n >= 10 {
      DecimalEnds(m);
      DecimalEnds(n);
      DecimalInjective(m / 10, n / 10);
      SameParts(m, n);
    }
  }

  lemma DecimalEnds(n: nat)
    requires n >= 10
    ensures var u := Decimal(n); |u| > 0 && u[..|u| - 1] == Decimal(n / 10) && u[|u| - 1] == Digit(n % 10)
  {
    assert (Decimal(n / 10) + [Digit(n % 10)])[..|Decimal(n / 10)|] == Decimal(n / 10);
  }

  lemma SameParts(m: nat, n: nat)
    requires m / 10 == n / 10 && Digit(m % 10) == Digit(n % 10)
    ensures m == n
  {
  }

  lemma DecimalLength(n: nat)
    ensures |Decimal(n)| >= 1 && (|Decimal(n)| == 1 <==> n < 10)
  {
  }

  /** Distinct decline generations of one finalization never share a key, so the generation names the key. */
  lemma KeysOfGenerationsDiffer(root: string, m: nat, n: nat)
    requires IdempotencyKey(root, m) == IdempotencyKey(root, n)
    ensures m == n
  {
    var tail := ":decline:";
    if m > 0 && n > 0 {
      assert (root + tail + Decimal(m))[|root + tail|..] == Decimal(m);
      assert (root + tail + Decimal(n))[|root + tail|..] == Decimal(n);
      DecimalInjective(m, n);
    }
  }

  /*** The records of one finalization ***/

  datatype Outcome =
    | AlreadyCharged | PreflightRejected | ChargeInProgress | Charged | ChargeFailed | ChargeRecordingFailed

  /** The outcome returned to the caller is the one left on the finalization and the order. */
  predicate OutcomeRecorded(result: Outcome, f: Finalization, order: OrderMeta) {
    match result
    case AlreadyCharged => order.mark == MarkSucceeded
    case Charged => f.status == ChargedReady && order.mark == MarkSucceeded
    case ChargeFailed => f.status == ChargeFailedHold && order.mark == MarkFailed
    case ChargeRecordingFailed => f.status == RecordingFailed && order.mark == MarkRecordingFailed
    case ChargeInProgress => true
    case PreflightRejected => !MayCharge(f.status)
  }

  /** How Stripe responds when it is called: not at all, or by settling a new intent this way. */
  datatype Answer = NoAnswer | Answered(intentStatus: IntentStatus, lastError: ErrorCode)

  /** Of the attempts only this one has changed, in neither its terms nor its token; and Stripe was not asked. */
  ghost predicate OneRowChanged(l: Ledger, l': Ledger, slot: nat) {
    && slot < |l.attempts| == |l'.attempts| && l' == l.(attempts := l.attempts[slot := l'.attempts[slot]])
    && l'.attempts[slot].terms == l.attempts[slot].terms && l'.attempts[slot].token == l.attempts[slot].token
  }

  /** What the failure path leaves: nothing more when the claim is lost or a success stands; else the attempt settled
      and both records on hold, as recording failures of a paid intent and as failed charges otherwise. */
  ghost predicate FailureLeaves(result: Outcome, l: Ledger, l': Ledger, f: Finalization, f': Finalization,
                                o: OrderMeta, o': OrderMeta, me: Caller, now: int)
  {
    && me.slot < |l.attempts|
    && var row := l.attempts[me.slot];
       if row.token != me.token || (row.status == Succeeded && !PaymentSucceeded(me)) then
         result == ChargeInProgress && l' == l && f' == f && o' == o
       else
         && result == (if PaymentSucceeded(me) then ChargeRecordingFailed else ChargeFailed)
         && OneRowChanged(l, l', me.slot) && SettledAs(row, l'.attempts[me.slot], FailureSettlement(me, now))
         && f' == Finalization(if PaymentSucceeded(me) then RecordingFailed else ChargeFailedHold, Some(me.slot), FailureIntent(me))
         && o' == OrderMeta(if PaymentSucceeded(me) then MarkRecordingFailed else MarkFailed, FailureIntent(me))
  }

  /** What recording a payment leaves: the attempt succeeded under its intent, and the order released, or on hold as
      charged when the release cannot be recorded. */
  ghost predicate SuccessLeaves(result: Outcome, l: Ledger, l': Ledger, f': Finalization, o': OrderMeta,
                                slot: nat, intent: nat, bookingFails: bool)
  {
    && result == (if bookingFails then ChargeRecordingFailed else Charged)
    && OneRowChanged(l, l', slot) && l'.attempts[slot].status == Succeeded && l'.attempts[slot].intent == Some(intent)
    && f' == Finalization(if bookingFails then RecordingFailed else ChargedReady, Some(slot), Some(intent))
    && o' == OrderMeta(if bookingFails then MarkRecordingFailed else MarkSucceeded, Some(intent))
  }

  /** What a caller knows after its call: nothing new from a lost connection; a decline from a refused create; and
      otherwise the intent, whatever has become of it. */
  ghost predicate Heard(answer: Answer, stripe: map<nat, PaymentIntent>, id: nat, known: Option<nat>,
                        payment: Option<PaymentIntent>, persisted: Option<nat>, errorCode: ErrorCode,
                        errorIntent: Option<PaymentIntent>)
  {
    if answer.NoAnswer? then payment == None && persisted == known && errorCode == NoCode && errorIntent == None
    else
      && id in stripe && stripe[id].id == id
      && (if known.None? && TerminallyDeclined(stripe, id) then
            payment == None && persisted == None && errorCode == CardDeclined && errorIntent == Some(stripe[id])
          else
            payment == Some(stripe[id]) && persisted == Some(id) && errorCode == NoCode && errorIntent == None)
  }

  /** Stripe was asked and answered, and the attempt's own intent has succeeded. */
  predicate Paid(answer: Answer, stripe: map<nat, PaymentIntent>, slot: nat) {
    answer.Answered? && slot in stripe && stripe[slot].status == SucceededIntent
  }

  /** What Stripe holds and was asked after a run: a new intent only when none is known, and never a second one. */
  ghost predicate StripeAfter(l: Ledger, l': Ledger, slot: nat, known: Option<nat>, answer: Answer)
    requires slot < |l.attempts|
  {
    && l'.creates == l.creates + (if known.None? then {(slot, l.attempts[slot].terms)} else {})
    && l'.stripe == (if answer.Answered? && slot !in l.stripe
                     then l.stripe[slot := PaymentIntent(slot, answer.intentStatus, answer.lastError)] else l.stripe)
  }

  /** What a run leaves once the newest attempt is linked. */
  ghost predicate LinkedLeaves(result: Outcome, l: Ledger, l': Ledger, f': Finalization, o': OrderMeta,
                               slot: nat, known: Option<nat>, answer: Answer, bookingFails: bool)
  {
    && slot < |l.attempts| == |l'.attempts| && l'.attempts == l.attempts[slot := l'.attempts[slot]]
    && l'.attempts[slot].terms == l.attempts[slot].terms
    && StripeAfter(l, l', slot, known, answer)
    && (if Paid(answer, l'.stripe, slot) then
          && result == (if bookingFails then ChargeRecordingFailed else Charged)
          && l'.attempts[slot].status == Succeeded && l'.attempts[slot].intent == Some(slot)
          && f' == Finalization(if bookingFails then RecordingFailed else ChargedReady, Some(slot), Some(slot))
          && o' == OrderMeta(if bookingFails then MarkRecordingFailed else MarkSucceeded, Some(slot))
        else if l.attempts[slot].status == Succeeded then
          result == ChargeInProgress
        else
          && result == ChargeFailed && l'.attempts[slot].status == Failed
          && (answer.Answered? ==> l'.attempts[slot].intent == Some(slot))
          && var intent := if answer.Answered? then Some(slot) else known;
             f' == Finalization(ChargeFailedHold, Some(slot), intent) && o' == OrderMeta(MarkFailed, intent))
    && (result == ChargeFailed && answer.Answered? && TerminallyDeclined(l'.stripe, slot) ==> DeclinedForGood(l'.attempts[slot]))
  }

  class Desk {
    var ledger: Ledger
    var finalization: Finalization
    var order: OrderMeta

    constructor (status: FinStatus)
      ensures ledger == Ledger([], map[], {}, 0)
      ensures finalization == Finalization(status, None, None) && order == OrderMeta(NoMark, None)
    {
      ledger := Ledger([], map[], {}, 0);
      finalization := Finalization(status, None, None);
      order := OrderMeta(NoMark, None);
    }

    /** `claimFinalChargeAttempt`, under the finalization's advisory lock. */
    method ClaimFinalChargeAttempt(finStatus: FinStatus, terms: Terms, now: int, ttl: int) returns (owned: bool)
      modifies this`ledger
      ensures var input := ClaimInput(finStatus, terms, now, ttl, old(ledger).nextToken);
              && owned == Claim(old(ledger).attempts, input).1
              && ledger == if owned then ClaimedLedger(old(ledger), input) else old(ledger)
      ensures LedgerOk(old(ledger)) ==>
                ClaimsRightly(old(ledger).attempts, ledger.attempts, owned,
                              ClaimInput(finStatus, terms, now, ttl, old(ledger).nextToken))
    {
      if LedgerOk(ledger) {
        ClaimLaw(ledger, ClaimInput(finStatus, terms, now, ttl, ledger.nextToken));
      }
      var input := ClaimInput(finStatus, terms, now, ttl, ledger.nextToken);
      var attempts := ledger.attempts;
      var last := |attempts| - 1;
      if last >= 0 && NewestStillFresh(attempts[last], input) {
        return false;
      }
      if last >= 0 && !ConfirmedDecline(attempts[last]) {
        assert Claim(attempts, input) == (attempts[last := Reclaimed(attempts[last], input)], true);
        ledger := ledger.(attempts := attempts[last := Reclaimed(attempts[last], input)], nextToken := input.token + 1);
        return true;
      }
      var generations: set<nat> := {};
      var largest: nat := 0;
      for i := 0 to |attempts|
        invariant ledger == old(ledger)
        invariant generations == DeclineGenerations(attempts[..i])
        invariant largest == LargestNumber(attempts[..i])
      {
        GenerationsStep(attempts, i);
        if ConfirmedDecline(attempts[i]) {
          generations := generations + {attempts[i].generation};
        }
        largest := Max(largest, attempts[i].number);
      }
      assert attempts[..|attempts|] == attempts;
      var row := Attempt(largest + 1, terms, |generations|, Pending, None, None, NoCode, false, input.token, now, now, None);
      assert Claim(attempts, input) == (attempts + [FreshAttempt(attempts, input)], true);
      ledger := ledger.(attempts := attempts + [row], nextToken := input.token + 1);
      return true;
    }

    /** `settleFinalChargeAttempt`, under the attempt's advisory lock. */
    method SettleFinalChargeAttempt(slot: nat, token: nat, input: SettleInput) returns (outcome: SettleOutcome)
      requires slot < |ledger.attempts|
      modifies this`ledger
      ensures outcome == Settle(old(ledger).attempts, slot, token, input).1
      ensures ledger == old(ledger).(attempts := Settle(old(ledger).attempts, slot, token, input).0)
      ensures |ledger.attempts| == |old(ledger).attempts| && ledger.attempts[slot].token == old(ledger).attempts[slot].token
      ensures forall i :: 0 <= i < |ledger.attempts| && i != slot ==> ledger.attempts[i] == old(ledger).attempts[i]
      ensures token != old(ledger).attempts[slot].token ==> outcome == ClaimLost && ledger == old(ledger)
      ensures old(ledger).attempts[slot].status == Succeeded ==> ledger.attempts[slot].status == Succeeded
      ensures outcome == if token != old(ledger).attempts[slot].token then ClaimLost
                         else if old(ledger).attempts[slot].status == Succeeded && !input.succeeded then KeptSucceeded
                         else Settled
      ensures if outcome == Settled then SettledAs(old(ledger).attempts[slot], ledger.attempts[slot], input)
              else ledger == old(ledger)
    {
      var current := ledger.attempts[slot];
      if token != current.token {
        return ClaimLost;
      }
      if current.status == Succeeded && !input.succeeded {
        return KeptSucceeded;
      }
      ledger := ledger.(attempts := ledger.attempts[slot := SettledRow(current, input)]);
      return Settled;
    }

    /** The records are where the events so far lead, and the caller's locals are `me`. */
    ghost predicate Follows(s: System, es: seq<Event>, c: nat, me: Caller)
      reads this
    {
      FollowsAt(s, es, ledger, finalization, order, c, me)
    }

    ghost predicate Ended(s: System, es: seq<Event>)
      reads this
    {
      EndedAt(s, es, ledger, finalization, order)
    }

    /** What the `catch` block has to say of the attempt. */
    method FailureInput(payment: Option<PaymentIntent>, persisted: Option<nat>, errorCode: ErrorCode,
                        errorIntent: Option<PaymentIntent>, now: int, ghost me: Caller) returns (input: SettleInput)
      requires me.payment == payment && me.persisted == persisted && me.errorCode == errorCode && me.errorIntent == errorIntent
      ensures input == FailureSettlement(me, now) && input.intent == FailureIntent(me) && input.succeeded == PaymentSucceeded(me)
    {
      var good := payment.Some? && payment.value.status == SucceededIntent;
      input := SettleInput(
        good,
        if persisted.Some? then persisted else if errorIntent.Some? then Some(errorIntent.value.id) else None,
        if payment.Some? then Some(payment.value.status)
        else if errorIntent.Some? then Some(errorIntent.value.status) else None,
        if good then NoCode else errorCode,
        !good && ConfirmedStripeDecline(errorCode, errorIntent), now);
    }

    /** The `catch` block: settle, then put the finalization and the order on hold. */
    method RecordFailure(slot: nat, token: nat, payment: Option<PaymentIntent>, persisted: Option<nat>,
                         errorCode: ErrorCode, errorIntent: Option<PaymentIntent>, now: int,
                         ghost s: System, ghost es: seq<Event>, ghost c: nat, ghost me: Caller)
      returns (result: Outcome, ghost run: seq<Event>)
      requires Follows(s, es, c, me) && me.phase == Failing && slot < |ledger.attempts|
      requires me.slot == slot && me.token == token && me.payment == payment && me.persisted == persisted
      requires me.errorCode == errorCode && me.errorIntent == errorIntent
      modifies this
      ensures Ended(s, run)
      ensures result in {ChargeInProgress, ChargeFailed, ChargeRecordingFailed}
      ensures OutcomeRecorded(result, finalization, order)
      ensures result == ChargeRecordingFailed <==> result != ChargeInProgress && PaymentSucceeded(me)
      ensures FailureLeaves(result, old(ledger), ledger, old(finalization), finalization, old(order), order, me, now)
    {
      var good := payment.Some? && payment.value.status == SucceededIntent;
      var stopped, intent;
      stopped, intent, run := SettleFailed(slot, token, payment, persisted, errorCode, errorIntent, now, s, es, c, me);
      if stopped {
        return ChargeInProgress, run;
      }
      run := HoldRecords(slot, intent, good, s, run, c, me.(phase := Holding));
      result := if good then ChargeRecordingFailed else ChargeFailed;
    }

    /** The settlement of a failure; the claim may have been lost, or a success recorded meanwhile. */
    method SettleFailed(slot: nat, token: nat, payment: Option<PaymentIntent>, persisted: Option<nat>,
                        errorCode: ErrorCode, errorIntent: Option<PaymentIntent>, now: int,
                        ghost s: System, ghost es: seq<Event>, ghost c: nat, ghost me: Caller)
      returns (stopped: bool, intent: Option<nat>, ghost run: seq<Event>)
      requires Follows(s, es, c, me) && me.phase == Failing && slot < |ledger.attempts|
      requires me.slot == slot && me.token == token && me.payment == payment && me.persisted == persisted
      requires me.errorCode == errorCode && me.errorIntent == errorIntent
      modifies this`ledger
      ensures intent == FailureIntent(me)
      ensures if stopped then Ended(s, run) else Follows(s, run, c, me.(phase := Holding))
      ensures var row := old(ledger).attempts[slot];
              && stopped == (row.token != token || (row.status == Succeeded && !PaymentSucceeded(me)))
              && (if stopped then ledger == old(ledger)
                  else OneRowChanged(old(ledger), ledger, slot)
                       && SettledAs(row, ledger.attempts[slot], FailureSettlement(me, now)))
    {
      var input := FailureInput(payment, persisted, errorCode, errorIntent, now, me);
      FollowFailure(s, es, ledger, finalization, order, c, me, now);
      run := es + [SettleFailure(c, now)];
      var outcome := SettleFinalChargeAttempt(slot, token, input);
      intent := input.intent;
      stopped := outcome == ClaimLost || (!input.succeeded && outcome == KeptSucceeded);
    }

    /** The end of the `catch` block: the finalization row, then the order. */
    method HoldRecords(slot: nat, intent: Option<nat>, good: bool, ghost s: System, ghost es: seq<Event>, ghost c: nat, ghost me: Caller)
      returns (ghost run: seq<Event>)
      requires Follows(s, es, c, me) && me.phase == Holding && me.slot == slot
      requires good == PaymentSucceeded(me) && intent == FailureIntent(me)
      modifies this`finalization, this`order
      ensures Ended(s, run)
      ensures finalization == Finalization(if good then RecordingFailed else ChargeFailedHold, Some(slot), intent)
      ensures order == OrderMeta(if good then MarkRecordingFailed else MarkFailed, intent)
    {
      FollowHold(s, es, ledger, finalization, order, c, me);
      run := es + [WriteHold(c)];
      finalization := Finalization(if good then RecordingFailed else ChargeFailedHold, Some(slot), intent);
      FollowHoldOrder(s, run, ledger, finalization, order, c, me.(phase := Held));
      run := run + [WriteHoldOrder(c)];
      order := OrderMeta(if good then MarkRecordingFailed else MarkFailed, intent);
    }

    /** Preview, claim and link: everything before Stripe is called. */
    method Prepare(terms: Terms, now: int, ttl: int, ghost s: System, ghost c: nat)
      returns (stop: Option<Outcome>, slot: nat, token: nat, key: nat, asked: Terms, known: Option<nat>, ghost run: seq<Event>)
      requires s.ledger == ledger && s.finalization == finalization && s.order == order
      requires c !in s.callers && order.mark != MarkSucceeded && LedgerOk(ledger)
      modifies this
      ensures Ended(s, run) && order == old(order)
      ensures stop.Some? ==> finalization == old(finalization) && ledger == old(ledger)
      ensures stop.None? ==> var t := Exec(s, run);
                && At(t, c, Linked)
                && var me := t.callers[c];
                && me.slot == slot && me.token == token && me.key == key && me.terms == asked && me.known == known
                && slot == |ledger.attempts| - 1 && ledger.attempts[slot].token == token && ledger.attempts[slot].terms == asked
      ensures stop == if NotApproved(old(finalization).status) then Some(PreflightRejected)
                      else if HeldByAnother(old(ledger).attempts, old(finalization).status, now, ttl) then Some(ChargeInProgress)
                      else None
      ensures stop.None? ==>
                ClaimedFor(old(ledger), ledger, slot, known, old(finalization), old(order),
                           ClaimInput(old(finalization).status, terms, now, ttl, old(ledger).nextToken))
    {
      var preview := finalization;
      slot, token, key, asked, known := 0, 0, 0, terms, None;
      run := PrepareRun(s, c, now, ttl, terms);
      ApprovedIff(preview.status);
      if !MayCharge(preview.status) {
        return Some(PreflightRejected), slot, token, key, asked, known, run;
      }
      var owned;
      owned, slot, token, key, asked, known := ClaimAndLinkRow(preview, terms, now, ttl);
      stop := if owned then None else Some(ChargeInProgress);
    }

    /** The claim of the newest row, and the finalization's link to it. */
    method ClaimAndLinkRow(preview: Finalization, terms: Terms, now: int, ttl: int)
      returns (owned: bool, slot: nat, token: nat, key: nat, asked: Terms, known: Option<nat>)
      modifies this`ledger, this`finalization
      ensures var input := ClaimInput(preview.status, terms, now, ttl, old(ledger).nextToken);
              && owned == Claim(old(ledger).attempts, input).1
              && ledger == if owned then ClaimedLedger(old(ledger), input) else old(ledger)
      ensures LedgerOk(old(ledger)) ==>
                ClaimsRightly(old(ledger).attempts, ledger.attempts, owned,
                              ClaimInput(preview.status, terms, now, ttl, old(ledger).nextToken))
      ensures !owned ==> finalization == old(finalization)
      ensures owned ==>
                && slot == |ledger.attempts| - 1
                && var row := ledger.attempts[slot];
                   && token == row.token && key == row.generation && asked == row.terms
                   && known == AdoptedIntent(row, slot, preview, order)
                   && finalization == Finalization(ChargeAttempting, Some(slot), known)
    {
      slot, token, key, asked, known := 0, 0, 0, terms, None;
      owned := ClaimFinalChargeAttempt(preview.status, terms, now, ttl);
      if owned {
        slot := |ledger.attempts| - 1;
        var attempt := ledger.attempts[slot];
        token, key, asked := attempt.token, attempt.generation, attempt.terms;
        known := AdoptedIntent(attempt, slot, preview, order);
        finalization := Finalization(ChargeAttempting, Some(slot), known);
      }
    }

    /** Ask Stripe for the known intent, or to create one; Stripe may then settle a new intent. */
    method CallStripeApi(key: nat, asked: Terms, known: Option<nat>, answer: Answer,
                         ghost s: System, ghost es: seq<Event>, ghost c: nat, ghost me: Caller)
      returns (ghost run: seq<Event>, ghost you: Caller)
      requires Inv(s) && Follows(s, es, c, me) && me.phase == Linked
      requires me.key == key && me.terms == asked && me.known == known
      modifies this`ledger
      ensures Follows(s, run, c, you) && ledger.attempts == old(ledger).attempts
      ensures you == if known.Some? then me.(phase := Retrieving, persisted := known) else me.(phase := Creating)
      ensures answer.Answered? && known.None? ==> key in ledger.stripe
      ensures ledger == old(ledger).(creates := ledger.creates, stripe := ledger.stripe)
      ensures ledger.creates == old(ledger).creates + (if known.None? then {(key, asked)} else {})
      ensures ledger.stripe == if known.None? && answer.Answered? && key !in old(ledger).stripe
                               then old(ledger).stripe[key := PaymentIntent(key, answer.intentStatus, answer.lastError)]
                               else old(ledger).stripe
    {
      FollowCall(s, es, ledger, finalization, order, c, me);
      run := es + [CallStripe(c)];
      if known.Some? {
        you := me.(phase := Retrieving, persisted := known);
        return;
      }
      you := me.(phase := Creating);
      ledger := ledger.(creates := ledger.creates + {(key, asked)});
      if answer.Answered? && key !in ledger.stripe {
        assert (key, asked) in ledger.creates;
        FollowCreates(s, run, ledger, finalization, order, c, you, key, answer.intentStatus, answer.lastError);
        run := run + [StripeCreates(key, answer.intentStatus, answer.lastError)];
        ledger := WithIntent(ledger, key, answer.intentStatus, answer.lastError);
      }
    }

    /** Take Stripe's answer: an intent, a card decline with its intent, or a network failure. */
    method TakeAnswer(key: nat, known: Option<nat>, answer: Answer,
                      ghost s: System, ghost es: seq<Event>, ghost c: nat, ghost me: Caller)
      returns (payment: Option<PaymentIntent>, persisted: Option<nat>, errorCode: ErrorCode,
               errorIntent: Option<PaymentIntent>, ghost run: seq<Event>)
      requires Inv(s) && Follows(s, es, c, me)
      requires me.phase == (if known.Some? then Retrieving else Creating) && me.key == key && me.known == known
      requires answer.Answered? && known.None? ==> key in ledger.stripe
      ensures Follows(s, run, c, me.(phase := if payment.Some? then Replied else Failing, payment := payment,
                                     persisted := persisted, errorCode := errorCode, errorIntent := errorIntent))
      ensures Heard(answer, ledger.stripe, if known.Some? then known.value else key, known,
                    payment, persisted, errorCode, errorIntent)
    {
      ClaimedCaller(s, es, c);
      assert ClaimOk(ledger, me);
      payment, persisted, errorCode, errorIntent := None, known, NoCode, None;
      if answer.NoAnswer? {
        run := es + [Throw(c)];
        FollowThrow(s, es, ledger, finalization, order, c, me);
        return;
      }
      var p := ledger.stripe[if known.Some? then known.value else key];
      ghost var reply;
      if known.None? && CardDeclinedIntent(p) {
        errorCode, errorIntent := CardDeclined, Some(p);
        reply := Refused(CardDeclined, Some(p));
      } else {
        payment, persisted := Some(p), Some(p.id);
        reply := Accepted(p);
      }
      run := es + [Receive(c, reply)];
      FollowReceive(s, es, ledger, finalization, order, c, me, reply);
    }

    /** Release the finalization and record the order, or put both on hold when recording fails. */
    method Release(slot: nat, token: nat, payment: PaymentIntent, persisted: Option<nat>, bookingFails: bool, now: int,
                   ghost s: System, ghost es: seq<Event>, ghost c: nat, ghost me: Caller)
      returns (result: Outcome, ghost run: seq<Event>)
      requires Follows(s, es, c, me) && me.phase == Recording && me.payment == Some(payment)
      requires me.slot == slot && me.token == token && me.persisted == persisted == Some(payment.id)
      requires payment.status == SucceededIntent && slot < |ledger.attempts| && ledger.attempts[slot].token == token
      requires ledger.attempts[slot].status == Succeeded && ledger.attempts[slot].intent == Some(payment.id)
      modifies this
      ensures Ended(s, run) && OutcomeRecorded(result, finalization, order)
      ensures SuccessLeaves(result, old(ledger), ledger, finalization, order, slot, payment.id, bookingFails)
    {
      if bookingFails {
        run := es + [Throw(c)];
        FollowThrow(s, es, ledger, finalization, order, c, me);
        ghost var you := me.(phase := Failing, errorCode := NoCode, errorIntent := None);
        result, run := RecordFailure(slot, token, Some(payment), persisted, NoCode, None, now, s, run, c, you);
        return;
      }
      FollowRelease(s, es, ledger, finalization, order, c, me);
      run := es + [RecordRelease(c)];
      finalization := Finalization(ChargedReady, Some(slot), Some(payment.id));
      FollowOrder(s, run, ledger, finalization, order, c, me.(phase := Released));
      run := run + [RecordOrder(c)];
      order := OrderMeta(MarkSucceeded, Some(payment.id));
      result := Charged;
    }

    /** Settle a succeeded intent, release the finalization and record the order. */
    method RecordSuccess(slot: nat, token: nat, payment: PaymentIntent, persisted: Option<nat>, bookingFails: bool, now: int,
                         ghost s: System, ghost es: seq<Event>, ghost c: nat, ghost me: Caller)
      returns (result: Outcome, ghost run: seq<Event>)
      requires Follows(s, es, c, me) && me.phase == Settling && me.payment == Some(payment)
      requires me.slot == slot && me.token == token && me.persisted == persisted == Some(payment.id)
      requires payment.status == SucceededIntent && slot < |ledger.attempts|
      modifies this
      ensures Ended(s, run) && OutcomeRecorded(result, finalization, order)
      ensures if old(ledger).attempts[slot].token != token then
                result == ChargeInProgress && ledger == old(ledger) && finalization == old(finalization) && order == old(order)
              else SuccessLeaves(result, old(ledger), ledger, finalization, order, slot, payment.id, bookingFails)
    {
      var lost;
      lost, run := SettleSucceeded(slot, token, payment, now, s, es, c, me);
      if lost {
        return ChargeInProgress, run;
      }
      result, run := Release(slot, token, payment, persisted, bookingFails, now, s, run, c, me.(phase := Recording));
    }

    method SettleSucceeded(slot: nat, token: nat, payment: PaymentIntent, now: int,
                           ghost s: System, ghost es: seq<Event>, ghost c: nat, ghost me: Caller)
      returns (lost: bool, ghost run: seq<Event>)
      requires Follows(s, es, c, me) && me.phase == Settling && me.payment == Some(payment)
      requires me.slot == slot && me.token == token && slot < |ledger.attempts|
      modifies this`ledger
      ensures if lost then Ended(s, run) else Follows(s, run, c, me.(phase := Recording))
      ensures lost == (old(ledger).attempts[slot].token != token)
      ensures if lost then ledger == old(ledger)
              else OneRowChanged(old(ledger), ledger, slot)
                   && ledger.attempts[slot].status == Succeeded && ledger.attempts[slot].intent == Some(payment.id)
    {
      FollowSuccess(s, es, ledger, finalization, order, c, me, now);
      run := es + [SettleSuccess(c, now)];
      var outcome := SettleFinalChargeAttempt(slot, token, SettleInput(true, Some(payment.id), Some(payment.status), NoCode, false, now));
      lost := outcome == ClaimLost;
    }

    /** Line 403, then the record of a success; anything else ends on hold. */
    method RecordPayment(slot: nat, token: nat, payment: PaymentIntent, persisted: Option<nat>, bookingFails: bool, now: int,
                         ghost s: System, ghost es: seq<Event>, ghost c: nat, ghost me: Caller)
      returns (result: Outcome, ghost run: seq<Event>)
      requires Follows(s, es, c, me) && me.phase == Replied && me.payment == Some(payment)
      requires me.slot == slot && me.token == token && me.persisted == persisted == Some(payment.id)
      requires slot == |ledger.attempts| - 1 && ledger.attempts[slot].token == token
      modifies this
      ensures Ended(s, run) && OutcomeRecorded(result, finalization, order)
      ensures if payment.status == SucceededIntent then
                SuccessLeaves(result, old(ledger), ledger, finalization, order, slot, payment.id, bookingFails)
              else
                FailureLeaves(result, old(ledger), ledger, old(finalization).(intent := Some(payment.id)), finalization,
                              old(order), order,
                              me.(phase := Failing, errorCode := AssertErrorCode(payment), errorIntent := Some(payment)), now)
    {
      FollowIntentWrite(s, es, ledger, finalization, order, c, me);
      finalization := finalization.(intent := Some(payment.id));
      run := es + [WriteIntent(c)];
      if payment.status == SucceededIntent {
        result, run := RecordSuccess(slot, token, payment, persisted, bookingFails, now, s, run, c, me.(phase := Settling));
      } else {
        var code := AssertErrorCode(payment);
        ghost var you := me.(phase := Failing, errorCode := code, errorIntent := Some(payment));
        result, run := RecordFailure(slot, token, Some(payment), persisted, code, Some(payment), now, s, run, c, you);
      }
    }

    /** The second `try` block and its `catch`. */
    method ChargeLinked(slot: nat, token: nat, key: nat, asked: Terms, known: Option<nat>,
                        answer: Answer, bookingFails: bool, now: int,
                        ghost s: System, ghost es: seq<Event>, ghost c: nat, ghost me: Caller)
      returns (result: Outcome, ghost run: seq<Event>)
      requires Inv(s) && Follows(s, es, c, me) && me.phase == Linked && slot == |ledger.attempts| - 1
      requires me.slot == slot && me.token == token && me.key == key && me.terms == asked && me.known == known
      requires ledger.attempts[slot].token == token
      modifies this
      ensures Ended(s, run) && OutcomeRecorded(result, finalization, order)
      ensures LinkedLeaves(result, old(ledger), ledger, finalization, order, slot, known, answer, bookingFails)
    {
      LinkedCaller(s, es, ledger, finalization, order, c, me);
      ghost var you;
      run, you := CallStripeApi(key, asked, known, answer, s, es, c, me);
      var payment, persisted, errorCode, errorIntent;
      payment, persisted, errorCode, errorIntent, run := TakeAnswer(key, known, answer, s, run, c, you);
      you := you.(phase := if payment.Some? then Replied else Failing, payment := payment,
                  persisted := persisted, errorCode := errorCode, errorIntent := errorIntent);
      ghost var called, linked := ledger, finalization;
      if payment.Some? {
        result, run := RecordPayment(slot, token, payment.value, persisted, bookingFails, now, s, run, c, you);
        PaymentOutcome(result, old(ledger), called, ledger, linked, finalization, old(order), order, you, now, known, answer, bookingFails);
      } else {
        result, run := RecordFailure(slot, token, None, persisted, errorCode, errorIntent, now, s, run, c, you);
        FailedOutcome(result, old(ledger), called, ledger, linked, finalization, old(order), order, you, now, known, answer, bookingFails);
      }
    }

    /** `runFinalChargeAndRelease` by one caller that nobody interleaves with.  It takes exactly steps of the
        protocol, line 403 under its guard, and what it returns is what the records say. */
    method RunFinalChargeAndRelease(terms: Terms, now: int, ttl: int, answer: Answer, bookingFails: bool,
                                    ghost s: System, ghost c: nat)
      returns (result: Outcome, ghost run: seq<Event>)
      requires Inv(s) && s.ledger == ledger && s.finalization == finalization && s.order == order && c !in s.callers
      modifies this
      ensures Ended(s, run) && OutcomeRecorded(result, finalization, order)
      ensures result == AlreadyCharged <==> old(order).mark == MarkSucceeded
      ensures result == PreflightRejected <==>
              old(order).mark != MarkSucceeded && NotApproved(old(finalization).status)
      ensures result in {AlreadyCharged, PreflightRejected} || HeldByAnother(old(ledger).attempts, old(finalization).status, now, ttl) ==>
                ledger == old(ledger) && finalization == old(finalization) && order == old(order)
      ensures result !in {AlreadyCharged, PreflightRejected} ==>
                if HeldByAnother(old(ledger).attempts, old(finalization).status, now, ttl) then result == ChargeInProgress
                else RunLeaves(result, old(ledger), ledger, old(finalization), finalization, old(order), order,
                               terms, answer, bookingFails)
    {
      if order.mark == MarkSucceeded {
        return AlreadyCharged, [];
      }
      result, run := ChargeOrder(terms, now, ttl, answer, bookingFails, s, c);
    }

    /** Everything past the check that the order is not already charged. */
    method ChargeOrder(terms: Terms, now: int, ttl: int, answer: Answer, bookingFails: bool, ghost s: System, ghost c: nat)
      returns (result: Outcome, ghost run: seq<Event>)
      requires Inv(s) && s.ledger == ledger && s.finalization == finalization && s.order == order && c !in s.callers
      requires order.mark != MarkSucceeded
      modifies this
      ensures Ended(s, run) && OutcomeRecorded(result, finalization, order)
      ensures if NotApproved(old(finalization).status) then
                result == PreflightRejected && ledger == old(ledger) && finalization == old(finalization) && order == old(order)
              else if HeldByAnother(old(ledger).attempts, old(finalization).status, now, ttl) then
                result == ChargeInProgress && ledger == old(ledger) && finalization == old(finalization) && order == old(order)
              else
                RunLeaves(result, old(ledger), ledger, old(finalization), finalization, old(order), order,
                          terms, answer, bookingFails)
    {
      var stop, slot, token, key, asked, known;
      stop, slot, token, key, asked, known, run := Prepare(terms, now, ttl, s, c);
      if stop.Some? {
        return stop.value, run;
      }
      ghost var me := Exec(s, run).callers[c];
      ghost var claimed := ledger;
      result, run := ChargeLinked(slot, token, key, asked, known, answer, bookingFails, now, s, run, c, me);
      RunOutcome(result, old(ledger), claimed, ledger, old(finalization), finalization, old(order), order,
                 slot, known, ClaimInput(old(finalization).status, terms, now, ttl, old(ledger).nextToken), answer, bookingFails);
    }
  }

  /** Staff are still packing, or the order has been released. */
  predicate NotApproved(status: FinStatus) {
    status == Packing || status == ChargedReady
  }

  lemma ApprovedIff(status: FinStatus)
    ensures MayCharge(status) <==> !NotApproved(status)
  {
  }

  /** A claim as it should be, and the intent it adopts. */
  ghost predicate ClaimedFor(l: Ledger, k: Ledger, slot: nat, known: Option<nat>, f: Finalization, o: OrderMeta, input: ClaimInput) {
    && slot < |k.attempts| == slot + 1 && k.stripe == l.stripe && k.creates == l.creates
    && ClaimsRightly(l.attempts, k.attempts, true, input)
    && known == AdoptedIntent(k.attempts[slot], slot, f, o)
  }

  /** The newest attempt is freshly held. */
  predicate HeldByAnother(attempts: seq<Attempt>, status: FinStatus, now: int, ttl: int) {
    |attempts| > 0 && FreshlyHeld(attempts[|attempts| - 1], status, now, ttl)
  }

  /** The attempt a run works on: the newest taken over, or a new one of the caller's terms opened behind a decline. */
  ghost predicate RunClaims(l: Ledger, l': Ledger, slot: int, terms: Terms) {
    var n := |l.attempts|;
    var opens := n == 0 || DeclinedForGood(l.attempts[n - 1]);
    && slot == (if opens then n else n - 1) && slot < |l'.attempts| == slot + 1
    && l'.attempts[slot].terms == (if opens then terms else l.attempts[n - 1].terms)
    && l'.attempts[..slot] == l.attempts[..slot]
  }

  /** How a run ends: charged exactly when Stripe answered that the attempt's intent has succeeded and the release could
      be recorded; in progress when a success stood already and Stripe was not heard; and failed otherwise. */
  ghost predicate RunDecides(result: Outcome, l: Ledger, l': Ledger, slot: nat, answer: Answer, bookingFails: bool) {
    var settled := slot < |l.attempts| && l.attempts[slot].status == Succeeded;
    && (result == Charged <==> Paid(answer, l'.stripe, slot) && !bookingFails)
    && (result == ChargeRecordingFailed <==> Paid(answer, l'.stripe, slot) && bookingFails)
    && (result == ChargeInProgress <==> settled && answer.NoAnswer?)
    && (result == ChargeFailed <==> !Paid(answer, l'.stripe, slot) && !(settled && answer.NoAnswer?))
  }

  /** What a run asks of Stripe: at most one create, under the attempt's own key and terms; none for an attempt whose
      intent is known; and the intent it makes is the one Stripe answers with, if the key has none yet. */
  ghost predicate RunAsks(l: Ledger, l': Ledger, f: Finalization, o: OrderMeta, slot: nat, terms: Terms, answer: Answer)
    requires slot < |l'.attempts|
  {
    var n := |l.attempts|;
    && (l'.creates == l.creates || l'.creates == l.creates + {(slot, l'.attempts[slot].terms)})
    && (slot < n && l.attempts[slot].intent.Some? ==> l'.creates == l.creates)
    && (f.attempt == Some(slot) && f.intent.Some? ==> l'.creates == l.creates)
    && (f.status == RecordingFailed || o.mark == MarkRecordingFailed ==>
          (f.intent.Some? || o.intent.Some? ==> l'.creates == l.creates))
    && (slot == n && f.status != RecordingFailed && o.mark != MarkRecordingFailed ==>
          ((if n == 0 then f.intent == None else f.attempt != Some(n)) ==> (slot, terms) in l'.creates))
    && l'.stripe == (if answer.Answered? && slot !in l.stripe
                     then l.stripe[slot := PaymentIntent(slot, answer.intentStatus, answer.lastError)] else l.stripe)
  }

  /** What a run records: the attempt, the finalization and the order name the same intent, the attempt's own. */
  ghost predicate RunRecords(result: Outcome, l': Ledger, f': Finalization, o': OrderMeta, slot: nat, answer: Answer)
    requires slot < |l'.attempts|
  {
    var row := l'.attempts[slot];
    && (result == Charged || result == ChargeRecordingFailed ==>
          row.status == Succeeded && row.intent == Some(slot) && f'.attempt == f'.intent == o'.intent == Some(slot))
    && (result == ChargeFailed ==> row.status == Failed && f'.attempt == Some(slot) && f'.intent == o'.intent)
    && (result == ChargeFailed && answer.Answered? ==> row.intent == f'.intent == Some(slot))
    && (result == ChargeFailed && answer.Answered? && TerminallyDeclined(l'.stripe, slot) ==> DeclinedForGood(row))
  }

  /** What a run leaves that nobody held up. */
  ghost predicate RunLeaves(result: Outcome, l: Ledger, l': Ledger, f: Finalization, f': Finalization, o: OrderMeta,
                            o': OrderMeta, terms: Terms, answer: Answer, bookingFails: bool)
  {
    var slot := |l'.attempts| - 1;
    && RunClaims(l, l', slot, terms) && RunDecides(result, l, l', slot, answer, bookingFails)
    && RunAsks(l, l', f, o, slot, terms, answer) && RunRecords(result, l', f', o', slot, answer)
  }

  lemma RunOutcome(result: Outcome, l: Ledger, k: Ledger, l': Ledger, f: Finalization, f': Finalization, o: OrderMeta,
                   o': OrderMeta, slot: nat, known: Option<nat>, input: ClaimInput, answer: Answer, bookingFails: bool)
    requires LedgerOk(l) && ClaimedFor(l, k, slot, known, f, o, input)
    requires LinkedLeaves(result, k, l', f', o', slot, known, answer, bookingFails)
    ensures RunLeaves(result, l, l', f, f', o, o', input.terms, answer, bookingFails)
  {
    var n := |l.attempts|;
    if n > 0 {
      assert RowOk(l, n - 1);
    }
    OutcomeDecides(result, l, k, l', f, f', o, o', slot, known, input, answer, bookingFails);
    OutcomeAsks(result, l, k, l', f, f', o, o', slot, known, input, answer, bookingFails);
  }

  lemma OutcomeDecides(result: Outcome, l: Ledger, k: Ledger, l': Ledger, f: Finalization, f': Finalization, o: OrderMeta,
                       o': OrderMeta, slot: nat, known: Option<nat>, input: ClaimInput, answer: Answer, bookingFails: bool)
    requires LedgerOk(l) && ClaimedFor(l, k, slot, known, f, o, input)
    requires LinkedLeaves(result, k, l', f', o', slot, known, answer, bookingFails)
    ensures RunDecides(result, l, l', slot, answer, bookingFails)
  {
    if slot < |l.attempts| {
      assert RowOk(l, slot);
    }
  }

  lemma OutcomeAsks(result: Outcome, l: Ledger, k: Ledger, l': Ledger, f: Finalization, f': Finalization, o: OrderMeta,
                    o': OrderMeta, slot: nat, known: Option<nat>, input: ClaimInput, answer: Answer, bookingFails: bool)
    requires LedgerOk(l) && ClaimedFor(l, k, slot, known, f, o, input)
    requires LinkedLeaves(result, k, l', f', o', slot, known, answer, bookingFails)
    ensures RunAsks(l, l', f, o, slot, input.terms, answer)
  {
  }

  /** What the invariant says of a caller about to call Stripe. */
  lemma LinkedCaller(s: System, es: seq<Event>, l: Ledger, f: Finalization, o: OrderMeta, c: nat, me: Caller)
    requires Inv(s) && FollowsAt(s, es, l, f, o, c, me) && me.phase == Linked
    ensures me.slot < |l.attempts| && me.key == me.slot && me.terms == l.attempts[me.slot].terms
    ensures me.known == None || (me.known == Some(me.slot) && me.slot in l.stripe)
  {
    ClaimedCaller(s, es, c);
  }

  lemma PaymentOutcome(result: Outcome, l: Ledger, k: Ledger, l': Ledger, f: Finalization, f': Finalization, o: OrderMeta,
                       o': OrderMeta, me: Caller, now: int, known: Option<nat>, answer: Answer, bookingFails: bool)
    requires me.slot < |l.attempts| && k.attempts == l.attempts && StripeAfter(l, k, me.slot, known, answer)
    requires l.attempts[me.slot].token == me.token && me.payment.Some?
    requires Heard(answer, k.stripe, me.slot, known, me.payment, me.persisted, me.errorCode, me.errorIntent)
    requires var p := me.payment.value;
             if p.status == SucceededIntent then SuccessLeaves(result, k, l', f', o', me.slot, p.id, bookingFails)
             else FailureLeaves(result, k, l', f.(intent := Some(p.id)), f', o, o',
                                me.(phase := Failing, errorCode := AssertErrorCode(p), errorIntent := Some(p)), now)
    ensures LinkedLeaves(result, l, l', f', o', me.slot, known, answer, bookingFails)
  {
  }

  lemma FailedOutcome(result: Outcome, l: Ledger, k: Ledger, l': Ledger, f: Finalization, f': Finalization, o: OrderMeta,
                      o': OrderMeta, me: Caller, now: int, known: Option<nat>, answer: Answer, bookingFails: bool)
    requires me.slot < |l.attempts| && k.attempts == l.attempts && StripeAfter(l, k, me.slot, known, answer)
    requires l.attempts[me.slot].token == me.token && me.payment.None?
    requires Heard(answer, k.stripe, me.slot, known, me.payment, me.persisted, me.errorCode, me.errorIntent)
    requires FailureLeaves(result, k, l', f, f', o, o', me, now)
    ensures LinkedLeaves(result, l, l', f', o', me.slot, known, answer, bookingFails)
  {
  }

  lemma GenerationsStep(attempts: seq<Attempt>, i: nat)
    requires i < |attempts|
    ensures DeclineGenerations(attempts[..i + 1]) ==
            DeclineGenerations(attempts[..i]) + (if ConfirmedDecline(attempts[i]) then {attempts[i].generation} else {})
    ensures LargestNumber(attempts[..i + 1]) == Max(LargestNumber(attempts[..i]), attempts[i].number)
  {
    var a, b := attempts[..i + 1], attempts[..i];
    assert a[..|a| - 1] == b;
    assert forall j | 0 <= j < i :: a[j] == b[j];
    assert a[i] == attempts[i];
    forall g | g in DeclineGenerations(b)
      ensures g in DeclineGenerations(a)
    {
      var j :| 0 <= j < |b| && ConfirmedDecline(b[j]) && b[j].generation == g;
      assert ConfirmedDecline(a[j]) && a[j].generation == g;
    }
  }

  lemma Advance(s: System, es: seq<Event>, e: Event)
    requires GuardedRun(s, es) && Guarded(Exec(s, es), e)
    ensures GuardedRun(s, es + [e]) && Exec(s, es + [e]) == Step(Exec(s, es), e)
  {
    ExecSnoc(s, es, e);
    GuardedSnoc(s, es, e);
  }

  /*** One event at a time ***/

  /** Guarded events lead to these records, with the caller's locals as given. */
  ghost predicate FollowsAt(s: System, es: seq<Event>, l: Ledger, f: Finalization, o: OrderMeta, c: nat, me: Caller) {
    EndedAt(s, es, l, f, o) && c in Exec(s, es).callers && Exec(s, es).callers[c] == me
  }

  ghost predicate EndedAt(s: System, es: seq<Event>, l: Ledger, f: Finalization, o: OrderMeta) {
    GuardedRun(s, es) && Exec(s, es).ledger == l && Exec(s, es).finalization == f && Exec(s, es).order == o
  }

  lemma FollowCall(s: System, es: seq<Event>, l: Ledger, f: Finalization, o: OrderMeta, c: nat, me: Caller)
    requires FollowsAt(s, es, l, f, o, c, me) && me.phase == Linked
    ensures FollowsAt(s, es + [CallStripe(c)], if me.known.Some? then l else l.(creates := l.creates + {(me.key, me.terms)}),
                      f, o, c, if me.known.Some? then me.(phase := Retrieving, persisted := me.known) else me.(phase := Creating))
  {
    Advance(s, es, CallStripe(c));
  }

  lemma FollowCreates(s: System, es: seq<Event>, l: Ledger, f: Finalization, o: OrderMeta, c: nat, me: Caller, key: nat,
                      status: IntentStatus, lastError: ErrorCode)
    requires FollowsAt(s, es, l, f, o, c, me) && key !in l.stripe && KeyUsed(l.creates, key)
    ensures FollowsAt(s, es + [StripeCreates(key, status, lastError)], WithIntent(l, key, status, lastError), f, o, c, me)
  {
    Advance(s, es, StripeCreates(key, status, lastError));
  }

  lemma FollowReceive(s: System, es: seq<Event>, l: Ledger, f: Finalization, o: OrderMeta, c: nat, me: Caller, reply: StripeReply)
    requires FollowsAt(s, es, l, f, o, c, me) && me.phase == (if me.known.Some? then Retrieving else Creating)
    requires StripeMaySay(l.stripe, if me.known.Some? then me.known.value else me.key, reply)
    ensures FollowsAt(s, es + [Receive(c, reply)], l, f, o, c, Receiving(me, reply))
  {
    Advance(s, es, Receive(c, reply));
  }

  lemma FollowThrow(s: System, es: seq<Event>, l: Ledger, f: Finalization, o: OrderMeta, c: nat, me: Caller)
    requires FollowsAt(s, es, l, f, o, c, me) && InTry(me.phase)
    ensures FollowsAt(s, es + [Throw(c)], l, f, o, c, me.(phase := Failing, errorCode := NoCode, errorIntent := None))
  {
    Advance(s, es, Throw(c));
  }

  lemma FollowIntentWrite(s: System, es: seq<Event>, l: Ledger, f: Finalization, o: OrderMeta, c: nat, me: Caller)
    requires FollowsAt(s, es, l, f, o, c, me) && me.phase == Replied && me.payment.Some? && me.slot == |l.attempts| - 1
    ensures FollowsAt(s, es + [WriteIntent(c)], l, f.(intent := Some(me.payment.value.id)), o, c, AfterIntentWrite(me))
  {
    Advance(s, es, WriteIntent(c));
  }

  lemma FollowSuccess(s: System, es: seq<Event>, l: Ledger, f: Finalization, o: OrderMeta, c: nat, me: Caller, now: int)
    requires FollowsAt(s, es, l, f, o, c, me) && me.phase == Settling && me.payment.Some? && me.slot < |l.attempts|
    ensures var p := me.payment.value;
            var (rows, outcome) := Settle(l.attempts, me.slot, me.token, SettleInput(true, Some(p.id), Some(p.status), NoCode, false, now));
            if outcome == ClaimLost then EndedAt(s, es + [SettleSuccess(c, now)], l.(attempts := rows), f, o)
            else FollowsAt(s, es + [SettleSuccess(c, now)], l.(attempts := rows), f, o, c, me.(phase := Recording))
  {
    Advance(s, es, SettleSuccess(c, now));
  }

  lemma FollowRelease(s: System, es: seq<Event>, l: Ledger, f: Finalization, o: OrderMeta, c: nat, me: Caller)
    requires FollowsAt(s, es, l, f, o, c, me) && me.phase == Recording && me.payment.Some?
    ensures FollowsAt(s, es + [RecordRelease(c)], l, Finalization(ChargedReady, Some(me.slot), Some(me.payment.value.id)),
                      o, c, me.(phase := Released))
  {
    Advance(s, es, RecordRelease(c));
  }

  lemma FollowOrder(s: System, es: seq<Event>, l: Ledger, f: Finalization, o: OrderMeta, c: nat, me: Caller)
    requires FollowsAt(s, es, l, f, o, c, me) && me.phase == Released && me.payment.Some?
    ensures EndedAt(s, es + [RecordOrder(c)], l, f, OrderMeta(MarkSucceeded, Some(me.payment.value.id)))
  {
    Advance(s, es, RecordOrder(c));
  }

  lemma FollowFailure(s: System, es: seq<Event>, l: Ledger, f: Finalization, o: OrderMeta, c: nat, me: Caller, now: int)
    requires FollowsAt(s, es, l, f, o, c, me) && me.phase == Failing && me.slot < |l.attempts|
    ensures var (rows, outcome) := Settle(l.attempts, me.slot, me.token, FailureSettlement(me, now));
            if outcome == ClaimLost || (!PaymentSucceeded(me) && outcome == KeptSucceeded) then
              EndedAt(s, es + [SettleFailure(c, now)], l.(attempts := rows), f, o)
            else FollowsAt(s, es + [SettleFailure(c, now)], l.(attempts := rows), f, o, c, me.(phase := Holding))
  {
    Advance(s, es, SettleFailure(c, now));
  }

  lemma FollowHold(s: System, es: seq<Event>, l: Ledger, f: Finalization, o: OrderMeta, c: nat, me: Caller)
    requires FollowsAt(s, es, l, f, o, c, me) && me.phase == Holding
    ensures FollowsAt(s, es + [WriteHold(c)], l,
                      Finalization(if PaymentSucceeded(me) then RecordingFailed else ChargeFailedHold, Some(me.slot), FailureIntent(me)),
                      o, c, me.(phase := Held))
  {
    Advance(s, es, WriteHold(c));
  }

  lemma FollowHoldOrder(s: System, es: seq<Event>, l: Ledger, f: Finalization, o: OrderMeta, c: nat, me: Caller)
    requires FollowsAt(s, es, l, f, o, c, me) && me.phase == Held
    ensures EndedAt(s, es + [WriteHoldOrder(c)], l, f,
                    OrderMeta(if PaymentSucceeded(me) then MarkRecordingFailed else MarkFailed, FailureIntent(me)))
  {
    Advance(s, es, WriteHoldOrder(c));
  }

  function PrepareEvents(c: nat, now: int, ttl: int, terms: Terms): seq<Event> {
    [Start(c), ReadPreview(c), WritePreview(c), ClaimAttempt(c, now, ttl, terms), LinkFinalization(c)]
  }

  function PreparedInput(s: System, now: int, ttl: int, terms: Terms): ClaimInput {
    ClaimInput(s.finalization.status, terms, now, ttl, s.ledger.nextToken)
  }

  /** Where a caller that nobody interleaves with stands before it calls Stripe. */
  function Prepared(s: System, c: nat, now: int, ttl: int, terms: Terms): System {
    var me := NewCaller(s.order).(phase := Approved, preview := s.finalization);
    var input := PreparedInput(s, now, ttl, terms);
    if !MayCharge(s.finalization.status) then WithCaller(s, c, me)
    else if !Claim(s.ledger.attempts, input).1 then Without(WithCaller(s, c, me), c)
    else
      var k := ClaimedLedger(s.ledger, input);
      if |k.attempts| == 0 then s
      else
        var mine := Installed(k, me);
        System(k, Finalization(ChargeAttempting, Some(mine.slot), mine.known), s.order, s.orderHistory,
               s.callers[c := mine.(phase := Linked)])
  }

  /** The records and the caller's locals after preparing. */
  ghost predicate PreparedAs(s: System, c: nat, now: int, ttl: int, terms: Terms, t: System) {
    var input := PreparedInput(s, now, ttl, terms);
    && t.order == s.order
    && (!(MayCharge(s.finalization.status) && Claim(s.ledger.attempts, input).1) ==>
          t.ledger == s.ledger && t.finalization == s.finalization)
    && (MayCharge(s.finalization.status) && Claim(s.ledger.attempts, input).1 ==>
          && |ClaimedLedger(s.ledger, input).attempts| > 0 && t.ledger == ClaimedLedger(s.ledger, input)
          && var slot := |t.ledger.attempts| - 1;
             var row := t.ledger.attempts[slot];
             && At(t, c, Linked) && t.callers[c].slot == slot && t.callers[c].token == row.token
             && t.callers[c].key == row.generation && t.callers[c].terms == row.terms
             && t.callers[c].known == AdoptedIntent(row, slot, s.finalization, s.order)
             && t.finalization == Finalization(ChargeAttempting, Some(slot), t.callers[c].known))
  }

  lemma PreparedRecords(s: System, c: nat, now: int, ttl: int, terms: Terms)
    ensures PreparedAs(s, c, now, ttl, terms, Prepared(s, c, now, ttl, terms))
  {
  }

  /** A run without line 403 is guarded. */
  lemma {:induction false} NoIntentWriteIsGuarded(s: System, es: seq<Event>)
    requires forall e | e in es :: !e.WriteIntent?
    ensures GuardedRun(s, es)
    decreases |es|
  {
    if es != [] {
      NoIntentWriteIsGuarded(Step(s, es[0]), es[1..]);
    }
  }

  lemma Exec5(s: System, a: Event, b: Event, d: Event, e: Event, f: Event)
    ensures Exec(s, [a, b, d, e, f]) == Step(Step(Step(Step(Step(s, a), b), d), e), f)
  {
    assert Exec(s, []) == s;
    ExecSnoc(s, [], a);
    assert [] + [a] == [a];
    ExecSnoc(s, [a], b);
    assert [a] + [b] == [a, b];
    ExecSnoc(s, [a, b], d);
    assert [a, b] + [d] == [a, b, d];
    ExecSnoc(s, [a, b, d], e);
    assert [a, b, d] + [e] == [a, b, d, e];
    ExecSnoc(s, [a, b, d, e], f);
    assert [a, b, d, e] + [f] == [a, b, d, e, f];
  }

  lemma Arrival(s: System, c: nat)
    requires c !in s.callers && s.order.mark != MarkSucceeded
    ensures Step(Step(Step(s, Start(c)), ReadPreview(c)), WritePreview(c)) ==
            WithCaller(s, c, NewCaller(s.order).(phase := Approved, preview := s.finalization))
  {
    var a := Step(s, Start(c));
    var b := Step(a, ReadPreview(c));
    assert b.callers == s.callers[c := NewCaller(s.order).(phase := Previewed, preview := s.finalization)];
  }

  lemma ClaimAndLink(t: System, c: nat, now: int, ttl: int, terms: Terms)
    requires At(t, c, Approved) && t.callers[c].preview == t.finalization && t.callers[c].order == t.order
    ensures var u := Step(Step(t, ClaimAttempt(c, now, ttl, terms)), LinkFinalization(c));
            var input := PreparedInput(t, now, ttl, terms);
            if !MayCharge(t.finalization.status) then u == t
            else if !Claim(t.ledger.attempts, input).1 then u == Without(t, c)
            else
              var k := ClaimedLedger(t.ledger, input);
              && |k.attempts| > 0
              && var mine := Installed(k, t.callers[c]);
              u == System(k, Finalization(ChargeAttempting, Some(mine.slot), mine.known), t.order, t.orderHistory,
                          t.callers[c := mine.(phase := Linked)])
  {
    var e := ClaimAttempt(c, now, ttl, terms);
    if MayCharge(t.finalization.status) && Claim(t.ledger.attempts, PreparedInput(t, now, ttl, terms)).1 {
      OwnedClaimShape(t, e);
    }
  }

  lemma LinkedIsPrepared(s: System, c: nat, now: int, ttl: int, terms: Terms)
    requires c !in s.callers
    ensures var t := WithCaller(s, c, NewCaller(s.order).(phase := Approved, preview := s.finalization));
            Step(Step(t, ClaimAttempt(c, now, ttl, terms)), LinkFinalization(c)) == Prepared(s, c, now, ttl, terms)
  {
    ClaimAndLink(WithCaller(s, c, NewCaller(s.order).(phase := Approved, preview := s.finalization)), c, now, ttl, terms);
  }

  lemma PrepareExec(s: System, c: nat, now: int, ttl: int, terms: Terms)
    requires c !in s.callers && s.order.mark != MarkSucceeded
    ensures Exec(s, PrepareEvents(c, now, ttl, terms)) == Prepared(s, c, now, ttl, terms)
  {
    Arrival(s, c);
    LinkedIsPrepared(s, c, now, ttl, terms);
    Exec5(s, Start(c), ReadPreview(c), WritePreview(c), ClaimAttempt(c, now, ttl, terms), LinkFinalization(c));
  }

  lemma PrepareRun(s: System, c: nat, now: int, ttl: int, terms: Terms) returns (es: seq<Event>)
    requires c !in s.callers && s.order.mark != MarkSucceeded
    ensures GuardedRun(s, es) && PreparedAs(s, c, now, ttl, terms, Exec(s, es))
  {
    es := PrepareEvents(c, now, ttl, terms);
    PrepareExec(s, c, now, ttl, terms);
    PreparedRecords(s, c, now, ttl, terms);
    NoIntentWriteIsGuarded(s, PrepareEvents(c, now, ttl, terms));
  }

  /** What the invariant says of a caller part-way through its run. */
  lemma ClaimedCaller(s: System, es: seq<Event>, c: nat)
    requires Inv(s) && GuardedRun(s, es) && c in Exec(s, es).callers && HasClaim(Exec(s, es).callers[c].phase)
    ensures Inv(Exec(s, es)) && ClaimOk(Exec(s, es).ledger, Exec(s, es).callers[c])
    ensures var t := Exec(s, es); forall k <- t.ledger.stripe :: t.ledger.stripe[k].id == k
  {
    RunKeepsInv(s, es);
    assert CallerOk(Exec(s, es).ledger, Exec(s, es).callers[c]);
  }
}
