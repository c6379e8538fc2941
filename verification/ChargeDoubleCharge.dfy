/** Without the guard on line 403 one order can be charged twice: a concrete run.

    Caller 0 stalls between Stripe's answer, a payment still processing, and line 403.  Caller 1 repeats the
    request, is given the same answer and puts the order on hold.  The card is then declined; caller 2
    retrieves the intent on record and settles the decline.  Caller 3 opens the next key and dies after Stripe
    has charged it.  Caller 0 wakes up and writes its old intent under caller 3's attempt.  Caller 4 adopts
    that intent, so it settles the paid attempt as declined, and caller 5 opens a third key that Stripe also
    charges. */
module ChargeDoubleCharge {
  import opened Base
  import opened ChargeModel
  import opened ChargeTheorems
  import opened ChargeSafety

  const CARD := Terms(5000, "usd", "cus", "card")
  const TTL := DEFAULT_CLAIM_TTL_MS

  function FirstState(): System {
    System(Ledger([], map[], {}, 0), Finalization(PackedPendingCharge, None, None), OrderMeta(NoMark, None),
           {OrderMeta(NoMark, None)}, map[])
  }

  /** The run so far, and what matters about where it has got to. */
  ghost predicate Run(es: seq<Event>, t: System) {
    Exec(FirstState(), es) == t
  }

  lemma Then(es: seq<Event>, t: System, e: Event) returns (es': seq<Event>, t': System)
    requires Run(es, t) && Enabled(t, e)
    ensures Run(es', t') && t' == Apply(t, e)
  {
    ExecSnoc(FirstState(), es, e);
    es', t' := es + [e], Apply(t, e);
  }

  lemma StripeSettles(es: seq<Event>, t: System, key: nat, status: IntentStatus) returns (es': seq<Event>, t': System)
    requires Run(es, t) && key !in t.ledger.stripe && KeyUsed(t.ledger.creates, key)
    ensures Run(es', t') && t' == t.(ledger := WithIntent(t.ledger, key, status, NoCode))
  {
    es', t' := Then(es, t, StripeCreates(key, status, NoCode));
  }

  lemma Dies(es: seq<Event>, t: System, c: nat) returns (es': seq<Event>, t': System)
    requires Run(es, t) && c in t.callers
    ensures Run(es', t') && t' == Without(t, c)
  {
    es', t' := Then(es, t, Leave(c));
  }

  /** A new caller arrives and reaches its claim. */
  lemma Arrive(es: seq<Event>, t: System, c: nat) returns (es': seq<Event>, t': System)
    requires Run(es, t) && c !in t.callers && t.order.mark != MarkSucceeded
    ensures Run(es', t') && t'.ledger == t.ledger && t'.finalization == t.finalization && t'.order == t.order
    ensures t'.callers == t.callers[c := NewCaller(t.order).(phase := Approved, preview := t.finalization)]
  {
    es', t' := Then(es, t, Start(c));
    es', t' := Then(es', t', ReadPreview(c));
    es', t' := Then(es', t', WritePreview(c));
  }

  /** It claims the newest row, links the finalization and calls Stripe. */
  lemma ClaimAndCall(es: seq<Event>, t: System, c: nat, now: int) returns (es': seq<Event>, t': System)
    requires Run(es, t) && At(t, c, Approved) && MayCharge(t.callers[c].preview.status)
    requires Claim(t.ledger.attempts, ClaimInput(t.callers[c].preview.status, CARD, now, TTL, t.ledger.nextToken)).1
    ensures Run(es', t') && t'.order == t.order
    ensures var rows := Claim(t.ledger.attempts, ClaimInput(t.callers[c].preview.status, CARD, now, TTL, t.ledger.nextToken)).0;
            var l := t.ledger.(attempts := rows, nextToken := t.ledger.nextToken + 1);
            && |rows| > 0
            && var me := Installed(l, t.callers[c]);
            && t'.finalization == Finalization(ChargeAttempting, Some(me.slot), me.known)
            && t'.ledger == (if me.known.Some? then l else l.(creates := l.creates + {(me.key, me.terms)}))
            && t'.callers == t.callers[c := if me.known.Some? then me.(phase := Retrieving, persisted := me.known)
                                            else me.(phase := Creating)]
  {
    es', t' := ClaimNewest(es, t, c, now);
    es', t' := LinkAndCall(es', t', c);
  }

  lemma ClaimNewest(es: seq<Event>, t: System, c: nat, now: int) returns (es': seq<Event>, t': System)
    requires Run(es, t) && At(t, c, Approved) && MayCharge(t.callers[c].preview.status)
    requires Claim(t.ledger.attempts, ClaimInput(t.callers[c].preview.status, CARD, now, TTL, t.ledger.nextToken)).1
    ensures Run(es', t')
    ensures var rows := Claim(t.ledger.attempts, ClaimInput(t.callers[c].preview.status, CARD, now, TTL, t.ledger.nextToken)).0;
            var l := t.ledger.(attempts := rows, nextToken := t.ledger.nextToken + 1);
            |rows| > 0 && t' == t.(ledger := l, callers := t.callers[c := Installed(l, t.callers[c])])
  {
    es', t' := Then(es, t, ClaimAttempt(c, now, TTL, CARD));
  }

  lemma LinkAndCall(es: seq<Event>, t: System, c: nat) returns (es': seq<Event>, t': System)
    requires Run(es, t) && At(t, c, Claimed)
    ensures Run(es', t') && t'.order == t.order
    ensures var me := t.callers[c];
            && t'.finalization == Finalization(ChargeAttempting, Some(me.slot), me.known)
            && t'.ledger == (if me.known.Some? then t.ledger else t.ledger.(creates := t.ledger.creates + {(me.key, me.terms)}))
            && t'.callers == t.callers[c := if me.known.Some? then me.(phase := Retrieving, persisted := me.known)
                                            else me.(phase := Creating)]
  {
    es', t' := Then(es, t, LinkFinalization(c));
    es', t' := Then(es', t', CallStripe(c));
  }

  /** It is told of an intent that has not succeeded: line 403 runs, and the failure is recorded. */
  lemma HearAndFail(es: seq<Event>, t: System, c: nat, p: PaymentIntent, now: int) returns (es': seq<Event>, t': System)
    requires Run(es, t) && Enabled(t, Receive(c, Accepted(p))) && p.status != SucceededIntent
    requires t.callers[c].slot < |t.ledger.attempts|
    requires var row := t.ledger.attempts[t.callers[c].slot]; row.token == t.callers[c].token && row.status == Pending
    ensures Run(es', t') && t'.order.mark == MarkFailed && t'.callers == t.callers - {c}
    ensures t'.finalization == Finalization(ChargeFailedHold, Some(t.callers[c].slot), Some(p.id))
    ensures var slot, me := t.callers[c].slot, AfterIntentWrite(Receiving(t.callers[c], Accepted(p)));
            t'.ledger == t.ledger.(attempts := t.ledger.attempts[slot :=
              SettledRow(t.ledger.attempts[slot], FailureSettlement(me, now))])
  {
    es', t' := Then(es, t, Receive(c, Accepted(p)));
    es', t' := Then(es', t', WriteIntent(c));
    es', t' := Fail(es', t', c, now);
  }

  /** Its failure is settled and the order held. */
  lemma Fail(es: seq<Event>, t: System, c: nat, now: int) returns (es': seq<Event>, t': System)
    requires Run(es, t) && At(t, c, Failing) && !PaymentSucceeded(t.callers[c])
    requires t.callers[c].slot < |t.ledger.attempts|
    requires t.ledger.attempts[t.callers[c].slot].token == t.callers[c].token
    requires t.ledger.attempts[t.callers[c].slot].status == Pending
    ensures Run(es', t') && t'.order.mark == MarkFailed && t'.callers == t.callers - {c}
    ensures var me := t.callers[c];
            && t'.ledger == t.ledger.(attempts := t.ledger.attempts[me.slot :=
                 SettledRow(t.ledger.attempts[me.slot], FailureSettlement(me, now))])
            && t'.finalization == Finalization(ChargeFailedHold, Some(me.slot), FailureIntent(me))
  {
    es', t' := Then(es, t, SettleFailure(c, now));
    es', t' := Then(es', t', WriteHold(c));
    es', t' := Then(es', t', WriteHoldOrder(c));
  }

  const PROCESSING := PaymentIntent(0, Processing, NoCode)
  const DECLINED := PaymentIntent(0, RequiresPaymentMethod, CardDeclined)
  const PAID := PaymentIntent(1, SucceededIntent, NoCode)

  function Row(n: nat, status: AttemptStatus, token: nat, at: int): Attempt {
    Attempt(n + 1, CARD, n, status, None, None, NoCode, false, token, at, at, None)
  }

  /** A row whose intent has only been seen processing. */
  function UnsettledRow(status: AttemptStatus, token: nat): Attempt {
    Attempt(1, CARD, 0, status, Some(0), Some(Processing), OtherCode, false, token, TTL, TTL, None)
  }

  function DeclinedRow(n: nat, token: nat, requested: int, at: int): Attempt {
    Attempt(n + 1, CARD, n, Failed, Some(0), Some(RequiresPaymentMethod), CardDeclined, true, token, requested, at, None)
  }

  /** What settling a declined intent leaves on a row. */
  lemma SettlesDeclined(row: Attempt, me: Caller, at: int)
    ensures SettledRow(row, FailureSettlement(AfterIntentWrite(Receiving(me, Accepted(DECLINED))), at)) ==
            row.(status := Failed, intent := Some(0), stripeStatus := Some(RequiresPaymentMethod), failureCode := CardDeclined,
                 declineConfirmed := true, succeededAt := None, updatedAt := at)
  {
  }

  lemma FirstClaim() returns (es: seq<Event>, t: System)
    ensures Run(es, t) && t.callers.Keys == {0} && t.order.mark == NoMark
    ensures t.ledger == Ledger([Row(0, Pending, 0, 0)], map[], {(0, CARD)}, 1)
    ensures t.finalization == Finalization(ChargeAttempting, Some(0), None)
    ensures At(t, 0, Creating) && t.callers[0].slot == 0 && t.callers[0].key == 0
  {
    es, t := [], FirstState();
    es, t := Arrive(es, t, 0);
    assert DeclineGenerations([]) == {};
    es, t := ClaimAndCall(es, t, 0, 0);
    assert t.ledger.attempts == [Row(0, Pending, 0, 0)];
  }

  /** Caller 0 holds Stripe's first answer and stalls. */
  lemma FirstCallerStalls() returns (es: seq<Event>, t: System)
    ensures Run(es, t) && t.callers.Keys == {0} && t.order.mark == NoMark
    ensures t.ledger == Ledger([Row(0, Pending, 0, 0)], map[0 := PROCESSING], {(0, CARD)}, 1)
    ensures t.finalization == Finalization(ChargeAttempting, Some(0), None)
    ensures Stalled(t)
  {
    es, t := FirstClaim();
    assert (0, CARD) in t.ledger.creates;
    es, t := StripeSettles(es, t, 0, Processing);
    es, t := Then(es, t, Receive(0, Accepted(PROCESSING)));
    assert t.ledger.stripe == map[0 := PROCESSING];
  }

  /** Caller 0 still has line 403 to run. */
  ghost predicate Stalled(t: System) {
    At(t, 0, Replied) && t.callers[0].slot == 0 && t.callers[0].payment == Some(PROCESSING)
  }

  lemma RequestMade() returns (es: seq<Event>, t: System)
    ensures Run(es, t) && t.callers.Keys == {0, 1} && t.order.mark == NoMark
    ensures t.ledger == Ledger([Row(0, Pending, 1, TTL)], map[0 := PROCESSING], {(0, CARD)}, 2)
    ensures t.finalization == Finalization(ChargeAttempting, Some(0), None)
    ensures Stalled(t) && At(t, 1, Creating)
    ensures var me := t.callers[1]; me.slot == 0 && me.token == 1 && me.key == 0 && me.payment == None
  {
    es, t := FirstCallerStalls();
    es, t := Arrive(es, t, 1);
    es, t := ClaimAndCall(es, t, 1, TTL);
    assert t.ledger.attempts == [Row(0, Pending, 1, TTL)];
  }

  /** Caller 1 repeats the request, and is told what caller 0 was. */
  lemma RequestRepeated() returns (es: seq<Event>, t: System)
    ensures Run(es, t) && t.callers.Keys == {0} && t.order.mark == MarkFailed
    ensures t.ledger == Ledger([UnsettledRow(Failed, 1)], map[0 := PROCESSING], {(0, CARD)}, 2)
    ensures t.finalization == Finalization(ChargeFailedHold, Some(0), Some(0))
    ensures Stalled(t)
  {
    es, t := RequestMade();
    es, t := HearAndFail(es, t, 1, PROCESSING, TTL);
    assert t.ledger.attempts == [UnsettledRow(Failed, 1)];
    assert t.callers.Keys == {0};
  }

  lemma RecordClaimed() returns (es: seq<Event>, t: System)
    ensures Run(es, t) && t.callers.Keys == {0, 2} && t.order.mark == MarkFailed
    ensures t.ledger == Ledger([UnsettledRow(Pending, 2)], map[0 := DECLINED], {(0, CARD)}, 3)
    ensures t.finalization == Finalization(ChargeAttempting, Some(0), Some(0))
    ensures Stalled(t) && At(t, 2, Retrieving)
    ensures var me := t.callers[2]; me.slot == 0 && me.token == 2 && me.known == Some(0) && me.payment == None
  {
    es, t := RequestRepeated();
    es, t := Then(es, t, StripeMoves(0, RequiresPaymentMethod, CardDeclined));
    assert t.ledger.stripe == map[0 := DECLINED];
    es, t := Arrive(es, t, 2);
    es, t := ClaimAndCall(es, t, 2, TTL);
    assert t.ledger.attempts == [UnsettledRow(Pending, 2)];
  }

  /** The card has been declined: caller 2 retrieves the intent on record and settles that. */
  lemma FirstKeyDeclined() returns (es: seq<Event>, t: System)
    ensures Run(es, t) && t.callers.Keys == {0} && t.order.mark == MarkFailed
    ensures t.ledger == Ledger([DeclinedRow(0, 2, TTL, TTL)], map[0 := DECLINED], {(0, CARD)}, 3)
    ensures t.finalization == Finalization(ChargeFailedHold, Some(0), Some(0))
    ensures Stalled(t)
  {
    es, t := RecordClaimed();
    SettlesDeclined(UnsettledRow(Pending, 2), t.callers[2], TTL);
    es, t := HearAndFail(es, t, 2, DECLINED, TTL);
    assert t.ledger.attempts == [DeclinedRow(0, 2, TTL, TTL)];
    assert t.callers.Keys == {0};
  }

  lemma SecondClaim() returns (es: seq<Event>, t: System)
    ensures Run(es, t) && t.callers.Keys == {0, 3} && t.order.mark == MarkFailed
    ensures t.ledger == Ledger([DeclinedRow(0, 2, TTL, TTL), Row(1, Pending, 3, TTL)], map[0 := DECLINED],
                               {(0, CARD), (1, CARD)}, 4)
    ensures t.finalization == Finalization(ChargeAttempting, Some(1), None)
    ensures Stalled(t)
  {
    es, t := FirstKeyDeclined();
    es, t := Arrive(es, t, 3);
    assert DeclineGenerations(t.ledger.attempts) == {0} by {
      assert ConfirmedDecline(t.ledger.attempts[0]);
    }
    assert LargestNumber(t.ledger.attempts) == 1;
    es, t := ClaimAndCall(es, t, 3, TTL);
    assert t.ledger.attempts == [DeclinedRow(0, 2, TTL, TTL), Row(1, Pending, 3, TTL)];
  }

  /** Caller 3 is charged under the second key, and dies. */
  lemma SecondKeyCharged() returns (es: seq<Event>, t: System)
    ensures Run(es, t) && t.callers.Keys == {0} && t.order.mark == MarkFailed
    ensures t.ledger == Ledger([DeclinedRow(0, 2, TTL, TTL), Row(1, Pending, 3, TTL)], map[0 := DECLINED, 1 := PAID],
                               {(0, CARD), (1, CARD)}, 4)
    ensures t.finalization == Finalization(ChargeAttempting, Some(1), None)
    ensures Stalled(t)
  {
    es, t := SecondClaim();
    assert (1, CARD) in t.ledger.creates;
    es, t := StripeSettles(es, t, 1, SucceededIntent);
    es, t := Dies(es, t, 3);
    assert t.callers.Keys == {0};
  }

  /** Caller 0 now runs line 403. */
  lemma SecondKeyPaid() returns (es: seq<Event>, t: System)
    ensures Run(es, t) && t.callers.Keys == {0} && t.order.mark == MarkFailed
    ensures t.ledger == Ledger([DeclinedRow(0, 2, TTL, TTL), Row(1, Pending, 3, TTL)], map[0 := DECLINED, 1 := PAID],
                               {(0, CARD), (1, CARD)}, 4)
    ensures t.finalization == Finalization(ChargeAttempting, Some(1), Some(0))
  {
    es, t := SecondKeyCharged();
    es, t := Then(es, t, WriteIntent(0));
    assert t.callers.Keys == {0};
  }

  lemma PaidAttemptClaimed() returns (es: seq<Event>, t: System)
    ensures Run(es, t) && t.callers.Keys == {0, 4} && t.order.mark == MarkFailed
    ensures t.ledger == Ledger([DeclinedRow(0, 2, TTL, TTL), Row(1, Pending, 4, 2 * TTL)], map[0 := DECLINED, 1 := PAID],
                               {(0, CARD), (1, CARD)}, 5)
    ensures t.finalization == Finalization(ChargeAttempting, Some(1), Some(0))
    ensures At(t, 4, Retrieving)
    ensures var me := t.callers[4]; me.slot == 1 && me.token == 4 && me.known == Some(0) && me.payment == None
  {
    es, t := SecondKeyPaid();
    es, t := Arrive(es, t, 4);
    es, t := ClaimAndCall(es, t, 4, 2 * TTL);
    assert t.ledger.attempts == [DeclinedRow(0, 2, TTL, TTL), Row(1, Pending, 4, 2 * TTL)];
  }

  /** Caller 4 adopts the old declined intent and settles the paid attempt as declined. */
  lemma PaidAttemptDeclined() returns (es: seq<Event>, t: System)
    ensures Run(es, t) && t.callers.Keys == {0} && t.order.mark == MarkFailed
    ensures t.ledger == Ledger([DeclinedRow(0, 2, TTL, TTL), DeclinedRow(1, 4, 2 * TTL, 2 * TTL)],
                               map[0 := DECLINED, 1 := PAID], {(0, CARD), (1, CARD)}, 5)
    ensures t.finalization == Finalization(ChargeFailedHold, Some(1), Some(0))
  {
    es, t := PaidAttemptClaimed();
    SettlesDeclined(Row(1, Pending, 4, 2 * TTL), t.callers[4], 2 * TTL);
    es, t := HearAndFail(es, t, 4, DECLINED, 2 * TTL);
    assert t.ledger.attempts == [DeclinedRow(0, 2, TTL, TTL), DeclinedRow(1, 4, 2 * TTL, 2 * TTL)];
    assert t.callers.Keys == {0};
  }

  /** Caller 5 opens a third key. */
  lemma ThirdClaim() returns (es: seq<Event>, t: System)
    ensures Run(es, t) && t.ledger.stripe == map[0 := DECLINED, 1 := PAID] && (2, CARD) in t.ledger.creates
  {
    es, t := PaidAttemptDeclined();
    es, t := Arrive(es, t, 5);
    assert DeclineGenerations(t.ledger.attempts) == {0, 1} by {
      assert ConfirmedDecline(t.ledger.attempts[0]) && ConfirmedDecline(t.ledger.attempts[1]);
    }
    es, t := ClaimAndCall(es, t, 5, 2 * TTL);
  }

  /** Two intents of one finalization succeed. */
  lemma DoubleCharge() returns (es: seq<Event>)
    ensures Initial(FirstState()) && !GuardedRun(FirstState(), es)
    ensures var stripe := Exec(FirstState(), es).ledger.stripe;
            && 1 in stripe && stripe[1].status == SucceededIntent
            && 2 in stripe && stripe[2].status == SucceededIntent
  {
    var t;
    es, t := ThirdClaim();
    es, t := StripeSettles(es, t, 2, SucceededIntent);
    if GuardedRun(FirstState(), es) {
      AtMostOneCharge(FirstState(), es, 1, 2);
    }
  }
}
