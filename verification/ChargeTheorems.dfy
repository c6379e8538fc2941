/** What the charge protocol guarantees over whole runs, and where it stops guaranteeing it. */
module ChargeTheorems {
  import opened Base
  import opened ChargeModel
  import opened ChargeSafety

  lemma KeepsSettles(s: System, e: Event)
    requires Inv(s) && Enabled(s, e) && (e.SettleSuccess? || e.SettleFailure?)
    ensures Inv(Apply(s, e))
  {
    var me := s.callers[e.c];
    assert ClaimOk(s.ledger, me) by {
      assert CallerOk(s.ledger, me);
    }
    if e.SettleFailure? {
      FailureEvidence(s.ledger, me, e.now);
      KeepsSettlement(s, e.c, FailureSettlement(me, e.now), !PaymentSucceeded(me), Holding);
    } else {
      var p := me.payment.value;
      KeepsSettlement(s, e.c, SettleInput(true, Some(p.id), Some(p.status), NoCode, false, e.now), false, Recording);
    }
  }

  lemma KeepsStripeEvents(s: System, e: Event)
    requires Inv(s) && Enabled(s, e) && (e.StripeCreates? || e.StripeMoves?)
    ensures Inv(Apply(s, e))
  {
    KeepsStripe(s, e.key, e.intentStatus, e.lastError);
  }

  predicate Preparing(e: Event) {
    e.Start? || e.ReadPreview? || e.WritePreview? || e.ClaimAttempt? || e.LinkFinalization? || e.CallStripe?
  }

  predicate Charging(e: Event) {
    e.Receive? || e.WriteIntent? || e.SettleSuccess? || e.RecordRelease? || e.RecordOrder? || e.Throw?
  }

  lemma KeepsPreparing(s: System, e: Event)
    requires Inv(s) && Enabled(s, e) && Preparing(e)
    ensures Inv(Apply(s, e))
  {
    match e
    case Start(c) => KeepsStart(s, c);
    case ReadPreview(c) => KeepsReadPreview(s, c);
    case WritePreview(c) => KeepsWritePreview(s, c);
    case ClaimAttempt(_, _, _, _) => KeepsClaim(s, e);
    case LinkFinalization(c) => KeepsLink(s, c);
    case CallStripe(c) => KeepsCallStripe(s, c);
  }

  lemma KeepsCharging(s: System, e: Event)
    requires Inv(s) && Enabled(s, e) && Guarded(s, e) && Charging(e)
    ensures Inv(Apply(s, e))
  {
    match e
    case Receive(c, reply) => KeepsReceive(s, c, reply);
    case WriteIntent(c) => KeepsWriteIntent(s, c);
    case SettleSuccess(_, _) => KeepsSettles(s, e);
    case RecordRelease(c) => KeepsRecordRelease(s, c);
    case RecordOrder(c) => KeepsRecordOrder(s, c);
    case Throw(c) => KeepsThrow(s, c);
  }

  lemma KeepsEnding(s: System, e: Event)
    requires Inv(s) && Enabled(s, e) && !Preparing(e) && !Charging(e)
    ensures Inv(Apply(s, e))
  {
    match e
    case SettleFailure(_, _) => KeepsSettles(s, e);
    case WriteHold(c) => KeepsWriteHold(s, c);
    case WriteHoldOrder(c) => KeepsWriteHoldOrder(s, c);
    case Leave(c) => KeepsLeave(s, c);
    case StaffStatus(_) => KeepsStaff(s, e);
    case RestoreOrder(_) => KeepsStaff(s, e);
    case StripeCreates(_, _, _) => KeepsStripeEvents(s, e);
    case StripeMoves(_, _, _) => KeepsStripeEvents(s, e);
  }

  /** Every event of every caller, of staff and of Stripe keeps the invariant; line 403 only under its guard. */
  lemma StepKeepsInv(s: System, e: Event)
    requires Inv(s) && Guarded(s, e)
    ensures Inv(Step(s, e))
  {
    if Enabled(s, e) {
      if Preparing(e) {
        KeepsPreparing(s, e);
      } else if Charging(e) {
        KeepsCharging(s, e);
      } else {
        KeepsEnding(s, e);
      }
    }
  }

  lemma {:induction false} ExecSnoc(s: System, es: seq<Event>, e: Event)
    ensures Exec(s, es + [e]) == Step(Exec(s, es), e)
    decreases |es|
  {
    if es != [] {
      assert (es + [e])[1..] == es[1..] + [e];
      ExecSnoc(Step(s, es[0]), es[1..], e);
    }
  }

  lemma {:induction false} GuardedSnoc(s: System, es: seq<Event>, e: Event)
    requires GuardedRun(s, es) && Guarded(Exec(s, es), e)
    ensures GuardedRun(s, es + [e])
    decreases |es|
  {
    if es != [] {
      assert (es + [e])[1..] == es[1..] + [e];
      GuardedSnoc(Step(s, es[0]), es[1..], e);
    }
  }

  lemma InitialInv(s: System)
    requires Initial(s)
    ensures Inv(s)
  {
  }

  lemma {:induction false} RunKeepsInv(s: System, es: seq<Event>)
    requires Inv(s) && GuardedRun(s, es)
    ensures Inv(Exec(s, es))
    decreases |es|
  {
    if es != [] {
      StepKeepsInv(s, es[0]);
      RunKeepsInv(Step(s, es[0]), es[1..]);
    }
  }

  /** Only the newest attempt's intent can have succeeded; every older key is terminally declined. */
  lemma OlderKeysDeclined(s: System, key: nat)
    requires Inv(s) && key in s.ledger.stripe
    ensures key < |s.ledger.attempts|
    ensures key < |s.ledger.attempts| - 1 ==> TerminallyDeclined(s.ledger.stripe, key)
  {
    assert RowsOk(s.ledger) && StripeOk(s.ledger);
    var create :| create in s.ledger.creates && create.0 == key;
    assert RowOk(s.ledger, key);
  }

  /** Over every guarded interleaving of any number of callers, with crashes, stalls and expired
      leases, at most one PaymentIntent of the finalization ever succeeds. */
  lemma AtMostOneCharge(s: System, es: seq<Event>, j: nat, k: nat)
    requires Initial(s) && GuardedRun(s, es)
    requires j in Exec(s, es).ledger.stripe && Exec(s, es).ledger.stripe[j].status == SucceededIntent
    requires k in Exec(s, es).ledger.stripe && Exec(s, es).ledger.stripe[k].status == SucceededIntent
    ensures j == k == |Exec(s, es).ledger.attempts| - 1
  {
    InitialInv(s);
    RunKeepsInv(s, es);
    OlderKeysDeclined(Exec(s, es), j);
    OlderKeysDeclined(Exec(s, es), k);
  }

  /*** The attempt table over time ***/

  /** Rows are only ever added behind confirmed declines; a confirmed decline never changes again; a
      success is never downgraded, keeps its terms and intent, and nothing is added after it. */
  predicate History(old': seq<Attempt>, new': seq<Attempt>) {
    && |old'| <= |new'|
    && (forall i | 0 <= i < |old'| && ConfirmedDecline(old'[i]) :: new'[i] == old'[i])
    && (forall i | 0 <= i < |old'| :: new'[i].terms == old'[i].terms && new'[i].generation == old'[i].generation)
    && (forall i | 0 <= i < |old'| && old'[i].status == Succeeded :: new'[i].status == Succeeded)
    && (|new'| > |old'| > 0 ==> ConfirmedDecline(new'[|old'| - 1]))
    && (|old'| > 0 && old'[|old'| - 1].status == Succeeded ==> |new'| == |old'|)
  }

  lemma SettleHistory(l: Ledger, slot: nat, token: nat, input: SettleInput)
    requires LedgerOk(l) && slot < |l.attempts|
    requires token == l.attempts[slot].token ==> l.attempts[slot].status != Failed
    ensures History(l.attempts, Settle(l.attempts, slot, token, input).0)
  {
  }

  /** An added row uses a key that was never sent to Stripe. */
  predicate AddsUnusedKey(l: Ledger, new': seq<Attempt>) {
    |new'| > |l.attempts| ==>
      && new'[|l.attempts|].generation == |l.attempts|
      && !KeyUsed(l.creates, |l.attempts|) && |l.attempts| !in l.stripe
  }

  lemma ClaimHistory(l: Ledger, input: ClaimInput)
    requires LedgerOk(l) && input.token == l.nextToken && Claim(l.attempts, input).1
    ensures History(l.attempts, Claim(l.attempts, input).0)
    ensures AddsUnusedKey(l, Claim(l.attempts, input).0)
  {
    ClaimedRow(l, input);
    ClaimAddsUnusedKey(l, ClaimedLedger(l, input));
    if l.attempts != [] {
      assert RowOk(l, |l.attempts| - 1);
    }
  }

  lemma ClaimAddsUnusedKey(l: Ledger, k: Ledger)
    requires LedgerOk(l) && RowsOk(k) && |k.attempts| <= |l.attempts| + 1
    ensures AddsUnusedKey(l, k.attempts)
  {
    if |k.attempts| > |l.attempts| {
      assert RowOk(k, |l.attempts|);
    }
  }

  lemma SettleStepHistory(s: System, e: Event)
    requires Inv(s) && Enabled(s, e) && (e.SettleSuccess? || e.SettleFailure?)
    ensures History(s.ledger.attempts, Apply(s, e).ledger.attempts)
    ensures |Apply(s, e).ledger.attempts| == |s.ledger.attempts|
  {
    var me := s.callers[e.c];
    assert CallerOk(s.ledger, me);
    var input := if e.SettleFailure? then FailureSettlement(me, e.now)
      else SettleInput(true, Some(me.payment.value.id), Some(me.payment.value.status), NoCode, false, e.now);
    SettleHistory(s.ledger, me.slot, me.token, input);
  }

  lemma OtherEventsKeepAttempts(s: System, e: Event)
    requires Enabled(s, e) && !e.SettleSuccess? && !e.SettleFailure?
    requires e.ClaimAttempt? ==> !Claim(s.ledger.attempts, ClaimInputOf(s, e)).1
    ensures Apply(s, e).ledger.attempts == s.ledger.attempts
  {
  }

  lemma StepHistory(s: System, e: Event)
    requires Inv(s)
    ensures History(s.ledger.attempts, Step(s, e).ledger.attempts)
    ensures AddsUnusedKey(s.ledger, Step(s, e).ledger.attempts)
  {
    if Enabled(s, e) {
      if e.ClaimAttempt? && Claim(s.ledger.attempts, ClaimInputOf(s, e)).1 {
        ClaimHistory(s.ledger, ClaimInputOf(s, e));
        OwnedClaimShape(s, e);
      } else if e.SettleSuccess? || e.SettleFailure? {
        SettleStepHistory(s, e);
      } else {
        OtherEventsKeepAttempts(s, e);
      }
    }
  }

  lemma HistoryTransitive(a: seq<Attempt>, b: seq<Attempt>, c: seq<Attempt>)
    requires History(a, b) && History(b, c)
    ensures History(a, c)
  {
    if |a| > 0 && |c| > |a| {
      assert ConfirmedDecline(c[|a| - 1]) by {
        if |b| == |a| {
          assert ConfirmedDecline(c[|b| - 1]);
        } else {
          assert ConfirmedDecline(b[|a| - 1]);
        }
      }
    }
  }

  lemma {:induction false} RunHistory(s: System, es: seq<Event>)
    requires Inv(s) && GuardedRun(s, es)
    ensures History(s.ledger.attempts, Exec(s, es).ledger.attempts)
    decreases |es|
  {
    if es != [] {
      StepKeepsInv(s, es[0]);
      StepHistory(s, es[0]);
      RunHistory(Step(s, es[0]), es[1..]);
      HistoryTransitive(s.ledger.attempts, Step(s, es[0]).ledger.attempts, Exec(s, es).ledger.attempts);
    }
  }

  /** In every reachable state the i-th row carries generation i and every row but the last is a confirmed
      decline whose own intent Stripe has terminally declined. */
  lemma AttemptList(s: System, es: seq<Event>, i: nat)
    requires Initial(s) && GuardedRun(s, es) && i < |Exec(s, es).ledger.attempts|
    ensures var l := Exec(s, es).ledger;
            && l.attempts[i].generation == i && l.attempts[i].number == i + 1
            && (i < |l.attempts| - 1 ==>
                  ConfirmedDecline(l.attempts[i]) && l.attempts[i].intent == Some(i) && TerminallyDeclined(l.stripe, i))
  {
    InitialInv(s);
    RunKeepsInv(s, es);
    assert RowOk(Exec(s, es).ledger, i);
  }

  /** Every create call under one key asks for the same amount, currency, customer and card. */
  lemma OneKeyOneCharge(s: System, es: seq<Event>, key: nat, t: Terms, u: Terms)
    requires Initial(s) && GuardedRun(s, es)
    requires (key, t) in Exec(s, es).ledger.creates && (key, u) in Exec(s, es).ledger.creates
    ensures key < |Exec(s, es).ledger.attempts| && t == u == Exec(s, es).ledger.attempts[key].terms
  {
    InitialInv(s);
    RunKeepsInv(s, es);
    assert StripeOk(Exec(s, es).ledger);
    assert (key, t).1 == Exec(s, es).ledger.attempts[(key, t).0].terms;
    assert (key, u).1 == Exec(s, es).ledger.attempts[(key, u).0].terms;
  }

  /** Goods are released, on the finalization or on the order, only when an intent has succeeded. */
  lemma ReleasedMeansPaid(s: System, es: seq<Event>)
    requires Initial(s) && GuardedRun(s, es)
    requires Exec(s, es).finalization.status == ChargedReady || Exec(s, es).order.mark == MarkSucceeded
    ensures var l := Exec(s, es).ledger;
            var n := |l.attempts| - 1;
            n >= 0 && n in l.stripe && l.stripe[n].status == SucceededIntent && l.attempts[n].intent == Some(n as nat)
  {
    InitialInv(s);
    RunKeepsInv(s, es);
    var t := Exec(s, es);
    assert MetaOk(t.ledger, t.order) && LinkOk(t.ledger, t.finalization);
    assert RowOk(t.ledger, |t.ledger.attempts| - 1);
  }

  /*** Who may charge ***/

  /** Another caller's work on an attempt, in the light of the finalization's status, is younger than the lease. */
  predicate FreshlyHeld(a: Attempt, status: FinStatus, now: int, ttl: int) {
    var lease := if ttl < 1 then 1 else ttl;
    match a.status
    case Pending => now < a.requestedAt + lease
    case Failed => status == ChargeAttempting && now < a.updatedAt + lease
    case Succeeded =>
      status != RecordingFailed && now < (if a.succeededAt.Some? then a.succeededAt.value else a.updatedAt) + lease
  }

  /** The attempt's intent is known, and Stripe has terminally declined the card for it. */
  predicate DeclinedForGood(a: Attempt) {
    && a.status == Failed && a.intent.Some? && a.stripeStatus == Some(RequiresPaymentMethod)
    && (a.failureCode == CardDeclined || a.declineConfirmed)
  }

  /** A claim taking over an attempt: a new token and time, and nothing else but the status of an unsettled one. */
  predicate TakenOver(a: Attempt, b: Attempt, token: nat, now: int) {
    && b.status == (if a.status == Succeeded then Succeeded else Pending)
    && b.token == token && b.requestedAt == now && b.updatedAt == now
    && b == a.(status := b.status, token := token, requestedAt := now, updatedAt := now)
  }

  /** A claim opening an attempt, as the `n`-th: the caller's terms, and nothing known yet. */
  predicate Opened(b: Attempt, n: nat, terms: Terms, token: nat, now: int) {
    && b.number == n + 1 && b.generation == n && b.terms == terms && b.status == Pending && b.token == token
    && b.requestedAt == now && b.updatedAt == now && b.intent == None && b.stripeStatus == None
    && b.failureCode == NoCode && !b.declineConfirmed && b.succeededAt == None
  }

  /** A claim succeeds exactly when nobody freshly holds the newest attempt; it then opens an attempt of its own if
      there is none or the newest is declined for good, and takes the newest over otherwise. */
  ghost predicate ClaimsRightly(old': seq<Attempt>, new': seq<Attempt>, owned: bool, input: ClaimInput) {
    var n := |old'|;
    && (owned <==> n == 0 || !FreshlyHeld(old'[n - 1], input.finStatus, input.now, input.ttl))
    && (!owned ==> new' == old')
    && (owned && (n == 0 || DeclinedForGood(old'[n - 1])) ==>
          |new'| == n + 1 && new'[..n] == old' && Opened(new'[n], n, input.terms, input.token, input.now))
    && (owned && n > 0 && !DeclinedForGood(old'[n - 1]) ==>
          |new'| == n && new'[..n - 1] == old'[..n - 1] && TakenOver(old'[n - 1], new'[n - 1], input.token, input.now))
  }

  lemma ClaimLaw(l: Ledger, input: ClaimInput)
    requires LedgerOk(l)
    ensures ClaimsRightly(l.attempts, Claim(l.attempts, input).0, Claim(l.attempts, input).1, input)
  {
    var n := |l.attempts|;
    if n > 0 {
      assert RowOk(l, n - 1);
    }
    if n == 0 || ConfirmedDecline(l.attempts[n - 1]) {
      forall i: nat | i < n
        ensures ConfirmedDecline(l.attempts[i]) && l.attempts[i].generation == i && l.attempts[i].number == i + 1
      {
        assert RowOk(l, i);
      }
      GenerationsCounted(l.attempts);
    }
  }

  /** The generations of the attempts declined for good. */
  ghost predicate AreDeclined(attempts: seq<Attempt>, generations: set<nat>) {
    forall g :: g in generations <==> exists i :: 0 <= i < |attempts| && DeclinedForGood(attempts[i]) && attempts[i].generation == g
  }

  lemma {:induction false} LargestIsHighest(attempts: seq<Attempt>)
    ensures forall i :: 0 <= i < |attempts| ==> attempts[i].number <= LargestNumber(attempts)
    ensures LargestNumber(attempts) == 0 || exists i :: 0 <= i < |attempts| && attempts[i].number == LargestNumber(attempts)
  {
    if attempts != [] {
      var n := |attempts| - 1;
      LargestIsHighest(attempts[..n]);
      assert forall i :: 0 <= i < n ==> attempts[..n][i] == attempts[i];
      assert attempts[n].number <= LargestNumber(attempts);
    }
  }

  /** On any table, whoever wrote it, the attempt a claim opens is numbered one behind the highest, and its generation is
      the number of generations declined for good. */
  lemma OpensNext(attempts: seq<Attempt>, input: ClaimInput) returns (generations: set<nat>)
    requires |Claim(attempts, input).0| == |attempts| + 1
    ensures var b := Claim(attempts, input).0[|attempts|];
            && (forall i :: 0 <= i < |attempts| ==> attempts[i].number < b.number)
            && (b.number == 1 || exists i :: 0 <= i < |attempts| && attempts[i].number + 1 == b.number)
            && AreDeclined(attempts, generations) && b.generation == |generations|
  {
    LargestIsHighest(attempts);
    generations := DeclineGenerations(attempts);
    forall g ensures g in generations <==> exists i :: 0 <= i < |attempts| && DeclinedForGood(attempts[i]) && attempts[i].generation == g {
      if i :| 0 <= i < |attempts| && DeclinedForGood(attempts[i]) && attempts[i].generation == g {
        assert ConfirmedDecline(attempts[i]);
      }
      if g in generations {
        var i :| 0 <= i < |attempts| && ConfirmedDecline(attempts[i]) && attempts[i].generation == g;
        assert DeclinedForGood(attempts[i]);
      }
    }
  }

  /** What a claim takes an attempt's intent to be: its own; or, while a charged order is being recorded, or for the
      attempt the finalization names or the first, the finalization's; or else, while being recorded, the order's. */
  lemma AdoptsFrom(a: Attempt, slot: nat, preview: Finalization, order: OrderMeta)
    ensures var intent := AdoptedIntent(a, slot, preview, order);
            var recording := preview.status == RecordingFailed || order.mark == MarkRecordingFailed;
            && (a.intent.Some? ==> intent == a.intent)
            && (a.intent.None? && (recording || preview.attempt == Some(slot) || a.generation == 0) && preview.intent.Some? ==>
                  intent == preview.intent)
            && (a.intent.None? && preview.intent.None? && recording ==> intent == order.intent)
            && (a.intent.None? && !recording && (preview.intent.None? || (preview.attempt != Some(slot) && a.generation != 0)) ==>
                  intent == None)
  {
  }

  /*** What settling writes ***/

  /** The attempt as a settlement leaves it: what is newly known replaces what was, and what is not known keeps it. */
  predicate SettledAs(a: Attempt, b: Attempt, input: SettleInput) {
    && b.status == (if input.succeeded then Succeeded else Failed)
    && (input.intent.Some? ==> b.intent == input.intent) && (input.intent.None? ==> b.intent == a.intent)
    && (input.stripeStatus.Some? ==> b.stripeStatus == input.stripeStatus)
    && (input.stripeStatus.None? ==> b.stripeStatus == a.stripeStatus)
    && (input.succeeded ==> b.failureCode == NoCode && b.succeededAt == Some(input.now))
    && (!input.succeeded ==> b.failureCode == input.failureCode && b.succeededAt == None)
    && (b.declineConfirmed <==> a.declineConfirmed || input.declineConfirmed)
    && b.updatedAt == input.now && b.requestedAt == a.requestedAt && b.token == a.token
    && b.number == a.number && b.terms == a.terms && b.generation == a.generation
  }

  /** What a failed run reports of its attempt: a payment that succeeded as one, under its intent; otherwise the error,
      with the intent it carries if none is known, and as a decline for good exactly when Stripe's answer carries an intent
      that asks for another card because this one was declined. */
  lemma FailureReports(c: Caller, now: int)
    ensures var input := FailureSettlement(c, now);
            var paid := c.payment.Some? && c.payment.value.status == SucceededIntent;
            && input.succeeded == paid && input.now == now && input.failureCode == (if paid then NoCode else c.errorCode)
            && (c.persisted.Some? ==> input.intent == c.persisted)
            && (c.persisted.None? && c.errorIntent.Some? ==> input.intent == Some(c.errorIntent.value.id))
            && (c.payment.Some? ==> input.stripeStatus == Some(c.payment.value.status))
            && (c.payment.None? && c.errorIntent.Some? ==> input.stripeStatus == Some(c.errorIntent.value.status))
            && (c.payment.None? && c.errorIntent.None? ==> input.stripeStatus == None)
            && (input.declineConfirmed <==>
                  && !paid && c.errorIntent.Some? && c.errorIntent.value.status == RequiresPaymentMethod
                  && (c.errorCode == CardDeclined || c.errorIntent.value.lastError == CardDeclined))
  {
  }

  /** Approving a charge writes back the status it was previewed under, and nothing else. */
  lemma PreviewWritten(s: System, c: nat)
    requires Enabled(s, WritePreview(c))
    ensures var t := Apply(s, WritePreview(c));
            && t.finalization.status == s.callers[c].preview.status
            && t.finalization.attempt == s.finalization.attempt && t.finalization.intent == s.finalization.intent
            && t.ledger == s.ledger && t.order == s.order
  {
  }

  /*** The unguarded write of line 403 ***/

  /** From a safe state the write leaves a safe state exactly under the guard. */
  lemma IntentWriteSafeIff(s: System, c: nat)
    requires Inv(s) && Enabled(s, WriteIntent(c))
    ensures Inv(Apply(s, WriteIntent(c))) <==> IntentWriteGuard(s, c)
  {
    if IntentWriteGuard(s, c) {
      KeepsWriteIntent(s, c);
    } else {
      assert CallerOk(s.ledger, s.callers[c]);
      UnguardedLink(s.ledger, s.callers[c], s.finalization);
    }
  }

  lemma UnguardedLink(l: Ledger, me: Caller, f: Finalization)
    requires ClaimOk(l, me) && me.payment.Some?
    requires me.slot != |l.attempts| - 1 && f.attempt == Some(|l.attempts| - 1)
    ensures !LinkOk(l, f.(intent := Some(me.payment.value.id)))
  {
  }
}
