/** What a shipping price promises, told from the rate, the packing plan, the policy and the cart. */
module ShippingPromises {
  import opened Base
  import opened ShippingPrice

  /** The cents of an amount in dollars: the nearest, halves up, and counted exactly. */
  predicate Prices(dollars: real, cents: int) {
    0.0 <= dollars && Nearest(cents, 100.0 * dollars) && 0 <= cents <= 9_007_199_254_740_991
  }

  lemma PricesIff(dollars: real, cents: int)
    ensures PriceCents(Some(dollars)) == Ok(cents) <==> Prices(dollars, cents)
  {
    NearestIff(cents, dollars * 100.0);
  }

  /*** Quotes ***/

  /** The policy is complete, approved and in force, and its limit is this many cents. */
  predicate InForce(p: Policy, now: int, limit: int) {
    && p.usd && p.retainAccepted && p.revision != "" && p.approvedBy != "" && p.approvalReference != ""
    && p.approvedAt <= now && p.from <= now < p.through
    && 0.0 < p.maxDollars && Prices(p.maxDollars, limit)
  }

  predicate Packed(plan: PackingSummary) {
    plan.id != "" && plan.policyVersion != "" && 1 <= plan.boxes <= 9_007_199_254_740_991 && 0.0 < plan.dryIceLb
  }

  /** The carrier's freight: none behind a table rate, the rate itself from the carrier, or the forecast's own. */
  predicate RightFreight(source: Source, rate: int, estimate: Option<real>, freight: Option<int>) {
    match source
    case CmsFallback => freight == None
    case Wwex => freight == Some(rate)
    case Forecast => estimate.Some? && freight.Some? && Prices(estimate.value, freight.value)
  }

  /** The quote carries its plan, and prices it so that the boxes and the ice make up the plan's total. */
  predicate RightPackaging(plan: PackingSummary, q: Quote) {
    && q.planId == plan.id && q.planRevision == plan.policyVersion && q.boxes == plan.boxes && q.dryIceLb == plan.dryIceLb
    && Prices(plan.boxCost, q.boxCost) && Prices(plan.dryIceCost, q.dryIceCost) && Prices(plan.total, q.packaging)
    && q.packaging == q.boxCost + q.dryIceCost
  }

  /** The customer pays the rate and, unless a table rate includes it, the packaging; no more than the limit. */
  predicate RightTotal(source: Source, p: Policy, limit: int, q: Quote) {
    && q.addition == (if source == CmsFallback && p.basis == InclusiveTariff then 0 else q.packaging)
    && q.total == q.rateBasis + q.addition && q.total <= limit
  }

  /** The quote carries its policy, with the limit in whole cents. */
  predicate CarriesPolicy(p: Policy, limit: int, q: Quote) {
    q.policy == p.(maxDollars := q.policy.maxDollars) && q.policy.maxDollars == limit as real / 100.0
  }

  ghost predicate RightQuote(source: Source, rate: Option<real>, usd: bool, plan: PackingSummary, p: Policy, now: int,
                             estimate: Option<real>, limit: int, q: Quote)
  {
    && InForce(p, now, limit) && usd && Packed(plan) && RightPackaging(plan, q)
    && rate.Some? && Prices(rate.value, q.rateBasis) && RightFreight(source, q.rateBasis, estimate, q.freight)
    && q.adjustment == (if q.freight.Some? then Some(q.rateBasis - q.freight.value) else None)
    && q.source == source && CarriesPolicy(p, limit, q) && RightTotal(source, p, limit, q)
  }

  ghost predicate IsRight(source: Source, rate: Option<real>, usd: bool, plan: PackingSummary, p: Policy, now: int,
                          estimate: Option<real>, q: Quote)
  {
    exists limit :: RightQuote(source, rate, usd, plan, p, now, estimate, limit, q)
  }

  lemma InForceIff(p: Policy, now: int)
    ensures PolicyActive(p, now) <==> InForce(p, now, Round(p.maxDollars * 100.0))
    ensures forall limit :: InForce(p, now, limit) ==> limit == Round(p.maxDollars * 100.0)
  {
    NearestIff(Round(p.maxDollars * 100.0), p.maxDollars * 100.0);
    forall limit | InForce(p, now, limit) ensures limit == Round(p.maxDollars * 100.0) {
      NearestIff(limit, p.maxDollars * 100.0);
    }
  }

  lemma FreightIff(source: Source, rate: int, estimate: Option<real>, freight: Option<int>)
    ensures Freight(source, rate, estimate) == Ok(freight) <==> RightFreight(source, rate, estimate, freight)
  {
    if source == Forecast && estimate.Some? && freight.Some? {
      PricesIff(estimate.value, freight.value);
    }
  }

  lemma PackagingIff(plan: PackingSummary, box: int, ice: int)
    ensures Packaging(plan) == Ok((box, ice)) <==>
            Prices(plan.boxCost, box) && Prices(plan.dryIceCost, ice) && Prices(plan.total, box + ice)
  {
    PricesIff(plan.boxCost, box);
    PricesIff(plan.dryIceCost, ice);
    PricesIff(plan.total, box + ice);
  }

  /** The quote for parts already priced. */
  predicate Assembled(source: Source, rate: int, freight: Option<int>, box: int, ice: int, plan: PackingSummary, p: Policy,
                      limit: int, q: Quote)
  {
    && q.source == source && CarriesPolicy(p, limit, q) && RightTotal(source, p, limit, q)
    && q.planId == plan.id && q.planRevision == plan.policyVersion && q.boxes == plan.boxes && q.dryIceLb == plan.dryIceLb
    && q.boxCost == box && q.dryIceCost == ice && q.packaging == box + ice && q.rateBasis == rate && q.freight == freight
    && q.adjustment == (if freight.Some? then Some(rate - freight.value) else None)
  }

  lemma AssembledIff(source: Source, rate: int, freight: Option<int>, box: int, ice: int, plan: PackingSummary, p: Policy,
                     limit: int, q: Quote)
    requires 0 <= rate && 0 <= box + ice && limit == Round(p.maxDollars * 100.0) && 0 <= limit <= MAX_SAFE
    ensures Priced(source, rate, freight, box, ice, plan, Normalized(p)) == Ok(q) <==>
            Assembled(source, rate, freight, box, ice, plan, p, limit, q)
  {
    RoundWhole(limit);
    assert PriceCents(Some(Normalized(p).maxDollars)) == Ok(limit);
    assert Assembled(source, rate, freight, box, ice, plan, p, limit, q) ==> q.policy == Normalized(p);
  }

  lemma Composed(source: Source, rate: Option<real>, usd: bool, plan: PackingSummary, p: Policy, now: int,
                 estimate: Option<real>, q: Quote)
    requires Compose(source, rate, usd, plan, p, now, estimate) == Ok(q)
    ensures RightQuote(source, rate, usd, plan, p, now, estimate, Round(p.maxDollars * 100.0), q)
  {
    var limit := Round(p.maxDollars * 100.0);
    InForceIff(p, now);
    var box, ice := Packaging(plan).value.0, Packaging(plan).value.1;
    PackagingIff(plan, box, ice);
    var cents := PriceCents(rate).value;
    PricesIff(rate.value, cents);
    var freight := Freight(source, cents, estimate).value;
    FreightIff(source, cents, estimate, freight);
    AssembledIff(source, cents, freight, box, ice, plan, p, limit, q);
  }

  lemma Composes(source: Source, rate: Option<real>, usd: bool, plan: PackingSummary, p: Policy, now: int,
                 estimate: Option<real>, limit: int, q: Quote)
    requires RightQuote(source, rate, usd, plan, p, now, estimate, limit, q)
    ensures Compose(source, rate, usd, plan, p, now, estimate) == Ok(q)
  {
    InForceIff(p, now);
    PackagingIff(plan, q.boxCost, q.dryIceCost);
    PricesIff(rate.value, q.rateBasis);
    FreightIff(source, q.rateBasis, estimate, q.freight);
    AssembledIff(source, q.rateBasis, q.freight, q.boxCost, q.dryIceCost, plan, p, limit, q);
  }

  /** A price is composed exactly when there is a right quote, and it is that quote. */
  lemma ComposeIff(source: Source, rate: Option<real>, usd: bool, plan: PackingSummary, p: Policy, now: int,
                   estimate: Option<real>, q: Quote)
    ensures Compose(source, rate, usd, plan, p, now, estimate) == Ok(q) <==>
            IsRight(source, rate, usd, plan, p, now, estimate, q)
  {
    if Compose(source, rate, usd, plan, p, now, estimate) == Ok(q) {
      Composed(source, rate, usd, plan, p, now, estimate, q);
    }
    if limit :| RightQuote(source, rate, usd, plan, p, now, estimate, limit, q) {
      Composes(source, rate, usd, plan, p, now, estimate, limit, q);
    }
  }

  /*** Tokens ***/

  /** The binding names the cart, its plan, its address, and its items as they are priced. */
  ghost predicate BoundTo(b: Binding, cart: Cart, plan: PackingSummary) {
    && cart.id != "" && cart.usd && b.cartId == cart.id && b.planId == plan.id && b.address == cart.address
    && (forall item :: item in b.items ==> 0 <= item.unitPrice <= 9_007_199_254_740_991)
    && forall item :: b.items[item] == multiset(cart.items)[item]
  }

  lemma BoundIff(b: Binding, cart: Cart, plan: PackingSummary)
    ensures BindingOf(cart, plan) == Ok(b) <==> BoundTo(b, cart, plan)
  {
    if BoundTo(b, cart, plan) {
      assert b.items == multiset(cart.items);
      forall i | 0 <= i < |cart.items| ensures Cents(cart.items[i].unitPrice) {
        assert cart.items[i] in multiset(cart.items);
      }
    }
    if BindingOf(cart, plan) == Ok(b) {
      forall item | item in b.items ensures 0 <= item.unitPrice <= 9_007_199_254_740_991 {
        assert item in cart.items;
        var i :| 0 <= i < |cart.items| && cart.items[i] == item;
      }
    }
  }

  /** A token is issued exactly when the cart can be bound, and then it is bound to it and lasts a quarter of an hour. */
  lemma IssueIff(cart: Cart, plan: PackingSummary, quote: Quote, now: int, token: Token)
    ensures IssueToken(cart, plan, quote, now) == Ok(token) <==>
            BoundTo(token.binding, cart, plan) && token.expiresAt == now + 900_000 && token.quote == quote
  {
    BoundIff(token.binding, cart, plan);
  }

  lemma ReadComposed(token: Token, cart: Cart, plan: PackingSummary, p: Policy, now: int, q: Quote)
    ensures ReadToken(token, cart, plan, p, now) == Ok(q) <==>
            && q == token.quote && now < token.expiresAt <= now + 900_000 && BindingOf(cart, plan) == Ok(token.binding)
            && q.policy == p
            && Compose(q.source, Some(Dollars(q.rateBasis)), cart.usd, plan, p, now, DollarsOf(q.freight)) == Ok(q)
  {
  }

  /** A token reads back exactly when it is bound to the cart and plan, has not expired and expires within a quarter of an
      hour, was priced under this very policy, and its quote is still right at its own rate and freight; and then it reads
      back to that quote. */
  lemma ReadIff(token: Token, cart: Cart, plan: PackingSummary, p: Policy, now: int, q: Quote)
    ensures ReadToken(token, cart, plan, p, now) == Ok(q) <==>
            && q == token.quote && now < token.expiresAt <= now + 900_000 && BoundTo(token.binding, cart, plan)
            && q.policy == p
            && IsRight(q.source, Some(q.rateBasis as real / 100.0), true, plan, p, now,
                       if q.freight.Some? then Some(q.freight.value as real / 100.0) else None, q)
  {
    ReadComposed(token, cart, plan, p, now, q);
    BoundIff(token.binding, cart, plan);
    ComposeIff(q.source, Some(Dollars(q.rateBasis)), true, plan, p, now, DollarsOf(q.freight), q);
  }

  /*** Acceptance ***/

  /** The cart's totals, and the method's amount, still show the quote: the method costs the quote, the customer pays the
      quote less a discount, the one stated if one is, and no less than the shipping's tax. */
  predicate StillShows(t: CartTotals, methodAmount: int, quote: Quote, discount: int) {
    && methodAmount == quote.total && t.shippingTotal + discount == quote.total && 0 <= discount
    && t.shippingTax <= t.shippingTotal && (t.shippingDiscount.Some? ==> t.shippingDiscount.value == discount)
  }

  /** A price is accepted exactly when all amounts are whole counted cents, the totals still show the quote, and items,
      shipping and tax exceed the cart's total by no less than nothing; and what is accepted is just that. */
  lemma AcceptIff(cartId: string, t: CartTotals, methodAmount: int, quote: Quote, a: Accepted)
    ensures Accept(cartId, t, methodAmount, quote) == Ok(a) <==>
            && Cents(t.shippingTotal) && Cents(t.shippingTax) && Cents(t.itemSubtotal) && Cents(t.taxTotal)
            && Cents(t.total) && Cents(methodAmount) && StillShows(t, methodAmount, quote, a.shippingDiscount)
            && Cents(a.nonShippingCredit)
            && t.total + a.nonShippingCredit == t.itemSubtotal + (t.shippingTotal - t.shippingTax) + t.taxTotal
            && a.cartId == cartId && a.quote == quote && a.customerShipping == t.shippingTotal && a.shippingTax == t.shippingTax
  {
  }
}
