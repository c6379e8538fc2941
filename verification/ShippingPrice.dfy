/** The price of shipping: composed from a rate and a packing plan, carried in a sealed token, and frozen at
    acceptance.  Amounts inside quotes are whole cents. */
module ShippingPrice {
  import opened Base

  datatype Source = Forecast | Wwex | CmsFallback

  datatype FallbackBasis = FreightOnly | InclusiveTariff

  datatype Policy = Policy(revision: string, approvedBy: string, approvalReference: string, approvedAt: int, from: int,
                           through: int, usd: bool, maxDollars: real, basis: FallbackBasis, retainAccepted: bool)

  /** What a price needs of a packing plan, in dollars. */
  datatype PackingSummary = PackingSummary(id: string, policyVersion: string, boxes: int, dryIceLb: real, boxCost: real,
                                           dryIceCost: real, total: real)

  datatype Quote = Quote(source: Source, policy: Policy, planId: string, planRevision: string, freight: Option<int>,
                         adjustment: Option<int>, rateBasis: int, boxes: int, dryIceLb: real, boxCost: int,
                         dryIceCost: int, packaging: int, addition: int, total: int)

  datatype Error =
    | PolicyInvalid
    | InvalidMoney
    | SourceMismatch
    | PackingRequired
    | PackingInconsistent
    | ExceedsLimit
    | CartRequired
    | RefreshRequired
    | TotalsChanged
    | LedgerInconsistent
    | OrderReviewRequired

  predicate Safe(n: int) {
    -MAX_SAFE <= n <= MAX_SAFE
  }

  /** Halves round up, as the language rounds. */
  function Round(x: real): int {
    (x + 0.5).Floor
  }

  /** The nearest cent, halves up. */
  predicate Nearest(n: int, cents: real) {
    2.0 * n as real - 1.0 <= 2.0 * cents < 2.0 * n as real + 1.0
  }

  lemma NearestIff(n: int, cents: real)
    ensures n == Round(cents) <==> Nearest(n, cents)
  {
  }

  function PriceCents(dollars: Option<real>): Result<int, Error> {
    if dollars.None? || dollars.value < 0.0 || !Safe(Round(dollars.value * 100.0)) then Err(InvalidMoney)
    else Ok(Round(dollars.value * 100.0))
  }

  function Dollars(cents: int): real {
    cents as real / 100.0
  }

  function Normalized(p: Policy): Policy {
    p.(maxDollars := Dollars(Round(p.maxDollars * 100.0)))
  }

  predicate PolicyActive(p: Policy, now: int) {
    && p.usd && p.retainAccepted && p.revision != "" && p.approvedBy != "" && p.approvalReference != ""
    && p.approvedAt <= now && p.from < p.through && p.from <= now < p.through
    && p.maxDollars > 0.0 && Safe(Round(p.maxDollars * 100.0))
  }

  predicate PlanReady(plan: PackingSummary) {
    plan.id != "" && plan.policyVersion != "" && 1 <= plan.boxes <= MAX_SAFE && plan.dryIceLb > 0.0
  }

  /** The cost of boxes and ice, if it adds up. */
  function Packaging(plan: PackingSummary): Result<(int, int), Error> {
    match PriceCents(Some(plan.boxCost))
    case Err(e) => Err(e)
    case Ok(box) =>
      match PriceCents(Some(plan.dryIceCost))
      case Err(e) => Err(e)
      case Ok(ice) =>
        match PriceCents(Some(plan.total))
        case Err(e) => Err(e)
        case Ok(total) => if box + ice != total then Err(PackingInconsistent) else Ok((box, ice))
  }

  /** The carrier's freight behind a rate: none for a table rate, the forecast's own, or the rate itself. */
  function Freight(source: Source, rate: int, estimate: Option<real>): Result<Option<int>, Error> {
    match source
    case CmsFallback => Ok(None)
    case Wwex => Ok(Some(rate))
    case Forecast =>
      match PriceCents(estimate)
      case Err(e) => Err(e)
      case Ok(cents) => Ok(Some(cents))
  }

  function Addition(source: Source, p: Policy, packaging: int): int {
    if source == CmsFallback && p.basis == InclusiveTariff then 0 else packaging
  }

  /** `composeShippingPrice`. */
  function Compose(source: Source, rate: Option<real>, usd: bool, plan: PackingSummary, policy: Policy, now: int,
                   estimate: Option<real>): Result<Quote, Error>
  {
    if !PolicyActive(policy, now) then Err(PolicyInvalid)
    else if !usd then Err(SourceMismatch)
    else if !PlanReady(plan) then Err(PackingRequired)
    else
      match Packaging(plan)
      case Err(e) => Err(e)
      case Ok((box, ice)) =>
        match PriceCents(rate)
        case Err(e) => Err(e)
        case Ok(cents) =>
          match Freight(source, cents, estimate)
          case Err(e) => Err(e)
          case Ok(freight) => Priced(source, cents, freight, box, ice, plan, Normalized(policy))
  }

  function Priced(source: Source, rate: int, freight: Option<int>, box: int, ice: int, plan: PackingSummary, p: Policy):
    Result<Quote, Error>
  {
    var addition := Addition(source, p, box + ice);
    var total := rate + addition;
    match PriceCents(Some(p.maxDollars))
    case Err(e) => Err(e)
    case Ok(limit) =>
      if !Safe(total) || total > limit then Err(ExceedsLimit)
      else Ok(Quote(source, p, plan.id, plan.policyVersion, freight,
                    if freight.Some? then Some(rate - freight.value) else None,
                    rate, plan.boxes, plan.dryIceLb, box, ice, box + ice, addition, total))
  }

  /*** Tokens ***/

  datatype Item = Item(id: string, variantId: string, quantity: int, unitPrice: int)

  datatype Cart = Cart(id: string, usd: bool, address: string, items: seq<Item>)

  /** What a token is bound to; items are hashed in id order, so their order in the cart does not matter. */
  datatype Binding = Binding(cartId: string, planId: string, address: string, items: multiset<Item>)

  /** A sealed token opens to exactly what was sealed. */
  datatype Token = Token(binding: Binding, expiresAt: int, quote: Quote)

  const LIFETIME := 900_000

  function BindingOf(cart: Cart, plan: PackingSummary): Result<Binding, Error> {
    if cart.id == "" || !cart.usd then Err(CartRequired)
    else if exists i :: 0 <= i < |cart.items| && !Cents(cart.items[i].unitPrice) then Err(InvalidMoney)
    else Ok(Binding(cart.id, plan.id, cart.address, multiset(cart.items)))
  }

  function IssueToken(cart: Cart, plan: PackingSummary, quote: Quote, now: int): Result<Token, Error> {
    match BindingOf(cart, plan)
    case Err(e) => Err(e)
    case Ok(binding) => Ok(Token(binding, now + LIFETIME, quote))
  }

  function DollarsOf(cents: Option<int>): Option<real> {
    if cents.Some? then Some(Dollars(cents.value)) else None
  }

  /** `readShippingPriceToken`: the quote is composed afresh from the token's own rate, and must come out the same. */
  function ReadToken(token: Token, cart: Cart, plan: PackingSummary, policy: Policy, now: int): Result<Quote, Error> {
    if token.expiresAt <= now || token.expiresAt > now + LIFETIME then Err(RefreshRequired)
    else
      match BindingOf(cart, plan)
      case Err(e) => Err(e)
      case Ok(binding) =>
        if token.binding != binding || token.quote.policy != policy then Err(RefreshRequired)
        else
          match Compose(token.quote.source, Some(Dollars(token.quote.rateBasis)), cart.usd, plan, policy, now,
                        DollarsOf(token.quote.freight))
          case Err(e) => Err(e)
          case Ok(quote) => if quote != token.quote then Err(RefreshRequired) else Ok(quote)
  }

  lemma RoundWhole(cents: int)
    ensures Round(Dollars(cents) * 100.0) == cents
  {
    assert Dollars(cents) * 100.0 == cents as real;
  }

  /** Cents survive the trip through dollars. */
  lemma CentsRoundTrip(cents: int)
    requires Cents(cents)
    ensures PriceCents(Some(Dollars(cents))) == Ok(cents)
  {
    RoundWhole(cents);
    assert Dollars(cents) >= 0.0;
  }

  lemma CentsAreSafe(dollars: Option<real>)
    requires PriceCents(dollars).Ok?
    ensures Cents(PriceCents(dollars).value)
  {
    assert dollars.value * 100.0 >= 0.0;
  }

  lemma NormalizedTwice(p: Policy)
    ensures Normalized(Normalized(p)) == Normalized(p)
  {
    RoundWhole(Round(p.maxDollars * 100.0));
  }

  /** What a composed quote says: the total is the rate and what packaging adds, within the policy's limit; the
      adjustment is what the rate asks over the carrier's freight. */
  lemma QuoteAddsUp(source: Source, rate: Option<real>, usd: bool, plan: PackingSummary, policy: Policy, now: int,
                    estimate: Option<real>)
    requires Compose(source, rate, usd, plan, policy, now, estimate).Ok?
    ensures var q := Compose(source, rate, usd, plan, policy, now, estimate).value;
            && PriceCents(rate) == Ok(q.rateBasis) && q.packaging == q.boxCost + q.dryIceCost
            && PriceCents(Some(plan.total)) == Ok(q.packaging)
            && q.total == q.rateBasis + (if source == CmsFallback && policy.basis == InclusiveTariff then 0 else q.packaging)
            && 0 <= q.total <= Round(policy.maxDollars * 100.0)
            && (q.freight.Some? ==> q.adjustment == Some(q.rateBasis - q.freight.value))
            && (q.freight.None? <==> source == CmsFallback)
            && q.policy == Normalized(policy)
  {
    CentsAreSafe(rate);
    CentsAreSafe(Some(plan.total));
    RoundWhole(Round(policy.maxDollars * 100.0));
  }

  /** Composing again from a quote's own rate and freight gives the same quote. */
  lemma ComposeAgain(source: Source, rate: Option<real>, plan: PackingSummary, policy: Policy, now: int,
                     estimate: Option<real>, later: int)
    requires Compose(source, rate, true, plan, policy, now, estimate).Ok?
    requires PolicyActive(Normalized(policy), later)
    ensures var q := Compose(source, rate, true, plan, policy, now, estimate).value;
            Compose(q.source, Some(Dollars(q.rateBasis)), true, plan, Normalized(policy), later, DollarsOf(q.freight)) == Ok(q)
  {
    var q := Compose(source, rate, true, plan, policy, now, estimate).value;
    CentsAreSafe(rate);
    CentsRoundTrip(q.rateBasis);
    NormalizedTwice(policy);
    if source == Forecast {
      CentsAreSafe(estimate);
      CentsRoundTrip(q.freight.value);
    }
  }

  /** A token issued for a cart and plan reads back to its quote, at any time before it expires while its policy is in
      force, exactly when the policy given is in the form a quote keeps: its limit in whole cents. */
  lemma TokenReads(source: Source, rate: Option<real>, cart: Cart, cart': Cart, plan: PackingSummary, policy: Policy,
                   now: int, estimate: Option<real>, issued: int, later: int)
    requires Compose(source, rate, cart.usd, plan, policy, now, estimate).Ok?
    requires var quote := Compose(source, rate, cart.usd, plan, policy, now, estimate).value;
             IssueToken(cart, plan, quote, issued).Ok?
    requires issued <= later < issued + LIFETIME && PolicyActive(policy, later)
    requires BindingOf(cart', plan) == BindingOf(cart, plan)
    ensures var quote := Compose(source, rate, cart.usd, plan, policy, now, estimate).value;
            var token := IssueToken(cart, plan, quote, issued).value;
            ReadToken(token, cart', plan, policy, later) == Ok(quote) <==> Normalized(policy) == policy
  {
    var quote := Compose(source, rate, cart.usd, plan, policy, now, estimate).value;
    QuoteAddsUp(source, rate, cart.usd, plan, policy, now, estimate);
    if Normalized(policy) == policy {
      ComposeAgain(source, rate, plan, policy, now, estimate, later);
    }
  }

  /** The policy as it is read: `validateShippingPricePolicy` rounds its limit to whole cents.  A token then reads back
      under the policy it was priced by, unless the limit is less than half a cent and rounds to nothing. */
  lemma TokenReadsUnderReadPolicy(source: Source, rate: Option<real>, cart: Cart, cart': Cart, plan: PackingSummary,
                                  policy: Policy, now: int, estimate: Option<real>, issued: int, later: int)
    requires Compose(source, rate, cart.usd, plan, policy, now, estimate).Ok?
    requires var quote := Compose(source, rate, cart.usd, plan, policy, now, estimate).value;
             IssueToken(cart, plan, quote, issued).Ok?
    requires issued <= later < issued + LIFETIME && PolicyActive(policy, later)
    requires BindingOf(cart', plan) == BindingOf(cart, plan)
    ensures var quote := Compose(source, rate, cart.usd, plan, policy, now, estimate).value;
            var token := IssueToken(cart, plan, quote, issued).value;
            ReadToken(token, cart', plan, Normalized(policy), later) == Ok(quote) <==> Round(policy.maxDollars * 100.0) > 0
  {
    QuoteAddsUp(source, rate, cart.usd, plan, policy, now, estimate);
    RoundWhole(Round(policy.maxDollars * 100.0));
    if Round(policy.maxDollars * 100.0) > 0 {
      ComposeAgain(source, rate, plan, policy, now, estimate, later);
    }
  }

  /*** A limit with fractions of a cent ***/

  const FRACTIONAL := Policy("r1", "owner", "minute 7", 0, 0, 1_000_000, true, 50.005, FreightOnly, true)
  const ONE_BOX := PackingSummary("plan", "p1", 1, 5.0, 3.0, 7.0, 10.0)
  const BASKET := Cart("cart", true, "address", [Item("i", "v", 1, 2500)])

  /** Taken as it stands, a limit of $50.005 prices a quote, and a moment later its token is refused. */
  lemma FractionalLimitRefused()
    ensures var quote := Compose(Wwex, Some(20.0), true, ONE_BOX, FRACTIONAL, 0, None);
            && quote.Ok? && quote.value.total == 3000
            && IssueToken(BASKET, ONE_BOX, quote.value, 0).Ok?
            && ReadToken(IssueToken(BASKET, ONE_BOX, quote.value, 0).value, BASKET, ONE_BOX, FRACTIONAL, 1) == Err(RefreshRequired)
  {
    assert Round(50.005 * 100.0) == 5001;
    assert PriceCents(Some(20.0)) == Ok(2000) && Packaging(ONE_BOX) == Ok((300, 700));
    RoundWhole(5001);
  }

  /*** Acceptance ***/

  /** The totals of a cart or an order, in cents; a shipping discount may be missing. */
  datatype CartTotals = CartTotals(shippingTotal: int, shippingTax: int, itemSubtotal: int, taxTotal: int, total: int,
                                   shippingDiscount: Option<int>)

  datatype Accepted = Accepted(cartId: string, quote: Quote, shippingDiscount: int, customerShipping: int, shippingTax: int,
                               nonShippingCredit: int)

  predicate TotalsOk(t: CartTotals) {
    && Cents(t.shippingTotal) && Cents(t.shippingTax) && Cents(t.itemSubtotal) && Cents(t.taxTotal) && Cents(t.total)
    && (t.shippingDiscount.Some? ==> Cents(t.shippingDiscount.value))
  }

  /** `acceptShippingPrice`. */
  function Accept(cartId: string, t: CartTotals, methodAmount: int, quote: Quote): Result<Accepted, Error> {
    if !TotalsOk(t) || !Cents(methodAmount) || !Cents(quote.total) then Err(InvalidMoney)
    else
      var discount := quote.total - t.shippingTotal;
      var credit := t.itemSubtotal + t.shippingTotal + t.taxTotal - t.shippingTax - t.total;
      if methodAmount != quote.total || discount < 0 || t.shippingTax > t.shippingTotal
         || (t.shippingDiscount.Some? && t.shippingDiscount.value != discount) then Err(TotalsChanged)
      else if !Safe(credit) || credit < 0 then Err(LedgerInconsistent)
      else Ok(Accepted(cartId, quote, discount, t.shippingTotal, t.shippingTax, credit))
  }

  /** An accepted price closes the cart's ledger: items, shipping net of its tax, and tax, less the credit, are the
      cart's total; and the quote less its discount is what the customer pays for shipping. */
  lemma AcceptedLedger(cartId: string, t: CartTotals, methodAmount: int, quote: Quote)
    requires Accept(cartId, t, methodAmount, quote).Ok?
    ensures var a := Accept(cartId, t, methodAmount, quote).value;
            && t.itemSubtotal + (a.customerShipping - a.shippingTax) + t.taxTotal - a.nonShippingCredit == t.total
            && quote.total - a.shippingDiscount == a.customerShipping == t.shippingTotal
            && 0 <= a.shippingTax <= a.customerShipping && 0 <= a.shippingDiscount && 0 <= a.nonShippingCredit
  {
  }

  /** `readAcceptedShippingPrice`: the order must still carry what was accepted. */
  function ReadAccepted(a: Accepted, cartId: string, usd: bool, shippingTotal: int): Result<Accepted, Error> {
    if a.cartId != cartId || !a.quote.policy.retainAccepted || usd != a.quote.policy.usd then Err(OrderReviewRequired)
    else if !Cents(shippingTotal) || !Cents(a.customerShipping) then Err(InvalidMoney)
    else if shippingTotal != a.customerShipping then Err(OrderReviewRequired)
    else Ok(a)
  }

  /** A price accepted for a quote reads back on an order exactly when the order is its cart's, in its currency, and
      still shows the shipping total that was accepted; anything else is refused. */
  lemma AcceptedReads(source: Source, rate: Option<real>, usd: bool, plan: PackingSummary, policy: Policy, now: int,
                      estimate: Option<real>, cartId: string, t: CartTotals, methodAmount: int,
                      orderCartId: string, orderUsd: bool, shippingTotal: int)
    requires Compose(source, rate, usd, plan, policy, now, estimate).Ok?
    requires var quote := Compose(source, rate, usd, plan, policy, now, estimate).value;
             Accept(cartId, t, methodAmount, quote).Ok?
    ensures var quote := Compose(source, rate, usd, plan, policy, now, estimate).value;
            var a := Accept(cartId, t, methodAmount, quote).value;
            var r := ReadAccepted(a, orderCartId, orderUsd, shippingTotal);
            && (r.Ok? <==> orderCartId == cartId && orderUsd && shippingTotal == t.shippingTotal)
            && (r.Ok? ==> r.value == a && r.value.quote.total - r.value.shippingDiscount == shippingTotal)
            && (r == Err(InvalidMoney) <==> orderCartId == cartId && orderUsd && !Cents(shippingTotal))
  {
    QuoteAddsUp(source, rate, usd, plan, policy, now, estimate);
    AcceptedLedger(cartId, t, methodAmount, Compose(source, rate, usd, plan, policy, now, estimate).value);
  }
}
