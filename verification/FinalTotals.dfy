/** Final totals of a catch-weight order: each line's final amounts, and the order's totals from them.  Money is in
    whole cents; weights, quantities and unit prices are exact. */
module FinalTotals {
  import opened Base
  import opened Sums
  import RealSums
  import opened ShippingPrice

  datatype Mode = FixedPrice | PerLb

  datatype LineStatus = Removed | Ready | Substituted | Unready

  datatype Line = Line(mode: Mode, status: LineStatus, listId: bool, replacementListId: bool, replacementVariant: bool,
                       removalReason: bool, estimatedSubtotal: int, estimatedTotal: int, estimatedTax: int,
                       unitPrice: real, unitWeights: seq<real>, enteredQuantity: real, pickedQuantity: real,
                       orderedQuantity: real, enteredWeight: Option<real>, persistedSubtotal: Option<int>)

  datatype LineError =
    | MissingListId
    | RemovalNeedsReason
    | WeightRequired
    | LineNotMarked
    | ReplacementRequired
    | QuantityRequired
    | UnitWeightsMissing
    | PriceMissing

  datatype LineResult = LineResult(subtotal: Option<int>, tax: Option<int>, total: Option<int>, delta: Option<int>,
                                   errors: seq<LineError>, largeChange: bool)

  function OrElse(x: real, fallback: real): real {
    if x != 0.0 then x else fallback
  }

  function ActualQuantity(line: Line): real {
    OrElse(line.enteredQuantity, |line.unitWeights| as real)
  }

  function PickedQuantity(line: Line): real {
    OrElse(line.pickedQuantity, ActualQuantity(line))
  }

  function Ceiling(x: real): int {
    -((-x).Floor)
  }

  /** How many pieces of a per-pound line must be weighed. */
  function ExpectedWeights(line: Line): int {
    var most := MaxReal(ActualQuantity(line), PickedQuantity(line));
    if line.mode == PerLb && most > 0.0 then Ceiling(most) else 0
  }

  predicate WeightsMissing(line: Line) {
    0 < |line.unitWeights| < ExpectedWeights(line)
  }

  function ActualWeight(line: Line): Option<real> {
    if line.unitWeights != [] then Some(RealSums.Sum(line.unitWeights, (w: real) => w)) else line.enteredWeight
  }

  predicate Weighed(line: Line) {
    ActualWeight(line).Some? && ActualWeight(line).value > 0.0
  }

  /** A persisted subtotal is replaced when the quantity changed, or when it is zero for a line that was worth
      something. */
  predicate Reprices(line: Line) {
    || line.persistedSubtotal.None? || ActualQuantity(line) != line.orderedQuantity
    || (line.persistedSubtotal.value == 0 && line.estimatedSubtotal > 0 && line.unitPrice > 0.0 && ActualQuantity(line) > 0.0)
  }

  function LinePrice(amount: real, unitPrice: real): int {
    Round(amount * unitPrice)
  }

  /** The final subtotal of a line, if it has one. */
  function FinalSubtotal(line: Line): Option<int> {
    if line.status == Removed then Some(0)
    else if line.status == Unready then None
    else if line.mode == PerLb then
      if !Weighed(line) || WeightsMissing(line) then None
      else Some(LinePrice(ActualWeight(line).value, line.unitPrice))
    else if line.status == Ready && ActualQuantity(line) <= 0.0 then None
    else if Reprices(line) then Some(LinePrice(ActualQuantity(line), line.unitPrice))
    else line.persistedSubtotal
  }

  function TaxOn(line: Line, subtotal: int): int {
    Round(subtotal as real * (if line.estimatedSubtotal > 0 then line.estimatedTax as real / line.estimatedSubtotal as real else 0.0))
  }

  function AbsInt(n: int): int {
    if n < 0 then -n else n
  }

  /** A change of at least fifteen dollars and a quarter of the estimate. */
  predicate LargeChange(line: Line, delta: int) {
    AbsInt(delta) >= 1500 && AbsInt(delta) * 4 >= line.estimatedTotal
  }

  /** Everything wrong with a line, in the order it is reported. */
  function LineErrors(line: Line): seq<LineError> {
    (if line.listId || line.replacementListId then [] else [MissingListId])
    + StatusErrors(line)
    + (if line.status == Removed || line.unitPrice > 0.0 then [] else [PriceMissing])
  }

  function StatusErrors(line: Line): seq<LineError> {
    match line.status
    case Removed => if line.removalReason then [] else [RemovalNeedsReason]
    case Unready => [if line.mode == PerLb && !Weighed(line) then WeightRequired else LineNotMarked]
    case _ =>
      (if line.status == Substituted && !(line.replacementVariant && line.replacementListId) then [ReplacementRequired] else [])
      + (if ActualQuantity(line) > 0.0 then [] else [QuantityRequired])
      + (if line.mode != PerLb then [] else if !Weighed(line) then [WeightRequired]
         else if WeightsMissing(line) then [UnitWeightsMissing] else [])
  }

  /*** What a line costs, told from its fields ***/

  /** The pieces fulfilled: the quantity entered, or one for each weight if none is. */
  predicate Fulfilled(line: Line, quantity: real) {
    quantity == (if line.enteredQuantity == 0.0 then |line.unitWeights| as real else line.enteredQuantity)
  }

  predicate Picked(line: Line, quantity: real) {
    if line.pickedQuantity == 0.0 then Fulfilled(line, quantity) else quantity == line.pickedQuantity
  }

  /** The line's weight: its unit weights together if it has any, else the weight entered. */
  predicate WeighsIn(line: Line, weight: real) {
    if line.unitWeights == [] then line.enteredWeight == Some(weight)
    else weight == RealSums.Sum(line.unitWeights, (w: real) => w)
  }

  ghost predicate OnTheScale(line: Line) {
    exists weight :: WeighsIn(line, weight) && 0.0 < weight
  }

  /** Some pieces were weighed, but fewer than were fulfilled or picked. */
  ghost predicate SomeUnweighed(line: Line) {
    && line.unitWeights != []
    && ((exists q :: Fulfilled(line, q) && |line.unitWeights| as real < q) || (exists q :: Picked(line, q) && |line.unitWeights| as real < q))
  }

  /** What an amount comes to at a price, before rounding. */
  function Worth(amount: real, price: real): real {
    amount * price
  }

  /** A per-pound line costs the nearest cent of its weight times its price, once all of it is weighed. */
  ghost predicate CostsByWeight(line: Line, subtotal: Option<int>) {
    && (subtotal.Some? <==> OnTheScale(line) && !SomeUnweighed(line))
    && (subtotal.Some? ==> forall weight :: WeighsIn(line, weight) ==> Nearest(subtotal.value, Worth(weight, line.unitPrice)))
  }

  /** A fixed-price line keeps its persisted amount, unless its quantity changed or the amount is nothing for a line that
      is worth something; else it costs the nearest cent of its quantity times its price. */
  predicate CostsByPiece(line: Line, quantity: real, subtotal: Option<int>) {
    if line.persistedSubtotal.Some? && quantity == line.orderedQuantity
       && (line.persistedSubtotal.value != 0 || line.estimatedSubtotal <= 0 || line.unitPrice <= 0.0 || quantity <= 0.0)
    then subtotal == line.persistedSubtotal
    else subtotal.Some? && Nearest(subtotal.value, Worth(quantity, line.unitPrice))
  }

  /** A removed line costs nothing, an unready one has no amount, and neither does a fixed-price line marked ready with
      nothing fulfilled. */
  ghost predicate Costs(line: Line, subtotal: Option<int>) {
    match line.status
    case Removed => subtotal == Some(0)
    case Unready => subtotal == None
    case _ =>
      if line.mode == PerLb then CostsByWeight(line, subtotal)
      else forall q :: Fulfilled(line, q) ==>
             if line.status == Ready && q <= 0.0 then subtotal == None else CostsByPiece(line, q, subtotal)
  }

  /** The line's tax is the nearest cent, halves up, of its subtotal at the estimated rate. */
  predicate Taxed(line: Line, subtotal: int, tax: int) {
    if line.estimatedSubtotal <= 0 then tax == 0
    else (2 * tax - 1) * line.estimatedSubtotal <= 2 * subtotal * line.estimatedTax < (2 * tax + 1) * line.estimatedSubtotal
  }

  /** The change is fifteen dollars or more either way, and a quarter of the estimate or more. */
  predicate Large(estimatedTotal: int, delta: int) {
    (1500 <= delta && estimatedTotal <= 4 * delta) || (1500 <= -delta && estimatedTotal <= -4 * delta)
  }

  /** What is wrong with a line. */
  ghost predicate Faulty(line: Line, e: LineError) {
    match e
    case MissingListId => !line.listId && !line.replacementListId
    case RemovalNeedsReason => line.status == Removed && !line.removalReason
    case LineNotMarked => line.status == Unready && (line.mode == FixedPrice || OnTheScale(line))
    case ReplacementRequired => line.status == Substituted && (!line.replacementVariant || !line.replacementListId)
    case QuantityRequired =>
      (line.status == Ready || line.status == Substituted) && exists q :: Fulfilled(line, q) && q <= 0.0
    case WeightRequired => line.status != Removed && line.mode == PerLb && !OnTheScale(line)
    case UnitWeightsMissing =>
      (line.status == Ready || line.status == Substituted) && line.mode == PerLb && OnTheScale(line) && SomeUnweighed(line)
    case PriceMissing => line.status != Removed && line.unitPrice <= 0.0
  }

  /** The order in which faults are reported. */
  function Place(e: LineError): nat {
    match e
    case MissingListId => 0
    case RemovalNeedsReason => 1
    case LineNotMarked => 2
    case ReplacementRequired => 3
    case QuantityRequired => 4
    case WeightRequired => 5
    case UnitWeightsMissing => 6
    case PriceMissing => 7
  }

  ghost predicate Rising(errors: seq<LineError>) {
    forall i, j :: 0 <= i < j < |errors| ==> Place(errors[i]) < Place(errors[j])
  }

  /** The errors are the line's faults, each once and in order. */
  ghost predicate Reports(line: Line, errors: seq<LineError>) {
    && (forall e :: e in errors <==> Faulty(line, e))
    && Rising(errors)
  }

  lemma ScaleIff(line: Line)
    ensures Weighed(line) <==> OnTheScale(line)
    ensures forall weight :: WeighsIn(line, weight) <==> ActualWeight(line) == Some(weight)
  {
    if Weighed(line) {
      assert WeighsIn(line, ActualWeight(line).value);
    }
  }

  lemma MoreThan(x: real, n: int)
    ensures Ceiling(x) > n <==> x > n as real
  {
  }

  lemma UnweighedIff(line: Line)
    ensures line.mode == PerLb ==> (WeightsMissing(line) <==> SomeUnweighed(line))
  {
    assert Fulfilled(line, ActualQuantity(line)) && Picked(line, PickedQuantity(line));
    MoreThan(MaxReal(ActualQuantity(line), PickedQuantity(line)), |line.unitWeights|);
  }

  lemma ByWeightIff(line: Line, subtotal: Option<int>)
    requires line.mode == PerLb
    ensures subtotal == (if !Weighed(line) || WeightsMissing(line) then None
                         else Some(LinePrice(ActualWeight(line).value, line.unitPrice))) <==>
            CostsByWeight(line, subtotal)
  {
    ScaleIff(line);
    UnweighedIff(line);
    if subtotal.Some? && Weighed(line) {
      NearestIff(subtotal.value, Worth(ActualWeight(line).value, line.unitPrice));
      assert WeighsIn(line, ActualWeight(line).value);
    }
  }

  lemma ByPieceIff(line: Line, subtotal: Option<int>)
    ensures subtotal == (if Reprices(line) then Some(LinePrice(ActualQuantity(line), line.unitPrice)) else line.persistedSubtotal)
            <==> CostsByPiece(line, ActualQuantity(line), subtotal)
  {
    if subtotal.Some? {
      NearestIff(subtotal.value, Worth(ActualQuantity(line), line.unitPrice));
    }
  }

  /** The amount computed for a line is the one amount it costs. */
  lemma CostsIff(line: Line, subtotal: Option<int>)
    ensures FinalSubtotal(line) == subtotal <==> Costs(line, subtotal)
  {
    if line.mode == PerLb {
      ByWeightIff(line, subtotal);
    } else {
      ByPieceIff(line, subtotal);
      assert Fulfilled(line, ActualQuantity(line));
    }
  }

  lemma AtRate(subtotal: real, estimatedTax: real, estimatedSubtotal: real, x: real)
    requires 0.0 < estimatedSubtotal && x == subtotal * (estimatedTax / estimatedSubtotal)
    ensures x * estimatedSubtotal == subtotal * estimatedTax
  {
    var rate := estimatedTax / estimatedSubtotal;
    assert rate * estimatedSubtotal == estimatedTax;
    assert (subtotal * rate) * estimatedSubtotal == subtotal * (rate * estimatedSubtotal);
  }

  lemma Between(a: real, x: real, b: real, k: real)
    requires 0.0 < k
    ensures a <= x < b <==> a * k <= x * k < b * k
  {
    Cleared(a, x, k);
    Cleared(b, x, k);
  }

  lemma Cleared(a: real, b: real, k: real)
    requires 0.0 < k
    ensures a <= b <==> a * k <= b * k
  {
  }

  lemma NearestTimes(tax: int, x: real, k: real, product: real)
    requires 0.0 < k && x * k == product
    ensures Nearest(tax, x) <==> (2.0 * tax as real - 1.0) * k <= 2.0 * product < (2.0 * tax as real + 1.0) * k
  {
    var least, most, twice := 2.0 * tax as real - 1.0, 2.0 * tax as real + 1.0, 2.0 * x;
    Between(least, twice, most, k);
    assert twice * k == 2.0 * product;
  }

  lemma TaxedIff(line: Line, subtotal: int, tax: int)
    ensures tax == TaxOn(line, subtotal) <==> Taxed(line, subtotal, tax)
  {
    if line.estimatedSubtotal > 0 {
      var x := subtotal as real * (line.estimatedTax as real / line.estimatedSubtotal as real);
      AtRate(subtotal as real, line.estimatedTax as real, line.estimatedSubtotal as real, x);
      NearestTimes(tax, x, line.estimatedSubtotal as real, subtotal as real * line.estimatedTax as real);
      NearestIff(tax, x);
      WholeProducts(line, subtotal, tax);
    } else {
      NearestIff(tax, subtotal as real * 0.0);
    }
  }

  lemma WholeProducts(line: Line, subtotal: int, tax: int)
    ensures (2.0 * tax as real - 1.0) * line.estimatedSubtotal as real == ((2 * tax - 1) * line.estimatedSubtotal) as real
    ensures (2.0 * tax as real + 1.0) * line.estimatedSubtotal as real == ((2 * tax + 1) * line.estimatedSubtotal) as real
    ensures 2.0 * (subtotal as real * line.estimatedTax as real) == (2 * subtotal * line.estimatedTax) as real
  {
  }

  lemma StatusReports(line: Line, e: LineError)
    requires e != MissingListId && e != PriceMissing
    ensures e in StatusErrors(line) <==> Faulty(line, e)
  {
    ScaleIff(line);
    UnweighedIff(line);
    assert Fulfilled(line, ActualQuantity(line));
  }

  lemma ReportsEach(line: Line, e: LineError)
    ensures e in LineErrors(line) <==> Faulty(line, e)
  {
    assert e in LineErrors(line) <==>
           || (e == MissingListId && Faulty(line, e)) || e in StatusErrors(line) || (e == PriceMissing && Faulty(line, e));
    if e != MissingListId && e != PriceMissing {
      StatusReports(line, e);
    }
  }

  lemma StatusInPlace(line: Line)
    ensures Rising(StatusErrors(line))
    ensures forall i :: 0 <= i < |StatusErrors(line)| ==> 0 < Place(StatusErrors(line)[i]) < 7
  {
  }

  lemma RisingJoins(a: seq<LineError>, b: seq<LineError>)
    requires Rising(a) && Rising(b) && forall i, j :: 0 <= i < |a| && 0 <= j < |b| ==> Place(a[i]) < Place(b[j])
    ensures Rising(a + b)
  {
  }

  lemma InPlace(line: Line)
    ensures Rising(LineErrors(line))
  {
    StatusInPlace(line);
    var first := if line.listId || line.replacementListId then [] else [MissingListId];
    var last := if line.status == Removed || line.unitPrice > 0.0 then [] else [PriceMissing];
    RisingJoins(first, StatusErrors(line));
    RisingJoins(first + StatusErrors(line), last);
  }

  lemma ReportsFaults(line: Line)
    ensures Reports(line, LineErrors(line))
  {
    forall e ensures e in LineErrors(line) <==> Faulty(line, e) {
      ReportsEach(line, e);
    }
    InPlace(line);
  }

  /** The branches of `calculateLine` on a line's status. */
  method SettleStatus(line: Line) returns (subtotal: Option<int>, errors: seq<LineError>)
    ensures subtotal == FinalSubtotal(line) && errors == StatusErrors(line)
  {
    var quantity, weight := ActualQuantity(line), ActualWeight(line);
    subtotal := if line.mode == PerLb then None else line.persistedSubtotal;
    errors := [];
    if line.status == Removed {
      subtotal := Some(0);
      if !line.removalReason { errors := [RemovalNeedsReason]; }
      return;
    }
    if line.status == Unready {
      return None, [if line.mode == PerLb && !Weighed(line) then WeightRequired else LineNotMarked];
    }
    if line.status == Substituted && (!line.replacementVariant || !line.replacementListId) {
      errors := errors + [ReplacementRequired];
    }
    if quantity <= 0.0 {
      errors := errors + [QuantityRequired];
    }
    if line.mode == PerLb {
      if !Weighed(line) {
        errors := errors + [WeightRequired];
      } else if WeightsMissing(line) {
        errors := errors + [UnitWeightsMissing];
      } else {
        subtotal := Some(LinePrice(weight.value, line.unitPrice));
      }
    } else if line.status == Ready && quantity <= 0.0 {
      subtotal := None;
    } else if Reprices(line) {
      subtotal := Some(LinePrice(quantity, line.unitPrice));
    }
  }

  /** `calculateLine`. */
  method CalculateLine(line: Line) returns (r: LineResult)
    ensures r.subtotal == FinalSubtotal(line) && Costs(line, r.subtotal)
    ensures r.errors == LineErrors(line) && Reports(line, r.errors)
    ensures r.subtotal.Some? && r.tax.Some? ==> Taxed(line, r.subtotal.value, r.tax.value)
    ensures r.largeChange <==> r.delta.Some? && Large(line.estimatedTotal, r.delta.value)
    ensures r.subtotal.Some? ==>
              && r.tax == Some(TaxOn(line, r.subtotal.value)) && r.total == Some(r.subtotal.value + r.tax.value)
              && r.delta == Some(r.total.value - line.estimatedTotal)
    ensures r.subtotal.None? ==> r.tax.None? && r.total.None? && r.delta.None? && !r.largeChange && r.errors != []
    ensures r.errors == [] <==> FinalSubtotal(line).Some? && ErrorFree(line)
  {
    var errors: seq<LineError> := [];
    if !line.listId && !line.replacementListId {
      errors := errors + [MissingListId];
    }
    var subtotal, more := SettleStatus(line);
    errors := errors + more;
    if line.status != Removed && line.unitPrice <= 0.0 {
      errors := errors + [PriceMissing];
    }
    ErrorsIff(line);
    ReportsFaults(line);
    CostsIff(line, subtotal);
    if subtotal.None? { return LineResult(None, None, None, None, errors, false); }
    var tax := TaxOn(line, subtotal.value);
    var total := subtotal.value + tax;
    var delta := total - line.estimatedTotal;
    TaxedIff(line, subtotal.value, tax);
    return LineResult(subtotal, Some(tax), Some(total), Some(delta), errors, LargeChange(line, delta));
  }

  /** A line is free of errors exactly when it has an amount and everything else it needs. */
  lemma ErrorsIff(line: Line)
    ensures LineErrors(line) == [] <==> FinalSubtotal(line).Some? && ErrorFree(line)
  {
  }

  /** What a line needs besides an amount. */
  predicate ErrorFree(line: Line) {
    && (line.listId || line.replacementListId)
    && (line.status == Removed ==> line.removalReason)
    && (line.status == Substituted ==> line.replacementVariant && line.replacementListId)
    && (line.status != Removed ==> line.unitPrice > 0.0 && ActualQuantity(line) > 0.0)
  }

  /*** Order totals ***/

  /** The order as estimated at placement. */
  datatype Estimate = Estimate(itemTotal: int, taxTotal: int, orderTotal: int)

  datatype Totals = Totals(items: int, shipping: int, tax: int, discount: int, order: int, delta: int)

  function SubtotalOf(): Line -> int {
    (line: Line) => if FinalSubtotal(line).Some? then FinalSubtotal(line).value else 0
  }

  function TaxOf(): Line -> int {
    (line: Line) => if FinalSubtotal(line).Some? then TaxOn(line, FinalSubtotal(line).value) else 0
  }

  function EstimatedSubtotalOf(): Line -> int {
    (line: Line) => line.estimatedSubtotal
  }

  function EstimatedTaxOf(): Line -> int {
    (line: Line) => line.estimatedTax
  }

  /** Shipping and discount: from the accepted price if there is one, else from what the estimate leaves over. */
  function ShippingAndDiscount(e: Estimate, accepted: Option<Accepted>): (int, int) {
    match accepted
    case Some(a) => (a.customerShipping - a.shippingTax, a.nonShippingCredit)
    case None =>
      var left := e.orderTotal - e.itemTotal - e.taxTotal;
      (Max(0, left), Max(0, -left))
  }

  function TotalsOf(lines: seq<Line>, e: Estimate, accepted: Option<Accepted>): Totals {
    var items := Sum(lines, SubtotalOf());
    var tax := Sum(lines, TaxOf()) + Max(0, e.taxTotal - Sum(lines, EstimatedTaxOf()));
    var (shipping, discount) := ShippingAndDiscount(e, accepted);
    var order := items + shipping + tax - discount;
    Totals(items, shipping, tax, discount, order, order - e.orderTotal)
  }

  predicate Complete(lines: seq<Line>) {
    forall i :: 0 <= i < |lines| ==> FinalSubtotal(lines[i]).Some? && ErrorFree(lines[i])
  }

  predicate Amounted(lines: seq<Line>) {
    forall i :: 0 <= i < |lines| ==> FinalSubtotal(lines[i]).Some?
  }

  function Amount(): int -> int {
    (n: int) => n
  }

  /** The amounts of the lines, one each. */
  ghost predicate LineAmounts(lines: seq<Line>, subtotals: seq<int>, taxes: seq<int>) {
    && |subtotals| == |lines| && |taxes| == |lines|
    && forall i :: 0 <= i < |lines| ==> Costs(lines[i], Some(subtotals[i])) && Taxed(lines[i], subtotals[i], taxes[i])
  }

  /** Shipping and discount: what an accepted price says, or what the estimate leaves beside items and tax, shipping if it
      is positive and discount if not. */
  predicate ShippedAt(e: Estimate, accepted: Option<Accepted>, t: Totals) {
    if accepted.Some? then
      t.shipping == accepted.value.customerShipping - accepted.value.shippingTax && t.discount == accepted.value.nonShippingCredit
    else
      && t.shipping - t.discount == e.orderTotal - e.itemTotal - e.taxTotal
      && 0 <= t.shipping && 0 <= t.discount && (t.shipping == 0 || t.discount == 0)
  }

  /** The totals are those of the lines' amounts: items, their tax with what the estimate taxed beside the lines, and all
      of it together. */
  ghost predicate AddsUp(lines: seq<Line>, e: Estimate, accepted: Option<Accepted>, t: Totals, subtotals: seq<int>, taxes: seq<int>) {
    var elsewhere := e.taxTotal - Sum(lines, (line: Line) => line.estimatedTax);
    && LineAmounts(lines, subtotals, taxes) && t.items == Sum(subtotals, Amount())
    && t.tax == Sum(taxes, Amount()) + (if 0 < elsewhere then elsewhere else 0) && ShippedAt(e, accepted, t)
    && t.order == t.items + t.shipping + t.tax - t.discount && t.delta == t.order - e.orderTotal
  }

  lemma {:induction false} AmountsOf(lines: seq<Line>) returns (subtotals: seq<int>, taxes: seq<int>)
    requires Amounted(lines)
    ensures LineAmounts(lines, subtotals, taxes)
    ensures Sum(subtotals, Amount()) == Sum(lines, SubtotalOf()) && Sum(taxes, Amount()) == Sum(lines, TaxOf())
  {
    if lines == [] {
      subtotals, taxes := [], [];
    } else {
      assert forall i :: 0 <= i < |lines| - 1 ==> lines[1..][i] == lines[i + 1];
      subtotals, taxes := AmountsOf(lines[1..]);
      var subtotal := FinalSubtotal(lines[0]).value;
      CostsIff(lines[0], Some(subtotal));
      TaxedIff(lines[0], subtotal, TaxOn(lines[0], subtotal));
      AmountsFront(lines, subtotal, TaxOn(lines[0], subtotal), subtotals, taxes);
      subtotals, taxes := [subtotal] + subtotals, [TaxOn(lines[0], subtotal)] + taxes;
    }
  }

  lemma AmountsFront(lines: seq<Line>, subtotal: int, tax: int, subtotals: seq<int>, taxes: seq<int>)
    requires lines != [] && LineAmounts(lines[1..], subtotals, taxes)
    requires Costs(lines[0], Some(subtotal)) && Taxed(lines[0], subtotal, tax)
    ensures LineAmounts(lines, [subtotal] + subtotals, [tax] + taxes)
    ensures Sum([subtotal] + subtotals, Amount()) == subtotal + Sum(subtotals, Amount())
    ensures Sum([tax] + taxes, Amount()) == tax + Sum(taxes, Amount())
  {
    assert ([subtotal] + subtotals)[1..] == subtotals && ([tax] + taxes)[1..] == taxes;
  }

  lemma TotalsAddUp(lines: seq<Line>, e: Estimate, accepted: Option<Accepted>) returns (subtotals: seq<int>, taxes: seq<int>)
    requires Amounted(lines)
    ensures AddsUp(lines, e, accepted, TotalsOf(lines, e, accepted), subtotals, taxes)
  {
    subtotals, taxes := AmountsOf(lines);
    SumsAgree(lines, EstimatedTaxOf(), (line: Line) => line.estimatedTax);
  }

  ghost predicate HasAmount(line: Line) {
    exists n :: Costs(line, Some(n))
  }

  ghost predicate Faultless(line: Line) {
    forall e :: !Faulty(line, e)
  }

  /** Every line has an amount, and, when packing problems are shown, nothing is wrong with any. */
  ghost predicate MayTotal(lines: seq<Line>, shown: bool, packageErrors: bool) {
    && (forall i :: 0 <= i < |lines| ==> HasAmount(lines[i]))
    && (shown ==> !packageErrors && forall i :: 0 <= i < |lines| ==> Faultless(lines[i]))
  }

  lemma AmountedIff(line: Line)
    ensures FinalSubtotal(line).Some? <==> HasAmount(line)
  {
    if FinalSubtotal(line).Some? {
      CostsIff(line, FinalSubtotal(line));
      assert Costs(line, Some(FinalSubtotal(line).value));
    }
    if n :| Costs(line, Some(n)) {
      CostsIff(line, Some(n));
    }
  }

  lemma FaultlessIff(line: Line)
    ensures FinalSubtotal(line).Some? && ErrorFree(line) <==> Faultless(line)
  {
    ErrorsIff(line);
    ReportsFaults(line);
    if LineErrors(line) != [] {
      assert LineErrors(line)[0] in LineErrors(line);
    }
  }

  lemma MayTotalIff(lines: seq<Line>, shown: bool, packageErrors: bool)
    ensures MayTotal(lines, shown, packageErrors) <==> Amounted(lines) && (shown ==> Complete(lines) && !packageErrors)
  {
    forall i | 0 <= i < |lines|
      ensures FinalSubtotal(lines[i]).Some? <==> HasAmount(lines[i])
      ensures FinalSubtotal(lines[i]).Some? && ErrorFree(lines[i]) <==> Faultless(lines[i])
    {
      AmountedIff(lines[i]);
      FaultlessIff(lines[i]);
    }
  }

  /** What the lines read so far come to. */
  datatype Tally = Tally(complete: bool, amounted: bool, items: int, lineTax: int, estimatedTax: int)

  ghost predicate Tallied(lines: seq<Line>, t: Tally) {
    && t.complete == Complete(lines) && t.amounted == Amounted(lines)
    && t.items == Sum(lines, SubtotalOf()) && t.lineTax == Sum(lines, TaxOf())
    && t.estimatedTax == Sum(lines, EstimatedTaxOf())
  }

  method TallyLine(lines: seq<Line>, i: nat, t: Tally) returns (r: Tally)
    requires i < |lines| && Tallied(lines[..i], t)
    ensures Tallied(lines[..i + 1], r)
  {
    var line := CalculateLine(lines[i]);
    CompleteSnoc(lines, i);
    SumsSnoc(lines, i);
    r := Tally(t.complete && line.errors == [], t.amounted && line.subtotal.Some?,
               t.items + (if line.subtotal.Some? then line.subtotal.value else 0),
               t.lineTax + (if line.tax.Some? then line.tax.value else 0),
               t.estimatedTax + lines[i].estimatedTax);
  }

  method TallyLines(lines: seq<Line>) returns (t: Tally)
    ensures Tallied(lines, t)
  {
    t := Tally(true, true, 0, 0, 0);
    for i := 0 to |lines|
      invariant Tallied(lines[..i], t)
    {
      t := TallyLine(lines, i, t);
    }
    assert lines[..|lines|] == lines;
  }

  /** `previewFinalization`'s totals: none while a line has no amount; nor, when packing problems are shown, while
      there are any. */
  method PreviewTotals(lines: seq<Line>, e: Estimate, accepted: Option<Accepted>, shown: bool, packageErrors: bool)
    returns (totals: Option<Totals>)
    ensures totals.Some? <==> MayTotal(lines, shown, packageErrors)
    ensures totals.Some? ==> totals.value == TotalsOf(lines, e, accepted)
    ensures totals.Some? ==> exists subtotals, taxes :: AddsUp(lines, e, accepted, totals.value, subtotals, taxes)
  {
    MayTotalIff(lines, shown, packageErrors);
    var t := TallyLines(lines);
    var errors := shown && (!t.complete || packageErrors);
    if errors || !t.amounted { return None; }
    var tax := t.lineTax + Max(0, e.taxTotal - t.estimatedTax);
    var (shipping, discount) := ShippingAndDiscount(e, accepted);
    var order := t.items + shipping + tax - discount;
    ghost var subtotals, taxes := TotalsAddUp(lines, e, accepted);
    return Some(Totals(t.items, shipping, tax, discount, order, order - e.orderTotal));
  }

  lemma SumsSnoc(lines: seq<Line>, i: nat)
    requires i < |lines|
    ensures Sum(lines[..i + 1], SubtotalOf()) == Sum(lines[..i], SubtotalOf()) + SubtotalOf()(lines[i])
    ensures Sum(lines[..i + 1], TaxOf()) == Sum(lines[..i], TaxOf()) + TaxOf()(lines[i])
    ensures Sum(lines[..i + 1], EstimatedTaxOf()) == Sum(lines[..i], EstimatedTaxOf()) + lines[i].estimatedTax
  {
    assert lines[..i + 1] == lines[..i] + [lines[i]];
    SumSnoc(lines[..i], lines[i], SubtotalOf());
    SumSnoc(lines[..i], lines[i], TaxOf());
    SumSnoc(lines[..i], lines[i], EstimatedTaxOf());
  }

  lemma CompleteSnoc(lines: seq<Line>, i: nat)
    requires i < |lines|
    ensures Complete(lines[..i + 1]) <==> Complete(lines[..i]) && FinalSubtotal(lines[i]).Some? && ErrorFree(lines[i])
    ensures Amounted(lines[..i + 1]) <==> Amounted(lines[..i]) && FinalSubtotal(lines[i]).Some?
  {
    var longer := lines[..i + 1];
    if Complete(lines[..i]) && FinalSubtotal(lines[i]).Some? && ErrorFree(lines[i]) {
      forall k | 0 <= k < |longer| ensures FinalSubtotal(longer[k]).Some? && ErrorFree(longer[k]) {
        assert k < i ==> longer[k] == lines[..i][k];
      }
    }
    if Complete(longer) {
      forall k | 0 <= k < i ensures FinalSubtotal(lines[..i][k]).Some? && ErrorFree(lines[..i][k]) {
        assert longer[k] == lines[..i][k];
      }
      assert longer[i] == lines[i];
    }
    if Amounted(longer) {
      forall k | 0 <= k < i ensures FinalSubtotal(lines[..i][k]).Some? {
        assert longer[k] == lines[..i][k];
      }
      assert longer[i] == lines[i];
    }
  }

  /*** Laws ***/

  function SubtotalChange(): Line -> int {
    (line: Line) => SubtotalOf()(line) - line.estimatedSubtotal
  }

  function TaxChange(): Line -> int {
    (line: Line) => TaxOf()(line) - line.estimatedTax
  }

  lemma {:induction false} ChangesAddUp(lines: seq<Line>)
    ensures Sum(lines, SubtotalChange()) == Sum(lines, SubtotalOf()) - Sum(lines, EstimatedSubtotalOf())
    ensures Sum(lines, TaxChange()) == Sum(lines, TaxOf()) - Sum(lines, EstimatedTaxOf())
  {
    if lines != [] {
      ChangesAddUp(lines[1..]);
    }
  }

  /** Without an accepted price, the order changes by exactly what its lines change in subtotal and tax, if and only if
      the lines' estimates account for the order's items and do not exceed its tax (apart from offsetting errors). */
  lemma DeltaIsLineChanges(lines: seq<Line>, e: Estimate)
    ensures TotalsOf(lines, e, None).delta == Sum(lines, SubtotalChange()) + Sum(lines, TaxChange()) <==>
            Sum(lines, EstimatedSubtotalOf()) - e.itemTotal + Max(0, Sum(lines, EstimatedTaxOf()) - e.taxTotal) == 0
  {
    ChangesAddUp(lines);
  }

  /** With an accepted price, the final totals are those of the plain path exactly when the order keeps what the
      cart had beside its items and tax when the price was frozen. */
  lemma AcceptedPathAgrees(lines: seq<Line>, e: Estimate, cartId: string, t: CartTotals, methodAmount: int, quote: Quote)
    requires Accept(cartId, t, methodAmount, quote).Ok?
    ensures var a := Accept(cartId, t, methodAmount, quote).value;
            && (TotalsOf(lines, e, Some(a)).order == TotalsOf(lines, e, None).order <==>
                t.total - t.itemSubtotal - t.taxTotal == e.orderTotal - e.itemTotal - e.taxTotal)
            && TotalsOf(lines, e, Some(a)).items == TotalsOf(lines, e, None).items
            && TotalsOf(lines, e, Some(a)).tax == TotalsOf(lines, e, None).tax
  {
    AcceptedLedger(cartId, t, methodAmount, quote);
  }

  /** In particular, an order that keeps its cart's totals changes by its lines' changes on either path. */
  lemma FrozenOrderDelta(lines: seq<Line>, cartId: string, t: CartTotals, methodAmount: int, quote: Quote, accepted: Option<Accepted>)
    requires Accept(cartId, t, methodAmount, quote).Ok?
    requires accepted.Some? ==> accepted.value == Accept(cartId, t, methodAmount, quote).value
    requires Sum(lines, EstimatedSubtotalOf()) == t.itemSubtotal && Sum(lines, EstimatedTaxOf()) <= t.taxTotal
    ensures TotalsOf(lines, Estimate(t.itemSubtotal, t.taxTotal, t.total), accepted).delta ==
            Sum(lines, SubtotalChange()) + Sum(lines, TaxChange())
  {
    var e := Estimate(t.itemSubtotal, t.taxTotal, t.total);
    DeltaIsLineChanges(lines, e);
    AcceptedPathAgrees(lines, e, cartId, t, methodAmount, quote);
  }

  lemma RoundedWhole(n: int, x: real)
    requires x == n as real
    ensures Round(x) == n
  {
  }

  /** A line finished as estimated is taxed as estimated: no drift from recomputing tax at the estimated rate. */
  lemma UnchangedLineKeepsTax(line: Line)
    requires FinalSubtotal(line) == Some(line.estimatedSubtotal) && line.estimatedSubtotal > 0
    ensures TaxOn(line, line.estimatedSubtotal) == line.estimatedTax
  {
    var s, t := line.estimatedSubtotal as real, line.estimatedTax as real;
    assert s * (t / s) == t;
    RoundedWhole(line.estimatedTax, s * (t / s));
  }

  /** The line is finished as it was estimated. */
  predicate AsEstimated(line: Line) {
    FinalSubtotal(line) == Some(line.estimatedSubtotal) && (line.estimatedSubtotal > 0 || line.estimatedTax == 0)
  }

  lemma {:induction false} NothingChanges(lines: seq<Line>)
    requires forall line :: line in lines ==> AsEstimated(line)
    ensures Sum(lines, SubtotalChange()) == 0 && Sum(lines, TaxChange()) == 0
  {
    if lines != [] {
      NothingChanges(lines[1..]);
      LineUnchanged(lines[0]);
    }
  }

  lemma LineUnchanged(line: Line)
    requires AsEstimated(line)
    ensures SubtotalChange()(line) == 0 && TaxChange()(line) == 0
  {
    assert FinalSubtotal(line) == Some(line.estimatedSubtotal);
    assert SubtotalOf()(line) == line.estimatedSubtotal;
    assert TaxOf()(line) == TaxOn(line, line.estimatedSubtotal);
    if line.estimatedSubtotal > 0 {
      UnchangedLineKeepsTax(line);
    } else {
      NoEstimateNoTax(line);
    }
  }

  lemma NoEstimateNoTax(line: Line)
    requires line.estimatedSubtotal <= 0
    ensures TaxOn(line, line.estimatedSubtotal) == 0
  {
    RoundedWhole(0, line.estimatedSubtotal as real * 0.0);
  }

  /** An order finished line by line as it was estimated costs what its cart did, on either path. */
  lemma AsEstimatedCostsTheSame(lines: seq<Line>, cartId: string, t: CartTotals, methodAmount: int, quote: Quote,
                                accepted: Option<Accepted>)
    requires Accept(cartId, t, methodAmount, quote).Ok?
    requires accepted.Some? ==> accepted.value == Accept(cartId, t, methodAmount, quote).value
    requires Sum(lines, EstimatedSubtotalOf()) == t.itemSubtotal && Sum(lines, EstimatedTaxOf()) <= t.taxTotal
    requires forall line :: line in lines ==> AsEstimated(line)
    ensures TotalsOf(lines, Estimate(t.itemSubtotal, t.taxTotal, t.total), accepted).order == t.total
  {
    FrozenOrderDelta(lines, cartId, t, methodAmount, quote, accepted);
    NothingChanges(lines);
  }
}
