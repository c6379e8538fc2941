/** What every packing plan guarantees: nothing lost, nothing overfilled, few boxes, and the cheapest choice. */
module PackingLaws {
  import opened Base
  import opened Clock
  import opened Sorting
  import opened Permutations
  import opened RealSums
  import opened PackingPolicy
  import opened PackingPolicyLaws
  import opened Packing

  /*** The measures of units ***/

  lemma {:induction false} SumRepeats(unit: PackUnit, n: nat, f: PackUnit -> real)
    ensures Sum(Repeated(unit, n), f) == n as real * f(unit)
  {
    if n > 0 {
      SumRepeats(unit, n - 1, f);
      assert Repeated(unit, n)[1..] == Repeated(unit, n - 1);
      assert n as real * f(unit) == (n - 1) as real * f(unit) + f(unit);
    }
  }

  /** The units of an order carry what its lines say, for any additive measure of a unit. */
  lemma {:induction false} UnitsSum(lines: seq<Line>, f: PackUnit -> real)
    ensures Sum(Units(lines), f) == Sum(lines, (line: Line) => line.quantity as real * f(UnitOf(line)))
  {
    if lines != [] {
      UnitsSum(lines[1..], f);
      SumAppends(Repeated(UnitOf(lines[0]), lines[0].quantity), Units(lines[1..]), f);
      SumRepeats(UnitOf(lines[0]), lines[0].quantity, f);
    }
  }

  /*** Measures ***/

  function WeightOf(unit: PackUnit): real { unit.weight }

  function FitOf(unit: PackUnit): real { unit.fit }

  function IsVariant(v: string): PackUnit -> real {
    (unit: PackUnit) => if unit.variantId == v then 1.0 else 0.0
  }

  function QuantityIn(contents: seq<Content>, v: string): nat {
    if contents == [] then 0
    else (if contents[0].variantId == v then contents[0].quantity else 0) + QuantityIn(contents[1..], v)
  }

  function Packaged(v: string): Package -> real {
    (p: Package) => QuantityIn(p.contents, v) as real
  }

  function PackageWeight(p: Package): real { p.weight }

  function PackageFit(p: Package): real { p.fit }

  lemma {:induction false} CountLaw(contents: seq<Content>, added: string, v: string)
    ensures QuantityIn(Count(contents, added), v) == QuantityIn(contents, v) + (if added == v then 1 else 0)
  {
    if contents != [] && contents[0].variantId != added {
      CountLaw(contents[1..], added, v);
    }
  }

  /*** First fit ***/

  function FirstWithRoom(room: Room, ps: seq<Package>, unit: PackUnit, i: nat): (k: nat)
    requires i <= |ps| && forall j :: 0 <= j < i ==> !Fits(room, ps[j], unit)
    ensures k <= |ps| && (k < |ps| ==> Fits(room, ps[k], unit)) && forall j :: 0 <= j < k ==> !Fits(room, ps[j], unit)
    decreases |ps| - i
  {
    if i == |ps| || Fits(room, ps[i], unit) then i else FirstWithRoom(room, ps, unit, i + 1)
  }

  /** Exactly what placing a unit does: it joins the first package it fits, or opens a new one when it fits none. */
  lemma FirstFit(room: Room, ps: seq<Package>, unit: PackUnit) returns (k: nat)
    ensures k <= |ps| && forall j :: 0 <= j < k ==> !Fits(room, ps[j], unit)
    ensures k < |ps| ==> Fits(room, ps[k], unit) && Place(room, ps, unit) == ps[k := Add(ps[k], unit)]
    ensures k == |ps| ==> Place(room, ps, unit) == ps + [Add(EMPTY, unit)]
  {
    k := FirstWithRoom(room, ps, unit, 0);
    PlaceAt(room, ps, k, unit);
  }

  predicate UnitOk(unit: PackUnit) {
    unit.weight > 0.0 && unit.fit > 0.0
  }

  predicate Filled(room: Room, p: Package) {
    0.0 < p.weight <= room.weight + TOLERANCE && 0.0 < p.fit <= room.fit + TOLERANCE
  }

  /** Two packages together would overfill one, in weight or in fit. */
  predicate Unmergeable(room: Room, a: Package, b: Package) {
    a.weight + b.weight > room.weight + TOLERANCE || a.fit + b.fit > room.fit + TOLERANCE
  }

  ghost predicate Sound(room: Room, ps: seq<Package>) {
    && (forall i :: 0 <= i < |ps| ==> Filled(room, ps[i]))
    && (forall i, j :: 0 <= i < j < |ps| ==> Unmergeable(room, ps[i], ps[j]))
  }

  lemma PlaceKeepsSound(room: Room, ps: seq<Package>, unit: PackUnit)
    requires Sound(room, ps) && UnitOk(unit) && Holds(room, unit)
    ensures Sound(room, Place(room, ps, unit))
  {
    var k := FirstFit(room, ps, unit);
    var r := Place(room, ps, unit);
    forall i, j | 0 <= i < j < |r| ensures Unmergeable(room, r[i], r[j]) {
      if j < |ps| {
        assert Unmergeable(room, ps[i], ps[j]);
      }
    }
  }

  /** Placing a unit adds it once, by any measure that adding to a package adds up. */
  lemma PlaceAdds(room: Room, ps: seq<Package>, unit: PackUnit, f: Package -> real, g: PackUnit -> real)
    requires f(EMPTY) == 0.0 && forall p :: f(Add(p, unit)) == f(p) + g(unit)
    ensures Sum(Place(room, ps, unit), f) == Sum(ps, f) + g(unit)
  {
    var k := FirstFit(room, ps, unit);
    if k == |ps| {
      SumAppends(ps, [Add(EMPTY, unit)], f);
    } else {
      SumUpdated(ps, k, Add(ps[k], unit), f);
    }
  }

  lemma {:induction false} PackKeepsSound(room: Room, ps: seq<Package>, units: seq<PackUnit>)
    requires Sound(room, ps) && PackAll(room, ps, units).Some? && forall u :: u in units ==> UnitOk(u)
    ensures Sound(room, PackAll(room, ps, units).value)
    decreases |units|
  {
    if units != [] {
      PlaceKeepsSound(room, ps, units[0]);
      PackKeepsSound(room, Place(room, ps, units[0]), units[1..]);
    }
  }

  lemma {:induction false} PackConserves(room: Room, ps: seq<Package>, units: seq<PackUnit>, f: Package -> real, g: PackUnit -> real)
    requires PackAll(room, ps, units).Some?
    requires f(EMPTY) == 0.0 && forall p, u :: f(Add(p, u)) == f(p) + g(u)
    ensures Sum(PackAll(room, ps, units).value, f) == Sum(ps, f) + Sum(units, g)
    decreases |units|
  {
    if units != [] {
      PlaceAdds(room, ps, units[0], f, g);
      PackConserves(room, Place(room, ps, units[0]), units[1..], f, g);
    }
  }

  lemma {:induction false} PackSucceeds(room: Room, ps: seq<Package>, units: seq<PackUnit>)
    ensures PackAll(room, ps, units).Some? <==> forall u :: u in units ==> Holds(room, u)
    decreases |units|
  {
    if units != [] {
      PackSucceeds(room, Place(room, ps, units[0]), units[1..]);
      assert units == [units[0]] + units[1..];
    }
  }

  /*** The box-count bound ***/

  function PackageLoad(room: Room): Package -> real
    requires RoomOk(room)
  {
    (p: Package) requires RoomOk(room) => p.weight / room.weight + p.fit / room.fit
  }

  lemma DivideSum(a: real, b: real, c: real)
    requires c > 0.0
    ensures (a + b) / c == a / c + b / c
  {
  }

  lemma Exceeds(x: real, y: real, c: real)
    requires c > 0.0 && x + y > c
    ensures x / c + y / c > 1.0
  {
    DivideSum(x, y, c);
    DivideSum(c, x + y - c, c);
    NotBelowZero(x + y - c, c);
    assert c / c == 1.0;
  }

  lemma NotBelowZero(x: real, c: real)
    requires c > 0.0 && x > 0.0
    ensures x / c > 0.0
  {
  }

  /** Two packages that cannot be merged take more than one box's worth of room between them. */
  lemma PairLoad(room: Room, a: Package, b: Package)
    requires RoomOk(room) && Filled(room, a) && Filled(room, b) && Unmergeable(room, a, b)
    ensures PackageLoad(room)(a) + PackageLoad(room)(b) > 1.0
  {
    NotBelowZero(a.weight, room.weight);
    NotBelowZero(b.weight, room.weight);
    NotBelowZero(a.fit, room.fit);
    NotBelowZero(b.fit, room.fit);
    if a.weight + b.weight > room.weight {
      Exceeds(a.weight, b.weight, room.weight);
    } else {
      Exceeds(a.fit, b.fit, room.fit);
    }
  }

  /** If any two of some positive amounts exceed one, they add up to more than half their number. */
  lemma {:induction false} PairsSum<T>(items: seq<T>, f: T -> real)
    requires forall i :: 0 <= i < |items| ==> f(items[i]) > 0.0
    requires forall i, j :: 0 <= i < j < |items| ==> f(items[i]) + f(items[j]) > 1.0
    ensures Sum(items, f) >= (|items| / 2) as real
    ensures |items| >= 2 ==> Sum(items, f) > (|items| / 2) as real
  {
    if |items| == 1 {
      assert items[1..] == [];
    } else if |items| >= 2 {
      PairsSum(items[2..], f);
      assert items[1..][1..] == items[2..];
      assert f(items[0]) + f(items[1]) > 1.0;
    }
  }

  lemma PairsLoad(room: Room, ps: seq<Package>)
    requires RoomOk(room) && Sound(room, ps) && |ps| >= 2
    ensures Sum(ps, PackageLoad(room)) > (|ps| / 2) as real
  {
    var load := PackageLoad(room);
    forall i | 0 <= i < |ps| ensures load(ps[i]) > 0.0 {
      NotBelowZero(ps[i].weight, room.weight);
      NotBelowZero(ps[i].fit, room.fit);
    }
    forall i, j | 0 <= i < j < |ps| ensures load(ps[i]) + load(ps[j]) > 1.0 {
      PairLoad(room, ps[i], ps[j]);
    }
    PairsSum(ps, load);
  }

  lemma {:induction false} LoadSum(room: Room, ps: seq<Package>)
    requires RoomOk(room)
    ensures Sum(ps, PackageLoad(room)) == Sum(ps, PackageWeight) / room.weight + Sum(ps, PackageFit) / room.fit
  {
    if ps != [] {
      LoadSum(room, ps[1..]);
      DivideSum(ps[0].weight, Sum(ps[1..], PackageWeight), room.weight);
      DivideSum(ps[0].fit, Sum(ps[1..], PackageFit), room.fit);
    }
  }

  /*** The units of an order ***/

  lemma UnitLaw(line: Line)
    ensures UnitOk(UnitOf(line))
    ensures line.quantity as real * UnitOf(line).weight == line.weightLb
    ensures line.quantity as real * UnitOf(line).fit == line.fitUnits
  {
    NotBelowZero(line.weightLb, line.quantity as real);
    NotBelowZero(line.fitUnits, line.quantity as real);
  }

  lemma {:induction false} RepeatedLaw(unit: PackUnit, n: nat)
    ensures forall u :: u in Repeated(unit, n) <==> n > 0 && u == unit
  {
    if n > 0 {
      RepeatedLaw(unit, n - 1);
    }
  }

  lemma {:induction false} UnitsLaw(lines: seq<Line>)
    ensures forall u :: u in Units(lines) <==> exists line :: line in lines && u == UnitOf(line)
    ensures forall u :: u in Units(lines) ==> UnitOk(u)
  {
    if lines != [] {
      UnitsLaw(lines[1..]);
      RepeatedLaw(UnitOf(lines[0]), lines[0].quantity);
      UnitLaw(lines[0]);
      assert lines == [lines[0]] + lines[1..];
    }
  }

  lemma LargestFirstCompares(room: Room, rank: Rank)
    requires RoomOk(room)
    ensures TotalPreorder(LargestFirst(room, rank))
  {
  }

  function OrderedWeight(lines: seq<Line>): real { Sum(lines, LineWeight()) }

  function OrderedFit(lines: seq<Line>): real { Sum(lines, LineFit()) }

  function OrderedQuantity(lines: seq<Line>, v: string): real {
    Sum(lines, LineQuantity(v))
  }

  /** Units are packed in the planner's order; whatever the order, their measures add up to the lines'. */
  lemma OrderMeasure(lines: seq<Line>, units: seq<PackUnit>, f: PackUnit -> real, g: Line -> real)
    requires multiset(units) == multiset(Units(lines))
    requires forall line: Line :: line.quantity as real * f(UnitOf(line)) == g(line)
    ensures Sum(units, f) == Sum(lines, g)
  {
    SumPermutes(units, Units(lines), f);
    UnitsSum(lines, f);
    SumsAgree(lines, (line: Line) => line.quantity as real * f(UnitOf(line)), g);
  }

  function LineWeight(): Line -> real { (line: Line) => line.weightLb }

  function LineFit(): Line -> real { (line: Line) => line.fitUnits }

  function LineQuantity(v: string): Line -> real {
    (line: Line) => if line.variantId == v then line.quantity as real else 0.0
  }

  lemma LineMeasures(line: Line)
    ensures line.quantity as real * WeightOf(UnitOf(line)) == LineWeight()(line)
    ensures line.quantity as real * FitOf(UnitOf(line)) == LineFit()(line)
  {
    UnitLaw(line);
  }

  lemma WeightMeasures()
    ensures forall line: Line :: line.quantity as real * WeightOf(UnitOf(line)) == LineWeight()(line)
  {
    forall line: Line ensures line.quantity as real * WeightOf(UnitOf(line)) == LineWeight()(line) { LineMeasures(line); }
  }

  lemma FitMeasures()
    ensures forall line: Line :: line.quantity as real * FitOf(UnitOf(line)) == LineFit()(line)
  {
    forall line: Line ensures line.quantity as real * FitOf(UnitOf(line)) == LineFit()(line) { LineMeasures(line); }
  }

  lemma OrderWeight(lines: seq<Line>, units: seq<PackUnit>)
    requires multiset(units) == multiset(Units(lines))
    ensures Sum(units, WeightOf) == OrderedWeight(lines)
  {
    WeightMeasures();
    OrderMeasure(lines, units, WeightOf, LineWeight());
  }

  lemma OrderFit(lines: seq<Line>, units: seq<PackUnit>)
    requires multiset(units) == multiset(Units(lines))
    ensures Sum(units, FitOf) == OrderedFit(lines)
  {
    FitMeasures();
    OrderMeasure(lines, units, FitOf, LineFit());
  }

  lemma OrderQuantity(lines: seq<Line>, units: seq<PackUnit>, v: string)
    requires multiset(units) == multiset(Units(lines))
    ensures Sum(units, IsVariant(v)) == OrderedQuantity(lines, v)
  {
    forall line: Line ensures line.quantity as real * IsVariant(v)(UnitOf(line)) == LineQuantity(v)(line) {
      assert UnitOf(line).variantId == line.variantId;
    }
    OrderMeasure(lines, units, IsVariant(v), LineQuantity(v));
  }

  /*** One box ***/

  /** A packing that holds exactly the order, in packages of sound and unmergeable contents. */
  ghost predicate PacksOrder(lines: seq<Line>, room: Room, ps: seq<Package>) {
    && Sound(room, ps)
    && Sum(ps, PackageWeight) == OrderedWeight(lines) && Sum(ps, PackageFit) == OrderedFit(lines)
    && forall v: string :: Sum(ps, Packaged(v)) == OrderedQuantity(lines, v)
  }

  lemma PackedQuantity(room: Room, units: seq<PackUnit>, v: string)
    requires PackAll(room, [], units).Some?
    ensures Sum(PackAll(room, [], units).value, Packaged(v)) == Sum(units, IsVariant(v))
  {
    forall p, u ensures Packaged(v)(Add(p, u)) == Packaged(v)(p) + IsVariant(v)(u) {
      CountLaw(p.contents, u.variantId, v);
    }
    PackConserves(room, [], units, Packaged(v), IsVariant(v));
  }

  lemma PacksUnits(lines: seq<Line>, room: Room, units: seq<PackUnit>)
    requires multiset(units) == multiset(Units(lines)) && PackAll(room, [], units).Some?
    requires forall u :: u in units ==> UnitOk(u)
    ensures PacksOrder(lines, room, PackAll(room, [], units).value)
  {
    PackKeepsSound(room, [], units);
    PackConserves(room, [], units, PackageWeight, WeightOf);
    PackConserves(room, [], units, PackageFit, FitOf);
    OrderWeight(lines, units);
    OrderFit(lines, units);
    forall v: string ensures Sum(PackAll(room, [], units).value, Packaged(v)) == OrderedQuantity(lines, v) {
      PackedQuantity(room, units, v);
      OrderQuantity(lines, units, v);
    }
  }

  lemma PackOrder(lines: seq<Line>, room: Room, units: seq<PackUnit>)
    requires multiset(units) == multiset(Units(lines)) && forall u :: u in units <==> u in Units(lines)
    ensures var r := PackAll(room, [], units);
            && (r.Some? <==> forall line :: line in lines ==> Holds(room, UnitOf(line)))
            && (r.Some? ==> PacksOrder(lines, room, r.value))
  {
    UnitsLaw(lines);
    PackSucceeds(room, [], units);
    if PackAll(room, [], units).Some? {
      PacksUnits(lines, room, units);
    }
  }

  /** A box can take the order exactly when it has a fitting whose room holds every unit on its own. */
  ghost predicate CanHold(load: Load, box: Box) {
    && FittingOf(load, box).Some?
    && forall line :: line in load.lines ==> Holds(FittingOf(load, box).value.room, UnitOf(line))
  }

  lemma PackBoxLaw(rank: Rank, load: Load, box: Box)
    ensures var r := Packer(rank, load)(box);
            && (r.Some? <==> CanHold(load, box))
            && (r.Some? ==> r.value.box == box && Some(r.value.fitting) == FittingOf(load, box)
                            && PacksOrder(load.lines, r.value.fitting.room, r.value.packages))
  {
    if FittingOf(load, box).Some? {
      var room := FittingOf(load, box).value.room;
      var order := LargestFirst(room, rank);
      LargestFirstCompares(room, rank);
      SortedLaw(Units(load.lines), order);
      SortedMembers(Units(load.lines), order);
      PackOrder(load.lines, room, Sorted(Units(load.lines), order));
    }
  }

  /*** The choice of box ***/

  lemma {:induction false} ResultsLaw<T, U(!new)>(f: T -> Option<U>, items: seq<T>)
    ensures forall u :: u in Results(f, items) <==> exists i :: 0 <= i < |items| && f(items[i]) == Some(u)
  {
    if items != [] {
      ResultsLaw(f, items[1..]);
      forall u | exists i :: 0 <= i < |items| && f(items[i]) == Some(u) ensures u in Results(f, items) {
        var i :| 0 <= i < |items| && f(items[i]) == Some(u);
        assert i > 0 ==> items[i] == items[1..][i - 1];
      }
      forall u | u in Results(f, items) ensures exists i :: 0 <= i < |items| && f(items[i]) == Some(u) {
        if f(items[0]) != Some(u) {
          var i :| 0 <= i < |items[1..]| && f(items[1..][i]) == Some(u);
          assert f(items[i + 1]) == Some(u);
        }
      }
    }
  }

  lemma CheaperCompares(price: real)
    ensures TotalPreorder(Cheaper(price))
  {
  }

  /** The plan is a candidate that no candidate beats: on cost, then on box count, then on box name. */
  lemma PlanFromLaw(load: Load, candidates: seq<Packed>)
    ensures var r := PlanFrom(load, candidates);
            && (r.Ok? <==> candidates != [])
            && (r.Ok? ==> r.value.packed in candidates && r.value.cost == Cost(load.ice.price, r.value.packed)
                          && forall c :: c in candidates ==> Cheaper(load.ice.price)(r.value.packed, c))
  {
    var atMost := Cheaper(load.ice.price);
    var sorted := Sorted(candidates, atMost);
    CheaperCompares(load.ice.price);
    SortedLaw(candidates, atMost);
    SortedMembers(candidates, atMost);
    if candidates != [] {
      assert sorted[0] in sorted;
      forall c | c in candidates ensures atMost(sorted[0], c) {
        assert c in sorted;
      }
    }
  }

  /*** Every plan ***/

  /** Gross weight and fit of a package stay within every limit that applies to it, up to the tolerance. */
  ghost predicate WithinEveryLimit(load: Load, c: Packed, p: Package) {
    var gross := p.weight + c.fitting.ice + c.box.tare;
    && gross <= c.box.maxTotal + TOLERANCE && gross <= load.selected.policy.maxGrossWeightLb + TOLERANCE
    && gross <= load.carrierMax + TOLERANCE
    && (c.box.maxProduct.Some? ==> p.weight <= c.box.maxProduct.value + TOLERANCE)
    && p.fit + c.fitting.ice * c.box.iceFit <= c.box.maxFit + TOLERANCE
  }

  lemma RoomIsWithinLimits(load: Load, c: Packed, p: Package)
    requires FittingOf(load, c.box) == Some(c.fitting) && Filled(c.fitting.room, p)
    ensures WithinEveryLimit(load, c, p)
  {
  }

  /** The plan packs the order within every limit, in a box that can hold it, and no box that can would cost less. */
  ghost predicate RightPlan(rank: Rank, load: Load, boxes: seq<Box>, plan: Plan) {
    && PacksOrder(load.lines, plan.packed.fitting.room, plan.packed.packages)
    && (forall p :: p in plan.packed.packages ==> WithinEveryLimit(load, plan.packed, p))
    && plan.packed.box in boxes && CanHold(load, plan.packed.box)
    && FittingOf(load, plan.packed.box) == Some(plan.packed.fitting)
    && NoneCheaper(rank, load, boxes, plan.cost)
  }

  ghost predicate NoneCheaper(rank: Rank, load: Load, boxes: seq<Box>, cost: real) {
    forall box :: box in boxes && CanHold(load, box) ==>
      Packer(rank, load)(box).Some? && cost <= Cost(load.ice.price, Packer(rank, load)(box).value)
  }

  /** Every plan holds each unit of the order once, overfills no package, and its box is a cheapest one among all
      published boxes that can hold every unit. */
  lemma PlanIsRight(zone: Zone, rank: Rank, lines: seq<Line>, fitRuleId: string, setting: Setting, context: Context,
                    carrierMax: Field, now: int, load: Load, boxes: seq<Box>, plan: Plan)
    requires LoadFor(zone, lines, fitRuleId, setting, context, carrierMax, now) == Ok((load, boxes))
    requires CreatePlan(zone, rank, lines, fitRuleId, setting, context, carrierMax, now) == Ok(plan)
    ensures load.lines == lines && load.fitRuleId == fitRuleId && Some(load.service) == context.service
    ensures RightPlan(rank, load, boxes, plan)
  {
    BestBox(rank, load, boxes, plan);
  }

  lemma BestBox(rank: Rank, load: Load, boxes: seq<Box>, plan: Plan)
    requires PlanFrom(load, Results(Packer(rank, load), boxes)) == Ok(plan)
    ensures RightPlan(rank, load, boxes, plan)
  {
    var packer := Packer(rank, load);
    ResultsLaw(packer, boxes);
    PlanFromLaw(load, Results(packer, boxes));
    var i :| 0 <= i < |boxes| && packer(boxes[i]) == Some(plan.packed);
    PackBoxLaw(rank, load, boxes[i]);
    forall p | p in plan.packed.packages ensures WithinEveryLimit(load, plan.packed, p) {
      RoomIsWithinLimits(load, plan.packed, p);
    }
    BestCost(rank, load, boxes, plan);
  }

  lemma BestCost(rank: Rank, load: Load, boxes: seq<Box>, plan: Plan)
    requires PlanFrom(load, Results(Packer(rank, load), boxes)) == Ok(plan)
    ensures NoneCheaper(rank, load, boxes, plan.cost)
  {
    var packer := Packer(rank, load);
    ResultsLaw(packer, boxes);
    PlanFromLaw(load, Results(packer, boxes));
    forall box | box in boxes && CanHold(load, box)
      ensures packer(box).Some? && plan.cost <= Cost(load.ice.price, packer(box).value)
    {
      PackBoxLaw(rank, load, box);
      var k :| 0 <= k < |boxes| && boxes[k] == box;
      assert packer(boxes[k]) == Some(packer(box).value);
    }
  }

  /** Half the boxes of a plan of two or more, rounded down, is less than the order's weight and fit measured in
      boxes' worth of room. */
  lemma BoxCountBound(rank: Rank, load: Load, boxes: seq<Box>, plan: Plan)
    requires RightPlan(rank, load, boxes, plan) && |plan.packed.packages| >= 2
    ensures var room := plan.packed.fitting.room;
            && RoomOk(room)
            && (|plan.packed.packages| / 2) as real
               < OrderedWeight(load.lines) / room.weight + OrderedFit(load.lines) / room.fit
  {
    PairsLoad(plan.packed.fitting.room, plan.packed.packages);
    LoadSum(plan.packed.fitting.room, plan.packed.packages);
  }

  /** Once the inputs are accepted there is a plan exactly when some published box can hold every unit. */
  lemma PlanExists(zone: Zone, rank: Rank, lines: seq<Line>, fitRuleId: string, setting: Setting, context: Context,
                   carrierMax: Field, now: int, load: Load, boxes: seq<Box>)
    requires LoadFor(zone, lines, fitRuleId, setting, context, carrierMax, now) == Ok((load, boxes))
    ensures CreatePlan(zone, rank, lines, fitRuleId, setting, context, carrierMax, now).Ok? <==>
            exists box :: box in boxes && CanHold(load, box)
  {
    SomeBox(rank, load, boxes);
  }

  lemma SomeBox(rank: Rank, load: Load, boxes: seq<Box>)
    ensures PlanFrom(load, Results(Packer(rank, load), boxes)).Ok? <==> exists box :: box in boxes && CanHold(load, box)
  {
    var packer := Packer(rank, load);
    ResultsLaw(packer, boxes);
    PlanFromLaw(load, Results(packer, boxes));
    forall box ensures packer(box).Some? <==> CanHold(load, box) {
      PackBoxLaw(rank, load, box);
    }
    if exists box :: box in boxes && CanHold(load, box) {
      var box :| box in boxes && CanHold(load, box);
      var k :| 0 <= k < |boxes| && boxes[k] == box;
      assert packer(boxes[k]) == Some(packer(box).value);
    }
    if Results(packer, boxes) != [] {
      assert Results(packer, boxes)[0] in Results(packer, boxes);
    }
  }

  /** The box follows the order's fit rule, and the carrier's limit exceeds its tare with the minimum of ice or with the
      blocks of any rule. */
  ghost predicate Carriable(load: Load, box: Box) {
    && box.fitRuleId == load.fitRuleId && load.ice.minimum + box.tare < load.carrierMax
    && forall rule :: rule in load.selected.policy.rules ==> load.ice.blockWeight * rule.blocks + box.tare < load.carrierMax
  }

  /** Whatever load is accepted, some published box has room for products, if the boxes follow the order's fit rule
      and the carrier's limit exceeds their ice and tare. */
  lemma PublishedBoxHasRoom(zone: Zone, lines: seq<Line>, fitRuleId: string, setting: Setting, context: Context,
                            carrierMax: Field, now: int, load: Load, boxes: seq<Box>)
    requires LoadFor(zone, lines, fitRuleId, setting, context, carrierMax, now) == Ok((load, boxes))
    requires forall box :: box in boxes ==> Carriable(load, box)
    ensures exists box :: box in boxes && FittingOf(load, box).Some?
  {
    var all := setting.(boxes := AllActive(setting.boxes));
    PublishedOk(all, now);
    GateCoversRuntime(all, now, zone, ShipmentOf(context));
    SelectionWithin(zone, Publish(all, now).value.policies, ShipmentOf(context));
    var box :| box in boxes && Serves(load.ice, load.selected.policy, load.service, box, load.selected.exposureHours);
    ServesIsFitting(load, box);
  }

  lemma TravelsDays(load: Load, box: Box)
    requires BoxOk(box) && Serves(load.ice, load.selected.policy, load.service, box, load.selected.exposureHours)
    ensures LastsDays(box, load.selected.exposureHours)
  {
    if box.maxTransitDays.Some? {
      DaysFit(load.selected.exposureHours, box.maxTransitDays.value.Floor);
    }
  }

  /** The shortest lasting rule is the one chosen, and there is only one. */
  lemma ShortestIs(p: Policy, s: Service, t: Tier, exposure: real, rule: Rule)
    requires PolicyOk(p)
    ensures SelectRule(p.rules, s, t, exposure) == Some(rule) <==> Shortest(p, s, t, exposure, rule)
  {
    var r := SelectRule(p.rules, s, t, exposure);
    SelectsShortest(p, s, t, exposure);
    if Shortest(p, s, t, exposure, rule) {
      GroupRises(p, s, t);
      GroupLaw(p.rules, s, t);
      var group := Group(p.rules, s, t);
      assert rule in group && r.value in group;
      var i :| 0 <= i < |group| && group[i] == rule;
      var j :| 0 <= j < |group| && group[j] == r.value;
    }
  }

  lemma ServesIsFitting(load: Load, box: Box)
    requires PolicyOk(load.selected.policy) && BoxOk(box)
    requires Serves(load.ice, load.selected.policy, load.service, box, load.selected.exposureHours)
    requires Carriable(load, box)
    ensures FittingOf(load, box).Some?
  {
    var rule := ServingRule(load, box);
    TravelsDays(load, box);
    FittingByRule(load, box, rule);
  }

  lemma ServingRule(load: Load, box: Box) returns (rule: Rule)
    requires PolicyOk(load.selected.policy) && 0.0 < box.iceFit && Carriable(load, box)
    requires Serves(load.ice, load.selected.policy, load.service, box, load.selected.exposureHours)
    ensures SelectRule(load.selected.policy.rules, load.service, box.tier, load.selected.exposureHours) == Some(rule)
    ensures HasRoom(load.ice, load.selected.policy, box, rule) && IceFor(load.ice, rule) + box.tare < load.carrierMax
  {
    rule :| ServesBy(load.ice, load.selected.policy, load.service, box, load.selected.exposureHours, rule);
    ShortestIs(load.selected.policy, load.service, box.tier, load.selected.exposureHours, rule);
    RoomByRule(load, load.selected.policy, box, rule);
  }

  lemma RoomByRule(load: Load, p: Policy, box: Box, rule: Rule)
    requires ServesBy(load.ice, p, load.service, box, load.selected.exposureHours, rule) && p == load.selected.policy
    requires 0.0 < box.iceFit && Carriable(load, box)
    ensures HasRoom(load.ice, p, box, rule) && IceFor(load.ice, rule) + box.tare < load.carrierMax
  {
    RoomBesideBoth(load.ice, p, box, rule);
  }

  lemma FittingByRule(load: Load, box: Box, rule: Rule)
    requires SelectRule(load.selected.policy.rules, load.service, box.tier, load.selected.exposureHours) == Some(rule)
    requires box.tier in load.selected.policy.tiers && LastsDays(box, load.selected.exposureHours)
    requires HasRoom(load.ice, load.selected.policy, box, rule) && IceFor(load.ice, rule) + box.tare < load.carrierMax
    requires box.fitRuleId == load.fitRuleId && (box.maxProduct.Some? ==> 0.0 < box.maxProduct.value)
    ensures FittingOf(load, box).Some?
  {
  }
}
