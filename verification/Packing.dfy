/** The packing planner: first-fit packing of whole units by weight and fit, and the cheapest box that holds them. */
module Packing {
  import opened Base
  import opened Clock
  import opened Sorting
  import opened PackingPolicy

  datatype ResolvedLine = ResolvedLine(variantId: string, quantity: nat, weightLb: real, fitUnits: real)

  /** A resolved physical line: weight resolution admits positive quantities, weights and fit units only. */
  type Line = l: ResolvedLine | l.quantity >= 1 && l.weightLb > 0.0 && l.fitUnits > 0.0
    witness ResolvedLine("", 1, 1.0, 1.0)

  datatype PackUnit = PackUnit(variantId: string, weight: real, fit: real)

  datatype Content = Content(variantId: string, quantity: nat)

  datatype Package = Package(weight: real, fit: real, contents: seq<Content>)

  const TOLERANCE := 0.000_000_001

  function Repeated(unit: PackUnit, n: nat): seq<PackUnit> {
    if n == 0 then [] else [unit] + Repeated(unit, n - 1)
  }

  function UnitOf(line: Line): PackUnit {
    PackUnit(line.variantId, line.weightLb / line.quantity as real, line.fitUnits / line.quantity as real)
  }

  function Units(lines: seq<Line>): seq<PackUnit> {
    if lines == [] then [] else Repeated(UnitOf(lines[0]), lines[0].quantity) + Units(lines[1..])
  }

  function UnitCount(lines: seq<Line>): nat {
    if lines == [] then 0 else lines[0].quantity + UnitCount(lines[1..])
  }

  /*** First fit ***/

  /** The room a package leaves for products. */
  datatype Room = Room(weight: real, fit: real)

  predicate RoomOk(room: Room) {
    room.weight > 0.0 && room.fit > 0.0
  }

  predicate Holds(room: Room, unit: PackUnit) {
    unit.weight <= room.weight && unit.fit <= room.fit
  }

  predicate Fits(room: Room, p: Package, unit: PackUnit) {
    p.weight + unit.weight <= room.weight + TOLERANCE && p.fit + unit.fit <= room.fit + TOLERANCE
  }

  function Count(contents: seq<Content>, v: string): seq<Content> {
    if contents == [] then [Content(v, 1)]
    else if contents[0].variantId == v then [Content(v, contents[0].quantity + 1)] + contents[1..]
    else [contents[0]] + Count(contents[1..], v)
  }

  function Add(p: Package, unit: PackUnit): Package {
    Package(p.weight + unit.weight, p.fit + unit.fit, Count(p.contents, unit.variantId))
  }

  const EMPTY := Package(0.0, 0.0, [])

  /** The unit goes into the first package with room, or else a new one. */
  function Place(room: Room, packages: seq<Package>, unit: PackUnit): seq<Package> {
    if packages == [] then [Add(EMPTY, unit)]
    else if Fits(room, packages[0], unit) then [Add(packages[0], unit)] + packages[1..]
    else [packages[0]] + Place(room, packages[1..], unit)
  }

  function PackAll(room: Room, packages: seq<Package>, units: seq<PackUnit>): Option<seq<Package>>
    decreases |units|
  {
    if units == [] then Some(packages)
    else if !Holds(room, units[0]) then None
    else PackAll(room, Place(room, packages, units[0]), units[1..])
  }

  /** How much of a package a unit takes, in its scarcer dimension. */
  function Share(room: Room, unit: PackUnit): real
    requires RoomOk(room)
  {
    MaxReal(unit.weight / room.weight, unit.fit / room.fit)
  }

  /** Any fixed order of variant ids. */
  type Rank = string -> int

  function LargestFirst(room: Room, rank: Rank): AtMost<PackUnit>
    requires RoomOk(room)
  {
    (a, b) requires RoomOk(room) =>
      Share(room, a) > Share(room, b) || (Share(room, a) == Share(room, b) && rank(a.variantId) <= rank(b.variantId))
  }

  /*** Boxes ***/

  /** Everything about the shipment that `pack` closes over. */
  datatype Load = Load(lines: seq<Line>, fitRuleId: string, service: Service, selected: Selected, ice: Ice, carrierMax: real)

  /** What a box must travel with, and the room that leaves. */
  datatype Fitting = Fitting(rule: Rule, ice: real, limit: real, room: Room)

  function LimitOf(load: Load, box: Box): real {
    MinReal(MinReal(box.maxTotal, load.selected.policy.maxGrossWeightLb), load.carrierMax)
  }

  /** The room for products beside this much ice. */
  function RoomOf(load: Load, box: Box, ice: real): Room {
    var weight := LimitOf(load, box) - ice - box.tare;
    Room(if box.maxProduct.Some? then MinReal(box.maxProduct.value, weight) else weight, box.maxFit - ice * box.iceFit)
  }

  function FittingOf(load: Load, box: Box): Option<Fitting> {
    var p := load.selected.policy;
    if box.tier !in p.tiers || !LastsDays(box, load.selected.exposureHours) then None
    else
      match SelectRule(p.rules, load.service, box.tier, load.selected.exposureHours)
      case None => None
      case Some(rule) =>
        var ice := IceFor(load.ice, rule);
        var room := RoomOf(load, box, ice);
        if box.fitRuleId != load.fitRuleId || !RoomOk(room) then None
        else Some(Fitting(rule, ice, LimitOf(load, box), room))
  }

  datatype Packed = Packed(box: Box, fitting: Fitting, packages: seq<Package>)

  function PackBox(rank: Rank, load: Load, box: Box): Option<Packed>
  {
    match FittingOf(load, box)
    case None => None
    case Some(fitting) =>
      match PackAll(fitting.room, [], Sorted(Units(load.lines), LargestFirst(fitting.room, rank)))
      case None => None
      case Some(packages) => Some(Packed(box, fitting, packages))
  }

  /** `map` and `filter`: the results of the items that have one. */
  function Results<T, U>(f: T -> Option<U>, items: seq<T>): seq<U> {
    if items == [] then []
    else (match f(items[0]) case None => [] case Some(u) => [u]) + Results(f, items[1..])
  }

  function Packer(rank: Rank, load: Load): Box -> Option<Packed> {
    box => PackBox(rank, load, box)
  }

  function Cost(price: real, c: Packed): real {
    |c.packages| as real * (c.box.unitCost + c.fitting.ice * price)
  }

  function Cheaper(price: real): AtMost<Packed> {
    (a, b) =>
      if Cost(price, a) != Cost(price, b) then Cost(price, a) < Cost(price, b)
      else if |a.packages| != |b.packages| then |a.packages| < |b.packages|
      else TierRank(a.box.tier) <= TierRank(b.box.tier)
  }

  /*** The plan ***/

  datatype Context = Context(service: Option<Service>, transitDays: int, transitRevision: string, packedAt: Option<int>,
                             arrivalBy: Option<int>, packingDays: Option<int>, elapsedHours: Option<real>)

  datatype PlanError =
    | NoPhysicalContents
    | UnapprovedPackingPolicy
    | InvalidIceCost
    | InvalidTransitContext
    | InvalidElapsedContext
    | PolicyRefused(code: Code)
    | InvalidCarrierLimit
    | PackingUnitLimit
    | NoApprovedBoxFits

  datatype Plan = Plan(selected: Selected, fitRuleId: string, packed: Packed, dryIceLb: real, cost: real)

  function AllActive(boxes: seq<BoxRow>): seq<BoxRow> {
    if boxes == [] then [] else [boxes[0].(active := true)] + AllActive(boxes[1..])
  }

  predicate ElapsedOk(context: Context) {
    (context.packingDays.None? && context.elapsedHours.None?)
    || (context.packingDays.Some? && context.elapsedHours.Some? && context.packingDays.value >= 1
        && context.elapsedHours.value > 0.0 && context.packingDays.value == WholeDays(context.elapsedHours.value))
  }

  function Early(lines: seq<Line>, setting: Setting, context: Context): Option<PlanError> {
    if lines == [] then Some(NoPhysicalContents)
    else if !setting.continuousWeight || setting.version == "" || setting.enabled != Some(true) then
      Some(UnapprovedPackingPolicy)
    else if !Positive(setting.icePrice) then Some(InvalidIceCost)
    else if context.transitDays <= 0 || context.transitRevision == "" then Some(InvalidTransitContext)
    else if !ElapsedOk(context) then Some(InvalidElapsedContext)
    else None
  }

  function ShipmentOf(context: Context): Shipment {
    Shipment(context.service, context.packedAt, context.arrivalBy, context.elapsedHours)
  }

  function LoadFor(zone: Zone, lines: seq<Line>, fitRuleId: string, setting: Setting, context: Context,
                   carrierMax: Field, now: int): Result<(Load, seq<Box>), PlanError>
  {
    match Early(lines, setting, context)
    case Some(error) => Err(error)
    case None =>
      match Publish(setting.(boxes := AllActive(setting.boxes)), now)
      case Err(code) => Err(PolicyRefused(code))
      case Ok(published) =>
        match Select(zone, published.policies, ShipmentOf(context))
        case Err(code) => Err(PolicyRefused(code))
        case Ok(selected) =>
          if !Positive(carrierMax) then Err(InvalidCarrierLimit)
          else if UnitCount(lines) > 10_000 then Err(PackingUnitLimit)
          else Ok((Load(lines, fitRuleId, context.service.value, selected, published.ice, carrierMax.value), published.boxes))
  }

  function PlanFrom(load: Load, candidates: seq<Packed>): Result<Plan, PlanError> {
    var sorted := Sorted(candidates, Cheaper(load.ice.price));
    if sorted == [] then Err(NoApprovedBoxFits)
    else
      var choice := sorted[0];
      Ok(Plan(load.selected, load.fitRuleId, choice, |choice.packages| as real * choice.fitting.ice, Cost(load.ice.price, choice)))
  }

  function CreatePlan(zone: Zone, rank: Rank, lines: seq<Line>, fitRuleId: string, setting: Setting, context: Context,
                      carrierMax: Field, now: int): Result<Plan, PlanError>
  {
    match LoadFor(zone, lines, fitRuleId, setting, context, carrierMax, now)
    case Err(error) => Err(error)
    case Ok(loaded) => PlanFrom(loaded.0, Results(Packer(rank, loaded.0), loaded.1))
  }

  /*** Step by step ***/

  /** Placing, once the first package with room is known. */
  lemma {:induction false} PlaceAt(room: Room, packages: seq<Package>, i: nat, unit: PackUnit)
    requires i <= |packages| && forall k :: 0 <= k < i ==> !Fits(room, packages[k], unit)
    requires i < |packages| ==> Fits(room, packages[i], unit)
    ensures Place(room, packages, unit) ==
            if i < |packages| then packages[i := Add(packages[i], unit)] else packages + [Add(EMPTY, unit)]
  {
    if i > 0 {
      PlaceAt(room, packages[1..], i - 1, unit);
      if i < |packages| {
        UpdatedBehind(packages, i, Add(packages[i], unit));
      }
    }
  }

  lemma UpdatedBehind<T>(items: seq<T>, i: nat, item: T)
    requires 0 < i < |items|
    ensures [items[0]] + items[1..][i - 1 := item] == items[i := item]
  {
  }

  /** The inner loop of `pack`: find the first package with room and update it, or push a new one. */
  method PlaceUnit(room: Room, packages: seq<Package>, unit: PackUnit) returns (r: seq<Package>)
    ensures r == Place(room, packages, unit)
  {
    var i := 0;
    while i < |packages| && !Fits(room, packages[i], unit)
      invariant 0 <= i <= |packages|
      invariant forall k :: 0 <= k < i ==> !Fits(room, packages[k], unit)
    {
      i := i + 1;
    }
    PlaceAt(room, packages, i, unit);
    r := if i < |packages| then packages[i := Add(packages[i], unit)] else packages + [Add(EMPTY, unit)];
  }

  method PackUnits(room: Room, units: seq<PackUnit>) returns (r: Option<seq<Package>>)
    ensures r == PackAll(room, [], units)
  {
    var packages: seq<Package> := [];
    for i := 0 to |units|
      invariant PackAll(room, [], units) == PackAll(room, packages, units[i..])
    {
      if !Holds(room, units[i]) { return None; }
      packages := PlaceUnit(room, packages, units[i]);
      assert units[i..][1..] == units[i + 1..];
    }
    return Some(packages);
  }

  method CreateShippingPackingPlan(zone: Zone, rank: Rank, lines: seq<Line>, fitRuleId: string, setting: Setting,
                                   context: Context, carrierMax: Field, now: int) returns (r: Result<Plan, PlanError>)
    ensures r == CreatePlan(zone, rank, lines, fitRuleId, setting, context, carrierMax, now)
  {
    var loaded := LoadFor(zone, lines, fitRuleId, setting, context, carrierMax, now);
    if loaded.Err? { return Err(loaded.error); }
    var load, boxes := loaded.value.0, loaded.value.1;
    var candidates := PackEvery(rank, load, boxes);
    return PlanFrom(load, candidates);
  }

  /** `pack`, for one box. */
  method PackInto(rank: Rank, load: Load, box: Box) returns (r: Option<Packed>)
    ensures r == PackBox(rank, load, box)
  {
    var fitting := FittingOf(load, box);
    if fitting.None? { return None; }
    var packages := PackUnits(fitting.value.room, Sorted(Units(load.lines), LargestFirst(fitting.value.room, rank)));
    if packages.None? { return None; }
    return Some(Packed(box, fitting.value, packages.value));
  }

  lemma {:induction false} ResultsSnoc<T, U>(f: T -> Option<U>, items: seq<T>, item: T)
    ensures Results(f, items + [item]) == Results(f, items) + (match f(item) case None => [] case Some(u) => [u])
  {
    if items == [] {
      assert Results(f, [item][1..]) == [];
    } else {
      ResultsSnoc(f, items[1..], item);
      assert (items + [item])[1..] == items[1..] + [item];
    }
  }

  method PackEvery(rank: Rank, load: Load, boxes: seq<Box>) returns (candidates: seq<Packed>)
    ensures candidates == Results(Packer(rank, load), boxes)
  {
    candidates := [];
    for i := 0 to |boxes|
      invariant candidates == Results(Packer(rank, load), boxes[..i])
    {
      var packed := PackInto(rank, load, boxes[i]);
      ResultsSnoc(Packer(rank, load), boxes[..i], boxes[i]);
      assert boxes[..i + 1] == boxes[..i] + [boxes[i]];
      if packed.Some? {
        candidates := candidates + [packed.value];
      }
    }
    assert boxes[..|boxes|] == boxes;
  }
}
