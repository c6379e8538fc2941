/** What a packing plan promises, told from the setting, the shipment and the lines. */
module PlanPromises {
  import opened Base
  import opened Clock
  import opened Permutations
  import opened RealSums
  import opened Sorting
  import opened PackingPolicy
  import opened PackingPolicyLaws
  import opened PublicationPromises
  import opened Packing
  import opened PackingLaws

  /*** The policy that applies ***/

  /** The instant's local date is not before, or not after, a date. */
  predicate From(zone: Zone, at: int, date: int) {
    86_400_000 * date <= at + zone(at)
  }

  predicate Through(zone: Zone, at: int, date: int) {
    at + zone(at) < 86_400_000 * (date + 1)
  }

  /** The delayed arrival, to the millisecond, is still within the policy's dates. */
  ghost predicate DelayedThrough(zone: Zone, p: Policy, arrivalBy: int) {
    exists at: int :: Through(zone, at, p.through) && at as real <= arrivalBy as real + 3_600_000.0 * p.delayHours < at as real + 1.0
  }

  /** The shipment lasts, for as many hours as it states to a millionth. */
  ghost predicate Consistent(shipment: Shipment, packedAt: int, arrivalBy: int, elapsedHours: real) {
    && shipment.packedAt == Some(packedAt) && shipment.arrivalBy == Some(arrivalBy) && packedAt < arrivalBy
    && 3_600_000.0 * elapsedHours == (arrivalBy - packedAt) as real && shipment.elapsedHours.Some?
    && -0.000_001 <= elapsedHours - shipment.elapsedHours.value <= 0.000_001
  }

  /** The policy is one of the list, for the service, over every date of the shipment. */
  predicate Governs(zone: Zone, policies: seq<Policy>, service: Option<Service>, packedAt: int, arrivalBy: int, p: Policy) {
    p in policies && service.Some? && service.value in p.services && From(zone, packedAt, p.from) && Through(zone, arrivalBy, p.through)
  }

  /** The exposure, with the policy's delay, is within its longest, and so is the delayed arrival within its dates. */
  ghost predicate Selects(zone: Zone, policies: seq<Policy>, shipment: Shipment, r: Selected) {
    && Consistent(shipment, r.packedAt, r.arrivalBy, r.elapsedHours)
    && Governs(zone, policies, shipment.service, r.packedAt, r.arrivalBy, r.policy)
    && r.exposureHours == r.elapsedHours + r.policy.delayHours && r.exposureHours <= r.policy.maxExposureHours
    && DelayedThrough(zone, r.policy, r.arrivalBy)
  }

  lemma GovernsIff(zone: Zone, policies: seq<Policy>, service: Option<Service>, packedAt: int, arrivalBy: int, p: Policy)
    ensures Governs(zone, policies, service, packedAt, arrivalBy, p) <==>
            p in policies && Applies(p, service, EasternDate(zone, packedAt), EasternDate(zone, arrivalBy))
  {
  }

  lemma DelayedIff(zone: Zone, p: Policy, arrivalBy: int)
    ensures EasternDate(zone, (arrivalBy as real + p.delayHours * 3_600_000.0).Floor) <= p.through <==>
            DelayedThrough(zone, p, arrivalBy)
  {
    var at := (arrivalBy as real + p.delayHours * 3_600_000.0).Floor;
    assert Through(zone, at, p.through) <==> EasternDate(zone, at) <= p.through;
    assert at as real <= arrivalBy as real + 3_600_000.0 * p.delayHours < at as real + 1.0;
  }

  lemma FoundIs(zone: Zone, policies: seq<Policy>, service: Option<Service>, packedAt: int, arrivalBy: int)
    requires Eastern(zone) && !SomeOverlap(policies) && packedAt < arrivalBy
    ensures var found := Applicable(policies, service, EasternDate(zone, packedAt), EasternDate(zone, arrivalBy));
            |found| <= 1 && forall p :: Governs(zone, policies, service, packedAt, arrivalBy, p) <==> found == [p]
  {
    var from, through := EasternDate(zone, packedAt), EasternDate(zone, arrivalBy);
    assert from <= through;
    AtMostOneApplies(policies, service, from, through);
    ApplicableLaw(policies, service, from, through);
    var found := Applicable(policies, service, from, through);
    forall p ensures Governs(zone, policies, service, packedAt, arrivalBy, p) <==> found == [p] {
      GovernsIff(zone, policies, service, packedAt, arrivalBy, p);
      assert p in found ==> found[0] == p;
    }
  }

  lemma ConsistentIff(shipment: Shipment, packedAt: int, arrivalBy: int)
    requires shipment.packedAt == Some(packedAt) && shipment.arrivalBy == Some(arrivalBy)
    ensures Hours(packedAt, arrivalBy) > 0.0 && shipment.elapsedHours.Some?
            && AbsReal(Hours(packedAt, arrivalBy) - shipment.elapsedHours.value) <= HOURS_TOLERANCE
            <==> Consistent(shipment, packedAt, arrivalBy, Hours(packedAt, arrivalBy))
  {
  }

  /** A shipment is accepted exactly when some policy selects it, and then as that policy selects it. */
  lemma SelectsIff(zone: Zone, policies: seq<Policy>, shipment: Shipment, r: Selected)
    requires Eastern(zone) && !SomeOverlap(policies)
    ensures Select(zone, policies, shipment) == Ok(r) <==> Selects(zone, policies, shipment, r)
  {
    if shipment.packedAt.Some? && shipment.arrivalBy.Some? {
      var packedAt, arrivalBy := shipment.packedAt.value, shipment.arrivalBy.value;
      ConsistentIff(shipment, packedAt, arrivalBy);
      if packedAt < arrivalBy {
        FoundIs(zone, policies, shipment.service, packedAt, arrivalBy);
        DelayedIff(zone, r.policy, arrivalBy);
      }
    }
  }

  /*** Ice ***/

  function WeightOfBlocks(ice: Ice, blocks: real): real {
    ice.blockWeight * blocks
  }

  /** The ice of a box: the minimum, or the weight of its blocks if they weigh more. */
  predicate RightIce(ice: Ice, blocks: real, amount: real) {
    && ice.minimum <= amount && WeightOfBlocks(ice, blocks) <= amount
    && (amount == ice.minimum || amount == WeightOfBlocks(ice, blocks))
  }

  lemma IceIsRight(ice: Ice, rule: Rule, amount: real)
    ensures RightIce(ice, rule.blocks, amount) <==> amount == IceFor(ice, rule)
  {
  }

  lemma MoreBlocksMoreIce(ice: Ice, fewer: real, more: real, a: real, b: real)
    requires fewer <= more && 0.0 < ice.blockWeight && RightIce(ice, fewer, a) && RightIce(ice, more, b)
    ensures a <= b
  {
    BlocksWeighMore(ice, fewer, more);
  }

  lemma BlocksWeighMore(ice: Ice, fewer: real, more: real)
    requires fewer <= more && 0.0 < ice.blockWeight
    ensures WeightOfBlocks(ice, fewer) <= WeightOfBlocks(ice, more)
  {
    Scaled(ice.blockWeight, fewer, more);
  }

  /** Longer exposure never means less ice, by weight. */
  lemma IceNeverDecreases(ice: Ice, p: Policy, s: Service, t: Tier, shorter: real, longer: real, a: Rule, b: Rule, less: real, more: real)
    requires PolicyOk(p) && 0.0 < ice.blockWeight && shorter <= longer
    requires Shortest(p, s, t, shorter, a) && Shortest(p, s, t, longer, b)
    requires RightIce(ice, a.blocks, less) && RightIce(ice, b.blocks, more)
    ensures less <= more
  {
    LongerTakesMoreBlocks(p, s, t, shorter, longer, a, b);
    MoreBlocksMoreIce(ice, a.blocks, b.blocks, less, more);
  }

  lemma LongerTakesMoreBlocks(p: Policy, s: Service, t: Tier, shorter: real, longer: real, a: Rule, b: Rule)
    requires PolicyOk(p) && shorter <= longer && Shortest(p, s, t, shorter, a) && Shortest(p, s, t, longer, b)
    ensures a.blocks <= b.blocks
  {
    ShortestIs(p, s, t, shorter, a);
    ShortestIs(p, s, t, longer, b);
    BlocksNeverDecrease(p, s, t, shorter, longer);
  }

  /*** A box's fitting ***/

  /** A package of this much product weighs no more than any limit, with its ice and tare. */
  predicate WeighsAtMost(load: Load, box: Box, ice: real, product: real) {
    && product + ice + box.tare <= box.maxTotal && product + ice + box.tare <= load.selected.policy.maxGrossWeightLb
    && product + ice + box.tare <= load.carrierMax && (box.maxProduct.Some? ==> product <= box.maxProduct.value)
  }

  /** The limit recorded is the least of the three. */
  predicate LeastLimit(load: Load, box: Box, limit: real) {
    && limit <= box.maxTotal && limit <= load.selected.policy.maxGrossWeightLb && limit <= load.carrierMax
    && (limit == box.maxTotal || limit == load.selected.policy.maxGrossWeightLb || limit == load.carrierMax)
  }

  /** The room is the most product that keeps within every limit. */
  ghost predicate RightRoom(load: Load, box: Box, ice: real, room: real) {
    forall product: real :: WeighsAtMost(load, box, ice, product) <==> product <= room
  }

  /** The ice under a rule, the limit, and exactly the room they leave. */
  ghost predicate RightAmounts(load: Load, box: Box, f: Fitting) {
    && RightIce(load.ice, f.rule.blocks, f.ice) && LeastLimit(load, box, f.limit)
    && RightRoom(load, box, f.ice, f.room.weight) && f.room.fit + f.ice * box.iceFit == box.maxFit
  }

  /** What the box travels with is right: the amounts, under the shortest rule that lasts. */
  ghost predicate RightFitting(load: Load, box: Box, f: Fitting) {
    Shortest(load.selected.policy, load.service, box.tier, load.selected.exposureHours, f.rule) && RightAmounts(load, box, f)
  }

  /** The box may be used: its policy allows it, for as long as the exposure lasts, under the order's fit rule, and it
      leaves some room. */
  ghost predicate MayTravel(load: Load, box: Box, f: Fitting) {
    && box.tier in load.selected.policy.tiers && box.fitRuleId == load.fitRuleId
    && (box.maxTransitDays.Some? ==> load.selected.exposureHours <= 24.0 * box.maxTransitDays.value)
    && RightFitting(load, box, f) && 0.0 < f.room.weight && 0.0 < f.room.fit
  }

  lemma RoomIs(load: Load, box: Box, ice: real, room: Room)
    ensures RightRoom(load, box, ice, room.weight) && room.fit + ice * box.iceFit == box.maxFit <==> room == RoomOf(load, box, ice)
  {
    var most := RoomOf(load, box, ice).weight;
    assert forall product: real :: WeighsAtMost(load, box, ice, product) <==> product <= most;
    if RightRoom(load, box, ice, room.weight) {
      assert WeighsAtMost(load, box, ice, most) && WeighsAtMost(load, box, ice, room.weight);
    }
  }

  predicate ComputedAmounts(load: Load, box: Box, f: Fitting) {
    f.ice == IceFor(load.ice, f.rule) && f.limit == LimitOf(load, box) && f.room == RoomOf(load, box, f.ice)
  }

  predicate Computed(load: Load, box: Box, f: Fitting) {
    && SelectRule(load.selected.policy.rules, load.service, box.tier, load.selected.exposureHours) == Some(f.rule)
    && ComputedAmounts(load, box, f)
  }

  lemma RightAmountsAre(load: Load, box: Box, f: Fitting)
    ensures RightAmounts(load, box, f) <==> ComputedAmounts(load, box, f)
  {
    IceIsRight(load.ice, f.rule, f.ice);
    LimitIs(load, box, f.limit);
    RoomIs(load, box, f.ice, f.room);
  }

  lemma RightFittingIs(load: Load, box: Box, f: Fitting)
    requires PolicyOk(load.selected.policy)
    ensures RightFitting(load, box, f) <==> Computed(load, box, f)
  {
    ShortestIs(load.selected.policy, load.service, box.tier, load.selected.exposureHours, f.rule);
    RightAmountsAre(load, box, f);
  }

  lemma LimitIs(load: Load, box: Box, limit: real)
    ensures LeastLimit(load, box, limit) <==> limit == LimitOf(load, box)
  {
  }

  lemma FittingComputed(load: Load, box: Box, f: Fitting)
    ensures FittingOf(load, box) == Some(f) <==>
            && box.tier in load.selected.policy.tiers && LastsDays(box, load.selected.exposureHours)
            && box.fitRuleId == load.fitRuleId && Computed(load, box, f) && 0.0 < f.room.weight && 0.0 < f.room.fit
  {
  }

  lemma TravelsIff(load: Load, box: Box)
    requires BoxOk(box)
    ensures LastsDays(box, load.selected.exposureHours) <==>
            (box.maxTransitDays.Some? ==> load.selected.exposureHours <= 24.0 * box.maxTransitDays.value)
  {
    if box.maxTransitDays.Some? {
      DaysFit(load.selected.exposureHours, box.maxTransitDays.value.Floor);
    }
  }

  /** A box's fitting is exactly the one it may travel with, if there is one. */
  lemma FittingIff(load: Load, box: Box, f: Fitting)
    requires PolicyOk(load.selected.policy) && BoxOk(box)
    ensures FittingOf(load, box) == Some(f) <==> MayTravel(load, box, f)
  {
    RightFittingIs(load, box, f);
    TravelsIff(load, box);
    FittingComputed(load, box, f);
  }

  /*** One box ***/

  /** The box can take the order: no unit is heavier or bulkier than the room its fitting leaves. */
  ghost predicate TakesOrder(load: Load, box: Box, f: Fitting) {
    && MayTravel(load, box, f)
    && forall line: Line :: line in load.lines ==>
         line.weightLb / line.quantity as real <= f.room.weight && line.fitUnits / line.quantity as real <= f.room.fit
  }

  lemma TakesOrderIff(load: Load, box: Box)
    requires PolicyOk(load.selected.policy) && BoxOk(box)
    ensures CanHold(load, box) <==> exists f :: TakesOrder(load, box, f)
  {
    forall f ensures FittingOf(load, box) == Some(f) <==> MayTravel(load, box, f) {
      FittingIff(load, box, f);
    }
    if CanHold(load, box) {
      assert TakesOrder(load, box, FittingOf(load, box).value) by {
        forall line: Line | line in load.lines
          ensures line.weightLb / line.quantity as real <= FittingOf(load, box).value.room.weight
          ensures line.fitUnits / line.quantity as real <= FittingOf(load, box).value.room.fit
        {
          assert Holds(FittingOf(load, box).value.room, UnitOf(line));
        }
      }
    }
  }

  /** A unit joins a package while both stay within the room, give or take a billionth. */
  lemma FitsIff(room: Room, p: Package, unit: PackUnit)
    ensures Fits(room, p, unit) <==>
            p.weight + unit.weight - room.weight <= 0.000_000_001 && p.fit + unit.fit - room.fit <= 0.000_000_001
  {
  }

  /** The share of a package a unit takes, by weight or by fit, whichever is more. */
  predicate Takes(room: Room, unit: PackUnit, share: real)
    requires RoomOk(room)
  {
    && unit.weight / room.weight <= share && unit.fit / room.fit <= share
    && (share == unit.weight / room.weight || share == unit.fit / room.fit)
  }

  /** One unit may be packed before another: it takes more, or as much and its variant comes no later. */
  ghost predicate MayPrecede(room: Room, rank: Rank, a: PackUnit, b: PackUnit)
    requires RoomOk(room)
  {
    forall x, y :: Takes(room, a, x) && Takes(room, b, y) ==> y < x || (x == y && rank(a.variantId) <= rank(b.variantId))
  }

  lemma PrecedesIff(room: Room, rank: Rank, a: PackUnit, b: PackUnit)
    requires RoomOk(room)
    ensures LargestFirst(room, rank)(a, b) <==> MayPrecede(room, rank, a, b)
  {
    assert Takes(room, a, Share(room, a)) && Takes(room, b, Share(room, b));
    assert forall x :: Takes(room, a, x) ==> x == Share(room, a);
    assert forall y :: Takes(room, b, y) ==> y == Share(room, b);
  }

  /** The packages are the first-fit packing of the order's units, largest first. */
  ghost predicate FirstFitPacking(rank: Rank, lines: seq<Line>, room: Room, packages: seq<Package>, units: seq<PackUnit>) {
    && RoomOk(room) && multiset(units) == multiset(Units(lines))
    && (forall i, j :: 0 <= i < j < |units| ==> MayPrecede(room, rank, units[i], units[j]))
    && PackAll(room, [], units) == Some(packages)
  }

  lemma SortsLargestFirst(rank: Rank, lines: seq<Line>, room: Room) returns (units: seq<PackUnit>)
    requires RoomOk(room)
    ensures units == Sorted(Units(lines), LargestFirst(room, rank)) && multiset(units) == multiset(Units(lines))
    ensures forall i, j :: 0 <= i < j < |units| ==> MayPrecede(room, rank, units[i], units[j])
  {
    var order := LargestFirst(room, rank);
    LargestFirstCompares(room, rank);
    units := Sorted(Units(lines), order);
    SortedLaw(Units(lines), order);
    forall i, j | 0 <= i < j < |units| ensures MayPrecede(room, rank, units[i], units[j]) {
      PrecedesIff(room, rank, units[i], units[j]);
    }
  }

  /** A package lists each variant it holds once. */
  ghost predicate ListedOnce(contents: seq<Content>) {
    && (forall i, j :: 0 <= i < j < |contents| ==> contents[i].variantId != contents[j].variantId)
    && (forall i :: 0 <= i < |contents| ==> contents[i].quantity >= 1)
  }

  lemma {:induction false} CountMembers(contents: seq<Content>, v: string)
    ensures forall c :: c in Count(contents, v) ==> c.variantId == v || c in contents
  {
    if contents != [] && contents[0].variantId != v {
      CountMembers(contents[1..], v);
    }
  }

  lemma ListedHead(head: Content, rest: seq<Content>)
    ensures ListedOnce([head] + rest) <==>
            ListedOnce(rest) && head.quantity >= 1 && forall c :: c in rest ==> c.variantId != head.variantId
  {
    var all := [head] + rest;
    if ListedOnce(all) {
      forall i | 0 <= i < |rest| ensures rest[i].quantity >= 1 && rest[i].variantId != head.variantId {
        assert all[0].variantId != all[i + 1].variantId;
      }
      forall i, j | 0 <= i < j < |rest| ensures rest[i].variantId != rest[j].variantId {
        assert all[i + 1].variantId != all[j + 1].variantId;
      }
    }
  }

  lemma {:induction false} CountListsOnce(contents: seq<Content>, v: string)
    requires ListedOnce(contents)
    ensures ListedOnce(Count(contents, v))
  {
    if contents == [] {
      assert ListedOnce([Content(v, 1)]);
    } else {
      assert contents == [contents[0]] + contents[1..];
      ListedHead(contents[0], contents[1..]);
      if contents[0].variantId == v {
        ListedHead(Content(v, contents[0].quantity + 1), contents[1..]);
      } else {
        CountListsOnce(contents[1..], v);
        CountMembers(contents[1..], v);
        ListedHead(contents[0], Count(contents[1..], v));
        assert Count(contents, v) == [contents[0]] + Count(contents[1..], v);
      }
    }
  }

  ghost predicate AllListedOnce(packages: seq<Package>) {
    forall i :: 0 <= i < |packages| ==> ListedOnce(packages[i].contents)
  }

  lemma {:induction false} PackListsOnce(room: Room, packages: seq<Package>, units: seq<PackUnit>)
    requires AllListedOnce(packages) && PackAll(room, packages, units).Some?
    ensures AllListedOnce(PackAll(room, packages, units).value)
    decreases |units|
  {
    if units != [] {
      var k := FirstFit(room, packages, units[0]);
      CountListsOnce([], units[0].variantId);
      if k < |packages| {
        CountListsOnce(packages[k].contents, units[0].variantId);
      }
      PackListsOnce(room, Place(room, packages, units[0]), units[1..]);
    }
  }

  /*** The plan ***/

  /** What these packages cost, each with its box and its ice. */
  function CostOf(load: Load, c: Packed): real {
    |c.packages| as real * (c.box.unitCost + c.fitting.ice * load.ice.price)
  }

  /** The boxes in the order their names sort: l345, m330, micro. */
  predicate NoLater(a: Tier, b: Tier) {
    a == b || a == L345 || b == Micro
  }

  /** The first costs less, or as much in fewer boxes, or as much in as many and its name comes no later. */
  predicate NoDearer(load: Load, a: Packed, b: Packed) {
    || CostOf(load, a) < CostOf(load, b)
    || (CostOf(load, a) == CostOf(load, b)
        && (|a.packages| < |b.packages| || (|a.packages| == |b.packages| && NoLater(a.box.tier, b.box.tier))))
  }

  lemma NoDearerIff(load: Load, a: Packed, b: Packed)
    ensures Cheaper(load.ice.price)(a, b) <==> NoDearer(load, a, b)
  {
    assert Cost(load.ice.price, a) == CostOf(load, a) && Cost(load.ice.price, b) == CostOf(load, b);
  }

  /** One box's way of taking the order. */
  ghost predicate Candidate(rank: Rank, load: Load, c: Packed) {
    && TakesOrder(load, c.box, c.fitting)
    && AllListedOnce(c.packages) && PacksOrder(load.lines, c.fitting.room, c.packages)
    && exists units :: FirstFitPacking(rank, load.lines, c.fitting.room, c.packages, units)
  }

  lemma PackBoxIff(rank: Rank, load: Load, box: Box)
    requires PolicyOk(load.selected.policy) && BoxOk(box)
    ensures var r := Packer(rank, load)(box);
            && (r.Some? <==> exists f :: TakesOrder(load, box, f))
            && (r.Some? ==> r.value.box == box && Candidate(rank, load, r.value))
  {
    PackBoxLaw(rank, load, box);
    TakesOrderIff(load, box);
    if CanHold(load, box) {
      CandidateIs(rank, load, box);
    }
  }

  lemma CandidateIs(rank: Rank, load: Load, box: Box)
    requires PolicyOk(load.selected.policy) && BoxOk(box) && PackBox(rank, load, box).Some?
    ensures Candidate(rank, load, PackBox(rank, load, box).value)
  {
    var c := PackBox(rank, load, box).value;
    PackBoxLaw(rank, load, box);
    TakesOrderIff(load, box);
    FittingIff(load, box, c.fitting);
    var f :| TakesOrder(load, box, f);
    FittingIff(load, box, f);
    var units := SortsLargestFirst(rank, load.lines, c.fitting.room);
    PackListsOnce(c.fitting.room, [], units);
    assert FirstFitPacking(rank, load.lines, c.fitting.room, c.packages, units);
  }

  /** Some box that can take the order would be no cheaper than the plan, and each of them is such. */
  ghost predicate NoneBeats(rank: Rank, load: Load, boxes: seq<Box>, plan: Plan) {
    forall box :: box in boxes && (exists f :: TakesOrder(load, box, f)) ==>
      exists c: Packed :: c.box == box && Candidate(rank, load, c) && NoDearer(load, plan.packed, c)
  }

  /** The plan is some box's way of taking the order, none is cheaper, and its totals are those of its packages. */
  ghost predicate RightChoice(rank: Rank, load: Load, boxes: seq<Box>, plan: Plan) {
    && plan.selected == load.selected && plan.fitRuleId == load.fitRuleId
    && plan.packed.box in boxes && Candidate(rank, load, plan.packed) && NoneBeats(rank, load, boxes, plan)
    && plan.cost == CostOf(load, plan.packed)
    && plan.dryIceLb == |plan.packed.packages| as real * plan.packed.fitting.ice
  }

  /** A plan is made exactly when some box can take the order, and it is then the right choice of box. */
  lemma ChoiceIsRight(rank: Rank, load: Load, boxes: seq<Box>)
    requires PolicyOk(load.selected.policy) && forall box :: box in boxes ==> BoxOk(box)
    ensures var r := PlanFrom(load, Results(Packer(rank, load), boxes));
            && (r.Ok? <==> exists box, f :: box in boxes && TakesOrder(load, box, f))
            && (r.Ok? ==> RightChoice(rank, load, boxes, r.value))
            && (r.Err? ==> r.error == NoApprovedBoxFits)
  {
    var packer := Packer(rank, load);
    var candidates := Results(packer, boxes);
    SomeBox(rank, load, boxes);
    forall box | box in boxes ensures CanHold(load, box) <==> exists f :: TakesOrder(load, box, f) {
      TakesOrderIff(load, box);
    }
    if candidates != [] {
      ChosenIsRight(rank, load, boxes, PlanFrom(load, candidates).value);
    }
  }

  /** What a box that can take the order leads to is no cheaper than the plan. */
  lemma NotBeaten(rank: Rank, load: Load, boxes: seq<Box>, plan: Plan, box: Box) returns (c: Packed)
    requires PolicyOk(load.selected.policy) && BoxOk(box) && box in boxes && exists f :: TakesOrder(load, box, f)
    requires PlanFrom(load, Results(Packer(rank, load), boxes)) == Ok(plan)
    ensures c.box == box && Candidate(rank, load, c) && NoDearer(load, plan.packed, c)
  {
    var packer := Packer(rank, load);
    PackBoxIff(rank, load, box);
    c := packer(box).value;
    ListedResult(packer, boxes, box, c);
    PlanFromLaw(load, Results(packer, boxes));
    NoDearerIff(load, plan.packed, c);
  }

  lemma ListedResult<T, U(!new)>(f: T -> Option<U>, items: seq<T>, item: T, result: U)
    requires item in items && f(item) == Some(result)
    ensures result in Results(f, items)
  {
    ResultsLaw(f, items);
    var k :| 0 <= k < |items| && items[k] == item;
    assert f(items[k]) == Some(result);
  }

  lemma ChosenIsCandidate(rank: Rank, load: Load, boxes: seq<Box>, plan: Plan)
    requires PolicyOk(load.selected.policy) && forall box :: box in boxes ==> BoxOk(box)
    requires PlanFrom(load, Results(Packer(rank, load), boxes)) == Ok(plan)
    ensures plan.packed.box in boxes && Candidate(rank, load, plan.packed)
  {
    var packer := Packer(rank, load);
    ResultsLaw(packer, boxes);
    PlanFromLaw(load, Results(packer, boxes));
    var i :| 0 <= i < |boxes| && packer(boxes[i]) == Some(plan.packed);
    PackBoxIff(rank, load, boxes[i]);
  }

  lemma NoneDoes(rank: Rank, load: Load, boxes: seq<Box>, plan: Plan)
    requires PolicyOk(load.selected.policy) && forall box :: box in boxes ==> BoxOk(box)
    requires PlanFrom(load, Results(Packer(rank, load), boxes)) == Ok(plan)
    ensures NoneBeats(rank, load, boxes, plan)
  {
    forall box | box in boxes && (exists f :: TakesOrder(load, box, f))
      ensures exists c: Packed :: c.box == box && Candidate(rank, load, c) && NoDearer(load, plan.packed, c)
    {
      var c := NotBeaten(rank, load, boxes, plan, box);
    }
  }

  lemma ChosenTotals(load: Load, candidates: seq<Packed>, plan: Plan)
    requires PlanFrom(load, candidates) == Ok(plan)
    ensures plan.selected == load.selected && plan.fitRuleId == load.fitRuleId && plan.cost == CostOf(load, plan.packed)
    ensures plan.dryIceLb == |plan.packed.packages| as real * plan.packed.fitting.ice
  {
  }

  lemma ChosenIsRight(rank: Rank, load: Load, boxes: seq<Box>, plan: Plan)
    requires PolicyOk(load.selected.policy) && forall box :: box in boxes ==> BoxOk(box)
    requires PlanFrom(load, Results(Packer(rank, load), boxes)) == Ok(plan)
    ensures RightChoice(rank, load, boxes, plan)
  {
    ChosenIsCandidate(rank, load, boxes, plan);
    NoneDoes(rank, load, boxes, plan);
    ChosenTotals(load, Results(Packer(rank, load), boxes), plan);
  }

  /*** The whole plan ***/

  /** The context states no exposure, or days that are the hours begun in days. */
  predicate DaysMatchHours(context: Context) {
    || (context.packingDays.None? && context.elapsedHours.None?)
    || (context.packingDays.Some? && context.elapsedHours.Some? && 1 <= context.packingDays.value
        && 24.0 * (context.packingDays.value - 1) as real < context.elapsedHours.value <= 24.0 * context.packingDays.value as real)
  }

  lemma DaysMatchIff(context: Context)
    ensures ElapsedOk(context) <==> DaysMatchHours(context)
  {
    if context.packingDays.Some? && context.elapsedHours.Some? {
      DaysFit(context.elapsedHours.value, context.packingDays.value);
      DaysFit(context.elapsedHours.value, context.packingDays.value - 1);
    }
  }

  lemma {:induction false} UnitsCounted(lines: seq<Line>)
    ensures |Units(lines)| == UnitCount(lines)
  {
    if lines != [] {
      UnitsCounted(lines[1..]);
      RepeatedLength(UnitOf(lines[0]), lines[0].quantity);
    }
  }

  lemma {:induction false} RepeatedLength(unit: PackUnit, n: nat)
    ensures |Repeated(unit, n)| == n
  {
    if n > 0 {
      RepeatedLength(unit, n - 1);
    }
  }

  /** What the planner asks of its own inputs, beside the publication and the selection. */
  predicate Asked(lines: seq<Line>, setting: Setting, context: Context, carrierMax: Field) {
    && lines != [] && setting.enabled == Some(true) && setting.continuousWeight && setting.version != ""
    && Above(0.0, setting.icePrice) && 1 <= context.transitDays && context.transitRevision != "" && DaysMatchHours(context)
    && Above(0.0, carrierMax) && |Units(lines)| <= 10_000
  }

  /** The planner's setting: every box counts, whether or not its row is active. */
  ghost predicate EveryBox(setting: Setting, all: Setting) {
    && all == setting.(boxes := all.boxes) && |all.boxes| == |setting.boxes|
    && forall i :: 0 <= i < |setting.boxes| ==> all.boxes[i] == setting.boxes[i].(active := true)
  }

  lemma {:induction false} AllAreActive(boxes: seq<BoxRow>)
    ensures |AllActive(boxes)| == |boxes|
    ensures forall i :: 0 <= i < |boxes| ==> AllActive(boxes)[i] == boxes[i].(active := true)
  {
    if boxes != [] {
      AllAreActive(boxes[1..]);
    }
  }

  lemma EveryBoxIs(setting: Setting, all: Setting)
    ensures EveryBox(setting, all) <==> all == setting.(boxes := AllActive(setting.boxes))
  {
    AllAreActive(setting.boxes);
    if EveryBox(setting, all) {
      assert all.boxes == AllActive(setting.boxes);
    }
  }

  /** What the planner packs: the order's lines, under the policy selected and the ice in force. */
  ghost predicate Loads(zone: Zone, lines: seq<Line>, fitRuleId: string, context: Context, carrierMax: Field, v: Published,
                        load: Load) {
    && load.lines == lines && load.fitRuleId == fitRuleId && context.service == Some(load.service)
    && load.ice == v.ice && carrierMax == Number(load.carrierMax)
    && Selects(zone, v.policies, Shipment(context.service, context.packedAt, context.arrivalBy, context.elapsedHours), load.selected)
  }

  lemma EarlyIff(lines: seq<Line>, setting: Setting, context: Context, carrierMax: Field)
    ensures Asked(lines, setting, context, carrierMax) <==>
            Early(lines, setting, context).None? && Positive(carrierMax) && UnitCount(lines) <= 10_000
  {
    DaysMatchIff(context);
    UnitsCounted(lines);
  }

  lemma PublishedNoOverlap(setting: Setting, now: int)
    requires Publish(setting, now).Ok?
    ensures !SomeOverlap(Publish(setting, now).value.policies)
  {
    if setting.enabled != Some(false) {
      PublishedOk(setting, now);
    }
  }

  /** The planner takes up exactly this load and these boxes. */
  lemma LoadIff(zone: Zone, lines: seq<Line>, fitRuleId: string, setting: Setting, all: Setting, context: Context,
                carrierMax: Field, now: int, load: Load, boxes: seq<Box>)
    requires Eastern(zone) && EveryBox(setting, all)
    ensures LoadFor(zone, lines, fitRuleId, setting, context, carrierMax, now) == Ok((load, boxes)) <==>
            && Asked(lines, setting, context, carrierMax) && Publish(all, now).Ok? && boxes == Publish(all, now).value.boxes
            && Loads(zone, lines, fitRuleId, context, carrierMax, Publish(all, now).value, load)
  {
    EveryBoxIs(setting, all);
    EarlyIff(lines, setting, context, carrierMax);
    if Publish(all, now).Ok? {
      PublishedNoOverlap(all, now);
      LoadOf(zone, lines, fitRuleId, context, carrierMax, Publish(all, now).value, load);
    }
  }

  lemma LoadOf(zone: Zone, lines: seq<Line>, fitRuleId: string, context: Context, carrierMax: Field, v: Published, load: Load)
    requires Eastern(zone) && !SomeOverlap(v.policies)
    ensures Loads(zone, lines, fitRuleId, context, carrierMax, v, load) <==>
            && Select(zone, v.policies, ShipmentOf(context)) == Ok(load.selected) && carrierMax.Number?
            && load == Load(lines, fitRuleId, context.service.value, load.selected, v.ice, carrierMax.value)
  {
    SelectsIff(zone, v.policies, ShipmentOf(context), load.selected);
  }

  /** The refusals name their reasons. */
  ghost predicate Refused(lines: seq<Line>, setting: Setting, context: Context, carrierMax: Field, error: PlanError) {
    && (error == NoPhysicalContents ==> lines == [])
    && (error == UnapprovedPackingPolicy ==> setting.enabled != Some(true) || !setting.continuousWeight || setting.version == "")
    && (error == InvalidIceCost ==> !Above(0.0, setting.icePrice))
    && (error == InvalidTransitContext ==> context.transitDays < 1 || context.transitRevision == "")
    && (error == InvalidElapsedContext ==> !DaysMatchHours(context))
    && (error == InvalidCarrierLimit ==> !Above(0.0, carrierMax))
    && (error == PackingUnitLimit ==> |Units(lines)| > 10_000)
  }

  lemma EarlyRefusal(lines: seq<Line>, setting: Setting, context: Context, carrierMax: Field)
    requires Early(lines, setting, context).Some?
    ensures Refused(lines, setting, context, carrierMax, Early(lines, setting, context).value)
  {
    DaysMatchIff(context);
  }

  lemma RefusedRightly(zone: Zone, rank: Rank, lines: seq<Line>, fitRuleId: string, setting: Setting, context: Context,
                       carrierMax: Field, now: int)
    requires CreatePlan(zone, rank, lines, fitRuleId, setting, context, carrierMax, now).Err?
    ensures Refused(lines, setting, context, carrierMax,
                    CreatePlan(zone, rank, lines, fitRuleId, setting, context, carrierMax, now).error)
  {
    if Early(lines, setting, context).Some? {
      EarlyRefusal(lines, setting, context, carrierMax);
    }
    UnitsCounted(lines);
  }

  /** A plan is made exactly when the inputs are as asked, the setting is published, a policy selects the shipment, and
      some published box can take the order; and it is the right choice among them. */
  ghost predicate Planned(zone: Zone, lines: seq<Line>, fitRuleId: string, setting: Setting, context: Context,
                          carrierMax: Field, v: Published, load: Load) {
    && Asked(lines, setting, context, carrierMax) && Loads(zone, lines, fitRuleId, context, carrierMax, v, load)
    && exists box, f :: box in v.boxes && TakesOrder(load, box, f)
  }

  lemma PlanIff(zone: Zone, rank: Rank, lines: seq<Line>, fitRuleId: string, setting: Setting, all: Setting,
                context: Context, carrierMax: Field, now: int)
    requires Eastern(zone) && EveryBox(setting, all)
    ensures var r := CreatePlan(zone, rank, lines, fitRuleId, setting, context, carrierMax, now);
            && (r.Ok? <==> && Publish(all, now).Ok?
                           && exists load :: Planned(zone, lines, fitRuleId, setting, context, carrierMax, Publish(all, now).value, load))
            && (r.Ok? ==> exists load :: RightChoice(rank, load, Publish(all, now).value.boxes, r.value)
                            && Planned(zone, lines, fitRuleId, setting, context, carrierMax, Publish(all, now).value, load))
  {
    EveryBoxIs(setting, all);
    var loaded := LoadFor(zone, lines, fitRuleId, setting, context, carrierMax, now);
    if loaded.Ok? {
      PlanLoaded(zone, rank, lines, fitRuleId, setting, all, context, carrierMax, now, loaded.value.0, loaded.value.1);
    }
    if Publish(all, now).Ok? {
      forall load | Planned(zone, lines, fitRuleId, setting, context, carrierMax, Publish(all, now).value, load)
        ensures loaded == Ok((load, Publish(all, now).value.boxes))
      {
        LoadIff(zone, lines, fitRuleId, setting, all, context, carrierMax, now, load, Publish(all, now).value.boxes);
      }
    }
  }

  lemma PlanLoaded(zone: Zone, rank: Rank, lines: seq<Line>, fitRuleId: string, setting: Setting, all: Setting,
                   context: Context, carrierMax: Field, now: int, load: Load, boxes: seq<Box>)
    requires Eastern(zone) && EveryBox(setting, all)
    requires LoadFor(zone, lines, fitRuleId, setting, context, carrierMax, now) == Ok((load, boxes))
    ensures var r := CreatePlan(zone, rank, lines, fitRuleId, setting, context, carrierMax, now);
            && Publish(all, now).Ok? && boxes == Publish(all, now).value.boxes
            && (r.Ok? <==> Planned(zone, lines, fitRuleId, setting, context, carrierMax, Publish(all, now).value, load))
            && (r.Ok? ==> RightChoice(rank, load, boxes, r.value))
  {
    LoadIff(zone, lines, fitRuleId, setting, all, context, carrierMax, now, load, boxes);
    LoadedSound(zone, setting, all, context, now, load);
    ChoiceIsRight(rank, load, boxes);
  }

  lemma LoadedSound(zone: Zone, setting: Setting, all: Setting, context: Context, now: int, load: Load)
    requires EveryBox(setting, all) && setting.enabled == Some(true) && Publish(all, now).Ok?
    requires load.selected.policy in Publish(all, now).value.policies
    ensures PolicyOk(load.selected.policy) && forall box :: box in Publish(all, now).value.boxes ==> BoxOk(box)
  {
    PublishedOk(all, now);
  }
}
