/** Seasonal packing policies: parsing, the publication gate, and selection for a shipment. */
module PackingPolicy {
  import opened Base
  import opened Clock
  import opened Sorting

  datatype Service = Ground | ThreeDaySelect | SecondDayAir | Overnight

  datatype Tier = Micro | M330 | L345

  datatype Rule = Rule(service: Service, tier: Tier, throughHours: real, blocks: real)

  datatype Policy = Policy(revision: string, from: int, through: int, delayHours: real, maxExposureHours: real,
                           maxGrossWeightLb: real, services: seq<Service>, tiers: seq<Tier>, rules: seq<Rule>)

  /** A content field that should hold a number. */
  datatype Field = Null | NotANumber | Number(value: real)

  datatype RuleRow = RuleRow(service: Option<Service>, tier: Option<Tier>, throughHours: Field, blocks: Field,
                             multiplier: Field)

  datatype PolicyRow = PolicyRow(active: bool, name: string, revision: string, approvedBy: string,
                                 approvalReference: string, approvedAt: Option<int>, from: Option<int>,
                                 through: Option<int>, delay: Field, maxExposure: Field, maxGross: Field,
                                 allows: set<Service>, allowsTiers: set<Tier>, rules: seq<RuleRow>)

  datatype BoxRow = BoxRow(active: bool, tier: Option<Tier>, fitRuleId: string, name: string, unitCost: Field,
                           length: Field, width: Field, height: Field, maxTotal: Field, maxFit: Field, iceFit: Field,
                           tare: Field, maxProduct: Field, maxTransitDays: Field)

  datatype Setting = Setting(enabled: Option<bool>, continuousWeight: bool, version: string, minimumIce: Field,
                             blockWeight: Field, icePrice: Field, policies: Option<seq<PolicyRow>>, boxes: seq<BoxRow>)

  datatype Code =
    | MissingSeasonalPolicies
    | MissingPolicyApproval
    | InvalidApprovalTime
    | InvalidPolicyPeriod
    | InvalidPolicyLimits
    | EmptyRestrictions
    | MissingExposureRules
    | InvalidExposureRule
    | UncoveredExposureLimit
    | ContradictoryRules
    | MissingApprovedPolicy
    | DuplicateRevision
    | OverlappingPeriods
    | UnapprovedConfiguration
    | InvalidIceInputs
    | MissingBoxes
    | InvalidBox
    | MissingRuleBox
    | NoBoxForPolicyLimit
    | MissingInstants
    | InconsistentExposure
    | CoverageGap
    | ExposureExceeded

  predicate Positive(f: Field) {
    f.Number? && f.value > 0.0
  }

  predicate NotNegative(f: Field) {
    f.Number? && f.value >= 0.0
  }

  /*** Parsing one policy ***/

  const SERVICES := [Ground, ThreeDaySelect, SecondDayAir, Overnight]
  const TIERS := [Micro, M330, L345]

  function Only<T(==,!new)>(all: seq<T>, allowed: set<T>): (r: seq<T>)
    ensures forall x :: x in r <==> x in all && x in allowed
  {
    if all == [] then []
    else (if all[0] in allowed then [all[0]] else []) + Only(all[1..], allowed)
  }

  predicate RuleRowOk(r: RuleRow, services: seq<Service>, tiers: seq<Tier>, maxExposure: real) {
    && Positive(r.throughHours) && Positive(r.blocks) && r.multiplier.Null?
    && r.service.Some? && r.service.value in services && r.tier.Some? && r.tier.value in tiers
    && r.throughHours.value <= maxExposure
  }

  function ReadRules(rows: seq<RuleRow>, services: seq<Service>, tiers: seq<Tier>, maxExposure: real): (r: Option<seq<Rule>>)
    ensures r.Some? ==> forall rule :: rule in r.value ==>
              rule.service in services && rule.tier in tiers && 0.0 < rule.throughHours <= maxExposure && 0.0 < rule.blocks
  {
    if rows == [] then Some([])
    else if !RuleRowOk(rows[0], services, tiers, maxExposure) then None
    else
      match ReadRules(rows[1..], services, tiers, maxExposure)
      case None => None
      case Some(rest) =>
        Some([Rule(rows[0].service.value, rows[0].tier.value, rows[0].throughHours.value, rows[0].blocks.value)] + rest)
  }

  /** The order of carrier codes and box names as text. */
  function ServiceRank(s: Service): int {
    match s case SecondDayAir => 0 case ThreeDaySelect => 1 case Ground => 2 case Overnight => 3
  }

  function TierRank(t: Tier): int {
    match t case L345 => 0 case M330 => 1 case Micro => 2
  }

  predicate RuleAtMost(a: Rule, b: Rule) {
    if a.service != b.service then ServiceRank(a.service) < ServiceRank(b.service)
    else if a.tier != b.tier then TierRank(a.tier) < TierRank(b.tier)
    else a.throughHours <= b.throughHours
  }

  function Group(rules: seq<Rule>, s: Service, t: Tier): seq<Rule> {
    if rules == [] then []
    else (if rules[0].service == s && rules[0].tier == t then [rules[0]] else []) + Group(rules[1..], s, t)
  }

  predicate GroupOk(group: seq<Rule>) {
    forall i :: 1 <= i < |group| ==>
      group[i].throughHours != group[i - 1].throughHours && group[i].blocks >= group[i - 1].blocks
  }

  predicate Reaches(rules: seq<Rule>, s: Service, hours: real) {
    exists i :: 0 <= i < |rules| && rules[i].service == s && rules[i].throughHours == hours
  }

  predicate GroupsOk(rules: seq<Rule>, s: Service, tiers: seq<Tier>) {
    forall t :: t in tiers ==> GroupOk(Group(rules, s, t))
  }

  function ServicesError(services: seq<Service>, tiers: seq<Tier>, rules: seq<Rule>, maxExposure: real): Option<Code> {
    if services == [] then None
    else if !Reaches(rules, services[0], maxExposure) then Some(UncoveredExposureLimit)
    else if !GroupsOk(rules, services[0], tiers) then Some(ContradictoryRules)
    else ServicesError(services[1..], tiers, rules, maxExposure)
  }

  /** Approval, period and limits. */
  function TermsError(row: PolicyRow, now: int): Option<Code> {
    if row.name == "" || row.revision == "" || row.approvedBy == "" || row.approvalReference == "" then
      Some(MissingPolicyApproval)
    else if row.approvedAt.None? || row.approvedAt.value > now then Some(InvalidApprovalTime)
    else if row.from.None? || row.through.None? || row.from.value > row.through.value then Some(InvalidPolicyPeriod)
    else if !NotNegative(row.delay) || !Positive(row.maxExposure) || !Positive(row.maxGross)
            || row.delay.value >= row.maxExposure.value then Some(InvalidPolicyLimits)
    else None
  }

  function RulesOf(rows: seq<RuleRow>, services: seq<Service>, tiers: seq<Tier>, maxExposure: real): Result<seq<Rule>, Code> {
    if services == [] || tiers == [] then Err(EmptyRestrictions)
    else if rows == [] then Err(MissingExposureRules)
    else
      match ReadRules(rows, services, tiers, maxExposure)
      case None => Err(InvalidExposureRule)
      case Some(read) =>
        match ServicesError(services, tiers, Sorted(read, RuleAtMost), maxExposure)
        case Some(code) => Err(code)
        case None => Ok(Sorted(read, RuleAtMost))
  }

  function ParsePolicy(row: PolicyRow, now: int): Result<Policy, Code> {
    match TermsError(row, now)
    case Some(code) => Err(code)
    case None =>
      var services, tiers := Only(SERVICES, row.allows), Only(TIERS, row.allowsTiers);
      match RulesOf(row.rules, services, tiers, row.maxExposure.value)
      case Err(code) => Err(code)
      case Ok(rules) => Ok(Policy(row.revision, row.from.value, row.through.value, row.delay.value,
                                  row.maxExposure.value, row.maxGross.value, services, tiers, rules))
  }

  /*** Parsing the list ***/

  function ParseRows(rows: seq<PolicyRow>, now: int): Result<seq<Policy>, Code> {
    if rows == [] then Ok([])
    else if !rows[0].active then ParseRows(rows[1..], now)
    else
      match ParsePolicy(rows[0], now)
      case Err(code) => Err(code)
      case Ok(p) =>
        match ParseRows(rows[1..], now)
        case Err(code) => Err(code)
        case Ok(rest) => Ok([p] + rest)
  }

  predicate Overlap(a: Policy, b: Policy) {
    (exists s :: s in a.services && s in b.services) && a.from <= b.through && b.from <= a.through
  }

  predicate SomeRepeat(policies: seq<Policy>) {
    exists i, j :: 0 <= i < j < |policies| && policies[i].revision == policies[j].revision
  }

  predicate SomeOverlap(policies: seq<Policy>) {
    exists i, j :: 0 <= i < j < |policies| && Overlap(policies[i], policies[j])
  }

  function Parse(input: Option<seq<PolicyRow>>, now: int): Result<seq<Policy>, Code> {
    if input.None? then Err(MissingSeasonalPolicies)
    else
      match ParseRows(input.value, now)
      case Err(code) => Err(code)
      case Ok(policies) =>
        if policies == [] then Err(MissingApprovedPolicy)
        else if SomeRepeat(policies) then Err(DuplicateRevision)
        else if SomeOverlap(policies) then Err(OverlappingPeriods)
        else Ok(policies)
  }

  /** The pairwise period check of `parseSeasonalPackingPolicies`. */
  method PeriodsOverlap(policies: seq<Policy>) returns (r: bool)
    ensures r <==> SomeOverlap(policies)
  {
    for i := 0 to |policies|
      invariant forall a, b :: 0 <= a < i && a < b < |policies| ==> !Overlap(policies[a], policies[b])
    {
      for j := i + 1 to |policies|
        invariant forall b :: i < b < j ==> !Overlap(policies[i], policies[b])
      {
        if Overlap(policies[i], policies[j]) { return true; }
      }
    }
    return false;
  }

  /*** Rules at an exposure ***/

  /** `selectPackingExposureRule`: the first rule of the box and service that lasts long enough. */
  function SelectRule(rules: seq<Rule>, s: Service, t: Tier, exposure: real): (r: Option<Rule>)
    ensures r.Some? ==> r.value in rules && r.value.service == s && r.value.tier == t && r.value.throughHours >= exposure
  {
    if rules == [] then None
    else if rules[0].service == s && rules[0].tier == t && rules[0].throughHours >= exposure then Some(rules[0])
    else SelectRule(rules[1..], s, t, exposure)
  }

  /*** The publication gate ***/

  datatype Box = Box(tier: Tier, fitRuleId: string, name: string, unitCost: real, length: real, width: real,
                     height: real, maxTotal: real, maxFit: real, iceFit: real, tare: real, maxProduct: Option<real>,
                     maxTransitDays: Option<real>)

  predicate Whole(x: real) {
    x.Floor as real == x
  }

  predicate BoxRowOk(b: BoxRow) {
    && b.tier.Some? && b.fitRuleId != "" && b.name != ""
    && Positive(b.unitCost) && Positive(b.length) && Positive(b.width) && Positive(b.height)
    && Positive(b.maxTotal) && Positive(b.maxFit) && Positive(b.iceFit)
    && NotNegative(b.tare) && b.tare.value < b.maxTotal.value
    && (b.maxProduct.Null? || Positive(b.maxProduct))
    && (b.maxTransitDays.Null? || (Positive(b.maxTransitDays) && Whole(b.maxTransitDays.value)))
  }

  function ReadBox(b: BoxRow): (r: Box)
    requires BoxRowOk(b)
  {
    Box(b.tier.value, b.fitRuleId, b.name, b.unitCost.value, b.length.value, b.width.value, b.height.value,
        b.maxTotal.value, b.maxFit.value, b.iceFit.value, b.tare.value,
        if b.maxProduct.Null? then None else Some(b.maxProduct.value),
        if b.maxTransitDays.Null? then None else Some(b.maxTransitDays.value))
  }

  predicate HasTier(boxes: seq<Box>, t: Tier) {
    exists i :: 0 <= i < |boxes| && boxes[i].tier == t
  }

  function ActiveRows(boxes: seq<BoxRow>): seq<BoxRow> {
    if boxes == [] then [] else (if boxes[0].active then [boxes[0]] else []) + ActiveRows(boxes[1..])
  }

  /** The boxes read so far are `seen`; every further row must be sound and of a new tier. */
  function ReadBoxes(seen: seq<Box>, rows: seq<BoxRow>): Option<seq<Box>>
    decreases |rows|
  {
    if rows == [] then Some(seen)
    else if !BoxRowOk(rows[0]) || HasTier(seen, rows[0].tier.value) then None
    else ReadBoxes(seen + [ReadBox(rows[0])], rows[1..])
  }

  /** Dry ice inputs: the minimum in a box, and the weight of a block. */
  datatype Ice = Ice(minimum: real, blockWeight: real, price: real)

  function IceFor(ice: Ice, rule: Rule): real {
    MaxReal(ice.minimum, ice.blockWeight * rule.blocks)
  }

  function WholeDays(hours: real): int {
    -((-hours / 24.0).Floor)
  }

  predicate LastsDays(b: Box, hours: real) {
    b.maxTransitDays.None? || b.maxTransitDays.value >= WholeDays(hours) as real
  }

  /** The box can travel the policy's full exposure with its ice and still has room. */
  predicate Covers(ice: Ice, p: Policy, s: Service, b: Box) {
    var rule := SelectRule(p.rules, s, b.tier, p.maxExposureHours);
    rule.Some? && HasRoom(ice, p, b, rule.value) && LastsDays(b, p.maxExposureHours)
  }

  predicate HasRoom(ice: Ice, p: Policy, b: Box, rule: Rule) {
    && MinReal(b.maxTotal, p.maxGrossWeightLb) > IceFor(ice, rule) + b.tare
    && b.maxFit > IceFor(ice, rule) * b.iceFit
  }

  predicate SomeCovers(ice: Ice, p: Policy, s: Service, boxes: seq<Box>) {
    exists i :: 0 <= i < |boxes| && Covers(ice, p, s, boxes[i])
  }

  predicate RulesBoxed(p: Policy, boxes: seq<Box>) {
    forall i :: 0 <= i < |p.rules| ==> HasTier(boxes, p.rules[i].tier)
  }

  function PolicyBoxError(ice: Ice, p: Policy, boxes: seq<Box>): Option<Code> {
    if !RulesBoxed(p, boxes) then Some(MissingRuleBox)
    else if exists s :: s in p.services && !SomeCovers(ice, p, s, boxes) then Some(NoBoxForPolicyLimit)
    else None
  }

  function GateError(ice: Ice, policies: seq<Policy>, boxes: seq<Box>): Option<Code> {
    if policies == [] then None
    else
      match PolicyBoxError(ice, policies[0], boxes)
      case Some(code) => Some(code)
      case None => GateError(ice, policies[1..], boxes)
  }

  /** What a passed gate leaves: the policies, the boxes and the ice inputs in force. */
  datatype Published = Published(policies: seq<Policy>, boxes: seq<Box>, ice: Ice)

  function Publish(setting: Setting, now: int): Result<Published, Code> {
    if setting.enabled == Some(false) then Ok(Published([], [], Ice(0.0, 0.0, 0.0)))
    else if setting.enabled != Some(true) || !setting.continuousWeight || setting.version == "" then
      Err(UnapprovedConfiguration)
    else if !Positive(setting.minimumIce) || !Positive(setting.blockWeight) || !Positive(setting.icePrice) then
      Err(InvalidIceInputs)
    else
      match Parse(setting.policies, now)
      case Err(code) => Err(code)
      case Ok(policies) =>
        var ice := Ice(setting.minimumIce.value, setting.blockWeight.value, setting.icePrice.value);
        if ActiveRows(setting.boxes) == [] then Err(MissingBoxes)
        else
          match ReadBoxes([], ActiveRows(setting.boxes))
          case None => Err(InvalidBox)
          case Some(boxes) =>
            match GateError(ice, policies, boxes)
            case Some(code) => Err(code)
            case None => Ok(Published(policies, boxes, ice))
  }

  /** The gate's loop over boxes, growing the set of tiers seen. */
  method CheckBoxes(rows: seq<BoxRow>) returns (r: Option<seq<Box>>)
    ensures r == ReadBoxes([], rows)
  {
    var tiers: set<Tier> := {};
    var boxes: seq<Box> := [];
    for i := 0 to |rows|
      invariant forall t :: t in tiers <==> HasTier(boxes, t)
      invariant ReadBoxes([], rows) == ReadBoxes(boxes, rows[i..])
    {
      var row := rows[i];
      if !BoxRowOk(row) || row.tier.value in tiers { return None; }
      var box := ReadBox(row);
      assert forall t :: HasTier(boxes + [box], t) <==> HasTier(boxes, t) || t == box.tier by {
        assert (boxes + [box])[|boxes|] == box;
        forall t | HasTier(boxes, t) ensures HasTier(boxes + [box], t) {
          var k :| 0 <= k < |boxes| && boxes[k].tier == t;
          assert (boxes + [box])[k].tier == t;
        }
      }
      assert rows[i..][1..] == rows[i + 1..];
      tiers := tiers + {row.tier.value};
      boxes := boxes + [box];
    }
    return Some(boxes);
  }

  method CheckPolicies(ice: Ice, policies: seq<Policy>, boxes: seq<Box>) returns (r: Option<Code>)
    ensures r == GateError(ice, policies, boxes)
  {
    for i := 0 to |policies|
      invariant GateError(ice, policies, boxes) == GateError(ice, policies[i..], boxes)
    {
      var error := PolicyBoxError(ice, policies[i], boxes);
      assert policies[i..][1..] == policies[i + 1..];
      if error.Some? { return error; }
    }
    return None;
  }

  method ValidatePackingPublication(setting: Setting, now: int) returns (r: Result<Published, Code>)
    ensures r == Publish(setting, now)
  {
    if setting.enabled == Some(false) { return Ok(Published([], [], Ice(0.0, 0.0, 0.0))); }
    if setting.enabled != Some(true) || !setting.continuousWeight || setting.version == "" {
      return Err(UnapprovedConfiguration);
    }
    if !Positive(setting.minimumIce) || !Positive(setting.blockWeight) || !Positive(setting.icePrice) {
      return Err(InvalidIceInputs);
    }
    var policies := Parse(setting.policies, now);
    if policies.Err? { return Err(policies.error); }
    var ice := Ice(setting.minimumIce.value, setting.blockWeight.value, setting.icePrice.value);
    var rows := ActiveRows(setting.boxes);
    if rows == [] { return Err(MissingBoxes); }
    var boxes := CheckBoxes(rows);
    if boxes.None? { return Err(InvalidBox); }
    var error := CheckPolicies(ice, policies.value, boxes.value);
    if error.Some? { return Err(error.value); }
    return Ok(Published(policies.value, boxes.value, ice));
  }

  /*** Selection for a shipment ***/

  datatype Shipment = Shipment(service: Option<Service>, packedAt: Option<int>, arrivalBy: Option<int>,
                               elapsedHours: Option<real>)

  datatype Selected = Selected(policy: Policy, exposureHours: real, elapsedHours: real, packedAt: int, arrivalBy: int)

  predicate Applies(p: Policy, s: Option<Service>, from: int, through: int) {
    s.Some? && s.value in p.services && p.from <= from && p.through >= through
  }

  function Applicable(policies: seq<Policy>, s: Option<Service>, from: int, through: int): (r: seq<Policy>)
    ensures r != [] ==> s.Some?
  {
    if policies == [] then []
    else (if Applies(policies[0], s, from, through) then [policies[0]] else []) + Applicable(policies[1..], s, from, through)
  }

  function Hours(from: int, to: int): real {
    (to - from) as real / 3_600_000.0
  }

  function AbsReal(x: real): real {
    if x < 0.0 then -x else x
  }

  const HOURS_TOLERANCE := 0.000_001

  predicate WithinLimits(zone: Zone, p: Policy, packedAt: int, arrivalBy: int) {
    && Hours(packedAt, arrivalBy) + p.delayHours <= p.maxExposureHours
    && EasternDate(zone, (arrivalBy as real + p.delayHours * 3_600_000.0).Floor) <= p.through
  }

  function Select(zone: Zone, policies: seq<Policy>, shipment: Shipment): (r: Result<Selected, Code>)
    ensures r.Ok? ==> shipment.service.Some?
  {
    if shipment.packedAt.None? || shipment.arrivalBy.None? then Err(MissingInstants)
    else
      var packedAt, arrivalBy := shipment.packedAt.value, shipment.arrivalBy.value;
      var elapsed := Hours(packedAt, arrivalBy);
      if elapsed <= 0.0 || shipment.elapsedHours.None?
         || AbsReal(elapsed - shipment.elapsedHours.value) > HOURS_TOLERANCE then Err(InconsistentExposure)
      else
        var found := Applicable(policies, shipment.service, EasternDate(zone, packedAt), EasternDate(zone, arrivalBy));
        if |found| != 1 then Err(CoverageGap)
        else if !WithinLimits(zone, found[0], packedAt, arrivalBy) then Err(ExposureExceeded)
        else Ok(Selected(found[0], elapsed + found[0].delayHours, elapsed, packedAt, arrivalBy))
  }
}
