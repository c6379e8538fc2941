/** What a parsed policy list and a passed publication gate guarantee to every shipment. */
module PackingPolicyLaws {
  import opened Base
  import opened Clock
  import opened Sorting
  import opened PackingPolicy

  lemma RulesCompare()
    ensures TotalPreorder(RuleAtMost)
  {
  }

  /*** The rungs of one service and box ***/

  lemma {:induction false} GroupLaw(rules: seq<Rule>, s: Service, t: Tier)
    ensures forall rule :: rule in Group(rules, s, t) <==> rule in rules && rule.service == s && rule.tier == t
  {
    if rules != [] {
      GroupLaw(rules[1..], s, t);
      assert rules == [rules[0]] + rules[1..];
    }
  }

  lemma {:induction false} GroupOrdered(rules: seq<Rule>, s: Service, t: Tier)
    requires Ordered(rules, RuleAtMost)
    ensures Ordered(Group(rules, s, t), RuleAtMost)
  {
    if rules != [] {
      var rest := Group(rules[1..], s, t);
      GroupOrdered(rules[1..], s, t);
      GroupLaw(rules[1..], s, t);
      forall i | 0 <= i < |rest| ensures RuleAtMost(rules[0], rest[i]) {
        assert rest[i] in rules[1..];
        var k :| 0 <= k < |rules[1..]| && rules[1..][k] == rest[i];
        assert rules[k + 1] == rest[i];
      }
    }
  }

  function FirstReaching(group: seq<Rule>, exposure: real): Option<Rule> {
    if group == [] then None
    else if group[0].throughHours >= exposure then Some(group[0])
    else FirstReaching(group[1..], exposure)
  }

  lemma {:induction false} SelectsInGroup(rules: seq<Rule>, s: Service, t: Tier, exposure: real)
    ensures SelectRule(rules, s, t, exposure) == FirstReaching(Group(rules, s, t), exposure)
  {
    if rules != [] {
      SelectsInGroup(rules[1..], s, t, exposure);
      var rest := Group(rules[1..], s, t);
      assert ([rules[0]] + rest)[1..] == rest;
      assert [] + rest == rest;
    }
  }

  /** Longer rungs last strictly longer and carry no less ice. */
  ghost predicate Rising(group: seq<Rule>) {
    forall i, j :: 0 <= i < j < |group| ==> group[i].throughHours < group[j].throughHours && group[i].blocks <= group[j].blocks
  }

  lemma {:induction false} RungsRise(group: seq<Rule>, s: Service, t: Tier)
    requires Ordered(group, RuleAtMost) && GroupOk(group)
    requires forall i :: 0 <= i < |group| ==> group[i].service == s && group[i].tier == t
    ensures Rising(group)
  {
    if group != [] {
      var n := |group| - 1;
      RungsRise(group[..n], s, t);
      forall i | 0 <= i < n ensures group[i].throughHours < group[n].throughHours && group[i].blocks <= group[n].blocks {
        assert RuleAtMost(group[n - 1], group[n]);
        if i < n - 1 {
          assert group[..n][i].throughHours < group[..n][n - 1].throughHours;
        }
      }
      forall i, j | 0 <= i < j < |group|
        ensures group[i].throughHours < group[j].throughHours && group[i].blocks <= group[j].blocks
      {
        if j < n {
          assert group[..n][i].throughHours < group[..n][j].throughHours;
        }
      }
    }
  }

  lemma {:induction false} FirstReachingLaw(group: seq<Rule>, exposure: real)
    requires Rising(group)
    ensures var r := FirstReaching(group, exposure);
            && (r.None? ==> forall i :: 0 <= i < |group| ==> group[i].throughHours < exposure)
            && (r.Some? ==> r.value in group && r.value.throughHours >= exposure)
            && (r.Some? ==> forall i :: 0 <= i < |group| && group[i].throughHours >= exposure ==>
                  r.value.throughHours <= group[i].throughHours && r.value.blocks <= group[i].blocks)
  {
    if group != [] && group[0].throughHours < exposure {
      FirstReachingLaw(group[1..], exposure);
      assert forall i :: 0 < i < |group| ==> group[i] == group[1..][i - 1];
    }
  }

  /*** A parsed policy ***/

  ghost predicate PolicyOk(p: Policy) {
    && p.from <= p.through && 0.0 <= p.delayHours < p.maxExposureHours && 0.0 < p.maxGrossWeightLb
    && p.services != [] && p.tiers != [] && RulesOk(p.rules, p.services, p.tiers, p.maxExposureHours)
  }

  ghost predicate RulesOk(rules: seq<Rule>, services: seq<Service>, tiers: seq<Tier>, maxExposure: real) {
    && Ordered(rules, RuleAtMost)
    && (forall s :: s in services ==> Reaches(rules, s, maxExposure) && GroupsOk(rules, s, tiers))
    && (forall rule :: rule in rules ==>
          rule.service in services && rule.tier in tiers && 0.0 < rule.throughHours <= maxExposure && 0.0 < rule.blocks)
  }

  lemma {:induction false} ServicesErrorLaw(services: seq<Service>, tiers: seq<Tier>, rules: seq<Rule>, maxExposure: real)
    ensures ServicesError(services, tiers, rules, maxExposure).None? <==>
            forall s :: s in services ==> Reaches(rules, s, maxExposure) && GroupsOk(rules, s, tiers)
  {
    if services != [] {
      ServicesErrorLaw(services[1..], tiers, rules, maxExposure);
      assert services == [services[0]] + services[1..];
    }
  }

  lemma ParsedRulesOk(rows: seq<RuleRow>, services: seq<Service>, tiers: seq<Tier>, maxExposure: real)
    requires RulesOf(rows, services, tiers, maxExposure).Ok?
    ensures services != [] && tiers != [] && RulesOk(RulesOf(rows, services, tiers, maxExposure).value, services, tiers, maxExposure)
  {
    var read := ReadRules(rows, services, tiers, maxExposure).value;
    RulesCompare();
    SortedLaw(read, RuleAtMost);
    SortedMembers(read, RuleAtMost);
    ServicesErrorLaw(services, tiers, Sorted(read, RuleAtMost), maxExposure);
  }

  lemma ParsedPolicyOk(row: PolicyRow, now: int)
    requires ParsePolicy(row, now).Ok?
    ensures PolicyOk(ParsePolicy(row, now).value)
  {
    var p := ParsePolicy(row, now).value;
    ParsedTerms(row, now, p);
    ParsedRulesOk(row.rules, p.services, p.tiers, row.maxExposure.value);
  }

  lemma TermsHold(row: PolicyRow, now: int)
    requires TermsError(row, now).None?
    ensures row.from.Some? && row.through.Some? && row.from.value <= row.through.value
    ensures row.delay.Number? && row.maxExposure.Number? && 0.0 <= row.delay.value < row.maxExposure.value
    ensures row.maxGross.Number? && 0.0 < row.maxGross.value
  {
  }

  lemma ParsedTerms(row: PolicyRow, now: int, p: Policy)
    requires ParsePolicy(row, now) == Ok(p)
    ensures p.from <= p.through && 0.0 <= p.delayHours < p.maxExposureHours && 0.0 < p.maxGrossWeightLb
    ensures row.maxExposure == Number(p.maxExposureHours)
    ensures RulesOf(row.rules, p.services, p.tiers, row.maxExposure.value) == Ok(p.rules)
  {
    TermsHold(row, now);
  }

  lemma {:induction false} ParsedRowsOk(rows: seq<PolicyRow>, now: int)
    requires ParseRows(rows, now).Ok?
    ensures forall p :: p in ParseRows(rows, now).value ==> PolicyOk(p)
  {
    if rows != [] {
      ParsedRowsOk(rows[1..], now);
      if rows[0].active {
        ParsedPolicyOk(rows[0], now);
      }
    }
  }

  /** What a successful parse promises of the whole list. */
  lemma ParsedListOk(input: Option<seq<PolicyRow>>, now: int)
    requires Parse(input, now).Ok?
    ensures var ps := Parse(input, now).value;
            && ps != [] && !SomeRepeat(ps) && !SomeOverlap(ps) && forall p :: p in ps ==> PolicyOk(p)
  {
    ParsedRowsOk(input.value, now);
  }

  lemma GroupRises(p: Policy, s: Service, t: Tier)
    requires PolicyOk(p)
    ensures Rising(Group(p.rules, s, t))
  {
    GroupIsOk(p.rules, p.services, p.tiers, p.maxExposureHours, s, t);
    OkGroupRises(p.rules, s, t);
  }

  /** A service and box that have rules are among the policy's, so their rungs were checked. */
  lemma GroupIsOk(rules: seq<Rule>, services: seq<Service>, tiers: seq<Tier>, maxExposure: real, s: Service, t: Tier)
    requires RulesOk(rules, services, tiers, maxExposure)
    ensures GroupOk(Group(rules, s, t))
  {
    var group := Group(rules, s, t);
    GroupLaw(rules, s, t);
    if group != [] {
      var rule := group[0];
      assert rule in group;
      assert rule in rules && rule.service == s && rule.tier == t;
    }
  }

  lemma OkGroupRises(rules: seq<Rule>, s: Service, t: Tier)
    requires Ordered(rules, RuleAtMost) && GroupOk(Group(rules, s, t))
    ensures Rising(Group(rules, s, t))
  {
    var group := Group(rules, s, t);
    GroupOrdered(rules, s, t);
    GroupLaw(rules, s, t);
    forall i | 0 <= i < |group| ensures group[i].service == s && group[i].tier == t {
      assert group[i] in group;
    }
    RungsRise(group, s, t);
  }

  predicate Lasts(rule: Rule, s: Service, t: Tier, exposure: real) {
    rule.service == s && rule.tier == t && rule.throughHours >= exposure
  }

  /** The rule chosen is the shortest that lasts long enough, and there is none only when no rule does. */
  lemma SelectsShortest(p: Policy, s: Service, t: Tier, exposure: real)
    requires PolicyOk(p)
    ensures var r := SelectRule(p.rules, s, t, exposure);
            && (r.Some? ==> r.value in p.rules && Lasts(r.value, s, t, exposure))
            && (r.None? ==> forall rule :: rule in p.rules ==> !Lasts(rule, s, t, exposure))
            && (r.Some? ==> forall rule :: rule in p.rules && Lasts(rule, s, t, exposure) ==>
                  r.value.throughHours <= rule.throughHours && r.value.blocks <= rule.blocks)
  {
    var r, group := SelectRule(p.rules, s, t, exposure), Group(p.rules, s, t);
    GroupRises(p, s, t);
    SelectsInGroup(p.rules, s, t, exposure);
    FirstReachingLaw(group, exposure);
    forall rule | rule in p.rules && Lasts(rule, s, t, exposure)
      ensures r.Some? && r.value.throughHours <= rule.throughHours && r.value.blocks <= rule.blocks
    {
      GroupLaw(p.rules, s, t);
      var i :| 0 <= i < |group| && group[i] == rule;
    }
  }

  /** Longer exposure never means less ice: the blocks chosen for a service and box do not decrease. */
  lemma BlocksNeverDecrease(p: Policy, s: Service, t: Tier, shorter: real, longer: real)
    requires PolicyOk(p) && shorter <= longer && SelectRule(p.rules, s, t, longer).Some?
    ensures var a, b := SelectRule(p.rules, s, t, shorter), SelectRule(p.rules, s, t, longer);
            a.Some? && a.value.throughHours <= b.value.throughHours && a.value.blocks <= b.value.blocks
  {
    SelectsShortest(p, s, t, shorter);
    var b := SelectRule(p.rules, s, t, longer).value;
    assert b in p.rules && Lasts(b, s, t, shorter);
  }

  /*** Selection ***/

  lemma {:induction false} ApplicableLaw(policies: seq<Policy>, s: Option<Service>, from: int, through: int)
    ensures forall p :: p in Applicable(policies, s, from, through) <==> p in policies && Applies(p, s, from, through)
    ensures |Applicable(policies, s, from, through)| <= |policies|
  {
    if policies != [] {
      ApplicableLaw(policies[1..], s, from, through);
      assert policies == [policies[0]] + policies[1..];
    }
  }

  /** Policies that do not overlap leave at most one for a service and a span of dates. */
  lemma {:induction false} AtMostOneApplies(policies: seq<Policy>, s: Option<Service>, from: int, through: int)
    requires !SomeOverlap(policies) && from <= through
    ensures |Applicable(policies, s, from, through)| <= 1
  {
    if policies != [] {
      forall i, j | 0 <= i < j < |policies[1..]| ensures !Overlap(policies[1..][i], policies[1..][j]) {
        assert !Overlap(policies[i + 1], policies[j + 1]);
      }
      AtMostOneApplies(policies[1..], s, from, through);
      ApplicableLaw(policies[1..], s, from, through);
      var rest := Applicable(policies[1..], s, from, through);
      if Applies(policies[0], s, from, through) && rest != [] {
        assert rest[0] in rest;
        var k :| 0 <= k < |policies[1..]| && policies[1..][k] == rest[0];
        assert Overlap(policies[0], policies[k + 1]) by {
          assert s.value in policies[0].services && s.value in policies[k + 1].services;
        }
      }
    }
  }

  /** Selection accepts a shipment exactly when one policy covers its service, its whole span of dates and its
      exposure with the delay allowance, the delayed arrival included; and it is that policy. */
  lemma SelectIff(zone: Zone, policies: seq<Policy>, service: Option<Service>, packedAt: int, arrivalBy: int, p: Policy)
    requires Eastern(zone) && !SomeOverlap(policies) && packedAt < arrivalBy
    ensures var r := Select(zone, policies, Shipment(service, Some(packedAt), Some(arrivalBy), Some(Hours(packedAt, arrivalBy))));
            r.Ok? && r.value.policy == p <==>
              && p in policies && Applies(p, service, EasternDate(zone, packedAt), EasternDate(zone, arrivalBy))
              && WithinLimits(zone, p, packedAt, arrivalBy)
  {
    var from, through := EasternDate(zone, packedAt), EasternDate(zone, arrivalBy);
    assert from <= through;
    AtMostOneApplies(policies, service, from, through);
    ApplicableLaw(policies, service, from, through);
    var found := Applicable(policies, service, from, through);
    if |found| == 1 {
      assert found[0] in found;
      assert p in found ==> p == found[0];
    }
    HoursPositive(packedAt, arrivalBy);
  }

  lemma HoursPositive(from: int, to: int)
    ensures from < to <==> Hours(from, to) > 0.0
  {
  }

  /** An accepted selection stays within the exposure its policy allows. */
  lemma SelectionWithin(zone: Zone, policies: seq<Policy>, shipment: Shipment)
    requires Select(zone, policies, shipment).Ok?
    ensures var r := Select(zone, policies, shipment).value;
            && r.policy in policies && shipment.service.Some? && shipment.service.value in r.policy.services
            && r.exposureHours <= r.policy.maxExposureHours
            && r.exposureHours == r.elapsedHours + r.policy.delayHours && 0.0 < r.elapsedHours
  {
    var found := Applicable(policies, shipment.service, EasternDate(zone, shipment.packedAt.value),
                            EasternDate(zone, shipment.arrivalBy.value));
    ApplicableLaw(policies, shipment.service, EasternDate(zone, shipment.packedAt.value),
                  EasternDate(zone, shipment.arrivalBy.value));
    assert found[0] in found;
  }

  /*** The gate ***/

  lemma {:induction false} ReadBoxesLaw(seen: seq<Box>, rows: seq<BoxRow>)
    requires ReadBoxes(seen, rows).Some?
    requires forall b :: b in seen ==> BoxOk(b)
    requires forall i, j :: 0 <= i < j < |seen| ==> seen[i].tier != seen[j].tier
    ensures var boxes := ReadBoxes(seen, rows).value;
            && (forall b :: b in boxes ==> BoxOk(b))
            && (forall i, j :: 0 <= i < j < |boxes| ==> boxes[i].tier != boxes[j].tier)
    decreases |rows|
  {
    if rows != [] {
      ReadBoxesLaw(seen + [ReadBox(rows[0])], rows[1..]);
    }
  }

  ghost predicate BoxOk(b: Box) {
    && 0.0 < b.unitCost && 0.0 < b.length && 0.0 < b.width && 0.0 < b.height && 0.0 < b.maxTotal && 0.0 < b.maxFit
    && 0.0 < b.iceFit && 0.0 <= b.tare < b.maxTotal && (b.maxProduct.Some? ==> 0.0 < b.maxProduct.value)
    && (b.maxTransitDays.Some? ==> Whole(b.maxTransitDays.value)) && b.fitRuleId != ""
  }

  lemma {:induction false} GateLaw(ice: Ice, policies: seq<Policy>, boxes: seq<Box>, p: Policy, s: Service)
    requires GateError(ice, policies, boxes).None? && p in policies && s in p.services
    ensures RulesBoxed(p, boxes) && SomeCovers(ice, p, s, boxes)
  {
    if p != policies[0] {
      GateLaw(ice, policies[1..], boxes, p, s);
    }
  }

  /** A published setting: sound boxes of distinct tiers, sound policies that do not overlap, and for every policy
      and service a box that covers the policy's longest exposure. */
  lemma PublishedOk(setting: Setting, now: int)
    requires Publish(setting, now).Ok? && setting.enabled != Some(false)
    ensures var v := Publish(setting, now).value;
            && 0.0 < v.ice.minimum && 0.0 < v.ice.blockWeight
            && (forall b :: b in v.boxes ==> BoxOk(b))
            && (forall i, j :: 0 <= i < j < |v.boxes| ==> v.boxes[i].tier != v.boxes[j].tier)
            && v.policies != [] && !SomeOverlap(v.policies) && (forall p :: p in v.policies ==> PolicyOk(p))
            && forall p, s :: p in v.policies && s in p.services ==> SomeCovers(v.ice, p, s, v.boxes)
  {
    var v := Publish(setting, now).value;
    ParsedListOk(setting.policies, now);
    ReadBoxesLaw([], ActiveRows(setting.boxes));
    forall p, s | p in v.policies && s in p.services ensures SomeCovers(v.ice, p, s, v.boxes) {
      GateLaw(v.ice, v.policies, v.boxes, p, s);
    }
  }

  /** The rule that lasts an exposure, and the shortest that does. */
  ghost predicate Shortest(p: Policy, s: Service, t: Tier, exposure: real, rule: Rule) {
    && rule in p.rules && Lasts(rule, s, t, exposure)
    && forall other :: other in p.rules && Lasts(other, s, t, exposure) ==> rule.throughHours <= other.throughHours
  }

  /** The box has room beside this much ice, under its own gross limit and the policy's. */
  predicate RoomBesideIce(p: Policy, b: Box, amount: real) {
    amount + b.tare < b.maxTotal && amount + b.tare < p.maxGrossWeightLb && amount * b.iceFit < b.maxFit
  }

  /** Under this rule the box has room beside the minimum of ice and beside the rule's blocks. */
  ghost predicate ServesBy(ice: Ice, p: Policy, s: Service, b: Box, exposure: real, rule: Rule) {
    && Shortest(p, s, b.tier, exposure, rule)
    && RoomBesideIce(p, b, ice.minimum) && RoomBesideIce(p, b, ice.blockWeight * rule.blocks)
  }

  /** The box serves the exposure: it may travel that long, and has room beside all the ice it must carry. */
  ghost predicate Serves(ice: Ice, p: Policy, s: Service, b: Box, exposure: real) {
    && b.tier in p.tiers && (b.maxTransitDays.Some? ==> exposure <= 24.0 * b.maxTransitDays.value)
    && exists rule :: ServesBy(ice, p, s, b, exposure, rule)
  }

  lemma Scaled(k: real, a: real, b: real)
    requires a <= b && 0.0 < k
    ensures k * a <= k * b && a * k <= b * k
  {
  }

  lemma FitBeside(m: real, w: real, k: real, limit: real)
    requires 0.0 < k
    ensures limit > MaxReal(m, w) * k <==> m * k < limit && w * k < limit
  {
    if m < w { Scaled(k, m, w); } else { Scaled(k, w, m); }
  }

  /** Room beside the ice of a rule is room beside the minimum and beside the rule's blocks. */
  lemma RoomBesideBoth(ice: Ice, p: Policy, b: Box, rule: Rule)
    requires 0.0 < b.iceFit
    ensures HasRoom(ice, p, b, rule) <==>
            RoomBesideIce(p, b, ice.minimum) && RoomBesideIce(p, b, ice.blockWeight * rule.blocks)
  {
    FitBeside(ice.minimum, ice.blockWeight * rule.blocks, b.iceFit, b.maxFit);
  }

  lemma FloorAtLeast(x: real, k: int)
    ensures x.Floor >= k <==> x >= k as real
  {
  }

  lemma DaysFit(hours: real, days: int)
    ensures days >= WholeDays(hours) <==> hours <= 24.0 * days as real
  {
    FloorAtLeast(-hours / 24.0, -days);
  }

  lemma LastsLonger(b: Box, shorter: real, longer: real)
    requires BoxOk(b) && shorter <= longer && LastsDays(b, longer)
    ensures b.maxTransitDays.Some? ==> shorter <= 24.0 * b.maxTransitDays.value
  {
    if b.maxTransitDays.Some? {
      DaysFit(longer, b.maxTransitDays.value.Floor);
    }
  }

  lemma ShortestChosen(p: Policy, s: Service, t: Tier, exposure: real)
    requires PolicyOk(p) && exposure <= p.maxExposureHours && SelectRule(p.rules, s, t, p.maxExposureHours).Some?
    ensures var chosen := SelectRule(p.rules, s, t, exposure);
            && chosen.Some? && Shortest(p, s, t, exposure, chosen.value) && t in p.tiers
            && chosen.value.blocks <= SelectRule(p.rules, s, t, p.maxExposureHours).value.blocks
  {
    BlocksNeverDecrease(p, s, t, exposure, p.maxExposureHours);
    SelectsShortest(p, s, t, exposure);
  }

  lemma LessIceLeavesRoom(p: Policy, b: Box, less: real, more: real)
    requires less <= more && RoomBesideIce(p, b, more) && 0.0 < b.iceFit
    ensures RoomBesideIce(p, b, less)
  {
    Scaled(b.iceFit, less, more);
  }

  lemma FewerBlocksLeaveRoom(ice: Ice, p: Policy, b: Box, fewer: Rule, more: Rule)
    requires HasRoom(ice, p, b, more) && fewer.blocks <= more.blocks && 0.0 < b.iceFit && 0.0 < ice.blockWeight
    ensures RoomBesideIce(p, b, ice.minimum) && RoomBesideIce(p, b, ice.blockWeight * fewer.blocks)
  {
    RoomBesideBoth(ice, p, b, more);
    Scaled(ice.blockWeight, fewer.blocks, more.blocks);
    LessIceLeavesRoom(p, b, ice.blockWeight * fewer.blocks, ice.blockWeight * more.blocks);
  }

  lemma CoversAtAnyExposure(ice: Ice, p: Policy, s: Service, b: Box, exposure: real)
    requires PolicyOk(p) && BoxOk(b) && Covers(ice, p, s, b) && exposure <= p.maxExposureHours && 0.0 < ice.blockWeight
    ensures Serves(ice, p, s, b, exposure)
  {
    ShortestChosen(p, s, b.tier, exposure);
    LastsLonger(b, exposure, p.maxExposureHours);
    ServesWith(ice, p, s, b, exposure, SelectRule(p.rules, s, b.tier, exposure).value,
               SelectRule(p.rules, s, b.tier, p.maxExposureHours).value);
  }

  lemma ServesWith(ice: Ice, p: Policy, s: Service, b: Box, exposure: real, chosen: Rule, longest: Rule)
    requires HasRoom(ice, p, b, longest) && chosen.blocks <= longest.blocks && 0.0 < b.iceFit && 0.0 < ice.blockWeight
    requires Shortest(p, s, b.tier, exposure, chosen) && b.tier in p.tiers
    requires b.maxTransitDays.Some? ==> exposure <= 24.0 * b.maxTransitDays.value
    ensures Serves(ice, p, s, b, exposure)
  {
    FewerBlocksLeaveRoom(ice, p, b, chosen, longest);
    assert ServesBy(ice, p, s, b, exposure, chosen);
  }

  /** The gate covers the runtime: once a setting is published, whatever shipment is accepted finds a box that serves
      it. */
  lemma GateCoversRuntime(setting: Setting, now: int, zone: Zone, shipment: Shipment)
    requires Publish(setting, now).Ok? && Select(zone, Publish(setting, now).value.policies, shipment).Ok?
    ensures var v := Publish(setting, now).value;
            var chosen := Select(zone, v.policies, shipment).value;
            && shipment.service.Some?
            && exists b :: b in v.boxes && Serves(v.ice, chosen.policy, shipment.service.value, b, chosen.exposureHours)
  {
    var v := Publish(setting, now).value;
    SelectionWithin(zone, v.policies, shipment);
    PublishedOk(setting, now);
    var chosen := Select(zone, v.policies, shipment).value;
    var s := shipment.service.value;
    assert SomeCovers(v.ice, chosen.policy, s, v.boxes);
    var i :| 0 <= i < |v.boxes| && Covers(v.ice, chosen.policy, s, v.boxes[i]);
    CoversAtAnyExposure(v.ice, chosen.policy, s, v.boxes[i], chosen.exposureHours);
    assert v.boxes[i] in v.boxes;
  }
}
