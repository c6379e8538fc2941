/** What it takes to publish a packing setting, and what is then in force, told from the rows staff enter. */
module PublicationPromises {
  import opened Base
  import opened Clock
  import opened Permutations
  import opened Sorting
  import opened PackingPolicy
  import opened PackingPolicyLaws

  /*** A policy row ***/

  predicate NamesRule(r: RuleRow, rule: Rule) {
    && r.service == Some(rule.service) && r.tier == Some(rule.tier)
    && r.throughHours == Number(rule.throughHours) && r.blocks == Number(rule.blocks)
  }

  /** A rule row that can be read under a policy row: for an allowed service and box, positive, within the policy's longest
      exposure, and with no multiplier. */
  predicate SoundRule(row: PolicyRow, r: RuleRow) {
    && r.service.Some? && r.service.value in row.allows && r.tier.Some? && r.tier.value in row.allowsTiers
    && r.throughHours.Number? && 0.0 < r.throughHours.value && r.blocks.Number? && 0.0 < r.blocks.value
    && r.multiplier.Null? && row.maxExposure.Number? && r.throughHours.value <= row.maxExposure.value
  }

  predicate SaysTerms(row: PolicyRow, p: Policy) {
    && p.revision == row.revision && row.from == Some(p.from) && row.through == Some(p.through)
    && row.delay == Number(p.delayHours) && row.maxExposure == Number(p.maxExposureHours)
    && row.maxGross == Number(p.maxGrossWeightLb)
  }

  /** The permissions a row gives, listed. */
  ghost predicate Permits(row: PolicyRow, services: seq<Service>, tiers: seq<Tier>) {
    && (forall s: Service :: s in services <==> s in row.allows)
    && (forall t: Tier :: t in tiers <==> t in row.allowsTiers)
  }

  ghost predicate SaysRules(row: PolicyRow, rules: seq<Rule>) {
    |rules| == |row.rules| && forall rule :: rule in rules <==> exists i :: 0 <= i < |row.rules| && NamesRule(row.rules[i], rule)
  }

  /** The policy says what its row says: its dates, limits and permissions, and its rules, in whatever order. */
  ghost predicate Reads(row: PolicyRow, p: Policy) {
    SaysTerms(row, p) && Permits(row, p.services, p.tiers) && SaysRules(row, p.rules)
  }

  /** Of two rules for one service and box, one lasts strictly longer, and carries no less ice. */
  predicate Steps(a: RuleRow, b: RuleRow) {
    a.service == b.service && a.tier == b.tier ==>
      && a.throughHours.Number? && b.throughHours.Number? && a.blocks.Number? && b.blocks.Number?
      && (|| (a.throughHours.value < b.throughHours.value && a.blocks.value <= b.blocks.value)
          || (b.throughHours.value < a.throughHours.value && b.blocks.value <= a.blocks.value))
  }

  /** Some rule covers the service for the policy's longest exposure. */
  predicate LastsLongest(row: PolicyRow, s: Service) {
    exists i :: 0 <= i < |row.rules| && row.rules[i].service == Some(s) && row.rules[i].throughHours == row.maxExposure
  }

  ghost predicate StepsUp(rows: seq<RuleRow>) {
    forall i, j :: 0 <= i < j < |rows| ==> Steps(rows[i], rows[j])
  }

  ghost predicate SoundRules(row: PolicyRow) {
    && row.allows != {} && row.allowsTiers != {} && row.rules != []
    && (forall i :: 0 <= i < |row.rules| ==> SoundRule(row, row.rules[i]))
    && (forall s :: s in row.allows ==> LastsLongest(row, s)) && StepsUp(row.rules)
  }

  /** Complete, approved by now, and with a period and limits. */
  predicate SoundTerms(row: PolicyRow, now: int) {
    && row.name != "" && row.revision != "" && row.approvedBy != "" && row.approvalReference != ""
    && row.approvedAt.Some? && row.approvedAt.value <= now
    && row.from.Some? && row.through.Some? && row.from.value <= row.through.value
    && row.delay.Number? && row.maxExposure.Number? && 0.0 <= row.delay.value < row.maxExposure.value
    && row.maxGross.Number? && 0.0 < row.maxGross.value
  }

  /** A row that can be approved, with permissions, and with rules that cover each allowed service for the longest exposure and rise by service
      and box. */
  ghost predicate SoundRow(row: PolicyRow, now: int) {
    SoundTerms(row, now) && SoundRules(row)
  }

  lemma {:induction false} RulesRead(rows: seq<RuleRow>, row: PolicyRow, services: seq<Service>, tiers: seq<Tier>)
    requires row.maxExposure.Number?
    requires (forall s: Service :: s in services <==> s in row.allows) && (forall t: Tier :: t in tiers <==> t in row.allowsTiers)
    ensures var r := ReadRules(rows, services, tiers, row.maxExposure.value);
            && (r.Some? <==> forall i :: 0 <= i < |rows| ==> SoundRule(row, rows[i]))
            && (r.Some? ==> |r.value| == |rows| && forall i :: 0 <= i < |rows| ==> NamesRule(rows[i], r.value[i]))
  {
    if rows != [] {
      RulesRead(rows[1..], row, services, tiers);
      assert forall i :: 0 < i < |rows| ==> rows[i] == rows[1..][i - 1];
      assert RuleRowOk(rows[0], services, tiers, row.maxExposure.value) <==> SoundRule(row, rows[0]);
    }
  }

  lemma Allowed(row: PolicyRow)
    ensures forall s: Service :: s in Only(SERVICES, row.allows) <==> s in row.allows
    ensures forall t: Tier :: t in Only(TIERS, row.allowsTiers) <==> t in row.allowsTiers
    ensures Only(SERVICES, row.allows) == [] <==> row.allows == {}
    ensures Only(TIERS, row.allowsTiers) == [] <==> row.allowsTiers == {}
  {
    assert SERVICES[0] == Ground && SERVICES[1] == ThreeDaySelect && SERVICES[2] == SecondDayAir && SERVICES[3] == Overnight;
    assert TIERS[0] == Micro && TIERS[1] == M330 && TIERS[2] == L345;
    forall s: Service ensures s in SERVICES {
      match s case Ground => case ThreeDaySelect => case SecondDayAir => case Overnight =>
    }
    forall t: Tier ensures t in TIERS {
      match t case Micro => case M330 => case L345 =>
    }
    SomeListed(Only(SERVICES, row.allows), row.allows);
    SomeListed(Only(TIERS, row.allowsTiers), row.allowsTiers);
  }

  lemma SomeListed<T>(items: seq<T>, listed: set<T>)
    requires forall x :: x in items <==> x in listed
    ensures items == [] <==> listed == {}
  {
    if items != [] {
      assert items[0] in listed;
    }
  }

  /*** Rungs ***/

  predicate Agree(a: Rule, b: Rule) {
    a.service == b.service && a.tier == b.tier ==>
      || (a.throughHours < b.throughHours && a.blocks <= b.blocks)
      || (b.throughHours < a.throughHours && b.blocks <= a.blocks)
  }

  ghost predicate AgreesWith(rule: Rule, rules: seq<Rule>) {
    forall x :: x in rules ==> Agree(rule, x)
  }

  ghost predicate AllAgree(rules: seq<Rule>) {
    forall i, j :: 0 <= i < j < |rules| ==> Agree(rules[i], rules[j])
  }

  lemma AgreeTaken(rules: seq<Rule>, k: nat)
    requires k < |rules|
    ensures AllAgree(rules) <==> AllAgree(rules[..k] + rules[k + 1..]) && AgreesWith(rules[k], rules[..k] + rules[k + 1..])
  {
    var rest := rules[..k] + rules[k + 1..];
    if AllAgree(rules) {
      forall i, j | 0 <= i < j < |rest| ensures Agree(rest[i], rest[j]) {
        assert Agree(rules[if i < k then i else i + 1], rules[if j < k then j else j + 1]);
      }
      forall x | x in rest ensures Agree(rules[k], x) {
        var i :| 0 <= i < |rest| && rest[i] == x;
        assert x == rules[if i < k then i else i + 1];
      }
    }
    if AllAgree(rest) && AgreesWith(rules[k], rest) {
      forall i, j | 0 <= i < j < |rules| ensures Agree(rules[i], rules[j]) {
        var i', j' := if i < k then i else i - 1, if j < k then j else j - 1;
        assert i != k ==> rest[i'] == rules[i] && rest[i'] in rest;
        assert j != k ==> rest[j'] == rules[j] && rest[j'] in rest;
      }
    }
  }

  lemma AgreeFront(head: Rule, rest: seq<Rule>)
    ensures AllAgree([head] + rest) <==> AllAgree(rest) && AgreesWith(head, rest)
  {
    var all := [head] + rest;
    AgreeTaken(all, 0);
    assert all[..0] + all[1..] == rest;
  }

  lemma AgreesWithSame(rule: Rule, a: seq<Rule>, b: seq<Rule>)
    requires multiset(a) == multiset(b)
    ensures AgreesWith(rule, a) <==> AgreesWith(rule, b)
  {
    SameMembers(a, b);
  }

  /** Whether rungs agree does not depend on their order. */
  lemma {:induction false} AgreePermutes(a: seq<Rule>, b: seq<Rule>)
    requires multiset(a) == multiset(b)
    ensures AllAgree(a) <==> AllAgree(b)
  {
    if a == [] {
      NoneLeft(a, b);
    } else {
      var k := HeadFound(a, b);
      var rest := b[..k] + b[k + 1..];
      AgreeFront(a[0], a[1..]);
      assert a == [a[0]] + a[1..];
      AgreeTaken(b, k);
      AgreePermutes(a[1..], rest);
      AgreesWithSame(a[0], a[1..], rest);
    }
  }

  lemma {:induction false} GroupAgrees(rules: seq<Rule>, s: Service, t: Tier)
    requires AllAgree(rules)
    ensures AllAgree(Group(rules, s, t))
  {
    if rules != [] {
      var rest := Group(rules[1..], s, t);
      AgreeFront(rules[0], rules[1..]);
      assert rules == [rules[0]] + rules[1..];
      GroupAgrees(rules[1..], s, t);
      GroupLaw(rules[1..], s, t);
      AgreeFront(rules[0], rest);
      assert [] + rest == rest;
    }
  }

  lemma TailGroup(rules: seq<Rule>, s: Service, t: Tier)
    requires rules != [] && AllAgree(Group(rules, s, t))
    ensures AllAgree(Group(rules[1..], s, t))
    ensures rules[0].service == s && rules[0].tier == t ==> AgreesWith(rules[0], Group(rules[1..], s, t))
  {
    var rest := Group(rules[1..], s, t);
    AgreeFront(rules[0], rest);
    assert [] + rest == rest;
  }

  lemma {:induction false} GroupsAgree(rules: seq<Rule>)
    requires forall s, t :: AllAgree(Group(rules, s, t))
    ensures AllAgree(rules)
  {
    if rules != [] {
      forall s, t ensures AllAgree(Group(rules[1..], s, t)) {
        TailGroup(rules, s, t);
      }
      GroupsAgree(rules[1..]);
      TailGroup(rules, rules[0].service, rules[0].tier);
      GroupLaw(rules[1..], rules[0].service, rules[0].tier);
      AgreeFront(rules[0], rules[1..]);
      assert rules == [rules[0]] + rules[1..];
    }
  }

  lemma GroupIff(rules: seq<Rule>, s: Service, t: Tier)
    requires Ordered(rules, RuleAtMost)
    ensures GroupOk(Group(rules, s, t)) <==> AllAgree(Group(rules, s, t))
  {
    var group := Group(rules, s, t);
    GroupLaw(rules, s, t);
    GroupOrdered(rules, s, t);
    forall i | 0 <= i < |group| ensures group[i].service == s && group[i].tier == t {
      assert group[i] in group;
    }
    if GroupOk(group) {
      RungsRise(group, s, t);
    }
    if AllAgree(group) {
      forall i | 1 <= i < |group|
        ensures group[i].throughHours != group[i - 1].throughHours && group[i].blocks >= group[i - 1].blocks
      {
        assert Agree(group[i - 1], group[i]) && RuleAtMost(group[i - 1], group[i]);
      }
    }
  }

  lemma NoGroup(rules: seq<Rule>, s: Service, t: Tier, services: seq<Service>, tiers: seq<Tier>)
    requires forall rule :: rule in rules ==> rule.service in services && rule.tier in tiers
    requires s !in services || t !in tiers
    ensures AllAgree(Group(rules, s, t))
  {
    GroupLaw(rules, s, t);
  }

  lemma GroupsCheck(rules: seq<Rule>, services: seq<Service>, tiers: seq<Tier>)
    requires Ordered(rules, RuleAtMost) && forall rule :: rule in rules ==> rule.service in services && rule.tier in tiers
    ensures (forall s :: s in services ==> GroupsOk(rules, s, tiers)) <==> AllAgree(rules)
  {
    if AllAgree(rules) {
      forall s, t ensures GroupOk(Group(rules, s, t)) {
        GroupAgrees(rules, s, t);
        GroupIff(rules, s, t);
      }
    }
    if forall s :: s in services ==> GroupsOk(rules, s, tiers) {
      forall s, t ensures AllAgree(Group(rules, s, t)) {
        GroupIff(rules, s, t);
        if s !in services || t !in tiers {
          NoGroup(rules, s, t, services, tiers);
        } else {
          assert GroupsOk(rules, s, tiers);
        }
      }
      GroupsAgree(rules);
    }
  }

  ghost predicate AllReach(rules: seq<Rule>, services: seq<Service>, maxExposure: real) {
    forall s :: s in services ==> Reaches(rules, s, maxExposure)
  }

  /** The parser's check of the rules, group by group, is that each service is covered and that all rungs agree. */
  lemma RulesCheck(rules: seq<Rule>, services: seq<Service>, tiers: seq<Tier>, maxExposure: real)
    requires Ordered(rules, RuleAtMost) && forall rule :: rule in rules ==> rule.service in services && rule.tier in tiers
    ensures ServicesError(services, tiers, rules, maxExposure).None? <==> AllReach(rules, services, maxExposure) && AllAgree(rules)
  {
    ServicesErrorLaw(services, tiers, rules, maxExposure);
    GroupsCheck(rules, services, tiers);
  }

  ghost predicate Named(rows: seq<RuleRow>, read: seq<Rule>) {
    |read| == |rows| && forall i :: 0 <= i < |rows| ==> NamesRule(rows[i], read[i])
  }

  lemma ReachesRow(row: PolicyRow, read: seq<Rule>, rules: seq<Rule>, s: Service)
    requires row.maxExposure.Number? && Named(row.rules, read) && forall x :: x in rules <==> x in read
    ensures Reaches(rules, s, row.maxExposure.value) <==> LastsLongest(row, s)
  {
    if Reaches(rules, s, row.maxExposure.value) {
      var k :| 0 <= k < |rules| && rules[k].service == s && rules[k].throughHours == row.maxExposure.value;
      assert rules[k] in read;
      var i :| 0 <= i < |read| && read[i] == rules[k];
      assert NamesRule(row.rules[i], read[i]);
    }
    if LastsLongest(row, s) {
      var i :| 0 <= i < |row.rules| && row.rules[i].service == Some(s) && row.rules[i].throughHours == row.maxExposure;
      assert NamesRule(row.rules[i], read[i]);
      assert read[i] in rules;
    }
  }

  lemma RowsAgree(rows: seq<RuleRow>, read: seq<Rule>)
    requires Named(rows, read)
    ensures AllAgree(read) <==> StepsUp(rows)
  {
    forall i, j | 0 <= i < j < |rows| ensures Agree(read[i], read[j]) <==> Steps(rows[i], rows[j]) {
      assert NamesRule(rows[i], read[i]) && NamesRule(rows[j], read[j]);
    }
  }

  lemma NamedRules(rows: seq<RuleRow>, read: seq<Rule>, rule: Rule)
    requires Named(rows, read)
    ensures rule in read <==> exists i :: 0 <= i < |rows| && NamesRule(rows[i], rule)
  {
    if rule in read {
      var i :| 0 <= i < |read| && read[i] == rule;
      assert NamesRule(rows[i], rule);
    }
    if i :| 0 <= i < |rows| && NamesRule(rows[i], rule) {
      assert NamesRule(rows[i], read[i]);
      assert read[i] == rule;
    }
  }

  lemma ReadRulesCheck(row: PolicyRow, read: seq<Rule>, services: seq<Service>, tiers: seq<Tier>)
    requires row.maxExposure.Number? && ReadRules(row.rules, services, tiers, row.maxExposure.value) == Some(read)
    requires Permits(row, services, tiers) && Named(row.rules, read)
    ensures ServicesError(services, tiers, Sorted(read, RuleAtMost), row.maxExposure.value).None? <==>
            (forall s :: s in row.allows ==> LastsLongest(row, s)) && StepsUp(row.rules)
  {
    var rules := Sorted(read, RuleAtMost);
    RulesCompare();
    SortedLaw(read, RuleAtMost);
    SortedMembers(read, RuleAtMost);
    RulesCheck(rules, services, tiers, row.maxExposure.value);
    forall s ensures Reaches(rules, s, row.maxExposure.value) <==> LastsLongest(row, s) {
      ReachesRow(row, read, rules, s);
    }
    AgreePermutes(read, rules);
    RowsAgree(row.rules, read);
  }

  lemma RulesKept(rows: seq<RuleRow>, read: seq<Rule>)
    requires Named(rows, read)
    ensures |Sorted(read, RuleAtMost)| == |rows|
    ensures forall rule :: rule in Sorted(read, RuleAtMost) <==> exists i :: 0 <= i < |rows| && NamesRule(rows[i], rule)
  {
    RulesCompare();
    SortedLaw(read, RuleAtMost);
    SortedMembers(read, RuleAtMost);
    forall rule ensures rule in read <==> exists i :: 0 <= i < |rows| && NamesRule(rows[i], rule) {
      NamedRules(rows, read, rule);
    }
  }

  lemma RulesIff(row: PolicyRow, services: seq<Service>, tiers: seq<Tier>)
    requires row.maxExposure.Number? && Permits(row, services, tiers)
    requires (services == [] <==> row.allows == {}) && (tiers == [] <==> row.allowsTiers == {})
    ensures RulesOf(row.rules, services, tiers, row.maxExposure.value).Ok? <==> SoundRules(row)
  {
    var read := ReadRules(row.rules, services, tiers, row.maxExposure.value);
    RulesRead(row.rules, row, services, tiers);
    if read.Some? {
      ReadRulesCheck(row, read.value, services, tiers);
    }
  }

  /** A policy row is read exactly when it can be approved. */
  lemma ParseIff(row: PolicyRow, now: int)
    ensures ParsePolicy(row, now).Ok? <==> SoundRow(row, now)
  {
    Allowed(row);
    if row.maxExposure.Number? {
      RulesIff(row, Only(SERVICES, row.allows), Only(TIERS, row.allowsTiers));
    }
    TermsIff(row, now);
  }

  lemma TermsIff(row: PolicyRow, now: int)
    ensures TermsError(row, now).None? <==> SoundTerms(row, now)
  {
  }

  lemma RulesOfKept(row: PolicyRow, services: seq<Service>, tiers: seq<Tier>)
    requires row.maxExposure.Number? && RulesOf(row.rules, services, tiers, row.maxExposure.value).Ok?
    requires Permits(row, services, tiers)
    ensures SaysRules(row, RulesOf(row.rules, services, tiers, row.maxExposure.value).value)
  {
    RulesRead(row.rules, row, services, tiers);
    RulesKept(row.rules, ReadRules(row.rules, services, tiers, row.maxExposure.value).value);
  }

  lemma ParsedFields(row: PolicyRow, now: int, p: Policy)
    requires ParsePolicy(row, now) == Ok(p)
    ensures SaysTerms(row, p) && row.maxExposure.Number?
    ensures p.services == Only(SERVICES, row.allows) && p.tiers == Only(TIERS, row.allowsTiers)
    ensures RulesOf(row.rules, p.services, p.tiers, row.maxExposure.value) == Ok(p.rules)
  {
  }

  /** And then the policy says what its row says. */
  lemma ParseReads(row: PolicyRow, now: int, p: Policy)
    requires ParsePolicy(row, now) == Ok(p)
    ensures Reads(row, p)
  {
    ParsedFields(row, now, p);
    ReadsFields(row, p);
  }

  lemma ReadsFields(row: PolicyRow, p: Policy)
    requires SaysTerms(row, p) && row.maxExposure.Number?
    requires p.services == Only(SERVICES, row.allows) && p.tiers == Only(TIERS, row.allowsTiers)
    requires RulesOf(row.rules, p.services, p.tiers, row.maxExposure.value) == Ok(p.rules)
    ensures Reads(row, p)
  {
    Allowed(row);
    RulesOfKept(row, p.services, p.tiers);
  }

  /*** The list ***/

  /** The active rows, each as often as it is listed. */
  ghost predicate AreActive(rows: seq<PolicyRow>, act: seq<PolicyRow>) {
    forall row :: multiset(act)[row] == if row.active then multiset(rows)[row] else 0
  }

  ghost predicate AllSound(act: seq<PolicyRow>, now: int) {
    forall i :: 0 <= i < |act| ==> SoundRow(act[i], now)
  }

  ghost predicate AllRead(act: seq<PolicyRow>, policies: seq<Policy>) {
    |policies| == |act| && forall i :: 0 <= i < |act| ==> Reads(act[i], policies[i])
  }

  lemma ActiveHead(rows: seq<PolicyRow>, rest: seq<PolicyRow>)
    requires rows != [] && AreActive(rows[1..], rest)
    ensures AreActive(rows, if rows[0].active then [rows[0]] + rest else rest)
  {
    assert rows == [rows[0]] + rows[1..];
  }

  /** The parse of the rows reads just these: it succeeds when all are sound, and says what they say. */
  ghost predicate ReadAs(read: Result<seq<Policy>, Code>, act: seq<PolicyRow>, now: int) {
    (read.Ok? <==> AllSound(act, now)) && (read.Ok? ==> AllRead(act, read.value))
  }

  lemma SoundHead(head: PolicyRow, rest: seq<PolicyRow>, now: int)
    ensures AllSound([head] + rest, now) <==> SoundRow(head, now) && AllSound(rest, now)
  {
    if AllSound([head] + rest, now) {
      assert ([head] + rest)[0] == head;
      assert forall i :: 0 <= i < |rest| ==> rest[i] == ([head] + rest)[i + 1];
    }
  }

  lemma ReadHead(head: PolicyRow, rest: seq<PolicyRow>, p: Policy, policies: seq<Policy>)
    requires Reads(head, p) && AllRead(rest, policies)
    ensures AllRead([head] + rest, [p] + policies)
  {
  }

  lemma ReadOne(rows: seq<PolicyRow>, rest: seq<PolicyRow>, now: int)
    requires rows != [] && rows[0].active && ReadAs(ParseRows(rows[1..], now), rest, now)
    ensures ReadAs(ParseRows(rows, now), [rows[0]] + rest, now)
  {
    ParseIff(rows[0], now);
    SoundHead(rows[0], rest, now);
    if ParsePolicy(rows[0], now).Ok? && ParseRows(rows[1..], now).Ok? {
      ParseReads(rows[0], now, ParsePolicy(rows[0], now).value);
      ReadHead(rows[0], rest, ParsePolicy(rows[0], now).value, ParseRows(rows[1..], now).value);
    }
  }

  lemma {:induction false} RowsRead(rows: seq<PolicyRow>, now: int) returns (act: seq<PolicyRow>)
    ensures AreActive(rows, act) && ReadAs(ParseRows(rows, now), act, now)
  {
    act := [];
    if rows != [] {
      act := RowsRead(rows[1..], now);
      ActiveHead(rows, act);
      if rows[0].active {
        ReadOne(rows, act, now);
        act := [rows[0]] + act;
      }
    }
  }

  /** The row covers the service on that day. */
  predicate InForce(row: PolicyRow, s: Service, d: int) {
    s in row.allows && row.from.Some? && row.through.Some? && row.from.value <= d <= row.through.value
  }

  /** Two rows cover one service on one day. */
  ghost predicate Clash(a: PolicyRow, b: PolicyRow) {
    exists s, d :: InForce(a, s, d) && InForce(b, s, d)
  }

  lemma OverlapIff(a: PolicyRow, b: PolicyRow, p: Policy, q: Policy)
    requires Reads(a, p) && Reads(b, q) && p.from <= p.through && q.from <= q.through
    ensures Overlap(p, q) <==> Clash(a, b)
  {
    if Overlap(p, q) {
      var s :| s in p.services && s in q.services;
      var d := if p.from < q.from then q.from else p.from;
      assert InForce(a, s, d) && InForce(b, s, d);
    }
    if Clash(a, b) {
      var s, d :| InForce(a, s, d) && InForce(b, s, d);
      assert s in p.services && s in q.services;
    }
  }

  /** The active rows of a list that is accepted: some, all sound, and no two of one revision or for one service on one
      day. */
  ghost predicate Approvable(act: seq<PolicyRow>, now: int) {
    && act != [] && AllSound(act, now)
    && forall i, j :: 0 <= i < j < |act| ==> act[i].revision != act[j].revision && !Clash(act[i], act[j])
  }

  lemma ListChecks(act: seq<PolicyRow>, policies: seq<Policy>, now: int)
    requires AllSound(act, now) && AllRead(act, policies)
    ensures Approvable(act, now) <==> policies != [] && !SomeRepeat(policies) && !SomeOverlap(policies)
  {
    forall i, j | 0 <= i < j < |act|
      ensures policies[i].revision == policies[j].revision <==> act[i].revision == act[j].revision
      ensures Overlap(policies[i], policies[j]) <==> Clash(act[i], act[j])
    {
      assert Reads(act[i], policies[i]) && Reads(act[j], policies[j]);
      assert SoundRow(act[i], now) && SoundRow(act[j], now);
      OverlapIff(act[i], act[j], policies[i], policies[j]);
    }
  }

  /** A list of policies is accepted exactly when its active rows are approvable together, and it is then those rows. */
  lemma ListIff(rows: seq<PolicyRow>, now: int) returns (act: seq<PolicyRow>)
    ensures AreActive(rows, act) && (Parse(Some(rows), now).Ok? <==> Approvable(act, now))
    ensures Parse(Some(rows), now).Ok? ==> AllRead(act, Parse(Some(rows), now).value)
  {
    act := RowsRead(rows, now);
    if ParseRows(rows, now).Ok? {
      ListChecks(act, ParseRows(rows, now).value, now);
    }
  }

  /*** Boxes ***/

  predicate Above(least: real, f: Field) {
    f.Number? && least < f.value
  }

  /** A box that can be used: of a known tier, named, with positive sizes and cost, and a tare below its limit. */
  predicate SoundBox(b: BoxRow) {
    && b.tier.Some? && b.fitRuleId != "" && b.name != ""
    && Above(0.0, b.unitCost) && Above(0.0, b.length) && Above(0.0, b.width) && Above(0.0, b.height)
    && Above(0.0, b.maxTotal) && Above(0.0, b.maxFit) && Above(0.0, b.iceFit)
    && b.tare.Number? && 0.0 <= b.tare.value && Above(b.tare.value, b.maxTotal)
    && (b.maxProduct.Null? || Above(0.0, b.maxProduct))
    && (b.maxTransitDays.Null?
        || (Above(0.0, b.maxTransitDays) && b.maxTransitDays.value == b.maxTransitDays.value.Floor as real))
  }

  /** The box says what its row says. */
  predicate SaysBox(b: BoxRow, box: Box) {
    && b.tier == Some(box.tier) && box.fitRuleId == b.fitRuleId && box.name == b.name
    && b.unitCost == Number(box.unitCost) && b.length == Number(box.length) && b.width == Number(box.width)
    && b.height == Number(box.height) && b.maxTotal == Number(box.maxTotal) && b.maxFit == Number(box.maxFit)
    && b.iceFit == Number(box.iceFit) && b.tare == Number(box.tare)
    && b.maxProduct == (if box.maxProduct.Some? then Number(box.maxProduct.value) else Null)
    && b.maxTransitDays == (if box.maxTransitDays.Some? then Number(box.maxTransitDays.value) else Null)
  }

  ghost predicate ActiveBoxes(rows: seq<BoxRow>, act: seq<BoxRow>) {
    forall row :: multiset(act)[row] == if row.active then multiset(rows)[row] else 0
  }

  lemma {:induction false} ActiveRowsLaw(rows: seq<BoxRow>)
    ensures ActiveBoxes(rows, ActiveRows(rows))
  {
    if rows != [] {
      ActiveRowsLaw(rows[1..]);
      assert rows == [rows[0]] + rows[1..];
      assert [] + ActiveRows(rows[1..]) == ActiveRows(rows[1..]);
    }
  }

  ghost predicate UsableBoxes(act: seq<BoxRow>) {
    && (forall i :: 0 <= i < |act| ==> SoundBox(act[i]))
    && (forall i, j :: 0 <= i < j < |act| ==> act[i].tier != act[j].tier)
  }

  ghost predicate BoxesSaid(act: seq<BoxRow>, boxes: seq<Box>) {
    |boxes| == |act| && forall i :: 0 <= i < |act| ==> SaysBox(act[i], boxes[i])
  }

  lemma {:induction false} BoxesIff(rows: seq<BoxRow>, k: nat, seen: seq<Box>)
    requires k <= |rows| && UsableBoxes(rows[..k]) && BoxesSaid(rows[..k], seen)
    ensures ReadBoxes(seen, rows[k..]).Some? <==> UsableBoxes(rows)
    ensures ReadBoxes(seen, rows[k..]).Some? ==> BoxesSaid(rows, ReadBoxes(seen, rows[k..]).value)
    decreases |rows| - k
  {
    if k == |rows| {
      assert rows[..k] == rows;
    } else {
      assert rows[k..][1..] == rows[k + 1..];
      assert rows[..k + 1] == rows[..k] + [rows[k]];
      TierSeen(rows[..k], seen, rows[k].tier);
      assert forall i :: 0 <= i < k ==> rows[..k][i] == rows[i];
      if SoundBox(rows[k]) && !HasTier(seen, rows[k].tier.value) {
        BoxesIff(rows, k + 1, seen + [ReadBox(rows[k])]);
      }
    }
  }

  lemma TierSeen(act: seq<BoxRow>, seen: seq<Box>, tier: Option<Tier>)
    requires BoxesSaid(act, seen)
    ensures tier.Some? ==> (HasTier(seen, tier.value) <==> exists i :: 0 <= i < |act| && act[i].tier == tier)
  {
    if tier.Some? && HasTier(seen, tier.value) {
      var i :| 0 <= i < |seen| && seen[i].tier == tier.value;
      assert SaysBox(act[i], seen[i]);
    }
    if tier.Some? && exists i :: 0 <= i < |act| && act[i].tier == tier {
      var i :| 0 <= i < |act| && act[i].tier == tier;
      assert SaysBox(act[i], seen[i]);
    }
  }

  /*** The gate ***/

  /** The box has room beside this much ice, under its own gross limit and the policy's. */
  predicate RoomBeside(row: PolicyRow, b: BoxRow, amount: real) {
    && b.tare.Number? && b.iceFit.Number?
    && Above(amount + b.tare.value, b.maxTotal) && Above(amount + b.tare.value, row.maxGross)
    && Above(amount * b.iceFit.value, b.maxFit)
  }

  /** The box may travel for as many hours as the policy allows. */
  predicate TravelsLongest(row: PolicyRow, b: BoxRow) {
    b.maxTransitDays.Number? ==> row.maxExposure.Number? && row.maxExposure.value <= 24.0 * b.maxTransitDays.value
  }

  /** A rule for the service and box at the longest exposure, with room beside its blocks of ice. */
  predicate RoomForBlocks(blockWeight: real, row: PolicyRow, s: Service, b: BoxRow, r: RuleRow) {
    && r.service == Some(s) && r.tier == b.tier && r.throughHours == row.maxExposure && r.blocks.Number?
    && RoomBeside(row, b, blockWeight * r.blocks.value)
  }

  /** The box carries the service for the policy's longest exposure, with room beside the minimum of ice and beside the
      blocks its rule asks for. */
  predicate CarriesLongest(ice: Ice, row: PolicyRow, s: Service, b: BoxRow) {
    && TravelsLongest(row, b) && RoomBeside(row, b, ice.minimum)
    && exists i :: 0 <= i < |row.rules| && RoomForBlocks(ice.blockWeight, row, s, b, row.rules[i])
  }

  predicate Boxed(row: PolicyRow, boxes: seq<BoxRow>) {
    forall i :: 0 <= i < |row.rules| ==> exists j :: 0 <= j < |boxes| && boxes[j].tier == row.rules[i].tier
  }

  predicate ServiceCarried(ice: Ice, row: PolicyRow, s: Service, boxes: seq<BoxRow>) {
    exists j :: 0 <= j < |boxes| && CarriesLongest(ice, row, s, boxes[j])
  }

  /** Every rule has its box, and every allowed service a box that carries it for the longest exposure. */
  ghost predicate Carried(ice: Ice, row: PolicyRow, boxes: seq<BoxRow>) {
    Boxed(row, boxes) && forall s :: s in row.allows ==> ServiceCarried(ice, row, s, boxes)
  }

  lemma RoomIff(ice: Ice, row: PolicyRow, p: Policy, b: BoxRow, box: Box, rule: Rule)
    requires SaysTerms(row, p) && SaysBox(b, box) && 0.0 < box.iceFit
    ensures HasRoom(ice, p, box, rule) <==>
            RoomBeside(row, b, ice.minimum) && RoomBeside(row, b, ice.blockWeight * rule.blocks)
  {
    RoomBesideBoth(ice, p, box, rule);
  }

  /** At the longest exposure there is no choice of rule. */
  lemma LongestRule(p: Policy, s: Service, t: Tier)
    requires PolicyOk(p)
    ensures forall rule :: SelectRule(p.rules, s, t, p.maxExposureHours) == Some(rule) <==>
              rule in p.rules && rule.service == s && rule.tier == t && rule.throughHours == p.maxExposureHours
  {
    SelectsShortest(p, s, t, p.maxExposureHours);
    GroupRises(p, s, t);
    GroupLaw(p.rules, s, t);
    var group, r := Group(p.rules, s, t), SelectRule(p.rules, s, t, p.maxExposureHours);
    forall rule | rule in p.rules && rule.service == s && rule.tier == t && rule.throughHours == p.maxExposureHours
      ensures r == Some(rule)
    {
      assert Lasts(rule, s, t, p.maxExposureHours);
      assert rule in group && r.value in group;
      var i :| 0 <= i < |group| && group[i] == rule;
      var j :| 0 <= j < |group| && group[j] == r.value;
    }
  }

  ghost predicate LongestWithRoom(ice: Ice, p: Policy, s: Service, box: Box, rule: Rule) {
    rule in p.rules && rule.service == s && rule.tier == box.tier && rule.throughHours == p.maxExposureHours
    && HasRoom(ice, p, box, rule)
  }

  lemma CoversByRule(ice: Ice, p: Policy, s: Service, box: Box)
    requires PolicyOk(p)
    ensures Covers(ice, p, s, box) <==>
            LastsDays(box, p.maxExposureHours) && exists rule :: LongestWithRoom(ice, p, s, box, rule)
  {
    LongestRule(p, s, box.tier);
    if Covers(ice, p, s, box) {
      assert LongestWithRoom(ice, p, s, box, SelectRule(p.rules, s, box.tier, p.maxExposureHours).value);
    }
  }

  lemma NamedRoom(ice: Ice, row: PolicyRow, p: Policy, s: Service, b: BoxRow, box: Box, r: RuleRow, rule: Rule)
    requires SaysTerms(row, p) && SaysBox(b, box) && 0.0 < box.iceFit && NamesRule(r, rule) && rule in p.rules
    ensures LongestWithRoom(ice, p, s, box, rule) <==>
            RoomForBlocks(ice.blockWeight, row, s, b, r) && RoomBeside(row, b, ice.minimum)
  {
    RoomIff(ice, row, p, b, box, rule);
  }

  lemma RoomOfRule(ice: Ice, row: PolicyRow, p: Policy, s: Service, b: BoxRow, box: Box, rule: Rule) returns (i: nat)
    requires Reads(row, p) && SaysBox(b, box) && 0.0 < box.iceFit && LongestWithRoom(ice, p, s, box, rule)
    ensures i < |row.rules| && RoomForBlocks(ice.blockWeight, row, s, b, row.rules[i]) && RoomBeside(row, b, ice.minimum)
  {
    i :| 0 <= i < |row.rules| && NamesRule(row.rules[i], rule);
    NamedRoom(ice, row, p, s, b, box, row.rules[i], rule);
  }

  lemma RuleOfRoom(ice: Ice, row: PolicyRow, p: Policy, s: Service, b: BoxRow, box: Box, i: nat) returns (rule: Rule)
    requires Reads(row, p) && SaysBox(b, box) && 0.0 < box.iceFit
    requires i < |row.rules| && RoomForBlocks(ice.blockWeight, row, s, b, row.rules[i]) && RoomBeside(row, b, ice.minimum)
    ensures LongestWithRoom(ice, p, s, box, rule)
  {
    rule := Rule(s, box.tier, p.maxExposureHours, row.rules[i].blocks.value);
    assert NamesRule(row.rules[i], rule);
    NamedRoom(ice, row, p, s, b, box, row.rules[i], rule);
  }

  lemma RuleRoomIff(ice: Ice, row: PolicyRow, p: Policy, s: Service, b: BoxRow, box: Box)
    requires Reads(row, p) && SaysBox(b, box) && 0.0 < box.iceFit
    ensures (exists rule :: LongestWithRoom(ice, p, s, box, rule)) <==>
            && (exists i :: 0 <= i < |row.rules| && RoomForBlocks(ice.blockWeight, row, s, b, row.rules[i]))
            && RoomBeside(row, b, ice.minimum)
  {
    if rule :| LongestWithRoom(ice, p, s, box, rule) {
      var i := RoomOfRule(ice, row, p, s, b, box, rule);
    }
    if i :| 0 <= i < |row.rules| && RoomForBlocks(ice.blockWeight, row, s, b, row.rules[i]) && RoomBeside(row, b, ice.minimum) {
      var rule := RuleOfRoom(ice, row, p, s, b, box, i);
    }
  }

  lemma CoversIff(ice: Ice, row: PolicyRow, p: Policy, s: Service, b: BoxRow, box: Box)
    requires Reads(row, p) && PolicyOk(p) && SaysBox(b, box) && SoundBox(b)
    ensures Covers(ice, p, s, box) <==> CarriesLongest(ice, row, s, b)
  {
    CoversByRule(ice, p, s, box);
    RuleRoomIff(ice, row, p, s, b, box);
    if box.maxTransitDays.Some? {
      DaysFit(p.maxExposureHours, box.maxTransitDays.value.Floor);
    }
  }

  lemma {:induction false} GateIff(ice: Ice, policies: seq<Policy>, boxes: seq<Box>)
    ensures GateError(ice, policies, boxes).None? <==>
            forall i :: 0 <= i < |policies| ==> PolicyBoxError(ice, policies[i], boxes).None?
  {
    if policies != [] {
      GateIff(ice, policies[1..], boxes);
      assert forall i :: 0 < i < |policies| ==> policies[i] == policies[1..][i - 1];
    }
  }

  lemma TiersSaid(act: seq<BoxRow>, boxes: seq<Box>, t: Tier)
    requires BoxesSaid(act, boxes)
    ensures HasTier(boxes, t) <==> exists j :: 0 <= j < |act| && act[j].tier == Some(t)
  {
    TierSeen(act, boxes, Some(t));
  }

  lemma RulesBoxedIff(row: PolicyRow, p: Policy, act: seq<BoxRow>, boxes: seq<Box>)
    requires Reads(row, p) && SoundRules(row) && BoxesSaid(act, boxes)
    ensures RulesBoxed(p, boxes) <==> Boxed(row, act)
  {
    if RulesBoxed(p, boxes) {
      forall i | 0 <= i < |row.rules| ensures exists j :: 0 <= j < |act| && act[j].tier == row.rules[i].tier {
        assert SoundRule(row, row.rules[i]);
        var rule := Rule(row.rules[i].service.value, row.rules[i].tier.value, row.rules[i].throughHours.value, row.rules[i].blocks.value);
        assert NamesRule(row.rules[i], rule);
        assert rule in p.rules;
        var k :| 0 <= k < |p.rules| && p.rules[k] == rule;
        TiersSaid(act, boxes, p.rules[k].tier);
      }
    }
    if Boxed(row, act) {
      forall k | 0 <= k < |p.rules| ensures HasTier(boxes, p.rules[k].tier) {
        assert p.rules[k] in p.rules;
        var i :| 0 <= i < |row.rules| && NamesRule(row.rules[i], p.rules[k]);
        TiersSaid(act, boxes, p.rules[k].tier);
      }
    }
  }

  lemma SomeCoversIff(ice: Ice, row: PolicyRow, p: Policy, s: Service, act: seq<BoxRow>, boxes: seq<Box>)
    requires Reads(row, p) && PolicyOk(p) && UsableBoxes(act) && BoxesSaid(act, boxes)
    ensures SomeCovers(ice, p, s, boxes) <==> ServiceCarried(ice, row, s, act)
  {
    forall j | 0 <= j < |act| ensures Covers(ice, p, s, boxes[j]) <==> CarriesLongest(ice, row, s, act[j]) {
      CoversIff(ice, row, p, s, act[j], boxes[j]);
    }
  }

  lemma CarriedIff(ice: Ice, row: PolicyRow, p: Policy, act: seq<BoxRow>, boxes: seq<Box>)
    requires Reads(row, p) && PolicyOk(p) && SoundRules(row) && UsableBoxes(act) && BoxesSaid(act, boxes)
    ensures PolicyBoxError(ice, p, boxes).None? <==> Carried(ice, row, act)
  {
    RulesBoxedIff(row, p, act, boxes);
    forall s ensures SomeCovers(ice, p, s, boxes) <==> ServiceCarried(ice, row, s, act) {
      SomeCoversIff(ice, row, p, s, act, boxes);
    }
  }

  ghost predicate AllCarried(ice: Ice, act: seq<PolicyRow>, boxes: seq<BoxRow>) {
    forall i :: 0 <= i < |act| ==> Carried(ice, act[i], boxes)
  }

  lemma AllCarriedIff(ice: Ice, act: seq<PolicyRow>, policies: seq<Policy>, rows: seq<BoxRow>, boxes: seq<Box>, now: int)
    requires AllSound(act, now) && AllRead(act, policies) && UsableBoxes(rows) && BoxesSaid(rows, boxes)
    requires forall p :: p in policies ==> PolicyOk(p)
    ensures GateError(ice, policies, boxes).None? <==> AllCarried(ice, act, rows)
  {
    GateIff(ice, policies, boxes);
    forall i | 0 <= i < |act| ensures PolicyBoxError(ice, policies[i], boxes).None? <==> Carried(ice, act[i], rows) {
      assert SoundRow(act[i], now) && Reads(act[i], policies[i]) && policies[i] in policies;
      CarriedIff(ice, act[i], policies[i], rows, boxes);
    }
  }

  /*** Publication ***/

  /** The setting is on, of the continuous model, versioned, and priced. */
  predicate SoundSetting(setting: Setting) {
    && setting.enabled == Some(true) && setting.continuousWeight && setting.version != ""
    && Above(0.0, setting.minimumIce) && Above(0.0, setting.blockWeight) && Above(0.0, setting.icePrice)
  }

  /** What is in force says what the active rows say. */
  ghost predicate InForceAs(setting: Setting, policyRows: seq<PolicyRow>, boxRows: seq<BoxRow>, v: Published) {
    && AllRead(policyRows, v.policies) && BoxesSaid(boxRows, v.boxes)
    && setting.minimumIce == Number(v.ice.minimum) && setting.blockWeight == Number(v.ice.blockWeight)
    && setting.icePrice == Number(v.ice.price)
  }

  /** The active rows of a setting that can be published. */
  ghost predicate Publishable(setting: Setting, policyRows: seq<PolicyRow>, boxRows: seq<BoxRow>, now: int) {
    && SoundSetting(setting) && setting.policies.Some? && Approvable(policyRows, now)
    && boxRows != [] && UsableBoxes(boxRows)
    && AllCarried(Ice(setting.minimumIce.value, setting.blockWeight.value, setting.icePrice.value), policyRows, boxRows)
  }

  /** A setting that is not switched off is published exactly when it is sound, its active policies are approvable
      together, its active boxes usable, and every policy is carried; and then its active rows are in force. */
  lemma PublishIff(setting: Setting, now: int) returns (policyRows: seq<PolicyRow>, boxRows: seq<BoxRow>)
    requires setting.enabled != Some(false)
    ensures setting.policies.Some? ==> AreActive(setting.policies.value, policyRows)
    ensures ActiveBoxes(setting.boxes, boxRows)
    ensures Publish(setting, now).Ok? <==> Publishable(setting, policyRows, boxRows, now)
    ensures Publish(setting, now).Ok? ==> InForceAs(setting, policyRows, boxRows, Publish(setting, now).value)
  {
    policyRows, boxRows := [], ActiveRows(setting.boxes);
    ActiveRowsLaw(setting.boxes);
    if setting.policies.Some? {
      policyRows := ListIff(setting.policies.value, now);
      if SoundSetting(setting) && Parse(setting.policies, now).Ok? {
        PublishParsed(setting, now, policyRows, boxRows, Parse(setting.policies, now).value);
      }
    }
  }

  lemma BoxesChecked(rows: seq<BoxRow>)
    ensures ReadBoxes([], rows).Some? <==> UsableBoxes(rows)
    ensures ReadBoxes([], rows).Some? ==> BoxesSaid(rows, ReadBoxes([], rows).value)
  {
    BoxesIff(rows, 0, []);
    assert rows[0..] == rows;
  }

  lemma GateChecked(ice: Ice, act: seq<PolicyRow>, policies: seq<Policy>, rows: seq<BoxRow>, now: int)
    requires AllSound(act, now) && AllRead(act, policies) && forall p :: p in policies ==> PolicyOk(p)
    ensures ReadBoxes([], rows).Some? ==>
              (GateError(ice, policies, ReadBoxes([], rows).value).None? <==> AllCarried(ice, act, rows))
  {
    BoxesChecked(rows);
    if ReadBoxes([], rows).Some? {
      AllCarriedIff(ice, act, policies, rows, ReadBoxes([], rows).value, now);
    }
  }

  lemma PublishParsed(setting: Setting, now: int, policyRows: seq<PolicyRow>, boxRows: seq<BoxRow>, policies: seq<Policy>)
    requires SoundSetting(setting) && Parse(setting.policies, now) == Ok(policies) && boxRows == ActiveRows(setting.boxes)
    requires Approvable(policyRows, now) && AllRead(policyRows, policies)
    ensures Publish(setting, now).Ok? <==> Publishable(setting, policyRows, boxRows, now)
    ensures Publish(setting, now).Ok? ==> InForceAs(setting, policyRows, boxRows, Publish(setting, now).value)
  {
    var ice := Ice(setting.minimumIce.value, setting.blockWeight.value, setting.icePrice.value);
    ParsedListOk(setting.policies, now);
    BoxesChecked(boxRows);
    GateChecked(ice, policyRows, policies, boxRows, now);
    PublishSteps(setting, now, policies, ice);
  }

  /** The steps left once the policies are parsed. */
  lemma PublishSteps(setting: Setting, now: int, policies: seq<Policy>, ice: Ice)
    requires SoundSetting(setting) && Parse(setting.policies, now) == Ok(policies)
    requires ice == Ice(setting.minimumIce.value, setting.blockWeight.value, setting.icePrice.value)
    ensures var rows := ActiveRows(setting.boxes);
            && (Publish(setting, now).Ok? <==>
                  rows != [] && ReadBoxes([], rows).Some? && GateError(ice, policies, ReadBoxes([], rows).value).None?)
            && (Publish(setting, now).Ok? ==> Publish(setting, now).value == Published(policies, ReadBoxes([], rows).value, ice))
  {
  }
}
