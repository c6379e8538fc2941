/** A calendar choice handed to the packing planner, which holds the hours it states against its own instants. */
module PackingHandover {
  import opened Base
  import opened Clock
  import Calendar
  import CalendarLaws
  import opened PackingPolicy
  import opened PackingPolicyLaws
  import opened Packing

  function ServiceNamed(code: string): Option<Service> {
    if code == "GROUND" then Some(Ground)
    else if code == "3_DAY_SELECT" then Some(ThreeDaySelect)
    else if code == "2ND_DAY_AIR" then Some(SecondDayAir)
    else if code == "OVERNIGHT" then Some(Overnight)
    else None
  }

  datatype HandoverError = CarrierCalendarRequired

  function StatedHours(c: Calendar.Choice): real {
    c.elapsedHours as real / 10_000.0
  }

  /** `packingContextFromCalendar`. */
  function ContextOf(request: Calendar.Request, c: Calendar.Choice): Result<Context, HandoverError> {
    if !request.mode.UpsShipping? || c.transit.None? then Err(CarrierCalendarRequired)
    else
      Ok(Context(ServiceNamed(request.service), c.transit.value.businessDays, c.transit.value.revision, Some(c.packedAt),
                 Some(c.arrivalBy), Some(c.packingDays), Some(StatedHours(c))))
  }

  /** The carrier's code names this service, or none. */
  predicate CodeOf(code: string, service: Option<Service>) {
    match service
    case Some(Ground) => code == "GROUND"
    case Some(ThreeDaySelect) => code == "3_DAY_SELECT"
    case Some(SecondDayAir) => code == "2ND_DAY_AIR"
    case Some(Overnight) => code == "OVERNIGHT"
    case None => code !in ["GROUND", "3_DAY_SELECT", "2ND_DAY_AIR", "OVERNIGHT"]
  }

  /** Packing is given just what the choice says: its service, its transit, its instants, and its exposure in days and in
      hours, of which the choice counts ten-thousandths. */
  predicate Says(request: Calendar.Request, c: Calendar.Choice, x: Context) {
    && c.transit.Some? && CodeOf(request.service, x.service)
    && x.transitDays == c.transit.value.businessDays && x.transitRevision == c.transit.value.revision
    && x.packedAt == Some(c.packedAt) && x.arrivalBy == Some(c.arrivalBy) && x.packingDays == Some(c.packingDays)
    && x.elapsedHours.Some? && 10_000.0 * x.elapsedHours.value == c.elapsedHours as real
  }

  lemma ServiceNames(code: string, service: Option<Service>)
    ensures ServiceNamed(code) == service <==> CodeOf(code, service)
  {
  }

  /** A choice can be handed over exactly when it is a carrier's shipment. */
  lemma ContextIff(request: Calendar.Request, c: Calendar.Choice, x: Context)
    ensures ContextOf(request, c) == Ok(x) <==> request.mode.UpsShipping? && Says(request, c, x)
  {
    ServiceNames(request.service, x.service);
  }

  /*** Four decimals of an hour ***/

  /** Every third of a twentieth of an hour, a minute, has four decimals only at whole twentieths. */
  lemma MinutesToHours(from: int, to: int, minutes: int)
    requires to - from == minutes * 60_000
    ensures var stated := Calendar.ElapsedHours(to - from) as real / 10_000.0;
            && (minutes % 3 == 0 ==> stated == Hours(from, to))
            && (minutes % 3 != 0 ==> AbsReal(Hours(from, to) - stated) > HOURS_TOLERANCE)
  {
    var k := minutes / 3;
    if minutes % 3 == 0 {
      assert Calendar.ElapsedHours(180_000 * k) == 500 * k;
    } else if minutes % 3 == 1 {
      assert Calendar.ElapsedHours(180_000 * k + 60_000) == 500 * k + 167;
    } else {
      assert Calendar.ElapsedHours(180_000 * k + 120_000) == 500 * k + 333;
    }
  }

  /** Rounding does not change how many days have begun. */
  lemma StatedDays(minutes: int)
    requires minutes > 0
    ensures var stated := Calendar.ElapsedHours(minutes * 60_000) as real / 10_000.0;
            stated > 0.0 && WholeDays(stated) == Calendar.PackingDays(minutes * 60_000)
  {
    var days := (minutes + 1439) / 1440;
    var n := Calendar.ElapsedHours(minutes * 60_000);
    assert 240_000 * (days - 1) < n <= 240_000 * days;
    assert (minutes * 60_000 + DAY - 1) / DAY == days;
    DaysBegun(n, days);
  }

  lemma DaysBegun(n: int, days: int)
    requires 240_000 * (days - 1) < n <= 240_000 * days
    ensures WholeDays(n as real / 10_000.0) == days
  {
    assert -(days as real) <= -(n as real / 10_000.0) / 24.0 < -(days as real) + 1.0;
  }

  lemma WholeMinutes(zone: Zone, date: int, minute: nat)
    requires LocalInstant(zone, date, minute).Some?
    ensures LocalInstant(zone, date, minute).value % 60_000 == 0
  {
    var hours := date * 24 + (if zone(date * DAY + minute * MINUTE + 4 * HOUR) == -4 * HOUR then 4 else 5);
    assert LocalInstant(zone, date, minute).value == 60_000 * (60 * hours + minute);
  }

  /*** A calendar's choices ***/

  /** A choice that a calendar shows for a shipment. */
  ghost predicate Shown(q: Calendar.Query, now: int, c: Calendar.Choice) {
    && q.request.mode.UpsShipping? && Calendar.Answerable(q, now)
    && Calendar.Compute(q, now).Ok? && c in Calendar.Compute(q, now).value.choices
  }

  /** What a calendar writes down of a choice's exposure. */
  predicate Measured(c: Calendar.Choice) {
    && c.transit.Some? && c.packedAt <= c.arrivalBy && (c.arrivalBy - c.packedAt) % 60_000 == 0
    && c.elapsedHours == Calendar.ElapsedHours(c.arrivalBy - c.packedAt)
    && c.packingDays == Calendar.PackingDays(c.arrivalBy - c.packedAt)
  }

  lemma ShownIsMeasured(q: Calendar.Query, now: int, c: Calendar.Choice)
    requires Shown(q, now, c)
    ensures Measured(c) && ContextOf(q.request, c).Ok?
  {
    CalendarLaws.ExactlyListed(q, now);
    PromiseIsMeasured(q, now, c);
  }

  lemma PromiseIsMeasured(q: Calendar.Query, now: int, c: Calendar.Choice)
    requires q.request.mode.UpsShipping? && Calendar.Sourced(q) && CalendarLaws.Listed(q, now, c)
    ensures Measured(c)
  {
    InstantsAreMeasured(q, now, c, c.pickDate, q.policy.ups.cutoffTime, q.policy.ups.packTime, q.policy.ups.arrivalByTime);
  }

  lemma InstantsAreMeasured(q: Calendar.Query, now: int, c: Calendar.Choice, cutoffDate: int, cutoffTime: Calendar.Minute,
                            packTime: Calendar.Minute, end: Calendar.Minute)
    requires c.transit.Some? && CalendarLaws.Instants(q, now, c, cutoffDate, cutoffTime, packTime, end)
    ensures Measured(c)
  {
    WholeMinutes(q.zone, c.pickDate, packTime);
    WholeMinutes(q.zone, c.arrivalDate, end);
    WholeMinutesApart(c.packedAt, c.arrivalBy);
  }

  lemma WholeMinutesApart(from: int, to: int)
    requires from % 60_000 == 0 && to % 60_000 == 0
    ensures (to - from) % 60_000 == 0
  {
  }

  /** The exposure is a whole number of three-minute steps, and not nothing. */
  predicate OnGrid(c: Calendar.Choice) {
    c.packedAt < c.arrivalBy && (c.arrivalBy - c.packedAt) % 180_000 == 0
  }

  function ShipmentFor(request: Calendar.Request, c: Calendar.Choice): Shipment {
    Shipment(ServiceNamed(request.service), Some(c.packedAt), Some(c.arrivalBy), Some(StatedHours(c)))
  }

  lemma ThreeMinutes(elapsed: int) returns (minutes: int)
    requires elapsed % 60_000 == 0
    ensures elapsed == minutes * 60_000 && (elapsed % 180_000 == 0 <==> minutes % 3 == 0)
  {
    minutes := elapsed / 60_000;
  }

  lemma MeasuredHours(c: Calendar.Choice)
    requires Measured(c)
    ensures OnGrid(c) ==> StatedHours(c) == Hours(c.packedAt, c.arrivalBy) > 0.0
    ensures !OnGrid(c) ==>
              Hours(c.packedAt, c.arrivalBy) <= 0.0 || AbsReal(Hours(c.packedAt, c.arrivalBy) - StatedHours(c)) > HOURS_TOLERANCE
  {
    var minutes := ThreeMinutes(c.arrivalBy - c.packedAt);
    MinutesToHours(c.packedAt, c.arrivalBy, minutes);
    HoursPositive(c.packedAt, c.arrivalBy);
  }

  lemma MeasuredSelects(zone: Zone, request: Calendar.Request, c: Calendar.Choice, policies: seq<Policy>)
    requires Measured(c)
    ensures Select(zone, policies, ShipmentFor(request, c)) == Err(InconsistentExposure) <==> !OnGrid(c)
  {
    MeasuredHours(c);
  }

  /** A calendar's choice passes the exposure check exactly when its exposure is a positive multiple of three minutes;
      and then it is selected exactly as its instants deserve. */
  lemma ShownSelects(q: Calendar.Query, now: int, c: Calendar.Choice, policies: seq<Policy>, p: Policy)
    requires Shown(q, now, c) && Eastern(q.zone) && !SomeOverlap(policies)
    ensures ContextOf(q.request, c).Ok? && ShipmentOf(ContextOf(q.request, c).value) == ShipmentFor(q.request, c)
    ensures Select(q.zone, policies, ShipmentFor(q.request, c)) == Err(InconsistentExposure) <==> !OnGrid(c)
    ensures Selects(q.zone, policies, ShipmentFor(q.request, c), p) <==>
            && OnGrid(c) && p in policies && WithinLimits(q.zone, p, c.packedAt, c.arrivalBy)
            && Applies(p, ServiceNamed(q.request.service), EasternDate(q.zone, c.packedAt), EasternDate(q.zone, c.arrivalBy))
  {
    ShownIsMeasured(q, now, c);
    MeasuredSelects(q.zone, q.request, c, policies);
    OnGridSelects(q.zone, q.request, c, policies, p);
  }

  predicate Selects(zone: Zone, policies: seq<Policy>, shipment: Shipment, p: Policy) {
    Select(zone, policies, shipment).Ok? && Select(zone, policies, shipment).value.policy == p
  }

  lemma OnGridSelects(zone: Zone, request: Calendar.Request, c: Calendar.Choice, policies: seq<Policy>, p: Policy)
    requires Measured(c) && Eastern(zone) && !SomeOverlap(policies)
    ensures OnGrid(c) ==>
              (Selects(zone, policies, ShipmentFor(request, c), p) <==>
               && p in policies && WithinLimits(zone, p, c.packedAt, c.arrivalBy)
               && Applies(p, ServiceNamed(request.service), EasternDate(zone, c.packedAt), EasternDate(zone, c.arrivalBy)))
  {
    if OnGrid(c) {
      MeasuredHours(c);
      SelectIff(zone, policies, ServiceNamed(request.service), c.packedAt, c.arrivalBy, p);
    }
  }

  lemma MeasuredDaysAgree(request: Calendar.Request, c: Calendar.Choice)
    requires Measured(c) && ContextOf(request, c).Ok?
    ensures ElapsedOk(ContextOf(request, c).value) <==> c.packedAt < c.arrivalBy
  {
    var minutes := (c.arrivalBy - c.packedAt) / 60_000;
    assert c.arrivalBy - c.packedAt == minutes * 60_000;
    if minutes > 0 {
      StatedDays(minutes);
    }
  }

  /** The planner's own check of the stated hours against the stated days never refuses a calendar's choice that lasts. */
  lemma ShownDaysAgree(q: Calendar.Query, now: int, c: Calendar.Choice)
    requires Shown(q, now, c)
    ensures ContextOf(q.request, c).Ok?
    ensures ElapsedOk(ContextOf(q.request, c).value) <==> c.packedAt < c.arrivalBy
  {
    ShownIsMeasured(q, now, c);
    MeasuredDaysAgree(q.request, c);
  }

  /** A choice off the three-minute grid can be shown and signed, but no plan is ever made for it. */
  lemma OffGridIsNeverPacked(q: Calendar.Query, now: int, c: Calendar.Choice, rank: Rank, lines: seq<Line>,
                             fitRuleId: string, setting: Setting, carrierMax: Field, later: int)
    requires Shown(q, now, c) && !OnGrid(c)
    ensures ContextOf(q.request, c).Ok?
    ensures CreatePlan(q.zone, rank, lines, fitRuleId, setting, ContextOf(q.request, c).value, carrierMax, later).Err?
  {
    ShownIsMeasured(q, now, c);
    NeverLoaded(q.zone, q.request, c, lines, fitRuleId, setting, carrierMax, later);
  }

  lemma OffGridIsRefused(q: Calendar.Query, now: int, c: Calendar.Choice, policies: seq<Policy>)
    requires Shown(q, now, c) && !OnGrid(c)
    ensures ContextOf(q.request, c).Ok?
    ensures Select(q.zone, policies, ShipmentOf(ContextOf(q.request, c).value)) == Err(InconsistentExposure)
  {
    ShownIsMeasured(q, now, c);
    MeasuredSelects(q.zone, q.request, c, policies);
  }

  lemma NeverLoaded(zone: Zone, request: Calendar.Request, c: Calendar.Choice, lines: seq<Line>, fitRuleId: string,
                    setting: Setting, carrierMax: Field, later: int)
    requires Measured(c) && !OnGrid(c) && ContextOf(request, c).Ok?
    ensures LoadFor(zone, lines, fitRuleId, setting, ContextOf(request, c).value, carrierMax, later).Err?
  {
    var published := Publish(setting.(boxes := AllActive(setting.boxes)), later);
    if published.Ok? {
      MeasuredSelects(zone, request, c, published.value.policies);
    }
  }
}
