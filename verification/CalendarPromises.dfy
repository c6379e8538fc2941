/** What the calendar promises, told from the policy's own lists and limits. */
module CalendarPromises {
  import opened Base
  import opened Clock
  import opened Permutations
  import opened Calendar
  import opened CalendarLaws

  /*** Days ***/

  /** The weekdays are those of the calendar: 8 March 2026 is a Sunday, and each day is followed by the next. */
  lemma WeekdaysAnchored(d: int)
    ensures Weekday(20_520) == 0 && Weekday(d + 1) == (if Weekday(d) == 6 then 0 else Weekday(d) + 1) && 0 <= Weekday(d) <= 6
  {
  }

  /** The plant works that day. */
  predicate WorksOn(p: Policy, d: int) {
    p.validFrom <= d <= p.validThrough && Weekday(d) in p.operationsWeekdays && d !in p.operationsBlackouts
  }

  /** The carrier moves and delivers parcels that day. */
  predicate CarriesOn(p: Policy, d: int) {
    p.validFrom <= d <= p.validThrough && Weekday(d) in p.ups.carrierWeekdays && d !in p.upsDeliveryBlackouts
  }

  /** Parcels are handed to the carrier that day. */
  predicate DispatchesOn(p: Policy, d: int) {
    WorksOn(p, d) && Weekday(d) in p.ups.dispatchWeekdays && d !in p.upsPickupBlackouts
  }

  /** How many of the `n` days after `d` are good ones. */
  function DaysAfter(d: int, n: nat, good: int -> bool): nat {
    if n == 0 then 0 else DaysAfter(d, n - 1, good) + (if good(d + n) then 1 else 0)
  }

  /** How many of the `n` days before `d` are good ones. */
  function DaysBefore(d: int, n: nat, good: int -> bool): nat {
    if n == 0 then 0 else DaysBefore(d, n - 1, good) + (if good(d - n) then 1 else 0)
  }

  /** The pick date, the preparation days before a date: a working day, with that many working days from it up to the day
      before. */
  predicate PickedAhead(p: Policy, day: int, preparationDays: nat, pick: int) {
    && pick <= day < pick + 366 && WorksOn(p, pick)
    && DaysBefore(day, day - pick, d => WorksOn(p, d)) == preparationDays
  }

  /*** Instants ***/

  /** The instant shows this local date and minute, and none before it does. */
  ghost predicate FirstShowing(zone: Zone, at: int, date: int, minute: nat) {
    && at + zone(at) == 86_400_000 * date + 60_000 * minute
    && forall e: int :: e < at ==> e + zone(e) != 86_400_000 * date + 60_000 * minute
  }

  /** Eastern local date of an instant. */
  ghost predicate OnDate(zone: Zone, at: int, date: int) {
    86_400_000 * date <= at + zone(at) < 86_400_000 * (date + 1)
  }

  /** The choice's times: packed and due at the local times given, cut off at the earlier of its order cutoff and its
      packing, which are both ahead; its exposure in days begun, one at least, and to the nearest ten-thousandth of an
      hour, halves up. */
  ghost predicate TimesRight(zone: Zone, now: int, c: Choice, cutoffDate: int, cutoffTime: nat, packTime: nat, dueTime: nat) {
    var exposure := c.arrivalBy - c.packedAt;
    && FirstShowing(zone, c.packedAt, c.pickDate, packTime) && FirstShowing(zone, c.arrivalBy, c.arrivalDate, dueTime)
    && (exists cutoff: int :: FirstShowing(zone, cutoff, cutoffDate, cutoffTime)
          && c.cutoffAt == if cutoff < c.packedAt then cutoff else c.packedAt)
    && now < c.cutoffAt && 0 <= exposure
    && 1 <= c.packingDays && exposure <= 86_400_000 * c.packingDays
    && (1 < c.packingDays ==> 86_400_000 * (c.packingDays - 1) < exposure)
    && 360 * c.elapsedHours - 180 <= exposure < 360 * c.elapsedHours + 180
  }

  /*** Shipping ***/

  /** A shipped choice: dispatched on a dispatch day within the carrier's answer, arriving the promised number of carrier
      days later on an arrival weekday, picked the preparation days before, and exposed no longer than allowed. */
  ghost predicate Ships(zone: Zone, now: int, p: Policy, t: Transit, c: Choice) {
    && DispatchesOn(p, c.dispatchDate) && t.validFrom <= c.dispatchDate
    && (t.dispatchDate.Some? ==> t.dispatchDate.value == c.dispatchDate)
    && c.dispatchDate <= c.arrivalDate < c.dispatchDate + 366 && CarriesOn(p, c.arrivalDate)
    && DaysAfter(c.dispatchDate, c.arrivalDate - c.dispatchDate, d => CarriesOn(p, d)) == t.businessDays
    && c.arrivalDate <= t.validThrough && Weekday(c.arrivalDate) in p.ups.arrivalWeekdays
    && (t.estimatedArrivalDate.Some? ==> t.estimatedArrivalDate.value == c.arrivalDate)
    && (!p.ups.allowNonDeliveryDayHold ==> c.arrivalDate - c.dispatchDate == t.businessDays)
    && PickedAhead(p, c.dispatchDate, p.ups.preparationDays, c.pickDate)
    && c.window == None && c.transit == Some(t)
    && TimesRight(zone, now, c, c.pickDate, p.ups.cutoffTime, p.ups.packTime, p.ups.arrivalByTime)
    && c.arrivalBy - c.packedAt <= 3_600_000 * p.ups.maxElapsedHours
  }

  /*** Pickup and local delivery ***/

  /** A pickup or local delivery on a schedule: on one day, in one of its windows, picked its preparation days before, or
      the same day if there are none. */
  ghost predicate Serves(zone: Zone, now: int, p: Policy, s: Schedule, cutoffTime: nat, c: Choice) {
    && c.dispatchDate == c.arrivalDate && c.arrivalDate !in p.operationsBlackouts
    && (if s.preparationDays == 0 then c.pickDate == c.arrivalDate
        else PickedAhead(p, c.arrivalDate, s.preparationDays, c.pickDate))
    && c.transit == None && c.window.Some? && c.window.value in s.windows
    && TimesRight(zone, now, c, c.arrivalDate - s.cutoffDays, cutoffTime, s.packTime, c.window.value.end)
  }

  /** The plant's cutoff time on a weekday: its own, unless the weekday has another. */
  predicate PlantCutoff(p: Policy, day: int, time: Minute) {
    if exists o :: o in p.plant.cutoffOverrides && o.weekday == day then
      exists o :: o in p.plant.cutoffOverrides && o.weekday == day && o.time == time
    else time == p.plant.schedule.cutoffTime
  }

  /** What the calendar promises a buyer, by the way of delivery asked for. */
  ghost predicate Promised(q: Query, now: int, c: Choice) {
    && InSight(q.zone, q.policy, now, c)
    && match q.request.mode
       case UpsShipping => q.transit.Some? && Ships(q.zone, now, q.policy, q.transit.value, c)
       case PlantPickup =>
         && c.arrivalDate !in q.policy.plant.blackoutDates
         && (Weekday(c.arrivalDate) in q.policy.plant.weekdays || c.arrivalDate in q.policy.plant.additionalDates)
         && exists time: Minute :: PlantCutoff(q.policy, Weekday(c.arrivalDate), time)
                                   && Serves(q.zone, now, q.policy, q.policy.plant.schedule, time, c)
       case AtlantaDelivery =>
         exists r :: r in q.policy.atlanta && r.zip == q.request.postalCode && Weekday(c.arrivalDate) in r.weekdays
                     && Serves(q.zone, now, q.policy, r.schedule, r.schedule.cutoffTime, c)
       case SoutheastPickup =>
         exists r :: r in q.policy.southeast && Some(r.id) == q.request.routeId && r.active && c.arrivalDate in r.dates
                     && Serves(q.zone, now, q.policy, r.schedule, r.schedule.cutoffTime, c)
       case UnknownMode(_) => false
  }

  /** Picked today or later, within coverage, and arriving within it and within the days looked ahead. */
  ghost predicate InSight(zone: Zone, p: Policy, now: int, c: Choice) {
    && (exists today: int :: OnDate(zone, now, today) && today <= c.pickDate && c.arrivalDate <= today + p.lookAheadDays)
    && p.validFrom <= c.pickDate <= p.validThrough && p.validFrom <= c.dispatchDate <= p.validThrough
    && c.arrivalDate <= p.validThrough
  }

  /*** The tests are these ***/

  lemma {:induction false} CountsAgree(d: int, n: nat, open: Open, good: int -> bool)
    requires forall x: int :: open(x) == good(x)
    ensures OpenDays(d, n, 1, open) == DaysAfter(d, n, good) && OpenDays(d, n, -1, open) == DaysBefore(d, n, good)
  {
    if n > 0 {
      CountsAgree(d, n - 1, open, good);
      assert d + n * -1 == d - n;
    }
  }

  lemma PreparedIff(p: Policy, day: int, preparationDays: nat, pick: int)
    ensures PreparedFrom(p, day, preparationDays, pick) <==> PickedAhead(p, day, preparationDays, pick)
  {
    if 0 <= day - pick < SEARCH_LIMIT {
      CountsAgree(day, day - pick, Operations(p), d => WorksOn(p, d));
    }
  }

  lemma CarriesIff(p: Policy, dispatch: int, businessDays: int, arrival: int)
    ensures Carries(p, dispatch, businessDays, arrival) <==>
            && dispatch <= arrival < dispatch + 366 && CarriesOn(p, arrival)
            && DaysAfter(dispatch, arrival - dispatch, d => CarriesOn(p, d)) == businessDays
  {
    if 0 <= arrival - dispatch < SEARCH_LIMIT {
      CountsAgree(dispatch, arrival - dispatch, Carrier(p), d => CarriesOn(p, d));
    }
  }

  lemma ShowingIff(zone: Zone, at: int, date: int, minute: nat)
    requires EasternOffsets(zone) && minute < 1440
    ensures LocalInstant(zone, date, minute) == Some(at) <==> FirstShowing(zone, at, date, minute)
  {
    var target := 86_400_000 * date + 60_000 * minute;
    assert target == date * DAY + minute * MINUTE;
    assert zone(target + 4 * HOUR) == -4 * HOUR || zone(target + 4 * HOUR) == -5 * HOUR;
    assert zone(target + 5 * HOUR) == -4 * HOUR || zone(target + 5 * HOUR) == -5 * HOUR;
    assert forall e: int :: e + zone(e) == target ==> e == target + 4 * HOUR || e == target + 5 * HOUR;
  }

  lemma ExposureIff(exposure: int, days: int, hours: int)
    requires 0 <= exposure
    ensures days == PackingDays(exposure) <==>
            1 <= days && exposure <= 86_400_000 * days && (1 < days ==> 86_400_000 * (days - 1) < exposure)
    ensures hours == ElapsedHours(exposure) <==> 360 * hours - 180 <= exposure < 360 * hours + 180
  {
  }

  lemma TimesIff(q: Query, now: int, c: Choice, cutoffDate: int, cutoffTime: Minute, packTime: Minute, end: Minute)
    requires EasternOffsets(q.zone)
    ensures Instants(q, now, c, cutoffDate, cutoffTime, packTime, end) <==>
            TimesRight(q.zone, now, c, cutoffDate, cutoffTime, packTime, end)
  {
    ShowingIff(q.zone, c.packedAt, c.pickDate, packTime);
    ShowingIff(q.zone, c.arrivalBy, c.arrivalDate, end);
    var cutoff := LocalInstant(q.zone, cutoffDate, cutoffTime);
    if cutoff.Some? {
      ShowingIff(q.zone, cutoff.value, cutoffDate, cutoffTime);
    }
    forall at: int | FirstShowing(q.zone, at, cutoffDate, cutoffTime) ensures cutoff == Some(at) {
      ShowingIff(q.zone, at, cutoffDate, cutoffTime);
    }
    if c.packedAt <= c.arrivalBy {
      ExposureIff(c.arrivalBy - c.packedAt, c.packingDays, c.elapsedHours);
    }
  }

  lemma ShipsIff(q: Query, now: int, c: Choice)
    requires EasternOffsets(q.zone) && q.transit.Some?
    ensures UpsPromise(q, now, c) <==> Ships(q.zone, now, q.policy, q.transit.value, c)
  {
    var p, t := q.policy, q.transit.value;
    CarriesIff(p, c.dispatchDate, t.businessDays, c.arrivalDate);
    PreparedIff(p, c.dispatchDate, p.ups.preparationDays, c.pickDate);
    TimesIff(q, now, c, c.pickDate, p.ups.cutoffTime, p.ups.packTime, p.ups.arrivalByTime);
  }

  lemma ServesIff(q: Query, now: int, route: Route, c: Choice)
    requires EasternOffsets(q.zone)
    ensures RoutePromise(q, now, route, c) <==>
            route.serves(c.arrivalDate) && Serves(q.zone, now, q.policy, route.schedule, CutoffTime(route, Weekday(c.arrivalDate)), c)
  {
    RouteDatesIff(q.policy, route, c);
    if c.window.Some? {
      RouteTimesIff(q, now, route, c);
    }
  }

  lemma RouteTimesIff(q: Query, now: int, route: Route, c: Choice)
    requires EasternOffsets(q.zone) && c.window.Some?
    ensures RouteInstants(q, now, route, c) <==>
            TimesRight(q.zone, now, c, c.arrivalDate - route.schedule.cutoffDays, CutoffTime(route, Weekday(c.arrivalDate)),
                       route.schedule.packTime, c.window.value.end)
  {
    TimesIff(q, now, c, c.arrivalDate - route.schedule.cutoffDays, CutoffTime(route, Weekday(c.arrivalDate)),
             route.schedule.packTime, c.window.value.end);
  }

  lemma RouteDatesIff(p: Policy, route: Route, c: Choice)
    ensures RouteDates(p, route, c) <==>
            && c.dispatchDate == c.arrivalDate && c.arrivalDate !in p.operationsBlackouts && route.serves(c.arrivalDate)
            && (if route.schedule.preparationDays == 0 then c.pickDate == c.arrivalDate
                else PickedAhead(p, c.arrivalDate, route.schedule.preparationDays, c.pickDate))
  {
    PreparedIff(p, c.arrivalDate, route.schedule.preparationDays, c.pickDate);
  }

  lemma {:induction false} OverrideIff(overrides: seq<Override>, day: int, time: Minute)
    requires forall i, j :: 0 <= i < j < |overrides| ==> overrides[i].weekday != overrides[j].weekday
    ensures OverrideFor(overrides, day) == Some(time) <==> exists o :: o in overrides && o.weekday == day && o.time == time
    ensures OverrideFor(overrides, day).None? <==> !exists o :: o in overrides && o.weekday == day
  {
    if overrides != [] {
      OverrideIff(overrides[1..], day, time);
      assert overrides == [overrides[0]] + overrides[1..];
      forall j | 0 <= j < |overrides[1..]| ensures overrides[1..][j].weekday != overrides[0].weekday {
        assert overrides[1..][j] == overrides[j + 1];
      }
    }
  }

  lemma {:induction false} AtlantaIff(routes: seq<AtlantaRoute>, zip: string, r: AtlantaRoute)
    requires forall i, j :: 0 <= i < j < |routes| ==> routes[i].zip != routes[j].zip
    ensures FindAtlanta(routes, zip) == Some(r) <==> r in routes && r.zip == zip
  {
    if routes != [] {
      AtlantaIff(routes[1..], zip, r);
      assert routes == [routes[0]] + routes[1..];
      forall j | 0 <= j < |routes[1..]| ensures routes[1..][j].zip != routes[0].zip {
        assert routes[1..][j] == routes[j + 1];
      }
    }
  }

  lemma {:induction false} SoutheastIff(routes: seq<SoutheastRoute>, id: Option<string>, r: SoutheastRoute)
    requires forall i, j :: 0 <= i < j < |routes| ==> routes[i].id != routes[j].id
    ensures FindSoutheast(routes, id) == Some(r) <==> r in routes && Some(r.id) == id && r.active
  {
    if routes != [] {
      SoutheastIff(routes[1..], id, r);
      assert routes == [routes[0]] + routes[1..];
      forall j | 0 <= j < |routes[1..]| ensures routes[1..][j].id != routes[0].id {
        assert routes[1..][j] == routes[j + 1];
      }
    }
  }

  lemma OnDateIff(zone: Zone, at: int, date: int)
    ensures EasternDate(zone, at) == date <==> OnDate(zone, at, date)
  {
  }

  lemma InSightIff(zone: Zone, p: Policy, now: int, c: Choice)
    ensures DatesInSight(zone, p, now, c) <==> InSight(zone, p, now, c)
  {
    OnDateIff(zone, now, EasternDate(zone, now));
    forall today: int | OnDate(zone, now, today) ensures today == EasternDate(zone, now) {
      OnDateIff(zone, now, today);
    }
  }

  lemma PlantIff(q: Query, now: int, c: Choice)
    requires EasternOffsets(q.zone) && RoutesOk(q.policy) && q.request.mode == PlantPickup
    ensures ModePromise(q, now, c) <==>
            && c.arrivalDate !in q.policy.plant.blackoutDates
            && (Weekday(c.arrivalDate) in q.policy.plant.weekdays || c.arrivalDate in q.policy.plant.additionalDates)
            && exists time: Minute :: PlantCutoff(q.policy, Weekday(c.arrivalDate), time)
                                      && Serves(q.zone, now, q.policy, q.policy.plant.schedule, time, c)
  {
    var route := RouteOf(q.policy, q.request).value;
    var day := Weekday(c.arrivalDate);
    ServesIff(q, now, route, c);
    forall time: Minute ensures PlantCutoff(q.policy, day, time) <==> time == CutoffTime(route, day) {
      OverrideIff(q.policy.plant.cutoffOverrides, day, time);
      OverrideIff(q.policy.plant.cutoffOverrides, day, CutoffTime(route, day));
    }
  }

  lemma AtlantaPromiseIff(q: Query, now: int, c: Choice)
    requires EasternOffsets(q.zone) && RoutesOk(q.policy) && q.request.mode == AtlantaDelivery && Sourced(q)
    ensures ModePromise(q, now, c) <==>
            exists r :: r in q.policy.atlanta && r.zip == q.request.postalCode && Weekday(c.arrivalDate) in r.weekdays
                        && Serves(q.zone, now, q.policy, r.schedule, r.schedule.cutoffTime, c)
  {
    var found := FindAtlanta(q.policy.atlanta, q.request.postalCode).value;
    ServesIff(q, now, RouteOf(q.policy, q.request).value, c);
    AtlantaIff(q.policy.atlanta, q.request.postalCode, found);
    forall r | r in q.policy.atlanta && r.zip == q.request.postalCode ensures r == found {
      AtlantaIff(q.policy.atlanta, q.request.postalCode, r);
    }
  }

  lemma SoutheastPromiseIff(q: Query, now: int, c: Choice)
    requires EasternOffsets(q.zone) && RoutesOk(q.policy) && q.request.mode == SoutheastPickup && Sourced(q)
    ensures ModePromise(q, now, c) <==>
            exists r :: r in q.policy.southeast && Some(r.id) == q.request.routeId && r.active && c.arrivalDate in r.dates
                        && Serves(q.zone, now, q.policy, r.schedule, r.schedule.cutoffTime, c)
  {
    var found := FindSoutheast(q.policy.southeast, q.request.routeId).value;
    ServesIff(q, now, RouteOf(q.policy, q.request).value, c);
    SoutheastIff(q.policy.southeast, q.request.routeId, found);
    forall r | r in q.policy.southeast && Some(r.id) == q.request.routeId && r.active ensures r == found {
      SoutheastIff(q.policy.southeast, q.request.routeId, r);
    }
  }

  lemma ListedIff(q: Query, now: int, c: Choice)
    requires EasternOffsets(q.zone) && RoutesOk(q.policy) && Sourced(q)
    ensures Listed(q, now, c) <==> Promised(q, now, c)
  {
    InSightIff(q.zone, q.policy, now, c);
    match q.request.mode
    case UpsShipping => ShipsIff(q, now, c);
    case PlantPickup => PlantIff(q, now, c);
    case AtlantaDelivery => AtlantaPromiseIff(q, now, c);
    case SoutheastPickup => SoutheastPromiseIff(q, now, c);
    case UnknownMode(_) =>
  }

  /** The calendar lists exactly the choices it promises. */
  lemma ExactlyThePromises(q: Query, now: int)
    requires EasternOffsets(q.zone) && Compute(q, now).Ok? && Answerable(q, now)
    ensures forall c :: c in Compute(q, now).value.choices <==> Promised(q, now, c)
  {
    ExactlyListed(q, now);
    forall c ensures Listed(q, now, c) <==> Promised(q, now, c) {
      ListedIff(q, now, c);
    }
  }

  /*** In order, and each once ***/

  /** No choice twice, and dispatch dates in order from a day on. */
  ghost predicate InOrder(choices: seq<Choice>, from: int) {
    && Distinct(choices) && (forall i :: 0 <= i < |choices| ==> from <= choices[i].dispatchDate)
    && forall i, j :: 0 <= i < j < |choices| ==> choices[i].dispatchDate <= choices[j].dispatchDate
  }

  ghost predicate OfDay(choices: seq<Choice>, day: int) {
    Distinct(choices) && forall i :: 0 <= i < |choices| ==> choices[i].dispatchDate == day
  }

  ghost predicate OwnWindows(slots: seq<Slot>) {
    forall i, j :: 0 <= i < j < |slots| ==> slots[i].window != slots[j].window
  }

  lemma {:induction false} SlotsInOrder(q: Query, now: int, offer: Offer, cutoff: int, slots: seq<Slot>)
    requires OwnWindows(slots) && SlotChoices(q, now, offer, cutoff, slots).Ok?
    ensures var r := SlotChoices(q, now, offer, cutoff, slots).value;
            && OfDay(r, offer.dispatch)
            && forall i :: 0 <= i < |r| ==> exists k :: 0 <= k < |slots| && slots[k].window == r[i].window
  {
    if slots != [] {
      SlotsInOrder(q, now, offer, cutoff, slots[1..]);
      var rest := SlotChoices(q, now, offer, cutoff, slots[1..]).value;
      forall i | 0 <= i < |rest|
        ensures rest[i].window != slots[0].window && exists k :: 0 <= k < |slots| && slots[k].window == rest[i].window
      {
        var k :| 0 <= k < |slots[1..]| && slots[1..][k].window == rest[i].window;
        assert slots[k + 1].window == rest[i].window;
      }
    }
  }

  lemma {:induction false} ScheduleWindows(windows: seq<Window>)
    requires forall i, j :: 0 <= i < j < |windows| ==> windows[i].id != windows[j].id
    ensures OwnWindows(Slots(windows)) && |Slots(windows)| == |windows|
    ensures forall i :: 0 <= i < |windows| ==> Slots(windows)[i].window == Some(windows[i])
  {
    if windows != [] {
      ScheduleWindows(windows[1..]);
    }
  }

  lemma RouteScheduleOk(p: Policy, request: Request)
    requires RoutesOk(p) && RouteOf(p, request).Some?
    ensures ScheduleOk(RouteOf(p, request).value.schedule)
  {
    if request.mode.AtlantaDelivery? {
      var r := FindAtlanta(p.atlanta, request.postalCode).value;
      AtlantaIff(p.atlanta, request.postalCode, r);
    } else if request.mode.SoutheastPickup? {
      var r := FindSoutheast(p.southeast, request.routeId).value;
      SoutheastIff(p.southeast, request.routeId, r);
    }
  }

  lemma DayInOrder(q: Query, now: int, horizon: int, day: int)
    requires RoutesOk(q.policy) && DayChoices(q, now, horizon, day).Ok?
    ensures OfDay(DayChoices(q, now, horizon, day).value, day)
  {
    var offer := OfferOn(q, day);
    if offer.Some? && offer.value.arrival <= horizon {
      OfferOrder(q, day);
      OfferWindows(q, day);
      SlotsInOrder(q, now, offer.value, LocalInstant(q.zone, offer.value.cutoffDate, offer.value.cutoffTime).value, offer.value.slots);
    }
  }

  lemma OfferWindows(q: Query, day: int)
    requires RoutesOk(q.policy) && OfferOn(q, day).Some?
    ensures OwnWindows(OfferOn(q, day).value.slots)
  {
    if !q.request.mode.UpsShipping? {
      RouteScheduleOk(q.policy, q.request);
      ScheduleWindows(RouteOf(q.policy, q.request).value.schedule.windows);
    }
  }

  lemma {:induction false} GatherInOrder(daily: Daily, from: int, last: int)
    requires forall day: int :: daily(day).Ok? ==> OfDay(daily(day).value, day)
    requires Gather(daily, from, last).Ok?
    ensures InOrder(Gather(daily, from, last).value, from)
    decreases last - from
  {
    if from <= last {
      GatherInOrder(daily, from + 1, last);
      Joined(daily(from).value, Gather(daily, from + 1, last).value, from);
    }
  }

  lemma Joined(a: seq<Choice>, b: seq<Choice>, day: int)
    requires OfDay(a, day) && InOrder(b, day + 1)
    ensures InOrder(a + b, day)
  {
  }

  /** The calendar lists each choice once, in the order of dispatch. */
  lemma ChoicesInOrder(q: Query, now: int)
    requires Compute(q, now).Ok?
    ensures InOrder(Compute(q, now).value.choices, EasternDate(q.zone, now))
  {
    if Answerable(q, now) {
      var horizon := Horizon(q.zone, q.policy, now);
      forall day: int | DailyOf(q, now, horizon)(day).Ok? ensures OfDay(DailyOf(q, now, horizon)(day).value, day) {
        DayInOrder(q, now, horizon, day);
      }
      GatherInOrder(DailyOf(q, now, horizon), EasternDate(q.zone, now), horizon);
      Collected(q, now);
    }
  }

  lemma Collected(q: Query, now: int)
    requires Compute(q, now).Ok? && Answerable(q, now)
    ensures Collect(q, now) == Ok(Compute(q, now).value.choices)
  {
  }

  /*** The calendar around the choices ***/

  /** The carrier's answer is for this service and postal code, complete, in force, and of one to fourteen days. */
  predicate InForce(t: Transit, request: Request, now: int) {
    && 1 <= t.businessDays && t.businessDays <= 14 && t.service == request.service
    && t.destinationPostalCode == request.postalCode && t.revision != "" && t.fetchedAt <= now < t.expiresAt
    && |t.originPostalCode| == 5 && forall i :: 0 <= i < 5 ==> t.originPostalCode[i] in "0123456789"
  }

  /** The way of delivery asked for can be answered: a carrier's answer in force, or a route of the policy's. */
  predicate CanAnswer(p: Policy, request: Request, transit: Option<Transit>, now: int) {
    match request.mode
    case UpsShipping => transit.Some? && InForce(transit.value, request, now)
    case PlantPickup => true
    case AtlantaDelivery => exists i :: 0 <= i < |p.atlanta| && p.atlanta[i].zip == request.postalCode
    case SoutheastPickup =>
      exists i :: 0 <= i < |p.southeast| && Some(p.southeast[i].id) == request.routeId && p.southeast[i].active
    case UnknownMode(_) => false
  }

  lemma {:induction false} SomeAtlanta(routes: seq<AtlantaRoute>, zip: string)
    ensures FindAtlanta(routes, zip).Some? <==> exists i :: 0 <= i < |routes| && routes[i].zip == zip
  {
    if routes != [] && routes[0].zip != zip {
      SomeAtlanta(routes[1..], zip);
      if i :| 0 <= i < |routes[1..]| && routes[1..][i].zip == zip {
        assert routes[i + 1].zip == zip;
      }
      if i :| 0 <= i < |routes| && routes[i].zip == zip {
        assert routes[1..][i - 1].zip == zip;
      }
    }
  }

  lemma {:induction false} SomeSoutheast(routes: seq<SoutheastRoute>, id: Option<string>)
    ensures FindSoutheast(routes, id).Some? <==> exists i :: 0 <= i < |routes| && Some(routes[i].id) == id && routes[i].active
  {
    if routes != [] && !(Some(routes[0].id) == id && routes[0].active) {
      SomeSoutheast(routes[1..], id);
      if i :| 0 <= i < |routes[1..]| && Some(routes[1..][i].id) == id && routes[1..][i].active {
        assert Some(routes[i + 1].id) == id && routes[i + 1].active;
      }
      if i :| 0 <= i < |routes| && Some(routes[i].id) == id && routes[i].active {
        assert Some(routes[1..][i - 1].id) == id && routes[1..][i - 1].active;
      }
    }
  }

  lemma AnswerableIff(q: Query, now: int)
    ensures Answerable(q, now) <==> CanAnswer(q.policy, q.request, q.transit, now)
  {
    SomeAtlanta(q.policy.atlanta, q.request.postalCode);
    SomeSoutheast(q.policy.southeast, q.request.routeId);
  }

  /** A policy in force at an instant: approved by then, and covering its Eastern date. */
  ghost predicate PolicyInForce(zone: Zone, p: Policy, now: int) {
    p.approvedAt <= now && exists today: int :: OnDate(zone, now, today) && p.validFrom <= today <= p.validThrough
  }

  lemma PolicyErrorIff(zone: Zone, p: Policy, now: int)
    ensures PolicyOk(p) ==> PolicyError(zone, p, now) == if PolicyInForce(zone, p, now) then None else Some(OutsideCoverage)
    ensures !PolicyOk(p) ==> PolicyError(zone, p, now) == Some(CalendarInvalid)
  {
    OnDateIff(zone, now, EasternDate(zone, now));
    forall today: int | OnDate(zone, now, today) ensures today == EasternDate(zone, now) {
      OnDateIff(zone, now, today);
    }
  }

  /** The policy's last day ends at this instant. */
  ghost predicate LastDayEnds(zone: Zone, p: Policy, midnight: int) {
    FirstShowing(zone, midnight, p.validThrough + 1, 0)
  }

  /** A quote's life: the policy's seconds from now, ending no later than the policy's last day and than the carrier's
      answer it rests on. */
  ghost predicate ExpiresRightly(q: Query, now: int, expiresAt: int) {
    var shipped := q.request.mode.UpsShipping? && CanAnswer(q.policy, q.request, q.transit, now);
    exists midnight: int ::
      && LastDayEnds(q.zone, q.policy, midnight)
      && expiresAt <= now + 1000 * q.policy.quoteTtlSeconds && expiresAt <= midnight
      && (shipped ==> expiresAt <= q.transit.value.expiresAt)
      && (expiresAt == now + 1000 * q.policy.quoteTtlSeconds || expiresAt == midnight
          || (shipped && expiresAt == q.transit.value.expiresAt))
  }

  lemma ExpiryLaw(q: Query, now: int)
    requires EasternOffsets(q.zone) && Compute(q, now).Ok?
    ensures ExpiresRightly(q, now, Compute(q, now).value.expiresAt)
  {
    AnswerableIff(q, now);
    var midnight := LocalInstant(q.zone, q.policy.validThrough + 1, 0).value;
    ShowingIff(q.zone, midnight, q.policy.validThrough + 1, 0);
    assert LastDayEnds(q.zone, q.policy, midnight);
    ExpiresByMidnight(q, now, midnight);
  }

  lemma ExpiresByMidnight(q: Query, now: int, midnight: int)
    requires Compute(q, now).Ok? && LocalInstant(q.zone, q.policy.validThrough + 1, 0) == Some(midnight)
    ensures Compute(q, now).value.expiresAt == Expiry(q, now, midnight)
  {
  }

  /** What a calendar says beside its choices: nothing for an unknown way of delivery or a policy not in force; the reason
      when it can offer nothing; and how long it holds. */
  lemma CalendarAround(q: Query, now: int)
    requires EasternOffsets(q.zone)
    ensures var r := Compute(q, now);
            && (q.request.mode.UnknownMode? ==> r == Err(InvalidMode))
            && (!q.request.mode.UnknownMode? && !PolicyOk(q.policy) ==> r == Err(CalendarInvalid))
            && (!q.request.mode.UnknownMode? && PolicyOk(q.policy) && !PolicyInForce(q.zone, q.policy, now) ==>
                  r == Err(OutsideCoverage))
    ensures Compute(q, now).Ok? ==>
              var calendar := Compute(q, now).value;
              && calendar.revision == q.policy && calendar.request == q.request && calendar.generatedAt == now
              && ExpiresRightly(q, now, calendar.expiresAt)
              && calendar.reason ==
                 (if CanAnswer(q.policy, q.request, q.transit, now) then
                    if calendar.choices == [] then Some(NoAvailableDates) else None
                  else Some(if q.request.mode.UpsShipping? then MissingTransit else UnknownRoute))
              && (CanAnswer(q.policy, q.request, q.transit, now) || calendar.choices == [])
  {
    PolicyErrorIff(q.zone, q.policy, now);
    if Compute(q, now).Ok? {
      ExpiryLaw(q, now);
      ReasonLaw(q, now);
    }
  }

  lemma ReasonLaw(q: Query, now: int)
    requires Compute(q, now).Ok?
    ensures var calendar := Compute(q, now).value;
            && calendar.revision == q.policy && calendar.request == q.request && calendar.generatedAt == now
            && calendar.reason ==
               (if CanAnswer(q.policy, q.request, q.transit, now) then
                  if calendar.choices == [] then Some(NoAvailableDates) else None
                else Some(if q.request.mode.UpsShipping? then MissingTransit else UnknownRoute))
            && (CanAnswer(q.policy, q.request, q.transit, now) || calendar.choices == [])
  {
    AnswerableIff(q, now);
  }

  /** What makes a policy unusable. */
  ghost predicate UnsoundSchedule(s: Schedule) {
    || 14 < s.preparationDays || 30 < s.cutoffDays || s.windows == [] || 12 < |s.windows|
    || (exists i :: 0 <= i < |s.windows| && s.windows[i].end <= s.windows[i].start)
    || (exists i, j :: 0 <= i < j < |s.windows| && s.windows[i].id == s.windows[j].id)
  }

  ghost predicate UnsoundDays(days: seq<int>) {
    || (exists i :: 0 <= i < |days| && !(0 <= days[i] <= 6))
    || (exists i, j :: 0 <= i < j < |days| && days[i] == days[j])
  }

  ghost predicate UnsoundPolicy(p: Policy) {
    || p.lookAheadDays == 0 || 60 < p.lookAheadDays || p.quoteTtlSeconds < 30 || 1800 < p.quoteTtlSeconds
    || p.validThrough < p.validFrom
    || p.operationsWeekdays == [] || p.ups.dispatchWeekdays == [] || p.ups.arrivalWeekdays == [] || p.ups.carrierWeekdays == []
    || UnsoundDays(p.operationsWeekdays) || UnsoundDays(p.ups.dispatchWeekdays) || UnsoundDays(p.ups.arrivalWeekdays)
    || UnsoundDays(p.ups.carrierWeekdays) || UnsoundDays(p.plant.weekdays)
    || 14 < p.ups.preparationDays || p.ups.maxElapsedHours == 0 || 336 < p.ups.maxElapsedHours
    || UnsoundSchedule(p.plant.schedule)
    || (exists i :: 0 <= i < |p.atlanta| && (UnsoundSchedule(p.atlanta[i].schedule) || UnsoundDays(p.atlanta[i].weekdays)))
    || (exists i :: 0 <= i < |p.southeast| && UnsoundSchedule(p.southeast[i].schedule))
    || (exists i :: 0 <= i < |p.plant.cutoffOverrides| && !(0 <= p.plant.cutoffOverrides[i].weekday <= 6))
    || (exists i, j :: 0 <= i < j < |p.plant.cutoffOverrides| && p.plant.cutoffOverrides[i].weekday == p.plant.cutoffOverrides[j].weekday)
    || (exists i, j :: 0 <= i < j < |p.atlanta| && p.atlanta[i].zip == p.atlanta[j].zip)
    || (exists i, j :: 0 <= i < j < |p.southeast| && p.southeast[i].id == p.southeast[j].id)
  }

  lemma DaysIff(days: seq<int>)
    ensures WeekdaysOk(days) <==> !UnsoundDays(days)
  {
    if exists i :: 0 <= i < |days| && !(0 <= days[i] <= 6) {
      var i :| 0 <= i < |days| && !(0 <= days[i] <= 6);
      assert days[i] in days;
    }
  }

  lemma ScheduleIff(s: Schedule)
    ensures ScheduleOk(s) <==> !UnsoundSchedule(s)
  {
  }

  /** A policy is unusable exactly when one of these faults is in it. */
  lemma UnsoundIff(p: Policy)
    ensures PolicyOk(p) <==> !UnsoundPolicy(p)
  {
    DaysIff(p.operationsWeekdays);
    DaysIff(p.ups.dispatchWeekdays);
    DaysIff(p.ups.arrivalWeekdays);
    DaysIff(p.ups.carrierWeekdays);
    DaysIff(p.plant.weekdays);
    ScheduleIff(p.plant.schedule);
    forall i | 0 <= i < |p.atlanta|
      ensures ScheduleOk(p.atlanta[i].schedule) <==> !UnsoundSchedule(p.atlanta[i].schedule)
      ensures WeekdaysOk(p.atlanta[i].weekdays) <==> !UnsoundDays(p.atlanta[i].weekdays)
    {
      ScheduleIff(p.atlanta[i].schedule);
      DaysIff(p.atlanta[i].weekdays);
    }
    forall i | 0 <= i < |p.southeast| ensures ScheduleOk(p.southeast[i].schedule) <==> !UnsoundSchedule(p.southeast[i].schedule) {
      ScheduleIff(p.southeast[i].schedule);
    }
  }

  /*** Tokens ***/

  /** The same promise: alike in everything but when the carrier's answer was fetched and until when it is held. */
  predicate SameChoice(a: Choice, b: Choice) {
    && a.arrivalDate == b.arrivalDate && a.dispatchDate == b.dispatchDate && a.pickDate == b.pickDate && a.window == b.window
    && a.cutoffAt == b.cutoffAt && a.packedAt == b.packedAt && a.arrivalBy == b.arrivalBy
    && a.elapsedHours == b.elapsedHours && a.packingDays == b.packingDays && a.transit.Some? == b.transit.Some?
    && (a.transit.Some? ==>
          a.transit.value.(fetchedAt := b.transit.value.fetchedAt, expiresAt := b.transit.value.expiresAt) == b.transit.value)
  }

  lemma IdentityIff(a: Choice, b: Choice)
    ensures Identity(a) == Identity(b) <==> SameChoice(a, b)
  {
  }

  /** The cart as a token remembers it: the same cart and context, with the same lines in any order. */
  predicate CartUnchanged(cart: Cart, revision: CartRevision) {
    cart.id == revision.id && cart.context == revision.context && multiset(cart.lines) == revision.lines
  }

  /** A cart can be quoted when it has an id and lines, each with an id, a variant, a quantity and a price. */
  predicate Quotable(cart: Cart) {
    && cart.id != "" && cart.lines != []
    && forall i :: 0 <= i < |cart.lines| ==>
         && cart.lines[i].id != "" && cart.lines[i].variantId != "" && 1 <= cart.lines[i].quantity && 0 <= cart.lines[i].price
  }

  lemma RevisionIff(cart: Cart)
    ensures RevisionOf(cart).Ok? <==> Quotable(cart)
    ensures forall revision :: Quotable(cart) ==> (RevisionOf(cart) == Ok(revision) <==> CartUnchanged(cart, revision))
  {
  }

  /** A token is accepted exactly while it lasts, on the cart, the shipping option, the policy and the request it was issued
      for, all unchanged, and while the calendar still offers the same choice before its cutoff.  So a changed cart, option,
      policy or request is refused, and so is a choice withdrawn or past its cutoff. */
  lemma ValidateIff(cart: Cart, option: string, calendar: Calendar, now: int)
    ensures Validate(cart, option, calendar, now).Ok? <==>
            && cart.selection.Some?
            && var s := cart.selection.value;
               && s.quoteId != "" && s.cartId != "" && s.shippingOptionId != "" && s.issuedAt <= now < s.expiresAt
               && s.cartId == cart.id && Quotable(cart) && CartUnchanged(cart, s.cartRevision)
               && s.shippingOptionId == option && s.revision == calendar.revision && s.request == calendar.request
               && Offered(calendar.choices, s.choice) && now < s.choice.cutoffAt
    ensures Validate(cart, option, calendar, now).Ok? ==> Some(Validate(cart, option, calendar, now).value) == cart.selection
  {
    RevisionIff(cart);
    if cart.selection.Some? {
      var choice := cart.selection.value.choice;
      FindIdentityLaw(calendar.choices, Identity(choice));
      OfferedIff(calendar.choices, choice);
    }
  }

  predicate Offered(choices: seq<Choice>, choice: Choice) {
    exists i :: 0 <= i < |choices| && SameChoice(choices[i], choice)
  }

  lemma OfferedIff(choices: seq<Choice>, choice: Choice)
    ensures Offered(choices, choice) <==> exists c :: c in choices && Identity(c) == Identity(choice)
    ensures FindIdentity(choices, Identity(choice)).Some? <==> Offered(choices, choice)
  {
    FindIdentityLaw(choices, Identity(choice));
    forall c ensures Identity(c) == Identity(choice) <==> SameChoice(c, choice) {
      IdentityIff(c, choice);
    }
    if Offered(choices, choice) {
      var i :| 0 <= i < |choices| && SameChoice(choices[i], choice);
      assert choices[i] in choices;
    }
    if FindIdentity(choices, Identity(choice)).Some? {
      FoundIn(choices, Identity(choice));
    }
  }

  lemma {:induction false} FoundIn(choices: seq<Choice>, identity: Choice)
    requires FindIdentity(choices, identity).Some?
    ensures FindIdentity(choices, identity).value in choices
  {
    if Identity(choices[0]) != identity {
      FoundIn(choices[1..], identity);
    }
  }

  /** A token is issued exactly for a choice of the calendar for that date and window, on a cart that can be quoted, while
      both the calendar and the choice's cutoff lie ahead; and it holds until the earlier of them. */
  lemma IssueIff(cart: Cart, option: string, calendar: Calendar, arrival: int, windowId: string, quoteId: string, now: int)
    ensures var r := Issue(cart, option, calendar, arrival, windowId, quoteId, now);
            && (r.Ok? ==>
                  && r.value.choice in calendar.choices && r.value.choice.arrivalDate == arrival
                  && WindowId(r.value.choice) == windowId && Quotable(cart) && CartUnchanged(cart, r.value.cartRevision)
                  && r.value.quoteId == quoteId && r.value.cartId == cart.id && r.value.shippingOptionId == option
                  && r.value.request == calendar.request && r.value.revision == calendar.revision && r.value.issuedAt == now
                  && now < r.value.expiresAt && r.value.expiresAt <= calendar.expiresAt && r.value.expiresAt <= r.value.choice.cutoffAt
                  && (r.value.expiresAt == calendar.expiresAt || r.value.expiresAt == r.value.choice.cutoffAt))
            && (Quotable(cart) && now < calendar.expiresAt
                && (exists c :: c in calendar.choices && c.arrivalDate == arrival && WindowId(c) == windowId)
                && (forall c :: c in calendar.choices && c.arrivalDate == arrival && WindowId(c) == windowId ==> now < c.cutoffAt)
                ==> r.Ok?)
  {
    RevisionIff(cart);
    var found := FindChoice(calendar.choices, arrival, windowId);
    if found.Some? {
      FindChoiceLaw(calendar.choices, arrival, windowId);
    } else {
      NotFound(calendar.choices, arrival, windowId);
    }
  }

  lemma {:induction false} NotFound(choices: seq<Choice>, arrival: int, windowId: string)
    requires FindChoice(choices, arrival, windowId).None?
    ensures forall c :: c in choices ==> !(c.arrivalDate == arrival && WindowId(c) == windowId)
  {
    if choices != [] {
      NotFound(choices[1..], arrival, windowId);
      assert choices == [choices[0]] + choices[1..];
    }
  }
}
