/** What the calendar offers, exactly; and how its answers stand up when they are checked again later. */
module CalendarLaws {
  import opened Base
  import opened Clock
  import opened Calendar

  /** The seven weekdays, for a policy open all week. */
  const EVERY_DAY: seq<int> := [0, 1, 2, 3, 4, 5, 6]

  lemma EveryDay(day: int)
    ensures WeekdaysOk(EVERY_DAY) && Weekday(day) in EVERY_DAY
  {
    assert 0 <= Weekday(day) < 7 && EVERY_DAY[Weekday(day)] == Weekday(day);
  }

  /*** Exactness ***/

  /** The offer, as it stands at an instant, yields this choice for this slot. */
  ghost predicate Makes(q: Query, now: int, offer: Offer, slot: Slot, c: Choice) {
    var cutoff := LocalInstant(q.zone, offer.cutoffDate, offer.cutoffTime);
    var packedAt := LocalInstant(q.zone, offer.pick, offer.packTime);
    var arrivalBy := LocalInstant(q.zone, offer.arrival, slot.end);
    && Ripe(q, now, offer) && cutoff.Some? && packedAt.Some? && arrivalBy.Some?
    && InTime(q, now, offer, cutoff.value, packedAt.value, arrivalBy.value)
    && c == ChoiceOf(offer, slot, cutoff.value, packedAt.value, arrivalBy.value)
  }

  ghost predicate MakesAny(q: Query, now: int, offer: Offer, c: Choice) {
    exists slot :: slot in offer.slots && Makes(q, now, offer, slot, c)
  }

  /** Every local time the offer needs at an instant exists. */
  ghost predicate TimesExist(q: Query, now: int, offer: Offer) {
    && LocalInstant(q.zone, offer.cutoffDate, offer.cutoffTime).Some?
    && (Ripe(q, now, offer) ==> forall slot :: slot in offer.slots ==> SlotTimesExist(q.zone, offer, slot))
  }

  ghost predicate SlotTimesExist(zone: Zone, offer: Offer, slot: Slot) {
    LocalInstant(zone, offer.pick, offer.packTime).Some? && LocalInstant(zone, offer.arrival, slot.end).Some?
  }

  lemma {:induction false} SlotChoicesLaw(q: Query, now: int, offer: Offer, cutoff: int, slots: seq<Slot>)
    requires LocalInstant(q.zone, offer.cutoffDate, offer.cutoffTime) == Some(cutoff)
    ensures var r := SlotChoices(q, now, offer, cutoff, slots);
            && (r.Ok? <==> (Ripe(q, now, offer) ==> forall slot :: slot in slots ==> SlotTimesExist(q.zone, offer, slot)))
            && (r.Ok? ==> forall c :: c in r.value <==> exists slot :: slot in slots && Makes(q, now, offer, slot, c))
  {
    if slots != [] {
      SlotChoicesLaw(q, now, offer, cutoff, slots[1..]);
      var first, rest := MakeChoice(q, now, offer, cutoff, slots[0]), SlotChoices(q, now, offer, cutoff, slots[1..]);
      assert slots == [slots[0]] + slots[1..];
      assert first.Err? ==> !SlotTimesExist(q.zone, offer, slots[0]);
      if first.Ok? {
        forall c ensures c in first.value <==> Makes(q, now, offer, slots[0], c) {
          assert c in first.value ==> c == first.value[0];
        }
      }
    }
  }

  lemma OfferChoicesLaw(q: Query, now: int, offer: Offer)
    ensures var r := OfferChoices(q, now, offer);
            && (r.Ok? <==> TimesExist(q, now, offer))
            && (r.Ok? ==> forall c :: c in r.value <==> MakesAny(q, now, offer, c))
  {
    var cutoff := LocalInstant(q.zone, offer.cutoffDate, offer.cutoffTime);
    if cutoff.Some? {
      SlotChoicesLaw(q, now, offer, cutoff.value, offer.slots);
    }
  }

  type Offers = int -> Option<Offer>

  function OffersOf(q: Query): Offers {
    day => OfferOn(q, day)
  }

  /** The day has an offer that arrives within the horizon. */
  ghost predicate Visible(offers: Offers, horizon: int, day: int) {
    offers(day).Some? && offers(day).value.arrival <= horizon
  }

  /** The day has such an offer, and it yields this choice. */
  ghost predicate Shows(q: Query, offers: Offers, now: int, horizon: int, day: int, c: Choice) {
    Visible(offers, horizon, day) && MakesAny(q, now, offers(day).value, c)
  }

  lemma {:induction false} GatherOk(daily: Daily, from: int, last: int)
    ensures Gather(daily, from, last).Ok? <==> forall day :: from <= day <= last ==> daily(day).Ok?
    decreases last - from
  {
    if from <= last {
      GatherOk(daily, from + 1, last);
    }
  }

  lemma {:induction false} GatherMembers(daily: Daily, from: int, last: int)
    requires Gather(daily, from, last).Ok?
    ensures forall c :: c in Gather(daily, from, last).value <==>
                        exists day :: from <= day <= last && daily(day).Ok? && c in daily(day).value
    decreases last - from
  {
    if from <= last {
      GatherMembers(daily, from + 1, last);
    }
  }

  lemma DayChoicesLaw(q: Query, now: int, horizon: int, day: int)
    ensures var r, offers := DailyOf(q, now, horizon)(day), OffersOf(q);
            && (r.Ok? <==> (Visible(offers, horizon, day) ==> TimesExist(q, now, offers(day).value)))
            && (r.Ok? ==> forall c :: c in r.value <==> Shows(q, offers, now, horizon, day, c))
  {
    if Visible(OffersOf(q), horizon, day) {
      OfferChoicesLaw(q, now, OfferOn(q, day).value);
    }
  }

  /** The loop succeeds exactly when every visible day's local times exist. */
  lemma CollectOk(q: Query, now: int)
    ensures var horizon, offers := Horizon(q.zone, q.policy, now), OffersOf(q);
            Collect(q, now).Ok? <==>
            forall day :: EasternDate(q.zone, now) <= day <= horizon && Visible(offers, horizon, day) ==>
                            TimesExist(q, now, offers(day).value)
  {
    var horizon, offers := Horizon(q.zone, q.policy, now), OffersOf(q);
    var daily := DailyOf(q, now, horizon);
    GatherOk(daily, EasternDate(q.zone, now), horizon);
    forall day ensures daily(day).Ok? <==> (Visible(offers, horizon, day) ==> TimesExist(q, now, offers(day).value)) {
      DayChoicesLaw(q, now, horizon, day);
    }
  }

  lemma CollectMembers(q: Query, now: int)
    requires Collect(q, now).Ok?
    ensures var horizon, offers := Horizon(q.zone, q.policy, now), OffersOf(q);
            forall c :: c in Collect(q, now).value <==>
              exists day :: EasternDate(q.zone, now) <= day <= horizon && Shows(q, offers, now, horizon, day, c)
  {
    var today, horizon := EasternDate(q.zone, now), Horizon(q.zone, q.policy, now);
    var daily := DailyOf(q, now, horizon);
    GatherOk(daily, today, horizon);
    GatherMembers(daily, today, horizon);
    forall day, c | today <= day <= horizon
      ensures c in daily(day).value <==> Shows(q, OffersOf(q), now, horizon, day, c)
    {
      DayChoicesLaw(q, now, horizon, day);
    }
  }

  /** The dates of a shipped choice: the carrier's open days counted forward from an allowed dispatch date, the
      preparation days counted back from it. */
  ghost predicate UpsDates(p: Policy, t: Transit, c: Choice) {
    && DispatchOk(p, t, c.dispatchDate) && ArrivalOk(p, t, c.dispatchDate, c.arrivalDate)
    && Carries(p, c.dispatchDate, t.businessDays, c.arrivalDate)
    && PreparedFrom(p, c.dispatchDate, p.ups.preparationDays, c.pickDate)
  }

  ghost predicate PreparedFrom(p: Policy, day: int, preparationDays: nat, pick: int) {
    && 0 <= day - pick < SEARCH_LIMIT && Operations(p)(pick)
    && OpenDays(day, day - pick, -1, Operations(p)) == preparationDays
  }

  /** The dates of a pickup or local delivery. */
  ghost predicate RouteDates(p: Policy, route: Route, c: Choice) {
    && c.dispatchDate == c.arrivalDate && c.arrivalDate !in p.operationsBlackouts && route.serves(c.arrivalDate)
    && (if route.schedule.preparationDays == 0 then c.pickDate == c.arrivalDate
        else PreparedFrom(p, c.arrivalDate, route.schedule.preparationDays, c.pickDate))
  }

  function CutoffTime(route: Route, day: int): Minute {
    if OverrideFor(route.overrides, day).Some? then OverrideFor(route.overrides, day).value else route.schedule.cutoffTime
  }

  /** The instants of a choice: its pack and arrival times shown locally, ordered, and its cutoff still ahead. */
  ghost predicate Instants(q: Query, now: int, c: Choice, cutoffDate: int, cutoffTime: Minute, packTime: Minute, end: Minute) {
    var cutoff := LocalInstant(q.zone, cutoffDate, cutoffTime);
    && LocalInstant(q.zone, c.pickDate, packTime) == Some(c.packedAt)
    && LocalInstant(q.zone, c.arrivalDate, end) == Some(c.arrivalBy)
    && cutoff.Some? && c.cutoffAt == Min(cutoff.value, c.packedAt)
    && now < c.cutoffAt && c.packedAt <= c.arrivalBy
    && c.elapsedHours == ElapsedHours(c.arrivalBy - c.packedAt)
    && c.packingDays == PackingDays(c.arrivalBy - c.packedAt)
  }

  ghost predicate UpsPromise(q: Query, now: int, c: Choice)
    requires q.transit.Some?
  {
    var u := q.policy.ups;
    && UpsDates(q.policy, q.transit.value, c) && c.window == None && c.transit == q.transit
    && Instants(q, now, c, c.pickDate, u.cutoffTime, u.packTime, u.arrivalByTime)
    && c.arrivalBy - c.packedAt <= u.maxElapsedHours * HOUR
  }

  ghost predicate RoutePromise(q: Query, now: int, route: Route, c: Choice) {
    && RouteDates(q.policy, route, c) && c.transit == None
    && c.window.Some? && c.window.value in route.schedule.windows
    && RouteInstants(q, now, route, c)
  }

  ghost predicate RouteInstants(q: Query, now: int, route: Route, c: Choice)
    requires c.window.Some?
  {
    Instants(q, now, c, c.arrivalDate - route.schedule.cutoffDays, CutoffTime(route, Weekday(c.arrivalDate)),
             route.schedule.packTime, c.window.value.end)
  }

  /** What a choice must satisfy, with no search and no loop, in terms of the tests the calendar makes. */
  ghost predicate Listed(q: Query, now: int, c: Choice)
    requires Sourced(q)
  {
    DatesInSight(q.zone, q.policy, now, c) && ModePromise(q, now, c)
  }

  ghost predicate DatesInSight(zone: Zone, p: Policy, now: int, c: Choice) {
    && EasternDate(zone, now) <= c.pickDate && Covered(p, c.pickDate) && Covered(p, c.dispatchDate)
    && c.arrivalDate <= Horizon(zone, p, now)
  }

  ghost predicate ModePromise(q: Query, now: int, c: Choice)
    requires Sourced(q)
  {
    if q.request.mode.UpsShipping? then UpsPromise(q, now, c)
    else RoutePromise(q, now, RouteOf(q.policy, q.request).value, c)
  }

  lemma PreparedExact(p: Policy, day: int, preparationDays: nat, pick: int)
    ensures PreparedFrom(p, day, preparationDays, pick) <==>
            Advance(day, preparationDays, -1, Operations(p), SEARCH_LIMIT) == Some(pick)
  {
    AdvanceExact(day, preparationDays, -1, Operations(p), pick);
    assert (pick - day) * -1 == day - pick;
  }

  ghost predicate Carries(p: Policy, dispatch: int, businessDays: int, arrival: int) {
    && 0 <= arrival - dispatch < SEARCH_LIMIT && Carrier(p)(arrival)
    && OpenDays(dispatch, arrival - dispatch, 1, Carrier(p)) == businessDays
  }

  lemma CarriesExact(p: Policy, dispatch: int, businessDays: nat, arrival: int)
    ensures Carries(p, dispatch, businessDays, arrival) <==>
            Advance(dispatch, businessDays, 1, Carrier(p), SEARCH_LIMIT) == Some(arrival)
  {
    AdvanceExact(dispatch, businessDays, 1, Carrier(p), arrival);
    assert (arrival - dispatch) * 1 == arrival - dispatch;
  }

  lemma UpsOfferExact(p: Policy, t: Transit, c: Choice)
    requires 1 <= t.businessDays
    ensures UpsDates(p, t, c) <==>
            UpsOffer(p, t, c.dispatchDate) ==
            Some(Offer(c.arrivalDate, c.dispatchDate, c.pickDate, c.pickDate, p.ups.cutoffTime, p.ups.packTime,
                       [Slot(None, p.ups.arrivalByTime)], Some(t)))
  {
    CarriesExact(p, c.dispatchDate, t.businessDays, c.arrivalDate);
    PreparedExact(p, c.dispatchDate, p.ups.preparationDays, c.pickDate);
  }

  lemma RouteOfferExact(p: Policy, route: Route, c: Choice)
    ensures RouteDates(p, route, c) <==>
            c.dispatchDate == c.arrivalDate && RouteOffer(p, route, c.arrivalDate) == Some(RouteDay(route, c.arrivalDate, c.pickDate))
  {
    PreparedExact(p, c.arrivalDate, route.schedule.preparationDays, c.pickDate);
  }

  lemma {:induction false} SlotsLaw(windows: seq<Window>, slot: Slot)
    ensures slot in Slots(windows) <==> slot.window.Some? && slot.window.value in windows && slot.end == slot.window.value.end
  {
    if windows != [] {
      SlotsLaw(windows[1..], slot);
      assert windows == [windows[0]] + windows[1..];
    }
  }

  /** Work runs backwards from arrival: nothing is picked after it is dispatched, or dispatched after it arrives. */
  lemma OfferOrder(q: Query, day: int)
    requires Sourced(q) && OfferOn(q, day).Some?
    ensures var o := OfferOn(q, day).value;
            o.pick <= o.dispatch == day <= o.arrival
  {
    var o := OfferOn(q, day).value;
    if q.request.mode.UpsShipping? {
      AdvanceAway(day, q.transit.value.businessDays, 1, Carrier(q.policy), SEARCH_LIMIT);
      AdvanceAway(day, q.policy.ups.preparationDays, -1, Operations(q.policy), SEARCH_LIMIT);
      assert (o.pick - day) * -1 == day - o.pick;
      assert (o.arrival - day) * 1 == o.arrival - day;
    } else {
      AdvanceAway(day, RouteOf(q.policy, q.request).value.schedule.preparationDays, -1, Operations(q.policy), SEARCH_LIMIT);
      assert (o.pick - day) * -1 == day - o.pick;
    }
  }

  lemma UpsIsMade(q: Query, now: int, c: Choice)
    requires q.request.mode.UpsShipping? && Sourced(q) && Listed(q, now, c)
    ensures Shows(q, OffersOf(q), now, Horizon(q.zone, q.policy, now), c.dispatchDate, c)
  {
    UpsOfferExact(q.policy, q.transit.value, c);
    var o := OfferOn(q, c.dispatchDate).value;
    assert Makes(q, now, o, o.slots[0], c);
  }

  /** What a route offers on a day, once its pick date is found. */
  function RouteDay(route: Route, arrival: int, pick: int): Offer {
    Offer(arrival, arrival, pick, arrival - route.schedule.cutoffDays, CutoffTime(route, Weekday(arrival)),
          route.schedule.packTime, Slots(route.schedule.windows), None)
  }

  /** A route's offer makes exactly the choices that show its times for one of its windows. */
  lemma RouteMakes(q: Query, now: int, route: Route, c: Choice)
    requires !q.request.mode.UpsShipping?
    requires c.dispatchDate == c.arrivalDate && Ripe(q, now, RouteDay(route, c.arrivalDate, c.pickDate))
    ensures MakesAny(q, now, RouteDay(route, c.arrivalDate, c.pickDate), c) <==>
            && c.transit == None && c.window.Some? && c.window.value in route.schedule.windows
            && RouteInstants(q, now, route, c)
  {
    var offer := RouteDay(route, c.arrivalDate, c.pickDate);
    if c.window.Some? {
      var slot := Slot(c.window, c.window.value.end);
      SlotsLaw(route.schedule.windows, slot);
      if c.transit == None && c.window.value in route.schedule.windows && RouteInstants(q, now, route, c) {
        assert Makes(q, now, offer, slot, c);
      }
    }
    if MakesAny(q, now, offer, c) {
      var slot :| slot in offer.slots && Makes(q, now, offer, slot, c);
      SlotsLaw(route.schedule.windows, slot);
    }
  }

  lemma RouteIsMade(q: Query, now: int, route: Route, c: Choice)
    requires !q.request.mode.UpsShipping? && RoutePromise(q, now, route, c)
    requires Ripe(q, now, RouteDay(route, c.arrivalDate, c.pickDate))
    ensures RouteOffer(q.policy, route, c.arrivalDate) == Some(RouteDay(route, c.arrivalDate, c.pickDate))
    ensures MakesAny(q, now, RouteDay(route, c.arrivalDate, c.pickDate), c)
  {
    RouteOfferExact(q.policy, route, c);
    RouteMakes(q, now, route, c);
  }

  lemma UpsWasPromised(q: Query, now: int, offer: Offer, slot: Slot, c: Choice)
    requires q.request.mode.UpsShipping? && Sourced(q)
    requires UpsOffer(q.policy, q.transit.value, offer.dispatch) == Some(offer)
    requires offer.arrival <= Horizon(q.zone, q.policy, now)
    requires slot in offer.slots && Makes(q, now, offer, slot, c)
    ensures Listed(q, now, c)
  {
    UpsOfferExact(q.policy, q.transit.value, c);
  }

  lemma RouteWasPromised(q: Query, now: int, route: Route, offer: Offer, c: Choice)
    requires !q.request.mode.UpsShipping?
    requires RouteOffer(q.policy, route, offer.arrival) == Some(offer)
    requires MakesAny(q, now, offer, c)
    ensures RoutePromise(q, now, route, c)
  {
    assert offer == RouteDay(route, offer.arrival, offer.pick);
    RouteOfferExact(q.policy, route, c);
    RouteMakes(q, now, route, c);
  }

  lemma WasPromised(q: Query, now: int, day: int, c: Choice)
    requires Sourced(q) && Shows(q, OffersOf(q), now, Horizon(q.zone, q.policy, now), day, c)
    ensures Listed(q, now, c)
  {
    OfferOrder(q, day);
    var offer := OfferOn(q, day).value;
    var slot :| slot in offer.slots && Makes(q, now, offer, slot, c);
    if q.request.mode.UpsShipping? {
      UpsWasPromised(q, now, offer, slot, c);
    } else {
      RouteWasPromised(q, now, RouteOf(q.policy, q.request).value, offer, c);
    }
  }

  lemma IsMade(q: Query, now: int, c: Choice)
    requires Sourced(q) && Listed(q, now, c)
    ensures EasternDate(q.zone, now) <= c.dispatchDate <= Horizon(q.zone, q.policy, now)
    ensures Shows(q, OffersOf(q), now, Horizon(q.zone, q.policy, now), c.dispatchDate, c)
  {
    if q.request.mode.UpsShipping? {
      UpsIsMade(q, now, c);
    } else {
      RouteIsMade(q, now, RouteOf(q.policy, q.request).value, c);
    }
    OfferOrder(q, c.dispatchDate);
  }

  lemma CollectsPromises(q: Query, now: int)
    requires Sourced(q) && Collect(q, now).Ok?
    ensures forall c :: c in Collect(q, now).value <==> Listed(q, now, c)
  {
    CollectMembers(q, now);
    forall c | Listed(q, now, c) ensures c in Collect(q, now).value {
      IsMade(q, now, c);
    }
    forall day, c | Shows(q, OffersOf(q), now, Horizon(q.zone, q.policy, now), day, c) ensures Listed(q, now, c) {
      WasPromised(q, now, day, c);
    }
  }

  /** The calendar lists exactly the choices that pass its tests. */
  lemma ExactlyListed(q: Query, now: int)
    requires Compute(q, now).Ok? && Answerable(q, now)
    ensures forall c :: c in Compute(q, now).value.choices <==> Listed(q, now, c)
  {
    CollectsPromises(q, now);
  }

  /*** Checked again later ***/

  /** The carrier's answer may have been fetched again in between, with the same promise. */
  ghost predicate SamePromise(q: Query, again: Option<Transit>) {
    q.request.mode.UpsShipping? ==>
      && q.transit.Some? && again.Some?
      && q.transit.value.(fetchedAt := 0, expiresAt := 0) == again.value.(fetchedAt := 0, expiresAt := 0)
  }

  function Carried(q: Query, c: Choice): Choice {
    c.(transit := if q.request.mode.UpsShipping? then q.transit else None)
  }

  lemma SameOffer(q: Query, again: Option<Transit>, day: int)
    requires Sourced(q) && SamePromise(q, again)
    ensures Sourced(q.(transit := again))
    ensures var o, o' := OfferOn(q, day), OfferOn(q.(transit := again), day);
            && o.Some? == o'.Some?
            && (o.Some? ==> o'.value == o.value.(transit := if q.request.mode.UpsShipping? then again else None))
  {
    if q.request.mode.UpsShipping? {
      var t, t' := q.transit.value, again.value;
      assert DispatchOk(q.policy, t, day) == DispatchOk(q.policy, t', day);
      assert forall a :: ArrivalOk(q.policy, t, day, a) == ArrivalOk(q.policy, t', day, a);
    }
  }

  /** A promise made at one instant is kept at a later one exactly when its cutoff has not passed, and nothing new
      appears inside the earlier horizon. */
  lemma PromiseKept(q: Query, again: Option<Transit>, now: int, later: int, c: Choice)
    requires Eastern(q.zone) && Sourced(q) && SamePromise(q, again) && now <= later
    ensures Sourced(q.(transit := again))
    ensures Listed(q, now, Carried(q, c)) && later < c.cutoffAt <==>
            && Listed(q.(transit := again), later, Carried(q.(transit := again), c))
            && c.arrivalDate <= Horizon(q.zone, q.policy, now)
  {
    var q' := q.(transit := again);
    SameOffer(q, again, c.dispatchDate);
    StillInSight(q.zone, q.policy, now, later, c);
    if later < c.cutoffAt {
      SameModePromise(q, again, now, later, c);
      if ModePromise(q, now, Carried(q, c)) {
        PickedOnItsDate(q, now, Carried(q, c));
      }
    } else if ModePromise(q', later, Carried(q', c)) {
      CutoffAhead(q', later, Carried(q', c));
    }
  }

  /** A date in sight stays in sight until its pack time; one in sight later, within the earlier horizon, was in
      sight before. */
  lemma StillInSight(zone: Zone, p: Policy, now: int, later: int, c: Choice)
    requires Eastern(zone) && now <= later
    ensures DatesInSight(zone, p, now, c) && later < c.packedAt && EasternDate(zone, c.packedAt) == c.pickDate ==>
              DatesInSight(zone, p, later, c)
    ensures DatesInSight(zone, p, later, c) && c.arrivalDate <= Horizon(zone, p, now) ==> DatesInSight(zone, p, now, c)
    ensures DatesInSight(zone, p, now, c) ==> c.arrivalDate <= Horizon(zone, p, now)
  {
    assert EasternDate(zone, now) <= EasternDate(zone, later);
    assert later < c.packedAt ==> EasternDate(zone, later) <= EasternDate(zone, c.packedAt);
  }

  lemma CutoffAhead(q: Query, now: int, c: Choice)
    requires Sourced(q) && ModePromise(q, now, c)
    ensures now < c.cutoffAt
  {
  }

  lemma PickedOnItsDate(q: Query, now: int, c: Choice)
    requires Sourced(q) && ModePromise(q, now, c)
    ensures EasternDate(q.zone, c.packedAt) == c.pickDate && c.cutoffAt <= c.packedAt
  {
    var packTime := if q.request.mode.UpsShipping? then q.policy.ups.packTime
                    else RouteOf(q.policy, q.request).value.schedule.packTime;
    LocalInstantLaw(q.zone, c.pickDate, packTime);
  }

  /** Apart from the clock, a promise reads the same with either carrier answer. */
  lemma SameModePromise(q: Query, again: Option<Transit>, now: int, later: int, c: Choice)
    requires Sourced(q) && SamePromise(q, again) && now < c.cutoffAt && later < c.cutoffAt
    ensures Sourced(q.(transit := again))
    ensures ModePromise(q, now, Carried(q, c)) == ModePromise(q.(transit := again), later, Carried(q.(transit := again), c))
  {
    if q.request.mode.UpsShipping? {
      var p, t, t' := q.policy, q.transit.value, again.value;
      assert DispatchOk(p, t, c.dispatchDate) == DispatchOk(p, t', c.dispatchDate);
      assert ArrivalOk(p, t, c.dispatchDate, c.arrivalDate) == ArrivalOk(p, t', c.dispatchDate, c.arrivalDate);
      assert UpsDates(p, t, Carried(q, c)) == UpsDates(p, t', Carried(q.(transit := again), c));
    }
  }

  /** Quote stability: at a later instant, the choices that arrive within the earlier horizon are exactly the
      earlier choices whose cutoff has not passed. */
  lemma QuoteStability(q: Query, again: Option<Transit>, now: int, later: int)
    requires Eastern(q.zone) && now <= later && SamePromise(q, again)
    requires Answerable(q, now) && Answerable(q.(transit := again), later)
    requires Compute(q, now).Ok? && Compute(q.(transit := again), later).Ok?
    ensures forall c ::
              Carried(q, c) in Compute(q, now).value.choices && later < c.cutoffAt <==>
              && Carried(q.(transit := again), c) in Compute(q.(transit := again), later).value.choices
              && c.arrivalDate <= Horizon(q.zone, q.policy, now)
  {
    var q' := q.(transit := again);
    ExactlyListed(q, now);
    ExactlyListed(q', later);
    forall c ensures Carried(q, c) in Compute(q, now).value.choices && later < c.cutoffAt <==>
                     && Carried(q', c) in Compute(q', later).value.choices
                     && c.arrivalDate <= Horizon(q.zone, q.policy, now)
    {
      PromiseKept(q, again, now, later, c);
    }
  }

  /** Every date that has come into sight since has the local times it needs. */
  ghost predicate NewDatesExist(q: Query, offers: Offers, now: int, later: int) {
    forall day :: EasternDate(q.zone, later) <= day && Visible(offers, Horizon(q.zone, q.policy, later), day)
                  && Horizon(q.zone, q.policy, now) < offers(day).value.arrival ==>
      TimesExist(q, later, offers(day).value)
  }

  /** A calendar that could be computed can be computed again later exactly when the policy still covers the date
      and no newly visible date needs a local time that does not exist. */
  lemma RecomputesIff(q: Query, again: Option<Transit>, now: int, later: int)
    requires Eastern(q.zone) && now <= later && SamePromise(q, again)
    requires Answerable(q, now) && Answerable(q.(transit := again), later) && Compute(q, now).Ok?
    ensures Compute(q.(transit := again), later).Ok? <==>
            && EasternDate(q.zone, later) <= q.policy.validThrough
            && NewDatesExist(q.(transit := again), OffersOf(q.(transit := again)), now, later)
  {
    StillCovered(q.zone, q.policy, now, later);
    CollectsAgain(q, again, now, later);
    ComputesAgain(q, q.(transit := again), now, later);
  }

  lemma ComputesAgain(q: Query, q': Query, now: int, later: int)
    requires q'.zone == q.zone && q'.policy == q.policy && q'.request == q.request
    requires Answerable(q, now) && Answerable(q', later) && Compute(q, now).Ok?
    ensures Compute(q', later).Ok? <==> PolicyError(q.zone, q.policy, later).None? && Collect(q', later).Ok?
  {
  }

  lemma CollectsAgain(q: Query, again: Option<Transit>, now: int, later: int)
    requires Sourced(q) && SamePromise(q, again) && EasternDate(q.zone, now) <= EasternDate(q.zone, later)
    requires Collect(q, now).Ok?
    ensures Collect(q.(transit := again), later).Ok? <==>
            NewDatesExist(q.(transit := again), OffersOf(q.(transit := again)), now, later)
  {
    var q' := q.(transit := again);
    CollectOk(q, now);
    CollectOk(q', later);
    OffersAlike(q, again);
    StillCollects(q, q', now, later, OffersOf(q), OffersOf(q'));
  }

  lemma StillCovered(zone: Zone, p: Policy, now: int, later: int)
    requires Eastern(zone) && now <= later && PolicyError(zone, p, now).None?
    ensures EasternDate(zone, now) <= EasternDate(zone, later)
    ensures PolicyError(zone, p, later).None? <==> EasternDate(zone, later) <= p.validThrough
  {
    assert EasternDate(zone, now) <= EasternDate(zone, later);
  }

  lemma OffersAlike(q: Query, again: Option<Transit>)
    requires Sourced(q) && SamePromise(q, again)
    ensures forall day :: Alike(OffersOf(q)(day), OffersOf(q.(transit := again))(day), day)
  {
    forall day ensures Alike(OffersOf(q)(day), OffersOf(q.(transit := again))(day), day) {
      SameOffer(q, again, day);
      if OfferOn(q, day).Some? {
        OfferOrder(q, day);
      }
    }
  }

  /** Two days' offers differ in their carrier answer only, and are in order. */
  ghost predicate Alike(a: Option<Offer>, b: Option<Offer>, day: int) {
    && a.Some? == b.Some?
    && (a.Some? ==> b.value == a.value.(transit := b.value.transit) && a.value.pick <= a.value.dispatch == day <= a.value.arrival)
  }

  lemma StillCollects(q: Query, q': Query, now: int, later: int, offers: Offers, offers': Offers)
    requires q.zone == q'.zone && q.policy == q'.policy
    requires EasternDate(q.zone, now) <= EasternDate(q.zone, later)
    requires forall day :: Alike(offers(day), offers'(day), day)
    requires forall day :: EasternDate(q.zone, now) <= day <= Horizon(q.zone, q.policy, now)
                           && Visible(offers, Horizon(q.zone, q.policy, now), day) ==>
              TimesExist(q, now, offers(day).value)
    ensures NewDatesExist(q', offers', now, later) <==>
            forall day :: EasternDate(q.zone, later) <= day <= Horizon(q.zone, q.policy, later)
                          && Visible(offers', Horizon(q.zone, q.policy, later), day) ==>
              TimesExist(q', later, offers'(day).value)
  {
    var horizon := Horizon(q.zone, q.policy, now);
    forall day | EasternDate(q.zone, later) <= day && Visible(offers', horizon, day)
      ensures TimesExist(q', later, offers'(day).value)
    {
      assert Alike(offers(day), offers'(day), day);
      assert Visible(offers, horizon, day);
      StillExist(q, q', now, later, offers(day).value, offers'(day).value);
    }
    forall day | Visible(offers', Horizon(q.zone, q.policy, later), day) ensures day <= Horizon(q.zone, q.policy, later) {
      assert Alike(offers(day), offers'(day), day);
    }
  }

  lemma StillExist(q: Query, q': Query, now: int, later: int, offer: Offer, offer': Offer)
    requires q.zone == q'.zone && q.policy == q'.policy && offer' == offer.(transit := offer'.transit)
    requires EasternDate(q.zone, now) <= EasternDate(q.zone, later) && TimesExist(q, now, offer)
    ensures TimesExist(q', later, offer')
  {
    if Ripe(q', later, offer') {
      assert Ripe(q, now, offer);
      forall slot | slot in offer'.slots ensures SlotTimesExist(q'.zone, offer', slot) {
        assert SlotTimesExist(q.zone, offer, slot);
      }
    }
  }

  /*** Tokens ***/

  /** Checkout recomputes the calendar and holds the cart's token against it. */
  predicate Revalidates(q: Query, cart: Cart, option: string, now: int) {
    Compute(q, now).Ok? && Validate(cart, option, Compute(q, now).value, now).Ok?
  }

  lemma {:induction false} FindChoiceLaw(choices: seq<Choice>, arrival: int, windowId: string)
    requires FindChoice(choices, arrival, windowId).Some?
    ensures var c := FindChoice(choices, arrival, windowId).value;
            c in choices && c.arrivalDate == arrival && WindowId(c) == windowId
  {
    if !(choices[0].arrivalDate == arrival && WindowId(choices[0]) == windowId) {
      FindChoiceLaw(choices[1..], arrival, windowId);
    }
  }

  lemma {:induction false} FindIdentityLaw(choices: seq<Choice>, identity: Choice)
    ensures var r := FindIdentity(choices, identity);
            && (r.Some? ==> Identity(r.value) == identity && r.value.cutoffAt == identity.cutoffAt)
            && (r.None? ==> forall c :: c in choices ==> Identity(c) != identity)
  {
    if choices != [] {
      FindIdentityLaw(choices[1..], identity);
      assert choices == [choices[0]] + choices[1..];
    }
  }

  /** A token whose choice the current calendar still promises is accepted. */
  lemma Accepted(cart: Cart, option: string, calendar: Calendar, now: int, promise: Choice)
    requires ReadSelection(cart, now).Ok? && RevisionOf(cart).Ok?
    requires var s := ReadSelection(cart, now).value;
             && s.cartId == cart.id && s.cartRevision == RevisionOf(cart).value && s.shippingOptionId == option
             && s.revision == calendar.revision && s.request == calendar.request
             && promise in calendar.choices && Identity(promise) == Identity(s.choice) && now < s.choice.cutoffAt
    ensures Validate(cart, option, calendar, now).Ok?
  {
    FindIdentityLaw(calendar.choices, Identity(ReadSelection(cart, now).value.choice));
  }

  /** What a token says: a choice of its calendar that has not passed its cutoff, for this cart and calendar. */
  lemma Issued(cart: Cart, option: string, calendar: Calendar, arrival: int, windowId: string, quoteId: string, now: int)
    requires Issue(cart, option, calendar, arrival, windowId, quoteId, now).Ok?
    ensures var s := Issue(cart, option, calendar, arrival, windowId, quoteId, now).value;
            && s.choice in calendar.choices && s.choice.arrivalDate == arrival && WindowId(s.choice) == windowId
            && now < s.expiresAt && s.expiresAt <= calendar.expiresAt && s.expiresAt <= s.choice.cutoffAt
  {
    FindChoiceLaw(calendar.choices, arrival, windowId);
  }

  /** A computed calendar speaks for its query, and expires before the day after its policy's last. */
  lemma CalendarSpeaks(q: Query, now: int)
    requires Eastern(q.zone) && Compute(q, now).Ok?
    ensures var calendar := Compute(q, now).value;
            && calendar.revision == q.policy && calendar.request == q.request
            && (calendar.choices != [] ==> Answerable(q, now))
            && forall later :: later < calendar.expiresAt ==> EasternDate(q.zone, later) <= q.policy.validThrough
  {
    ComputedWith(q, now);
    DatesBefore(q.zone, q.policy.validThrough + 1, Compute(q, now).value.expiresAt);
  }

  lemma ComputedWith(q: Query, now: int)
    requires Compute(q, now).Ok?
    ensures var calendar, midnight := Compute(q, now).value, LocalInstant(q.zone, q.policy.validThrough + 1, 0);
            && calendar.revision == q.policy && calendar.request == q.request
            && (calendar.choices != [] ==> Answerable(q, now))
            && midnight.Some? && calendar.expiresAt <= midnight.value
  {
  }

  lemma DatesBefore(zone: Zone, date: int, expiresAt: int)
    requires Eastern(zone) && LocalInstant(zone, date, 0).Some? && expiresAt <= LocalInstant(zone, date, 0).value
    ensures forall later :: later < expiresAt ==> EasternDate(zone, later) < date
  {
    forall later | later < expiresAt ensures EasternDate(zone, later) < date {
      BeforeMidnight(zone, date, later);
    }
  }

  /** The choice a token carries is still promised when the calendar can be computed again. */
  lemma ChoiceSurvives(q: Query, again: Option<Transit>, now: int, later: int, c: Choice)
    requires Eastern(q.zone) && now <= later && SamePromise(q, again)
    requires Compute(q, now).Ok? && Answerable(q, now) && Answerable(q.(transit := again), later)
    requires Compute(q.(transit := again), later).Ok?
    requires c in Compute(q, now).value.choices && later < c.cutoffAt
    ensures exists c' :: c' in Compute(q.(transit := again), later).value.choices && Identity(c') == Identity(c)
  {
    var q' := q.(transit := again);
    QuoteStability(q, again, now, later);
    ExactlyListed(q, now);
    assert Carried(q, c) == c;
    var c' := Carried(q', c);
    assert c' in Compute(q', later).value.choices && Identity(c') == Identity(c);
  }

  /** A token issued for a cart, checked at any instant before its expiry against the same cart, policy and carrier
      promise, is accepted exactly when no date that has come into sight since needs a nonexistent local time. */
  lemma TokenHolds(q: Query, again: Option<Transit>, now: int, issued: int, later: int, cart: Cart, cart': Cart,
                   option: string, arrival: int, windowId: string, quoteId: string)
    requires Eastern(q.zone) && now <= issued <= later && SamePromise(q, again)
    requires Compute(q, now).Ok? && Answerable(q.(transit := again), later)
    requires quoteId != "" && option != ""
    requires var s := Issue(cart, option, Compute(q, now).value, arrival, windowId, quoteId, issued);
             s.Ok? && later < s.value.expiresAt && cart'.selection == Some(s.value)
    requires RevisionOf(cart') == RevisionOf(cart)
    ensures Revalidates(q.(transit := again), cart', option, later) <==>
            NewDatesExist(q.(transit := again), OffersOf(q.(transit := again)), now, later)
  {
    var q' := q.(transit := again);
    var calendar := Compute(q, now).value;
    var s := Issue(cart, option, calendar, arrival, windowId, quoteId, issued).value;
    Issued(cart, option, calendar, arrival, windowId, quoteId, issued);
    CalendarSpeaks(q, now);
    RecomputesIff(q, again, now, later);
    if Compute(q', later).Ok? {
      CalendarSpeaks(q', later);
      ChoiceSurvives(q, again, now, later, s.choice);
      var promise :| promise in Compute(q', later).value.choices && Identity(promise) == Identity(s.choice);
      Accepted(cart', option, Compute(q', later).value, later, promise);
    }
  }
}
