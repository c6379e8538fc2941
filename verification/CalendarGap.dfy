/** A token that is turned away before it expires: at midnight a date comes into sight whose cutoff falls in the hour
    that the spring change skips. */
module CalendarGap {
  import opened Base
  import opened Clock
  import opened Calendar
  import opened CalendarLaws

  /** Sunday, 8 March 2026. */
  const SUNDAY := 20_520
  const SATURDAY := SUNDAY - 1
  const FRIDAY := SUNDAY - 2

  /** At 02:00 that Sunday, 07:00 UTC, the clocks go forward. */
  const CHANGE := SUNDAY * DAY + 7 * HOUR

  /** Eastern time in the months around that change. */
  function SpringZone(): Zone {
    at => if at < CHANGE then -5 * HOUR else -4 * HOUR
  }

  const NOON := Window("noon", "Noon", 600, 720)

  /** Pickup until noon, ordered by 02:30 and packed at 03:00 the same day. */
  function PickupPolicy(): Policy {
    var schedule := Schedule(0, 0, 150, 180, [NOON]);
    var ups := UpsRules(EVERY_DAY, EVERY_DAY, EVERY_DAY, 0, 600, 660, 1020, 48, true);
    Policy("r1", 0, FRIDAY, FRIDAY + 10, 1, 1800, EVERY_DAY, [], [], [], ups, Plant(schedule, EVERY_DAY, [], [], []), [], [])
  }

  function Pickup(): Query {
    Query(SpringZone(), PickupPolicy(), Request(PlantPickup, "", "", None), None)
  }

  /** 23:50 on Friday, and 00:05 on Saturday, fifteen minutes later. */
  const EVENING := FRIDAY * DAY + 1430 * MINUTE + 5 * HOUR
  const AFTER_MIDNIGHT := SATURDAY * DAY + 5 * MINUTE + 5 * HOUR

  function Basket(selection: Option<Selection>): Cart {
    Cart("cart", [Line("l", "v", 1, 100)], "context", selection)
  }

  lemma SpringIsEastern()
    ensures Eastern(SpringZone())
  {
  }

  lemma BeforeTheChange(date: int, minute: nat)
    requires minute < 1440 && date < SUNDAY
    ensures LocalInstant(SpringZone(), date, minute) == Some(date * DAY + minute * MINUTE + 5 * HOUR)
  {
  }

  lemma SkippedHour()
    ensures LocalInstant(SpringZone(), SUNDAY, 150).None?
  {
  }

  lemma Dates()
    ensures EasternDate(SpringZone(), EVENING) == FRIDAY && EasternDate(SpringZone(), AFTER_MIDNIGHT) == SATURDAY
  {
  }

  function PickupOn(day: int): Offer {
    Offer(day, day, day, day, 150, 180, [Slot(Some(NOON), 720)], None)
  }

  lemma PickupEveryDay(day: int)
    ensures RouteOf(PickupPolicy(), Pickup().request).Some? && OfferOn(Pickup(), day) == Some(PickupOn(day))
  {
    EveryDay(day);
    assert Slots([NOON]) == [Slot(Some(NOON), 720)];
  }

  lemma PolicyIsOk()
    ensures PolicyOk(PickupPolicy())
  {
    EveryDay(0);
  }

  lemma PolicyInForce()
    ensures PolicyError(SpringZone(), PickupPolicy(), EVENING).None?
  {
    PolicyIsOk();
    Dates();
  }

  /** On Friday evening Friday and Saturday are in sight, and their local times exist. */
  lemma EveningCollects()
    ensures Collect(Pickup(), EVENING).Ok?
  {
    var q := Pickup();
    CollectOk(q, EVENING);
    Dates();
    forall day | FRIDAY <= day <= SATURDAY && Visible(OffersOf(q), SATURDAY, day)
      ensures TimesExist(q, EVENING, OffersOf(q)(day).value)
    {
      PickupEveryDay(day);
      BeforeTheChange(day, 150);
      BeforeTheChange(day, 180);
      BeforeTheChange(day, 720);
    }
  }

  lemma EveningComputes()
    ensures Compute(Pickup(), EVENING).Ok? && Answerable(Pickup(), EVENING)
    ensures Compute(Pickup(), EVENING).value.expiresAt == EVENING + 1800 * 1000
  {
    PolicyInForce();
    EveningCollects();
    PickupEveryDay(FRIDAY);
    assert LocalInstant(SpringZone(), FRIDAY + 11, 0) == Some((FRIDAY + 11) * DAY + 4 * HOUR);
  }

  function SaturdayNoon(): Choice {
    var packedAt, arrivalBy := SATURDAY * DAY + 180 * MINUTE + 5 * HOUR, SATURDAY * DAY + 720 * MINUTE + 5 * HOUR;
    Choice(SATURDAY, SATURDAY, SATURDAY, Some(NOON), SATURDAY * DAY + 150 * MINUTE + 5 * HOUR, packedAt, arrivalBy,
           ElapsedHours(arrivalBy - packedAt), PackingDays(arrivalBy - packedAt), None)
  }

  lemma SaturdayShown()
    ensures Sourced(Pickup()) && Shows(Pickup(), OffersOf(Pickup()), EVENING, SATURDAY, SATURDAY, SaturdayNoon())
  {
    var q, offer := Pickup(), PickupOn(SATURDAY);
    PickupEveryDay(SATURDAY);
    Dates();
    BeforeTheChange(SATURDAY, 150);
    BeforeTheChange(SATURDAY, 180);
    BeforeTheChange(SATURDAY, 720);
    assert offer.slots[0] in offer.slots && Makes(q, EVENING, offer, offer.slots[0], SaturdayNoon());
  }

  lemma SaturdayListed(choices: seq<Choice>)
    requires Collect(Pickup(), EVENING) == Ok(choices)
    ensures SaturdayNoon() in choices
  {
    CollectMembers(Pickup(), EVENING);
    SaturdayShown();
    Dates();
  }

  lemma MadeOnSaturday(day: int, c: Choice)
    requires Shows(Pickup(), OffersOf(Pickup()), EVENING, SATURDAY, day, c) && c.arrivalDate == SATURDAY
    ensures c.cutoffAt == SATURDAY * DAY + 150 * MINUTE + 5 * HOUR
  {
    PickupEveryDay(day);
    assert day == SATURDAY;
    BeforeTheChange(SATURDAY, 150);
    BeforeTheChange(SATURDAY, 180);
  }

  /** Whatever choice is found for Saturday, its cutoff is at 02:30. */
  lemma SaturdayCutoff(choices: seq<Choice>, c: Choice)
    requires Collect(Pickup(), EVENING) == Ok(choices)
    requires c in choices && c.arrivalDate == SATURDAY
    ensures c.cutoffAt == SATURDAY * DAY + 150 * MINUTE + 5 * HOUR
  {
    CollectMembers(Pickup(), EVENING);
    Dates();
    var day :| Shows(Pickup(), OffersOf(Pickup()), EVENING, SATURDAY, day, c);
    MadeOnSaturday(day, c);
  }

  lemma {:induction false} ChoiceFound(choices: seq<Choice>, c: Choice)
    requires c in choices
    ensures FindChoice(choices, c.arrivalDate, WindowId(c)).Some?
  {
    if !(choices[0].arrivalDate == c.arrivalDate && WindowId(choices[0]) == WindowId(c)) {
      ChoiceFound(choices[1..], c);
    }
  }

  lemma TokenIssued()
    requires Compute(Pickup(), EVENING).Ok?
    ensures var s := Issue(Basket(None), "pickup", Compute(Pickup(), EVENING).value, SATURDAY, "noon", "quote", EVENING);
            s.Ok? && EVENING < AFTER_MIDNIGHT < s.value.expiresAt
  {
    var calendar := Compute(Pickup(), EVENING).value;
    EveningComputes();
    SaturdayListed(calendar.choices);
    ChoiceFound(calendar.choices, SaturdayNoon());
    FindChoiceLaw(calendar.choices, SATURDAY, "noon");
    SaturdayCutoff(calendar.choices, FindChoice(calendar.choices, SATURDAY, "noon").value);
    IssuedFor(calendar, FindChoice(calendar.choices, SATURDAY, "noon").value);
  }

  lemma IssuedFor(calendar: Calendar, c: Choice)
    requires FindChoice(calendar.choices, SATURDAY, "noon") == Some(c) && calendar.expiresAt == EVENING + 1800 * 1000
    requires c.cutoffAt == SATURDAY * DAY + 150 * MINUTE + 5 * HOUR
    ensures var s := Issue(Basket(None), "pickup", calendar, SATURDAY, "noon", "quote", EVENING);
            s.Ok? && EVENING < AFTER_MIDNIGHT < s.value.expiresAt
  {
    assert RevisionOf(Basket(None)).Ok?;
  }

  /** At midnight Sunday comes into sight, and its cutoff does not exist. */
  lemma MissingHour()
    ensures !NewDatesExist(Pickup(), OffersOf(Pickup()), EVENING, AFTER_MIDNIGHT)
  {
    var q := Pickup();
    PickupEveryDay(SUNDAY);
    SkippedHour();
    Dates();
    assert Visible(OffersOf(q), SUNDAY, SUNDAY) && !TimesExist(q, AFTER_MIDNIGHT, OffersOf(q)(SUNDAY).value);
  }

  /** A token issued at 23:50 for half an hour is refused at 00:05, for the same cart. */
  lemma TokenTurnedAway()
    ensures Eastern(Pickup().zone) && Compute(Pickup(), EVENING).Ok?
    ensures var s := Issue(Basket(None), "pickup", Compute(Pickup(), EVENING).value, SATURDAY, "noon", "quote", EVENING);
            && s.Ok? && EVENING < AFTER_MIDNIGHT < s.value.expiresAt
            && !Revalidates(Pickup(), Basket(Some(s.value)), "pickup", AFTER_MIDNIGHT)
  {
    SpringIsEastern();
    EveningComputes();
    TokenIssued();
    MissingHour();
    PickupEveryDay(SATURDAY);
    var q := Pickup();
    Refused(q, Issue(Basket(None), "pickup", Compute(q, EVENING).value, SATURDAY, "noon", "quote", EVENING).value);
  }

  lemma Refused(q: Query, s: Selection)
    requires Eastern(q.zone) && !q.request.mode.UpsShipping? && Compute(q, EVENING).Ok? && q.transit == None
    requires Issue(Basket(None), "pickup", Compute(q, EVENING).value, SATURDAY, "noon", "quote", EVENING) == Ok(s)
    requires RouteOf(q.policy, q.request).Some? && AFTER_MIDNIGHT < s.expiresAt
    requires !NewDatesExist(q, OffersOf(q), EVENING, AFTER_MIDNIGHT)
    ensures !Revalidates(q, Basket(Some(s)), "pickup", AFTER_MIDNIGHT)
  {
    assert q.(transit := None) == q;
    TokenHolds(q, None, EVENING, EVENING, AFTER_MIDNIGHT, Basket(None), Basket(Some(s)), "pickup", SATURDAY, "noon", "quote");
  }
}
