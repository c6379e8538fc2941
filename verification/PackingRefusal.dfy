/** A choice that is shown and then never packed: eighteen hours and twenty minutes. */
module PackingRefusal {
  import opened Base
  import opened Clock
  import opened Calendar
  import opened CalendarLaws
  import PackingHandover
  import PackingPolicy
  import Packing

  /** Tuesday, 13 January 2026. */
  const TUESDAY := 20_466
  const WEDNESDAY := TUESDAY + 1

  /** Eastern time in winter. */
  function Winter(): Zone {
    at => -5 * HOUR
  }

  /** Packed at 16:00, and due by 10:20 on the day of arrival. */
  function UpsPolicy(): Policy {
    var schedule := Schedule(0, 0, 600, 660, [Window("noon", "Noon", 600, 720)]);
    var ups := UpsRules(EVERY_DAY, EVERY_DAY, EVERY_DAY, 0, 900, 960, 620, 48, true);
    Policy("r1", 0, TUESDAY, TUESDAY + 10, 1, 1800, EVERY_DAY, [], [], [], ups, Plant(schedule, EVERY_DAY, [], [], []), [], [])
  }

  const MORNING := TUESDAY * DAY + 480 * MINUTE + 5 * HOUR

  const NEXT_DAY := Transit(1, "t1", 0, MORNING + DAY, TUESDAY, TUESDAY + 10, "30340", "30030", "OVERNIGHT", None, None)

  function Shipping(): Query {
    Query(Winter(), UpsPolicy(), Request(UpsShipping, "OVERNIGHT", "30030", None), Some(NEXT_DAY))
  }

  function NextMorning(): Choice {
    var packedAt, arrivalBy := TUESDAY * DAY + 960 * MINUTE + 5 * HOUR, WEDNESDAY * DAY + 620 * MINUTE + 5 * HOUR;
    Choice(WEDNESDAY, TUESDAY, TUESDAY, None, TUESDAY * DAY + 900 * MINUTE + 5 * HOUR, packedAt, arrivalBy,
           ElapsedHours(arrivalBy - packedAt), PackingDays(arrivalBy - packedAt), Some(NEXT_DAY))
  }

  lemma WinterTimes(date: int, minute: nat)
    requires minute < 1440
    ensures LocalInstant(Winter(), date, minute) == Some(date * DAY + minute * MINUTE + 5 * HOUR)
  {
  }

  lemma Open(day: int)
    requires TUESDAY <= day <= TUESDAY + 10
    ensures Operations(UpsPolicy())(day) && Carrier(UpsPolicy())(day) && Weekday(day) in EVERY_DAY
  {
    EveryDay(day);
  }

  lemma Today()
    ensures EasternDate(Winter(), MORNING) == TUESDAY && Horizon(Winter(), UpsPolicy(), MORNING) == WEDNESDAY
  {
  }

  lemma PolicyIsOk()
    ensures PolicyOk(UpsPolicy())
  {
    EveryDay(0);
  }

  lemma InForce()
    ensures PolicyError(Winter(), UpsPolicy(), MORNING).None? && Answerable(Shipping(), MORNING)
  {
    Today();
    PolicyIsOk();
  }

  lemma Computes()
    ensures Compute(Shipping(), MORNING).Ok?
  {
    var q := Shipping();
    InForce();
    WinterTimes(TUESDAY + 11, 0);
    CollectOk(q, MORNING);
    forall day | Visible(OffersOf(q), Horizon(q.zone, q.policy, MORNING), day)
      ensures TimesExist(q, MORNING, OffersOf(q)(day).value)
    {
      AllTimesExist(q, MORNING, OffersOf(q)(day).value);
    }
  }

  lemma AllTimesExist(q: Query, now: int, offer: Offer)
    requires q.zone == Winter()
    ensures TimesExist(q, now, offer)
  {
    WinterTimes(offer.cutoffDate, offer.cutoffTime);
    WinterTimes(offer.pick, offer.packTime);
    forall slot | slot in offer.slots ensures SlotTimesExist(q.zone, offer, slot) {
      WinterTimes(offer.arrival, slot.end);
    }
  }

  lemma DatesOfNextMorning()
    ensures UpsDates(UpsPolicy(), NEXT_DAY, NextMorning())
  {
    var p := UpsPolicy();
    Open(TUESDAY);
    Open(WEDNESDAY);
    assert OpenDays(TUESDAY, 1, 1, Carrier(p)) == OpenDays(TUESDAY, 0, 1, Carrier(p)) + 1;
  }

  lemma NextMorningPromised()
    ensures Listed(Shipping(), MORNING, NextMorning())
  {
    Today();
    DatesOfNextMorning();
    WinterTimes(TUESDAY, 900);
    WinterTimes(TUESDAY, 960);
    WinterTimes(WEDNESDAY, 620);
  }

  lemma NextMorningShown()
    ensures PackingHandover.Shown(Shipping(), MORNING, NextMorning())
  {
    InForce();
    Computes();
    NextMorningPromised();
    ExactlyListed(Shipping(), MORNING);
  }

  lemma OffGrid()
    ensures !PackingHandover.OnGrid(NextMorning())
  {
    assert NextMorning().arrivalBy - NextMorning().packedAt == 1100 * 60_000;
  }

  /** The calendar shows the choice, and whatever packing policies are in force, selection refuses it. */
  lemma ShownThenRefused(policies: seq<PackingPolicy.Policy>)
    ensures PackingHandover.Shown(Shipping(), MORNING, NextMorning())
    ensures var context := PackingHandover.ContextOf(Shipping().request, NextMorning());
            context.Ok? && PackingPolicy.Select(Winter(), policies, Packing.ShipmentOf(context.value)) ==
                           Err(PackingPolicy.InconsistentExposure)
  {
    NextMorningShown();
    OffGrid();
    PackingHandover.OffGridIsRefused(Shipping(), MORNING, NextMorning(), policies);
  }
}
