/** The fulfillment calendar: which arrival dates an order may still choose, and the signed choice a cart carries. */
module Calendar {
  import opened Base
  import opened Clock
  import opened Permutations

  type Minute = m: nat | m < 1440

  datatype Window = Window(id: string, title: string, start: Minute, end: Minute)

  datatype Schedule = Schedule(preparationDays: nat, cutoffDays: nat, cutoffTime: Minute, packTime: Minute,
                               windows: seq<Window>)

  datatype Override = Override(weekday: int, time: Minute)

  datatype Plant = Plant(schedule: Schedule, weekdays: seq<int>, additionalDates: seq<int>, blackoutDates: seq<int>,
                         cutoffOverrides: seq<Override>)

  datatype AtlantaRoute = AtlantaRoute(id: string, zip: string, schedule: Schedule, weekdays: seq<int>)

  datatype SoutheastRoute = SoutheastRoute(id: string, active: bool, schedule: Schedule, dates: seq<int>)

  datatype UpsRules = UpsRules(dispatchWeekdays: seq<int>, arrivalWeekdays: seq<int>, carrierWeekdays: seq<int>,
                               preparationDays: nat, cutoffTime: Minute, packTime: Minute, arrivalByTime: Minute,
                               maxElapsedHours: nat, allowNonDeliveryDayHold: bool)

  datatype Policy = Policy(revision: string, approvedAt: int, validFrom: int, validThrough: int, lookAheadDays: nat,
                           quoteTtlSeconds: nat, operationsWeekdays: seq<int>, operationsBlackouts: seq<int>,
                           upsPickupBlackouts: seq<int>, upsDeliveryBlackouts: seq<int>, ups: UpsRules, plant: Plant,
                           atlanta: seq<AtlantaRoute>, southeast: seq<SoutheastRoute>)

  datatype Mode = UpsShipping | PlantPickup | AtlantaDelivery | SoutheastPickup | UnknownMode(text: string)

  datatype Request = Request(mode: Mode, service: string, postalCode: string, routeId: Option<string>)

  datatype Transit = Transit(businessDays: int, revision: string, fetchedAt: int, expiresAt: int, validFrom: int,
                             validThrough: int, originPostalCode: string, destinationPostalCode: string,
                             service: string, dispatchDate: Option<int>, estimatedArrivalDate: Option<int>)

  /** `elapsedHours` is rounded to four decimals: it counts ten-thousandths of an hour. */
  datatype Choice = Choice(arrivalDate: int, dispatchDate: int, pickDate: int, window: Option<Window>, cutoffAt: int,
                           packedAt: int, arrivalBy: int, elapsedHours: int, packingDays: int, transit: Option<Transit>)

  datatype Reason = NoAvailableDates | UnknownRoute | MissingTransit

  /** `revision` stands for the policy's hash, so it is the policy itself. */
  datatype Calendar = Calendar(revision: Policy, generatedAt: int, expiresAt: int, request: Request,
                               choices: seq<Choice>, reason: Option<Reason>)

  datatype Error =
    | InvalidMode
    | CalendarInvalid
    | OutsideCoverage
    | NonexistentLocalCutoff

  /*** The policy's schema ***/

  predicate WeekdaysOk(days: seq<int>) {
    Distinct(days) && forall day :: day in days ==> 0 <= day <= 6
  }

  predicate ScheduleOk(s: Schedule) {
    && s.preparationDays <= 14 && s.cutoffDays <= 30 && 1 <= |s.windows| <= 12
    && (forall i :: 0 <= i < |s.windows| ==> s.windows[i].start < s.windows[i].end)
    && (forall i, j :: 0 <= i < j < |s.windows| ==> s.windows[i].id != s.windows[j].id)
  }

  predicate UpsOk(u: UpsRules) {
    && WeekdaysOk(u.dispatchWeekdays) && WeekdaysOk(u.arrivalWeekdays) && WeekdaysOk(u.carrierWeekdays)
    && u.dispatchWeekdays != [] && u.arrivalWeekdays != [] && u.carrierWeekdays != []
    && u.preparationDays <= 14 && 1 <= u.maxElapsedHours <= 336
  }

  predicate RoutesOk(p: Policy) {
    && ScheduleOk(p.plant.schedule) && WeekdaysOk(p.plant.weekdays)
    && (forall i, j :: 0 <= i < j < |p.plant.cutoffOverrides| ==>
          p.plant.cutoffOverrides[i].weekday != p.plant.cutoffOverrides[j].weekday)
    && (forall i :: 0 <= i < |p.plant.cutoffOverrides| ==> 0 <= p.plant.cutoffOverrides[i].weekday <= 6)
    && (forall i :: 0 <= i < |p.atlanta| ==> ScheduleOk(p.atlanta[i].schedule) && WeekdaysOk(p.atlanta[i].weekdays))
    && (forall i, j :: 0 <= i < j < |p.atlanta| ==> p.atlanta[i].zip != p.atlanta[j].zip)
    && (forall i :: 0 <= i < |p.southeast| ==> ScheduleOk(p.southeast[i].schedule))
    && (forall i, j :: 0 <= i < j < |p.southeast| ==> p.southeast[i].id != p.southeast[j].id)
  }

  predicate PolicyOk(p: Policy) {
    && 1 <= p.lookAheadDays <= 60 && 30 <= p.quoteTtlSeconds <= 1800
    && WeekdaysOk(p.operationsWeekdays) && p.operationsWeekdays != []
    && UpsOk(p.ups) && RoutesOk(p) && p.validFrom <= p.validThrough
  }

  /** `readCalendarPolicy`: what keeps a policy from being used at an instant. */
  function PolicyError(zone: Zone, p: Policy, now: int): Option<Error> {
    if !PolicyOk(p) then Some(CalendarInvalid)
    else if p.approvedAt > now || EasternDate(zone, now) < p.validFrom || EasternDate(zone, now) > p.validThrough then
      Some(OutsideCoverage)
    else None
  }

  /*** Days and what they offer ***/

  predicate Covered(p: Policy, d: int) {
    p.validFrom <= d <= p.validThrough
  }

  function Operations(p: Policy): Open {
    d => Covered(p, d) && Weekday(d) in p.operationsWeekdays && d !in p.operationsBlackouts
  }

  function Carrier(p: Policy): Open {
    d => Covered(p, d) && Weekday(d) in p.ups.carrierWeekdays && d !in p.upsDeliveryBlackouts
  }

  function Horizon(zone: Zone, p: Policy, now: int): int {
    Min(EasternDate(zone, now) + p.lookAheadDays, p.validThrough)
  }

  predicate FiveDigits(s: string) {
    |s| == 5 && forall i :: 0 <= i < 5 ==> '0' <= s[i] <= '9'
  }

  predicate UsableTransit(t: Transit, request: Request, now: int) {
    && 1 <= t.businessDays <= 14
    && t.service == request.service && t.destinationPostalCode == request.postalCode
    && FiveDigits(t.originPostalCode) && t.revision != ""
    && now < t.expiresAt && t.fetchedAt <= now
  }

  function FindAtlanta(routes: seq<AtlantaRoute>, zip: string): Option<AtlantaRoute> {
    if routes == [] then None
    else if routes[0].zip == zip then Some(routes[0])
    else FindAtlanta(routes[1..], zip)
  }

  function FindSoutheast(routes: seq<SoutheastRoute>, id: Option<string>): Option<SoutheastRoute> {
    if routes == [] then None
    else if Some(routes[0].id) == id && routes[0].active then Some(routes[0])
    else FindSoutheast(routes[1..], id)
  }

  function OverrideFor(overrides: seq<Override>, day: int): Option<Minute> {
    if overrides == [] then None
    else if overrides[0].weekday == day then Some(overrides[0].time)
    else OverrideFor(overrides[1..], day)
  }

  /** The schedule of a pickup or local delivery, with the days it serves. */
  datatype Route = Route(schedule: Schedule, serves: Open, overrides: seq<Override>)

  function RouteOf(p: Policy, request: Request): Option<Route> {
    match request.mode
    case UpsShipping => None
    case UnknownMode(_) => None
    case PlantPickup =>
      Some(Route(p.plant.schedule,
                 d => d !in p.plant.blackoutDates && (Weekday(d) in p.plant.weekdays || d in p.plant.additionalDates),
                 p.plant.cutoffOverrides))
    case AtlantaDelivery => (
      match FindAtlanta(p.atlanta, request.postalCode)
      case None => None
      case Some(r) => Some(Route(r.schedule, d => Weekday(d) in r.weekdays, []))
    )
    case SoutheastPickup => (
      match FindSoutheast(p.southeast, request.routeId)
      case None => None
      case Some(r) => Some(Route(r.schedule, d => d in r.dates, []))
    )
  }

  /** What a day offers before the clock is looked at: dates, order cutoff, pack time and arrival windows. */
  datatype Offer = Offer(arrival: int, dispatch: int, pick: int, cutoffDate: int, cutoffTime: Minute,
                         packTime: Minute, slots: seq<Slot>, transit: Option<Transit>)

  datatype Slot = Slot(window: Option<Window>, end: Minute)

  predicate DispatchOk(p: Policy, t: Transit, dispatch: int) {
    && Operations(p)(dispatch)
    && Weekday(dispatch) in p.ups.dispatchWeekdays && dispatch !in p.upsPickupBlackouts
    && t.validFrom <= dispatch && (t.dispatchDate.None? || t.dispatchDate == Some(dispatch))
  }

  predicate ArrivalOk(p: Policy, t: Transit, dispatch: int, arrival: int) {
    && arrival <= t.validThrough && Weekday(arrival) in p.ups.arrivalWeekdays
    && (t.estimatedArrivalDate.None? || t.estimatedArrivalDate == Some(arrival))
    && (p.ups.allowNonDeliveryDayHold || arrival - dispatch == t.businessDays)
  }

  function UpsOffer(p: Policy, t: Transit, dispatch: int): Option<Offer>
    requires 1 <= t.businessDays
  {
    if !DispatchOk(p, t, dispatch) then None
    else
      match Advance(dispatch, t.businessDays, 1, Carrier(p), SEARCH_LIMIT)
      case None => None
      case Some(arrival) =>
        if !ArrivalOk(p, t, dispatch, arrival) then None
        else
          match Advance(dispatch, p.ups.preparationDays, -1, Operations(p), SEARCH_LIMIT)
          case None => None
          case Some(pick) =>
            Some(Offer(arrival, dispatch, pick, pick, p.ups.cutoffTime, p.ups.packTime,
                       [Slot(None, p.ups.arrivalByTime)], Some(t)))
  }

  function Slots(windows: seq<Window>): seq<Slot> {
    if windows == [] then [] else [Slot(Some(windows[0]), windows[0].end)] + Slots(windows[1..])
  }

  /** Explicit route and additional dates may fall outside the recurring operations week: with no preparation days
      the pick date is the arrival itself, open or not. */
  function PickFor(p: Policy, s: Schedule, arrival: int): Option<int> {
    if s.preparationDays == 0 then Some(arrival)
    else Advance(arrival, s.preparationDays, -1, Operations(p), SEARCH_LIMIT)
  }

  function RouteOffer(p: Policy, route: Route, arrival: int): Option<Offer> {
    if arrival in p.operationsBlackouts || !route.serves(arrival) then None
    else
      match PickFor(p, route.schedule, arrival)
      case None => None
      case Some(pick) =>
        var s := route.schedule;
        var cutoffTime := match OverrideFor(route.overrides, Weekday(arrival))
                          case None => s.cutoffTime
                          case Some(time) => time;
        Some(Offer(arrival, arrival, pick, arrival - s.cutoffDays, cutoffTime, s.packTime, Slots(s.windows), None))
  }

  /** Everything a calendar depends on except the clock. */
  datatype Query = Query(zone: Zone, policy: Policy, request: Request, transit: Option<Transit>)

  /** The query has what its mode needs: carrier transit in force, or a known route. */
  predicate Answerable(q: Query, now: int) {
    if q.request.mode.UpsShipping? then q.transit.Some? && UsableTransit(q.transit.value, q.request, now)
    else RouteOf(q.policy, q.request).Some?
  }

  predicate Sourced(q: Query) {
    if q.request.mode.UpsShipping? then q.transit.Some? && 1 <= q.transit.value.businessDays
    else RouteOf(q.policy, q.request).Some?
  }

  function OfferOn(q: Query, day: int): Option<Offer> {
    if !Sourced(q) then None
    else if q.request.mode.UpsShipping? then UpsOffer(q.policy, q.transit.value, day)
    else RouteOffer(q.policy, RouteOf(q.policy, q.request).value, day)
  }

  /*** What the clock leaves of an offer ***/

  /** A ten-thousandth of an hour is 360 milliseconds. */
  function ElapsedHours(elapsed: int): int {
    (elapsed + 180) / 360
  }

  function PackingDays(elapsed: int): int {
    Max(1, (elapsed + DAY - 1) / DAY)
  }

  predicate InTime(q: Query, now: int, offer: Offer, cutoff: int, packedAt: int, arrivalBy: int) {
    && now < Min(cutoff, packedAt) && packedAt <= arrivalBy
    && (q.request.mode.UpsShipping? ==> arrivalBy - packedAt <= q.policy.ups.maxElapsedHours * HOUR)
  }

  function ChoiceOf(offer: Offer, slot: Slot, cutoff: int, packedAt: int, arrivalBy: int): Choice {
    Choice(offer.arrival, offer.dispatch, offer.pick, slot.window, Min(cutoff, packedAt), packedAt, arrivalBy,
           ElapsedHours(arrivalBy - packedAt), PackingDays(arrivalBy - packedAt), offer.transit)
  }

  predicate Ripe(q: Query, now: int, offer: Offer) {
    && EasternDate(q.zone, now) <= offer.pick && Covered(q.policy, offer.pick) && Covered(q.policy, offer.dispatch)
  }

  /** `makeChoice`. */
  function MakeChoice(q: Query, now: int, offer: Offer, cutoff: int, slot: Slot): Result<seq<Choice>, Error> {
    if !Ripe(q, now, offer) then Ok([])
    else
      match LocalInstant(q.zone, offer.pick, offer.packTime)
      case None => Err(NonexistentLocalCutoff)
      case Some(packedAt) =>
        match LocalInstant(q.zone, offer.arrival, slot.end)
        case None => Err(NonexistentLocalCutoff)
        case Some(arrivalBy) =>
          if InTime(q, now, offer, cutoff, packedAt, arrivalBy) then
            Ok([ChoiceOf(offer, slot, cutoff, packedAt, arrivalBy)])
          else Ok([])
  }

  function Before(choices: seq<Choice>, rest: Result<seq<Choice>, Error>): Result<seq<Choice>, Error> {
    match rest
    case Err(e) => Err(e)
    case Ok(more) => Ok(choices + more)
  }

  function SlotChoices(q: Query, now: int, offer: Offer, cutoff: int, slots: seq<Slot>): Result<seq<Choice>, Error> {
    if slots == [] then Ok([])
    else
      match MakeChoice(q, now, offer, cutoff, slots[0])
      case Err(e) => Err(e)
      case Ok(cs) => Before(cs, SlotChoices(q, now, offer, cutoff, slots[1..]))
  }

  function OfferChoices(q: Query, now: int, offer: Offer): Result<seq<Choice>, Error> {
    match LocalInstant(q.zone, offer.cutoffDate, offer.cutoffTime)
    case None => Err(NonexistentLocalCutoff)
    case Some(cutoff) => SlotChoices(q, now, offer, cutoff, offer.slots)
  }

  function DayChoices(q: Query, now: int, horizon: int, day: int): Result<seq<Choice>, Error> {
    match OfferOn(q, day)
    case None => Ok([])
    case Some(offer) => if offer.arrival > horizon then Ok([]) else OfferChoices(q, now, offer)
  }

  type Daily = int -> Result<seq<Choice>, Error>

  function Gather(daily: Daily, day: int, last: int): Result<seq<Choice>, Error>
    decreases last - day
  {
    if day > last then Ok([])
    else
      match daily(day)
      case Err(e) => Err(e)
      case Ok(cs) => Before(cs, Gather(daily, day + 1, last))
  }

  function DailyOf(q: Query, now: int, horizon: int): Daily {
    day => DayChoices(q, now, horizon, day)
  }

  function Collect(q: Query, now: int): Result<seq<Choice>, Error> {
    var horizon := Horizon(q.zone, q.policy, now);
    Gather(DailyOf(q, now, horizon), EasternDate(q.zone, now), horizon)
  }

  function MissingReason(q: Query): Reason {
    if q.request.mode.UpsShipping? then MissingTransit else UnknownRoute
  }

  function Expiry(q: Query, now: int, midnight: int): int {
    var base := Min(now + q.policy.quoteTtlSeconds * 1000, midnight);
    if q.request.mode.UpsShipping? && Answerable(q, now) then Min(base, q.transit.value.expiresAt) else base
  }

  function Compute(q: Query, now: int): Result<Calendar, Error> {
    if q.request.mode.UnknownMode? then Err(InvalidMode)
    else if PolicyError(q.zone, q.policy, now).Some? then Err(PolicyError(q.zone, q.policy, now).value)
    else
      match LocalInstant(q.zone, q.policy.validThrough + 1, 0)
      case None => Err(NonexistentLocalCutoff)
      case Some(midnight) =>
        var expiresAt := Expiry(q, now, midnight);
        if !Answerable(q, now) then Ok(Calendar(q.policy, now, expiresAt, q.request, [], Some(MissingReason(q))))
        else
          match Collect(q, now)
          case Err(e) => Err(e)
          case Ok(choices) =>
            Ok(Calendar(q.policy, now, expiresAt, q.request, choices,
                        if choices == [] then Some(NoAvailableDates) else None))
  }

  /*** The selection a cart carries ***/

  datatype Line = Line(id: string, variantId: string, quantity: int, price: int)

  /** `context` is the customer, address, currency and region part of a cart's revision. */
  datatype Cart = Cart(id: string, lines: seq<Line>, context: string, selection: Option<Selection>)

  datatype CartRevision = CartRevision(id: string, context: string, lines: multiset<Line>)

  /** The token is the selection itself: its signature admits no other. */
  datatype Selection = Selection(quoteId: string, cartId: string, cartRevision: CartRevision, shippingOptionId: string,
                                 request: Request, revision: Policy, issuedAt: int, expiresAt: int, choice: Choice)

  datatype SelectionError =
    | CartHasNoItems
    | InvalidCartLine
    | DateUnavailable
    | QuoteExpired
    | SelectionRequired
    | ContextChanged
    | NoLongerAvailable

  predicate LineOk(line: Line) {
    line.id != "" && line.variantId != "" && line.quantity > 0 && line.price >= 0
  }

  /** Lines are hashed in id order, so their order in the cart does not matter. */
  function RevisionOf(cart: Cart): Result<CartRevision, SelectionError> {
    if cart.id == "" || cart.lines == [] then Err(CartHasNoItems)
    else if exists i :: 0 <= i < |cart.lines| && !LineOk(cart.lines[i]) then Err(InvalidCartLine)
    else Ok(CartRevision(cart.id, cart.context, multiset(cart.lines)))
  }

  function WindowId(c: Choice): string {
    if c.window.Some? then c.window.value.id else ""
  }

  function FindChoice(choices: seq<Choice>, arrival: int, windowId: string): Option<Choice> {
    if choices == [] then None
    else if choices[0].arrivalDate == arrival && WindowId(choices[0]) == windowId then Some(choices[0])
    else FindChoice(choices[1..], arrival, windowId)
  }

  function Issue(cart: Cart, option: string, calendar: Calendar, arrival: int, windowId: string, quoteId: string,
                 now: int): Result<Selection, SelectionError>
  {
    match FindChoice(calendar.choices, arrival, windowId)
    case None => Err(DateUnavailable)
    case Some(choice) =>
      var expires := Min(calendar.expiresAt, choice.cutoffAt);
      if expires <= now then Err(QuoteExpired)
      else
        match RevisionOf(cart)
        case Err(e) => Err(e)
        case Ok(revision) =>
          Ok(Selection(quoteId, cart.id, revision, option, calendar.request, calendar.revision, now, expires, choice))
  }

  /** What `calendarChoiceIdentity` compares: the promise without the carrier cache's own times. */
  function Identity(c: Choice): Choice {
    if c.transit.None? then c
    else c.(transit := Some(c.transit.value.(fetchedAt := 0, expiresAt := 0)))
  }

  function FindIdentity(choices: seq<Choice>, identity: Choice): Option<Choice> {
    if choices == [] then None
    else if Identity(choices[0]) == identity then Some(choices[0])
    else FindIdentity(choices[1..], identity)
  }

  function ReadSelection(cart: Cart, now: int): Result<Selection, SelectionError> {
    match cart.selection
    case None => Err(SelectionRequired)
    case Some(s) =>
      if s.quoteId == "" || s.cartId == "" || s.shippingOptionId == "" || s.issuedAt > now || s.expiresAt <= now then
        Err(QuoteExpired)
      else Ok(s)
  }

  function Validate(cart: Cart, option: string, calendar: Calendar, now: int): Result<Selection, SelectionError> {
    match ReadSelection(cart, now)
    case Err(e) => Err(e)
    case Ok(s) =>
      if s.cartId != cart.id then Err(ContextChanged)
      else
        match RevisionOf(cart)
        case Err(e) => Err(e)
        case Ok(revision) =>
          if s.cartRevision != revision || s.shippingOptionId != option || s.revision != calendar.revision
             || s.request != calendar.request then Err(ContextChanged)
          else
            match FindIdentity(calendar.choices, Identity(s.choice))
            case None => Err(NoLongerAvailable)
            case Some(current) => if current.cutoffAt <= now then Err(NoLongerAvailable) else Ok(s)
  }

  /*** The computation, step by step ***/

  method MakeChoices(q: Query, now: int, offer: Offer, cutoff: int) returns (r: Result<seq<Choice>, Error>)
    requires EasternOffsets(q.zone)
    ensures r == SlotChoices(q, now, offer, cutoff, offer.slots)
  {
    var choices: seq<Choice> := [];
    assert offer.slots[0..] == offer.slots;
    BeforeUnits(choices, SlotChoices(q, now, offer, cutoff, offer.slots));
    for i := 0 to |offer.slots|
      invariant SlotChoices(q, now, offer, cutoff, offer.slots) ==
                Before(choices, SlotChoices(q, now, offer, cutoff, offer.slots[i..]))
    {
      var slot := offer.slots[i];
      assert offer.slots[i..][0] == slot && offer.slots[i..][1..] == offer.slots[i + 1..];
      if Ripe(q, now, offer) {
        var packedAt := EasternInstant(q.zone, offer.pick, offer.packTime);
        if packedAt.None? { return Err(NonexistentLocalCutoff); }
        var arrivalBy := EasternInstant(q.zone, offer.arrival, slot.end);
        if arrivalBy.None? { return Err(NonexistentLocalCutoff); }
        if InTime(q, now, offer, cutoff, packedAt.value, arrivalBy.value) {
          BeforeTwice(choices, [ChoiceOf(offer, slot, cutoff, packedAt.value, arrivalBy.value)],
                      SlotChoices(q, now, offer, cutoff, offer.slots[i + 1..]));
          choices := choices + [ChoiceOf(offer, slot, cutoff, packedAt.value, arrivalBy.value)];
        } else {
          BeforeUnits(choices, SlotChoices(q, now, offer, cutoff, offer.slots[i + 1..]));
        }
      } else {
        BeforeUnits(choices, SlotChoices(q, now, offer, cutoff, offer.slots[i + 1..]));
      }
    }
    BeforeUnits(choices, Ok([]));
    return Ok(choices);
  }

  lemma BeforeTwice(a: seq<Choice>, b: seq<Choice>, rest: Result<seq<Choice>, Error>)
    ensures Before(a, Before(b, rest)) == Before(a + b, rest)
  {
    if rest.Ok? {
      assert a + (b + rest.value) == (a + b) + rest.value;
    }
  }

  lemma BeforeUnits(choices: seq<Choice>, rest: Result<seq<Choice>, Error>)
    ensures Before([], rest) == rest && Before(choices, Ok([])) == Ok(choices)
  {
    if rest.Ok? {
      assert [] + rest.value == rest.value;
    }
    assert choices + [] == choices;
  }

  method OfferFor(q: Query, day: int) returns (r: Option<Offer>)
    requires Sourced(q)
    ensures r == OfferOn(q, day)
  {
    var p := q.policy;
    if q.request.mode.UpsShipping? {
      var t := q.transit.value;
      if !DispatchOk(p, t, day) { return None; }
      var arrival := AdvanceOpenDate(day, t.businessDays, 1, Carrier(p));
      if arrival.None? || !ArrivalOk(p, t, day, arrival.value) { return None; }
      var pick := AdvanceOpenDate(day, p.ups.preparationDays, -1, Operations(p));
      if pick.None? { return None; }
      return Some(Offer(arrival.value, day, pick.value, pick.value, p.ups.cutoffTime, p.ups.packTime,
                        [Slot(None, p.ups.arrivalByTime)], Some(t)));
    }
    var route := RouteOf(p, q.request).value;
    var s := route.schedule;
    if day in p.operationsBlackouts || !route.serves(day) { return None; }
    var pick := Some(day);
    if s.preparationDays != 0 {
      pick := AdvanceOpenDate(day, s.preparationDays, -1, Operations(p));
    }
    if pick.None? { return None; }
    var override := OverrideFor(route.overrides, Weekday(day));
    var cutoffTime := if override.Some? then override.value else s.cutoffTime;
    return Some(Offer(day, day, pick.value, day - s.cutoffDays, cutoffTime, s.packTime, Slots(s.windows), None));
  }

  method ChoicesOfDay(q: Query, now: int, horizon: int, day: int) returns (r: Result<seq<Choice>, Error>)
    requires EasternOffsets(q.zone) && Sourced(q)
    ensures r == DayChoices(q, now, horizon, day)
  {
    var offer := OfferFor(q, day);
    if offer.None? || offer.value.arrival > horizon { return Ok([]); }
    var cutoff := EasternInstant(q.zone, offer.value.cutoffDate, offer.value.cutoffTime);
    if cutoff.None? { return Err(NonexistentLocalCutoff); }
    r := MakeChoices(q, now, offer.value, cutoff.value);
  }

  /** One turn of the loop over days. */
  lemma GatherTurn(daily: Daily, day: int, last: int, choices: seq<Choice>, all: Result<seq<Choice>, Error>)
    requires day <= last && all == Before(choices, Gather(daily, day, last))
    ensures daily(day).Err? ==> all == daily(day)
    ensures daily(day).Ok? ==> all == Before(choices + daily(day).value, Gather(daily, day + 1, last))
  {
    if daily(day).Ok? {
      BeforeTwice(choices, daily(day).value, Gather(daily, day + 1, last));
    }
  }

  /** Before the loop over days, and after it. */
  lemma GatherEnds(daily: Daily, day: int, last: int, choices: seq<Choice>)
    ensures Before([], Gather(daily, day, last)) == Gather(daily, day, last)
    ensures day > last ==> Before(choices, Gather(daily, day, last)) == Ok(choices)
  {
    BeforeUnits(choices, Gather(daily, day, last));
  }

  /** `daily` gives each day's choices. */
  ghost predicate Gives(daily: Daily, q: Query, now: int, horizon: int) {
    forall day {:trigger DayChoices(q, now, horizon, day)} :: daily(day) == DayChoices(q, now, horizon, day)
  }

  /** The choices with those of one more day; `all` is what the whole loop should come to. */
  method AddDay(q: Query, now: int, horizon: int, day: int, choices: seq<Choice>, ghost daily: Daily,
                ghost all: Result<seq<Choice>, Error>) returns (r: Result<seq<Choice>, Error>)
    requires EasternOffsets(q.zone) && Sourced(q) && day <= horizon && Gives(daily, q, now, horizon)
    requires all == Before(choices, Gather(daily, day, horizon))
    ensures if r.Err? then all == r else all == Before(r.value, Gather(daily, day + 1, horizon))
  {
    var more := ChoicesOfDay(q, now, horizon, day);
    GatherTurn(daily, day, horizon, choices, all);
    return if more.Err? then more else Ok(choices + more.value);
  }

  /** The loop over days, from today to the horizon. */
  method GatherDays(q: Query, now: int, today: int, horizon: int, ghost daily: Daily) returns (r: Result<seq<Choice>, Error>)
    requires EasternOffsets(q.zone) && Sourced(q) && Gives(daily, q, now, horizon)
    ensures r == Gather(daily, today, horizon)
  {
    var day := today;
    ghost var all := Gather(daily, day, horizon);
    var choices: seq<Choice> := [];
    GatherEnds(daily, day, horizon, choices);
    while day <= horizon
      invariant all == Before(choices, Gather(daily, day, horizon))
    {
      var more := AddDay(q, now, horizon, day, choices, daily, all);
      if more.Err? { return more; }
      choices := more.value;
      day := day + 1;
    }
    GatherEnds(daily, day, horizon, choices);
    return Ok(choices);
  }

  method CollectChoices(q: Query, now: int) returns (r: Result<seq<Choice>, Error>)
    requires EasternOffsets(q.zone) && Sourced(q)
    ensures r == Collect(q, now)
  {
    var horizon := Horizon(q.zone, q.policy, now);
    r := GatherDays(q, now, EasternDate(q.zone, now), horizon, DailyOf(q, now, horizon));
  }

  method ComputeFulfillmentCalendar(q: Query, now: int) returns (r: Result<Calendar, Error>)
    requires EasternOffsets(q.zone)
    ensures r == Compute(q, now)
  {
    if q.request.mode.UnknownMode? { return Err(InvalidMode); }
    var p := q.policy;
    var error := PolicyError(q.zone, p, now);
    if error.Some? { return Err(error.value); }
    var midnight := EasternInstant(q.zone, p.validThrough + 1, 0);
    if midnight.None? { return Err(NonexistentLocalCutoff); }
    var expiresAt := Min(now + p.quoteTtlSeconds * 1000, midnight.value);
    if !Answerable(q, now) { return Ok(Calendar(p, now, expiresAt, q.request, [], Some(MissingReason(q)))); }
    if q.request.mode.UpsShipping? {
      expiresAt := Min(expiresAt, q.transit.value.expiresAt);
    }
    var choices := CollectChoices(q, now);
    if choices.Err? { return Err(choices.error); }
    return Ok(Calendar(p, now, expiresAt, q.request, choices.value,
                       if choices.value == [] then Some(NoAvailableDates) else None));
  }
}
