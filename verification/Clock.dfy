/** Civil dates and Eastern local time.  A date is its day number, a time of day its minute, an instant its
    millisecond; the zone is the function giving the Eastern offset at an instant. */
module Clock {
  import opened Base

  const HOUR := 3_600_000
  const DAY := 86_400_000
  const MINUTE := 60_000

  type Zone = int -> int

  function EasternDate(zone: Zone, at: int): int {
    (at + zone(at)) / DAY
  }

  /** Eastern time is four or five hours behind UTC. */
  ghost predicate EasternOffsets(zone: Zone) {
    forall at: int :: zone(at) == -4 * HOUR || zone(at) == -5 * HOUR
  }

  /** Beyond that, its changes are more than an hour apart, and its civil date
      never runs backwards. */
  ghost predicate Eastern(zone: Zone) {
    && EasternOffsets(zone)
    && (forall at: int, between: int ::
          at <= between <= at + HOUR && zone(at) == zone(at + HOUR) ==> zone(between) == zone(at))
    && (forall at: int, later: int :: at <= later ==> EasternDate(zone, at) <= EasternDate(zone, later))
  }

  function Weekday(date: int): int {
    (date + 4) % 7
  }

  /** The instant's local clock, to the second, shows this date and minute. */
  predicate ShowsLocally(zone: Zone, at: int, date: int, minute: int) {
    (at + zone(at)) / 1000 * 1000 == date * DAY + minute * MINUTE
  }

  /** The earlier of the two instants that can show a local time, if either does. */
  function LocalInstant(zone: Zone, date: int, minute: int): Option<int> {
    var target := date * DAY + minute * MINUTE;
    if zone(target + 4 * HOUR) == -4 * HOUR then Some(target + 4 * HOUR)
    else if zone(target + 5 * HOUR) == -5 * HOUR then Some(target + 5 * HOUR)
    else None
  }

  /** The first half of the code's search: four corrections of a guess by the offset it shows. */
  method RefineOffset(zone: Zone, target: int) returns (value: int)
    requires EasternOffsets(zone) && target % 1000 == 0
    ensures value == target + 4 * HOUR || value == target + 5 * HOUR
  {
    value := target;
    for i := 0 to 4
      invariant value % 1000 == 0
      invariant i > 0 ==> value == target + 4 * HOUR || value == target + 5 * HOUR
    {
      var shown := (value + zone(value)) / 1000 * 1000;
      var offset := shown - value;
      value := target - offset;
    }
  }

  /** The second half of the search: the earliest of some candidates, whole seconds all, that shows the local time. */
  method EarliestShown(zone: Zone, target: int, candidates: seq<int>) returns (r: Option<int>)
    requires EasternOffsets(zone) && forall k :: 0 <= k < |candidates| ==> candidates[k] % 1000 == 0
    ensures r.Some? ==> r.value in candidates && r.value + zone(r.value) == target
    ensures forall k :: 0 <= k < |candidates| && candidates[k] + zone(candidates[k]) == target ==>
              r.Some? && r.value <= candidates[k]
  {
    r := None;
    for i := 0 to |candidates|
      invariant r.Some? ==> r.value in candidates && r.value + zone(r.value) == target
      invariant forall k :: 0 <= k < i && candidates[k] + zone(candidates[k]) == target ==>
                  r.Some? && r.value <= candidates[k]
    {
      var at := candidates[i];
      WholeSeconds(zone, at);
      if (at + zone(at)) / 1000 * 1000 == target && (r.None? || at < r.value) {
        r := Some(at);
      }
    }
  }

  lemma WholeSeconds(zone: Zone, at: int)
    requires EasternOffsets(zone) && at % 1000 == 0
    ensures (at + zone(at)) / 1000 * 1000 == at + zone(at)
  {
  }

  /** `easternInstant`: the refined guess and its neighbours an hour either side are tried.  What it finds is the
      earliest instant of all that shows the local time. */
  method EasternInstant(zone: Zone, date: int, minute: nat) returns (r: Option<int>)
    requires EasternOffsets(zone) && minute < 1440
    ensures r == LocalInstant(zone, date, minute)
    ensures r.Some? ==> ShowsLocally(zone, r.value, date, minute)
    ensures forall at: int :: r.None? || at < r.value ==> at + zone(at) != date * DAY + minute * MINUTE
  {
    var target := date * DAY + minute * MINUTE;
    var value := RefineOffset(zone, target);
    var candidates := [value - HOUR, value, value + HOUR];
    r := EarliestShown(zone, target, candidates);
    assert candidates[0] == value - HOUR && candidates[1] == value && candidates[2] == value + HOUR;
    assert forall at: int :: at + zone(at) == target ==> at == target + 4 * HOUR || at == target + 5 * HOUR;
  }

  /** A local time that exists falls on its own date. */
  lemma LocalInstantLaw(zone: Zone, date: int, minute: nat)
    requires minute < 1440 && LocalInstant(zone, date, minute).Some?
    ensures EasternDate(zone, LocalInstant(zone, date, minute).value) == date
  {
    var at := LocalInstant(zone, date, minute).value;
    assert at + zone(at) == date * DAY + minute * MINUTE;
  }

  /** Every instant before the one found for a midnight falls on an earlier date. */
  lemma BeforeMidnight(zone: Zone, date: int, now: int)
    requires Eastern(zone) && LocalInstant(zone, date, 0).Some?
    ensures now < LocalInstant(zone, date, 0).value ==> EasternDate(zone, now) < date
  {
    var target := date * DAY;
    if zone(target + 4 * HOUR) != -4 * HOUR && now < target + 5 * HOUR {
      assert zone(target + 4 * HOUR) == -5 * HOUR;
      assert EasternDate(zone, target + 4 * HOUR) == date - 1;
      if target + 4 * HOUR <= now {
        assert zone(now) == zone(target + 4 * HOUR);
      }
    }
  }

  /*** Open days ***/

  type Open = int -> bool

  const SEARCH_LIMIT := 366

  function Advance(cursor: int, remaining: nat, direction: int, open: Open, turns: nat): Option<int>
    decreases turns, cursor
  {
    if turns == 0 then None
    else if remaining == 0 then if open(cursor) then Some(cursor) else None
    else
      var next := cursor + direction;
      Advance(next, if open(next) then remaining - 1 else remaining, direction, open, turns - 1)
  }

  method AdvanceOpenDate(start: int, count: nat, direction: int, open: Open) returns (r: Option<int>)
    requires direction == 1 || direction == -1
    ensures r == Advance(start, count, direction, open, SEARCH_LIMIT)
  {
    var cursor, remaining := start, count;
    for i := 0 to SEARCH_LIMIT
      invariant 0 <= remaining
      invariant Advance(start, count, direction, open, SEARCH_LIMIT) ==
                Advance(cursor, remaining, direction, open, SEARCH_LIMIT - i)
    {
      if remaining == 0 {
        return if open(cursor) then Some(cursor) else None;
      }
      cursor := cursor + direction;
      if open(cursor) {
        remaining := remaining - 1;
      }
    }
    return None;
  }

  /** Open dates among the `n` dates after `start` in a direction. */
  function OpenDays(start: int, n: nat, direction: int, open: Open): nat {
    if n == 0 then 0
    else OpenDays(start, n - 1, direction, open) + (if open(start + n * direction) then 1 else 0)
  }

  lemma {:induction false} OpenDaysFromNext(start: int, n: nat, direction: int, open: Open)
    requires n > 0
    ensures OpenDays(start, n, direction, open) ==
            (if open(start + direction) then 1 else 0) + OpenDays(start + direction, n - 1, direction, open)
  {
    if n > 1 {
      OpenDaysFromNext(start, n - 1, direction, open);
      assert start + direction + (n - 1) * direction == start + n * direction;
    } else {
      assert start + n * direction == start + direction;
    }
  }

  lemma {:induction false} AdvanceLaw(start: int, count: nat, direction: int, open: Open, turns: nat, n: nat)
    requires direction == 1 || direction == -1
    ensures Advance(start, count, direction, open, turns) == Some(start + n * direction) <==>
            n < turns && open(start + n * direction) && OpenDays(start, n, direction, open) == count
    decreases turns
  {
    if turns > 0 && count > 0 && n > 0 {
      var next := start + direction;
      AdvanceLaw(next, if open(next) then count - 1 else count, direction, open, turns - 1, n - 1);
      OpenDaysFromNext(start, n, direction, open);
      assert next + (n - 1) * direction == start + n * direction;
    } else if turns > 0 && count > 0 {
      AdvanceAway(start, count, direction, open, turns);
    } else if turns > 0 && n > 0 && open(start + n * direction) {
      assert OpenDays(start, n, direction, open) > 0;
    }
  }

  /** The search only moves in its direction, within the limit. */
  lemma {:induction false} AdvanceAway(start: int, count: nat, direction: int, open: Open, turns: nat)
    requires direction == 1 || direction == -1
    ensures var r := Advance(start, count, direction, open, turns);
            r.Some? ==> 0 <= (r.value - start) * direction < turns && (count > 0 ==> r.value != start)
    decreases turns
  {
    if turns > 0 && count > 0 {
      var next := start + direction;
      AdvanceAway(next, if open(next) then count - 1 else count, direction, open, turns - 1);
    }
  }

  /** `advanceOpenDate` finds a date exactly when it is open, within 365 days, with exactly `count` open dates
      passed on the way. */
  lemma AdvanceExact(start: int, count: nat, direction: int, open: Open, d: int)
    requires direction == 1 || direction == -1
    ensures Advance(start, count, direction, open, SEARCH_LIMIT) == Some(d) <==>
            && 0 <= (d - start) * direction < SEARCH_LIMIT && open(d)
            && OpenDays(start, (d - start) * direction, direction, open) == count
  {
    AdvanceAway(start, count, direction, open, SEARCH_LIMIT);
    var n := (d - start) * direction;
    if n >= 0 {
      AdvanceLaw(start, count, direction, open, SEARCH_LIMIT, n);
      assert start + n * direction == d;
    }
  }

  lemma {:induction false} OpenDaysReversed(start: int, n: nat, direction: int, open: Open)
    requires direction == 1 || direction == -1
    requires open(start) && open(start + n * direction)
    ensures OpenDays(start + n * direction, n, -direction, open) == OpenDays(start, n, direction, open)
  {
    ShiftedCount(start, n, n, direction, open);
    if n > 0 {
      assert start + n * direction + n * -direction == start;
    }
  }

  /** Counting back from the far end sees the same dates, except for the two ends. */
  lemma {:induction false} ShiftedCount(start: int, n: nat, k: nat, direction: int, open: Open)
    requires (direction == 1 || direction == -1) && k <= n
    ensures OpenDays(start + n * direction, k, -direction, open) + (if open(start + n * direction) then 1 else 0)
            == OpenDays(start, n, direction, open) - OpenDays(start, n - k, direction, open)
               + (if open(start + (n - k) * direction) then 1 else 0)
  {
    if k > 0 {
      ShiftedCount(start, n, k - 1, direction, open);
      assert start + n * direction + k * -direction == start + (n - k) * direction;
    }
  }

  /** Stepping back the same number of open dates returns to an open start. */
  lemma AdvanceBack(start: int, count: nat, direction: int, open: Open)
    requires direction == 1 || direction == -1
    requires open(start) && Advance(start, count, direction, open, SEARCH_LIMIT).Some?
    ensures var d := Advance(start, count, direction, open, SEARCH_LIMIT).value;
            Advance(d, count, -direction, open, SEARCH_LIMIT) == Some(start)
  {
    var d := Advance(start, count, direction, open, SEARCH_LIMIT).value;
    AdvanceExact(start, count, direction, open, d);
    var n := (d - start) * direction;
    assert start + n * direction == d;
    OpenDaysReversed(start, n, direction, open);
    AdvanceExact(d, count, -direction, open, start);
    assert (start - d) * -direction == n;
  }
}
