/** The next slot of a schedule and the bounded preview. */
module Recurrence {
  import opened Wrappers
  import opened Zone
  import opened Schedule

  // ----- weekday arithmetic -----

  function Least(days: seq<int>): (m: int)
    requires days != []
    ensures m in days && forall x :: x in days ==> m <= x
  {
    if |days| == 1 then days[0]
    else
      var rest := Least(days[1..]);
      assert days == [days[0]] + days[1..];
      if days[0] <= rest then days[0] else rest
  }

  /** Days after `weekday` in the same week. */
  function Later(days: seq<int>, weekday: int): (later: seq<int>)
    ensures forall x :: x in later <==> x in days && x > weekday
  {
    if days == [] then []
    else
      assert days == [days[0]] + days[1..];
      (if days[0] > weekday then [days[0]] else []) + Later(days[1..], weekday)
  }

  /** Days from one weekday to the next occurrence of another. */
  function DaysUntil(weekday: int, day: int): (n: int)
    ensures 0 <= n < 7
  {
    (day - weekday) % 7
  }

  /** `min((day - weekday) % 7 for day in weekdays)`. */
  function DaysForward(days: seq<int>, weekday: int): (n: int)
    requires days != []
    ensures 0 <= n < 7
    ensures exists x :: x in days && DaysUntil(weekday, x) == n
    ensures forall x :: x in days ==> n <= DaysUntil(weekday, x)
  {
    if |days| == 1 then
      assert days[0] in days;
      DaysUntil(weekday, days[0])
    else
      var rest := DaysForward(days[1..], weekday);
      assert days == [days[0]] + days[1..];
      assert days[0] in days && forall x :: x in days[1..] ==> x in days;
      if DaysUntil(weekday, days[0]) <= rest then DaysUntil(weekday, days[0]) else rest
  }

  lemma WeekdayDistance(date1: int, date2: int)
    requires date1 <= date2 < date1 + 7
    ensures DaysUntil(IsoWeekday(date1), IsoWeekday(date2)) == date2 - date1
  {
    var q1, q2 := date1 / 7, date2 / 7;
    assert date2 - date1 == 7 * (q2 - q1) + (date2 % 7 - date1 % 7);
  }

  /** Whether the schedule has a slot on a local date. */
  predicate Configured(d: Definition, date: int) {
    d.kind.Weekly? ==> IsoWeekday(date) in d.weekdays
  }

  /** The date the weekly loop jumps to. */
  function Landing(d: Definition, date: int): int
    requires d.weekdays != []
  {
    date + DaysForward(d.weekdays, IsoWeekday(date))
  }

  /** The weekly loop jumps to the first configured date from `date` on. */
  lemma LandingIsFirstConfigured(d: Definition, date: int)
    requires d.kind.Weekly? && ValidDefinition(d)
    ensures date <= Landing(d, date) && Configured(d, Landing(d, date))
    ensures forall x :: date <= x < Landing(d, date) ==> !Configured(d, x)
  {
    var n := DaysForward(d.weekdays, IsoWeekday(date));
    var w :| w in d.weekdays && DaysUntil(IsoWeekday(date), w) == n;
    WeekdayDistance(date, date + n);
    SameDistance(IsoWeekday(date), IsoWeekday(date + n), w);
    forall x | date <= x < date + n ensures !Configured(d, x) {
      WeekdayDistance(date, x);
    }
  }

  lemma SameDistance(weekday: int, a: int, b: int)
    requires 1 <= a <= 7 && 1 <= b <= 7
    requires DaysUntil(weekday, a) == DaysUntil(weekday, b)
    ensures a == b
  {
    var q1, q2 := (a - weekday) / 7, (b - weekday) / 7;
    assert a - b == 7 * (q1 - q2);
  }

  // ----- the next slot -----

  function DateOf(z: Zone, instant: int): int {
    z.Wall(instant) / MINUTES_PER_DAY
  }

  /** The daily loop; `tick` counts its iterations up to `last`. */
  function DailyScan(d: Definition, date: int, step: int, after: int, tick: int, last: int): Outcome<SchedulePoint>
    requires tick <= last
    decreases last - tick
  {
    match Point(d, date)
    case Err(e) => Err(e)
    case Ok(p) =>
      if p.instant > after then Ok(p)
      else if tick == last then Err(NoProgress)
      else DailyScan(d, date + step, step, after, tick + 1, last)
  }

  /** The weekly loop; `tick` counts its iterations up to `last`. */
  function WeeklyScan(d: Definition, date: int, after: int, tick: int, last: int): Outcome<SchedulePoint>
    requires d.weekdays != [] && tick <= last
    decreases last - tick
  {
    var landed := Landing(d, date);
    match Point(d, landed)
    case Err(e) => Err(e)
    case Ok(p) =>
      if p.instant > after then Ok(p)
      else if tick == last then Err(NoProgress)
      else WeeklyScan(d, landed + 1, after, tick + 1, last)
  }

  /** The date the weekly form continues with after a slot on `date`. */
  function WeeklySuccessor(days: seq<int>, interval: int, date: int): int
    requires days != []
  {
    var later := Later(days, IsoWeekday(date));
    if later != [] then date + (Least(later) - IsoWeekday(date))
    else date + (7 - IsoWeekday(date)) + Least(days) + 7 * (interval - 1)
  }

  function Lift(r: Outcome<SchedulePoint>): Outcome<Option<SchedulePoint>> {
    match r case Ok(p) => Ok(Some(p)) case Err(e) => Err(e)
  }

  function NextPoint(d: Definition, after: int, prior: Option<SchedulePoint>): Outcome<Option<SchedulePoint>> {
    if !ValidDefinition(d) then Err(InvalidDefinition)
    else match d.kind
      case OneTime => (
        match Point(d, d.oneTimeDate.value)
        case Err(e) => Err(e)
        case Ok(p) => Ok(if p.instant > after then Some(p) else None))
      case Daily =>
        var date := if prior.None? then DateOf(d.zone, after) else prior.value.localDate + d.interval;
        var step := if prior.None? then 1 else d.interval;
        Lift(DailyScan(d, date, step, after, date, date + DAILY_LIMIT - 1))
      case Weekly =>
        var date := if prior.None? then DateOf(d.zone, after)
                    else WeeklySuccessor(d.weekdays, d.interval, prior.value.localDate);
        Lift(WeeklyScan(d, date, after, date, date + WEEKLY_LIMIT - 1))
  }

  method DailyLoop(d: Definition, start: int, step: int, after: int) returns (r: Outcome<SchedulePoint>)
    ensures r == DailyScan(d, start, step, after, start, start + DAILY_LIMIT - 1)
  {
    hide Point;
    ghost var spec := DailyScan(d, start, step, after, start, start + DAILY_LIMIT - 1);
    var date := start;
    for i := 0 to DAILY_LIMIT
      invariant if i < DAILY_LIMIT
                then spec == DailyScan(d, date, step, after, start + i, start + DAILY_LIMIT - 1)
                else spec == Err(NoProgress)
    {
      var result := Point(d, date);
      if result.Err? || result.value.instant > after {
        return result;
      }
      date := date + step;
    }
    return Err(NoProgress);
  }

  method WeeklyLoop(d: Definition, start: int, after: int) returns (r: Outcome<SchedulePoint>)
    requires d.weekdays != []
    ensures r == WeeklyScan(d, start, after, start, start + WEEKLY_LIMIT - 1)
  {
    hide Point, Landing;
    ghost var spec := WeeklyScan(d, start, after, start, start + WEEKLY_LIMIT - 1);
    var date := start;
    for i := 0 to WEEKLY_LIMIT
      invariant if i < WEEKLY_LIMIT
                then spec == WeeklyScan(d, date, after, start + i, start + WEEKLY_LIMIT - 1)
                else spec == Err(NoProgress)
    {
      date := Landing(d, date);
      var result := Point(d, date);
      if result.Err? || result.value.instant > after {
        return result;
      }
      date := date + 1;
    }
    return Err(NoProgress);
  }

  method ComputeNextPoint(d: Definition, after: int, prior: Option<SchedulePoint>)
    returns (r: Outcome<Option<SchedulePoint>>)
    ensures r == NextPoint(d, after, prior)
  {
    hide Point, DailyScan, WeeklyScan, IsoWeekday;
    if !ValidDefinition(d) {
      return Err(InvalidDefinition);
    }
    if d.kind.OneTime? {
      var only := Point(d, d.oneTimeDate.value);
      if only.Err? {
        return Lift(only);
      }
      return Ok(if only.value.instant > after then Some(only.value) else None);
    }
    var date := if prior.None? then DateOf(d.zone, after) else prior.value.localDate;
    var slot;
    if d.kind.Daily? {
      if prior.Some? {
        date := date + d.interval;
      }
      slot := DailyLoop(d, date, if prior.None? then 1 else d.interval, after);
    } else {
      if prior.Some? {
        var weekday := IsoWeekday(date);
        var later := Later(d.weekdays, weekday);
        if later != [] {
          date := date + (Least(later) - weekday);
        } else {
          date := date + (7 - weekday) + Least(d.weekdays) + 7 * (d.interval - 1);
        }
      }
      slot := WeeklyLoop(d, date, after);
    }
    return Lift(slot);
  }

  // ----- every returned slot is after the reference -----

  lemma {:induction false} DailyScanLater(d: Definition, date: int, step: int, after: int, tick: int, last: int)
    requires tick <= last && DailyScan(d, date, step, after, tick, last).Ok?
    ensures DailyScan(d, date, step, after, tick, last).value.instant > after
    decreases last - tick
  {
    hide Point;
    if Point(d, date).value.instant <= after {
      DailyScanLater(d, date + step, step, after, tick + 1, last);
    }
  }

  lemma {:induction false} WeeklyScanLater(d: Definition, date: int, after: int, tick: int, last: int)
    requires d.weekdays != [] && tick <= last && WeeklyScan(d, date, after, tick, last).Ok?
    ensures WeeklyScan(d, date, after, tick, last).value.instant > after
    decreases last - tick
  {
    hide Point, Landing;
    var landed := Landing(d, date);
    if Point(d, landed).value.instant <= after {
      WeeklyScanLater(d, landed + 1, after, tick + 1, last);
    }
  }

  lemma SlotsComeLater(d: Definition, after: int, prior: Option<SchedulePoint>)
    requires NextPoint(d, after, prior).Ok? && NextPoint(d, after, prior).value.Some?
    ensures NextPoint(d, after, prior).value.value.instant > after
  {
    hide Point, DailyScan, WeeklyScan, IsoWeekday, WeeklySuccessor, DateOf;
    if d.kind.Daily? {
      var date := if prior.None? then DateOf(d.zone, after) else prior.value.localDate + d.interval;
      DailyScanLater(d, date, if prior.None? then 1 else d.interval, after, date, date + DAILY_LIMIT - 1);
    } else if d.kind.Weekly? {
      var date := if prior.None? then DateOf(d.zone, after)
                  else WeeklySuccessor(d.weekdays, d.interval, prior.value.localDate);
      WeeklyScanLater(d, date, after, date, date + WEEKLY_LIMIT - 1);
    }
  }

  // ----- without a prior slot: the least slot strictly after the reference -----

  /** Folds of at most a day never set the wall clock back by a full day or more. */
  lemma WallDropsLessThanADay(z: Zone, v: int, u: int)
    requires OrdinaryZone(z) && v <= u
    ensures z.Wall(v) < z.Wall(u) + MINUTES_PER_DAY
  {
    var i := z.UtcIndex(v, |z.transitions|);
    var j := z.UtcIndex(u, |z.transitions|);
    if j < i {
      if j < i - 1 { RangesOrdered(z, j, i - 1); }
      assert false;
    }
    if i < j {
      if i < j - 1 { RangesOrdered(z, i, j - 1); }
      assert z.Wall(v) < z.WallBefore(i);
      assert z.WallAfter(j - 1) <= z.Wall(u);
      assert z.WallBefore(i) - z.WallAfter(i) <= MINUTES_PER_DAY;
    }
  }

  /** Slots of dates before the reference date are over; two dates later they are not. */
  lemma SlotsAroundReference(d: Definition, after: int, date: int)
    requires OrdinaryZone(d.zone) && ValidDefinition(d)
    ensures date < DateOf(d.zone, after) ==> SlotInstant(d, date) <= after
    ensures date >= DateOf(d.zone, after) + 2 ==> SlotInstant(d, date) > after
  {
    var u := SlotInstant(d, date);
    if date < DateOf(d.zone, after) {
      assert after < u ==> d.zone.Wall(after) < date * MINUTES_PER_DAY + d.localMinute;
    }
    if date >= DateOf(d.zone, after) + 2 && u <= after {
      WallDropsLessThanADay(d.zone, u, after);
      assert false;
    }
  }

  /** `p` is the slot of a configured date, after `after`, and no configured slot lies between. */
  ghost predicate IsLeastSlotAfter(d: Definition, after: int, p: SchedulePoint)
    requires OrdinaryZone(d.zone)
  {
    && (exists date :: Configured(d, date) && Point(d, date) == Ok(p))
    && p.instant > after
    && forall date :: Configured(d, date) && SlotInstant(d, date) > after ==> p.instant <= SlotInstant(d, date)
  }

  lemma {:induction false} DailyScanFindsLeast(d: Definition, date: int, after: int, tick: int, last: int)
    requires ValidDefinition(d) && d.kind.Daily? && OrdinaryZone(d.zone) && tick <= last
    requires forall x :: x < date ==> SlotInstant(d, x) <= after
    requires SlotInstant(d, date + (last - tick)) > after
    ensures var r := DailyScan(d, date, 1, after, tick, last);
            r.Ok? && IsLeastSlotAfter(d, after, r.value)
    decreases last - tick
  {
    hide Point;
    if SlotInstant(d, date) > after {
      forall x | SlotInstant(d, x) > after ensures SlotInstant(d, date) <= SlotInstant(d, x) {
        if date <= x { SlotsMonotone(d, date, x); }
      }
      assert Configured(d, date);
    } else {
      DailyScanFindsLeast(d, date + 1, after, tick + 1, last);
    }
  }

  lemma {:induction false} WeeklyScanFindsLeast(d: Definition, date: int, after: int, tick: int, last: int)
    requires ValidDefinition(d) && d.kind.Weekly? && OrdinaryZone(d.zone) && tick <= last
    requires forall x :: x < date && Configured(d, x) ==> SlotInstant(d, x) <= after
    requires SlotInstant(d, date + (last - tick)) > after
    ensures var r := WeeklyScan(d, date, after, tick, last);
            r.Ok? && IsLeastSlotAfter(d, after, r.value)
    decreases last - tick
  {
    hide Point, IsoWeekday, Landing;
    LandingIsFirstConfigured(d, date);
    var landed := Landing(d, date);
    if SlotInstant(d, landed) > after {
      forall x | Configured(d, x) && SlotInstant(d, x) > after
        ensures SlotInstant(d, landed) <= SlotInstant(d, x)
      {
        if landed <= x { SlotsMonotone(d, landed, x); }
      }
    } else {
      SlotsMonotone(d, date + (last - tick), landed + (last - tick));
      if tick == last {
        assert false;
      }
      WeeklyScanFindsLeast(d, landed + 1, after, tick + 1, last);
    }
  }

  /** Without a prior slot the result is the least canonical slot strictly after the reference. */
  lemma NextPointIsLeast(d: Definition, after: int)
    requires ValidDefinition(d) && !d.kind.OneTime? && OrdinaryZone(d.zone)
    ensures var r := NextPoint(d, after, None);
            r.Ok? && r.value.Some? && IsLeastSlotAfter(d, after, r.value.value)
  {
    hide Point, SlotInstant, IsLeastSlotAfter;
    var date := DateOf(d.zone, after);
    forall x | x < date ensures SlotInstant(d, x) <= after {
      SlotsAroundReference(d, after, x);
    }
    if d.kind.Daily? {
      SlotsAroundReference(d, after, date + DAILY_LIMIT - 1);
      DailyScanFindsLeast(d, date, after, date, date + DAILY_LIMIT - 1);
    } else {
      SlotsAroundReference(d, after, date + WEEKLY_LIMIT - 1);
      WeeklyScanFindsLeast(d, date, after, date, date + WEEKLY_LIMIT - 1);
    }
  }
}
