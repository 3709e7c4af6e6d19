/** Recurrence from a prior slot, and the preview that walks the chain of slots. */
module Chain {
  import opened Wrappers
  import opened Zone
  import opened Schedule
  import opened Recurrence

  // ----- successor dates -----

  /** The recurrence in calendar terms, without reference to how it is computed. */
  ghost predicate IsSuccessorDate(d: Definition, date: int, next: int) {
    && date < next && Configured(d, next)
    && match d.kind
       case OneTime => false
       case Daily => next == date + d.interval
       case Weekly =>
         if exists x :: date < x && Week(x) == Week(date) && Configured(d, x)
         then Week(next) == Week(date) && forall x :: date < x < next ==> !Configured(d, x)
         else Week(next) == Week(date) + d.interval
              && forall x :: Week(x) == Week(next) && Configured(d, x) ==> next <= x
  }

  function SuccessorDate(d: Definition, date: int): int
    requires ValidDefinition(d) && !d.kind.OneTime?
  {
    if d.kind.Daily? then date + d.interval else WeeklySuccessor(d.weekdays, d.interval, date)
  }

  lemma DateInWeek(date: int)
    ensures date == 7 * Week(date) + IsoWeekday(date)
  {
  }

  lemma WeekOfDay(week: int, weekday: int)
    requires 1 <= weekday <= 7
    ensures Week(7 * week + weekday) == week
    ensures IsoWeekday(7 * week + weekday) == weekday
  {
    DateInWeek(7 * week + weekday);
  }

  lemma SuccessorDateMeets(d: Definition, date: int)
    requires ValidDefinition(d) && !d.kind.OneTime? && Configured(d, date)
    ensures IsSuccessorDate(d, date, SuccessorDate(d, date))
  {
    if d.kind.Weekly? {
      hide IsoWeekday, Week;
      var later := Later(d.weekdays, IsoWeekday(date));
      DateInWeek(date);
      if later == [] {
        LastOfWeek(d, date);
      } else {
        NextInWeek(d, date);
      }
    }
  }

  lemma NextInWeek(d: Definition, date: int)
    requires ValidDefinition(d) && d.kind.Weekly?
    requires Later(d.weekdays, IsoWeekday(date)) != []
    ensures IsSuccessorDate(d, date, SuccessorDate(d, date))
  {
    hide IsoWeekday, Week;
    var w := Least(Later(d.weekdays, IsoWeekday(date)));
    var next := SuccessorDate(d, date);
    DateInWeek(date);
    WeekOfDay(Week(date), w);
    assert next == 7 * Week(date) + w;
    assert date < next && Week(next) == Week(date) && Configured(d, next);
    forall x | date < x < next ensures !Configured(d, x) {
      WeekBetween(date, x, next);
      DateInWeek(x);
    }
  }

  lemma LastOfWeek(d: Definition, date: int)
    requires ValidDefinition(d) && d.kind.Weekly?
    requires Later(d.weekdays, IsoWeekday(date)) == []
    ensures IsSuccessorDate(d, date, SuccessorDate(d, date))
  {
    hide IsoWeekday, Week;
    var w := Least(d.weekdays);
    var next := SuccessorDate(d, date);
    DateInWeek(date);
    WeekOfDay(Week(date) + d.interval, w);
    assert next == 7 * (Week(date) + d.interval) + w;
    forall x | date < x && Week(x) == Week(date) ensures !Configured(d, x) {
      DateInWeek(x);
      assert forall y :: y in d.weekdays ==> !(y > IsoWeekday(date));
    }
    forall x | Week(x) == Week(next) && Configured(d, x) ensures next <= x {
      DateInWeek(x);
    }
  }

  lemma WeekBetween(date1: int, x: int, date2: int)
    requires date1 <= x <= date2 && Week(date1) == Week(date2)
    ensures Week(x) == Week(date1)
  {
  }

  /** With interval one, no configured date is stepped over. */
  lemma IntervalOneSkipsNothing(d: Definition, date: int, next: int)
    requires ValidDefinition(d) && d.interval == 1 && IsSuccessorDate(d, date, next)
    ensures forall x :: date < x < next ==> !Configured(d, x)
  {
    if d.kind.Weekly? && Week(next) != Week(date) {
      forall x | date < x < next ensures !Configured(d, x) {
        DateInWeek(x);
        DateInWeek(date);
        DateInWeek(next);
      }
    }
  }

  // ----- successor slots -----

  /** `p` is the slot of the configured date `date`. */
  ghost predicate SlotOn(d: Definition, date: int, p: SchedulePoint) {
    Configured(d, date) && Point(d, date) == Ok(p)
  }

  ghost predicate RegularZone(z: Zone) {
    OrdinaryZone(z) && z.GapsKeepDate()
  }

  /** When gaps stay on one date, the slot of a date falls on that date. */
  lemma SlotKeepsDate(d: Definition, date: int)
    requires RegularZone(d.zone) && ValidDefinition(d)
    ensures Point(d, date).Ok? && Point(d, date).value.localDate == date
    ensures DateOf(d.zone, Point(d, date).value.instant) == date
  {
    var z, local := d.zone, date * MINUTES_PER_DAY + d.localMinute;
    ResolveTotal(z, local);
    ResolveIsFirstAtLeast(z, local, local + RESOLVE_LIMIT);
    hide ResolveUpTo, MinutesToGapEnd;
    LocalDateKept(z, local, date);
  }

  lemma LocalDateKept(z: Zone, local: int, date: int)
    requires z.GapsKeepDate() && date * MINUTES_PER_DAY <= local < (date + 1) * MINUTES_PER_DAY
    ensures (local + MinutesToGapEnd(z, local)) / MINUTES_PER_DAY == date
  {
    var k := z.FoldZeroIndex(local, |z.transitions|);
    if k < |z.transitions| && z.WallBefore(k) <= local {
      assert local < z.WallAfter(k);
    }
  }

  lemma LaterDateLaterSlot(d: Definition, date1: int, date2: int)
    requires RegularZone(d.zone) && ValidDefinition(d) && date1 < date2
    ensures SlotInstant(d, date1) < SlotInstant(d, date2)
  {
    SlotsMonotone(d, date1, date2);
    SlotKeepsDate(d, date1);
    SlotKeepsDate(d, date2);
  }

  /**
   From a prior slot the next one is the slot of the successor date: exactly
   `interval` days on, or the next configured weekday of the week, or the first
   configured weekday exactly `interval` weeks on.  Neither loop bound is reached.
   */
  lemma NextFromPrior(d: Definition, date: int, p: SchedulePoint) returns (next: int, q: SchedulePoint)
    requires ValidDefinition(d) && !d.kind.OneTime? && RegularZone(d.zone) && SlotOn(d, date, p)
    ensures IsSuccessorDate(d, date, next)
    ensures NextPoint(d, p.instant, Some(p)) == Ok(Some(q))
    ensures SlotOn(d, next, q) && q.localDate == next && p.instant < q.instant
  {
    hide Point, IsSuccessorDate, DailyScan, WeeklyScan;
    next := SuccessorDate(d, date);
    SuccessorDateMeets(d, date);
    SlotKeepsDate(d, date);
    SlotKeepsDate(d, next);
    q := Point(d, next).value;
    SuccessorIsConfigured(d, date, next);
    LaterDateLaterSlot(d, date, next);
    ScanStopsAtOnce(d, next, p.instant);
  }

  lemma SuccessorIsConfigured(d: Definition, date: int, next: int)
    requires IsSuccessorDate(d, date, next)
    ensures date < next && Configured(d, next)
  {
  }

  lemma ScanStopsAtOnce(d: Definition, next: int, after: int)
    requires ValidDefinition(d) && !d.kind.OneTime? && Configured(d, next)
    requires Point(d, next).Ok? && after < Point(d, next).value.instant
    ensures d.kind.Daily? ==>
              DailyScan(d, next, d.interval, after, next, next + DAILY_LIMIT - 1) == Point(d, next)
    ensures d.kind.Weekly? ==>
              WeeklyScan(d, next, after, next, next + WEEKLY_LIMIT - 1) == Point(d, next)
  {
    hide Point;
    if d.kind.Weekly? {
      LandingIsFirstConfigured(d, next);
    }
  }

  // ----- with and without a prior slot -----

  /** Ignoring the prior slot finds the next configured date. */
  lemma NextConfiguredDate(d: Definition, date: int, p: SchedulePoint, bound: int)
    returns (x: int, r: SchedulePoint)
    requires ValidDefinition(d) && !d.kind.OneTime? && RegularZone(d.zone)
    requires SlotOn(d, date, p) && date < bound && Configured(d, bound)
    ensures NextPoint(d, p.instant, None) == Ok(Some(r)) && SlotOn(d, x, r)
    ensures date < x <= bound && r.localDate == x && p.instant < r.instant
    ensures forall y :: date < y < x ==> !Configured(d, y)
  {
    hide Point, NextPoint, Configured, ValidDefinition, RegularZone;
    assert OrdinaryZone(d.zone) by { RegularIsOrdinary(d.zone); }
    NextPointIsLeast(d, p.instant);
    r := NextPoint(d, p.instant, None).value.value;
    x :| Configured(d, x) && Point(d, x) == Ok(r);
    SlotKeepsDate(d, x);
    if x <= date { SlotsMonotone(d, x, date); }
    LaterDateLaterSlot(d, date, bound);
    if bound < x { LaterDateLaterSlot(d, bound, x); }
    forall y | date < y < x ensures !Configured(d, y) {
      LaterDateLaterSlot(d, date, y);
      LaterDateLaterSlot(d, y, x);
    }
  }

  lemma RegularIsOrdinary(z: Zone)
    requires RegularZone(z)
    ensures OrdinaryZone(z)
  {
  }

  /**
   The two recurrences agree exactly when no configured date is stepped over: always for
   interval one, never for a daily schedule with a longer interval.
   */
  lemma PriorMattersIff(d: Definition, date: int, p: SchedulePoint) returns (next: int)
    requires ValidDefinition(d) && !d.kind.OneTime? && RegularZone(d.zone) && SlotOn(d, date, p)
    ensures IsSuccessorDate(d, date, next)
    ensures NextPoint(d, p.instant, None) == NextPoint(d, p.instant, Some(p))
            <==> forall y :: date < y < next ==> !Configured(d, y)
  {
    hide Point, NextPoint, IsSuccessorDate, ValidDefinition, RegularZone, Configured;
    var q, x, r;
    next, q := NextFromPrior(d, date, p);
    SuccessorIsConfigured(d, date, next);
    x, r := NextConfiguredDate(d, date, p, next);
    assert x == next ==> r == q;
  }

  // ----- preview -----

  function PreviewFrom(d: Definition, cursor: int, prior: Option<SchedulePoint>, count: nat): Outcome<seq<SchedulePoint>>
    decreases count
  {
    if count == 0 then Ok([])
    else match NextPoint(d, cursor, prior)
      case Err(e) => Err(e)
      case Ok(None) => Ok([])
      case Ok(Some(p)) =>
        if p.instant <= cursor then Err(NoProgress)
        else match PreviewFrom(d, p.instant, Some(p), count - 1)
          case Err(e) => Err(e)
          case Ok(rest) => Ok([p] + rest)
  }

  method Preview(d: Definition, after: int, count: int) returns (r: Outcome<seq<SchedulePoint>>)
    ensures !(1 <= count <= 10) ==> r == Err(BadCount)
    ensures 1 <= count <= 10 ==> r == PreviewFrom(d, after, None, count)
  {
    hide NextPoint;
    if !(1 <= count <= 10) {
      return Err(BadCount);
    }
    var points := [];
    var prior := None;
    var cursor := after;
    ghost var spec := PreviewFrom(d, after, None, count);
    PrependNone(spec);
    for i := 0 to count
      invariant spec == Prepend(points, PreviewFrom(d, cursor, prior, count - i))
    {
      var point := ComputeNextPoint(d, cursor, prior);
      if point.Err? {
        return Err(point.error);
      }
      if point.value.None? {
        assert points + [] == points;
        return Ok(points);
      }
      var p := point.value.value;
      if p.instant <= cursor {
        return Err(NoProgress);
      }
      PrependOne(points, p, PreviewFrom(d, p.instant, Some(p), count - i - 1));
      points := points + [p];
      prior := Some(p);
      cursor := p.instant;
    }
    assert points + [] == points;
    return Ok(points);
  }

  lemma PrependNone(r: Outcome<seq<SchedulePoint>>)
    ensures Prepend([], r) == r
  {
    if r.Ok? {
      assert [] + r.value == r.value;
    }
  }

  ghost function Prepend(points: seq<SchedulePoint>, r: Outcome<seq<SchedulePoint>>): Outcome<seq<SchedulePoint>> {
    match r case Err(e) => Err(e) case Ok(rest) => Ok(points + rest)
  }

  lemma PrependOne(points: seq<SchedulePoint>, p: SchedulePoint, r: Outcome<seq<SchedulePoint>>)
    ensures Prepend(points + [p], r) == Prepend(points, Prepend([p], r))
  {
    if r.Ok? {
      assert points + [p] + r.value == points + ([p] + r.value);
    }
  }

  /** Consecutive points are slots of successor dates, in increasing order. */
  ghost predicate IsChain(d: Definition, points: seq<SchedulePoint>) {
    && (forall p :: p in points ==> SlotOn(d, p.localDate, p))
    && forall i :: 0 <= i && i + 1 < |points| ==>
         IsSuccessorDate(d, points[i].localDate, points[i + 1].localDate)
         && points[i].instant < points[i + 1].instant
  }

  lemma ExtendChain(d: Definition, p: SchedulePoint, rest: seq<SchedulePoint>)
    requires IsChain(d, rest) && SlotOn(d, p.localDate, p)
    requires rest != [] ==> IsSuccessorDate(d, p.localDate, rest[0].localDate) && p.instant < rest[0].instant
    ensures IsChain(d, [p] + rest)
  {
    hide SlotOn, IsSuccessorDate;
    var all := [p] + rest;
    forall i | 0 <= i && i + 1 < |all|
      ensures IsSuccessorDate(d, all[i].localDate, all[i + 1].localDate) && all[i].instant < all[i + 1].instant
    {
      if i > 0 {
        assert all[i] == rest[i - 1] && all[i + 1] == rest[i];
      }
    }
  }

  lemma {:induction false} PreviewContinues(d: Definition, date: int, p: SchedulePoint, count: nat)
    requires ValidDefinition(d) && !d.kind.OneTime? && RegularZone(d.zone) && SlotOn(d, date, p)
    ensures var r := PreviewFrom(d, p.instant, Some(p), count);
            r.Ok? && |r.value| == count && IsChain(d, [p] + r.value)
    decreases count
  {
    hide SlotOn, IsSuccessorDate, NextPoint, IsChain, RegularZone, ValidDefinition;
    SlotDate(d, date, p);
    if count > 0 {
      var next, q := NextFromPrior(d, date, p);
      PreviewContinues(d, next, q, count - 1);
      var rest := PreviewFrom(d, q.instant, Some(q), count - 1).value;
      ExtendChain(d, p, [q] + rest);
    } else {
      EmptyChain(d);
      ExtendChain(d, p, []);
    }
  }

  lemma EmptyChain(d: Definition)
    ensures IsChain(d, [])
  {
  }

  lemma SlotDate(d: Definition, date: int, p: SchedulePoint)
    requires ValidDefinition(d) && RegularZone(d.zone) && SlotOn(d, date, p)
    ensures p.localDate == date
  {
    SlotKeepsDate(d, date);
  }

  /**
   A preview of a recurring schedule has exactly `count` points: the least slot after the
   reference, then one successor after the other.  Neither "did not progress" error occurs.
   */
  lemma PreviewIsChain(d: Definition, after: int, count: nat)
    requires ValidDefinition(d) && !d.kind.OneTime? && RegularZone(d.zone) && count > 0
    ensures var r := PreviewFrom(d, after, None, count);
            && r.Ok? && |r.value| == count && IsChain(d, r.value)
            && OrdinaryZone(d.zone) && IsLeastSlotAfter(d, after, r.value[0])
  {
    hide SlotOn, NextPoint, IsChain, RegularZone, ValidDefinition, Point, Configured;
    RegularIsOrdinary(d.zone);
    NextPointIsLeast(d, after);
    var p := NextPoint(d, after, None).value.value;
    var date :| Configured(d, date) && Point(d, date) == Ok(p);
    assert SlotOn(d, date, p) by { SlotOnDef(d, date, p); }
    PreviewContinues(d, date, p, count - 1);
  }

  lemma SlotOnDef(d: Definition, date: int, p: SchedulePoint)
    requires Configured(d, date) && Point(d, date) == Ok(p)
    ensures SlotOn(d, date, p)
  {
  }
}
