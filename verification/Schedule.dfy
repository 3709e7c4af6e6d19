/**
 Canonical slots of a one-time, daily or weekly schedule: local-time resolution across
 gaps and folds, the next slot, and the bounded preview.
 */
module Schedule {
  import opened Wrappers
  import opened Zone

  const RESOLVE_LIMIT := 24 * 60
  const DAILY_LIMIT := 367
  const WEEKLY_LIMIT := 370

  datatype Kind = OneTime | Daily | Weekly

  datatype ScheduleError = InvalidDefinition | NonexistentUnresolved | NoProgress | BadCount | NothingScheduled

  type Outcome<T> = Result<T, ScheduleError>

  datatype Definition = Definition(
    kind: Kind, zone: Zone, localMinute: int, localSecond: int,
    oneTimeDate: Option<int>, weekdays: seq<int>, interval: int)

  datatype SchedulePoint = SchedulePoint(localDate: int, localMinute: int, offset: int, instant: int)

  /** A resolved wall reading and its instant. */
  datatype Resolved = Resolved(local: int, instant: int)

  /** `date.isoweekday()` of an ordinal: Monday is 1, Sunday is 7. */
  function IsoWeekday(date: int): (w: int)
    ensures 1 <= w <= 7
  {
    if date % 7 == 0 then 7 else date % 7
  }

  /** 1 January 1970, ordinal 719,163, was a Thursday, and the days of the week follow each other. */
  lemma WeekdaysGoRound(date: int)
    ensures IsoWeekday(719_163) == 4
    ensures IsoWeekday(date + 1) == if IsoWeekday(date) == 7 then 1 else IsoWeekday(date) + 1
  {
  }

  /** Number of the Monday-to-Sunday week a date lies in. */
  function Week(date: int): int {
    (date - 1) / 7
  }

  predicate ValidDefinition(d: Definition) {
    && 0 <= d.localMinute < MINUTES_PER_DAY && d.localSecond == 0
    && 1 <= d.interval <= 365
    && match d.kind
       case OneTime => d.oneTimeDate.Some? && d.weekdays == []
       case Daily => d.oneTimeDate.None? && d.weekdays == []
       case Weekly =>
         && d.oneTimeDate.None? && d.weekdays != []
         && (forall w :: w in d.weekdays ==> 1 <= w <= 7)
         && (forall i, j :: 0 <= i < j < |d.weekdays| ==> d.weekdays[i] != d.weekdays[j])
  }

  // ----- resolving a local time -----

  /** First valid reading among `local`, `local + 1`, ..., `last`. */
  function ResolveUpTo(z: Zone, local: int, last: int): Option<Resolved>
    requires local <= last
    decreases last - local
  {
    match z.ValidFold(local)
    case Some(instant) => Some(Resolved(local, instant))
    case None => if local == last then None else ResolveUpTo(z, local + 1, last)
  }

  function Resolve(z: Zone, local: int): Option<Resolved> {
    ResolveUpTo(z, local, local + RESOLVE_LIMIT)
  }

  /** Minutes from a reading to the end of the gap it lies in, zero outside gaps. */
  function MinutesToGapEnd(z: Zone, local: int): int {
    var k := z.FoldZeroIndex(local, |z.transitions|);
    if k == |z.transitions| || local < z.WallBefore(k) then 0 else z.WallAfter(k) - local
  }

  /** What a successful resolution of `local` has to be. */
  ghost predicate IsResolution(z: Zone, local: int, r: Resolved) {
    && z.FirstAtLeast(local, r.instant)
    && r.local == z.Wall(r.instant) == local + MinutesToGapEnd(z, local)
    && z.FoldZeroOffset(r.local) == r.local - r.instant
  }

  /**
   Both daylight-saving policies at once: resolution succeeds exactly when the gap ends soon
   enough, and then yields the first instant whose wall reading is at least the request.
   */
  lemma {:induction false} ResolveIsFirstAtLeast(z: Zone, local: int, last: int)
    requires z.Separated() && local <= last
    ensures ResolveUpTo(z, local, last).Some? <==> local + MinutesToGapEnd(z, local) <= last
    ensures ResolveUpTo(z, local, last).Some? ==>
              IsResolution(z, local, ResolveUpTo(z, local, last).value)
    decreases last - local
  {
    if z.ValidFold(local).Some? {
      ResolveValid(z, local);
    } else {
      NextReadingInGap(z, local);
      if local < last {
        ResolveIsFirstAtLeast(z, local + 1, last);
        if ResolveUpTo(z, local + 1, last).Some? {
          FirstPastGap(z, local, ResolveUpTo(z, local + 1, last).value.instant);
        }
      }
    }
  }

  lemma ResolveValid(z: Zone, local: int)
    requires z.Separated() && z.ValidFold(local).Some?
    ensures MinutesToGapEnd(z, local) == 0
    ensures IsResolution(z, local, Resolved(local, z.ValidFold(local).value))
  {
    FoldZeroCases(z, local);
  }

  /** Inside a gap the next reading is one minute closer to its end. */
  lemma NextReadingInGap(z: Zone, local: int)
    requires z.Separated() && z.ValidFold(local).None?
    ensures MinutesToGapEnd(z, local) >= 1
    ensures MinutesToGapEnd(z, local + 1) == MinutesToGapEnd(z, local) - 1
  {
    FoldZeroCases(z, local);
    SameGap(z, local);
  }

  /** The next reading of a gap lies before the same transition, or just past its end. */
  lemma SameGap(z: Zone, local: int)
    requires z.Separated()
    requires z.FoldZeroIndex(local, |z.transitions|) < |z.transitions|
    requires z.WallBefore(z.FoldZeroIndex(local, |z.transitions|)) <= local < z.WallAfter(z.FoldZeroIndex(local, |z.transitions|))
    ensures MinutesToGapEnd(z, local + 1) == z.WallAfter(z.FoldZeroIndex(local, |z.transitions|)) - local - 1
  {
    var n := |z.transitions|;
    var k := z.FoldZeroIndex(local, n);
    NextIndex(z, local);
    if k + 1 < n { RangesOrdered(z, k, k + 1); }
  }

  /** One minute on, the lookup passes at most the transition that ends there. */
  lemma NextIndex(z: Zone, local: int)
    requires z.Separated()
    ensures
      var n := |z.transitions|;
      var k := z.FoldZeroIndex(local, n);
      var next := z.FoldZeroIndex(local + 1, n);
      next == k || (k < n && next == k + 1 && z.High(k) == local + 1)
  {
    var n := |z.transitions|;
    var k := z.FoldZeroIndex(local, n);
    var next := z.FoldZeroIndex(local + 1, n);
    if next < k { HighsRise(z, next, k - 1); }
    if next > k + 1 { HighsRise(z, k, next - 1); }
  }

  lemma HighsRise(z: Zone, i: nat, j: nat)
    requires z.Separated() && i <= j < |z.transitions|
    ensures i < j ==> z.High(i) < z.High(j)
  {
    if i < j { RangesOrdered(z, i, j); }
  }

  /** The first instant past the gap serves every reading inside the gap. */
  lemma FirstPastGap(z: Zone, local: int, u: int)
    requires z.Separated() && z.ValidFold(local).None?
    requires z.FirstAtLeast(local + 1, u)
    ensures z.FirstAtLeast(local, u)
  {
    ValidFoldIsEarliestPreimage(z, local);
    forall v | v < u ensures z.Wall(v) < local {
      assert z.Wall(v) < local + 1;
      assert z.Wall(v) != local;
    }
  }

  /** Gaps of at most 24 hours always resolve. */
  lemma ResolveTotal(z: Zone, local: int)
    requires z.Separated() && z.GapsWithin(RESOLVE_LIMIT)
    ensures Resolve(z, local).Some?
    ensures z.FirstAtLeast(local, Resolve(z, local).value.instant)
  {
    ResolveIsFirstAtLeast(z, local, local + RESOLVE_LIMIT);
    GapEndWithin(z, local, RESOLVE_LIMIT);
    hide ResolveUpTo, MinutesToGapEnd;
  }

  lemma GapEndWithin(z: Zone, local: int, bound: nat)
    requires z.Separated() && z.GapsWithin(bound)
    ensures MinutesToGapEnd(z, local) <= bound
  {
    FoldZeroCases(z, local);
  }

  method ResolveLocal(z: Zone, local: int) returns (r: Outcome<Resolved>)
    ensures match Resolve(z, local)
            case Some(v) => r == Ok(v)
            case None => r == Err(NonexistentUnresolved)
  {
    var foldZero := z.ValidFold(local);
    if foldZero.Some? {
      return Ok(Resolved(local, foldZero.value));
    }
    var candidate := local;
    for i := 0 to RESOLVE_LIMIT
      invariant candidate == local + i
      invariant z.ValidFold(candidate).None?
      invariant Resolve(z, local) == ResolveUpTo(z, candidate, local + RESOLVE_LIMIT)
    {
      candidate := candidate + 1;
      var resolved := z.ValidFold(candidate);
      if resolved.Some? {
        return Ok(Resolved(candidate, resolved.value));
      }
    }
    return Err(NonexistentUnresolved);
  }

  // ----- points -----

  /** `_point`: the slot of a local date. */
  function Point(d: Definition, date: int): Outcome<SchedulePoint> {
    match Resolve(d.zone, date * MINUTES_PER_DAY + d.localMinute)
    case None => Err(NonexistentUnresolved)
    case Some(r) =>
      Ok(SchedulePoint(r.local / MINUTES_PER_DAY, r.local % MINUTES_PER_DAY,
                       d.zone.FoldZeroOffset(r.local), r.instant))
  }

  /** `_scheduled_point`: a slot rebuilt from its stored instant alone. */
  function ScheduledPoint(z: Zone, instant: int): SchedulePoint {
    var wall := z.Wall(instant);
    SchedulePoint(wall / MINUTES_PER_DAY, wall % MINUTES_PER_DAY, wall - instant, instant)
  }

  /** The zones the scheduler is meant for: real transitions are months apart and below a day. */
  ghost predicate OrdinaryZone(z: Zone) {
    z.Separated() && z.GapsWithin(RESOLVE_LIMIT) && z.FoldsWithin(MINUTES_PER_DAY)
  }

  lemma PointRebuilt(d: Definition, date: int)
    requires d.zone.Separated() && Point(d, date).Ok?
    ensures ScheduledPoint(d.zone, Point(d, date).value.instant) == Point(d, date).value
  {
    hide ResolveUpTo, MinutesToGapEnd;
    var local := date * MINUTES_PER_DAY + d.localMinute;
    ResolveIsFirstAtLeast(d.zone, local, local + RESOLVE_LIMIT);
  }

  /** The instant of a date's slot; only meaningful in an ordinary zone. */
  ghost function SlotInstant(d: Definition, date: int): (u: int)
    requires OrdinaryZone(d.zone)
    ensures Point(d, date).Ok? && Point(d, date).value.instant == u
    ensures d.zone.FirstAtLeast(date * MINUTES_PER_DAY + d.localMinute, u)
    ensures ScheduledPoint(d.zone, u) == Point(d, date).value
  {
    ResolveTotal(d.zone, date * MINUTES_PER_DAY + d.localMinute);
    PointRebuilt(d, date);
    Point(d, date).value.instant
  }

  lemma SlotsMonotone(d: Definition, date1: int, date2: int)
    requires OrdinaryZone(d.zone) && date1 <= date2
    ensures SlotInstant(d, date1) <= SlotInstant(d, date2)
  {
    FirstAtLeastMonotone(d.zone, date1 * MINUTES_PER_DAY + d.localMinute, SlotInstant(d, date1),
                         date2 * MINUTES_PER_DAY + d.localMinute, SlotInstant(d, date2));
  }
}
