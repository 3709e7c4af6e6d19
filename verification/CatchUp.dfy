/**
 The two loops that catch up after downtime: the automation loop continues from the prior
 slot with a bounded number of rounds, the connector loop ignores the prior slot.
 */
module CatchUp {
  import opened Wrappers
  import opened Zone
  import opened Schedule
  import opened Recurrence
  import opened Chain

  const CATCH_UP_LIMIT := 1_000_000

  datatype Due = Due(latest: SchedulePoint, following: Option<SchedulePoint>)

  /** The automation loop; `tick` counts its rounds up to `last`. */
  function Advance(d: Definition, latest: SchedulePoint, now: int, tick: int, last: int): Outcome<Due>
    requires tick <= last
    decreases last - tick
  {
    match NextPoint(d, latest.instant, Some(latest))
    case Err(e) => Err(e)
    case Ok(following) =>
      if following.None? || following.value.instant > now then Ok(Due(latest, following))
      else if tick == last then Err(NoProgress)
      else Advance(d, following.value, now, tick + 1, last)
  }

  function LatestDueAndFuture(d: Definition, nextAt: Option<int>, now: int): Outcome<Due> {
    match nextAt
    case None => Err(NothingScheduled)
    case Some(at) => Advance(d, ScheduledPoint(d.zone, at), now, at, at + CATCH_UP_LIMIT - 1)
  }

  method ComputeLatestDueAndFuture(d: Definition, nextAt: Option<int>, now: int) returns (r: Outcome<Due>)
    ensures r == LatestDueAndFuture(d, nextAt, now)
  {
    hide NextPoint, ScheduledPoint;
    if nextAt.None? {
      return Err(NothingScheduled);
    }
    var at := nextAt.value;
    var latest := ScheduledPoint(d.zone, at);
    ghost var spec := LatestDueAndFuture(d, nextAt, now);
    for i := 0 to CATCH_UP_LIMIT
      invariant if i < CATCH_UP_LIMIT
                then spec == Advance(d, latest, now, at + i, at + CATCH_UP_LIMIT - 1)
                else spec == Err(NoProgress)
    {
      var following := ComputeNextPoint(d, latest.instant, Some(latest));
      if following.Err? {
        return Err(following.error);
      }
      if following.value.None? || following.value.value.instant > now {
        return Ok(Due(latest, following.value));
      }
      latest := following.value.value;
    }
    return Err(NoProgress);
  }

  /** `chain` runs from the first due slot to the latest one, and stops right before `now`. */
  ghost predicate CaughtUp(d: Definition, p: SchedulePoint, now: int, due: Due, chain: seq<SchedulePoint>) {
    && chain != [] && chain[0] == p && chain[|chain| - 1] == due.latest
    && due.following.Some? && IsChain(d, chain + [due.following.value])
    && now < due.following.value.instant
    && (p.instant <= now ==> due.latest.instant <= now)
  }

  /** A slot that is not over yet lies at most one local date after the reference date. */
  lemma DueDateBound(d: Definition, date: int, p: SchedulePoint, now: int)
    requires ValidDefinition(d) && RegularZone(d.zone) && SlotOn(d, date, p) && p.instant <= now
    ensures date <= DateOf(d.zone, now) + 1
  {
    RegularIsOrdinary(d.zone);
    SlotsAroundReference(d, now, date);
  }

  /**
   Catch-up returns neighbouring slots of the chain around `now`.  It needs at most one
   round per local date, so the round limit is not reached for millennia of downtime.
   */
  lemma {:induction false} AdvanceCatchesUp(d: Definition, date: int, p: SchedulePoint, now: int, tick: int, last: int)
    returns (chain: seq<SchedulePoint>)
    requires ValidDefinition(d) && !d.kind.OneTime? && RegularZone(d.zone) && SlotOn(d, date, p)
    requires p.instant <= now && tick <= last
    ensures DateOf(d.zone, now) + 1 - date <= last - tick ==> Advance(d, p, now, tick, last).Ok?
    ensures Advance(d, p, now, tick, last).Ok? ==>
              CaughtUp(d, p, now, Advance(d, p, now, tick, last).value, chain)
              && |chain| <= DateOf(d.zone, now) + 2 - date
    decreases last - tick
  {
    hide NextPoint, SlotOn, IsSuccessorDate, RegularZone, ValidDefinition, DateOf, CaughtUp;
    var next, q := NextFromPrior(d, date, p);
    DueDateBound(d, date, p, now);
    SlotDate(d, date, p);
    NextIsLater(d, date, next);
    chain := [p];
    if q.instant > now {
      StopHere(d, p, q, now);
    } else {
      DueDateBound(d, next, q, now);
      if tick < last {
        var rest := AdvanceCatchesUp(d, next, q, now, tick + 1, last);
        chain := [p] + rest;
        if Advance(d, q, now, tick + 1, last).Ok? {
          OneMore(d, p, q, now, Advance(d, q, now, tick + 1, last).value, rest);
        }
      }
    }
  }

  lemma NextIsLater(d: Definition, date: int, next: int)
    requires IsSuccessorDate(d, date, next)
    ensures date < next
  {
  }

  lemma StopHere(d: Definition, p: SchedulePoint, q: SchedulePoint, now: int)
    requires SlotOn(d, p.localDate, p) && SlotOn(d, q.localDate, q)
    requires IsSuccessorDate(d, p.localDate, q.localDate) && p.instant <= now < q.instant
    ensures CaughtUp(d, p, now, Due(p, Some(q)), [p])
  {
    hide SlotOn, IsSuccessorDate;
  }

  lemma OneMore(d: Definition, p: SchedulePoint, q: SchedulePoint, now: int, due: Due, rest: seq<SchedulePoint>)
    requires SlotOn(d, p.localDate, p) && IsSuccessorDate(d, p.localDate, q.localDate)
    requires p.instant < q.instant <= now && CaughtUp(d, q, now, due, rest)
    ensures CaughtUp(d, p, now, due, [p] + rest)
  {
    hide SlotOn, IsSuccessorDate, IsChain;
    var tail := rest + [due.following.value];
    assert tail[0] == q;
    ExtendChain(d, p, tail);
    assert [p] + rest + [due.following.value] == [p] + tail;
  }

  /** Every stored slot is rebuilt from its instant and caught up from there. */
  lemma LatestDueIsCorrect(d: Definition, date: int, p: SchedulePoint, now: int)
    returns (chain: seq<SchedulePoint>)
    requires ValidDefinition(d) && !d.kind.OneTime? && RegularZone(d.zone) && SlotOn(d, date, p)
    requires p.instant <= now
    requires DateOf(d.zone, now) + 1 - date < 1_000_000
    ensures var r := LatestDueAndFuture(d, Some(p.instant), now);
            r.Ok? && CaughtUp(d, p, now, r.value, chain)
    ensures |chain| <= DateOf(d.zone, now) + 2 - date
  {
    hide NextPoint, ValidDefinition, DateOf, CaughtUp, Advance;
    PointRebuilt(d, date);
    chain := AdvanceCatchesUp(d, date, p, now, p.instant, p.instant + CATCH_UP_LIMIT - 1);
  }

  // ----- the connector loop -----

  /** Just before a stored slot, the least slot after the reference is that slot. */
  lemma StoredSlotFoundAgain(d: Definition, date: int, at: int, first: SchedulePoint)
    requires ValidDefinition(d) && RegularZone(d.zone) && SlotOn(d, date, ScheduledPoint(d.zone, at))
    requires OrdinaryZone(d.zone) && IsLeastSlotAfter(d, at - 1, first)
    ensures first == ScheduledPoint(d.zone, at)
  {
    hide Point, Configured, RegularZone, ValidDefinition;
    assert SlotInstant(d, date) == at;
    var x :| Configured(d, x) && Point(d, x) == Ok(first);
    PointRebuilt(d, x);
  }

  /** For interval one the connector step is the automation step. */
  lemma SameStep(d: Definition, date: int, p: SchedulePoint) returns (next: int, q: SchedulePoint)
    requires ValidDefinition(d) && !d.kind.OneTime? && d.interval == 1 && RegularZone(d.zone)
    requires SlotOn(d, date, p)
    ensures NextPoint(d, p.instant, None) == NextPoint(d, p.instant, Some(p)) == Ok(Some(q))
    ensures SlotOn(d, next, q) && date < next && p.instant < q.instant
  {
    hide NextPoint, SlotOn, IsSuccessorDate, RegularZone, ValidDefinition, Configured;
    var n := PriorMattersIff(d, date, p);
    IntervalOneSkipsNothing(d, date, n);
    next, q := NextFromPrior(d, date, p);
    NextIsLater(d, date, next);
  }

  lemma FirstSlotIsOn(d: Definition, after: int, p: SchedulePoint) returns (date: int)
    requires OrdinaryZone(d.zone) && IsLeastSlotAfter(d, after, p)
    ensures SlotOn(d, date, p)
  {
    hide Point, Configured;
    date :| Configured(d, date) && Point(d, date) == Ok(p);
  }

  /**
   `_latest_due` of the connector scheduler, whose definitions always have interval one.
   On a stored slot it returns what the automation loop returns.
   */
  method ConnectorLatestDue(d: Definition, nextAt: Option<int>, now: int) returns (r: Outcome<Due>)
    requires ValidDefinition(d) && !d.kind.OneTime? && d.interval == 1 && RegularZone(d.zone)
    ensures r.Ok? <==> nextAt.Some?
    ensures nextAt.Some? ==> r.value.following.Some? && now < r.value.following.value.instant
    ensures nextAt.Some? && LatestDueAndFuture(d, nextAt, now).Ok?
            && (exists date :: SlotOn(d, date, ScheduledPoint(d.zone, nextAt.value)))
            ==> r == LatestDueAndFuture(d, nextAt, now)
  {
    hide NextPoint, IsLeastSlotAfter, ScheduledPoint, SlotOn, RegularZone, ValidDefinition, DateOf;
    if nextAt.None? {
      return Err(NothingScheduled);
    }
    var at := nextAt.value;
    RegularIsOrdinary(d.zone);
    NextPointIsLeast(d, at - 1);
    var first := ComputeNextPoint(d, at - 1, None);
    var latest := first.value.value;
    ghost var spec := LatestDueAndFuture(d, nextAt, now);
    ghost var stored := spec.Ok? && exists x :: SlotOn(d, x, ScheduledPoint(d.zone, at));
    if stored {
      ghost var x :| SlotOn(d, x, ScheduledPoint(d.zone, at));
      StoredSlotFoundAgain(d, x, at, latest);
    }
    ghost var date := FirstSlotIsOn(d, at - 1, latest);
    ghost var next, q := SameStep(d, date, latest);
    var following := ComputeNextPoint(d, latest.instant, None);
    ghost var tick, last := at, at + CATCH_UP_LIMIT - 1;
    while following.value.value.instant <= now
      invariant SlotOn(d, date, latest) && SlotOn(d, next, q) && date < next
      invariant following == Ok(Some(q)) == NextPoint(d, latest.instant, Some(latest))
      invariant stored ==> tick <= last && spec == Advance(d, latest, now, tick, last)
      decreases DateOf(d.zone, now) + 2 - next
    {
      DueDateBound(d, next, q, now);
      latest := following.value.value;
      date := next;
      tick := tick + 1;
      next, q := SameStep(d, date, latest);
      following := ComputeNextPoint(d, latest.instant, None);
    }
    return Ok(Due(latest, following.value));
  }
}
