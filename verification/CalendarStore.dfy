/** The calendar tables, updated in place by one refresh at a time. */
module CalendarStore {
  import opened Wrappers
  import opened CalendarModel
  import opened CalendarEvidence

  class Store {
    const accounts: map<Id, Option<Id>>
    const calendars: map<Id, Id>
    var runs: map<Id, SyncRun>
    var events: seq<EventRevision>
    var observations: set<Observation>

    constructor (accounts: map<Id, Option<Id>>, calendars: map<Id, Id>)
      ensures View() == Db(accounts, calendars, map[], [], {})
    {
      this.accounts, this.calendars := accounts, calendars;
      runs, events, observations := map[], [], {};
    }

    function View(): Db
      reads this
    {
      Db(accounts, calendars, runs, events, observations)
    }

    /** `record_event_revision`: reuses the row with this content, or adds the next revision. */
    method RecordEventRevision(run: SyncRun, e: Incoming, seenAt: int) returns (event: nat, created: bool)
      modifies this`events
      ensures RecordRevision(old(View()), run, e, seenAt) == Recorded(View(), event, created)
    {
      hide LatestRevision;
      var latest: Option<nat> := None;
      NoLatest(events, run.calendar, e.key);
      for i := 0 to |events|
        invariant events == old(events)
        invariant FindContent(events, run.calendar, e.key, e.hash, i) == FindContent(events, run.calendar, e.key, e.hash, 0)
        invariant latest == LatestRevision(events[..i], run.calendar, e.key)
      {
        var row := events[i];
        if row.calendar == run.calendar && row.key == e.key {
          if row.hash == e.hash { return i, false; }
        }
        LatestAfterOne(events, i, run.calendar, e.key);
        if row.calendar == run.calendar && row.key == e.key && (latest.None? || events[latest.value].revision <= row.revision) {
          latest := Some(i);
        }
      }
      assert events[..|events|] == events;
      var revision := if latest.None? then 1 else events[latest.value].revision + 1;
      var firstSeen := if latest.None? then seenAt else events[latest.value].firstSeen;
      event, created := |events|, true;
      events := events + [EventRevision(run.account, run.calendar, run.project, e.key, revision, e.hash, e.title, e.extent, firstSeen, seenAt)];
    }

    /** `record_event_observation`. */
    method RecordEventObservation(runId: Id, event: nat) returns (error: Option<CalendarError>)
      modifies this`observations
      ensures match RecordObservation(old(View()), runId, event)
              case Ok(after) => error.None? && View() == after
              case Err(e) => error == Some(e) && View() == old(View())
    {
      if runId !in runs || event >= |events| { return Some(IntegrityError); }
      var run, e := runs[runId], events[event];
      if e.account != run.account || e.calendar != run.calendar { return Some(OwnershipError); }
      if exists o :: o in observations && o.run == runId && o.key == e.key { return Some(ObservationError); }
      observations := observations + {Observation(runId, run.account, run.calendar, e.key, event)};
      error := None;
    }

    /** One event of a page: its revision and its observation. */
    method RecordEvent(runId: Id, e: Incoming, seenAt: int) returns (error: Option<CalendarError>)
      requires runId in runs
      modifies this`events, this`observations
      ensures var recorded := RecordRevision(old(View()), runs[runId], e, seenAt);
              match RecordObservation(recorded.db, runId, recorded.event)
              case Ok(after) => error.None? && View() == after
              case Err(e) => error == Some(e)
    {
      hide RecordRevision, RecordObservation;
      var event, created := RecordEventRevision(runs[runId], e, seenAt);
      error := RecordEventObservation(runId, event);
    }

    /** The loop over a page, until an error. */
    method RecordAll(runId: Id, page: seq<Incoming>, seenAt: int) returns (error: Option<CalendarError>)
      requires runId in runs
      modifies this`events, this`observations
      ensures match RecordEvents(old(View()), runId, page, seenAt)
              case Ok(after) => error.None? && View() == after
              case Err(e) => error == Some(e)
    {
      hide RecordRevision, RecordObservation, RecordEvents;
      assert page[0..] == page;
      for i := 0 to |page|
        invariant RecordEvents(View(), runId, page[i..], seenAt) == RecordEvents(old(View()), runId, page, seenAt)
      {
        RecordEventsNext(View(), runId, page, i, seenAt);
        error := RecordEvent(runId, page[i], seenAt);
        if error.Some? { return; }
      }
      RecordEventsEnds(View(), runId, page, seenAt);
      error := None;
    }

    /** The rows of one fetched page and the run's counter; an error rolls all of them back. */
    method RecordFetchedPage(runId: Id, page: seq<Incoming>, seenAt: int) returns (error: Option<CalendarError>)
      modifies this`runs, this`events, this`observations
      ensures match RecordPage(old(View()), runId, page, seenAt)
              case Ok(after) => error.None? && View() == after
              case Err(e) => error == Some(e) && View() == old(View())
    {
      hide RecordEvents;
      if runId !in runs || !runs[runId].status.Syncing? { return Some(IntegrityError); }
      if exists i, j :: 0 <= i < j < |page| && page[i].key == page[j].key { return Some(InvalidEvent); }
      var savedEvents, savedObservations := events, observations;
      error := RecordAll(runId, page, seenAt);
      if error.Some? {
        events, observations := savedEvents, savedObservations;
      } else {
        runs := runs[runId := runs[runId].(itemsSeen := runs[runId].itemsSeen + |page|)];
      }
    }

    /** `mark_observation_evidence_complete` with the successful finish. */
    method FinishSucceeded(runId: Id, at: int) returns (error: Option<CalendarError>)
      modifies this`runs
      ensures match Succeed(old(View()), runId, at)
              case Ok(after) => error.None? && View() == after
              case Err(e) => error == Some(e) && View() == old(View())
    {
      if runId !in runs || !runs[runId].status.Syncing? { return Some(IntegrityError); }
      if |ObservationsOf(observations, runId)| != runs[runId].itemsSeen { return Some(ObservationError); }
      runs := runs[runId := runs[runId].(evidenceVersion := Some(EVIDENCE_VERSION), status := Succeeded, complete := true, completedAt := at)];
      error := None;
    }
  }

  lemma RecordEventsEnds(db: Db, runId: Id, page: seq<Incoming>, seenAt: int)
    requires runId in db.runs
    ensures RecordEvents(db, runId, page[|page|..], seenAt) == Ok(db)
  {
  }

  /** The first event of what is left of a page. */
  lemma RecordEventsNext(db: Db, runId: Id, page: seq<Incoming>, i: nat, seenAt: int)
    requires runId in db.runs && i < |page|
    ensures
      var recorded := RecordRevision(db, db.runs[runId], page[i], seenAt);
      RecordEvents(db, runId, page[i..], seenAt)
      == match RecordObservation(recorded.db, runId, recorded.event)
         case Err(e) => Err(e)
         case Ok(observed) => RecordEvents(observed, runId, page[i + 1..], seenAt)
  {
    hide RecordRevision;
    assert page[i..][1..] == page[i + 1..];
  }

  lemma NoLatest(events: seq<EventRevision>, calendar: Id, key: string)
    ensures LatestRevision(events[..0], calendar, key) == None
  {
  }

  /** The latest revision among one more row. */
  lemma LatestAfterOne(events: seq<EventRevision>, i: nat, calendar: Id, key: string)
    requires i < |events|
    ensures
      var before := LatestRevision(events[..i], calendar, key);
      LatestRevision(events[..i + 1], calendar, key)
      == if SameOccurrence(events[i], calendar, key) && (before.None? || events[before.value].revision <= events[i].revision)
         then Some(i) else before
  {
    assert events[..i + 1][..i] == events[..i];
  }

  /** The loop of `effective_evidence` over the rows of its query, newest first. */
  method EffectiveEvidence(db: Db, e: EventRevision, rows: seq<Id>, midnight: Midnights) returns (evidence: Evidence)
    requires forall k :: 0 <= k < |rows| ==> rows[k] in db.runs
    ensures evidence == Scan(db, e, rows, midnight)
    ensures Lasts(e, midnight) && (forall k :: 0 <= k < |rows| ==> db.runs[rows[k]].windowStart < db.runs[rows[k]].windowEnd)
            ==> Answers(db, e, rows, midnight, evidence)
  {
    if Lasts(e, midnight) && forall k :: 0 <= k < |rows| ==> db.runs[rows[k]].windowStart < db.runs[rows[k]].windowEnd {
      ScanAnswers(db, e, rows, midnight);
    }
    hide Answers;
    for k := 0 to |rows|
      invariant Scan(db, e, rows[k..], midnight) == Scan(db, e, rows, midnight)
    {
      if Observed(db, rows[k], e.key) { return Current(rows[k]); }
      if Covered(e, db.runs[rows[k]], midnight) { return Stale(rows[k]); }
      assert rows[k..][1..] == rows[k + 1..];
    }
    evidence := Missing;
  }
}
