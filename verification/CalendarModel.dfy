/** Calendar sync runs, immutable event revisions and the observations that tie them together. */
module CalendarModel {
  import opened Wrappers

  type Id = nat

  const EVIDENCE_VERSION := "calendar-observations-v1"

  datatype RunStatus = Claimed | Syncing | Succeeded | Incomplete | RunFailed

  datatype SyncRun = SyncRun(
    account: Id, calendar: Id, project: Option<Id>, windowStart: int, windowEnd: int, status: RunStatus,
    complete: bool, itemsSeen: nat, evidenceVersion: Option<string>, completedAt: int)

  /** An all-day event has dates and perhaps a time zone, any other event has instants. */
  datatype Extent =
    | Timed(start: int, end: int)
    | AllDay(startDate: int, endDate: int, zone: Option<string>)

  datatype EventRevision = EventRevision(
    account: Id, calendar: Id, project: Option<Id>, key: string, revision: nat, hash: string,
    title: string, extent: Extent, firstSeen: int, lastSeen: int)

  datatype Observation = Observation(run: Id, account: Id, calendar: Id, key: string, event: nat)

  /**
   `accounts` gives each account revision's project, `calendars` each calendar's account revision.  An
   event revision is identified by its position: rows are only ever added.
   */
  datatype Db = Db(
    accounts: map<Id, Option<Id>>, calendars: map<Id, Id>, runs: map<Id, SyncRun>,
    events: seq<EventRevision>, observations: set<Observation>)

  datatype CalendarError = OwnershipError | ObservationError | IntegrityError | InvalidEvent | NotFound

  type Outcome<T> = Result<T, CalendarError>

  /** A normalized provider event. */
  datatype Incoming = Incoming(key: string, hash: string, title: string, extent: Extent)

  predicate Active(run: SyncRun) {
    run.status.Claimed? || run.status.Syncing?
  }

  const EMPTY := Db(map[], map[], map[], [], {})

  // ----- writes -----

  /** `create_account_revision`: the row of a new account revision and its project. */
  function CreateAccount(db: Db, id: Id, project: Option<Id>): Outcome<Db> {
    if id in db.accounts then Err(IntegrityError) else Ok(db.(accounts := db.accounts[id := project]))
  }

  /** `create_calendar_identity`: a calendar of one stored account revision. */
  function CreateCalendar(db: Db, id: Id, account: Id): Outcome<Db> {
    if account !in db.accounts then Err(OwnershipError)
    else if id in db.calendars then Err(IntegrityError)
    else Ok(db.(calendars := db.calendars[id := account]))
  }

  /** `create_sync_run` and the table's constraints. */
  function CreateRun(db: Db, id: Id, account: Id, calendar: Id, project: Option<Id>, windowStart: int, windowEnd: int): Outcome<Db> {
    if calendar !in db.calendars || account !in db.accounts || db.calendars[calendar] != account || project != db.accounts[account]
    then Err(OwnershipError)
    else if id in db.runs || windowEnd <= windowStart
            || exists r :: r in db.runs && db.runs[r].calendar == calendar && Active(db.runs[r])
    then Err(IntegrityError)
    else Ok(db.(runs := db.runs[id := SyncRun(account, calendar, project, windowStart, windowEnd, Claimed, false, 0, None, 0)]))
  }

  predicate SameOccurrence(e: EventRevision, calendar: Id, key: string) {
    e.calendar == calendar && e.key == key
  }

  /** The stored revision with this content, or the number of rows. */
  function FindContent(events: seq<EventRevision>, calendar: Id, key: string, hash: string, from: nat): (i: nat)
    requires from <= |events|
    ensures from <= i <= |events|
    ensures i < |events| ==> SameOccurrence(events[i], calendar, key) && events[i].hash == hash
    ensures forall j :: from <= j < i ==> !(SameOccurrence(events[j], calendar, key) && events[j].hash == hash)
    decreases |events| - from
  {
    if from == |events| || (SameOccurrence(events[from], calendar, key) && events[from].hash == hash) then from
    else FindContent(events, calendar, key, hash, from + 1)
  }

  /** The latest stored revision of an occurrence. */
  function LatestRevision(events: seq<EventRevision>, calendar: Id, key: string): (latest: Option<nat>)
    ensures latest.Some? ==>
              latest.value < |events| && SameOccurrence(events[latest.value], calendar, key)
    ensures forall j :: 0 <= j < |events| && SameOccurrence(events[j], calendar, key) ==>
              latest.Some? && events[j].revision <= events[latest.value].revision
  {
    if events == [] then None
    else
      var n := |events| - 1;
      var before := LatestRevision(events[..n], calendar, key);
      if SameOccurrence(events[n], calendar, key) && (before.None? || events[before.value].revision <= events[n].revision)
      then Some(n) else before
  }

  datatype Recorded = Recorded(db: Db, event: nat, created: bool)

  /** `record_event_revision` for an event normalized for `run`. */
  function RecordRevision(db: Db, run: SyncRun, e: Incoming, seenAt: int): Recorded {
    var found := FindContent(db.events, run.calendar, e.key, e.hash, 0);
    if found < |db.events| then Recorded(db, found, false)
    else
      var latest := LatestRevision(db.events, run.calendar, e.key);
      var revision := if latest.None? then 1 else db.events[latest.value].revision + 1;
      var firstSeen := if latest.None? then seenAt else db.events[latest.value].firstSeen;
      var row := EventRevision(run.account, run.calendar, run.project, e.key, revision, e.hash, e.title, e.extent, firstSeen, seenAt);
      Recorded(db.(events := db.events + [row]), |db.events|, true)
  }

  /** `record_event_observation`. */
  function RecordObservation(db: Db, runId: Id, event: nat): Outcome<Db> {
    if runId !in db.runs || event >= |db.events| then Err(IntegrityError)
    else
      var run, e := db.runs[runId], db.events[event];
      if e.account != run.account || e.calendar != run.calendar then Err(OwnershipError)
      else if exists o :: o in db.observations && o.run == runId && o.key == e.key then Err(ObservationError)
      else Ok(db.(observations := db.observations + {Observation(runId, run.account, run.calendar, e.key, event)}))
  }

  /** The inner loop of one page. */
  function RecordEvents(db: Db, runId: Id, events: seq<Incoming>, seenAt: int): (r: Outcome<Db>)
    requires runId in db.runs
    ensures r.Ok? ==> r.value.runs == db.runs && r.value.accounts == db.accounts && r.value.calendars == db.calendars
    decreases |events|
  {
    if events == [] then Ok(db)
    else
      var recorded := RecordRevision(db, db.runs[runId], events[0], seenAt);
      match RecordObservation(recorded.db, runId, recorded.event)
      case Err(e) => Err(e)
      case Ok(observed) => RecordEvents(observed, runId, events[1..], seenAt)
  }

  predicate DistinctKeys(events: seq<Incoming>) {
    forall i, j :: 0 <= i < j < |events| ==> events[i].key != events[j].key
  }

  /** One fetched page: revisions, observations and counters in one transaction. */
  function RecordPage(db: Db, runId: Id, events: seq<Incoming>, seenAt: int): Outcome<Db> {
    if runId !in db.runs || !db.runs[runId].status.Syncing? then Err(IntegrityError)
    else if !DistinctKeys(events) then Err(InvalidEvent)
    else match RecordEvents(db, runId, events, seenAt)
      case Err(e) => Err(e)
      case Ok(after) =>
        var run := after.runs[runId];
        Ok(after.(runs := after.runs[runId := run.(itemsSeen := run.itemsSeen + |events|)]))
  }

  function ObservationsOf(observations: set<Observation>, runId: Id): set<Observation> {
    set o | o in observations && o.run == runId
  }

  /** `mark_observation_evidence_complete` and a successful finish. */
  function Succeed(db: Db, runId: Id, at: int): Outcome<Db> {
    if runId !in db.runs || !db.runs[runId].status.Syncing? then Err(IntegrityError)
    else
      var run := db.runs[runId];
      if |ObservationsOf(db.observations, runId)| != run.itemsSeen then Err(ObservationError)
      else Ok(db.(runs := db.runs[runId :=
                    run.(evidenceVersion := Some(EVIDENCE_VERSION), status := Succeeded, complete := true, completedAt := at)]))
  }

  /** `_finish` of a run that did not succeed. */
  function Abandon(db: Db, runId: Id, status: RunStatus, at: int): Outcome<Db> {
    if runId !in db.runs || !Active(db.runs[runId]) || !(status.Incomplete? || status.RunFailed?) then Err(IntegrityError)
    else Ok(db.(runs := db.runs[runId :=
                  db.runs[runId].(status := status, complete := false, evidenceVersion := None, completedAt := at)]))
  }

  function Start(db: Db, runId: Id): Outcome<Db> {
    if runId !in db.runs || !db.runs[runId].status.Claimed? then Err(IntegrityError)
    else Ok(db.(runs := db.runs[runId := db.runs[runId].(status := Syncing)]))
  }

  /** One committed transaction of the configuration or of a refresh. */
  datatype Step =
    | AccountStep(id: Id, project: Option<Id>)
    | CalendarStep(id: Id, account: Id)
    | CreateStep(id: Id, account: Id, calendar: Id, project: Option<Id>, windowStart: int, windowEnd: int)
    | StartStep(run: Id)
    | PageStep(run: Id, events: seq<Incoming>, seenAt: int)
    | SucceedStep(run: Id, at: int)
    | AbandonStep(run: Id, status: RunStatus, at: int)

  function Attempt(db: Db, s: Step): Outcome<Db> {
    match s
    case AccountStep(id, project) => CreateAccount(db, id, project)
    case CalendarStep(id, account) => CreateCalendar(db, id, account)
    case CreateStep(id, account, calendar, project, windowStart, windowEnd) =>
      CreateRun(db, id, account, calendar, project, windowStart, windowEnd)
    case StartStep(run) => Start(db, run)
    case PageStep(run, events, seenAt) => RecordPage(db, run, events, seenAt)
    case SucceedStep(run, at) => Succeed(db, run, at)
    case AbandonStep(run, status, at) => Abandon(db, run, status, at)
  }

  function Apply(db: Db, s: Step): Db {
    match Attempt(db, s) case Ok(after) => after case Err(_) => db
  }

  function Runs(db: Db, steps: seq<Step>): Db
    decreases |steps|
  {
    if steps == [] then db else Runs(Apply(db, steps[0]), steps[1..])
  }

  // ----- reads -----

  /** `_eligible_condition`. */
  predicate Eligible(db: Db, runId: Id) {
    && runId in db.runs
    && db.runs[runId].status.Succeeded? && db.runs[runId].complete
    && db.runs[runId].evidenceVersion == Some(EVIDENCE_VERSION)
    && |ObservationsOf(db.observations, runId)| == db.runs[runId].itemsSeen
  }

  /** UTC instant of local midnight on a date, by zone name; `None` for an unknown zone. */
  type Midnights = (string, int) -> Option<int>

  /** `_covered`: the event's extent meets the run's window. */
  predicate Covered(e: EventRevision, run: SyncRun, midnight: Midnights) {
    match e.extent
    case Timed(start, end) => end > run.windowStart && start < run.windowEnd
    case AllDay(startDate, endDate, zone) =>
      zone.Some? && midnight(zone.value, startDate).Some? && midnight(zone.value, endDate).Some?
      && midnight(zone.value, endDate).value > run.windowStart && midnight(zone.value, startDate).value < run.windowEnd
  }

  /** `completed_at` and then the identifier, as in the ORDER BY. */
  predicate Older(db: Db, a: Id, b: Id)
    requires a in db.runs && b in db.runs
  {
    db.runs[a].completedAt < db.runs[b].completedAt
    || (db.runs[a].completedAt == db.runs[b].completedAt && a < b)
  }

  predicate Observed(db: Db, runId: Id, key: string) {
    exists o :: o in db.observations && o.run == runId && o.key == key
  }

  /** The eligible runs of an event's calendar. */
  function EvidenceRuns(db: Db, e: EventRevision): set<Id> {
    set r | r in db.runs && db.runs[r].account == e.account && db.runs[r].calendar == e.calendar && Eligible(db, r)
  }

  datatype Evidence = Current(run: Id) | Stale(run: Id) | Missing

  predicate Decisive(db: Db, e: EventRevision, r: Id, midnight: Midnights)
    requires r in db.runs
  {
    Observed(db, r, e.key) || Covered(e, db.runs[r], midnight)
  }

  /** What one run says about an event, given what earlier runs said. */
  function After(before: Evidence, db: Db, e: EventRevision, r: Id, midnight: Midnights): Evidence
    requires r in db.runs
  {
    if Observed(db, r, e.key) then Current(r)
    else if Covered(e, db.runs[r], midnight) then Stale(r)
    else before
  }

  /** `effective_evidence`: the first decisive row, newest run first. */
  function Scan(db: Db, e: EventRevision, rows: seq<Id>, midnight: Midnights): Evidence
    requires forall k :: 0 <= k < |rows| ==> rows[k] in db.runs
    decreases |rows|
  {
    if rows == [] then Missing
    else if Observed(db, rows[0], e.key) then Current(rows[0])
    else if Covered(e, db.runs[rows[0]], midnight) then Stale(rows[0])
    else Scan(db, e, rows[1..], midnight)
  }

  /** Runs folded oldest first. */
  function Fold(db: Db, e: EventRevision, rows: seq<Id>, midnight: Midnights): Evidence
    requires forall k :: 0 <= k < |rows| ==> rows[k] in db.runs
    decreases |rows|
  {
    if rows == [] then Missing
    else After(Fold(db, e, rows[..|rows| - 1], midnight), db, e, rows[|rows| - 1], midnight)
  }

  /** The rows of the query: every run of a set once, oldest first. */
  predicate OldestFirst(db: Db, runs: set<Id>, rows: seq<Id>) {
    && (forall k :: 0 <= k < |rows| ==> rows[k] in db.runs)
    && (forall k :: 0 <= k < |rows| ==> rows[k] in runs)
    && (forall r :: r in runs ==> r in rows)
    && (forall j, k :: 0 <= j < k < |rows| ==> Older(db, rows[j], rows[k]))
  }
}
