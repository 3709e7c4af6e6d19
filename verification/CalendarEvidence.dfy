/** Effective calendar state: the backward scan against the history of syncs, and reopening. */
module CalendarEvidence {
  import opened Wrappers
  import opened CalendarModel

  // ----- the invariant of every sync history -----

  predicate RunsOk(db: Db) {
    forall r :: r in db.runs ==>
      var run := db.runs[r];
      && run.calendar in db.calendars && db.calendars[run.calendar] == run.account
      && run.account in db.accounts && db.accounts[run.account] == run.project
      && run.windowStart < run.windowEnd
      && (if run.status.Succeeded? then run.complete && run.evidenceVersion == Some(EVIDENCE_VERSION)
          else !run.complete && run.evidenceVersion.None?)
  }

  predicate EventOk(db: Db, e: EventRevision) {
    && e.calendar in db.calendars && db.calendars[e.calendar] == e.account
    && e.account in db.accounts && db.accounts[e.account] == e.project
  }

  predicate EventsOk(db: Db) {
    && (forall i :: 0 <= i < |db.events| ==> EventOk(db, db.events[i]))
    && forall i, j :: 0 <= i < j < |db.events| && SameOccurrence(db.events[j], db.events[i].calendar, db.events[i].key) ==>
         && db.events[i].revision < db.events[j].revision
         && db.events[i].hash != db.events[j].hash
         && db.events[i].firstSeen == db.events[j].firstSeen
  }

  predicate ObservationOk(db: Db, o: Observation) {
    && o.run in db.runs && o.event < |db.events|
    && o.account == db.runs[o.run].account && o.calendar == db.runs[o.run].calendar
    && o.account == db.events[o.event].account && SameOccurrence(db.events[o.event], o.calendar, o.key)
  }

  predicate ObservationsOk(db: Db) {
    && (forall o :: o in db.observations ==> ObservationOk(db, o))
    && forall o, p :: o in db.observations && p in db.observations && o.run == p.run && o.key == p.key ==> o == p
  }

  predicate CountsOk(db: Db) {
    forall r :: r in db.runs ==> |ObservationsOf(db.observations, r)| == db.runs[r].itemsSeen
  }

  predicate Inv(db: Db) {
    RunsOk(db) && EventsOk(db) && ObservationsOk(db) && CountsOk(db)
  }

  /** Everything but the counter of the run that is recording a page. */
  predicate Recording(db: Db, runId: Id, extra: nat) {
    && RunsOk(db) && EventsOk(db) && ObservationsOk(db)
    && runId in db.runs
    && forall r :: r in db.runs ==>
         |ObservationsOf(db.observations, r)| == db.runs[r].itemsSeen + if r == runId then extra else 0
  }

  /** The account revisions and calendars stored so far keep their project and their account. */
  predicate Configured(db: Db, after: Db) {
    && (forall a :: a in db.accounts ==> a in after.accounts && after.accounts[a] == db.accounts[a])
    && forall c :: c in db.calendars ==> c in after.calendars && after.calendars[c] == db.calendars[c]
  }

  /** What no later step changes: the configuration, stored revisions, and finished runs with their observations. */
  predicate Frozen(db: Db, after: Db) {
    && Configured(db, after)
    && db.events <= after.events
    && forall r :: r in db.runs ==>
         && r in after.runs
         && after.runs[r].account == db.runs[r].account && after.runs[r].calendar == db.runs[r].calendar
         && (!Active(db.runs[r]) ==> after.runs[r] == db.runs[r] && ObservationsOf(after.observations, r) == ObservationsOf(db.observations, r))
  }

  lemma NewRevisionOk(db: Db, run: SyncRun, e: Incoming, seenAt: int)
    requires EventsOk(db)
    requires run.calendar in db.calendars && db.calendars[run.calendar] == run.account
    requires run.account in db.accounts && db.accounts[run.account] == run.project
    ensures EventsOk(RecordRevision(db, run, e, seenAt).db)
  {
    var events := RecordRevision(db, run, e, seenAt).db.events;
    var n := |db.events|;
    if |events| > n {
      forall i | 0 <= i < n && SameOccurrence(events[n], events[i].calendar, events[i].key)
        ensures events[i].revision < events[n].revision && events[i].hash != events[n].hash
        ensures events[i].firstSeen == events[n].firstSeen
      {
        assert SameOccurrence(db.events[i], run.calendar, e.key);
        var latest := LatestRevision(db.events, run.calendar, e.key).value;
        assert i == latest || SameOccurrence(db.events[latest], db.events[i].calendar, db.events[i].key);
        assert i == latest || SameOccurrence(db.events[i], db.events[latest].calendar, db.events[latest].key);
      }
    }
  }

  /**
   A stored revision with the same content is reused; other content becomes the next revision, seen first
   when the occurrence was seen first.
   */
  lemma RevisionDecides(db: Db, run: SyncRun, e: Incoming, seenAt: int)
    requires EventsOk(db)
    ensures
      var r := RecordRevision(db, run, e, seenAt);
      if exists i :: 0 <= i < |db.events| && SameOccurrence(db.events[i], run.calendar, e.key) && db.events[i].hash == e.hash then
        && !r.created && r.db == db && r.event < |db.events|
        && SameOccurrence(db.events[r.event], run.calendar, e.key) && db.events[r.event].hash == e.hash
      else
        && r.created && r.event == |db.events| && |r.db.events| == |db.events| + 1
        && r.db == db.(events := db.events + [r.db.events[r.event]])
        && var row := r.db.events[r.event];
           && row == EventRevision(run.account, run.calendar, run.project, e.key, row.revision, e.hash, e.title, e.extent, row.firstSeen, seenAt)
           && (forall i :: 0 <= i < |db.events| && SameOccurrence(db.events[i], run.calendar, e.key) ==>
                 db.events[i].revision < row.revision && db.events[i].firstSeen == row.firstSeen)
           && if exists i :: 0 <= i < |db.events| && SameOccurrence(db.events[i], run.calendar, e.key)
              then exists i :: 0 <= i < |db.events| && SameOccurrence(db.events[i], run.calendar, e.key) && row.revision == db.events[i].revision + 1
              else row.revision == 1 && row.firstSeen == seenAt
  {
    var latest := LatestRevision(db.events, run.calendar, e.key);
    if latest.Some? {
      var l := latest.value;
      forall i | 0 <= i < |db.events| && SameOccurrence(db.events[i], run.calendar, e.key)
        ensures db.events[i].firstSeen == db.events[l].firstSeen
      {
        assert i == l || SameOccurrence(db.events[l], db.events[i].calendar, db.events[i].key);
        assert i == l || SameOccurrence(db.events[i], db.events[l].calendar, db.events[l].key);
      }
    }
    hide EventsOk;
  }

  lemma RecordRevisionKeeps(db: Db, runId: Id, e: Incoming, seenAt: int, extra: nat)
    requires Recording(db, runId, extra)
    ensures runId in db.runs
    ensures
      var recorded := RecordRevision(db, db.runs[runId], e, seenAt);
      && Recording(recorded.db, runId, extra)
      && recorded.db == db.(events := recorded.db.events) && db.events <= recorded.db.events
      && recorded.event < |recorded.db.events|
      && SameOccurrence(recorded.db.events[recorded.event], db.runs[runId].calendar, e.key)
      && recorded.db.events[recorded.event].hash == e.hash
      && recorded.db.events[recorded.event].account == db.runs[runId].account
  {
    NewRevisionOk(db, db.runs[runId], e, seenAt);
    assert forall k :: 0 <= k < |db.events| ==> EventOk(db, db.events[k]);
    hide EventsOk, LatestRevision;
    hide ObservationsOf;
  }

  lemma RecordObservationKeeps(db: Db, runId: Id, event: nat, extra: nat)
    requires Recording(db, runId, extra)
    requires RecordObservation(db, runId, event).Ok?
    ensures
      var after := RecordObservation(db, runId, event).value;
      && Recording(after, runId, extra + 1)
      && after == db.(observations := after.observations)
      && forall r :: r in db.runs && r != runId ==> ObservationsOf(after.observations, r) == ObservationsOf(db.observations, r)
  {
    var after := RecordObservation(db, runId, event).value;
    var added := Observation(runId, db.runs[runId].account, db.runs[runId].calendar, db.events[event].key, event);
    ObservationsAside(db, after);
    ObservationAdded(db, after, added);
    CountAdded(db.observations, added);
    hide RunsOk, EventsOk, ObservationsOk, ObservationsOf;
  }

  lemma ObservationAdded(db: Db, after: Db, added: Observation)
    requires ObservationsOk(db) && ObservationOk(db, added)
    requires after == db.(observations := db.observations + {added})
    requires !exists o :: o in db.observations && o.run == added.run && o.key == added.key
    ensures ObservationsOk(after)
  {
    assert forall o :: o in db.observations ==> ObservationOk(after, o);
  }

  lemma CountAdded(observations: set<Observation>, added: Observation)
    requires added !in observations
    ensures |ObservationsOf(observations + {added}, added.run)| == |ObservationsOf(observations, added.run)| + 1
    ensures forall r :: r != added.run ==> ObservationsOf(observations + {added}, r) == ObservationsOf(observations, r)
  {
    assert ObservationsOf(observations + {added}, added.run) == ObservationsOf(observations, added.run) + {added};
    forall r | r != added.run ensures ObservationsOf(observations + {added}, r) == ObservationsOf(observations, r) {
      assert forall o :: o in ObservationsOf(observations + {added}, r) <==> o in ObservationsOf(observations, r);
    }
  }

  /** Runs and events do not depend on the observations. */
  lemma ObservationsAside(db: Db, after: Db)
    requires after == db.(observations := after.observations)
    requires RunsOk(db) && EventsOk(db)
    ensures RunsOk(after) && EventsOk(after)
  {
  }

  /** One event of a page: its revision and its observation. */
  lemma RecordOneKeeps(db: Db, runId: Id, e: Incoming, seenAt: int, extra: nat)
    requires runId in db.runs && Recording(db, runId, extra)
    requires
      var recorded := RecordRevision(db, db.runs[runId], e, seenAt);
      RecordObservation(recorded.db, runId, recorded.event).Ok?
    ensures
      var recorded := RecordRevision(db, db.runs[runId], e, seenAt);
      var after := RecordObservation(recorded.db, runId, recorded.event).value;
      && after.runs == db.runs && Recording(after, runId, extra + 1)
      && db.events <= after.events
      && forall r :: r in db.runs && r != runId ==>
           ObservationsOf(after.observations, r) == ObservationsOf(db.observations, r)
  {
    var recorded := RecordRevision(db, db.runs[runId], e, seenAt);
    hide RecordRevision, RecordObservation, Recording, ObservationsOf;
    RecordRevisionKeeps(db, runId, e, seenAt, extra);
    RecordObservationKeeps(recorded.db, runId, recorded.event, extra);
  }

  lemma {:induction false} RecordEventsKeeps(db: Db, runId: Id, events: seq<Incoming>, seenAt: int, extra: nat)
    requires runId in db.runs && Recording(db, runId, extra)
    requires RecordEvents(db, runId, events, seenAt).Ok?
    ensures
      var after := RecordEvents(db, runId, events, seenAt).value;
      && Recording(after, runId, extra + |events|)
      && db.events <= after.events
      && forall r :: r in db.runs && r != runId ==>
           ObservationsOf(after.observations, r) == ObservationsOf(db.observations, r)
    decreases |events|
  {
    hide RecordRevision, RecordObservation, Recording, ObservationsOf;
    if events != [] {
      var recorded := RecordRevision(db, db.runs[runId], events[0], seenAt);
      RecordOneKeeps(db, runId, events[0], seenAt, extra);
      var observed := RecordObservation(recorded.db, runId, recorded.event).value;
      RecordEventsKeeps(observed, runId, events[1..], seenAt, extra + 1);
    }
  }

  lemma PageKeeps(db: Db, runId: Id, events: seq<Incoming>, seenAt: int)
    requires Inv(db)
    requires RecordPage(db, runId, events, seenAt).Ok?
    ensures Inv(RecordPage(db, runId, events, seenAt).value) && Frozen(db, RecordPage(db, runId, events, seenAt).value)
  {
    hide RunsOk, EventsOk, ObservationsOk, ObservationsOf, RecordEvents, RecordPage;
    PageShape(db, runId, events, seenAt);
    RecordEventsKeeps(db, runId, events, seenAt, 0);
    PageCounted(db, runId, RecordEvents(db, runId, events, seenAt).value, |events|);
  }

  /** A page is complete once the run's counter has caught up with its observations. */
  lemma PageCounted(db: Db, runId: Id, recorded: Db, n: nat)
    requires Inv(db) && runId in db.runs && db.runs[runId].status.Syncing?
    requires recorded.runs == db.runs && recorded.accounts == db.accounts && recorded.calendars == db.calendars
    requires Recording(recorded, runId, n) && db.events <= recorded.events
    requires forall r :: r in db.runs && r != runId ==>
               ObservationsOf(recorded.observations, r) == ObservationsOf(db.observations, r)
    ensures var after := recorded.(runs := db.runs[runId := db.runs[runId].(itemsSeen := db.runs[runId].itemsSeen + n)]);
            Inv(after) && Frozen(db, after)
  {
    hide RunsOk, EventsOk, ObservationsOk, ObservationsOf;
    UnfinishedIsIncomplete(db, runId);
    CounterAside(recorded, recorded.(runs := db.runs[runId := db.runs[runId].(itemsSeen := db.runs[runId].itemsSeen + n)]), runId);
  }

  lemma UnfinishedIsIncomplete(db: Db, r: Id)
    requires RunsOk(db) && r in db.runs && !db.runs[r].status.Succeeded?
    ensures !db.runs[r].complete && db.runs[r].evidenceVersion.None?
  {
  }

  lemma PageShape(db: Db, runId: Id, events: seq<Incoming>, seenAt: int)
    requires RecordPage(db, runId, events, seenAt).Ok?
    ensures runId in db.runs && db.runs[runId].status.Syncing? && RecordEvents(db, runId, events, seenAt).Ok?
    ensures
      var recorded := RecordEvents(db, runId, events, seenAt).value;
      RecordPage(db, runId, events, seenAt).value
      == recorded.(runs := db.runs[runId := db.runs[runId].(itemsSeen := db.runs[runId].itemsSeen + |events|)])
  {
  }

  /** Events and observations do not depend on a run's counter, status or times. */
  lemma CounterAside(db: Db, after: Db, runId: Id)
    requires RunsOk(db) && EventsOk(db) && ObservationsOk(db) && runId in db.runs && runId in after.runs
    requires after == db.(runs := db.runs[runId := after.runs[runId]])
    requires after.runs[runId].account == db.runs[runId].account && after.runs[runId].calendar == db.runs[runId].calendar
    requires after.runs[runId].project == db.runs[runId].project
    requires after.runs[runId].windowStart == db.runs[runId].windowStart && after.runs[runId].windowEnd == db.runs[runId].windowEnd
    requires if after.runs[runId].status.Succeeded? then
               after.runs[runId].complete && after.runs[runId].evidenceVersion == Some(EVIDENCE_VERSION)
             else !after.runs[runId].complete && after.runs[runId].evidenceVersion.None?
    ensures RunsOk(after) && EventsOk(after) && ObservationsOk(after)
  {
    assert forall i :: 0 <= i < |db.events| ==> EventOk(db, db.events[i]) && EventOk(after, db.events[i]);
    assert forall o :: o in db.observations ==> ObservationOk(db, o);
  }

  lemma CreateKeeps(db: Db, id: Id, account: Id, calendar: Id, project: Option<Id>, windowStart: int, windowEnd: int)
    requires Inv(db)
    requires CreateRun(db, id, account, calendar, project, windowStart, windowEnd).Ok?
    ensures Inv(CreateRun(db, id, account, calendar, project, windowStart, windowEnd).value)
    ensures Frozen(db, CreateRun(db, id, account, calendar, project, windowStart, windowEnd).value)
  {
    assert forall o :: o in db.observations ==> ObservationOk(db, o);
    assert ObservationsOf(db.observations, id) == {};
    var after := CreateRun(db, id, account, calendar, project, windowStart, windowEnd).value;
    assert forall i :: 0 <= i < |db.events| ==> EventOk(db, db.events[i]) && EventOk(after, db.events[i]);
    hide ObservationsOf;
  }

  /** New account revisions and calendars leave everything else as it is. */
  lemma ConfigurationKeeps(db: Db, after: Db)
    requires Inv(db) && Configured(db, after) && after == db.(accounts := after.accounts, calendars := after.calendars)
    ensures Inv(after) && Frozen(db, after)
  {
    assert forall i :: 0 <= i < |db.events| ==> EventOk(db, db.events[i]) && EventOk(after, db.events[i]);
    assert forall o :: o in db.observations ==> ObservationOk(db, o);
    hide ObservationsOf;
  }

  /** Starting, succeeding and giving up change one run that is still active. */
  lemma RunRowKeeps(db: Db, s: Step)
    requires Inv(db) && (s.StartStep? || s.SucceedStep? || s.AbandonStep?) && Attempt(db, s).Ok?
    ensures Inv(Apply(db, s)) && Frozen(db, Apply(db, s))
  {
    hide EventsOk, ObservationsOk, ObservationsOf;
    CounterAside(db, Apply(db, s), s.run);
  }

  /** Every committed transaction of every refresh. */
  lemma StepKeepsInv(db: Db, s: Step)
    requires Inv(db)
    ensures Inv(Apply(db, s)) && Frozen(db, Apply(db, s))
  {
    if Attempt(db, s).Ok? {
      hide RecordPage, CreateRun, Inv, Frozen, Start, Succeed, Abandon;
      match s
      case AccountStep(id, project) => ConfigurationKeeps(db, Apply(db, s));
      case CalendarStep(id, account) => ConfigurationKeeps(db, Apply(db, s));
      case CreateStep(id, account, calendar, project, windowStart, windowEnd) =>
        CreateKeeps(db, id, account, calendar, project, windowStart, windowEnd);
      case PageStep(run, events, seenAt) => PageKeeps(db, run, events, seenAt);
      case _ => RunRowKeeps(db, s);
    } else {
      hide Attempt, RunsOk, EventsOk, ObservationsOk, ObservationsOf;
    }
  }

  lemma FrozenTransitive(a: Db, b: Db, c: Db)
    requires Frozen(a, b) && Frozen(b, c)
    ensures Frozen(a, c)
  {
    hide ObservationsOf;
    forall r | r in a.runs && !Active(a.runs[r])
      ensures c.runs[r] == a.runs[r] && ObservationsOf(c.observations, r) == ObservationsOf(a.observations, r)
    {
      assert r in b.runs && b.runs[r] == a.runs[r];
    }
  }

  lemma {:induction false} RunsKeepInv(db: Db, steps: seq<Step>)
    requires Inv(db)
    ensures Inv(Runs(db, steps)) && Frozen(db, Runs(db, steps))
    decreases |steps|
  {
    if steps != [] {
      var next := Apply(db, steps[0]);
      StepKeepsInv(db, steps[0]);
      hide Inv, Apply, Frozen;
      RunsKeepInv(next, steps[1..]);
      FrozenTransitive(db, next, Runs(next, steps[1..]));
    }
  }

  /** A refresh that got every page is never refused for its evidence count. */
  lemma SucceedNeverMiscounts(db: Db, runId: Id, at: int)
    requires Inv(db) && runId in db.runs && db.runs[runId].status.Syncing?
    ensures Succeed(db, runId, at).Ok? && Eligible(Succeed(db, runId, at).value, runId)
  {
  }

  /** The eligible runs are exactly the succeeded ones. */
  lemma EligibleMeansSucceeded(db: Db, r: Id)
    requires Inv(db)
    ensures Eligible(db, r) <==> r in db.runs && db.runs[r].status.Succeeded?
  {
  }

  // ----- the backward scan is a fold over the syncs -----

  predicate Rows(db: Db, rows: seq<Id>) {
    forall k :: 0 <= k < |rows| ==> rows[k] in db.runs
  }

  function Reversed(rows: seq<Id>): (r: seq<Id>)
    ensures |r| == |rows|
    ensures forall k :: 0 <= k < |rows| ==> r[k] == rows[|rows| - 1 - k]
  {
    if rows == [] then [] else [rows[|rows| - 1]] + Reversed(rows[..|rows| - 1])
  }

  /** Scanning newest first gives what folding oldest first gives, state and evidence run. */
  lemma {:induction false} ScanIsFold(db: Db, e: EventRevision, rows: seq<Id>, midnight: Midnights)
    requires Rows(db, rows)
    ensures Scan(db, e, Reversed(rows), midnight) == Fold(db, e, rows, midnight)
  {
    if rows != [] {
      var front := rows[..|rows| - 1];
      ScanIsFold(db, e, front, midnight);
      assert Reversed(rows)[1..] == Reversed(front);
    }
  }

  /** The rows of a query, oldest first: the newest run of the set comes last. */
  ghost function Sorted(db: Db, runs: set<Id>): (rows: seq<Id>)
    requires forall r :: r in runs ==> r in db.runs
    ensures OldestFirst(db, runs, rows)
    decreases |runs|
  {
    if runs == {} then []
    else
      NewestExists(db, runs);
      var m :| m in runs && forall r :: r in runs && r != m ==> Older(db, r, m);
      var front := Sorted(db, runs - {m});
      NewestLast(db, runs, m, front);
      front + [m]
  }

  lemma NewestLast(db: Db, runs: set<Id>, m: Id, front: seq<Id>)
    requires forall r :: r in runs ==> r in db.runs
    requires m in runs && forall r :: r in runs && r != m ==> Older(db, r, m)
    requires OldestFirst(db, runs - {m}, front)
    ensures OldestFirst(db, runs, front + [m])
  {
    hide Older;
    var rows := front + [m];
    forall j, k | 0 <= j < k < |rows| ensures rows[j] in db.runs && rows[k] in db.runs && Older(db, rows[j], rows[k]) {
      assert rows[j] == front[j] && front[j] in runs - {m};
    }
    forall r | r in runs ensures r in rows {
      assert r == m || r in runs - {m};
    }
  }

  lemma {:induction false} NewestExists(db: Db, runs: set<Id>)
    requires runs != {} && forall r :: r in runs ==> r in db.runs
    ensures exists m :: m in runs && forall r :: r in runs && r != m ==> Older(db, r, m)
    decreases |runs|
  {
    var x :| x in runs;
    var rest := runs - {x};
    var best := x;
    if rest != {} {
      NewestExists(db, rest);
      var m :| m in rest && forall r :: r in rest && r != m ==> Older(db, r, m);
      if Older(db, x, m) { best := m; }
    }
    forall r | r in runs && r != best ensures Older(db, r, best) {
      assert r == x || r in rest;
    }
  }

  /** `effective_evidence` on the stored rows. */
  ghost function Effective(db: Db, e: EventRevision, midnight: Midnights): Evidence {
    Scan(db, e, Reversed(Sorted(db, EvidenceRuns(db, e))), midnight)
  }

  /** The scan's answer is the newest run that says anything about the event. */
  lemma ScanDecides(db: Db, e: EventRevision, rows: seq<Id>, midnight: Midnights)
    requires Rows(db, rows)
    ensures Scan(db, e, rows, midnight).Missing? <==> forall k :: 0 <= k < |rows| ==> !Decisive(db, e, rows[k], midnight)
    ensures forall k :: 0 <= k < |rows| && Decisive(db, e, rows[k], midnight) && (forall j :: 0 <= j < k ==> !Decisive(db, e, rows[j], midnight))
              ==> Scan(db, e, rows, midnight) == After(Missing, db, e, rows[k], midnight)
    decreases |rows|
  {
    if rows != [] {
      ScanDecides(db, e, rows[1..], midnight);
      assert forall k :: 1 <= k < |rows| ==> rows[k] == rows[1..][k - 1];
    }
  }

  lemma NewestDecisive(db: Db, e: EventRevision, r: Id, midnight: Midnights)
    requires r in EvidenceRuns(db, e) && Decisive(db, e, r, midnight)
    requires forall other :: other in EvidenceRuns(db, e) && Older(db, r, other) ==> !Decisive(db, e, other, midnight)
    ensures Effective(db, e, midnight) == After(Missing, db, e, r, midnight)
  {
    hide Decisive, Observed, Covered, Eligible, Sorted, After, Reversed, Scan, Older;
    var sorted := Sorted(db, EvidenceRuns(db, e));
    var rows := Reversed(sorted);
    assert OldestFirst(db, EvidenceRuns(db, e), sorted);
    var j :| 0 <= j < |sorted| && sorted[j] == r;
    var k := |sorted| - 1 - j;
    assert rows[k] == r;
    forall i | 0 <= i < k ensures !Decisive(db, e, rows[i], midnight) {
      assert rows[i] == sorted[|sorted| - 1 - i];
      assert Older(db, r, rows[i]);
    }
    ScanDecides(db, e, rows, midnight);
  }

  /** And conversely: whatever run it names is eligible, decisive and newer than every other decisive run. */
  lemma EffectiveIsNewest(db: Db, e: EventRevision, midnight: Midnights)
    ensures
      match Effective(db, e, midnight)
      case Missing => forall r :: r in EvidenceRuns(db, e) ==> !Decisive(db, e, r, midnight)
      case Current(r) =>
        && r in EvidenceRuns(db, e) && Observed(db, r, e.key)
        && forall other :: other in EvidenceRuns(db, e) && Older(db, r, other) ==> !Decisive(db, e, other, midnight)
      case Stale(r) =>
        && r in EvidenceRuns(db, e) && !Observed(db, r, e.key) && Covered(e, db.runs[r], midnight)
        && forall other :: other in EvidenceRuns(db, e) && Older(db, r, other) ==> !Decisive(db, e, other, midnight)
  {
    var runs := EvidenceRuns(db, e);
    var decisive := set r | r in runs && Decisive(db, e, r, midnight);
    if decisive != {} {
      NewestExists(db, decisive);
      var m :| m in decisive && forall r :: r in decisive && r != m ==> Older(db, r, m);
      forall other | other in runs && Older(db, m, other) ensures !Decisive(db, e, other, midnight) {
        assert Decisive(db, e, other, midnight) ==> other in decisive;
      }
      NewestDecisive(db, e, m, midnight);
    } else {
      var rows := Reversed(Sorted(db, runs));
      ScanDecides(db, e, rows, midnight);
      assert forall k :: 0 <= k < |rows| ==> rows[k] in runs;
      assert forall r :: r in runs ==> (r in decisive <==> Decisive(db, e, r, midnight));
    }
  }

  /**
   One sync at a time: when the newest run of the event's calendar succeeds, the state moves by one
   fold step, seen makes it current, covered but unseen makes it stale, anything else keeps it.
   */
  lemma SuccessIsOneStep(db: Db, runId: Id, at: int, e: EventRevision, midnight: Midnights)
    requires Inv(db) && Succeed(db, runId, at).Ok?
    requires forall r :: r in EvidenceRuns(db, e) ==> db.runs[r].completedAt < at || (db.runs[r].completedAt == at && r < runId)
    ensures
      var after := Succeed(db, runId, at).value;
      Effective(after, e, midnight)
      == if db.runs[runId].account == e.account && db.runs[runId].calendar == e.calendar
         then After(Effective(db, e, midnight), after, e, runId, midnight)
         else Effective(db, e, midnight)
  {
    var after := Succeed(db, runId, at).value;
    SuccessAddsRun(db, runId, at, e);
    SuccessKeepsRows(db, runId, at);
    hide Effective, Covered, Succeed, Inv, Observed, EvidenceRuns;
    var mine := db.runs[runId].account == e.account && db.runs[runId].calendar == e.calendar;
    if mine && Decisive(after, e, runId, midnight) {
      NewestDecisive(after, e, runId, midnight);
    } else {
      SameDecision(db, after, e, midnight);
    }
  }

  lemma SuccessKeepsRows(db: Db, runId: Id, at: int)
    requires Succeed(db, runId, at).Ok?
    ensures
      var after := Succeed(db, runId, at).value;
      && runId in db.runs && after.runs.Keys == db.runs.Keys && after.observations == db.observations
      && after.runs[runId].completedAt == at
      && db.runs[runId].status.Syncing? && after.runs[runId].status.Succeeded?
      && after.runs[runId].account == db.runs[runId].account && after.runs[runId].calendar == db.runs[runId].calendar
      && (forall r :: r in db.runs && r != runId ==> after.runs[r] == db.runs[r])
      && (forall r, key :: Observed(after, r, key) <==> Observed(db, r, key))
  {
  }

  lemma SuccessAddsRun(db: Db, runId: Id, at: int, e: EventRevision)
    requires Inv(db) && Succeed(db, runId, at).Ok?
    ensures
      var after := Succeed(db, runId, at).value;
      && EvidenceRuns(after, e) == EvidenceRuns(db, e)
           + (if db.runs[runId].account == e.account && db.runs[runId].calendar == e.calendar then {runId} else {})
      && runId !in EvidenceRuns(db, e)
  {
    hide Succeed, Inv, Eligible, Observed, ObservationsOf;
    SuccessKeepsRows(db, runId, at);
    forall r ensures Eligible(Succeed(db, runId, at).value, r) <==> Eligible(db, r) || r == runId {
      SuccessEligible(db, runId, at, r);
    }
    EligibleMeansSucceeded(db, runId);
  }

  lemma SuccessEligible(db: Db, runId: Id, at: int, r: Id)
    requires Inv(db) && Succeed(db, runId, at).Ok?
    ensures Eligible(Succeed(db, runId, at).value, r) <==> Eligible(db, r) || r == runId
  {
    var s := SucceedStep(runId, at);
    StepKeepsInv(db, s);
    assert Apply(db, s) == Succeed(db, runId, at).value;
    SuccessKeepsRows(db, runId, at);
    hide Succeed, Inv, Eligible, Apply;
    EligibleMeansSucceeded(db, r);
    EligibleMeansSucceeded(Succeed(db, runId, at).value, r);
  }

  /** Extra runs that say nothing about the event do not change its state. */
  lemma SameDecision(db: Db, after: Db, e: EventRevision, midnight: Midnights)
    requires EvidenceRuns(db, e) <= EvidenceRuns(after, e)
    requires forall r :: r in EvidenceRuns(db, e) ==>
               after.runs[r] == db.runs[r] && (Observed(after, r, e.key) <==> Observed(db, r, e.key))
    requires forall r :: r in EvidenceRuns(after, e) && r !in EvidenceRuns(db, e) ==> !Decisive(after, e, r, midnight)
    ensures Effective(after, e, midnight) == Effective(db, e, midnight)
  {
    hide Effective, Eligible;
    EffectiveIsNewest(db, e, midnight);
    match Effective(db, e, midnight)
    case Missing => EffectiveIsNewest(after, e, midnight);
    case Current(r) => NewestDecisive(after, e, r, midnight);
    case Stale(r) => NewestDecisive(after, e, r, midnight);
  }

  /** Every other transaction leaves every event's state as it was. */
  lemma OtherStepsKeepState(db: Db, s: Step, e: EventRevision, midnight: Midnights)
    requires Inv(db) && !s.SucceedStep?
    ensures Effective(Apply(db, s), e, midnight) == Effective(db, e, midnight)
  {
    hide Effective, Apply, Inv, Observed, Eligible, Frozen, ObservationsOf, Covered;
    var after := Apply(db, s);
    forall r
      ensures Eligible(after, r) <==> Eligible(db, r)
      ensures Eligible(db, r) ==> r in db.runs && r in after.runs && after.runs[r] == db.runs[r]
                                  && (Observed(after, r, e.key) <==> Observed(db, r, e.key))
    {
      OtherStepsKeepRuns(db, s, e.key, r);
    }
    SameDecision(db, after, e, midnight);
  }

  lemma OtherStepsKeepRuns(db: Db, s: Step, key: string, r: Id)
    requires Inv(db) && !s.SucceedStep?
    ensures
      var after := Apply(db, s);
      && (Eligible(after, r) <==> Eligible(db, r))
      && (Eligible(db, r) ==> r in db.runs && r in after.runs && after.runs[r] == db.runs[r]
                              && (Observed(after, r, key) <==> Observed(db, r, key)))
  {
    hide Apply, Inv, Observed, Eligible, ObservationsOf;
    StepKeepsInv(db, s);
    OnlySuccessAddsRuns(db, s);
    EligibleMeansSucceeded(db, r);
    EligibleMeansSucceeded(Apply(db, s), r);
    if Eligible(db, r) { SameObserved(db, Apply(db, s), r, key); }
  }

  lemma SameObserved(db: Db, after: Db, r: Id, key: string)
    requires ObservationsOf(after.observations, r) == ObservationsOf(db.observations, r)
    ensures Observed(after, r, key) <==> Observed(db, r, key)
  {
    ObservedInOwn(db, r, key);
    ObservedInOwn(after, r, key);
  }

  lemma ObservedInOwn(db: Db, r: Id, key: string)
    ensures Observed(db, r, key) <==> exists o :: o in ObservationsOf(db.observations, r) && o.key == key
  {
    if Observed(db, r, key) {
      var o :| o in db.observations && o.run == r && o.key == key;
      assert o in ObservationsOf(db.observations, r);
    }
  }

  lemma OnlySuccessAddsRuns(db: Db, s: Step)
    requires !s.SucceedStep?
    ensures forall r :: r in Apply(db, s).runs && Apply(db, s).runs[r].status.Succeeded? ==>
              r in db.runs && Apply(db, s).runs[r] == db.runs[r]
  {
  }

  // ----- what coverage means -----

  /** The event's extent in instants; an all-day event lasts from local midnight to local midnight. */
  function Span(e: EventRevision, midnight: Midnights): Option<(int, int)> {
    match e.extent
    case Timed(start, end) => Some((start, end))
    case AllDay(startDate, endDate, zone) =>
      if zone.None? || midnight(zone.value, startDate).None? || midnight(zone.value, endDate).None? then None
      else Some((midnight(zone.value, startDate).value, midnight(zone.value, endDate).value))
  }

  predicate InSpan(t: int, start: int, end: int) {
    start <= t < end
  }

  /** Some instant of the event lies in the run's window; never so without a known time zone. */
  ghost predicate Overlaps(e: EventRevision, run: SyncRun, midnight: Midnights) {
    Span(e, midnight).Some?
    && var (start, end) := Span(e, midnight).value;
       exists t :: InSpan(t, start, end) && InSpan(t, run.windowStart, run.windowEnd)
  }

  /** The event takes some time. */
  predicate Lasts(e: EventRevision, midnight: Midnights) {
    Span(e, midnight).Some? ==> Span(e, midnight).value.0 < Span(e, midnight).value.1
  }

  lemma CoveredIsOverlap(e: EventRevision, run: SyncRun, midnight: Midnights)
    requires Lasts(e, midnight) && run.windowStart < run.windowEnd
    ensures Covered(e, run, midnight) <==> Overlaps(e, run, midnight)
  {
    if Covered(e, run, midnight) {
      var (start, end) := Span(e, midnight).value;
      var t := if start < run.windowStart then run.windowStart else start;
      assert InSpan(t, start, end) && InSpan(t, run.windowStart, run.windowEnd);
    }
  }

  /** What the answer about an event says about the rows it was found in, newest first. */
  ghost predicate Answers(db: Db, e: EventRevision, rows: seq<Id>, midnight: Midnights, evidence: Evidence)
    requires Rows(db, rows)
  {
    match evidence
    case Missing => Silent(db, e, rows, |rows|, midnight)
    case Current(r) =>
      exists k :: 0 <= k < |rows| && rows[k] == r && Silent(db, e, rows, k, midnight) && Observed(db, r, e.key)
    case Stale(r) =>
      exists k :: 0 <= k < |rows| && rows[k] == r && Silent(db, e, rows, k, midnight)
                  && !Observed(db, r, e.key) && Overlaps(e, db.runs[r], midnight)
  }

  /** The first `n` rows neither saw the event nor had a window that it falls into. */
  ghost predicate Silent(db: Db, e: EventRevision, rows: seq<Id>, n: nat, midnight: Midnights)
    requires Rows(db, rows) && n <= |rows|
  {
    forall k :: 0 <= k < n ==> !Observed(db, rows[k], e.key) && !Overlaps(e, db.runs[rows[k]], midnight)
  }

  /** The scan in terms of instants: the newest run that saw the event, or whose window it falls into. */
  lemma {:induction false} ScanAnswers(db: Db, e: EventRevision, rows: seq<Id>, midnight: Midnights)
    requires Rows(db, rows) && Lasts(e, midnight)
    requires forall k :: 0 <= k < |rows| ==> db.runs[rows[k]].windowStart < db.runs[rows[k]].windowEnd
    ensures Answers(db, e, rows, midnight, Scan(db, e, rows, midnight))
    decreases |rows|
  {
    if rows != [] {
      CoveredIsOverlap(e, db.runs[rows[0]], midnight);
      hide Covered, Overlaps, Observed;
      if Observed(db, rows[0], e.key) || Overlaps(e, db.runs[rows[0]], midnight) {
        assert Silent(db, e, rows, 0, midnight);
      } else {
        ScanAnswers(db, e, rows[1..], midnight);
        AnswerMoves(db, e, rows, midnight, Scan(db, e, rows[1..], midnight));
      }
    }
  }

  lemma AnswerMoves(db: Db, e: EventRevision, rows: seq<Id>, midnight: Midnights, evidence: Evidence)
    requires rows != [] && Rows(db, rows) && Answers(db, e, rows[1..], midnight, evidence)
    requires !Observed(db, rows[0], e.key) && !Overlaps(e, db.runs[rows[0]], midnight)
    ensures Answers(db, e, rows, midnight, evidence)
  {
    hide Overlaps, Observed;
    var rest := rows[1..];
    forall k: nat | k <= |rest| && Silent(db, e, rest, k, midnight) ensures Silent(db, e, rows, k + 1, midnight) {
      forall j | 0 <= j < k + 1 ensures !Observed(db, rows[j], e.key) && !Overlaps(e, db.runs[rows[j]], midnight) {
        if j > 0 { assert rows[j] == rest[j - 1]; }
      }
    }
  }

  /**
   One sync at a time, in instants: when the newest run of the event's calendar succeeds, an event it saw
   becomes current, an event it did not see but whose time meets its window becomes stale, any other stays.
   */
  lemma SuccessByOverlap(db: Db, runId: Id, at: int, e: EventRevision, midnight: Midnights)
    requires Inv(db) && Succeed(db, runId, at).Ok? && Lasts(e, midnight)
    requires runId in db.runs && db.runs[runId].account == e.account && db.runs[runId].calendar == e.calendar
    requires forall r :: r in EvidenceRuns(db, e) ==> db.runs[r].completedAt < at || (db.runs[r].completedAt == at && r < runId)
    ensures
      Effective(Succeed(db, runId, at).value, e, midnight)
      == if Observed(db, runId, e.key) then Current(runId)
         else if Overlaps(e, db.runs[runId], midnight) then Stale(runId)
         else Effective(db, e, midnight)
  {
    var after := Succeed(db, runId, at).value;
    assert after.runs[runId].windowStart == db.runs[runId].windowStart && after.runs[runId].windowEnd == db.runs[runId].windowEnd;
    CoveredIsOverlap(e, after.runs[runId], midnight);
    SuccessKeepsRows(db, runId, at);
    hide Inv, Succeed, Covered, Effective, Observed, EvidenceRuns;
    SuccessIsOneStep(db, runId, at, e, midnight);
  }

  /** The answer on the stored rows, in instants: it names the newest run that says anything about the event. */
  lemma EffectiveAnswers(db: Db, e: EventRevision, midnight: Midnights)
    requires Inv(db) && Lasts(e, midnight)
    ensures
      var rows := Reversed(Sorted(db, EvidenceRuns(db, e)));
      Answers(db, e, rows, midnight, Effective(db, e, midnight))
  {
    var rows := Reversed(Sorted(db, EvidenceRuns(db, e)));
    assert Rows(db, rows);
    assert forall k :: 0 <= k < |rows| ==> db.runs[rows[k]].windowStart < db.runs[rows[k]].windowEnd;
    hide Answers, Inv;
    ScanAnswers(db, e, rows, midnight);
  }

  // ----- the events a query starts from -----

  /** `_latest_positive_query`: the revision an event's newest eligible observing run saw. */
  predicate LatestPositive(db: Db, scope: Option<Id>, event: nat, run: Id) {
    && event < |db.events|
    && Eligible(db, run)
    && exists o :: o in db.observations && o.run == run && o.event == event
         && o.account in db.accounts && db.accounts[o.account] == scope
         && forall p :: p in db.observations && Eligible(db, p.run)
                        && p.account == o.account && p.calendar == o.calendar && p.key == o.key ==>
              p.run == run || Older(db, p.run, run)
  }

  /** For such an event the scan always decides; a current event is the very revision its run observed. */
  lemma LatestPositiveDecides(db: Db, scope: Option<Id>, event: nat, seen: Id, midnight: Midnights)
    requires Inv(db) && LatestPositive(db, scope, event, seen)
    ensures
      var e := db.events[event];
      && e.project == scope
      && match Effective(db, e, midnight)
         case Missing => false
         case Current(r) => r == seen && Observation(r, e.account, e.calendar, e.key, event) in db.observations
         case Stale(r) => Eligible(db, r) && Older(db, seen, r) && !Observed(db, r, e.key) && Covered(e, db.runs[r], midnight)
  {
    var e := db.events[event];
    var o :| o in db.observations && o.run == seen && o.event == event
             && o.account in db.accounts && db.accounts[o.account] == scope
             && forall p :: p in db.observations && Eligible(db, p.run)
                            && p.account == o.account && p.calendar == o.calendar && p.key == o.key ==>
                  p.run == seen || Older(db, p.run, seen);
    assert ObservationOk(db, o);
    assert EventOk(db, e);
    assert o == Observation(seen, e.account, e.calendar, e.key, event);
    EffectiveIsNewest(db, e, midnight);
    assert seen in EvidenceRuns(db, e) && Decisive(db, e, seen, midnight);
    forall r | r in EvidenceRuns(db, e) && Observed(db, r, e.key) ensures r == seen || Older(db, r, seen) {
      var p :| p in db.observations && p.run == r && p.key == e.key;
      assert ObservationOk(db, p);
    }
  }

  // ----- items and reopening -----

  const MAX_TITLE_CHARACTERS := 500

  datatype When = Instants(start: int, end: int) | Dates(start: int, end: int)

  datatype Provenance = Provenance(account: Id, calendar: Id, key: string, event: nat, revision: nat, evidenceRun: Id)

  datatype Item = Item(scope: Option<Id>, current: bool, title: string, text: When, provenance: Provenance)

  function Bounded(value: string, limit: nat): string {
    if |value| <= limit then value else value[..limit]
  }

  function MakeItem(scope: Option<Id>, event: nat, e: EventRevision, run: Id, current: bool): Item {
    Item(scope, current, Bounded(e.title, MAX_TITLE_CHARACTERS),
         match e.extent case Timed(start, end) => Instants(start, end) case AllDay(start, end, _) => Dates(start, end),
         Provenance(e.account, e.calendar, e.key, event, e.revision, run))
  }

  /** The item a query shows for an event, from its effective state. */
  ghost function QueryItem(db: Db, scope: Option<Id>, event: nat, midnight: Midnights): Option<Item>
    requires event < |db.events|
  {
    match Effective(db, db.events[event], midnight)
    case Missing => None
    case Current(r) => Some(MakeItem(scope, event, db.events[event], r, true))
    case Stale(r) => Some(MakeItem(scope, event, db.events[event], r, false))
  }

  /** The calendar branch of `reopen_context`; it matches observations by event revision. */
  function Reopen(db: Db, scope: Option<Id>, p: Provenance, midnight: Midnights): Outcome<Item> {
    if p.event >= |db.events| || p.evidenceRun !in db.runs then Err(NotFound)
    else
      var e, run := db.events[p.event], db.runs[p.evidenceRun];
      if e.account != p.account || e.calendar != p.calendar || e.key != p.key || e.revision != p.revision
         || e.project != scope || e.account !in db.accounts || db.accounts[e.account] != scope
         || run.account != p.account || run.calendar != p.calendar || run.project != scope || !Eligible(db, p.evidenceRun)
      then Err(NotFound)
      else if exists o :: o in db.observations && o.run == p.evidenceRun && o.event == p.event && o.key == e.key
      then Ok(MakeItem(scope, p.event, e, p.evidenceRun, true))
      else if Covered(e, run, midnight) then Ok(MakeItem(scope, p.event, e, p.evidenceRun, false))
      else Err(NotFound)
  }

  /** The newest decisive run observed this very revision, and not another one of the occurrence. */
  predicate SawThisRevision(db: Db, event: nat, run: Id)
    requires event < |db.events|
  {
    exists o :: o in db.observations && o.run == run && o.event == event && o.key == db.events[event].key
  }

  /**
   For any stored event revision that has a state, reopening what the query would show gives the same
   item exactly when a current event's evidence run observed that revision.
   */
  lemma ReopenAgreesIff(db: Db, scope: Option<Id>, event: nat, midnight: Midnights)
    requires Inv(db) && event < |db.events| && db.events[event].project == scope
    requires QueryItem(db, scope, event, midnight).Some?
    ensures
      var item := QueryItem(db, scope, event, midnight).value;
      Reopen(db, scope, item.provenance, midnight) == Ok(item)
      <==> (item.current ==> SawThisRevision(db, event, item.provenance.evidenceRun))
  {
    var e := db.events[event];
    assert EventOk(db, e);
    EffectiveIsNewest(db, e, midnight);
    hide Effective, Eligible, Covered;
  }

  /**
   Reopening gives nothing away: only a succeeded run and an event of this scope, in one calendar, whose
   provenance is repeated exactly; current exactly if that run saw the revision, and stale only if it
   should have.
   */
  lemma ReopenIsSound(db: Db, scope: Option<Id>, p: Provenance, midnight: Midnights)
    requires Inv(db) && Reopen(db, scope, p, midnight).Ok?
    ensures p.event < |db.events| && p.evidenceRun in db.runs
    ensures
      var item, e, run := Reopen(db, scope, p, midnight).value, db.events[p.event], db.runs[p.evidenceRun];
      && item.provenance == p && item.scope == scope && e.project == scope && run.project == scope
      && db.accounts[e.account] == scope && db.accounts[run.account] == scope
      && run.status.Succeeded? && run.calendar == e.calendar && run.account == e.account
      && item.title <= e.title && |item.title| == (if |e.title| < 500 then |e.title| else 500)
      && (match e.extent case Timed(start, end) => item.text == Instants(start, end)
                         case AllDay(start, end, _) => item.text == Dates(start, end))
      && (item.current <==> SawThisRevision(db, p.event, p.evidenceRun))
      && (!item.current && Lasts(e, midnight) ==> Overlaps(e, run, midnight))
  {
    var e, run := db.events[p.event], db.runs[p.evidenceRun];
    assert EventOk(db, e);
    if Lasts(e, midnight) { CoveredIsOverlap(e, run, midnight); }
    EligibleMeansSucceeded(db, p.evidenceRun);
    hide EventsOk, ObservationsOk, CountsOk, Eligible, Covered, Overlaps;
  }

  /** For every event a query shows they always agree. */
  lemma ReopenGivesTheItem(db: Db, scope: Option<Id>, event: nat, seen: Id, midnight: Midnights)
    requires Inv(db) && LatestPositive(db, scope, event, seen)
    ensures QueryItem(db, scope, event, midnight).Some?
    ensures Reopen(db, scope, QueryItem(db, scope, event, midnight).value.provenance, midnight)
            == Ok(QueryItem(db, scope, event, midnight).value)
  {
    LatestPositiveDecides(db, scope, event, seen, midnight);
    ReopenAgreesIff(db, scope, event, midnight);
  }

  /** And reopening is stable: no later sync changes what a provenance that reopened once gives. */
  lemma ReopenIsStable(db: Db, scope: Option<Id>, p: Provenance, steps: seq<Step>, midnight: Midnights)
    requires Inv(db) && Reopen(db, scope, p, midnight).Ok?
    ensures Reopen(Runs(db, steps), scope, p, midnight) == Reopen(db, scope, p, midnight)
  {
    var after := Runs(db, steps);
    RunsKeepInv(db, steps);
    var run := p.evidenceRun;
    assert !Active(db.runs[run]);
    assert after.runs[run] == db.runs[run];
    assert ObservationsOf(after.observations, run) == ObservationsOf(db.observations, run);
    assert after.events[p.event] == db.events[p.event];
    hide Runs, Covered, ObservationsOf, Inv;
    ObservedRevisionInOwn(db, run, p.event, p.key);
    ObservedRevisionInOwn(after, run, p.event, p.key);
  }

  lemma ObservedRevisionInOwn(db: Db, r: Id, event: nat, key: string)
    ensures (exists o :: o in db.observations && o.run == r && o.event == event && o.key == key)
            <==> exists o :: o in ObservationsOf(db.observations, r) && o.event == event && o.key == key
  {
    if o :| o in db.observations && o.run == r && o.event == event && o.key == key {
      assert o in ObservationsOf(db.observations, r);
    }
  }

  /** At once and after any later syncs, reopening what a query emitted gives back the same item. */
  lemma ReopenRoundTrip(db: Db, scope: Option<Id>, event: nat, seen: Id, steps: seq<Step>, midnight: Midnights)
    requires Inv(db) && LatestPositive(db, scope, event, seen)
    ensures QueryItem(db, scope, event, midnight).Some?
    ensures Reopen(Runs(db, steps), scope, QueryItem(db, scope, event, midnight).value.provenance, midnight)
            == Ok(QueryItem(db, scope, event, midnight).value)
  {
    ReopenGivesTheItem(db, scope, event, seen, midnight);
    ReopenIsStable(db, scope, QueryItem(db, scope, event, midnight).value.provenance, steps, midnight);
  }
}
