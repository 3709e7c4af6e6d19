/** Whole calendar histories, from empty tables on. */
module CalendarHistory {
  import opened Wrappers
  import opened CalendarModel
  import opened CalendarEvidence

  lemma {:induction false} RunsConcat(db: Db, a: seq<Step>, b: seq<Step>)
    ensures Runs(db, a + b) == Runs(Runs(db, a), b)
    decreases |a|
  {
    hide Apply;
    if a == [] {
      assert a + b == b;
    } else {
      assert (a + b)[1..] == a[1..] + b;
      RunsConcat(Apply(db, a[0]), a[1..], b);
    }
  }

  lemma EmptyInv()
    ensures Inv(EMPTY)
  {
    assert EMPTY.runs == map[] && EMPTY.events == [] && EMPTY.observations == {};
  }

  /** Every reachable state meets the invariant, and what it froze stays frozen. */
  lemma ReachableHistories(history: seq<Step>, later: seq<Step>)
    ensures Inv(Runs(EMPTY, history))
    ensures Frozen(Runs(EMPTY, history), Runs(EMPTY, history + later))
  {
    EmptyInv();
    hide Inv, Runs, Frozen;
    RunsKeepInv(EMPTY, history);
    RunsKeepInv(Runs(EMPTY, history), later);
    RunsConcat(EMPTY, history, later);
  }

  /** In every reachable state, what a query shows reopens to the same item, then and at any later time. */
  lemma ReachableRoundTrip(history: seq<Step>, later: seq<Step>, scope: Option<Id>, event: nat, seen: Id, midnight: Midnights)
    requires LatestPositive(Runs(EMPTY, history), scope, event, seen)
    ensures QueryItem(Runs(EMPTY, history), scope, event, midnight).Some?
    ensures var item := QueryItem(Runs(EMPTY, history), scope, event, midnight).value;
            Reopen(Runs(EMPTY, history + later), scope, item.provenance, midnight) == Ok(item)
  {
    ReachableHistories(history, later);
    RunsConcat(EMPTY, history, later);
    hide Inv, Runs, Frozen, LatestPositive, QueryItem, Reopen;
    ReopenRoundTrip(Runs(EMPTY, history), scope, event, seen, later, midnight);
  }

  // ----- one refresh at a time -----

  /** No calendar is refreshed twice at once. */
  ghost predicate OneRefresh(db: Db) {
    forall r, q | r in db.runs && q in db.runs ::
      Active(db.runs[r]) && Active(db.runs[q]) && db.runs[r].calendar == db.runs[q].calendar ==> r == q
  }

  lemma StepKeepsOneRefresh(db: Db, s: Step)
    requires OneRefresh(db)
    ensures OneRefresh(Apply(db, s))
  {
    hide RecordEvents, ObservationsOf, DistinctKeys;
  }

  lemma {:induction false} RunsKeepOneRefresh(db: Db, steps: seq<Step>)
    requires OneRefresh(db)
    ensures OneRefresh(Runs(db, steps))
    decreases |steps|
  {
    hide Apply, OneRefresh;
    if steps != [] {
      StepKeepsOneRefresh(db, steps[0]);
      RunsKeepOneRefresh(Apply(db, steps[0]), steps[1..]);
    }
  }

  /**
   In every state reached from empty tables a calendar has at most one refresh under way, every run has a
   proper window, and only a run that succeeded is complete and carries evidence.
   */
  lemma ReachableRefreshes(history: seq<Step>, r: Id)
    requires r in Runs(EMPTY, history).runs
    ensures OneRefresh(Runs(EMPTY, history))
    ensures
      var run := Runs(EMPTY, history).runs[r];
      && run.windowStart < run.windowEnd
      && (run.complete <==> run.status.Succeeded?) && (run.evidenceVersion.Some? <==> run.status.Succeeded?)
      && |ObservationsOf(Runs(EMPTY, history).observations, r)| == run.itemsSeen
  {
    ReachableHistories(history, []);
    assert OneRefresh(EMPTY);
    RunsKeepOneRefresh(EMPTY, history);
    hide Runs, Frozen, EventsOk, ObservationsOk, ObservationsOf;
  }

  // ----- superseded revisions -----

  /**
   An older revision of an occurrence whose newest run observed another revision: whenever the query
   would call it current, reopening it does not give that item back.
   */
  lemma SupersededReopensIff(db: Db, scope: Option<Id>, older: nat, newer: nat, seen: Id, midnight: Midnights)
    requires Inv(db) && LatestPositive(db, scope, newer, seen)
    requires older < |db.events| && older != newer
    requires SameOccurrence(db.events[older], db.events[newer].calendar, db.events[newer].key)
    requires QueryItem(db, scope, older, midnight).Some?
    ensures
      var item := QueryItem(db, scope, older, midnight).value;
      && (Reopen(db, scope, item.provenance, midnight) == Ok(item) <==> !item.current)
      && (item.current ==> item.provenance.evidenceRun == seen)
  {
    SupersededEvidence(db, scope, older, newer, seen, midnight);
    hide Inv, Reopen, LatestPositive, Effective;
    ReopenAgreesIff(db, scope, older, midnight);
  }

  lemma SupersededEvidence(db: Db, scope: Option<Id>, older: nat, newer: nat, seen: Id, midnight: Midnights)
    requires Inv(db) && LatestPositive(db, scope, newer, seen)
    requires older < |db.events| && older != newer
    requires SameOccurrence(db.events[older], db.events[newer].calendar, db.events[newer].key)
    ensures db.events[older].project == scope && !SawThisRevision(db, older, seen)
    ensures Effective(db, db.events[older], midnight).Current? ==> Effective(db, db.events[older], midnight).run == seen
  {
    var e, f := db.events[older], db.events[newer];
    assert EventOk(db, e) && EventOk(db, f);
    var o :| o in db.observations && o.run == seen && o.event == newer
             && o.account in db.accounts && db.accounts[o.account] == scope
             && forall p :: p in db.observations && Eligible(db, p.run)
                            && p.account == o.account && p.calendar == o.calendar && p.key == o.key ==>
                  p.run == seen || Older(db, p.run, seen);
    assert ObservationOk(db, o);
    EffectiveIsNewest(db, e, midnight);
    assert seen in EvidenceRuns(db, e) && Observed(db, seen, e.key);
    match Effective(db, e, midnight)
    case Current(r) =>
      var p :| p in db.observations && p.run == r && p.key == e.key;
      assert ObservationOk(db, p);
    case _ =>
  }

  // ----- a refresh of one event -----

  datatype Target = Target(account: Id, calendar: Id, project: Option<Id>, windowStart: int, windowEnd: int)

  function RunAt(t: Target, status: RunStatus): SyncRun {
    SyncRun(t.account, t.calendar, t.project, t.windowStart, t.windowEnd, status, false, 0, None, 0)
  }

  function Finished(t: Target, at: int): SyncRun {
    SyncRun(t.account, t.calendar, t.project, t.windowStart, t.windowEnd, Succeeded, true, 1, Some(EVIDENCE_VERSION), at)
  }

  /** A whole refresh that finds one event. */
  function Refresh(id: Id, t: Target, e: Incoming, at: int): seq<Step> {
    [CreateStep(id, t.account, t.calendar, t.project, t.windowStart, t.windowEnd), StartStep(id), PageStep(id, [e], at), SucceedStep(id, at)]
  }

  predicate MayRefresh(db: Db, id: Id, t: Target) {
    && t.account in db.accounts && db.accounts[t.account] == t.project
    && t.calendar in db.calendars && db.calendars[t.calendar] == t.account
    && t.windowStart < t.windowEnd && id !in db.runs
    && forall r :: r in db.runs && db.runs[r].calendar == t.calendar ==> !Active(db.runs[r])
  }

  lemma {:induction false} RefreshRuns(db: Db, id: Id, t: Target, e: Incoming, at: int)
    requires Inv(db) && MayRefresh(db, id, t)
    ensures
      var recorded := RecordRevision(db, RunAt(t, Syncing), e, at);
      Runs(db, Refresh(id, t, e, at))
      == db.(runs := db.runs[id := Finished(t, at)], events := recorded.db.events,
             observations := db.observations + {Observation(id, t.account, t.calendar, e.key, recorded.event)})
  {
    hide Inv, Apply, RecordRevision;
    var s := Refresh(id, t, e, at);
    var started := Apply(Apply(db, s[0]), s[1]);
    RefreshStarts(db, id, t);
    var paged := Apply(started, s[2]);
    StepKeepsInv(db, s[0]);
    StepKeepsInv(Apply(db, s[0]), s[1]);
    RefreshPages(db, started, id, t, e, at);
    StepKeepsInv(started, s[2]);
    RefreshSucceeds(paged, id, at);
    FourSteps(db, s);
  }

  lemma FourSteps(db: Db, s: seq<Step>)
    requires |s| == 4
    ensures Runs(db, s) == Apply(Apply(Apply(Apply(db, s[0]), s[1]), s[2]), s[3])
  {
    hide Apply;
    var a := Apply(db, s[0]);
    var b := Apply(a, s[1]);
    assert Runs(a, s[1..]) == Runs(b, s[1..][1..]);
    assert Runs(b, s[1..][1..]) == Runs(Apply(b, s[2]), s[1..][1..][1..]);
    assert Runs(Apply(b, s[2]), s[1..][1..][1..]) == Apply(Apply(b, s[2]), s[3]);
  }

  lemma {:induction false} RefreshStarts(db: Db, id: Id, t: Target)
    requires MayRefresh(db, id, t)
    ensures Apply(Apply(db, CreateStep(id, t.account, t.calendar, t.project, t.windowStart, t.windowEnd)), StartStep(id))
            == db.(runs := db.runs[id := RunAt(t, Syncing)])
  {
    var created := Apply(db, CreateStep(id, t.account, t.calendar, t.project, t.windowStart, t.windowEnd));
    assert created == db.(runs := db.runs[id := RunAt(t, Claimed)]);
  }

  lemma {:induction false} RefreshObserves(started: Db, id: Id, t: Target, e: Incoming, at: int)
    requires Inv(started) && id in started.runs && started.runs[id] == RunAt(t, Syncing)
    requires forall o :: o in started.observations ==> o.run != id
    ensures
      var recorded := RecordRevision(started, RunAt(t, Syncing), e, at);
      RecordObservation(recorded.db, id, recorded.event)
      == Ok(recorded.db.(observations := started.observations + {Observation(id, t.account, t.calendar, e.key, recorded.event)}))
  {
    RecordRevisionKeeps(started, id, e, at, 0);
    hide Inv, RunsOk, EventsOk, ObservationsOk, CountsOk, ObservationsOf, RecordRevision;
  }

  /** A revision depends on the stored events alone. */
  lemma {:induction false} RevisionOfEvents(db: Db, started: Db, run: SyncRun, e: Incoming, at: int)
    requires started == db.(runs := started.runs)
    ensures
      var recorded := RecordRevision(db, run, e, at);
      RecordRevision(started, run, e, at) == recorded.(db := started.(events := recorded.db.events))
  {
    hide FindContent, LatestRevision;
  }

  lemma {:induction false} OneEventPage(started: Db, id: Id, e: Incoming, at: int, observed: Db)
    requires id in started.runs && started.runs[id].status.Syncing? && observed.runs == started.runs
    requires var recorded := RecordRevision(started, started.runs[id], e, at);
             RecordObservation(recorded.db, id, recorded.event) == Ok(observed)
    ensures Apply(started, PageStep(id, [e], at))
            == observed.(runs := observed.runs[id := observed.runs[id].(itemsSeen := observed.runs[id].itemsSeen + 1)])
  {
    hide RecordRevision, RecordObservation;
    assert RecordEvents(started, id, [e], at) == RecordEvents(observed, id, [e][1..], at);
  }

  lemma UnknownRunObservedNothing(db: Db, id: Id)
    requires Inv(db) && id !in db.runs
    ensures forall o :: o in db.observations ==> o.run != id
  {
    assert forall o :: o in db.observations ==> ObservationOk(db, o);
  }

  lemma {:induction false} RefreshPages(db: Db, started: Db, id: Id, t: Target, e: Incoming, at: int)
    requires Inv(db) && MayRefresh(db, id, t) && started == db.(runs := db.runs[id := RunAt(t, Syncing)]) && Inv(started)
    ensures
      var recorded := RecordRevision(db, RunAt(t, Syncing), e, at);
      Apply(started, PageStep(id, [e], at))
      == db.(runs := db.runs[id := RunAt(t, Syncing).(itemsSeen := 1)], events := recorded.db.events,
             observations := db.observations + {Observation(id, t.account, t.calendar, e.key, recorded.event)})
  {
    hide Inv, RecordRevision, RecordObservation, Apply;
    UnknownRunObservedNothing(db, id);
    RevisionOfEvents(db, started, RunAt(t, Syncing), e, at);
    RefreshObserves(started, id, t, e, at);
    var recorded := RecordRevision(started, RunAt(t, Syncing), e, at);
    OneEventPage(started, id, e, at, RecordObservation(recorded.db, id, recorded.event).value);
  }

  lemma {:induction false} RefreshSucceeds(paged: Db, id: Id, at: int)
    requires Inv(paged) && id in paged.runs && paged.runs[id].status.Syncing?
    ensures
      Apply(paged, SucceedStep(id, at))
      == paged.(runs := paged.runs[id := paged.runs[id].(evidenceVersion := Some(EVIDENCE_VERSION), status := Succeeded, complete := true, completedAt := at)])
  {
    SucceedNeverMiscounts(paged, id, at);
  }

  // ----- such a revision is reachable -----

  const CALENDAR := Target(0, 0, None, 0, 1)

  function TwoContents(first: Incoming, second: Incoming): seq<Step> {
    [AccountStep(0, None), CalendarStep(0, 0)] + Refresh(0, CALENDAR, first, 1) + Refresh(1, CALENDAR, second, 2)
  }

  function Row(e: Incoming, revision: nat, seen: int): EventRevision {
    EventRevision(0, 0, None, e.key, revision, e.hash, e.title, e.extent, 1, seen)
  }

  function TwoContentsDb(first: Incoming, second: Incoming): Db {
    Db(map[0 := None], map[0 := 0], map[0 := Finished(CALENDAR, 1), 1 := Finished(CALENDAR, 2)],
       [Row(first, 1, 1), Row(second, 2, 2)], {Observation(0, 0, 0, first.key, 0), Observation(1, 0, 0, first.key, 1)})
  }

  lemma {:induction false} TwoContentsRun(first: Incoming, second: Incoming)
    requires first.key == second.key && first.hash != second.hash
    ensures Runs(EMPTY, TwoContents(first, second)) == TwoContentsDb(first, second)
  {
    hide Inv;
    var configure, a, b := [AccountStep(0, None), CalendarStep(0, 0)], Refresh(0, CALENDAR, first, 1), Refresh(1, CALENDAR, second, 2);
    var configured := Db(map[0 := None], map[0 := 0], map[], [], {});
    assert Runs(EMPTY, configure) == configured by {
      assert Apply(EMPTY, configure[0]) == configured.(calendars := map[]);
      assert Apply(configured.(calendars := map[]), configure[1]) == configured;
      assert Runs(EMPTY, configure) == Runs(configured.(calendars := map[]), configure[1..]) == Runs(configured, configure[1..][1..]);
    }
    var once := Runs(configured, a);
    assert RecordRevision(configured, RunAt(CALENDAR, Syncing), first, 1) == Recorded(configured.(events := [Row(first, 1, 1)]), 0, true);
    EmptyInv();
    RunsKeepInv(EMPTY, configure);
    RefreshRuns(configured, 0, CALENDAR, first, 1);
    RunsKeepInv(configured, a);
    hide Runs, Apply, RecordRevision;
    RefreshAgain(once, first, second);
    RefreshRuns(once, 1, CALENDAR, second, 2);
    RunsConcat(EMPTY, configure, a);
    RunsConcat(EMPTY, configure + a, b);
  }

  lemma {:induction false} RefreshAgain(once: Db, first: Incoming, second: Incoming)
    requires first.key == second.key && first.hash != second.hash
    requires once.events == [Row(first, 1, 1)]
    ensures RecordRevision(once, RunAt(CALENDAR, Syncing), second, 2) == Recorded(once.(events := once.events + [Row(second, 2, 2)]), 1, true)
  {
    assert FindContent(once.events, 0, second.key, second.hash, 0) == 1;
    assert SameOccurrence(once.events[0], 0, second.key);
    assert LatestRevision(once.events, 0, second.key) == Some(0);
  }

  lemma {:induction false} NewestSawSecond(first: Incoming, second: Incoming, midnight: Midnights)
    requires Inv(TwoContentsDb(first, second)) && first.key == second.key
    ensures LatestPositive(TwoContentsDb(first, second), None, 1, 1)
    ensures Effective(TwoContentsDb(first, second), Row(first, 1, 1), midnight) == Current(1)
  {
    var db, e := TwoContentsDb(first, second), Row(first, 1, 1);
    hide Inv, Effective, Eligible;
    EligibleMeansSucceeded(db, 0);
    EligibleMeansSucceeded(db, 1);
    var o := Observation(1, 0, 0, first.key, 1);
    assert o in db.observations && Observed(db, 1, e.key);
    assert 1 in EvidenceRuns(db, e);
    NewestDecisive(db, e, 1, midnight);
  }

  /**
   Two refreshes of one calendar find the same occurrence with different contents.  The query still
   calls the first revision current, with the second run as its evidence, and that item does not reopen.
   */
  lemma {:induction false} SupersededIsReachable(first: Incoming, second: Incoming, midnight: Midnights)
    requires first.key == second.key && first.hash != second.hash
    ensures
      var db := Runs(EMPTY, TwoContents(first, second));
      && |db.events| == 2 && SameOccurrence(db.events[0], 0, first.key) && db.events[0].hash == first.hash
      && LatestPositive(db, None, 1, 1)
      && QueryItem(db, None, 0, midnight).Some?
      && var item := QueryItem(db, None, 0, midnight).value;
         item.current && item.provenance.evidenceRun == 1 && Reopen(db, None, item.provenance, midnight) != Ok(item)
  {
    hide Inv, Reopen, Effective, LatestPositive, Runs, TwoContents, Frozen;
    TwoContentsRun(first, second);
    ReachableHistories(TwoContents(first, second), []);
    NewestSawSecond(first, second, midnight);
    SupersededReopensIff(TwoContentsDb(first, second), None, 0, 1, 1, midnight);
  }
}
