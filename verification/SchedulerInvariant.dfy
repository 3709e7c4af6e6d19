/** The invariant that every step of the scheduler, the operator and the Runs keeps. */
module SchedulerInvariant {
  import opened Wrappers
  import opened AgentRunStates
  import opened SchedulerRows
  import opened SchedulerSteps
  import Zone
  import Schedule
  import Recurrence
  import CatchUp

  // ----- the invariant -----

  /** What a row says about itself. */
  ghost predicate RowOk(o: Occurrence) {
    && !o.state.CancelledOccurrence?
    && (o.state.Due? || o.state.Claimed? || o.state.Missed? ==> o.runId.None?)
    && (o.state.RunCreated? || o.state.Completed? ==> o.runId.Some?)
    && (o.completedAt.Some? <==> TerminalOccurrence(o.state))
    && (o.leaseOwner.Some? <==> o.leaseExpiresAt.Some?)
    && (o.state.Claimed? ==> o.leaseOwner.Some?)
    && (o.state.Due? ==> o.leaseOwner.None?)
    && o.attemptCount <= MAX_SETUP_ATTEMPTS
    && (Active(o.state) ==> o.attemptCount < MAX_SETUP_ATTEMPTS)
  }

  /** An occurrence against its automation: equal revision means equal captured snapshot. */
  ghost predicate Captured(o: Occurrence, a: Automation, clock: int) {
    && o.automationRevision <= a.revision
    && o.slot.scheduleRevision <= a.scheduleRevision
    && (o.automationRevision == a.revision ==>
          o.snapshot == a.snapshot && o.slot.scheduleRevision == a.scheduleRevision)
    && (o.slot.scheduleRevision == a.scheduleRevision ==>
          o.slot.at <= Minute(clock) && (a.nextAt.Some? ==> o.slot.at < a.nextAt.value))
  }

  ghost predicate RowsOk(db: Db) {
    forall i :: i in db.occurrences ==>
      && RowOk(db.occurrences[i])
      && db.occurrences[i].slot.automationId in db.automations
      && Captured(db.occurrences[i], db.automations[db.occurrences[i].slot.automationId], db.clock)
  }

  ghost predicate OneActive(db: Db) {
    forall i, j :: i in db.occurrences && j in db.occurrences
                   && Active(db.occurrences[i].state) && Active(db.occurrences[j].state)
                   && db.occurrences[i].slot.automationId == db.occurrences[j].slot.automationId
                   ==> i == j
  }

  ghost predicate SlotsIndexed(db: Db) {
    && (forall i :: i in db.occurrences ==>
          db.occurrences[i].slot in db.slotIndex && db.slotIndex[db.occurrences[i].slot] == i)
    && (forall s :: s in db.slotIndex ==>
          db.slotIndex[s] in db.occurrences && db.occurrences[db.slotIndex[s]].slot == s)
  }

  ghost predicate RunsIndexed(db: Db) {
    && (forall r :: r in db.runs ==>
          db.runs[r].key in db.runIndex && db.runIndex[db.runs[r].key] == r)
    && (forall k :: k in db.runIndex ==>
          db.runIndex[k] in db.runs && db.runs[db.runIndex[k]].key == k)
  }

  /** A linked row names the Run with its own key, created from its own request. */
  ghost predicate LinkOk(db: Db, i: Id)
    requires i in db.occurrences
  {
    var o := db.occurrences[i];
    && (o.runId.Some? ==>
          && o.runId.value in db.runs
          && db.runs[o.runId.value].key == RunKeyOf(i, o)
          && db.runs[o.runId.value].request == RunRequestOf(o))
    && (o.runId.None? ==> RunKeyOf(i, o) !in db.runIndex)
  }

  ghost predicate LinksOk(db: Db) {
    && (forall i :: i in db.occurrences ==> LinkOk(db, i))
    && (forall r :: r in db.runs && db.runs[r].key.ForOccurrence? ==>
          db.runs[r].key.occurrenceId in db.occurrences)
  }

  ghost predicate WithinCapacity(db: Db) {
    |BusyOccurrences(db.occurrences)| <= MAX_ACTIVE_OCCURRENCES && |LiveRuns(db.runs)| <= MAX_ACTIVE_RUNS
  }

  ghost predicate Inv(db: Db) {
    RowsOk(db) && OneActive(db) && SlotsIndexed(db) && RunsIndexed(db) && LinksOk(db) && WithinCapacity(db)
  }

  // ----- updating one occurrence row -----

  /** How any transaction may change an existing row, apart from linking it. */
  ghost predicate Evolves(o: Occurrence, p: Occurrence) {
    && p.slot == o.slot && p.automationRevision == o.automationRevision
    && p.snapshot == o.snapshot && p.title == o.title
    && p.runId == o.runId
    && (Active(p.state) ==> Active(o.state))
    && RowOk(p)
  }

  lemma BusyAfterPut(occurrences: map<Id, Occurrence>, i: Id, p: Occurrence)
    ensures BusyOccurrences(occurrences[i := p])
            == (BusyOccurrences(occurrences) - {i}) + (if Busy(p.state) then {i} else {})
  {
  }

  lemma PutKeepsRows(db: Db, i: Id, p: Occurrence)
    requires RowsOk(db) && OneActive(db) && SlotsIndexed(db) && RunsIndexed(db)
    requires i in db.occurrences && Evolves(db.occurrences[i], p)
    ensures var after := Put(db, i, p);
            RowsOk(after) && OneActive(after) && SlotsIndexed(after) && RunsIndexed(after)
  {
    hide RowOk, Captured, Active;
    assert RowOk(p) && (Active(p.state) ==> Active(db.occurrences[i].state));
    assert Captured(p, db.automations[p.slot.automationId], db.clock) by {
      SameCapture(db.occurrences[i], p, db.automations[p.slot.automationId], db.clock);
    }
  }

  lemma SameCapture(o: Occurrence, p: Occurrence, a: Automation, clock: int)
    requires Captured(o, a, clock) && Evolves(o, p)
    ensures Captured(p, a, clock)
  {
  }

  lemma PutKeepsLinks(db: Db, i: Id, p: Occurrence)
    requires LinksOk(db) && i in db.occurrences && Evolves(db.occurrences[i], p)
    ensures LinksOk(Put(db, i, p))
  {
    hide RowOk, Active;
    forall j | j in Put(db, i, p).occurrences ensures LinkOk(Put(db, i, p), j) {
      assert LinkOk(db, j);
    }
  }

  lemma PutKeepsCapacity(db: Db, i: Id, p: Occurrence)
    requires WithinCapacity(db) && i in db.occurrences
    requires Busy(p.state) && !Busy(db.occurrences[i].state) ==>
               |BusyOccurrences(db.occurrences)| < MAX_ACTIVE_OCCURRENCES
    ensures WithinCapacity(Put(db, i, p))
  {
    var busy := BusyOccurrences(db.occurrences);
    BusyAfterPut(db.occurrences, i, p);
    assert i in busy <==> Busy(db.occurrences[i].state);
    hide LiveRuns, BusyOccurrences, Busy;
    CountAfterSwap(busy, i, Busy(p.state));
  }

  lemma CountAfterSwap(s: set<Id>, x: Id, keep: bool)
    ensures |(s - {x}) + (if keep then {x} else {})| == |s| - (if x in s then 1 else 0) + (if keep then 1 else 0)
  {
    assert x in s ==> s == (s - {x}) + {x};
    assert x !in s ==> s - {x} == s;
    if !keep { assert (s - {x}) + {} == s - {x}; }
  }

  lemma PutKeepsInv(db: Db, i: Id, p: Occurrence)
    requires Inv(db) && i in db.occurrences && Evolves(db.occurrences[i], p)
    requires Busy(p.state) && !Busy(db.occurrences[i].state) ==>
               |BusyOccurrences(db.occurrences)| < MAX_ACTIVE_OCCURRENCES
    ensures Inv(Put(db, i, p))
  {
    hide RowsOk, OneActive, SlotsIndexed, RunsIndexed, LinksOk, WithinCapacity, Evolves;
    PutKeepsRows(db, i, p);
    PutKeepsLinks(db, i, p);
    PutKeepsCapacity(db, i, p);
  }

  // ----- the transactions that update one row -----

  /** What the invariant says about a single row. */
  lemma RowFacts(db: Db, i: Id)
    requires Inv(db) && i in db.occurrences
    ensures RowOk(db.occurrences[i]) && LinkOk(db, i)
    ensures db.occurrences[i].slot.automationId in db.automations
    ensures Captured(db.occurrences[i], db.automations[db.occurrences[i].slot.automationId], db.clock)
  {
  }

  lemma GrantEvolves(o: Occurrence, now: int, owner: Id, lease: int)
    requires RowOk(o) && Active(o.state) && o.runId.None?
    ensures Evolves(o, GrantLease(o, now, owner, lease))
  {
  }

  lemma RenewEvolves(o: Occurrence, at: int)
    requires RowOk(o) && o.state.Claimed?
    ensures Evolves(o, o.(leaseExpiresAt := Some(at), revision := o.revision + 1))
  {
  }

  lemma DeferEvolves(o: Occurrence, id: Id, retryLimit: nat, now: int, capacity: bool)
    requires RowOk(o) && o.state.Claimed?
    ensures Evolves(o, DeferRow(o, id, retryLimit, now, capacity))
    ensures !Busy(DeferRow(o, id, retryLimit, now, capacity).state)
  {
    hide RetryDelay;
  }

  lemma FailEvolves(o: Occurrence, now: int, code: string)
    requires RowOk(o) && Active(o.state)
    ensures Evolves(o, FailRow(o, now, code))
  {
  }

  lemma ReconcileEvolves(o: Occurrence, run: Option<RunRow>, now: int)
    requires RowOk(o) && Busy(o.state) && o.runId.Some?
    ensures Evolves(o, ReconcileRow(o, run, now))
    ensures Active(ReconcileRow(o, run, now).state) ==> ReconcileRow(o, run, now) == o
  {
    hide RunDisposition;
  }

  lemma ClaimKeepsInv(db: Db, oid: Id, now: int, owner: Id, lease: int)
    requires Inv(db) && ClaimOne(db, oid, now, owner, lease).Ok?
    ensures Inv(ClaimOne(db, oid, now, owner, lease).value)
  {
    hide Inv, Evolves, RowOk, LinkOk, Captured, BusyOccurrences;
    RowFacts(db, oid);
    DueOrClaimedUnlinked(db.occurrences[oid]);
    GrantEvolves(db.occurrences[oid], now, owner, lease);
    PutKeepsInv(db, oid, GrantLease(db.occurrences[oid], now, owner, lease));
  }

  lemma DueOrClaimedUnlinked(o: Occurrence)
    requires RowOk(o) && (o.state.Due? || o.state.Claimed?)
    ensures o.runId.None?
  {
  }

  lemma ReclaimKeepsInv(db: Db, oid: Id, now: int, owner: Id, lease: int)
    requires Inv(db) && ReclaimOne(db, oid, now, owner, lease).Ok?
    ensures Inv(ReclaimOne(db, oid, now, owner, lease).value)
  {
    hide Inv, Evolves, RowOk, LinkOk, Captured, BusyOccurrences;
    RowFacts(db, oid);
    GrantEvolves(db.occurrences[oid], now, owner, lease);
    PutKeepsInv(db, oid, GrantLease(db.occurrences[oid], now, owner, lease));
  }

  lemma RenewKeepsInv(db: Db, claim: OccurrenceClaim, now: int, lease: int)
    requires Inv(db) && Renew(db, claim, now, lease).Ok?
    ensures Inv(Renew(db, claim, now, lease).value)
  {
    hide Inv, Evolves, RowOk, LinkOk, Captured, BusyOccurrences;
    var o := db.occurrences[claim.occurrenceId];
    RowFacts(db, claim.occurrenceId);
    RenewEvolves(o, now + lease);
    PutKeepsInv(db, claim.occurrenceId, o.(leaseExpiresAt := Some(now + lease), revision := o.revision + 1));
  }

  lemma DeferKeepsInv(db: Db, oid: Id, now: int, capacity: bool)
    requires Inv(db) && Defer(db, oid, now, capacity).Ok?
    ensures Inv(Defer(db, oid, now, capacity).value)
  {
    hide Inv, Evolves, RowOk, LinkOk, Captured, BusyOccurrences, DeferRow;
    var o := db.occurrences[oid];
    var limit := db.automations[o.slot.automationId].retryLimit;
    RowFacts(db, oid);
    DeferEvolves(o, oid, limit, now, capacity);
    PutKeepsInv(db, oid, DeferRow(o, oid, limit, now, capacity));
  }

  lemma FailKeepsInv(db: Db, oid: Id, now: int, code: string)
    requires Inv(db) && FailClosed(db, oid, now, code).Ok?
    ensures Inv(FailClosed(db, oid, now, code).value)
  {
    hide Inv, Evolves, RowOk, LinkOk, Captured, BusyOccurrences;
    var o := db.occurrences[oid];
    RowFacts(db, oid);
    if Active(o.state) {
      FailEvolves(o, now, code);
      PutKeepsInv(db, oid, FailRow(o, now, code));
    }
  }

  lemma ReconcileKeepsInv(db: Db, oid: Id, now: int)
    requires Inv(db) && ReconcileOne(db, oid, now).Ok?
    ensures Inv(ReconcileOne(db, oid, now).value)
  {
    hide Inv, Evolves, RowOk, LinkOk, Captured, BusyOccurrences, ReconcileRow;
    var o := db.occurrences[oid];
    RowFacts(db, oid);
    var run := if o.runId.value in db.runs then Some(db.runs[o.runId.value]) else None;
    ReconcileEvolves(o, run, now);
    PutKeepsInv(db, oid, ReconcileRow(o, run, now));
  }

  // ----- creating and linking Runs -----

  lemma LiveAfterPut(runs: map<Id, RunRow>, r: Id, row: RunRow)
    ensures LiveRuns(runs[r := row]) == (LiveRuns(runs) - {r}) + (if Terminal(row.state) then {} else {r})
  {
  }

  /** The Run table after `create_run` inserted a Run under a new key. */
  function InsertRun(db: Db, run: Id, key: RunKey, request: RunRequest): Db {
    db.(runs := db.runs[run := RunRow(RunState.Created, key, request)],
        runIndex := db.runIndex[key := run])
  }

  lemma InsertRunIndexed(db: Db, run: Id, key: RunKey, request: RunRequest)
    requires RunsIndexed(db) && run !in db.runs && key !in db.runIndex
    ensures RunsIndexed(InsertRun(db, run, key, request))
  {
  }

  lemma InsertRunCapacity(db: Db, run: Id, key: RunKey, request: RunRequest)
    requires WithinCapacity(db) && run !in db.runs && |LiveRuns(db.runs)| < MAX_ACTIVE_RUNS
    ensures WithinCapacity(InsertRun(db, run, key, request))
  {
    hide BusyOccurrences;
    var after := InsertRun(db, run, key, request);
    LiveAfterPut(db.runs, run, after.runs[run]);
    assert LiveRuns(db.runs) - {run} == LiveRuns(db.runs);
    assert |LiveRuns(db.runs) + {run}| <= |LiveRuns(db.runs)| + 1;
  }

  lemma InsertRunOtherLinks(db: Db, run: Id, key: RunKey, request: RunRequest, j: Id)
    requires j in db.occurrences && LinkOk(db, j) && run !in db.runs
    requires RunKeyOf(j, db.occurrences[j]) != key
    ensures LinkOk(InsertRun(db, run, key, request), j)
  {
    hide RunRequestOf;
  }

  lemma RowsIgnoreRuns(db: Db, after: Db)
    requires RowsOk(db) && OneActive(db) && SlotsIndexed(db)
    requires after == db.(runs := after.runs, runIndex := after.runIndex)
    ensures RowsOk(after) && OneActive(after) && SlotsIndexed(after)
  {
    hide RowOk, Captured, Active;
  }

  /** A Run inserted for another key leaves the invariant intact. */
  lemma InsertRunKeeps(db: Db, run: Id, key: RunKey, request: RunRequest)
    requires Inv(db) && run !in db.runs && key !in db.runIndex && |LiveRuns(db.runs)| < MAX_ACTIVE_RUNS
    ensures var after := InsertRun(db, run, key, request);
            RowsOk(after) && OneActive(after) && SlotsIndexed(after) && RunsIndexed(after) && WithinCapacity(after)
    ensures forall j :: j in db.occurrences && RunKeyOf(j, db.occurrences[j]) != key
                        ==> LinkOk(InsertRun(db, run, key, request), j)
  {
    hide RowsOk, OneActive, SlotsIndexed, RunsIndexed, WithinCapacity, LinkOk, LiveRuns;
    RowsIgnoreRuns(db, InsertRun(db, run, key, request));
    InsertRunIndexed(db, run, key, request);
    InsertRunCapacity(db, run, key, request);
    forall j | j in db.occurrences && RunKeyOf(j, db.occurrences[j]) != key
      ensures LinkOk(InsertRun(db, run, key, request), j)
    {
      InsertRunOtherLinks(db, run, key, request, j);
    }
  }

  lemma CallerRunKeepsInv(db: Db, run: Id, text: string, request: RunRequest)
    requires Inv(db) && CreateRun(db, run, FromCaller(text), request).Ok?
    ensures Inv(CreateRun(db, run, FromCaller(text), request).value.0)
  {
    hide RowsOk, OneActive, SlotsIndexed, WithinCapacity, LinkOk, LiveRuns;
    var key := FromCaller(text);
    if key !in db.runIndex {
      InsertRunKeeps(db, run, key, request);
    }
  }

  /** What a successful link writes into the row. */
  function LinkedRow(o: Occurrence, run: Id): Occurrence {
    o.(runId := Some(run), state := RunCreated, revision := o.revision + 1, disposition := Some("run_created"))
  }

  /** A link either replays without writing, or inserts a Run and links it. */
  lemma LinkShape(db: Db, claim: OccurrenceClaim, now: int, newRun: Id)
    requires Inv(db) && CreateAndLink(db, claim, now, newRun).Ok?
    ensures var oid := claim.occurrenceId;
            && oid in db.occurrences && claim.automationId in db.automations
            && var o := db.occurrences[oid];
               if o.state.RunCreated? then CreateAndLink(db, claim, now, newRun) == Ok((db, o.runId.value))
               else
                 && ClaimHolds(db.automations[claim.automationId], o, claim, now)
                 && newRun !in db.runs && RunKeyOf(oid, o) !in db.runIndex
                 && |LiveRuns(db.runs)| < MAX_ACTIVE_RUNS
                 && CreateAndLink(db, claim, now, newRun)
                    == Ok((Put(InsertRun(db, newRun, RunKeyOf(oid, o), RunRequestOf(o)), oid, LinkedRow(o, newRun)), newRun))
  {
    hide RowsOk, OneActive, SlotsIndexed, RunsIndexed, WithinCapacity, LinksOk, LiveRuns, RunRequestOf, Captured, Schedulable;
    RowFacts(db, claim.occurrenceId);
  }

  /** The link: an unlinked claimed row and the Run just inserted under its key. */
  lemma LinkKeepsInv(db: Db, claim: OccurrenceClaim, now: int, newRun: Id)
    requires Inv(db) && CreateAndLink(db, claim, now, newRun).Ok?
    ensures Inv(CreateAndLink(db, claim, now, newRun).value.0)
  {
    hide CreateAndLink, RowsOk, OneActive, SlotsIndexed, RunsIndexed, WithinCapacity, LinkOk, LiveRuns, RunRequestOf;
    LinkShape(db, claim, now, newRun);
    var oid := claim.occurrenceId;
    var o := db.occurrences[oid];
    if !o.state.RunCreated? {
      var key := RunKeyOf(oid, o);
      InsertRunKeeps(db, newRun, key, RunRequestOf(o));
      LinkRow(InsertRun(db, newRun, key, RunRequestOf(o)), oid, newRun);
    }
  }

  lemma LinkRow(db: Db, oid: Id, run: Id)
    requires RowsOk(db) && OneActive(db) && SlotsIndexed(db) && RunsIndexed(db) && WithinCapacity(db)
    requires oid in db.occurrences && db.occurrences[oid].state.Claimed?
    requires run in db.runs
             && db.runs[run].key == RunKeyOf(oid, db.occurrences[oid])
             && db.runs[run].request == RunRequestOf(db.occurrences[oid])
    requires forall j :: j in db.occurrences && j != oid ==> LinkOk(db, j)
    requires forall r :: r in db.runs && db.runs[r].key.ForOccurrence? ==>
               db.runs[r].key.occurrenceId in db.occurrences
    ensures Inv(Put(db, oid, LinkedRow(db.occurrences[oid], run)))
  {
    hide OneActive, SlotsIndexed, RunsIndexed, WithinCapacity, LinkOk, Captured, Evolves;
    var o := db.occurrences[oid];
    var p := LinkedRow(o, run);
    LinkedEvolves(o, run);
    LinkedRows(db, oid, p);
    PutKeepsCapacity(db, oid, p);
    forall j | j in Put(db, oid, p).occurrences ensures LinkOk(Put(db, oid, p), j) {
      LinkRowLinks(db, oid, run, j);
    }
  }

  lemma LinkedEvolves(o: Occurrence, run: Id)
    requires RowOk(o) && o.state.Claimed?
    ensures Evolves(o.(runId := Some(run)), LinkedRow(o, run))
  {
  }

  lemma LinkRowLinks(db: Db, oid: Id, run: Id, j: Id)
    requires oid in db.occurrences && j in db.occurrences && run in db.runs
    requires db.runs[run].key == RunKeyOf(oid, db.occurrences[oid])
             && db.runs[run].request == RunRequestOf(db.occurrences[oid])
    requires j != oid ==> LinkOk(db, j)
    ensures LinkOk(Put(db, oid, LinkedRow(db.occurrences[oid], run)), j)
  {
  }

  lemma LinkedRows(db: Db, oid: Id, p: Occurrence)
    requires RowsOk(db) && OneActive(db) && SlotsIndexed(db) && RunsIndexed(db) && oid in db.occurrences
    requires Evolves(db.occurrences[oid].(runId := p.runId), p)
    ensures var after := Put(db, oid, p);
            RowsOk(after) && OneActive(after) && SlotsIndexed(after) && RunsIndexed(after)
  {
    var o := db.occurrences[oid];
    assert o.slot.automationId in db.automations;
    EvolvesFacts(o, p);
    SameCaptureLinked(o, p, db.automations[o.slot.automationId], db.clock);
    LinkedIndexes(db, oid, p);
    hide RowOk, Active, Captured, Evolves, OneActive, SlotsIndexed, RunsIndexed;
  }

  lemma LinkedIndexes(db: Db, oid: Id, p: Occurrence)
    requires OneActive(db) && SlotsIndexed(db) && RunsIndexed(db) && oid in db.occurrences
    requires p.slot == db.occurrences[oid].slot && (Active(p.state) ==> Active(db.occurrences[oid].state))
    ensures OneActive(Put(db, oid, p)) && SlotsIndexed(Put(db, oid, p)) && RunsIndexed(Put(db, oid, p))
  {
    hide Active;
  }

  lemma EvolvesFacts(o: Occurrence, p: Occurrence)
    requires Evolves(o.(runId := p.runId), p)
    ensures RowOk(p) && p.slot == o.slot && (Active(p.state) ==> Active(o.state))
  {
  }

  lemma SameCaptureLinked(o: Occurrence, p: Occurrence, a: Automation, clock: int)
    requires Captured(o, a, clock) && Evolves(o.(runId := p.runId), p)
    ensures Captured(p, a, clock)
  {
  }

  lemma RunStepKeepsInv(db: Db, run: Id, to: RunState)
    requires Inv(db) && run in db.runs && LegalTransition(db.runs[run].state, to)
    ensures Inv(db.(runs := db.runs[run := db.runs[run].(state := to)]))
  {
    hide RowsOk, OneActive, SlotsIndexed, WithinCapacity, LinkOk, LegalTransition;
    var after := db.(runs := db.runs[run := db.runs[run].(state := to)]);
    RowsIgnoreRuns(db, after);
    RunStepCapacity(db, run, to);
    forall j | j in after.occurrences ensures LinkOk(after, j) {
      RunStepLinks(db, run, to, j);
    }
  }

  lemma RunStepCapacity(db: Db, run: Id, to: RunState)
    requires WithinCapacity(db) && run in db.runs && LegalTransition(db.runs[run].state, to)
    ensures WithinCapacity(db.(runs := db.runs[run := db.runs[run].(state := to)]))
  {
    LiveAfterPut(db.runs, run, db.runs[run].(state := to));
    var live := LiveRuns(db.runs);
    assert run in live;
    hide BusyOccurrences, LiveRuns, LegalTransition, Terminal;
    CountAfterSwap(live, run, !Terminal(to));
  }

  lemma RunStepLinks(db: Db, run: Id, to: RunState, j: Id)
    requires j in db.occurrences && LinkOk(db, j) && run in db.runs
    ensures LinkOk(db.(runs := db.runs[run := db.runs[run].(state := to)]), j)
  {
    hide RunRequestOf;
  }

  // ----- materialising slots -----

  /** Catch-up never moves back, and what follows is later still. */
  lemma {:induction false} AdvanceBounds(d: Schedule.Definition, p: Schedule.SchedulePoint, now: int, tick: int, last: int)
    requires tick <= last && CatchUp.Advance(d, p, now, tick, last).Ok?
    ensures var due := CatchUp.Advance(d, p, now, tick, last).value;
            && p.instant <= due.latest.instant
            && (p.instant <= now ==> due.latest.instant <= now)
            && (due.following.Some? ==> due.latest.instant < due.following.value.instant && now < due.following.value.instant)
    decreases last - tick
  {
    hide Recurrence.NextPoint;
    var next := Recurrence.NextPoint(d, p.instant, Some(p));
    if next.value.Some? {
      Recurrence.SlotsComeLater(d, p.instant, Some(p));
      if next.value.value.instant <= now {
        AdvanceBounds(d, next.value.value, now, tick + 1, last);
      }
    }
  }

  /** A due automation has no active occurrence: the same-slot exception of the query never applies. */
  lemma DueMeansIdle(db: Db, aid: Id, now: int)
    requires Inv(db) && IsDueAutomation(db, aid, now)
    ensures forall i :: i in db.occurrences && db.occurrences[i].slot.automationId == aid
                        ==> !Active(db.occurrences[i].state)
  {
    hide OneActive, SlotsIndexed, RunsIndexed, LinksOk, WithinCapacity;
    forall i | i in db.occurrences && db.occurrences[i].slot.automationId == aid
      ensures !Active(db.occurrences[i].state)
    {
      assert Captured(db.occurrences[i], db.automations[aid], db.clock);
    }
  }

  /** Materialising always inserts: the computed slot is new. */
  lemma SlotIsNew(db: Db, aid: Id, at: int)
    requires Inv(db) && aid in db.automations && db.automations[aid].nextAt.Some?
    requires db.automations[aid].nextAt.value <= at
    ensures Slot(aid, db.automations[aid].scheduleRevision, at) !in db.slotIndex
  {
    hide OneActive, RunsIndexed, LinksOk, WithinCapacity;
    var slot := Slot(aid, db.automations[aid].scheduleRevision, at);
    assert slot in db.slotIndex ==>
        Captured(db.occurrences[db.slotIndex[slot]], db.automations[aid], db.clock);
  }

  /** The rows after an automation got one new occurrence and moved on to `next`. */
  function Inserted(db: Db, aid: Id, newId: Id, o: Occurrence, next: Option<int>): Db
    requires aid in db.automations
  {
    Put(db, newId, o)
      .(slotIndex := db.slotIndex[o.slot := newId],
        automations := db.automations[aid := db.automations[aid].(nextAt := next)])
  }

  lemma MaterializeShape(db: Db, aid: Id, newId: Id, now: int) returns (at: int, next: Option<int>)
    requires Inv(db) && Materialize(db, aid, newId, now).Ok?
    ensures aid in db.automations && newId !in db.occurrences && IsDueAutomation(db, aid, now)
    ensures db.automations[aid].nextAt.value <= at <= Minute(now)
    ensures next.Some? ==> at < next.value && Minute(now) < next.value
    ensures Slot(aid, db.automations[aid].scheduleRevision, at) !in db.slotIndex
    ensures Materialize(db, aid, newId, now)
            == Ok(Inserted(db, aid, newId,
                           NewOccurrence(db.automations[aid],
                                         Slot(aid, db.automations[aid].scheduleRevision, at), now), next))
  {
    hide Inv, IsDueAutomation, CatchUp.Advance, Minute, Schedule.ScheduledPoint;
    DueNext(db, aid, now);
    var a := db.automations[aid];
    AdvanceBounds(a.schedule, Schedule.ScheduledPoint(a.schedule.zone, a.nextAt.value), Minute(now),
                  a.nextAt.value, a.nextAt.value + CatchUp.CATCH_UP_LIMIT - 1);
    RebuiltInstant(a.schedule.zone, a.nextAt.value);
    var due := CatchUp.LatestDueAndFuture(a.schedule, a.nextAt, Minute(now)).value;
    at := due.latest.instant;
    next := if due.following.None? then None else Some(due.following.value.instant);
    SlotIsNew(db, aid, at);
  }

  lemma DueNext(db: Db, aid: Id, now: int)
    requires IsDueAutomation(db, aid, now)
    ensures aid in db.automations && db.automations[aid].nextAt.Some?
            && db.automations[aid].nextAt.value <= Minute(now)
  {
  }

  lemma RebuiltInstant(z: Zone.Zone, at: int)
    ensures Schedule.ScheduledPoint(z, at).instant == at
  {
  }

  lemma NewRowOk(a: Automation, slot: Slot, now: int, clock: int)
    requires slot.scheduleRevision == a.scheduleRevision && slot.at <= Minute(clock)
    requires a.nextAt.Some? ==> slot.at < a.nextAt.value
    ensures RowOk(NewOccurrence(a, slot, now)) && Captured(NewOccurrence(a, slot, now), a, clock)
    ensures !Busy(NewOccurrence(a, slot, now).state) && NewOccurrence(a, slot, now).runId.None?
  {
  }

  lemma MinuteMonotone(now: int, clock: int)
    requires now <= clock
    ensures Minute(now) <= Minute(clock)
  {
  }

  /** Moving `nextAt` forward keeps every capture. */
  lemma CaptureAfterAdvance(o: Occurrence, a: Automation, next: Option<int>, clock: int)
    requires Captured(o, a, clock) && a.nextAt.Some?
    requires next.Some? ==> a.nextAt.value <= next.value
    ensures Captured(o, a.(nextAt := next), clock)
  {
  }

  lemma InsertedRows(db: Db, aid: Id, newId: Id, o: Occurrence, next: Option<int>)
    requires RowsOk(db) && aid in db.automations && db.automations[aid].nextAt.Some? && newId !in db.occurrences
    requires next.Some? ==> db.automations[aid].nextAt.value <= next.value
    requires o.slot.automationId == aid && RowOk(o)
    requires Captured(o, db.automations[aid].(nextAt := next), db.clock)
    ensures RowsOk(Inserted(db, aid, newId, o, next))
  {
    hide RowOk, Captured;
    var after := Inserted(db, aid, newId, o, next);
    forall i | i in after.occurrences
      ensures RowOk(after.occurrences[i])
              && after.occurrences[i].slot.automationId in after.automations
              && Captured(after.occurrences[i], after.automations[after.occurrences[i].slot.automationId], after.clock)
    {
      if i != newId && db.occurrences[i].slot.automationId == aid {
        CaptureAfterAdvance(db.occurrences[i], db.automations[aid], next, db.clock);
      }
    }
  }

  lemma InsertedIndexes(db: Db, aid: Id, newId: Id, o: Occurrence, next: Option<int>)
    requires OneActive(db) && SlotsIndexed(db) && RunsIndexed(db)
    requires aid in db.automations && newId !in db.occurrences
    requires o.slot.automationId == aid && o.slot !in db.slotIndex
    requires forall i :: i in db.occurrences && db.occurrences[i].slot.automationId == aid
                         ==> !Active(db.occurrences[i].state)
    ensures var after := Inserted(db, aid, newId, o, next);
            OneActive(after) && SlotsIndexed(after) && RunsIndexed(after)
  {
    hide OneActive, SlotsIndexed;
    InsertedOneActive(db, aid, newId, o, next);
    InsertedSlots(db, aid, newId, o, next);
  }

  lemma InsertedOneActive(db: Db, aid: Id, newId: Id, o: Occurrence, next: Option<int>)
    requires OneActive(db) && aid in db.automations && newId !in db.occurrences && o.slot.automationId == aid
    requires forall i :: i in db.occurrences && db.occurrences[i].slot.automationId == aid
                         ==> !Active(db.occurrences[i].state)
    ensures OneActive(Inserted(db, aid, newId, o, next))
  {
    hide Active;
  }

  lemma InsertedSlots(db: Db, aid: Id, newId: Id, o: Occurrence, next: Option<int>)
    requires SlotsIndexed(db) && aid in db.automations && newId !in db.occurrences && o.slot !in db.slotIndex
    ensures SlotsIndexed(Inserted(db, aid, newId, o, next))
  {
  }

  lemma InsertedLinks(db: Db, aid: Id, newId: Id, o: Occurrence, next: Option<int>)
    requires LinksOk(db) && RunsIndexed(db) && aid in db.automations && newId !in db.occurrences && o.runId.None?
    ensures LinksOk(Inserted(db, aid, newId, o, next))
  {
    hide RunRequestOf;
    var after := Inserted(db, aid, newId, o, next);
    forall i | i in after.occurrences ensures LinkOk(after, i) {
      if i != newId {
        assert LinkOk(db, i);
      }
    }
  }

  lemma InsertedCapacity(db: Db, aid: Id, newId: Id, o: Occurrence, next: Option<int>)
    requires WithinCapacity(db) && aid in db.automations && newId !in db.occurrences && !Busy(o.state)
    ensures WithinCapacity(Inserted(db, aid, newId, o, next))
  {
    hide LiveRuns;
    BusyAfterPut(db.occurrences, newId, o);
    assert BusyOccurrences(db.occurrences) - {newId} == BusyOccurrences(db.occurrences);
  }

  lemma MaterializeKeepsInv(db: Db, aid: Id, newId: Id, now: int)
    requires Inv(db) && now <= db.clock && Materialize(db, aid, newId, now).Ok?
    ensures Inv(Materialize(db, aid, newId, now).value)
  {
    hide Materialize, RowsOk, OneActive, SlotsIndexed, RunsIndexed, LinksOk, WithinCapacity, RowOk, Captured,
         NewOccurrence, IsDueAutomation, Minute;
    var at, next := MaterializeShape(db, aid, newId, now);
    var a := db.automations[aid];
    var slot := Slot(aid, a.scheduleRevision, at);
    var o := NewOccurrence(a, slot, now);
    DueNext(db, aid, now);
    DueMeansIdle(db, aid, now);
    MinuteMonotone(now, db.clock);
    NewRowOk(a.(nextAt := next), slot, now, db.clock);
    NewIgnoresNext(a, slot, now, next);
    InsertedRows(db, aid, newId, o, next);
    InsertedIndexes(db, aid, newId, o, next);
    InsertedLinks(db, aid, newId, o, next);
    InsertedCapacity(db, aid, newId, o, next);
  }

  /** Only the disposition depends on `nextAt`. */
  lemma NewIgnoresNext(a: Automation, slot: Slot, now: int, next: Option<int>)
    ensures var o, p := NewOccurrence(a, slot, now), NewOccurrence(a.(nextAt := next), slot, now);
            o.slot == slot && (RowOk(p) ==> RowOk(o)) && o.state == p.state && o.runId == p.runId
            && forall b, clock :: Captured(p, b, clock) ==> Captured(o, b, clock)
  {
  }

  // ----- operator edits -----

  /** Every edit bumps the revision; a new schedule bumps the schedule revision; slots only move forward. */
  ghost predicate Edited(a: Automation, b: Automation, clock: int) {
    && b.revision == a.revision + 1
    && ((b.scheduleRevision == a.scheduleRevision
         && (b.nextAt == a.nextAt || b.nextAt.None? || b.nextAt.value > Minute(clock)))
        || b.scheduleRevision == a.scheduleRevision + 1)
  }

  lemma EditKeepsCapture(o: Occurrence, a: Automation, b: Automation, clock: int)
    requires Captured(o, a, clock) && Edited(a, b, clock)
    ensures Captured(o, b, clock)
  {
  }

  lemma EditKeepsInv(db: Db, aid: Id, b: Automation)
    requires Inv(db) && aid in db.automations && Edited(db.automations[aid], b, db.clock)
    ensures Inv(PutAutomation(db, aid, b))
  {
    hide Edited, RowOk, Captured, Active, RunRequestOf;
    var after := PutAutomation(db, aid, b);
    assert RowsOk(after) by {
      forall i | i in after.occurrences
        ensures RowOk(after.occurrences[i])
                && after.occurrences[i].slot.automationId in after.automations
                && Captured(after.occurrences[i], after.automations[after.occurrences[i].slot.automationId], after.clock)
      {
        if db.occurrences[i].slot.automationId == aid {
          EditKeepsCapture(db.occurrences[i], db.automations[aid], b, db.clock);
        }
      }
    }
    RestIgnoresAutomations(db, after);
  }

  lemma RestIgnoresAutomations(db: Db, after: Db)
    requires OneActive(db) && SlotsIndexed(db) && RunsIndexed(db) && LinksOk(db) && WithinCapacity(db)
    requires after == db.(automations := after.automations, clock := after.clock, projects := after.projects)
    ensures OneActive(after) && SlotsIndexed(after) && RunsIndexed(after) && LinksOk(after) && WithinCapacity(after)
  {
    hide Active, RunRequestOf, BusyOccurrences, LiveRuns;
    forall i | i in after.occurrences ensures LinkOk(after, i) {
      assert LinkOk(db, i);
    }
  }

  lemma NewAutomationKeepsInv(db: Db, aid: Id, b: Automation)
    requires Inv(db) && aid !in db.automations
    ensures Inv(PutAutomation(db, aid, b))
  {
    hide RowOk, Captured, OneActive, SlotsIndexed, RunsIndexed, LinksOk, WithinCapacity;
    RestIgnoresAutomations(db, PutAutomation(db, aid, b));
  }

  lemma FutureSlotIsLater(schedule: Schedule.Definition, now: int)
    requires FirstFutureSlot(schedule, now).Ok?
    ensures FirstFutureSlot(schedule, now).value > Minute(now)
  {
    hide Recurrence.NextPoint, Minute;
    Recurrence.SlotsComeLater(schedule, Minute(now), None);
  }

  /** The six lifecycle transactions are edits of one automation. */
  lemma UpdateIsEdit(db: Db, aid: Id, expected: nat, patch: Patch) returns (b: Automation)
    requires UpdateAutomation(db, aid, expected, patch).Ok?
    ensures aid in db.automations && Edited(db.automations[aid], b, db.clock)
    ensures UpdateAutomation(db, aid, expected, patch).value == PutAutomation(db, aid, b)
  {
    hide FirstFutureSlot, Minute, ScopeValid, ModeValid, Schedule.ValidDefinition;
    b := UpdateAutomation(db, aid, expected, patch).value.automations[aid];
    if patch.schedule.Some? && !db.automations[aid].lifecycle.Draft? {
      FutureSlotIsLater(patch.schedule.value, db.clock);
    }
  }

  lemma ActivateIsEdit(db: Db, aid: Id, expected: nat, from: Lifecycle) returns (b: Automation)
    requires Activate(db, aid, expected, from).Ok?
    ensures aid in db.automations && Edited(db.automations[aid], b, db.clock)
    ensures Activate(db, aid, expected, from).value == PutAutomation(db, aid, b)
  {
    hide FirstFutureSlot, Minute, ScopeValid;
    b := Activate(db, aid, expected, from).value.automations[aid];
    FutureSlotIsLater(db.automations[aid].schedule, db.clock);
  }

  lemma OtherEditsKeepInv(db: Db, aid: Id, expected: nat, mode: ExecutionMode)
    requires Inv(db)
    ensures Pause(db, aid, expected).Ok? ==> Inv(Pause(db, aid, expected).value)
    ensures CancelAutomation(db, aid, expected).Ok? ==> Inv(CancelAutomation(db, aid, expected).value)
    ensures SetExecutionMode(db, aid, expected, mode).Ok? ==> Inv(SetExecutionMode(db, aid, expected, mode).value)
  {
    hide Inv, ModeValid;
    if LockExpected(db, aid, expected).Ok? {
      var a := db.automations[aid];
      EditKeepsInv(db, aid, a.(lifecycle := Paused, revision := a.revision + 1));
      EditKeepsInv(db, aid, a.(lifecycle := Lifecycle.Cancelled, nextAt := None, revision := a.revision + 1));
      EditKeepsInv(db, aid, a.(snapshot := a.snapshot.(mode := mode), revision := a.revision + 1));
    }
  }

  // ----- clock and projects -----

  lemma ClockKeepsInv(db: Db, now: int)
    requires Inv(db) && now >= db.clock
    ensures Inv(db.(clock := now))
  {
    hide RowOk, OneActive, SlotsIndexed, RunsIndexed, LinksOk, WithinCapacity, Minute;
    MinuteMonotone(db.clock, now);
    RestIgnoresAutomations(db, db.(clock := now));
  }

  lemma ProjectKeepsInv(db: Db, p: Id)
    requires Inv(db)
    ensures Inv(db.(projects := db.projects + {p}))
  {
    hide RowOk, Captured, OneActive, SlotsIndexed, RunsIndexed, LinksOk, WithinCapacity;
    RestIgnoresAutomations(db, db.(projects := db.projects + {p}));
  }

  // ----- every step, every run -----

  /** Each transaction that commits keeps the invariant. */
  lemma AttemptKeepsInv(db: Db, s: Step)
    requires Inv(db) && ClockAllows(db, s) && Attempt(db, s).Ok?
    ensures Inv(Attempt(db, s).value)
  {
    hide Inv, Materialize, ClaimOne, ReclaimOne, Renew, CreateAndLink, Defer, FailClosed, ReconcileOne,
         UpdateAutomation, SetExecutionMode, Activate, Pause, CancelAutomation, CreateRun, LegalTransition,
         ScopeValid, ModeValid, Schedule.ValidDefinition;
    match s
    case MaterializeStep(aid, oid, now) => MaterializeKeepsInv(db, aid, oid, now);
    case ClaimStep(oid, now, owner, lease) => ClaimKeepsInv(db, oid, now, owner, lease);
    case ReclaimStep(oid, now, owner, lease) => ReclaimKeepsInv(db, oid, now, owner, lease);
    case RenewStep(claim, now, lease) => RenewKeepsInv(db, claim, now, lease);
    case LinkStep(claim, now, run) => LinkKeepsInv(db, claim, now, run);
    case DeferStep(oid, now, capacity) => DeferKeepsInv(db, oid, now, capacity);
    case FailStep(oid, now, code) => FailKeepsInv(db, oid, now, code);
    case ReconcileStep(oid, now) => ReconcileKeepsInv(db, oid, now);
    case CreateStep(aid, title, t, schedule, policy, retries) =>
      NewAutomationKeepsInv(db, aid, Automation(title, t, Draft, 0, 0, schedule, policy, retries, None));
    case UpdateStep(aid, expected, patch) =>
      var b := UpdateIsEdit(db, aid, expected, patch);
      EditKeepsInv(db, aid, b);
    case EnableStep(aid, expected) =>
      var b := ActivateIsEdit(db, aid, expected, Draft);
      EditKeepsInv(db, aid, b);
    case ResumeStep(aid, expected) =>
      var b := ActivateIsEdit(db, aid, expected, Paused);
      EditKeepsInv(db, aid, b);
    case ModeStep(aid, expected, mode) => OtherEditsKeepInv(db, aid, expected, mode);
    case PauseStep(aid, expected) => OtherEditsKeepInv(db, aid, expected, CreateOnly);
    case CancelStep(aid, expected) => OtherEditsKeepInv(db, aid, expected, CreateOnly);
    case CallerRunStep(run, text, request) => CallerRunKeepsInv(db, run, text, request);
    case RunStep(run, to) => RunStepKeepsInv(db, run, to);
    case ProjectStep(p) => ProjectKeepsInv(db, p);
    case ClockStep(now) => ClockKeepsInv(db, now);
  }

  lemma EmptyInv()
    ensures Inv(EMPTY)
  {
    assert BusyOccurrences(EMPTY.occurrences) == {};
    assert LiveRuns(EMPTY.runs) == {};
  }

  /** The invariant holds after every interleaving of steps from a state that has it. */
  lemma {:induction false} RunKeepsInv(db: Db, steps: seq<Step>)
    requires Inv(db)
    ensures Inv(Run(db, steps))
    decreases |steps|
  {
    hide Inv, Attempt, ClockAllows;
    if steps != [] {
      if ClockAllows(db, steps[0]) && Attempt(db, steps[0]).Ok? {
        AttemptKeepsInv(db, steps[0]);
      }
      RunKeepsInv(Apply(db, steps[0]), steps[1..]);
    }
  }
}
