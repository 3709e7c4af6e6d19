/**
 What the scheduler guarantees over whole runs: exactly-once linking, write-once history,
 fencing of superseded claims, and strictly increasing slots.
 */
module SchedulerSafety {
  import opened Wrappers
  import opened AgentRunStates
  import opened SchedulerRows
  import opened SchedulerSteps
  import opened SchedulerInvariant

  // ----- one state -----

  /** A Run with an occurrence's key exists exactly if the occurrence is linked to that Run. */
  ghost predicate ExactlyOnce(db: Db) {
    && (forall i, r :: i in db.occurrences && r in db.runs ==>
          (db.runs[r].key == RunKeyOf(i, db.occurrences[i]) <==> db.occurrences[i].runId == Some(r)))
    && (forall i :: i in db.occurrences && db.occurrences[i].runId.Some? ==>
          db.occurrences[i].runId.value in db.runs)
    && (forall i, j :: i in db.occurrences && j in db.occurrences
                       && db.occurrences[i].runId.Some? && db.occurrences[i].runId == db.occurrences[j].runId
                       ==> i == j)
  }

  ghost predicate StateTellsLink(o: Occurrence) {
    && (o.state.Due? || o.state.Claimed? || o.state.Missed? ==> o.runId.None?)
    && (o.state.RunCreated? || o.state.Completed? ==> o.runId.Some?)
  }

  lemma InvGivesExactlyOnce(db: Db)
    requires Inv(db)
    ensures ExactlyOnce(db)
    ensures forall i :: i in db.occurrences ==> StateTellsLink(db.occurrences[i])
  {
    hide RowsOk, OneActive, SlotsIndexed, RunsIndexed, LinksOk, WithinCapacity, RunRequestOf;
    forall i | i in db.occurrences
      ensures StateTellsLink(db.occurrences[i])
      ensures db.occurrences[i].runId.Some? ==>
                db.occurrences[i].runId.value in db.runs
                && db.runs[db.occurrences[i].runId.value].key == RunKeyOf(i, db.occurrences[i])
    {
      RowFacts(db, i);
    }
    forall i, r | i in db.occurrences && r in db.runs && db.runs[r].key == RunKeyOf(i, db.occurrences[i])
      ensures db.occurrences[i].runId == Some(r)
    {
      RowFacts(db, i);
      KeyFindsRun(db, r);
      if db.occurrences[i].runId.Some? {
        KeyFindsRun(db, db.occurrences[i].runId.value);
      }
    }
  }

  lemma KeyFindsRun(db: Db, r: Id)
    requires Inv(db) && r in db.runs
    ensures db.runs[r].key in db.runIndex && db.runIndex[db.runs[r].key] == r
  {
    hide RowsOk, OneActive, SlotsIndexed, LinksOk, WithinCapacity;
  }

  /** Safety of every state that any interleaving can reach. */
  lemma ReachableSafety(steps: seq<Step>)
    ensures var db := Run(EMPTY, steps);
            && ExactlyOnce(db) && OneActive(db)
            && |BusyOccurrences(db.occurrences)| <= 32 && |LiveRuns(db.runs)| <= 32
            && (forall i :: i in db.occurrences ==> StateTellsLink(db.occurrences[i]))
            && (forall i :: i in db.occurrences ==> db.occurrences[i].attemptCount <= 3)
  {
    hide OneActive, SlotsIndexed, RunsIndexed, LinksOk, ExactlyOnce, Captured, BusyOccurrences, LiveRuns;
    EmptyInv();
    RunKeepsInv(EMPTY, steps);
    InvGivesExactlyOnce(Run(EMPTY, steps));
  }

  /** The two defensive branches of reconciliation, a missing Run and a claimed linked row, are dead. */
  lemma ReconcileSeesRun(db: Db, oid: Id)
    requires Inv(db) && IsLinked(db, oid)
    ensures db.occurrences[oid].runId.value in db.runs && db.occurrences[oid].state.RunCreated?
  {
    hide Inv, RunRequestOf;
    RowFacts(db, oid);
  }

  /** Reconciliation tells what the Run did: completed, ended otherwise, or still at work. */
  lemma ReconcileProjectsRun(db: Db, oid: Id, now: int)
    requires Inv(db) && IsLinked(db, oid)
    ensures ReconcileOne(db, oid, now).Ok?
    ensures
      var row := ReconcileOne(db, oid, now).value.occurrences[oid];
      var run := db.runs[db.occurrences[oid].runId.value];
      && row.runId == db.occurrences[oid].runId
      && (row.state.Completed? <==> run.state.Completed?)
      && (row.state.Failed? <==> Terminal(run.state) && !run.state.Completed?)
      && (row.state.RunCreated? <==> !Terminal(run.state))
      && (row.errorCode.Some? && row.errorCode != db.occurrences[oid].errorCode ==> row.state.Failed?)
      && (!Terminal(run.state) ==> row == db.occurrences[oid])
  {
    ReconcileSeesRun(db, oid);
    hide Inv;
  }

  /**
   Materialising consumes everything due: one occurrence, missed or due by the policy alone, and the
   automation is not due again before its next slot.  Which slot it is `SchedulerSlots` says.
   */
  lemma MaterializeConsumesDue(db: Db, aid: Id, newId: Id, now: int)
    requires Inv(db) && Materialize(db, aid, newId, now).Ok?
    ensures
      var after := Materialize(db, aid, newId, now).value;
      && after.occurrences.Keys == db.occurrences.Keys + {newId} && newId !in db.occurrences
      && after.occurrences[newId].slot.automationId == aid && after.occurrences[newId].slot.at <= Minute(now)
      && (after.occurrences[newId].state.Missed? <==> db.automations[aid].missedPolicy.Skip?)
      && (after.occurrences[newId].state.Due? <==> db.automations[aid].missedPolicy.RunOnce?)
      && !IsDueAutomation(after, aid, now)
  {
    hide Inv, Materialize, IsDueAutomation, Minute;
    var at, next := MaterializeShape(db, aid, newId, now);
    var after := Materialize(db, aid, newId, now).value;
    if IsDueAutomation(after, aid, now) { DueNext(after, aid, now); }
  }

  /** A repeated link, after a crash or by another tick, finds the Run and writes nothing. */
  lemma LinkIsIdempotent(db: Db, claim: OccurrenceClaim, now: int, newRun: Id, later: int, another: Id)
    requires Inv(db) && CreateAndLink(db, claim, now, newRun).Ok?
    ensures var (after, run) := CreateAndLink(db, claim, now, newRun).value;
            CreateAndLink(after, claim, later, another) == Ok((after, run))
  {
    hide Inv, CreateAndLink, RunRequestOf, RunKeyOf;
    LinkShape(db, claim, now, newRun);
    LinkKeepsInv(db, claim, now, newRun);
    var (after, run) := CreateAndLink(db, claim, now, newRun).value;
    RowFacts(after, claim.occurrenceId);
    ReplayFinds(after, claim, run, later, another);
  }

  lemma ReplayFinds(db: Db, claim: OccurrenceClaim, run: Id, now: int, newRun: Id)
    requires Inv(db) && claim.occurrenceId in db.occurrences && claim.automationId in db.automations
    requires db.occurrences[claim.occurrenceId].state.RunCreated?
             && db.occurrences[claim.occurrenceId].runId == Some(run)
    ensures CreateAndLink(db, claim, now, newRun) == Ok((db, run))
  {
    hide Inv, RunRequestOf, ClaimHolds, CreateRun;
    RowFacts(db, claim.occurrenceId);
    KeyFindsRun(db, run);
  }

  // ----- how rows may change -----

  /** Identity and capture never change, the link is written once, terminal rows are frozen. */
  ghost predicate RowHistory(o: Occurrence, p: Occurrence) {
    && p.slot == o.slot && p.automationRevision == o.automationRevision
    && p.snapshot == o.snapshot && p.title == o.title
    && (o.runId.Some? ==> p.runId == o.runId)
    && (TerminalOccurrence(o.state) ==> p == o)
    && o.leaseGeneration <= p.leaseGeneration
  }

  ghost predicate RunHistory(a: RunRow, b: RunRow) {
    b.key == a.key && b.request == a.request && (Terminal(a.state) ==> b.state == a.state)
  }

  ghost predicate History(db: Db, after: Db) {
    && (forall i :: i in db.occurrences ==>
          i in after.occurrences && RowHistory(db.occurrences[i], after.occurrences[i]))
    && (forall r :: r in db.runs ==> r in after.runs && RunHistory(db.runs[r], after.runs[r]))
    && (forall a :: a in db.automations ==>
          a in after.automations && db.automations[a].revision <= after.automations[a].revision)
  }

  lemma PutHistory(db: Db, i: Id, p: Occurrence)
    requires i in db.occurrences && RowHistory(db.occurrences[i], p)
    ensures History(db, Put(db, i, p))
  {
    hide TerminalOccurrence, Terminal;
  }

  lemma GrantHistory(db: Db, oid: Id, now: int, owner: Id, lease: int)
    ensures ClaimOne(db, oid, now, owner, lease).Ok? ==> History(db, ClaimOne(db, oid, now, owner, lease).value)
    ensures ReclaimOne(db, oid, now, owner, lease).Ok? ==> History(db, ReclaimOne(db, oid, now, owner, lease).value)
  {
    hide History, BusyOccurrences;
    if oid in db.occurrences && Active(db.occurrences[oid].state) {
      PutHistory(db, oid, GrantLease(db.occurrences[oid], now, owner, lease));
    }
  }

  lemma LinkHistory(db: Db, claim: OccurrenceClaim, now: int, newRun: Id)
    requires Inv(db) && CreateAndLink(db, claim, now, newRun).Ok?
    ensures History(db, CreateAndLink(db, claim, now, newRun).value.0)
  {
    hide Inv, CreateAndLink, RunRequestOf, RunKeyOf, LiveRuns;
    LinkShape(db, claim, now, newRun);
    RowFacts(db, claim.occurrenceId);
  }

  lemma CreateRunHistory(db: Db, run: Id, key: RunKey, request: RunRequest)
    requires CreateRun(db, run, key, request).Ok?
    ensures History(db, CreateRun(db, run, key, request).value.0)
  {
    hide LiveRuns;
  }

  lemma MaterializeHistory(db: Db, aid: Id, newId: Id, now: int)
    requires Inv(db) && Materialize(db, aid, newId, now).Ok?
    ensures History(db, Materialize(db, aid, newId, now).value)
  {
    hide Inv, Materialize, IsDueAutomation, NewOccurrence, Minute;
    var at, next := MaterializeShape(db, aid, newId, now);
  }

  lemma EditHistory(db: Db, aid: Id, b: Automation)
    requires aid in db.automations ==> db.automations[aid].revision <= b.revision
    ensures History(db, PutAutomation(db, aid, b))
  {
  }

  lemma AttemptHistory(db: Db, s: Step)
    requires Inv(db) && Attempt(db, s).Ok?
    ensures History(db, Attempt(db, s).value)
  {
    hide Inv, History, Materialize, ClaimOne, ReclaimOne, CreateAndLink, ReconcileRow, DeferRow,
         UpdateAutomation, SetExecutionMode, Activate, CreateRun, LegalTransition, ClaimHolds, RowHistory,
         ScopeValid, ModeValid, Schedule.ValidDefinition, FailRow, RunHistory;
    match s
    case MaterializeStep(aid, oid, now) => MaterializeHistory(db, aid, oid, now);
    case ClaimStep(oid, now, owner, lease) => GrantHistory(db, oid, now, owner, lease);
    case ReclaimStep(oid, now, owner, lease) => GrantHistory(db, oid, now, owner, lease);
    case RenewStep(claim, now, lease) => RenewHistory(db, claim, now, lease);
    case LinkStep(claim, now, run) => LinkHistory(db, claim, now, run);
    case DeferStep(oid, now, capacity) => RowUpdateHistory(db, oid, now, capacity, "");
    case FailStep(oid, now, code) => RowUpdateHistory(db, oid, now, true, code);
    case ReconcileStep(oid, now) => RowUpdateHistory(db, oid, now, true, "");
    case CreateStep(aid, title, t, schedule, policy, retries) =>
      EditHistory(db, aid, Automation(title, t, Draft, 0, 0, schedule, policy, retries, None));
    case UpdateStep(aid, expected, patch) =>
      var b := UpdateIsEdit(db, aid, expected, patch);
      EditHistory(db, aid, b);
    case EnableStep(aid, expected) =>
      var b := ActivateIsEdit(db, aid, expected, Draft);
      EditHistory(db, aid, b);
    case ResumeStep(aid, expected) =>
      var b := ActivateIsEdit(db, aid, expected, Paused);
      EditHistory(db, aid, b);
    case ModeStep(aid, expected, mode) => SmallEditHistory(db, s);
    case PauseStep(aid, expected) => SmallEditHistory(db, s);
    case CancelStep(aid, expected) => SmallEditHistory(db, s);
    case CallerRunStep(run, text, request) => CreateRunHistory(db, run, FromCaller(text), request);
    case RunStep(run, to) => RunStepHistory(db, run, to);
    case ProjectStep(p) => SameRowsHistory(db, db.(projects := db.projects + {p}));
    case ClockStep(now) => SameRowsHistory(db, db.(clock := now));
  }

  lemma RenewHistory(db: Db, claim: OccurrenceClaim, now: int, lease: int)
    requires Renew(db, claim, now, lease).Ok?
    ensures History(db, Renew(db, claim, now, lease).value)
  {
    hide History;
    var o := db.occurrences[claim.occurrenceId];
    PutHistory(db, claim.occurrenceId, o.(leaseExpiresAt := Some(now + lease), revision := o.revision + 1));
  }

  lemma RowUpdateHistory(db: Db, oid: Id, now: int, capacity: bool, code: string)
    requires Inv(db)
    ensures Defer(db, oid, now, capacity).Ok? ==> History(db, Defer(db, oid, now, capacity).value)
    ensures FailClosed(db, oid, now, code).Ok? ==> History(db, FailClosed(db, oid, now, code).value)
    ensures ReconcileOne(db, oid, now).Ok? ==> History(db, ReconcileOne(db, oid, now).value)
  {
    hide Inv, History, DeferRow, ReconcileRow, RowHistory;
    SameRowsHistory(db, db);
    if Defer(db, oid, now, capacity).Ok? {
      var o := db.occurrences[oid];
      var limit := db.automations[o.slot.automationId].retryLimit;
      DeferRowHistory(o, oid, limit, now, capacity);
      PutHistory(db, oid, DeferRow(o, oid, limit, now, capacity));
    }
    if FailClosed(db, oid, now, code).Ok? && Active(db.occurrences[oid].state) {
      FailRowHistory(db.occurrences[oid], now, code);
      PutHistory(db, oid, FailRow(db.occurrences[oid], now, code));
    }
    if ReconcileOne(db, oid, now).Ok? {
      var o := db.occurrences[oid];
      var run := if o.runId.value in db.runs then Some(db.runs[o.runId.value]) else None;
      ReconcileRowHistory(o, run, now);
      PutHistory(db, oid, ReconcileRow(o, run, now));
    }
  }

  lemma DeferRowHistory(o: Occurrence, id: Id, limit: nat, now: int, capacity: bool)
    requires Active(o.state)
    ensures RowHistory(o, DeferRow(o, id, limit, now, capacity))
  {
    hide RetryDelay, Min;
  }

  lemma FailRowHistory(o: Occurrence, now: int, code: string)
    requires Active(o.state)
    ensures RowHistory(o, FailRow(o, now, code))
  {
  }

  lemma ReconcileRowHistory(o: Occurrence, run: Option<RunRow>, now: int)
    requires Busy(o.state)
    ensures RowHistory(o, ReconcileRow(o, run, now))
  {
    hide RunDisposition;
  }

  lemma SmallEditHistory(db: Db, s: Step)
    requires s.ModeStep? || s.PauseStep? || s.CancelStep?
    requires Attempt(db, s).Ok?
    ensures History(db, Attempt(db, s).value)
  {
    hide History, ModeValid;
    var aid := s.automation;
    EditHistory(db, aid, Attempt(db, s).value.automations[aid]);
  }

  lemma RunStepHistory(db: Db, run: Id, to: RunState)
    requires run in db.runs && LegalTransition(db.runs[run].state, to)
    ensures History(db, db.(runs := db.runs[run := db.runs[run].(state := to)]))
  {
  }

  lemma SameRowsHistory(db: Db, after: Db)
    requires after == db.(clock := after.clock, projects := after.projects)
    ensures History(db, after)
  {
  }

  lemma HistoryTransitive(a: Db, b: Db, c: Db)
    requires History(a, b) && History(b, c)
    ensures History(a, c)
  {
    hide TerminalOccurrence, Terminal;
  }

  /** Over any run: links are write-once, terminal states stay, generations never decrease. */
  lemma {:induction false} RunHistoryHolds(db: Db, steps: seq<Step>)
    requires Inv(db)
    ensures History(db, Run(db, steps))
    decreases |steps|
  {
    hide Inv, Attempt, ClockAllows, History;
    SameRowsHistory(db, db);
    if steps != [] {
      var next := Apply(db, steps[0]);
      if ClockAllows(db, steps[0]) && Attempt(db, steps[0]).Ok? {
        AttemptKeepsInv(db, steps[0]);
        AttemptHistory(db, steps[0]);
      }
      RunHistoryHolds(next, steps[1..]);
      HistoryTransitive(db, next, Run(db, steps));
    }
  }
}
