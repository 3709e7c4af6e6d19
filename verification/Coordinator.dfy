/** Eligibility of a linked Run for unattended planning and execution. */
module Coordinator {
  import opened Wrappers
  import opened AgentRunStates
  import opened SchedulerRows
  import opened SchedulerSteps
  import opened SchedulerInvariant
  import opened SchedulerSafety
  import Schedule
  import Zone

  /** `a != b != c`: both neighbours differ; `a` and `c` are never compared. */
  predicate ChainedDiffer<T(==)>(a: T, b: T, c: T) {
    a != b && b != c
  }

  predicate RunUsable(state: RunState, pastDeadline: bool) {
    state.Completed? || state.Failed? || (!state.Cancelled? && !state.Expired? && !pastDeadline)
  }

  /** The occurrence's fields as `_eligible_linked_run` compares them. */
  predicate CapturesLookEqual(a: Automation, o: Occurrence, run: RunRow) {
    && !ChainedDiffer(a.snapshot.agentKind, o.snapshot.agentKind, run.request.agentKind)
    && !ChainedDiffer(a.snapshot.agentVersion, o.snapshot.agentVersion, run.request.agentVersion)
    && !ChainedDiffer(a.snapshot.projectId, o.snapshot.projectId, run.request.projectId)
  }

  /** `_eligible_linked_run`, up to the registry and policy version checks. */
  predicate Eligible(db: Db, oid: Id, pastDeadline: bool) {
    && oid in db.occurrences
    && var o := db.occurrences[oid];
       && o.slot.automationId in db.automations
       && o.runId.Some? && o.runId.value in db.runs
       && var a, run := db.automations[o.slot.automationId], db.runs[o.runId.value];
          && |set j | j in db.occurrences && db.occurrences[j].runId == o.runId| == 1
          && a.lifecycle.Enabled?
          && a.revision == o.automationRevision
          && a.scheduleRevision == o.slot.scheduleRevision
          && a.snapshot.mode.AutomaticReadOnly? && o.snapshot.mode.AutomaticReadOnly?
          && (o.state.RunCreated? || o.state.Completed? || o.state.Failed?)
          && CapturesLookEqual(a, o, run)
          && Schedulable(o.snapshot.agentKind, o.snapshot.agentVersion)
          && (ProjectRequired(o.snapshot.agentKind) ==> o.snapshot.projectId.Some?)
          && RunUsable(run.state, pastDeadline)
          && ProjectVisible(db, o.snapshot.projectId)
  }

  ghost predicate Agree(a: Automation, o: Occurrence, run: RunRow) {
    && a.snapshot == o.snapshot
    && run.request.agentKind == o.snapshot.agentKind
    && run.request.agentVersion == o.snapshot.agentVersion
    && run.request.projectId == o.snapshot.projectId
  }

  /**
   Whatever Run the coordinator takes up agrees with its occurrence and its automation on
   kind, version and project.  Equal revisions carry this, not the chained comparisons.
   */
  lemma EligibleRunAgrees(steps: seq<Step>, oid: Id, pastDeadline: bool)
    requires Eligible(Run(EMPTY, steps), oid, pastDeadline)
    ensures var db := Run(EMPTY, steps);
            var o := db.occurrences[oid];
            Agree(db.automations[o.slot.automationId], o, db.runs[o.runId.value])
  {
    hide Inv, Attempt, ClockAllows, CapturesLookEqual;
    EmptyInv();
    RunKeepsInv(EMPTY, steps);
    RowFacts(Run(EMPTY, steps), oid);
  }

  /**
   In every reachable state most of the checks decide nothing: a Run is taken up exactly if its automation
   is enabled, automatic and unedited since, its agent and Project still exist, and it is completed, failed,
   or still alive before its deadline.
   */
  lemma EligibleIff(steps: seq<Step>, oid: Id, pastDeadline: bool)
    ensures
      var db := Run(EMPTY, steps);
      Eligible(db, oid, pastDeadline)
      <==> && oid in db.occurrences && db.occurrences[oid].runId.Some? && db.occurrences[oid].runId.value in db.runs
           && var o, run := db.occurrences[oid], db.runs[db.occurrences[oid].runId.value].state;
              && o.slot.automationId in db.automations
              && var a := db.automations[o.slot.automationId];
                 && a.lifecycle.Enabled? && a.revision == o.automationRevision && a.snapshot.mode.AutomaticReadOnly?
                 && a.snapshot.agentVersion == "1" && a.snapshot.agentKind in {"daily_brief", "project_watch"}
                 && (a.snapshot.agentKind == "project_watch" ==> a.snapshot.projectId.Some?)
                 && (a.snapshot.projectId.Some? ==> a.snapshot.projectId.value in db.projects)
                 && (run.Completed? || run.Failed? || (!run.Cancelled? && !run.Expired? && !pastDeadline))
  {
    hide Inv, Run, RunRequestOf, LinkOk, RowOk;
    var db := Run(EMPTY, steps);
    EmptyInv();
    RunKeepsInv(EMPTY, steps);
    if oid in db.occurrences {
      RowFacts(db, oid);
      if db.occurrences[oid].runId.Some? { LinkedAlone(db, oid); }
    }
  }

  lemma LinkedAlone(db: Db, oid: Id)
    requires Inv(db) && oid in db.occurrences && db.occurrences[oid].runId.Some?
    ensures |set j | j in db.occurrences && db.occurrences[j].runId == db.occurrences[oid].runId| == 1
    ensures db.occurrences[oid].runId.value in db.runs
    ensures
      var o, q := db.occurrences[oid], db.runs[db.occurrences[oid].runId.value].request;
      && q.agentKind == o.snapshot.agentKind && q.agentVersion == o.snapshot.agentVersion && q.projectId == o.snapshot.projectId
      && (o.state.RunCreated? || o.state.Completed? || o.state.Failed?)
  {
    InvGivesExactlyOnce(db);
    RowFacts(db, oid);
    hide Inv;
    assert (set j | j in db.occurrences && db.occurrences[j].runId == db.occurrences[oid].runId) == {oid};
  }

  /** In every reachable state the chained comparisons never reject an otherwise current row. */
  lemma ChainedChecksNeverDecide(steps: seq<Step>, oid: Id)
    requires var db := Run(EMPTY, steps);
             && oid in db.occurrences && db.occurrences[oid].runId.Some?
             && var o := db.occurrences[oid];
                o.slot.automationId in db.automations
                && db.automations[o.slot.automationId].revision == o.automationRevision
    ensures var db := Run(EMPTY, steps);
            var o := db.occurrences[oid];
            o.runId.value in db.runs
            && CapturesLookEqual(db.automations[o.slot.automationId], o, db.runs[o.runId.value])
  {
    hide Inv, Attempt, ClockAllows;
    EmptyInv();
    RunKeepsInv(EMPTY, steps);
    RowFacts(Run(EMPTY, steps), oid);
  }

  /**
   On its own the chained comparison accepts rows that disagree: it misses a difference
   exactly when one of the two neighbouring pairs is equal and the other is not.
   */
  lemma ChainedComparisonMisses<T>(a: T, b: T, c: T)
    ensures !ChainedDiffer(a, b, c) && !(a == b && b == c) <==> ((a == b) != (b == c))
  {
  }

  lemma ChainedChecksAcceptWrongProject(a: Automation, o: Occurrence, run: RunRow)
    requires a.snapshot == o.snapshot && o.snapshot.projectId == Some(1)
    requires run.request == RunRequest(Some(2), o.snapshot.agentKind, o.snapshot.agentVersion, ProjectWatchGoal)
    ensures CapturesLookEqual(a, o, run) && !Agree(a, o, run)
  {
  }
}
