/** When work is due, when a lease is granted, how long it holds, and when a deferred occurrence is tried again. */
module SchedulerClaims {
  import opened Wrappers
  import opened AgentRunStates
  import opened SchedulerRows
  import opened SchedulerSteps
  import opened SchedulerInvariant
  import opened SchedulerSafety
  import opened SchedulerFencing
  import opened SchedulerStore
  import Batches = SchedulerStore

  // ----- due -----

  /** An automation is due exactly from its next slot on, while enabled and with nothing active of it. */
  lemma DueIff(db: Db, aid: Id, now: int)
    requires Inv(db)
    ensures IsDueAutomation(db, aid, now)
            <==> && aid in db.automations && db.automations[aid].lifecycle.Enabled?
                 && db.automations[aid].nextAt.Some? && db.automations[aid].nextAt.value * 60 * SECOND <= now
                 && forall i :: i in db.occurrences && db.occurrences[i].slot.automationId == aid ==> !Active(db.occurrences[i].state)
  {
    if IsDueAutomation(db, aid, now) { DueMeansIdle(db, aid, now); }
    hide Inv;
  }

  // ----- grants -----

  /** What a granted lease looks like. */
  predicate LeaseIs(o: Occurrence, p: Occurrence, owner: Id, until: int) {
    p == o.(state := Claimed, revision := o.revision + 1, leaseOwner := Some(owner),
            leaseGeneration := o.leaseGeneration + 1, leaseExpiresAt := Some(until))
  }

  /** The occurrence's automation is enabled and has not been edited since the occurrence was captured. */
  predicate Unedited(db: Db, oid: Id) {
    && oid in db.occurrences
    && var o := db.occurrences[oid];
       && o.slot.automationId in db.automations
       && var a := db.automations[o.slot.automationId]; a.lifecycle.Enabled? && a.revision == o.automationRevision
  }

  /** The agents the scheduler runs. */
  predicate KnownAgent(s: Snapshot) {
    s.agentVersion == "1" && (s.agentKind == "daily_brief" || s.agentKind == "project_watch")
  }

  /** A due occurrence of an unedited automation whose time and retry delay have come. */
  predicate Waiting(db: Db, oid: Id, now: int) {
    && Unedited(db, oid)
    && var o := db.occurrences[oid];
       && o.state.Due? && o.slot.at * 60 * SECOND <= now
       && (o.retryNotBefore.Some? ==> o.retryNotBefore.value <= now)
       && (o.snapshot.mode.AutomaticReadOnly? ==> KnownAgent(o.snapshot))
  }

  lemma WaitingIsClaimable(db: Db, oid: Id, now: int)
    requires Inv(db)
    ensures IsClaimable(db, oid, now) <==> Waiting(db, oid, now)
  {
    if oid in db.occurrences { RowFacts(db, oid); }
    hide Inv, RowOk, LinkOk;
  }

  /**
   A claim is granted exactly for a due occurrence whose time and retry delay have come, of an unedited
   automation, for a lease of 10 to 300 seconds, below 32 busy occurrences.
   */
  lemma ClaimGrantedIff(db: Db, oid: Id, now: int, owner: Id, lease: int)
    requires Inv(db)
    ensures
      ClaimOne(db, oid, now, owner, lease).Ok?
      <==> 10_000_000 <= lease <= 300_000_000 && Waiting(db, oid, now) && |BusyOccurrences(db.occurrences)| < 32
    ensures ClaimOne(db, oid, now, owner, lease).Ok? ==>
              var after := ClaimOne(db, oid, now, owner, lease).value;
              && oid in db.occurrences && oid in after.occurrences
              && after == db.(occurrences := db.occurrences[oid := after.occurrences[oid]])
              && LeaseIs(db.occurrences[oid], after.occurrences[oid], owner, now + lease)
  {
    hide Inv, IsClaimable, BusyOccurrences;
    WaitingIsClaimable(db, oid, now);
  }

  /** A takeover is granted exactly once the lease has run out; a claimed row is never linked. */
  lemma TakeoverGrantedIff(db: Db, oid: Id, now: int, owner: Id, lease: int)
    requires Inv(db)
    ensures
      ReclaimOne(db, oid, now, owner, lease).Ok?
      <==> && 10_000_000 <= lease <= 300_000_000 && oid in db.occurrences
           && db.occurrences[oid].state.Claimed? && db.occurrences[oid].leaseExpiresAt.Some?
           && db.occurrences[oid].leaseExpiresAt.value <= now
    ensures ReclaimOne(db, oid, now, owner, lease).Ok? ==>
              var after := ReclaimOne(db, oid, now, owner, lease).value;
              && oid in after.occurrences
              && after == db.(occurrences := db.occurrences[oid := after.occurrences[oid]])
              && LeaseIs(db.occurrences[oid], after.occurrences[oid], owner, now + lease)
  {
    if oid in db.occurrences { RowFacts(db, oid); }
    hide Inv, LinkOk, Captured;
  }

  /** A granted lease is good for exactly its duration, as long as the automation is not edited. */
  lemma LeaseHoldsUntil(db: Db, oid: Id, owner: Id, until: int, t: int)
    requires Inv(db) && oid in db.occurrences
    requires db.occurrences[oid].state.Claimed? && db.occurrences[oid].leaseOwner == Some(owner)
    requires db.occurrences[oid].leaseExpiresAt == Some(until)
    ensures db.occurrences[oid].slot.automationId in db.automations
    ensures
      var o := db.occurrences[oid];
      var claim := OccurrenceClaim(oid, o.slot.automationId, owner, o.leaseGeneration);
      ClaimHolds(db.automations[o.slot.automationId], o, claim, t) <==> t < until && Unedited(db, oid)
  {
    RowFacts(db, oid);
    hide Inv, RowOk, LinkOk;
  }

  /**
   A live lease is exclusive: a transaction moves the lease of a claimed row to another owner or generation
   only as a takeover with a clock value at or after its expiry.
   */
  lemma LiveLeaseIsExclusive(db: Db, s: Step, oid: Id)
    requires Inv(db) && oid in db.occurrences && db.occurrences[oid].state.Claimed?
    requires oid in Apply(db, s).occurrences && Apply(db, s).occurrences[oid].state.Claimed?
    requires Apply(db, s).occurrences[oid].leaseGeneration != db.occurrences[oid].leaseGeneration
             || Apply(db, s).occurrences[oid].leaseOwner != db.occurrences[oid].leaseOwner
    ensures s.ReclaimStep? && s.occurrence == oid && db.occurrences[oid].leaseExpiresAt.Some?
    ensures db.occurrences[oid].leaseExpiresAt.value <= s.now <= db.clock
  {
    hide Inv, Attempt;
    if Outside(s) {
      if ClockAllows(db, s) && Attempt(db, s).Ok? { OutsideKeepsOccurrences(db, s); }
    } else {
      LeaseMovesOnlySo(db, s, oid);
    }
  }

  lemma LeaseMovesOnlySo(db: Db, s: Step, oid: Id)
    requires Inv(db) && !Outside(s) && oid in db.occurrences && db.occurrences[oid].state.Claimed?
    requires ClockAllows(db, s) && Attempt(db, s).Ok? && oid in Attempt(db, s).value.occurrences
    requires Attempt(db, s).value.occurrences[oid].state.Claimed?
    requires Attempt(db, s).value.occurrences[oid].leaseGeneration != db.occurrences[oid].leaseGeneration
             || Attempt(db, s).value.occurrences[oid].leaseOwner != db.occurrences[oid].leaseOwner
    ensures s.ReclaimStep? && s.occurrence == oid
    ensures db.occurrences[oid].leaseExpiresAt.Some? && db.occurrences[oid].leaseExpiresAt.value <= s.now
  {
    hide Inv, Materialize, CreateAndLink, DeferRow, ReconcileRow, BusyOccurrences, LeaseAllowed, ClaimHolds, UpdateAutomation, Activate,
         CreateRun, CreateAutomation, RetryDelay;
    match s
    case MaterializeStep(aid, newId, now) =>
      var at, next := MaterializeShape(db, aid, newId, now);
    case LinkStep(claim, now, run) => LinkShape(db, claim, now, run);
    case DeferStep(i, now, capacity) => DeferLeavesClaimed(db, i, now, capacity);
    case ReconcileStep(i, now) => ReconcileKeepsLease(db, i, now);
    case _ =>
  }

  lemma DeferLeavesClaimed(db: Db, i: Id, now: int, capacity: bool)
    requires Defer(db, i, now, capacity).Ok?
    ensures i in db.occurrences && Defer(db, i, now, capacity).value == Put(db, i, Defer(db, i, now, capacity).value.occurrences[i])
    ensures !Defer(db, i, now, capacity).value.occurrences[i].state.Claimed?
  {
    hide RetryDelay;
  }

  lemma ReconcileKeepsLease(db: Db, i: Id, now: int)
    requires ReconcileOne(db, i, now).Ok?
    ensures i in db.occurrences
    ensures ReconcileOne(db, i, now).value == Put(db, i, ReconcileOne(db, i, now).value.occurrences[i])
    ensures ReconcileOne(db, i, now).value.occurrences[i].leaseGeneration == db.occurrences[i].leaseGeneration
    ensures ReconcileOne(db, i, now).value.occurrences[i].leaseOwner == db.occurrences[i].leaseOwner
  {
    hide RunDisposition;
  }

  /** Renewal is granted exactly to that holder, and moves nothing but the expiry. */
  lemma RenewedIff(db: Db, claim: OccurrenceClaim, now: int, lease: int)
    requires Inv(db)
    ensures
      Renew(db, claim, now, lease).Ok?
      <==> && 10_000_000 <= lease <= 300_000_000 && Unedited(db, claim.occurrenceId)
           && var o := db.occurrences[claim.occurrenceId];
              && o.state.Claimed? && o.slot.automationId == claim.automationId
              && o.leaseOwner == Some(claim.ownerToken) && o.leaseGeneration == claim.leaseGeneration
              && o.leaseExpiresAt.Some? && now < o.leaseExpiresAt.value
    ensures Renew(db, claim, now, lease).Ok? ==>
              && claim.occurrenceId in db.occurrences
              && var o := db.occurrences[claim.occurrenceId];
                 Renew(db, claim, now, lease).value
                 == db.(occurrences := db.occurrences[claim.occurrenceId := o.(leaseExpiresAt := Some(now + lease), revision := o.revision + 1)])
  {
    if claim.occurrenceId in db.occurrences { RowFacts(db, claim.occurrenceId); }
    hide Inv, RowOk, LinkOk;
  }

  // ----- batches -----

  /** The rows with the smallest keys, in order: as many as there are, up to the limit. */
  ghost predicate OldestOf(rows: seq<Id>, keys: map<Id, int>, limit: nat) {
    && |rows| <= limit && (forall i :: i in rows ==> i in keys)
    && (|rows| < limit ==> forall i :: i in keys ==> i in rows)
    && (forall i, j :: 0 <= i < j < |rows| ==> rows[i] != rows[j] && keys[rows[i]] <= keys[rows[j]])
    && (forall i, j :: i in rows && j in keys && j !in rows ==> keys[i] <= keys[j])
  }

  lemma FirstRowsAreOldestOf(keys: map<Id, int>, limit: nat)
    ensures OldestOf(FirstRows(keys, limit), keys, limit)
  {
    FirstRowsAreOldest(keys, limit);
    hide FirstRows;
  }

  /** Claims go to the oldest slots waiting, as far as 32 busy occurrences allow. */
  lemma ClaimsAreOldest(db: Db, now: int, limit: nat, locked: set<Id>)
    requires Inv(db)
    ensures |BusyOccurrences(db.occurrences)| <= 32
    ensures
      var keys := map i | i in db.occurrences && i !in locked && Waiting(db, i, now) :: db.occurrences[i].slot.at;
      var room := 32 - |BusyOccurrences(db.occurrences)|;
      OldestOf(ClaimBatch(db, now, limit, locked), keys, if limit < room then limit else room)
  {
    assert |BusyOccurrences(db.occurrences)| <= 32;
    hide Inv, IsClaimable, Waiting, BusyOccurrences, OldestOf;
    var keys := map i | i in db.occurrences && i !in locked && Waiting(db, i, now) :: db.occurrences[i].slot.at;
    forall i ensures IsClaimable(db, i, now) <==> Waiting(db, i, now) { WaitingIsClaimable(db, i, now); }
    assert Claimable(db, now, locked) == keys;
    var room := 32 - |BusyOccurrences(db.occurrences)|;
    FirstRowsAreOldestOf(keys, if limit < room then limit else room);
  }

  /** Takeovers go to the leases that ran out first. */
  lemma TakeoversAreOldest(db: Db, now: int, limit: nat, locked: set<Id>)
    ensures
      var keys := map i | i in db.occurrences && i !in locked && db.occurrences[i].state.Claimed?
                          && db.occurrences[i].leaseExpiresAt.Some? && db.occurrences[i].leaseExpiresAt.value <= now
                        :: db.occurrences[i].leaseExpiresAt.value;
      OldestOf(ExpiredBatch(db, now, limit, locked), keys, limit)
  {
    var keys := map i | i in db.occurrences && i !in locked && db.occurrences[i].state.Claimed?
                        && db.occurrences[i].leaseExpiresAt.Some? && db.occurrences[i].leaseExpiresAt.value <= now
                      :: db.occurrences[i].leaseExpiresAt.value;
    assert Batches.Expired(db, now, locked) == keys;
    hide OldestOf;
    FirstRowsAreOldestOf(keys, limit);
  }

  /** Reconciliation takes the linked occurrences of the oldest slots. */
  lemma ReconciledAreOldest(db: Db, limit: nat, locked: set<Id>)
    requires Inv(db)
    ensures
      var keys := map i | i in db.occurrences && i !in locked && db.occurrences[i].state.RunCreated? :: db.occurrences[i].slot.at;
      OldestOf(LinkedBatch(db, limit, locked), keys, limit)
  {
    hide Inv, OldestOf, RowOk, LinkOk, Captured;
    var keys := map i | i in db.occurrences && i !in locked && db.occurrences[i].state.RunCreated? :: db.occurrences[i].slot.at;
    forall i | i in db.occurrences ensures IsLinked(db, i) <==> db.occurrences[i].state.RunCreated? {
      LinkedIsCreated(db, i);
    }
    assert Batches.Linked(db, locked) == keys;
    FirstRowsAreOldestOf(keys, limit);
  }

  lemma LinkedIsCreated(db: Db, i: Id)
    requires Inv(db) && i in db.occurrences
    ensures IsLinked(db, i) <==> db.occurrences[i].state.RunCreated?
  {
    RowFacts(db, i);
    hide Inv, LinkOk, Captured;
  }

  /** Materialisation takes the automations that have waited longest. */
  lemma MaterializedAreOldest(db: Db, now: int, limit: nat, locked: set<Id>)
    ensures
      var keys := map i | i in db.automations && i !in locked && IsDueAutomation(db, i, now)
                        :: (match db.automations[i].nextAt case Some(at) => at case None => 0);
      OldestOf(DueBatch(db, now, limit, locked), keys, limit)
  {
    var keys := map i | i in db.automations && i !in locked && IsDueAutomation(db, i, now)
                      :: (match db.automations[i].nextAt case Some(at) => at case None => 0);
    assert Batches.Due(db, now, locked) == keys;
    hide OldestOf;
    FirstRowsAreOldestOf(keys, limit);
  }

  // ----- linking -----

  /** A project that is there, where the agent needs one. */
  predicate ScopeThere(db: Db, s: Snapshot) {
    (s.agentKind == "project_watch" ==> s.projectId.Some?) && (s.projectId.Some? ==> s.projectId.value in db.projects)
  }

  /**
   The link of a claimed occurrence commits exactly for the holder of the live lease, an unedited automation,
   an agent and Project that still exist, and fewer than 32 live Runs; a linked one always replays.
   */
  lemma LinkCommitsIff(db: Db, claim: OccurrenceClaim, now: int, newRun: Id)
    requires Inv(db) && newRun !in db.runs
    ensures
      CreateAndLink(db, claim, now, newRun).Ok?
      <==> && claim.automationId in db.automations && claim.occurrenceId in db.occurrences
           && var o := db.occurrences[claim.occurrenceId];
              o.state.RunCreated?
              || (&& o.state.Claimed? && o.slot.automationId == claim.automationId && Unedited(db, claim.occurrenceId)
                  && o.leaseOwner == Some(claim.ownerToken) && o.leaseGeneration == claim.leaseGeneration
                  && o.leaseExpiresAt.Some? && now < o.leaseExpiresAt.value
                  && KnownAgent(o.snapshot) && ScopeThere(db, o.snapshot)
                  && |LiveRuns(db.runs)| < 32)
  {
    if claim.occurrenceId in db.occurrences { RowFacts(db, claim.occurrenceId); }
    hide Inv, LiveRuns, RunRequestOf;
  }

  lemma UneditedIsCaptured(db: Db, oid: Id)
    requires Inv(db) && Unedited(db, oid)
    ensures var o := db.occurrences[oid];
            && db.automations[o.slot.automationId].snapshot == o.snapshot
            && db.automations[o.slot.automationId].scheduleRevision == o.slot.scheduleRevision
  {
    RowFacts(db, oid);
    hide Inv, RowOk, LinkOk;
  }

  /** With everything else in order, 32 live Runs are what a link is refused for, and it is told so. */
  lemma FullInstanceRefusesLink(db: Db, claim: OccurrenceClaim, now: int, newRun: Id)
    requires Inv(db) && claim.occurrenceId in db.occurrences && Unedited(db, claim.occurrenceId)
    requires
      var o := db.occurrences[claim.occurrenceId];
      && o.state.Claimed? && o.slot.automationId == claim.automationId
      && o.leaseOwner == Some(claim.ownerToken) && o.leaseGeneration == claim.leaseGeneration
      && o.leaseExpiresAt.Some? && now < o.leaseExpiresAt.value
      && KnownAgent(o.snapshot) && ScopeThere(db, o.snapshot)
    ensures CreateAndLink(db, claim, now, newRun) == Err(RunCapacity) <==> |LiveRuns(db.runs)| == 32
  {
    hide LiveRuns, RunRequestOf, RowsOk, OneActive, SlotsIndexed, RunsIndexed, LinksOk, Captured;
    RowFacts(db, claim.occurrenceId);
    UneditedIsCaptured(db, claim.occurrenceId);
  }

  /** What the holder is told when the agent or the Project is not there any more. */
  lemma MissingScopeRefusesLink(db: Db, claim: OccurrenceClaim, now: int, newRun: Id)
    requires Inv(db) && claim.occurrenceId in db.occurrences && Unedited(db, claim.occurrenceId)
    requires
      var o := db.occurrences[claim.occurrenceId];
      && o.state.Claimed? && o.slot.automationId == claim.automationId
      && o.leaseOwner == Some(claim.ownerToken) && o.leaseGeneration == claim.leaseGeneration
      && o.leaseExpiresAt.Some? && now < o.leaseExpiresAt.value
      && !(KnownAgent(o.snapshot) && ScopeThere(db, o.snapshot))
    ensures
      var s := db.occurrences[claim.occurrenceId].snapshot;
      CreateAndLink(db, claim, now, newRun)
      == Err(if s.mode.AutomaticReadOnly? && !KnownAgent(s) then ModeUnsupported else ValidationError)
  {
    hide LiveRuns, RunRequestOf, RowsOk, OneActive, SlotsIndexed, RunsIndexed, LinksOk, WithinCapacity, Captured;
    RowFacts(db, claim.occurrenceId);
    UneditedIsCaptured(db, claim.occurrenceId);
  }

  // ----- deferral -----

  /** The delays of the scheduler in seconds: 5 to 9 after the first try, 10 to 14 after the second. */
  lemma DelaysDouble(id: Id)
    ensures 5 * SECOND <= RetryDelay(id, 1) < 10 * SECOND
    ensures 10 * SECOND <= RetryDelay(id, 2) < 15 * SECOND
    ensures RetryDelay(id, 1) == (5 + (id + 1) % 5) * SECOND && RetryDelay(id, 2) == (10 + (id + 2) % 5) * SECOND
  {
    assert PowerOfTwo(0) == 1 && PowerOfTwo(1) == 2 * PowerOfTwo(0);
  }

  /**
   A deferred occurrence: a full instance counts no try and waits 5 to 9 seconds; a transient failure counts
   one and waits 5 to 9, then 10 to 14 seconds, and the one that reaches the smaller of the automation's
   limit and three closes the row for the operator.
   */
  lemma DeferralDecides(db: Db, oid: Id, now: int, capacity: bool)
    requires Inv(db) && Defer(db, oid, now, capacity).Ok?
    ensures oid in db.occurrences && db.occurrences[oid].slot.automationId in db.automations
    ensures
      var o, after := db.occurrences[oid], Defer(db, oid, now, capacity).value;
      var limit := db.automations[o.slot.automationId].retryLimit;
      && oid in after.occurrences && after == db.(occurrences := db.occurrences[oid := after.occurrences[oid]])
      && var p := after.occurrences[oid];
         && p.leaseGeneration == o.leaseGeneration && p.runId.None?
         && p.attemptCount == o.attemptCount + (if capacity then 0 else 1)
         && if !capacity && (o.attemptCount + 1 >= 3 || o.attemptCount + 1 >= limit)
            then p.state.Failed? && p.errorCode == Some("setup_retry_exhausted") && p.disposition == Some("operator_review_required")
            else
              && p.state.Due? && p.leaseOwner.None? && p.leaseExpiresAt.None? && p.retryNotBefore.Some?
              && var wait, tries := p.retryNotBefore.value - now, if capacity then 1 else o.attemptCount + 1;
                 5 * tries * SECOND <= wait < (5 * tries + 5) * SECOND
  {
    hide Inv, RetryDelay, LinkOk, Captured;
    RowFacts(db, oid);
    DelaysDouble(oid);
  }

  /** Until its delay is over no worker gets it. */
  lemma DeferredWaits(db: Db, oid: Id, now: int, capacity: bool, t: int, owner: Id, lease: int)
    requires Inv(db) && Defer(db, oid, now, capacity).Ok? && t < now + 5 * SECOND
    ensures ClaimOne(Defer(db, oid, now, capacity).value, oid, t, owner, lease).Err?
    ensures ReclaimOne(Defer(db, oid, now, capacity).value, oid, t, owner, lease).Err?
  {
    DeferralDecides(db, oid, now, capacity);
    hide Inv, Defer, BusyOccurrences;
  }

  /** Closing needs a row that is not linked; a row that has ended stays, any other fails for the operator. */
  lemma ClosingDecides(db: Db, oid: Id, now: int, code: string)
    requires Inv(db)
    ensures FailClosed(db, oid, now, code).Ok? <==> oid in db.occurrences && db.occurrences[oid].runId.None?
    ensures FailClosed(db, oid, now, code).Ok? ==>
              var o, after := db.occurrences[oid], FailClosed(db, oid, now, code).value;
              && oid in after.occurrences && after == db.(occurrences := db.occurrences[oid := after.occurrences[oid]])
              && if o.state.Due? || o.state.Claimed?
                 then after.occurrences[oid] == o.(state := OccurrenceState.Failed, errorCode := Some(code), disposition := Some("operator_review_required"),
                                                   retryNotBefore := None, completedAt := Some(now), revision := o.revision + 1)
                 else after == db
  {
    if oid in db.occurrences {
      RowFacts(db, oid);
      assert db.occurrences[oid := db.occurrences[oid]] == db.occurrences;
    }
    hide Inv, LinkOk, Captured;
  }

  // ----- what an occurrence captures -----

  /** A new occurrence copies its automation as it is, and a missed one says whether it waited more than a week. */
  lemma OccurrenceCaptures(db: Db, aid: Id, newId: Id, now: int)
    requires Inv(db) && Materialize(db, aid, newId, now).Ok?
    ensures aid in db.automations && newId in Materialize(db, aid, newId, now).value.occurrences
    ensures
      var a, o := db.automations[aid], Materialize(db, aid, newId, now).value.occurrences[newId];
      && o.title == a.title && o.snapshot == a.snapshot && o.automationRevision == a.revision
      && o.slot.automationId == aid && o.slot.scheduleRevision == a.scheduleRevision
      && o.attemptCount == 0 && o.leaseGeneration == 0 && o.retryNotBefore.None? && o.leaseOwner.None?
      && a.nextAt.Some?
      && var week := 7 * 24 * 3600 * SECOND;
         match a.missedPolicy
         case RunOnce => o.state.Due? && o.disposition.None?
         case Skip =>
           && o.state.Missed? && o.completedAt == Some(now)
           && o.disposition == Some(if now - a.nextAt.value * 60 * SECOND > week then "missed_lookback_bounded" else "missed_skipped")
  {
    hide Inv, Materialize;
    var at, next := MaterializeShape(db, aid, newId, now);
    DueNext(db, aid, now);
  }

  /** The Run an occurrence is linked to asks for what the occurrence captured. */
  lemma LinkedRunAsks(db: Db, oid: Id)
    requires Inv(db) && oid in db.occurrences && db.occurrences[oid].runId.Some?
    ensures db.occurrences[oid].runId.value in db.runs
    ensures
      var o, q := db.occurrences[oid], db.runs[db.occurrences[oid].runId.value].request;
      var s := o.snapshot;
      && q.projectId == s.projectId && q.agentKind == s.agentKind && q.agentVersion == s.agentVersion
      && (s.agentVersion == "1" && s.agentKind == "daily_brief" ==> q.goal == DailyBriefGoal(s.projectId.Some?))
      && (s.agentVersion == "1" && s.agentKind == "project_watch" ==> q.goal == ProjectWatchGoal)
      && (!KnownAgent(s) ==> q.goal == ScheduledGoal(s.agentKind, o.title))
  {
    RowFacts(db, oid);
    hide Inv, RowOk, Captured;
  }

  // ----- Runs of other callers -----

  /** A request under a key: the same request gets the same Run, another one a conflict, a new one a Run if there is room. */
  lemma RequestDecides(db: Db, newRun: Id, text: string, request: RunRequest)
    requires Inv(db) && newRun !in db.runs
    ensures
      var r := CreateRun(db, newRun, FromCaller(text), request);
      if exists first :: first in db.runs && db.runs[first].key == FromCaller(text) then
        exists first :: first in db.runs && db.runs[first].key == FromCaller(text)
                      && r == if db.runs[first].request == request then Ok((db, first)) else Err(IdempotencyConflict)
      else if |LiveRuns(db.runs)| == 32 then r == Err(RunCapacity)
      else if request.projectId.Some? && request.projectId.value !in db.projects then r == Err(ProjectNotFound)
      else
        && r.Ok? && r.value.1 == newRun && newRun in r.value.0.runs
        && r.value.0.runs == db.runs[newRun := RunRow(Created, FromCaller(text), request)]
  {
    KeyIsIndexed(db, FromCaller(text));
    hide Inv, LiveRuns;
  }

  lemma KeyIsIndexed(db: Db, key: RunKey)
    requires Inv(db)
    ensures |LiveRuns(db.runs)| <= 32
    ensures key in db.runIndex ==> db.runIndex[key] in db.runs && db.runs[db.runIndex[key]].key == key
    ensures forall r :: r in db.runs && db.runs[r].key == key ==> key in db.runIndex && db.runIndex[key] == r
  {
    hide RowsOk, OneActive, SlotsIndexed, LinksOk, LiveRuns, BusyOccurrences;
  }
}
