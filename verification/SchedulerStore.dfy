/**
 The scheduler transactions as they run: rows are updated in place, batches loop over the
 rows their query locked, and an exception rolls the transaction back.
 */
module SchedulerStore {
  import opened Wrappers
  import opened AgentRunStates
  import opened SchedulerRows
  import opened SchedulerSteps
  import opened SchedulerInvariant
  import opened SchedulerFencing
  import CatchUp
  import Schedule

  ghost predicate Distinct(rows: seq<Id>) {
    forall i, j :: 0 <= i < j < |rows| ==> rows[i] != rows[j]
  }

  // ----- ORDER BY, LIMIT -----

  /** Ascending key, then ascending identifier. */
  predicate Precedes(keys: map<Id, int>, i: Id, j: Id)
    requires i in keys && j in keys
  {
    keys[i] < keys[j] || (keys[i] == keys[j] && i < j)
  }

  predicate IsFirst(keys: map<Id, int>, m: Id) {
    m in keys && forall i :: i in keys && i != m ==> Precedes(keys, m, i)
  }

  lemma {:induction false} FirstExists(keys: map<Id, int>)
    requires keys != map[]
    ensures exists m :: IsFirst(keys, m)
    decreases |keys|
  {
    var x :| x in keys;
    var rest := keys - {x};
    if rest == map[] {
      assert forall i :: i in keys && i != x ==> i in rest;
      assert IsFirst(keys, x);
    } else {
      assert |rest| < |keys|;
      FirstExists(rest);
      var m :| IsFirst(rest, m);
      FirstOfTwo(keys, x, m);
    }
  }

  lemma FirstOfTwo(keys: map<Id, int>, x: Id, m: Id)
    requires x in keys && IsFirst(keys - {x}, m)
    ensures exists b :: IsFirst(keys, b)
  {
    var rest := keys - {x};
    var best := if Precedes(keys, m, x) then m else x;
    forall i | i in keys && i != best ensures Precedes(keys, best, i) {
      assert i == x || i in rest;
    }
    assert IsFirst(keys, best);
  }

  function First(keys: map<Id, int>): (m: Id)
    requires keys != map[]
    ensures IsFirst(keys, m)
  {
    FirstExists(keys);
    var m :| IsFirst(keys, m);
    m
  }

  /** The first rows of a result, in its order. */
  function FirstRows(keys: map<Id, int>, limit: nat): seq<Id>
    decreases limit
  {
    if limit == 0 || keys == map[] then []
    else [First(keys)] + FirstRows(keys - {First(keys)}, limit - 1)
  }

  /** They are distinct rows of the result, oldest first, as many as there are up to the limit. */
  lemma {:induction false} FirstRowsAreOldest(keys: map<Id, int>, limit: nat)
    ensures
      var rows := FirstRows(keys, limit);
      && |rows| <= limit && Distinct(rows) && (forall i :: i in rows ==> i in keys)
      && (|rows| < limit ==> forall i :: i in keys ==> i in rows)
      && (forall i, j :: 0 <= i < j < |rows| ==> Precedes(keys, rows[i], rows[j]))
      && (forall i, j :: i in rows && j in keys && j !in rows ==> Precedes(keys, i, j))
    decreases limit
  {
    if limit > 0 && keys != map[] {
      var m := First(keys);
      var tail := FirstRows(keys - {m}, limit - 1);
      FirstRowsAreOldest(keys - {m}, limit - 1);
      hide FirstRows, First;
      FirstThenRest(keys, m, tail, limit);
    }
  }

  lemma FirstThenRest(keys: map<Id, int>, m: Id, tail: seq<Id>, limit: nat)
    requires IsFirst(keys, m) && limit > 0
    requires |tail| <= limit - 1 && Distinct(tail) && forall i :: i in tail ==> i in keys - {m}
    requires |tail| < limit - 1 ==> forall i :: i in keys - {m} ==> i in tail
    requires forall i, j :: 0 <= i < j < |tail| ==> Precedes(keys - {m}, tail[i], tail[j])
    requires forall i, j :: i in tail && j in keys - {m} && j !in tail ==> Precedes(keys - {m}, i, j)
    ensures
      var rows := [m] + tail;
      && |rows| <= limit && Distinct(rows) && (forall i :: i in rows ==> i in keys)
      && (|rows| < limit ==> forall i :: i in keys ==> i in rows)
      && (forall i, j :: 0 <= i < j < |rows| ==> Precedes(keys, rows[i], rows[j]))
      && (forall i, j :: i in rows && j in keys && j !in rows ==> Precedes(keys, i, j))
  {
    var rows := [m] + tail;
    forall r ensures r in rows <==> r == m || r in tail {
    }
    forall i, j | 0 <= i < j < |rows| ensures rows[i] in keys && rows[j] in keys && Precedes(keys, rows[i], rows[j]) && rows[i] != rows[j] {
      FirstThenRestPair(keys, m, tail, i, j);
    }
    forall i, j | i in rows && j in keys && j !in rows ensures Precedes(keys, i, j) {
      if i != m { assert Precedes(keys - {m}, i, j); }
    }
  }

  lemma FirstThenRestPair(keys: map<Id, int>, m: Id, tail: seq<Id>, i: nat, j: nat)
    requires IsFirst(keys, m) && i < j <= |tail| && Distinct(tail) && forall i :: i in tail ==> i in keys - {m}
    requires forall i, j :: 0 <= i < j < |tail| ==> Precedes(keys - {m}, tail[i], tail[j])
    ensures
      var rows := [m] + tail;
      rows[i] in keys && rows[j] in keys && Precedes(keys, rows[i], rows[j]) && rows[i] != rows[j]
  {
    var rows := [m] + tail;
    assert rows[j] == tail[j - 1] && tail[j - 1] in tail;
    if i > 0 {
      assert rows[i] == tail[i - 1] && tail[i - 1] in tail;
      assert Precedes(keys - {m}, tail[i - 1], tail[j - 1]);
    }
  }

  // ----- the rows each batch works on; `locked` rows are held by other transactions -----

  function Claimable(db: Db, now: int, locked: set<Id>): map<Id, int> {
    map i | i in db.occurrences && i !in locked && IsClaimable(db, i, now) :: db.occurrences[i].slot.at
  }

  function ClaimBatch(db: Db, now: int, limit: nat, locked: set<Id>): seq<Id> {
    var active := |BusyOccurrences(db.occurrences)|;
    var available := if active < MAX_ACTIVE_OCCURRENCES then MAX_ACTIVE_OCCURRENCES - active else 0;
    FirstRows(Claimable(db, now, locked), Min(limit, available))
  }

  function Expired(db: Db, now: int, locked: set<Id>): map<Id, int> {
    map i | i in db.occurrences && i !in locked && IsExpiredClaim(db, i, now) :: db.occurrences[i].leaseExpiresAt.value
  }

  function ExpiredBatch(db: Db, now: int, limit: nat, locked: set<Id>): seq<Id> {
    FirstRows(Expired(db, now, locked), limit)
  }

  function Linked(db: Db, locked: set<Id>): map<Id, int> {
    map i | i in db.occurrences && i !in locked && IsLinked(db, i) :: db.occurrences[i].slot.at
  }

  function LinkedBatch(db: Db, limit: nat, locked: set<Id>): seq<Id> {
    FirstRows(Linked(db, locked), limit)
  }

  function Due(db: Db, now: int, locked: set<Id>): map<Id, int> {
    map i | i in db.automations && i !in locked && IsDueAutomation(db, i, now) :: db.automations[i].nextAt.value
  }

  function DueBatch(db: Db, now: int, limit: nat, locked: set<Id>): seq<Id> {
    FirstRows(Due(db, now, locked), limit)
  }

  /** The claims a batch hands out for the rows it took. */
  function ClaimsOf(db: Db, rows: seq<Id>, owner: Id): seq<OccurrenceClaim>
    requires forall k :: 0 <= k < |rows| ==> rows[k] in db.occurrences
  {
    seq(|rows|, k requires 0 <= k < |rows| =>
      OccurrenceClaim(rows[k], db.occurrences[rows[k]].slot.automationId, owner, db.occurrences[rows[k]].leaseGeneration + 1))
  }

  /** Expired rows that are linked are skipped. */
  function Unlinked(db: Db, rows: seq<Id>): (r: seq<Id>)
    requires forall k :: 0 <= k < |rows| ==> rows[k] in db.occurrences
    ensures forall k :: 0 <= k < |r| ==> r[k] in db.occurrences
  {
    if rows == [] then []
    else
      var n := |rows| - 1;
      Unlinked(db, rows[..n]) + if db.occurrences[rows[n]].runId.None? then [rows[n]] else []
  }

  lemma NothingUnlinked(db: Db, rows: seq<Id>, owner: Id)
    ensures ClaimsOf(db, Unlinked(db, rows[..0]), owner) == []
  {
  }

  lemma UnlinkedGrows(db: Db, rows: seq<Id>, k: nat, owner: Id)
    requires k < |rows| && forall j :: 0 <= j < |rows| ==> rows[j] in db.occurrences
    ensures
      var o, before := db.occurrences[rows[k]], ClaimsOf(db, Unlinked(db, rows[..k]), owner);
      ClaimsOf(db, Unlinked(db, rows[..k + 1]), owner)
      == if o.runId.None? then before + [OccurrenceClaim(rows[k], o.slot.automationId, owner, o.leaseGeneration + 1)] else before
  {
    assert rows[..k + 1][..k] == rows[..k];
  }

  /** The catch-up of a due automation. */
  function CatchUpOf(db: Db, aid: Id, now: int): Schedule.Outcome<CatchUp.Due>
    requires aid in db.automations
  {
    CatchUp.LatestDueAndFuture(db.automations[aid].schedule, db.automations[aid].nextAt, Minute(now))
  }

  predicate BatchLimit(limit: int) {
    1 <= limit <= MAX_BATCH_SIZE
  }

  // ----- batches as sequences of row steps -----

  function ClaimSteps(rows: seq<Id>, now: int, owner: Id, lease: int): seq<Step> {
    seq(|rows|, k requires 0 <= k < |rows| => ClaimStep(rows[k], now, owner, lease))
  }

  function ReclaimSteps(rows: seq<Id>, now: int, owner: Id, lease: int): seq<Step> {
    seq(|rows|, k requires 0 <= k < |rows| => ReclaimStep(rows[k], now, owner, lease))
  }

  function ReconcileSteps(rows: seq<Id>, now: int): seq<Step> {
    seq(|rows|, k requires 0 <= k < |rows| => ReconcileStep(rows[k], now))
  }

  function MaterializeSteps(rows: seq<Id>, ids: seq<Id>, now: int): seq<Step>
    requires |ids| >= |rows|
  {
    seq(|rows|, k requires 0 <= k < |rows| => MaterializeStep(rows[k], ids[k], now))
  }

  /** Every step of a batch commits. */
  ghost predicate AllEnabled(db: Db, steps: seq<Step>) {
    forall k :: 0 <= k < |steps| ==> Attempt(Run(db, steps[..k]), steps[k]).Ok?
  }

  /** The error of the first row whose schedule cannot be calculated. */
  ghost predicate FirstFailure(db: Db, rows: seq<Id>, now: int, e: SchedulerError)
    requires forall k :: 0 <= k < |rows| ==> rows[k] in db.automations
  {
    exists k :: 0 <= k < |rows| && CatchUpOf(db, rows[k], now).Err? && e == ScheduleFailed(CatchUpOf(db, rows[k], now).error)
                && forall j :: 0 <= j < k ==> CatchUpOf(db, rows[j], now).Ok?
  }

  /** Running one more step. */
  lemma {:induction false} RunAppend(db: Db, steps: seq<Step>, s: Step)
    ensures Run(db, steps + [s]) == Apply(Run(db, steps), s)
    decreases |steps|
  {
    hide Apply;
    if steps == [] {
      assert [] + [s] == [s];
      assert Run(db, [s]) == Run(Apply(db, s), [s][1..]);
      assert [s][1..] == [];
    } else {
      assert (steps + [s])[0] == steps[0] && (steps + [s])[1..] == steps[1..] + [s];
      RunAppend(Apply(db, steps[0]), steps[1..], s);
    }
  }

  lemma StepsGrow(all: seq<Step>, k: nat)
    requires k < |all|
    ensures all[..k + 1] == all[..k] + [all[k]]
  {
  }

  lemma ClaimApplies(db: Db, oid: Id, now: int, owner: Id, lease: int)
    requires IsClaimable(db, oid, now) && LeaseAllowed(lease) && now <= db.clock
    requires |BusyOccurrences(db.occurrences)| < MAX_ACTIVE_OCCURRENCES
    ensures oid in db.occurrences
    ensures Apply(db, ClaimStep(oid, now, owner, lease))
            == Put(db, oid, GrantLease(db.occurrences[oid], now, owner, lease))
    ensures |BusyOccurrences(Put(db, oid, GrantLease(db.occurrences[oid], now, owner, lease)).occurrences)|
            <= |BusyOccurrences(db.occurrences)| + 1
  {
    BusyAfterPut(db.occurrences, oid, GrantLease(db.occurrences[oid], now, owner, lease));
    assert BusyOccurrences(db.occurrences) - {oid} == BusyOccurrences(db.occurrences);
  }

  lemma ReclaimApplies(db: Db, oid: Id, now: int, owner: Id, lease: int)
    requires IsExpiredClaim(db, oid, now) && LeaseAllowed(lease) && now <= db.clock
    ensures Apply(db, ReclaimStep(oid, now, owner, lease))
            == if db.occurrences[oid].runId.Some? then db
               else Put(db, oid, GrantLease(db.occurrences[oid], now, owner, lease))
  {
  }

  lemma ReconcileApplies(db: Db, oid: Id, now: int)
    requires IsLinked(db, oid) && now <= db.clock
    ensures var o := db.occurrences[oid];
            Apply(db, ReconcileStep(oid, now))
            == Put(db, oid, ReconcileRow(o, if o.runId.value in db.runs then Some(db.runs[o.runId.value]) else None, now))
  {
    hide ReconcileRow;
  }

  /** A due row stays due while other automations are materialised. */
  lemma DueUnaffected(db: Db, after: Db, aid: Id, other: Id, newId: Id, now: int)
    requires IsDueAutomation(db, aid, now) && aid != other && other in db.automations
    requires Materialize(db, other, newId, now) == Ok(after)
    ensures IsDueAutomation(after, aid, now)
  {
    hide CatchUp.LatestDueAndFuture, NewOccurrence, Minute;
    var a := db.automations[other];
    var due := CatchUp.LatestDueAndFuture(a.schedule, a.nextAt, Minute(now)).value;
    var slot := Slot(other, a.scheduleRevision, due.latest.instant);
    NewSlot(a, slot, now);
    assert after.automations[aid] == db.automations[aid];
  }

  lemma NewSlot(a: Automation, slot: Slot, now: int)
    ensures NewOccurrence(a, slot, now).slot == slot
  {
  }

  class Store {
    var clock: int
    var projects: set<Id>
    var automations: map<Id, Automation>
    var occurrences: map<Id, Occurrence>
    var runs: map<Id, RunRow>
    var slotIndex: map<Slot, Id>
    var runIndex: map<RunKey, Id>

    constructor ()
      ensures View() == EMPTY
    {
      clock, projects, automations, occurrences, runs := 0, {}, map[], map[], map[];
      slotIndex, runIndex := map[], map[];
    }

    /** All rows as one value. */
    function View(): Db
      reads this
    {
      Db(clock, projects, automations, occurrences, runs, slotIndex, runIndex)
    }

    /** Undo everything since `saved` was taken. */
    method Rollback(saved: Db)
      modifies this
      ensures View() == saved
    {
      clock, projects, automations, occurrences := saved.clock, saved.projects, saved.automations, saved.occurrences;
      runs, slotIndex, runIndex := saved.runs, saved.slotIndex, saved.runIndex;
    }

    /** The assignments of one claim. */
    method ClaimRow(oid: Id, now: int, owner: Id, lease: int) returns (claim: OccurrenceClaim)
      requires oid in occurrences
      modifies this`occurrences
      ensures View() == Put(old(View()), oid, GrantLease(old(occurrences)[oid], now, owner, lease))
      ensures claim == OccurrenceClaim(oid, old(occurrences)[oid].slot.automationId, owner, old(occurrences)[oid].leaseGeneration + 1)
    {
      var o := occurrences[oid];
      o := o.(state := Claimed, revision := o.revision + 1);
      o := o.(leaseOwner := Some(owner), leaseGeneration := o.leaseGeneration + 1);
      o := o.(leaseExpiresAt := Some(now + lease));
      occurrences := occurrences[oid := o];
      claim := OccurrenceClaim(oid, o.slot.automationId, owner, o.leaseGeneration);
    }

    /** The assignments of one takeover; the row is claimed already. */
    method TakeOverRow(oid: Id, now: int, owner: Id, lease: int) returns (claim: OccurrenceClaim)
      requires oid in occurrences && occurrences[oid].state.Claimed?
      modifies this`occurrences
      ensures View() == Put(old(View()), oid, GrantLease(old(occurrences)[oid], now, owner, lease))
      ensures claim == OccurrenceClaim(oid, old(occurrences)[oid].slot.automationId, owner, old(occurrences)[oid].leaseGeneration + 1)
    {
      var o := occurrences[oid];
      o := o.(leaseOwner := Some(owner), leaseGeneration := o.leaseGeneration + 1);
      o := o.(leaseExpiresAt := Some(now + lease), revision := o.revision + 1);
      occurrences := occurrences[oid := o];
      claim := OccurrenceClaim(oid, o.slot.automationId, owner, o.leaseGeneration);
    }

    /** `claim_due`: claims the oldest due rows, as many as the batch and the instance capacity allow. */
    method ClaimDue(now: int, owner: Id, lease: int, limit: int, locked: set<Id>) returns (r: Outcome<seq<OccurrenceClaim>>)
      requires now <= clock
      modifies this
      ensures r.Ok? <==> LeaseAllowed(lease) && (BatchLimit(limit) || |BusyOccurrences(old(occurrences))| >= MAX_ACTIVE_OCCURRENCES)
      ensures r.Err? ==> r.error == ValidationError && View() == old(View())
      ensures r.Ok? && !BatchLimit(limit) ==> r.value == [] && View() == old(View())
      ensures r.Ok? && BatchLimit(limit) ==>
                var rows := ClaimBatch(old(View()), now, limit, locked);
                && (forall k :: 0 <= k < |rows| ==> rows[k] in old(occurrences))
                && r.value == ClaimsOf(old(View()), rows, owner)
                && View() == Run(old(View()), ClaimSteps(rows, now, owner, lease))
    {
      hide IsClaimable, BusyOccurrences, Apply, Run, GrantLease;
      if !LeaseAllowed(lease) {
        return Err(ValidationError);
      }
      var active := |BusyOccurrences(occurrences)|;
      var available := if active < MAX_ACTIVE_OCCURRENCES then MAX_ACTIVE_OCCURRENCES - active else 0;
      var db := View();
      RunNothing(db);
      if available == 0 {
        if BatchLimit(limit) { ClaimBatchFacts(db, now, limit, locked); }
        assert ClaimSteps([], now, owner, lease) == [];
        return Ok([]);
      }
      if !BatchLimit(limit) {
        return Err(ValidationError);
      }
      var rows := ClaimBatch(db, now, limit, locked);
      ClaimBatchFacts(db, now, limit, locked);
      var claims: seq<OccurrenceClaim> := [];
      ghost var steps := ClaimSteps(rows, now, owner, lease);
      hide ClaimBatch;
      for k := 0 to |rows|
        invariant View() == Run(db, steps[..k])
        invariant clock == db.clock && automations == db.automations
        invariant forall j :: k <= j < |rows| ==> rows[j] in occurrences && occurrences[rows[j]] == db.occurrences[rows[j]]
        invariant |BusyOccurrences(occurrences)| + (|rows| - k) <= MAX_ACTIVE_OCCURRENCES
        invariant claims == ClaimsOf(db, rows, owner)[..k]
      {
        var oid := rows[k];
        ghost var before := View();
        ClaimableUnaffected(db, before, oid, now);
        ClaimApplies(before, oid, now, owner, lease);
        var claim := ClaimRow(oid, now, owner, lease);
        claims := claims + [claim];
        StepsGrow(steps, k);
        RunAppend(db, steps[..k], steps[k]);
      }
      assert steps[..|rows|] == steps;
      return Ok(claims);
    }

    /** `reclaim_expired`: takes over expired unlinked claims under a new generation. */
    method ReclaimExpired(now: int, owner: Id, lease: int, limit: int, locked: set<Id>) returns (r: Outcome<seq<OccurrenceClaim>>)
      requires now <= clock
      modifies this
      ensures r.Ok? <==> LeaseAllowed(lease) && BatchLimit(limit)
      ensures r.Err? ==> r.error == ValidationError && View() == old(View())
      ensures r.Ok? ==>
                var rows := ExpiredBatch(old(View()), now, limit, locked);
                && (forall k :: 0 <= k < |rows| ==> rows[k] in old(occurrences))
                && r.value == ClaimsOf(old(View()), Unlinked(old(View()), rows), owner)
                && View() == Run(old(View()), ReclaimSteps(rows, now, owner, lease))
    {
      hide IsExpiredClaim, Apply, Run, BusyOccurrences, GrantLease, Unlinked, ClaimsOf;
      if !LeaseAllowed(lease) || !BatchLimit(limit) {
        return Err(ValidationError);
      }
      var db := View();
      var rows := ExpiredBatch(db, now, limit, locked);
      ExpiredBatchFacts(db, now, limit, locked);
      var claims: seq<OccurrenceClaim> := [];
      ghost var steps := ReclaimSteps(rows, now, owner, lease);
      RunNothing(db);
      NothingUnlinked(db, rows, owner);
      hide ExpiredBatch;
      for k := 0 to |rows|
        invariant View() == Run(db, steps[..k])
        invariant clock == db.clock
        invariant forall j :: k <= j < |rows| ==> rows[j] in occurrences && occurrences[rows[j]] == db.occurrences[rows[j]]
        invariant claims == ClaimsOf(db, Unlinked(db, rows[..k]), owner)
      {
        var oid := rows[k];
        ghost var before := View();
        ExpiredUnaffected(db, before, oid, now);
        ReclaimApplies(before, oid, now, owner, lease);
        StepsGrow(steps, k);
        RunAppend(db, steps[..k], steps[k]);
        UnlinkedGrows(db, rows, k, owner);
        var o := occurrences[oid];
        if o.runId.None? {
          var claim := TakeOverRow(oid, now, owner, lease);
          claims := claims + [claim];
        }
      }
      assert steps[..|rows|] == steps && rows[..|rows|] == rows;
      return Ok(claims);
    }

    /** `reconcile_linked`: projects Run states into the linked rows. */
    method ReconcileLinked(now: int, limit: int, locked: set<Id>) returns (r: Outcome<seq<Id>>)
      requires now <= clock
      modifies this
      ensures r.Ok? <==> BatchLimit(limit)
      ensures r.Err? ==> View() == old(View())
      ensures r.Ok? ==>
                && r.value == LinkedBatch(old(View()), limit, locked)
                && View() == Run(old(View()), ReconcileSteps(r.value, now))
    {
      hide IsLinked, Apply, Run, RunDisposition;
      if !BatchLimit(limit) {
        return Err(ValidationError);
      }
      var db := View();
      var rows := LinkedBatch(db, limit, locked);
      LinkedBatchFacts(db, limit, locked);
      ghost var steps := ReconcileSteps(rows, now);
      RunNothing(db);
      for k := 0 to |rows|
        invariant View() == Run(db, steps[..k])
        invariant clock == db.clock && runs == db.runs
        invariant forall j :: k <= j < |rows| ==> rows[j] in occurrences && occurrences[rows[j]] == db.occurrences[rows[j]]
      {
        var oid := rows[k];
        ghost var before := View();
        LinkedUnaffected(db, before, oid);
        ReconcileApplies(before, oid, now);
        StepsGrow(steps, k);
        RunAppend(db, steps[..k], steps[k]);
        var o := occurrences[oid];
        if o.runId.value !in runs {
          o := o.(state := OccurrenceState.Failed, errorCode := Some("linked_run_missing"));
          o := o.(disposition := Some("operator_review_required"), completedAt := Some(now), revision := o.revision + 1);
        } else if Terminal(runs[o.runId.value].state) {
          var code := RunDisposition(runs[o.runId.value].state);
          if runs[o.runId.value].state.Completed? {
            o := o.(state := OccurrenceState.Completed, errorCode := None);
          } else {
            o := o.(state := OccurrenceState.Failed, errorCode := Some(code));
          }
          o := o.(disposition := Some(code), completedAt := Some(now), revision := o.revision + 1);
        } else if o.state.Claimed? {
          o := o.(state := RunCreated, disposition := Some("run_created"), revision := o.revision + 1);
        }
        occurrences := occurrences[oid := o];
      }
      assert steps[..|rows|] == steps;
      return Ok(rows);
    }

    /**
     `materialize_due`: inserts the latest due slot of each due automation and moves it on; the first
     schedule that cannot be calculated rolls the whole batch back.
     */
    method MaterializeDue(now: int, limit: int, locked: set<Id>, newIds: seq<Id>) returns (r: Outcome<seq<Id>>)
      requires now <= clock
      requires |newIds| >= MAX_BATCH_SIZE && Distinct(newIds) && forall i :: i in newIds ==> i !in occurrences
      modifies this
      ensures !BatchLimit(limit) ==> r == Err(ValidationError)
      ensures BatchLimit(limit) ==>
                var rows := DueBatch(old(View()), now, limit, locked);
                && |rows| <= |newIds| && (forall k :: 0 <= k < |rows| ==> rows[k] in old(automations))
                && match r
                   case Ok(ids) =>
                     && ids == rows
                     && View() == Run(old(View()), MaterializeSteps(rows, newIds, now))
                     && AllEnabled(old(View()), MaterializeSteps(rows, newIds, now))
                   case Err(e) => FirstFailure(old(View()), rows, now, e)
      ensures r.Err? ==> View() == old(View())
    {
      hide IsDueAutomation, Apply, Run, Attempt, CatchUpOf, Materialize;
      if !BatchLimit(limit) {
        return Err(ValidationError);
      }
      var db := View();
      var rows := DueBatch(db, now, limit, locked);
      DueBatchFacts(db, now, limit, locked);
      ghost var steps := MaterializeSteps(rows, newIds, now);
      RunNothing(db);
      hide DueBatch;
      for k := 0 to |rows|
        invariant View() == Run(db, steps[..k])
        invariant clock == db.clock
        invariant forall j :: k <= j < |rows| ==> StillDue(db, View(), rows[j], now)
        invariant forall j :: k <= j < |newIds| ==> newIds[j] !in occurrences
        invariant forall j :: 0 <= j < k ==> CatchUpOf(db, rows[j], now).Ok?
        invariant forall j :: 0 <= j < k ==> Attempt(Run(db, steps[..j]), steps[j]).Ok?
      {
        var aid, newId := rows[k], newIds[k];
        ghost var before := View();
        SameCatchUp(db, before, aid, now);
        var error := MaterializeRow(aid, newId, now);
        if error.Some? {
          Rollback(db);
          return Err(ScheduleFailed(error.value));
        }
        MaterializeApplies(before, View(), aid, newId, now);
        StepsGrow(steps, k);
        RunAppend(db, steps[..k], steps[k]);
        forall j | k + 1 <= j < |rows| ensures StillDue(db, View(), rows[j], now) {
          assert StillDue(db, before, rows[j], now);
          DueUnaffected(before, View(), rows[j], aid, newId, now);
        }
      }
      assert steps[..|rows|] == steps;
      return Ok(rows);
    }

    /** One due automation. */
    method MaterializeRow(aid: Id, newId: Id, now: int) returns (error: Option<Schedule.ScheduleError>)
      requires aid in automations && IsDueAutomation(View(), aid, now) && newId !in occurrences
      modifies this`occurrences, this`slotIndex, this`automations
      ensures match CatchUpOf(old(View()), aid, now)
              case Err(e) => error == Some(e)
              case Ok(_) => error.None? && Materialize(old(View()), aid, newId, now) == Ok(View())
      ensures error.None? ==>
                && automations.Keys == old(automations).Keys && occurrences.Keys <= old(occurrences).Keys + {newId}
                && forall other :: other in automations && other != aid ==> automations[other] == old(automations)[other]
    {
      hide IsDueAutomation, CatchUp.LatestDueAndFuture, NewOccurrence, Minute;
      var a := automations[aid];
      var due := CatchUp.ComputeLatestDueAndFuture(a.schedule, a.nextAt, Minute(now));
      if due.Err? {
        return Some(due.error);
      }
      var slot := Slot(aid, a.scheduleRevision, due.value.latest.instant);
      if slot !in slotIndex {
        occurrences := occurrences[newId := NewOccurrence(a, slot, now)];
        slotIndex := slotIndex[slot := newId];
      }
      automations := automations[aid := a.(nextAt := if due.value.following.None? then None
                                                     else Some(due.value.following.value.instant))];
      return None;
    }

    /** `defer_setup`: back to due with a delay, or failed after the last attempt. */
    method DeferSetup(oid: Id, now: int, capacity: bool) returns (r: Outcome<bool>)
      modifies this
      ensures match Defer(old(View()), oid, now, capacity)
              case Err(e) => r == Err(e) && View() == old(View())
              case Ok(after) => View() == after && oid in occurrences
                                && r == Ok(occurrences[oid].state.Due?)
    {
      hide RetryDelay;
      if oid !in occurrences || occurrences[oid].runId.Some? {
        return Err(AmbiguousOutcome);
      }
      var o := occurrences[oid];
      if o.slot.automationId !in automations || !o.state.Claimed? {
        return Err(AmbiguousOutcome);
      }
      if capacity {
        o := o.(state := Due, retryNotBefore := Some(now + RetryDelay(oid, 1)));
        o := o.(leaseOwner := None, leaseExpiresAt := None);
        o := o.(disposition := Some("capacity_deferred"), revision := o.revision + 1);
        occurrences := occurrences[oid := o];
        return Ok(true);
      }
      o := o.(attemptCount := o.attemptCount + 1);
      var limit := Min(automations[o.slot.automationId].retryLimit, MAX_SETUP_ATTEMPTS);
      if o.attemptCount >= limit {
        o := o.(state := OccurrenceState.Failed, errorCode := Some("setup_retry_exhausted"));
        o := o.(disposition := Some("operator_review_required"), retryNotBefore := None);
        o := o.(completedAt := Some(now), revision := o.revision + 1);
        occurrences := occurrences[oid := o];
        return Ok(false);
      }
      o := o.(state := Due, retryNotBefore := Some(now + RetryDelay(oid, o.attemptCount)));
      o := o.(leaseOwner := None, leaseExpiresAt := None);
      o := o.(disposition := Some("setup_retry_deferred"), revision := o.revision + 1);
      occurrences := occurrences[oid := o];
      return Ok(true);
    }

    /** `fail_closed`: a terminal outcome for an unlinked row. */
    method CloseFailed(oid: Id, now: int, code: string) returns (r: Outcome<()>)
      modifies this
      ensures match FailClosed(old(View()), oid, now, code)
              case Err(e) => r == Err(e) && View() == old(View())
              case Ok(after) => r == Ok(()) && View() == after
    {
      if oid !in occurrences || occurrences[oid].runId.Some? {
        return Err(AmbiguousOutcome);
      }
      var o := occurrences[oid];
      if TerminalOccurrence(o.state) {
        return Ok(());
      }
      o := o.(state := OccurrenceState.Failed, errorCode := Some(code));
      o := o.(disposition := Some("operator_review_required"), retryNotBefore := None);
      o := o.(completedAt := Some(now), revision := o.revision + 1);
      occurrences := occurrences[oid := o];
      return Ok(());
    }

    /** `renew_claim`: extends the lease of the exact live claim. */
    method RenewClaim(claim: OccurrenceClaim, now: int, lease: int) returns (r: Outcome<OccurrenceClaim>)
      modifies this
      ensures match Renew(old(View()), claim, now, lease)
              case Err(e) => r == Err(e) && View() == old(View())
              case Ok(after) => r == Ok(claim) && View() == after
    {
      hide ClaimHolds;
      if !LeaseAllowed(lease) {
        return Err(ValidationError);
      }
      if claim.automationId !in automations || claim.occurrenceId !in occurrences {
        return Err(ClaimFenceError);
      }
      var o := occurrences[claim.occurrenceId];
      if !ClaimHolds(automations[claim.automationId], o, claim, now) {
        return Err(ClaimFenceError);
      }
      o := o.(leaseExpiresAt := Some(now + lease));
      o := o.(revision := o.revision + 1);
      occurrences := occurrences[claim.occurrenceId := o];
      return Ok(claim);
    }

    /** `create_run`: replay before capacity, then insert. */
    method CreateAgentRun(newRun: Id, key: RunKey, request: RunRequest) returns (r: Outcome<Id>)
      modifies this
      ensures match CreateRun(old(View()), newRun, key, request)
              case Err(e) => r == Err(e) && View() == old(View())
              case Ok((after, run)) => r == Ok(run) && View() == after
    {
      hide LiveRuns;
      if key in runIndex && runIndex[key] in runs {
        if runs[runIndex[key]].request != request {
          return Err(IdempotencyConflict);
        }
        return Ok(runIndex[key]);
      }
      if |LiveRuns(runs)| >= MAX_ACTIVE_RUNS {
        return Err(RunCapacity);
      }
      if request.projectId.Some? && request.projectId.value !in projects {
        return Err(ProjectNotFound);
      }
      if newRun in runs {
        return Err(StepDisabled);
      }
      runs := runs[newRun := RunRow(RunState.Created, key, request)];
      runIndex := runIndex[key := newRun];
      return Ok(newRun);
    }

    /** `create_and_link_run`: creates or replays the Run and links it under the live lease. */
    method CreateAndLinkRun(claim: OccurrenceClaim, now: int, newRun: Id) returns (r: Outcome<Id>)
      modifies this
      ensures match CreateAndLink(old(View()), claim, now, newRun)
              case Err(e) => r == Err(e) && View() == old(View())
              case Ok((after, run)) => r == Ok(run) && View() == after
    {
      hide LiveRuns, RunRequestOf, ClaimHolds, Schedulable, ProjectRequired, CreateRun;
      var saved := View();
      if claim.automationId !in automations || claim.occurrenceId !in occurrences {
        return Err(ClaimFenceError);
      }
      var oid := claim.occurrenceId;
      var o := occurrences[oid];
      var key := RunKeyOf(oid, o);
      if o.state.RunCreated? && o.runId.Some? {
        if key !in runIndex || runIndex[key] !in runs {
          return Err(ValidationError);
        }
        if runs[runIndex[key]].request != RunRequestOf(o) {
          return Err(IdempotencyConflict);
        }
        if runIndex[key] != o.runId.value {
          return Err(ValidationError);
        }
        return Ok(o.runId.value);
      }
      if !ClaimHolds(automations[claim.automationId], o, claim, now) {
        return Err(ClaimFenceError);
      }
      var s := o.snapshot;
      if s.mode.AutomaticReadOnly? && !Schedulable(s.agentKind, s.agentVersion) {
        return Err(ModeUnsupported);
      }
      if !Schedulable(s.agentKind, s.agentVersion)
         || (ProjectRequired(s.agentKind) && s.projectId.None?)
         || !ProjectVisible(View(), s.projectId)
      {
        return Err(ValidationError);
      }
      var created := CreateAgentRun(newRun, key, RunRequestOf(o));
      if created.Err? {
        return Err(created.error);
      }
      CreateRunKeepsRows(saved, newRun, key, RunRequestOf(o));
      if o.runId.Some? && o.runId.value != created.value {
        Rollback(saved);
        return Err(ValidationError);
      }
      o := o.(runId := Some(created.value), state := RunCreated);
      o := o.(revision := o.revision + 1, disposition := Some("run_created"));
      occurrences := occurrences[oid := o];
      return Ok(created.value);
    }

    // ----- operator lifecycle -----

    /** `update_automation`: applies the patched fields and bumps the revisions. */
    method Update(aid: Id, expected: nat, patch: Patch) returns (r: Outcome<()>)
      modifies this
      ensures match UpdateAutomation(old(View()), aid, expected, patch)
              case Err(e) => r == Err(e) && View() == old(View())
              case Ok(after) => r == Ok(()) && View() == after
    {
      hide FirstFutureSlot, ScopeValid, ModeValid, Schedule.ValidDefinition, PatchFields;
      var locked := LockExpected(View(), aid, expected);
      if locked.Err? {
        return Err(locked.error);
      }
      var a := locked.value;
      if a.lifecycle.Cancelled? {
        return Err(TransitionConflict);
      }
      if patch.(title := None) != Patch(None, None, None, None, None, None)
         && !a.lifecycle.Draft? && !a.lifecycle.Paused?
      {
        return Err(TransitionConflict);
      }
      PatchedScope(a, patch);
      if !ScopeValid(View(), a.snapshot.(projectId := if patch.projectId.Some? then patch.projectId.value
                                                      else a.snapshot.projectId))
      {
        return Err(DefinitionError);
      }
      if patch.schedule.Some? && !Schedule.ValidDefinition(patch.schedule.value) {
        return Err(DefinitionError);
      }
      if patch.mode.Some? && !ModeValid(a.snapshot, patch.mode.value) {
        return Err(DefinitionError);
      }
      a := ApplyPatch(a, patch);
      if patch.schedule.Some? {
        a := a.(scheduleRevision := a.scheduleRevision + 1);
        if a.lifecycle.Paused? {
          var point := FirstFutureSlot(a.schedule, clock);
          if point.Err? {
            return Err(point.error);
          }
          a := a.(nextAt := Some(point.value));
        } else {
          a := a.(nextAt := None);
        }
      }
      automations := automations[aid := a];
      return Ok(());
    }

    /** The field assignments of `update_automation`. */
    static method ApplyPatch(row: Automation, patch: Patch) returns (a: Automation)
      ensures a == PatchFields(row, patch)
    {
      a := row;
      if patch.schedule.Some? { a := a.(schedule := patch.schedule.value); }
      if patch.title.Some? { a := a.(title := patch.title.value); }
      if patch.projectId.Some? { a := a.(snapshot := a.snapshot.(projectId := patch.projectId.value)); }
      if patch.mode.Some? { a := a.(snapshot := a.snapshot.(mode := patch.mode.value)); }
      if patch.missedPolicy.Some? { a := a.(missedPolicy := patch.missedPolicy.value); }
      if patch.retryLimit.Some? { a := a.(retryLimit := patch.retryLimit.value); }
      a := a.(revision := a.revision + 1);
    }

    /** `enable_automation` (from draft) and `resume_automation` (from paused). */
    method EnableFrom(aid: Id, expected: nat, from: Lifecycle) returns (r: Outcome<()>)
      modifies this
      ensures match Activate(old(View()), aid, expected, from)
              case Err(e) => r == Err(e) && View() == old(View())
              case Ok(after) => r == Ok(()) && View() == after
    {
      hide FirstFutureSlot, ScopeValid, ModeValid, Schedule.ValidDefinition;
      var locked := LockExpected(View(), aid, expected);
      if locked.Err? {
        return Err(locked.error);
      }
      var a := locked.value;
      if a.lifecycle != from {
        return Err(TransitionConflict);
      }
      if !ScopeValid(View(), a.snapshot) {
        return Err(DefinitionError);
      }
      var point := FirstFutureSlot(a.schedule, clock);
      if point.Err? {
        return Err(point.error);
      }
      a := a.(lifecycle := Enabled);
      a := a.(nextAt := Some(point.value));
      a := a.(revision := a.revision + 1);
      automations := automations[aid := a];
      return Ok(());
    }
  }

  lemma PatchedScope(a: Automation, patch: Patch)
    ensures var b := PatchFields(a, patch);
            && b.snapshot.(mode := a.snapshot.mode)
               == a.snapshot.(projectId := if patch.projectId.Some? then patch.projectId.value else a.snapshot.projectId)
            && (patch.schedule.Some? ==> b.schedule == patch.schedule.value)
            && b.lifecycle == a.lifecycle && b.scheduleRevision == a.scheduleRevision
  {
  }

  lemma MaterializeApplies(db: Db, after: Db, aid: Id, newId: Id, now: int)
    requires Materialize(db, aid, newId, now) == Ok(after) && now <= db.clock
    ensures Apply(db, MaterializeStep(aid, newId, now)) == after
    ensures Attempt(db, MaterializeStep(aid, newId, now)).Ok?
  {
    hide Materialize;
  }

  lemma ExpiredUnaffected(db: Db, after: Db, oid: Id, now: int)
    requires IsExpiredClaim(db, oid, now) && oid in after.occurrences
    requires after.occurrences[oid] == db.occurrences[oid]
    ensures IsExpiredClaim(after, oid, now) && after.occurrences[oid].state.Claimed?
  {
  }

  lemma LinkedUnaffected(db: Db, after: Db, oid: Id)
    requires IsLinked(db, oid) && oid in after.occurrences
    requires after.occurrences[oid] == db.occurrences[oid]
    ensures IsLinked(after, oid) && after.occurrences[oid].runId.Some?
  {
  }

  /** A row of the batch that earlier rows have left as it was. */
  ghost predicate StillDue(db: Db, after: Db, aid: Id, now: int) {
    && aid in db.automations && aid in after.automations && after.automations[aid] == db.automations[aid]
    && IsDueAutomation(after, aid, now)
  }

  lemma SameCatchUp(db: Db, after: Db, aid: Id, now: int)
    requires aid in db.automations && aid in after.automations && after.automations[aid] == db.automations[aid]
    ensures CatchUpOf(after, aid, now) == CatchUpOf(db, aid, now)
  {
  }

  /** What the batches know about their rows. */
  lemma ClaimBatchFacts(db: Db, now: int, limit: nat, locked: set<Id>)
    ensures
      var rows := ClaimBatch(db, now, limit, locked);
      && Distinct(rows) && |rows| <= limit
      && (forall k :: 0 <= k < |rows| ==> rows[k] in db.occurrences && IsClaimable(db, rows[k], now))
      && (rows == [] || |BusyOccurrences(db.occurrences)| + |rows| <= MAX_ACTIVE_OCCURRENCES)
  {
    hide IsClaimable, BusyOccurrences, FirstRows;
    var active := |BusyOccurrences(db.occurrences)|;
    var available := if active < MAX_ACTIVE_OCCURRENCES then MAX_ACTIVE_OCCURRENCES - active else 0;
    FirstRowsAreOldest(Claimable(db, now, locked), Min(limit, available));
    assert forall k :: 0 <= k < |ClaimBatch(db, now, limit, locked)| ==> ClaimBatch(db, now, limit, locked)[k] in Claimable(db, now, locked);
  }

  lemma ExpiredBatchFacts(db: Db, now: int, limit: nat, locked: set<Id>)
    ensures
      var rows := ExpiredBatch(db, now, limit, locked);
      Distinct(rows) && forall k :: 0 <= k < |rows| ==> rows[k] in db.occurrences && IsExpiredClaim(db, rows[k], now)
  {
    FirstRowsAreOldest(Expired(db, now, locked), limit);
    hide IsExpiredClaim, FirstRows;
    assert forall k :: 0 <= k < |ExpiredBatch(db, now, limit, locked)| ==> ExpiredBatch(db, now, limit, locked)[k] in Expired(db, now, locked);
  }

  lemma LinkedBatchFacts(db: Db, limit: nat, locked: set<Id>)
    ensures
      var rows := LinkedBatch(db, limit, locked);
      Distinct(rows) && forall k :: 0 <= k < |rows| ==> rows[k] in db.occurrences && IsLinked(db, rows[k])
  {
    FirstRowsAreOldest(Linked(db, locked), limit);
    hide IsLinked, FirstRows;
    assert forall k :: 0 <= k < |LinkedBatch(db, limit, locked)| ==> LinkedBatch(db, limit, locked)[k] in Linked(db, locked);
  }

  lemma DueBatchFacts(db: Db, now: int, limit: nat, locked: set<Id>)
    ensures
      var rows := DueBatch(db, now, limit, locked);
      && Distinct(rows) && |rows| <= limit
      && forall k :: 0 <= k < |rows| ==> rows[k] in db.automations && IsDueAutomation(db, rows[k], now)
  {
    FirstRowsAreOldest(Due(db, now, locked), limit);
    hide IsDueAutomation, FirstRows;
    assert forall k :: 0 <= k < |DueBatch(db, now, limit, locked)| ==> DueBatch(db, now, limit, locked)[k] in Due(db, now, locked);
  }

  lemma RunNothing(db: Db)
    ensures Run(db, []) == db
  {
  }

  lemma ClaimableUnaffected(db: Db, after: Db, oid: Id, now: int)
    requires IsClaimable(db, oid, now) && oid in after.occurrences
    requires after.automations == db.automations && after.occurrences[oid] == db.occurrences[oid]
    ensures IsClaimable(after, oid, now)
  {
  }
}
