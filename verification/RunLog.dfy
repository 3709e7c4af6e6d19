/** The event log of a Run replays to its state, and every claim wins at most once. */
module RunLog {
  import opened Wrappers
  import opened AgentRunStates
  import opened ToolPolicy
  import opened RunModel
  import opened RunInvariant
  import opened RunSafety

  datatype Replayed = Replayed(state: RunState, revision: nat)

  /** Reads a log from its first event; `None` when an event does not fit what came before it. */
  function Replay(events: seq<Event>): Option<Replayed> {
    if events == [] then None
    else if |events| == 1 then (if events[0].body.RunCreatedEvent? then Some(Replayed(Created, 0)) else None)
    else match Replay(events[..|events| - 1])
      case None => None
      case Some(so) =>
        match events[|events| - 1].body
        case StateChanged(previous, next, revision) =>
          if previous == so.state && LegalTransition(previous, next) && revision == so.revision + 1
          then Some(Replayed(next, revision)) else None
        case _ => Some(so)
  }

  predicate LogOk(run: AgentRun) {
    Contiguous(run.events) && Replay(run.events) == Some(Replayed(run.state, run.revision))
  }

  function StateChanges(events: seq<Event>): nat {
    if events == [] then 0
    else StateChanges(events[..|events| - 1]) + if events[|events| - 1].body.StateChanged? then 1 else 0
  }

  lemma {:induction false} QuietEventsReplayNothing(events: seq<Event>, from: nat, upTo: nat)
    requires 0 < from <= upTo <= |events|
    requires NoStateChange(events, from, upTo)
    ensures Replay(events[..upTo]) == Replay(events[..from])
    decreases upTo
  {
    if from < upTo {
      QuietEventsReplayNothing(events, from, upTo - 1);
      assert events[..upTo][..upTo - 1] == events[..upTo - 1];
    }
  }

  lemma LogKept(run: AgentRun, after: AgentRun)
    requires LogOk(run) && Logged(run, after)
    ensures LogOk(after)
  {
    var n, m := |run.events|, |after.events|;
    assert after.events[..n] == run.events && after.events[..m] == after.events;
    if after.revision == run.revision {
      QuietEventsReplayNothing(after.events, n, m);
    } else {
      QuietEventsReplayNothing(after.events, n, m - 1);
    }
  }

  lemma {:induction false} RunsKeepLog(run: AgentRun, reg: Registry, steps: seq<Step>)
    requires Inv(run, reg) && LogOk(run)
    ensures LogOk(Runs(run, reg, steps))
    decreases |steps|
  {
    if steps != [] {
      var next := Apply(run, reg, steps[0]);
      StepEvolves(run, reg, steps[0]);
      StepKeepsInv(run, reg, steps[0]);
      hide Inv, Apply, LogOk, Kept;
      LogKept(run, next);
      RunsKeepLog(next, reg, steps[1..]);
    }
  }

  lemma {:induction false} RevisionCountsChanges(events: seq<Event>)
    requires Replay(events).Some?
    ensures StateChanges(events) == Replay(events).value.revision
  {
    if |events| > 1 {
      RevisionCountsChanges(events[..|events| - 1]);
    }
  }

  /** Resulting revisions in a replayable log rise, up to the current one. */
  lemma {:induction false} RevisionsRise(events: seq<Event>, i: nat)
    requires Replay(events).Some? && i < |events| && events[i].body.StateChanged?
    ensures events[i].body.revision <= Replay(events).value.revision
    ensures forall j :: i < j < |events| && events[j].body.StateChanged? ==> events[i].body.revision < events[j].body.revision
  {
    var rest := events[..|events| - 1];
    if i < |rest| {
      RevisionsRise(rest, i);
      assert forall j :: i < j < |rest| ==> rest[j] == events[j];
    }
  }

  /** Before RUNNING the state fixes the revision. */
  lemma {:induction false} EarlyRevisions(events: seq<Event>)
    requires Replay(events).Some?
    ensures var so := Replay(events).value;
      && (so.state.Created? ==> so.revision == 0)
      && (so.state.Planning? ==> so.revision == 1)
      && (so.state.Ready? ==> so.revision == 2)
  {
    if |events| > 1 {
      EarlyRevisions(events[..|events| - 1]);
    }
  }

  predicate ClaimEvent(e: Event) {
    e.body.StateChanged? && e.body.previous.Ready? && e.body.next.Running?
  }

  lemma {:induction false} ClaimRevision(events: seq<Event>, i: nat)
    requires Replay(events).Some? && i < |events| && ClaimEvent(events[i])
    ensures events[i].body.revision == 3
  {
    var rest := events[..|events| - 1];
    if i < |rest| {
      ClaimRevision(rest, i);
    } else if |events| > 1 {
      EarlyRevisions(rest);
    }
  }

  /** READY to RUNNING is logged at most once. */
  lemma OneClaimEvent(events: seq<Event>, i: nat, j: nat)
    requires Replay(events).Some?
    requires i < |events| && ClaimEvent(events[i])
    requires j < |events| && ClaimEvent(events[j])
    ensures i == j
  {
    ClaimRevision(events, i);
    ClaimRevision(events, j);
    if i < j { RevisionsRise(events, i); }
    if j < i { RevisionsRise(events, j); }
  }

  /** The log of a Run that is RUNNING holds its claim. */
  lemma {:induction false} RunningWasClaimed(events: seq<Event>)
    requires Replay(events).Some? && Replay(events).value == Replayed(Running, 3)
    ensures exists i :: 0 <= i < |events| && ClaimEvent(events[i])
  {
    var n := |events| - 1;
    var rest := events[..n];
    EarlyRevisions(rest);
    if !events[n].body.StateChanged? {
      RunningWasClaimed(rest);
      var i :| 0 <= i < |rest| && ClaimEvent(rest[i]);
      assert ClaimEvent(events[i]);
    } else {
      AtLeastThree(rest);
      assert ClaimEvent(events[n]);
    }
  }

  /** Any state past READY needed at least three transitions, unless the Run stopped before. */
  lemma {:induction false} AtLeastThree(events: seq<Event>)
    requires Replay(events).Some?
    ensures var so := Replay(events).value;
      so.state.Running? || so.state.AwaitingApproval? || so.state.Completed? ==> so.revision >= 3
  {
    if |events| > 1 {
      AtLeastThree(events[..|events| - 1]);
      EarlyRevisions(events[..|events| - 1]);
    }
  }

  /** Every reachable Run: its log replays to it, and holds one claim at most. */
  lemma ReachableLogs(captured: Captured, supported: bool, created: int, reg: Registry, steps: seq<Step>, run: AgentRun)
    requires run == Runs(NewRun(captured, supported, created), reg, steps)
    ensures forall i :: 0 <= i < |run.events| ==> run.events[i].sequence == i
    ensures Replay(run.events) == Some(Replayed(run.state, run.revision))
    ensures StateChanges(run.events) == run.revision
    ensures forall i, j | 0 <= i < |run.events| && 0 <= j < |run.events| ::
              ClaimEvent(run.events[i]) && ClaimEvent(run.events[j]) ==> i == j
    ensures run.state.Running? ==> exists i :: 0 <= i < |run.events| && ClaimEvent(run.events[i])
  {
    var first := NewRun(captured, supported, created);
    NewRunInv(captured, supported, created, reg);
    assert first.events == [Event(0, RunCreatedEvent)];
    RunsKeepLog(first, reg, steps);
    RunsKeepInv(first, reg, steps);
    RevisionCountsChanges(run.events);
    forall i: nat, j: nat | i < |run.events| && j < |run.events|
           && ClaimEvent(run.events[i]) && ClaimEvent(run.events[j]) ensures i == j {
      OneClaimEvent(run.events, i, j);
    }
    if run.state.Running? { RunningWasClaimed(run.events); }
  }

  // ----- replayed claims -----

  /** The claim is among the events `_original_claim_revision` reads. */
  predicate ClaimRead(run: AgentRun) {
    exists i :: 0 <= i < |run.events| && i < 1000 && ClaimEvent(run.events[i])
  }

  lemma {:induction false} OriginalClaimFinds(events: seq<Event>)
    requires forall i :: 0 <= i < |events| && ClaimEvent(events[i]) ==> events[i].body.revision == 3
    ensures OriginalClaim(events) == if exists i :: 0 <= i < |events| && ClaimEvent(events[i]) then Some(2) else None
  {
    if events != [] {
      var rest := events[1..];
      assert forall i :: 0 <= i < |rest| ==> rest[i] == events[i + 1];
      OriginalClaimFinds(rest);
      if exists i :: 0 <= i < |events| && ClaimEvent(events[i]) {
        var i :| 0 <= i < |events| && ClaimEvent(events[i]);
        assert i > 0 ==> ClaimEvent(rest[i - 1]);
      }
    }
  }

  lemma OriginalClaimIsTwo(run: AgentRun)
    requires LogOk(run)
    ensures OriginalClaim(ReadEvents(run)) == if ClaimRead(run) then Some(2) else None
  {
    var events := ReadEvents(run);
    forall i: nat | i < |events| && ClaimEvent(events[i]) ensures events[i].body.revision == 3 {
      ClaimRevision(run.events, i);
    }
    OriginalClaimFinds(events);
    if ClaimRead(run) {
      var i :| 0 <= i < |run.events| && i < 1000 && ClaimEvent(run.events[i]);
      assert ClaimEvent(events[i]);
    }
  }

  /**
   Claiming again never transitions.  A RUNNING Run refuses; a Run that ended answers the caller who
   held the claimed revision, exactly when the claim is still among the first 1000 events.
   */
  lemma ReplayedClaim(run: AgentRun, reg: Registry, expected: nat, allowed: Option<set<ToolId>>, now: int)
    requires Inv(run, reg) && LogOk(run)
    requires run.state.Running? || Terminal(run.state)
    ensures
      var r := ClaimExecution(run, expected, reg, allowed, now);
      && (run.state.Running? ==>
            r == Err(if expected == 2 && ClaimRead(run) then TransitionConflict else RevisionConflict))
      && (Terminal(run.state) ==>
            r == if expected == 2 && ClaimRead(run) then Ok(ClaimResult(run, false)) else Err(RevisionConflict))
  {
    OriginalClaimIsTwo(run);
  }

  /** The revision a caller names in a request that may transition. */
  function Expected(s: Step): Option<nat> {
    match s
    case ClaimPlanningStep(expected) => Some(expected)
    case FinalizePlanStep(planningRevision, _) => Some(planningRevision)
    case FailPlanningStep(planningRevision) => Some(planningRevision)
    case ClaimStep(expected, _, _) => Some(expected)
    case CancelStep(expected, _) => Some(expected)
    case _ => None
  }

  lemma TransitionNeedsRevision(run: AgentRun, reg: Registry, s: Step, e: nat)
    requires Expected(s) == Some(e)
    requires Apply(run, reg, s).revision != run.revision
    ensures run.revision == e
  {
    hide OriginalClaim, PlanExecutable, CompletePlan;
  }

  /** Of all requests naming one expected revision, one at most changes the Run, over any run. */
  lemma OneWinnerPerRevision(run: AgentRun, reg: Registry, winner: Step, e: nat, between: seq<Step>, other: Step)
    requires Inv(run, reg)
    requires Expected(winner) == Some(e) && Apply(run, reg, winner).revision != run.revision
    requires Expected(other) == Some(e)
    ensures
      var later := Runs(Apply(run, reg, winner), reg, between);
      later.revision > e && Apply(later, reg, other).revision == later.revision
  {
    var won := Apply(run, reg, winner);
    TransitionNeedsRevision(run, reg, winner, e);
    StepEvolves(run, reg, winner);
    StepKeepsInv(run, reg, winner);
    RunsEvolve(won, reg, between);
    var later := Runs(won, reg, between);
    hide Inv, Apply, Runs;
    if Apply(later, reg, other).revision != later.revision {
      TransitionNeedsRevision(later, reg, other, e);
    }
  }

  /** Execution is claimed at most once over the life of a Run, whatever revision later callers name. */
  lemma ClaimedOnce(run: AgentRun, reg: Registry, s: Step, between: seq<Step>,
                    expected: nat, allowed: Option<set<ToolId>>, now: int)
    requires Inv(run, reg) && LogOk(run)
    requires s.ClaimStep? && Apply(run, reg, s).state.Running? && run.state.Ready?
    ensures
      var again := ClaimExecution(Runs(Apply(run, reg, s), reg, between), expected, reg, allowed, now);
      again.Ok? ==> !again.value.claimed && again.value.run == Runs(Apply(run, reg, s), reg, between)
  {
    var won := Apply(run, reg, s);
    StepEvolves(run, reg, s);
    StepKeepsInv(run, reg, s);
    LogKept(run, won);
    var later := Runs(won, reg, between);
    RunsEvolve(won, reg, between);
    RunsKeepInv(won, reg, between);
    RunsKeepLog(won, reg, between);
    assert later.revision >= 3;
    assert later.state.Running? || Terminal(later.state);
    ReplayedClaim(later, reg, expected, allowed, now);
  }

  /** Execution is granted exactly to a current, live, registered plan; everything else is refused or replayed. */
  lemma ClaimGrantedIff(run: AgentRun, reg: Registry, expected: nat, allowed: Option<set<ToolId>>, now: int)
    requires Inv(run, reg)
    ensures
      var r := ClaimExecution(run, expected, reg, allowed, now);
      r.Ok? && r.value.claimed
      <==> && run.state.Ready? && expected == 2 && now < run.runDeadline
           && run.captured.registryVersion == REGISTRY_VERSION && run.supported
           && 0 < |run.steps| <= run.stepBudget
           && forall k :: 0 <= k < |run.steps| ==>
                run.steps[k].tool in reg && (allowed.Some? ==> run.steps[k].tool in allowed.value)
  {
    hide OriginalClaim, Work, Budgets, MaxSequence;
  }
}
