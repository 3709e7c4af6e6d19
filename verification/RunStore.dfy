/**
 The stored Run and the operations that update its rows in place.  Each method is proved against the
 step function of `RunModel`; when it reports an error its caller rolls the transaction back.
 */
module RunStore {
  import opened Wrappers
  import opened AgentRunStates
  import opened ToolPolicy
  import opened RunModel
  import opened RunInvariant
  import opened RunSafety

  /** The error and the rows an operation leaves, against its step function. */
  predicate Produces(r: Outcome<AgentRun>, error: Option<RunError>, after: AgentRun) {
    match r case Ok(v) => error.None? && after == v case Err(e) => error == Some(e)
  }

  class RunRow {
    const captured: Captured
    const supported: bool
    const stepBudget: int
    const retryBudget: int
    const planningDeadline: int
    const runDeadline: int
    var state: RunState
    var revision: nat
    var steps: seq<AgentStep>
    var invocations: seq<Invocation>
    var events: seq<Event>

    function View(): AgentRun
      reads this
    {
      AgentRun(state, revision, captured, supported, stepBudget, retryBudget, planningDeadline, runDeadline,
               steps, invocations, events)
    }

    /** `create_run` once the request is admitted. */
    constructor (captured: Captured, supported: bool, now: int)
      ensures View() == NewRun(captured, supported, now)
    {
      this.captured := captured.(toolCallBudget := TOOL_CALL_BUDGET);
      this.supported := supported;
      stepBudget, retryBudget := STEP_BUDGET, RETRY_BUDGET;
      planningDeadline, runDeadline := now + RUN_DURATION, now + RUN_DURATION;
      state, revision, steps, invocations := Created, 0, [], [];
      events := [Event(0, RunCreatedEvent)];
    }

    /** Rows as another session left them, or as they were before a rollback. */
    method Load(rows: AgentRun)
      requires rows.captured == captured && rows.supported == supported
      requires rows.stepBudget == stepBudget && rows.retryBudget == retryBudget
      requires rows.planningDeadline == planningDeadline && rows.runDeadline == runDeadline
      modifies this`state, this`revision, this`steps, this`invocations, this`events
      ensures View() == rows
    {
      state, revision, steps, invocations, events := rows.state, rows.revision, rows.steps, rows.invocations, rows.events;
    }

    /** `append_agent_event`. */
    method AppendEvent(body: EventBody)
      modifies this`events
      ensures View() == Append(old(View()), body)
    {
      var last := -1;
      for i := 0 to |events|
        invariant last == MaxSequence(events[..i])
      {
        assert events[..i + 1][..i] == events[..i];
        if last < events[i].sequence { last := events[i].sequence; }
      }
      assert events[..|events|] == events;
      events := events + [Event(last + 1, body)];
    }

    /** `transition_run`. */
    method TransitionRun(expectedState: RunState, expectedRevision: nat, next: RunState, now: int) returns (error: Option<RunError>)
      modifies this`state, this`revision, this`events
      ensures Produces(Transition(old(View()), expectedState, expectedRevision, next, now), error, View())
      ensures if error.Some? then View() == old(View()) else state == next
    {
      if state != expectedState || !LegalTransition(state, next) { return Some(TransitionConflict); }
      if revision != expectedRevision { return Some(RevisionConflict); }
      if next.Expired? {
        var deadline := if state.Created? || state.Planning? then planningDeadline else runDeadline;
        if now < deadline { return Some(TransitionConflict); }
      }
      var previous := state;
      state, revision := next, revision + 1;
      AppendEvent(StateChanged(previous, next, revision));
      error := None;
    }

    /** Cancels every open step. */
    method CancelOpenSteps()
      modifies this`steps
      ensures steps == CancelOpen(old(steps))
    {
      for k := 0 to |steps|
        invariant |steps| == |old(steps)|
        invariant forall j :: 0 <= j < k ==> steps[j] == CancelOpen(old(steps))[j]
        invariant forall j :: k <= j < |steps| ==> steps[j] == old(steps)[j]
      {
        if steps[k].status.Pending? || steps[k].status.InProgress? {
          steps := steps[k := steps[k].(status := StepCancelled)];
        }
      }
    }

    /** `_expire_execution`. */
    method Expire(now: int) returns (error: Option<RunError>)
      modifies this`state, this`revision, this`events, this`steps, this`invocations
      ensures Produces(ExpireExecution(old(View()), now), error, View())
      ensures error.None? ==> state.Expired?
    {
      ghost var discarded := DiscardActive(invocations, DeadlineExpired);
      for i := 0 to |invocations|
        invariant View() == old(View()).(invocations := invocations)
        invariant |invocations| == |discarded|
        invariant forall j :: 0 <= j < |discarded| ==> invocations[j] == if j < i then discarded[j] else old(invocations)[j]
      {
        DiscardedRow(old(invocations), DeadlineExpired, i);
        if invocations[i].status.Reserved? || invocations[i].status.InFlight? {
          invocations := invocations[i := invocations[i].(status := Discarded, error := Some(DeadlineExpired))];
        }
      }
      CancelOpenSteps();
      hide Transition, DiscardActive, CancelOpen;
      assert View() == old(View()).(invocations := DiscardActive(old(invocations), DeadlineExpired), steps := CancelOpen(old(steps)));
      error := TransitionRun(Running, revision, Expired, now);
    }

    /** `cancel_run`. */
    method CancelRun(expected: nat, now: int) returns (error: Option<RunError>)
      modifies this`state, this`revision, this`events, this`steps, this`invocations
      ensures Produces(Cancel(old(View()), expected, now), error, View())
    {
      if state.Cancelled? { return None; }
      if Terminal(state) { return Some(TransitionConflict); }
      if revision != expected { return Some(RevisionConflict); }
      DiscardCalls();
      CancelOpenSteps();
      hide Transition, LogDiscards;
      error := TransitionRun(state, expected, RunState.Cancelled, now);
    }

    /** Cancellation discards every active call and logs each. */
    method DiscardCalls()
      modifies this`events, this`invocations
      ensures View() == LogDiscards(old(View()), 0).(invocations := DiscardActive(old(invocations), CancellationDiscard))
    {
      ghost var before, discarded := old(View()), DiscardActive(invocations, CancellationDiscard);
      assert |discarded| == |invocations|;
      hide DiscardActive, MaxSequence;
      for i := 0 to |invocations|
        invariant View() == before.(invocations := invocations, events := events)
        invariant |invocations| == |discarded|
        invariant forall j :: 0 <= j < |discarded| ==> invocations[j] == if j < i then discarded[j] else old(invocations)[j]
        invariant LogDiscards(before.(events := events), i) == LogDiscards(before, 0)
      {
        DiscardedRow(old(invocations), CancellationDiscard, i);
        ghost var logged := before.(events := events);
        if invocations[i].status.Reserved? || invocations[i].status.InFlight? {
          invocations := invocations[i := invocations[i].(status := Discarded, error := Some(CancellationDiscard))];
          AppendEvent(Other);
          assert before.(events := events) == Append(logged, Other);
        }
      }
    }

    /** `_fail_without_invocation`. */
    method FailStepWithoutCall(k: nat, now: int) returns (error: Option<RunError>)
      requires k < |steps|
      modifies this`state, this`revision, this`events, this`steps
      ensures Produces(FailWithoutInvocation(old(View()), k, now), error, View())
    {
      steps := steps[k := steps[k].(status := StepFailed)];
      AppendEvent(Other);
      error := TransitionRun(Running, revision, Failed, now);
    }

    /** `_fail_active_step`. */
    method FailStep(k: nat, now: int) returns (error: Option<RunError>)
      requires k < |steps|
      modifies this`state, this`revision, this`events, this`steps
      ensures Produces(FailActiveStep(old(View()), k, now), error, View())
      ensures error.None? ==> state.Failed?
    {
      steps := steps[k := steps[k].(status := StepFailed)];
      error := TransitionRun(Running, revision, Failed, now);
    }

    /** The first pending or running step. */
    method FindCandidate() returns (k: nat)
      ensures k == Candidate(steps, 0)
    {
      k := 0;
      while k < |steps| && !steps[k].status.Pending? && !steps[k].status.InProgress?
        invariant k <= |steps|
        invariant Candidate(steps, k) == Candidate(steps, 0)
      {
        k := k + 1;
      }
    }

    /** The two counters of the policy decision and the number of retries. */
    method CountCalls(name: string) returns (total: nat, ofName: nat, retries: nat)
      ensures total == |invocations| && ofName == |CallsOfName(invocations, name)| && retries == |Retries(invocations)|
    {
      total, ofName, retries := 0, 0, 0;
      for i := 0 to |invocations|
        invariant total == i
        invariant ofName == |CallsOfName(invocations[..i], name)|
        invariant retries == |Retries(invocations[..i])|
      {
        CountsAfterOne(invocations[..i], invocations[i], name);
        assert invocations[..i] + [invocations[i]] == invocations[..i + 1];
        total := total + 1;
        if invocations[i].tool.name == name { ofName := ofName + 1; }
        if invocations[i].attempt > 0 { retries := retries + 1; }
      }
      assert invocations[..|invocations|] == invocations;
    }

    /** How many calls a step has, and the last of them. */
    method PriorCalls(k: nat) returns (count: nat, last: nat)
      ensures count == |Attempts(invocations, k)|
      ensures count > 0 ==> HasInvocation(invocations, k) && last == Previous(invocations, k)
    {
      count, last := 0, 0;
      for i := 0 to |invocations|
        invariant count == |Attempts(invocations[..i], k)|
        invariant count > 0 ==> HasInvocation(invocations[..i], k) && last == Previous(invocations[..i], k)
      {
        assert invocations[..i + 1][..i] == invocations[..i];
        AttemptsAfterOne(invocations, i, k);
        if invocations[i].step == k { count, last := count + 1, i; }
      }
      assert invocations[..|invocations|] == invocations;
    }

    /** `reserve_next`. */
    method ReserveNext(reg: Registry, allowed: Option<set<ToolId>>, provider: bool, now: int)
      returns (reserved: Option<nat>, error: Option<RunError>)
      modifies this`state, this`revision, this`events, this`steps, this`invocations
      ensures match Reserve(old(View()), reg, allowed, provider, now)
              case Ok(r) => error.None? && View() == r.run && reserved == r.invocation
              case Err(e) => error == Some(e)
    {
      reserved, error := None, None;
      hide FailActiveStep, ReserveAttempt, ExpireExecution, FailWithoutInvocation;
      if !state.Running? { return; }
      if now >= runDeadline {
        error := Expire(now);
        return;
      }
      var k := FindCandidate();
      if k == |steps| { return; }
      if !supported {
        error := FailStepWithoutCall(k, now);
        return;
      }
      if exists j :: 0 <= j < k && !steps[j].status.Succeeded? { return None, Some(PlanInvalid); }
      if allowed.Some? && steps[k].tool !in allowed.value {
        error := FailStepWithoutCall(k, now);
        return;
      }
      if steps[k].status.Pending? {
        reserved, error := StartCall(k, 0, reg, provider, now);
        return;
      }
      reserved, error := Retry(k, reg, allowed, provider, now);
    }

    /** The branch of `reserve_next` for a step in progress. */
    method Retry(k: nat, reg: Registry, allowed: Option<set<ToolId>>, provider: bool, now: int)
      returns (reserved: Option<nat>, error: Option<RunError>)
      requires state.Running? && now < runDeadline && supported
      requires k == Candidate(steps, 0) && k < |steps| && !steps[k].status.Pending?
      requires forall j :: 0 <= j < k ==> steps[j].status.Succeeded?
      requires allowed.Some? ==> steps[k].tool in allowed.value
      modifies this`state, this`revision, this`events, this`steps, this`invocations
      ensures match Reserve(old(View()), reg, allowed, provider, now)
              case Ok(r) => error.None? && View() == r.run && reserved == r.invocation
              case Err(e) => error == Some(e)
    {
      reserved, error := None, None;
      hide ExactlyAttemptZeroFinished, FailActiveStep, ReserveAttempt, ExpireExecution, FailWithoutInvocation, Candidate;
      var prior, last := PriorCalls(k);
      SinglePriorCall(View(), k, prior, last);
      if prior != 1 || invocations[last].attempt != 0
         || !(invocations[last].status.Errored? || invocations[last].status.TimedOut? || invocations[last].status.Discarded?)
      {
        return None, Some(PlanInvalid);
      }
      var total, ofName, retries := CountCalls(steps[k].tool.name);
      var v := invocations[last];
      if steps[k].tool !in reg || !ClassifyRetry(v.error, v.authority, reg[steps[k].tool].pureRead).SafeTransientRead?
         || retries >= retryBudget
      {
        error := FailStep(k, now);
        return;
      }
      reserved, error := StartCall(k, 1, reg, provider, now);
    }

    /** The tail of `reserve_next`: the policy decision and the new call. */
    method StartCall(k: nat, attempt: nat, reg: Registry, provider: bool, now: int)
      returns (reserved: Option<nat>, error: Option<RunError>)
      requires k < |steps|
      modifies this`state, this`revision, this`events, this`steps, this`invocations
      ensures match ReserveAttempt(old(View()), k, attempt, reg, provider, now)
              case Ok(r) => error.None? && View() == r.run && reserved == r.invocation
              case Err(e) => error == Some(e)
    {
      reserved, error := None, None;
      hide Rejection, FailWithoutInvocation;
      var total, ofName, retries := CountCalls(steps[k].tool.name);
      if Rejection(reg, steps[k].tool, "read", steps[k].input, captured, total, ofName, provider).Some? {
        error := FailStepWithoutCall(k, now);
        return;
      }
      reserved := Some(|invocations|);
      invocations := invocations + [Invocation(k, attempt, steps[k].tool, "read", InFlight, None, now)];
      steps := steps[k := steps[k].(status := InProgress)];
      AppendEvent(Other);
    }

    /** `claim_execution`. */
    method ClaimForExecution(expected: nat, reg: Registry, allowed: Option<set<ToolId>>, now: int)
      returns (claimed: bool, error: Option<RunError>)
      modifies this`state, this`revision, this`events
      ensures match ClaimExecution(old(View()), expected, reg, allowed, now)
              case Ok(r) => error.None? && View() == r.run && claimed == r.claimed
              case Err(e) => error == Some(e) && !claimed && View() == old(View())
    {
      claimed, error := false, None;
      var original := FindOriginalClaim();
      if Terminal(state) {
        if original == Some(expected) { return; }
        return false, Some(RevisionConflict);
      }
      if state.Running? {
        return false, Some(if original == Some(expected) then TransitionConflict else RevisionConflict);
      }
      if revision != expected { return false, Some(RevisionConflict); }
      if !state.Ready? { return false, Some(TransitionConflict); }
      if captured.registryVersion != REGISTRY_VERSION { return false, Some(RegistryVersionError); }
      if !supported { return false, Some(AgentVersionError); }
      if now >= runDeadline {
        error := TransitionRun(Ready, revision, Expired, now);
        return;
      }
      if steps == [] || |steps| > stepBudget
         || exists k :: 0 <= k < |steps|
              && !(steps[k].status.Pending? && steps[k].tool in reg && (allowed.Some? ==> steps[k].tool in allowed.value))
      {
        return false, Some(PlanInvalid);
      }
      error := TransitionRun(Ready, revision, Running, now);
      claimed := error.None?;
    }

    /** `_original_claim_revision`. */
    method FindOriginalClaim() returns (original: Option<int>)
      ensures original == OriginalClaim(ReadEvents(View()))
    {
      var read := if |events| <= EVENT_READ_LIMIT then events else events[..EVENT_READ_LIMIT];
      for i := 0 to |read|
        invariant OriginalClaim(read[i..]) == OriginalClaim(read)
      {
        var body := read[i].body;
        if body.StateChanged? && body.previous.Ready? && body.next.Running? {
          return Some(body.revision - 1);
        }
        assert read[i..][1..] == read[i + 1..];
      }
      original := None;
    }

    /** `finalize_invocation` for the call at position `i`. */
    method FinalizeInvocation(i: nat, result: ToolResult, reg: Registry, now: int) returns (proceed: bool, error: Option<RunError>)
      modifies this`state, this`revision, this`events, this`steps, this`invocations
      ensures match Finalize(old(View()), i, result, reg, now)
              case Ok(r) => error.None? && View() == r.run && proceed == r.proceed
              case Err(e) => error == Some(e)
    {
      proceed, error := false, None;
      if i >= |invocations| || invocations[i].step >= |steps| || !invocations[i].status.InFlight? { return; }
      var v := invocations[i];
      if !state.Running? {
        var discard := if state.Cancelled? then CancellationDiscard else ToolResultDiscarded;
        invocations := invocations[i := v.(status := Discarded, error := Some(discard))];
        return;
      }
      if now >= runDeadline {
        invocations := invocations[i := v.(status := Discarded, error := Some(DeadlineExpired))];
        hide ExpireExecution;
        error := Expire(now);
        return;
      }
      var code := result.code;
      if code.None? && result.hasOutput {
        if result.oversized {
          code := Some(ToolOutputOversized);
        } else {
          invocations := invocations[i := v.(status := Done)];
          steps := steps[v.step := steps[v.step].(status := Succeeded)];
        }
      }
      if code.None? {
        AppendEvent(Other);
        return true, None;
      }
      hide Transition, MaxSequence;
      invocations := invocations[i := v.(status := if code.value.ToolTimeout? then TimedOut else Errored, error := code)];
      if Retryable(v, code.value, reg) {
        steps := steps[v.step := steps[v.step].(status := InProgress)];
        AppendEvent(Other);
        return true, None;
      }
      error := FailStepWithoutCall(v.step, now);
    }

    /** `complete_run`. */
    method CompleteRun(required: set<ResultKind>, now: int) returns (error: Option<RunError>)
      modifies this`state, this`revision, this`events
      ensures Produces(Complete(old(View()), required, now), error, View())
    {
      if !state.Running? || steps == [] { return None; }
      for k := 0 to |steps|
        invariant forall j :: 0 <= j < k ==> steps[j].status.Succeeded?
      {
        if !steps[k].status.Succeeded? { return None; }
      }
      var read := if |events| <= EVENT_READ_LIMIT then events else events[..EVENT_READ_LIMIT];
      if exists kind :: kind in required && !HasResult(read, kind) {
        error := TransitionRun(Running, revision, Failed, now);
      } else {
        error := TransitionRun(Running, revision, Completed, now);
      }
    }

    /** `prepare_one`; `ready` when it returns a claim to continue the execution. */
    method PrepareOne(reg: Registry, now: int) returns (ready: bool, error: Option<RunError>)
      modifies this`state, this`revision, this`events, this`steps, this`invocations
      ensures Produces(Recover(old(View()), reg, now), error, View())
      ensures ready <==> error.None? && state.Running? && FirstActive(invocations, 0) == |invocations|
    {
      ready, error := false, None;
      if Terminal(state) { return; }
      if (state.Created? || state.Planning?) && now >= planningDeadline {
        error := TransitionRun(state, revision, Expired, now);
        return;
      }
      if state.Ready? {
        if now >= runDeadline { error := TransitionRun(Ready, revision, Expired, now); }
        return;
      }
      if !state.Running? { return; }
      if now >= runDeadline {
        error := Expire(now);
        return;
      }
      var i := FindActive(0);
      if i < |invocations| {
        var second := FindActive(i + 1);
        if second < |invocations| {
          error := TransitionRun(Running, revision, Failed, now);
          return;
        }
        if now < StaleAt(invocations[i], reg) { return; }
        ready, error := ReconcileStale(i, reg, now);
        return;
      }
      ready, error := ReconcileIdle(reg, now);
    }

    /** The branches of `prepare_one` without an active call. */
    method ReconcileIdle(reg: Registry, now: int) returns (ready: bool, error: Option<RunError>)
      requires state.Running? && now < runDeadline && FirstActive(invocations, 0) == |invocations|
      modifies this`state, this`revision, this`events, this`steps, this`invocations
      ensures Produces(Recover(old(View()), reg, now), error, View())
      ensures ready <==> error.None? && state.Running? && FirstActive(invocations, 0) == |invocations|
    {
      ready, error := false, None;
      hide Transition, FailActiveStep, ExpireExecution, RecoverStale;
      var k := FindCandidate();
      if k == |steps| {
        if steps == [] || exists j :: 0 <= j < |steps| && !steps[j].status.Succeeded? {
          error := TransitionRun(Running, revision, Failed, now);
          return;
        }
      } else if exists j :: 0 <= j < |steps| && steps[j].status.InProgress? && Attempts(invocations, j) == {} {
        error := FailStep(FirstInProgress(steps), now);
        return;
      }
      ready := true;
    }

    method FindActive(from: nat) returns (i: nat)
      requires from <= |invocations|
      ensures i == FirstActive(invocations, from)
    {
      i := from;
      while i < |invocations| && !invocations[i].status.Reserved? && !invocations[i].status.InFlight?
        invariant i <= |invocations|
        invariant FirstActive(invocations, i) == FirstActive(invocations, from)
      {
        i := i + 1;
      }
    }

    /** The branch of `prepare_one` for a stale call, the only active one. */
    method ReconcileStale(i: nat, reg: Registry, now: int) returns (ready: bool, error: Option<RunError>)
      requires state.Running? && i < |invocations| && FirstActive(invocations, 0) == i && FirstActive(invocations, i + 1) == |invocations|
      modifies this`state, this`revision, this`events, this`steps, this`invocations
      ensures Produces(RecoverStale(old(View()), i, reg, now), error, View())
      ensures ready <==> error.None? && state.Running? && FirstActive(invocations, 0) == |invocations|
    {
      ready, error := false, None;
      hide Transition, MaxSequence;
      var v := invocations[i];
      if !ExactPureRead(View(), v, reg) {
        if v.step >= |steps| {
          error := TransitionRun(Running, revision, Failed, now);
        } else {
          error := FailStep(v.step, now);
        }
        return;
      }
      invocations := invocations[i := v.(status := Discarded, error := Some(ToolTimeout))];
      AppendEvent(Other);
      if v.attempt >= retryBudget {
        error := FailStep(v.step, now);
        return;
      }
      ready := true;
    }
  }

  lemma DiscardedRow(invocations: seq<Invocation>, code: ErrorCode, i: nat)
    requires i < |invocations|
    ensures DiscardActive(invocations, code)[i]
            == if ActiveInvocation(invocations[i]) then invocations[i].(status := Discarded, error := Some(code)) else invocations[i]
  {
  }

  lemma AttemptsAfterOne(invocations: seq<Invocation>, i: nat, k: nat)
    requires i < |invocations|
    ensures |Attempts(invocations[..i + 1], k)| == |Attempts(invocations[..i], k)| + if invocations[i].step == k then 1 else 0
    ensures HasInvocation(invocations[..i], k) ==> HasInvocation(invocations[..i + 1], k)
    ensures invocations[i].step == k ==> HasInvocation(invocations[..i + 1], k)
  {
    var before, after := invocations[..i], invocations[..i + 1];
    assert Attempts(after, k) == Attempts(before, k) + if invocations[i].step == k then {i} else {};
    if HasInvocation(before, k) {
      var j :| 0 <= j < |before| && before[j].step == k;
      assert after[j].step == k;
    }
    if invocations[i].step == k { assert after[i].step == k; }
  }

  lemma SinglePriorCall(run: AgentRun, k: nat, count: nat, last: nat)
    requires count == |Attempts(run.invocations, k)|
    requires count > 0 ==> HasInvocation(run.invocations, k) && last == Previous(run.invocations, k)
    ensures ExactlyAttemptZeroFinished(run, k)
            <==> count == 1 && run.invocations[last].attempt == 0 && FailedAttempt(run.invocations[last])
  {
    if count == 1 {
      forall i | 0 <= i < |run.invocations| && run.invocations[i].step == k ensures i == last {
        SubsetSize({i, last}, Attempts(run.invocations, k));
      }
    }
  }

  lemma CountsAfterOne(invocations: seq<Invocation>, v: Invocation, name: string)
    ensures |CallsOfName(invocations + [v], name)| == |CallsOfName(invocations, name)| + if v.tool.name == name then 1 else 0
    ensures |Retries(invocations + [v])| == |Retries(invocations)| + if v.attempt > 0 then 1 else 0
  {
    hide CallsOfName, Calls;
    CallsOfNameAfterOne(invocations, v, name);
    CallsAfterStart(invocations, v, v.tool);
  }

  lemma CallsOfNameAfterOne(invocations: seq<Invocation>, v: Invocation, name: string)
    ensures |CallsOfName(invocations + [v], name)| == |CallsOfName(invocations, name)| + if v.tool.name == name then 1 else 0
  {
    var after, n := invocations + [v], |invocations|;
    forall i: nat
      ensures i in CallsOfName(after, name) <==> i in CallsOfName(invocations, name) || (i == n && v.tool.name == name)
    {
      if i < n { assert after[i] == invocations[i]; }
    }
    assert CallsOfName(after, name) == CallsOfName(invocations, name) + if v.tool.name == name then {n} else {};
  }
}
