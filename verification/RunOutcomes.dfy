/** What each answer of the executor means for the rows, and what only a timely good result can gain. */
module RunOutcomes {
  import opened Wrappers
  import opened AgentRunStates
  import opened ToolPolicy
  import opened RunModel
  import opened RunInvariant
  import opened RunSafety

  // ----- one result -----

  /** The tool returned an output that fits, and no error. */
  predicate Good(result: ToolResult) {
    result.code.None? && result.hasOutput && !result.oversized
  }

  /** Neither an output nor an error. */
  predicate Empty(result: ToolResult) {
    result.code.None? && !result.hasOutput
  }

  /** The error recorded for a result that is neither. */
  function ErrorOf(result: ToolResult): ErrorCode {
    match result.code case Some(code) => code case None => ToolOutputOversized
  }

  /** Only a first call, only a registered pure read, and only these three errors. */
  predicate RetriedAfter(v: Invocation, code: ErrorCode, reg: Registry) {
    && v.attempt == 0 && v.tool in reg && reg[v.tool].pureRead
    && (code == ToolTimeout || code == ToolProviderUnavailable || code == ToolProviderFailed)
  }

  /** The rows of one call and its step after a result; every other row stays. */
  predicate OnlyCallAndStep(run: AgentRun, after: AgentRun, i: nat) {
    && i < |run.invocations| == |after.invocations| && run.invocations[i].step < |run.steps| == |after.steps|
    && (forall j :: 0 <= j < |run.invocations| && j != i ==> after.invocations[j] == run.invocations[j])
    && (forall k :: 0 <= k < |run.steps| && k != run.invocations[i].step ==> after.steps[k] == run.steps[k])
    && after.invocations[i] == run.invocations[i].(status := after.invocations[i].status, error := after.invocations[i].error)
    && var k := run.invocations[i].step; after.steps[k] == run.steps[k].(status := after.steps[k].status)
  }

  /** What a result in time does, by output, size and error code. */
  lemma ResultDecides(run: AgentRun, i: nat, result: ToolResult, reg: Registry, now: int) returns (after: AgentRun, proceed: bool)
    requires Inv(run, reg) && run.state.Running? && now < run.runDeadline
    requires i < |run.invocations| && run.invocations[i].status.InFlight?
    ensures Finalize(run, i, result, reg, now) == Ok(Finalization(after, proceed))
    ensures OnlyCallAndStep(run, after, i)
    ensures
      var v, k := after.invocations[i], run.invocations[i].step;
      if Good(result) then proceed && after.state.Running? && after.steps[k].status.Succeeded? && v.status.Done?
      else if Empty(result) then proceed && after.state.Running? && after.steps[k].status.InProgress? && v.status.InFlight?
      else
        && v.error == Some(ErrorOf(result))
        && (if ErrorOf(result).ToolTimeout? then v.status.TimedOut? else v.status.Errored?)
        && if RetriedAfter(run.invocations[i], ErrorOf(result), reg)
           then proceed && after.state.Running? && after.steps[k].status.InProgress?
           else !proceed && after.state.Failed? && after.steps[k].status.StepFailed?
  {
    hide Inv, Finalize, OnlyCallAndStep, RetriedAfter, ErrorOf;
    ActiveStepOpen(run, i, reg);
    ActiveCallReads(run, reg, i);
    if Good(result) || Empty(result) {
      FinalizeWithoutError(run, i, result, reg, now);
    } else {
      FinalizeWithError(run, i, result, reg, now);
    }
    after, proceed := Finalize(run, i, result, reg, now).value.run, Finalize(run, i, result, reg, now).value.proceed;
  }

  lemma ActiveCallReads(run: AgentRun, reg: Registry, i: nat)
    requires Inv(run, reg) && i < |run.invocations|
    ensures run.invocations[i].authority == "read"
  {
    hide Ordered, Sequential, Reached, Started, DoneMeansSucceeded, WithinBudgets, StateOk, RetryInFlight;
  }

  lemma FinalizeWithoutError(run: AgentRun, i: nat, result: ToolResult, reg: Registry, now: int)
    requires run.state.Running? && now < run.runDeadline && (Good(result) || Empty(result))
    requires i < |run.invocations| && run.invocations[i].status.InFlight? && run.invocations[i].step < |run.steps|
    requires run.steps[run.invocations[i].step].status.InProgress?
    ensures Finalize(run, i, result, reg, now).Ok? && Finalize(run, i, result, reg, now).value.proceed
    ensures
      var after, k := Finalize(run, i, result, reg, now).value.run, run.invocations[i].step;
      && OnlyCallAndStep(run, after, i) && after.state.Running?
      && if Good(result) then after.steps[k].status.Succeeded? && after.invocations[i].status.Done?
         else after.steps[k].status.InProgress? && after.invocations[i].status.InFlight?
  {
    hide MaxSequence;
  }

  lemma FinalizeWithError(run: AgentRun, i: nat, result: ToolResult, reg: Registry, now: int)
    requires run.state.Running? && now < run.runDeadline && !Good(result) && !Empty(result)
    requires i < |run.invocations| && run.invocations[i].status.InFlight? && run.invocations[i].step < |run.steps|
    requires run.invocations[i].authority == "read"
    ensures Finalize(run, i, result, reg, now).Ok?
    ensures
      var f, k, code := Finalize(run, i, result, reg, now).value, run.invocations[i].step, ErrorOf(result);
      && OnlyCallAndStep(run, f.run, i) && f.run.invocations[i].error == Some(code)
      && (if code.ToolTimeout? then f.run.invocations[i].status.TimedOut? else f.run.invocations[i].status.Errored?)
      && if RetriedAfter(run.invocations[i], code, reg)
         then f.proceed && f.run.state.Running? && f.run.steps[k].status.InProgress?
         else !f.proceed && f.run.state.Failed? && f.run.steps[k].status.StepFailed?
  {
    hide MaxSequence;
  }

  /** A result that comes at or after the deadline expires the Run instead; its output is lost. */
  lemma LateResultExpires(run: AgentRun, i: nat, result: ToolResult, reg: Registry, now: int) returns (after: AgentRun)
    requires Inv(run, reg) && run.state.Running? && now >= run.runDeadline
    requires i < |run.invocations| && run.invocations[i].status.InFlight?
    ensures Finalize(run, i, result, reg, now) == Ok(Finalization(after, false))
    ensures after.state.Expired? && |after.invocations| == |run.invocations| && |after.steps| == |run.steps|
    ensures ActiveCalls(after.invocations) == {}
    ensures forall j :: 0 <= j < |run.invocations| ==>
              after.invocations[j]
              == if ActiveInvocation(run.invocations[j]) then run.invocations[j].(status := Discarded, error := Some(DeadlineExpired))
                 else run.invocations[j]
    ensures forall k :: 0 <= k < |run.steps| ==>
              after.steps[k] == if OpenStep(run.steps[k]) then run.steps[k].(status := StepCancelled) else run.steps[k]
  {
    ActiveStepOpen(run, i, reg);
    hide Inv, MaxSequence;
    after := Finalize(run, i, result, reg, now).value.run;
  }

  // ----- gains over runs -----

  /** No call succeeded, no step succeeded, and no call started. */
  predicate NothingGained(run: AgentRun, after: AgentRun) {
    && |after.invocations| == |run.invocations|
    && (forall i :: 0 <= i < |run.invocations| && after.invocations[i].status.Done? ==> run.invocations[i].status.Done?)
    && (forall k :: 0 <= k < |after.steps| && after.steps[k].status.Succeeded? ==>
          k < |run.steps| && run.steps[k].status.Succeeded?)
  }

  lemma NothingGainedTransitive(a: AgentRun, b: AgentRun, c: AgentRun)
    requires NothingGained(a, b) && NothingGained(b, c)
    ensures NothingGained(a, c)
  {
  }

  /** Only reservations and results gain anything. */
  lemma OthersGainNothing(run: AgentRun, reg: Registry, s: Step)
    requires !s.ReserveStep? && !s.FinalizeStep?
    ensures NothingGained(run, Apply(run, reg, s))
  {
    hide MaxSequence, OriginalClaim, PlanExecutable, HasResult, CompletePlan, StaleAt, ExactPureRead, Recover, Cancel;
    match s
    case RecoverStep(now) => RecoverGainsNothing(run, reg, now);
    case CancelStep(expected, now) => CancelGainsNothing(run, expected, now);
    case _ =>
  }

  lemma CancelGainsNothing(run: AgentRun, expected: nat, now: int)
    ensures Cancel(run, expected, now).Ok? ==> NothingGained(run, Cancel(run, expected, now).value)
  {
    hide MaxSequence, LogDiscards;
  }

  lemma FailingGainsNothing(run: AgentRun, k: nat, now: int)
    requires k < |run.steps|
    ensures FailActiveStep(run, k, now).Ok? ==> NothingGained(run, FailActiveStep(run, k, now).value)
    ensures FailWithoutInvocation(run, k, now).Ok? ==> NothingGained(run, FailWithoutInvocation(run, k, now).value)
  {
    hide MaxSequence;
  }

  lemma ExpiringGainsNothing(run: AgentRun, now: int)
    ensures ExpireExecution(run, now).Ok? ==> NothingGained(run, ExpireExecution(run, now).value)
  {
    hide MaxSequence;
  }

  lemma TransitionGainsNothing(run: AgentRun, state: RunState, revision: nat, to: RunState, now: int)
    ensures Transition(run, state, revision, to, now).Ok? ==> NothingGained(run, Transition(run, state, revision, to, now).value)
  {
  }

  lemma RecoverGainsNothing(run: AgentRun, reg: Registry, now: int)
    ensures Recover(run, reg, now).Ok? ==> NothingGained(run, Recover(run, reg, now).value)
  {
    hide StaleAt, Candidate, FailActiveStep, ExpireExecution, RecoverStale, Transition, NothingGained;
    assert NothingGained(run, run) by { SameGainsNothing(run); }
    TransitionGainsNothing(run, run.state, run.revision, Expired, now);
    TransitionGainsNothing(run, Running, run.revision, Failed, now);
    ExpiringGainsNothing(run, now);
    var i := FirstActive(run.invocations, 0);
    if i < |run.invocations| {
      StaleGainsNothing(run, i, reg, now);
    } else if exists k :: 0 <= k < |run.steps| && run.steps[k].status.InProgress? && Attempts(run.invocations, k) == {} {
      FailingGainsNothing(run, FirstInProgress(run.steps), now);
    }
  }

  lemma SameGainsNothing(run: AgentRun)
    ensures NothingGained(run, run)
  {
  }

  lemma StaleGainsNothing(run: AgentRun, i: nat, reg: Registry, now: int)
    requires i < |run.invocations|
    ensures RecoverStale(run, i, reg, now).Ok? ==> NothingGained(run, RecoverStale(run, i, reg, now).value)
  {
    hide MaxSequence;
  }

  /** A reservation makes no call or step succeed, and at or after the deadline it starts none. */
  lemma ReservationGains(run: AgentRun, reg: Registry, allowed: Option<set<ToolId>>, provider: bool, now: int)
    requires Reserve(run, reg, allowed, provider, now).Ok?
    ensures
      var r := Reserve(run, reg, allowed, provider, now).value;
      if r.invocation.None? then NothingGained(run, r.run)
      else
        && run.state.Running? && now < run.runDeadline
        && r.invocation == Some(|run.invocations|) && OneCallStarted(run, r.run)
  {
    hide FailWithoutInvocation, FailActiveStep, ReserveAttempt, ExpireExecution, ExactlyAttemptZeroFinished, ClassifyRetry,
         Previous, Retries, NothingGained, OneCallStarted;
    SameGainsNothing(run);
    ExpiringGainsNothing(run, now);
    var k := Candidate(run.steps, 0);
    if k < |run.steps| {
      FailingGainsNothing(run, k, now);
      StartingGains(run, k, 0, reg, provider, now);
      StartingGains(run, k, 1, reg, provider, now);
    }
  }

  /** One more call, in flight; nothing succeeded. */
  predicate OneCallStarted(run: AgentRun, after: AgentRun) {
    && |after.invocations| == |run.invocations| + 1 && after.invocations[..|run.invocations|] == run.invocations
    && after.invocations[|run.invocations|].status.InFlight?
    && |after.steps| == |run.steps|
    && forall k :: 0 <= k < |after.steps| && after.steps[k].status.Succeeded? ==> run.steps[k].status.Succeeded?
  }

  lemma StartingGains(run: AgentRun, k: nat, attempt: nat, reg: Registry, provider: bool, now: int)
    requires k < |run.steps|
    ensures ReserveAttempt(run, k, attempt, reg, provider, now).Ok? ==>
      var r := ReserveAttempt(run, k, attempt, reg, provider, now).value;
      if r.invocation.None? then NothingGained(run, r.run)
      else r.invocation == Some(|run.invocations|) && OneCallStarted(run, r.run)
  {
    hide StepRejection, MaxSequence, FailWithoutInvocation;
    FailingGainsNothing(run, k, now);
  }

  lemma ResultGains(run: AgentRun, i: nat, result: ToolResult, reg: Registry, now: int)
    requires Inv(run, reg) && Finalize(run, i, result, reg, now).Ok?
    ensures !(run.state.Running? && now < run.runDeadline && Good(result)) ==>
              NothingGained(run, Finalize(run, i, result, reg, now).value.run)
  {
    if i < |run.invocations| && run.invocations[i].step < |run.steps| && run.invocations[i].status.InFlight? && run.state.Running? {
      if !(now < run.runDeadline && Good(result)) { RunningResultGains(run, i, result, reg, now); }
    } else {
      hide Inv;
    }
  }

  lemma RunningResultGains(run: AgentRun, i: nat, result: ToolResult, reg: Registry, now: int)
    requires Inv(run, reg) && run.state.Running? && Finalize(run, i, result, reg, now).Ok? && !(now < run.runDeadline && Good(result))
    requires i < |run.invocations| && run.invocations[i].status.InFlight?
    ensures NothingGained(run, Finalize(run, i, result, reg, now).value.run)
  {
    hide Inv, Finalize, RetriedAfter, ErrorOf;
    if now >= run.runDeadline {
      var after := LateResultExpires(run, i, result, reg, now);
    } else {
      var after, proceed := ResultDecides(run, i, result, reg, now);
    }
  }

  /** A transaction with this clock value comes too late to start a call or to accept a result. */
  predicate Late(s: Step, deadline: int) {
    (s.ReserveStep? || s.FinalizeStep?) ==> s.now >= deadline
  }

  lemma LateStepGainsNothing(run: AgentRun, reg: Registry, s: Step)
    requires Inv(run, reg) && Late(s, run.runDeadline)
    ensures NothingGained(run, Apply(run, reg, s))
  {
    hide Inv, Reserve, Finalize, Recover, Cancel;
    match s
    case ReserveStep(allowed, provider, now) =>
      if Reserve(run, reg, allowed, provider, now).Ok? { ReservationGains(run, reg, allowed, provider, now); }
    case FinalizeStep(i, result, now) =>
      if Finalize(run, i, result, reg, now).Ok? { ResultGains(run, i, result, reg, now); }
    case _ => OthersGainNothing(run, reg, s);
  }

  /** Once every clock has passed the deadline, no run of transactions gains a call, a success or a step. */
  lemma {:induction false} NothingCountsAfterTheDeadline(run: AgentRun, reg: Registry, steps: seq<Step>)
    requires Inv(run, reg) && forall n :: 0 <= n < |steps| ==> Late(steps[n], run.runDeadline)
    ensures NothingGained(run, Runs(run, reg, steps))
    decreases |steps|
  {
    if steps != [] {
      var next := Apply(run, reg, steps[0]);
      LateStepGainsNothing(run, reg, steps[0]);
      StepEvolves(run, reg, steps[0]);
      StepKeepsInv(run, reg, steps[0]);
      assert next.runDeadline == run.runDeadline;
      hide Inv, Apply, NothingGained, Kept;
      NothingCountsAfterTheDeadline(next, reg, steps[1..]);
      NothingGainedTransitive(run, next, Runs(next, reg, steps[1..]));
    }
  }

  /** Conversely: a success is the good result, in time, of that very call in a RUNNING Run. */
  lemma SuccessIsAGoodResult(run: AgentRun, reg: Registry, s: Step, i: nat)
    requires Inv(run, reg)
    requires i < |Apply(run, reg, s).invocations| && Apply(run, reg, s).invocations[i].status.Done?
    requires i >= |run.invocations| || !run.invocations[i].status.Done?
    ensures s.FinalizeStep? && s.invocation == i && i < |run.invocations| && Good(s.result)
    ensures run.state.Running? && s.now < run.runDeadline
  {
    hide Inv, Reserve, Finalize, Recover, Cancel;
    match s
    case ReserveStep(allowed, provider, now) =>
      if Reserve(run, reg, allowed, provider, now).Ok? { ReservationGains(run, reg, allowed, provider, now); }
    case FinalizeStep(c, result, now) =>
      if Finalize(run, c, result, reg, now).Ok? {
        ResultGains(run, c, result, reg, now);
        FinalizeTouchesOne(run, c, result, reg, now, i);
      }
    case _ => OthersGainNothing(run, reg, s);
  }

  lemma FinalizeTouchesOne(run: AgentRun, c: nat, result: ToolResult, reg: Registry, now: int, i: nat)
    requires Finalize(run, c, result, reg, now).Ok?
    ensures |Finalize(run, c, result, reg, now).value.run.invocations| == |run.invocations|
    ensures i < |run.invocations| && i != c && Finalize(run, c, result, reg, now).value.run.invocations[i].status.Done? ==> run.invocations[i].status.Done?
  {
    hide MaxSequence, Retryable, EffectiveCode;
  }

  /** A result for a Run that is no longer RUNNING only discards its call. */
  lemma ResultAfterTheEnd(run: AgentRun, i: nat, result: ToolResult, reg: Registry, now: int)
    requires Inv(run, reg) && !run.state.Running?
    requires i < |run.invocations| && run.invocations[i].status.InFlight?
    ensures
      var code := if run.state.Cancelled? then CancellationDiscard else ToolResultDiscarded;
      Finalize(run, i, result, reg, now)
      == Ok(Finalization(run.(invocations := run.invocations[i := run.invocations[i].(status := Discarded, error := Some(code))]), false))
  {
    ActiveStep(run.steps, run.invocations, i);
  }

  // ----- which calls start -----

  /** The step's only call failed in a way that is safe to repeat. */
  predicate WaitsForRetry(run: AgentRun, k: nat, reg: Registry)
    requires k < |run.steps|
  {
    && run.steps[k].status.InProgress? && ExactlyAttemptZeroFinished(run, k)
    && HasInvocation(run.invocations, k)
    && var v := run.invocations[Previous(run.invocations, k)];
       v.error.Some? && v.authority == "read" && RetriedAfter(v.(attempt := 0), v.error.value, reg)
  }

  /** A call starts exactly for the next step, within every limit, when nothing else is in flight. */
  lemma CallStartsIff(run: AgentRun, reg: Registry, allowed: Option<set<ToolId>>, provider: bool, now: int)
    requires Inv(run, reg)
    ensures
      var r, k := Reserve(run, reg, allowed, provider, now), Candidate(run.steps, 0);
      CallStarted(r)
      <==> && run.state.Running? && now < run.runDeadline && k < |run.steps| && run.supported
           && (allowed.Some? ==> run.steps[k].tool in allowed.value)
           && (run.steps[k].status.Pending? || (WaitsForRetry(run, k, reg) && |Retries(run.invocations)| < run.retryBudget))
           && Permitted(reg, run.steps[k].tool, run.steps[k].input, run.captured, provider)
           && |run.invocations| < run.captured.toolCallBudget
           && |CallsOfName(run.invocations, run.steps[k].tool.name)| < reg[run.steps[k].tool].callsPerRun
  {
    hide Inv, Reserve, StepRejection, Permitted, CallsOfName, Retries, WaitsForRetry;
    var k := Candidate(run.steps, 0);
    if run.state.Running? && now < run.runDeadline && k < |run.steps| {
      NextFollowsSuccesses(run, reg);
      PolicyForNext(run, k, reg, provider);
      if HasInvocation(run.invocations, k) { OwnTool(run, reg, Previous(run.invocations, k)); }
      NextStart(run, reg, allowed, provider, now);
    } else {
      NoEarlyStart(run, reg, allowed, provider, now);
    }
  }

  lemma NextFollowsSuccesses(run: AgentRun, reg: Registry)
    requires Inv(run, reg) && run.state.Running?
    ensures forall j :: 0 <= j < Candidate(run.steps, 0) ==> run.steps[j].status.Succeeded?
  {
    hide Work, WithinBudgets, RetryInFlight;
  }

  predicate CallStarted(r: Outcome<Reservation>) {
    r.Ok? && r.value.invocation.Some?
  }

  lemma NoEarlyStart(run: AgentRun, reg: Registry, allowed: Option<set<ToolId>>, provider: bool, now: int)
    requires !run.state.Running? || now >= run.runDeadline || Candidate(run.steps, 0) == |run.steps|
    ensures !CallStarted(Reserve(run, reg, allowed, provider, now))
  {
    hide ExpireExecution, ReserveAttempt;
  }

  lemma AttemptStarts(run: AgentRun, k: nat, attempt: nat, reg: Registry, provider: bool, now: int)
    requires k < |run.steps|
    ensures CallStarted(ReserveAttempt(run, k, attempt, reg, provider, now)) <==> StepRejection(run, k, reg, provider).None?
  {
    hide StepRejection, FailWithoutInvocation, MaxSequence;
  }

  lemma NextStart(run: AgentRun, reg: Registry, allowed: Option<set<ToolId>>, provider: bool, now: int)
    requires run.state.Running? && now < run.runDeadline && Candidate(run.steps, 0) < |run.steps|
    requires forall j :: 0 <= j < Candidate(run.steps, 0) ==> run.steps[j].status.Succeeded?
    requires var k := Candidate(run.steps, 0);
             HasInvocation(run.invocations, k) ==>
               var v := run.invocations[Previous(run.invocations, k)];
               v.tool == run.steps[k].tool && v.authority == "read"
    ensures
      var k := Candidate(run.steps, 0);
      CallStarted(Reserve(run, reg, allowed, provider, now))
      <==> && run.supported && (allowed.Some? ==> run.steps[k].tool in allowed.value)
           && (run.steps[k].status.Pending? || (WaitsForRetry(run, k, reg) && |Retries(run.invocations)| < run.retryBudget))
           && StepRejection(run, k, reg, provider).None?
  {
    hide FailWithoutInvocation, FailActiveStep, ReserveAttempt, StepRejection, Candidate, Previous, Retries, ExpireExecution, Attempts;
    var k := Candidate(run.steps, 0);
    AttemptStarts(run, k, 0, reg, provider, now);
    AttemptStarts(run, k, 1, reg, provider, now);
  }

  lemma PolicyForNext(run: AgentRun, k: nat, reg: Registry, provider: bool)
    requires k < |run.steps|
    ensures StepRejection(run, k, reg, provider).None?
            <==> && Permitted(reg, run.steps[k].tool, run.steps[k].input, run.captured, provider)
                 && |run.invocations| < run.captured.toolCallBudget
                 && |CallsOfName(run.invocations, run.steps[k].tool.name)| < reg[run.steps[k].tool].callsPerRun
  {
    var s := run.steps[k];
    AcceptedIff(reg, s.tool, "read", s.input, run.captured, |run.invocations|, |CallsOfName(run.invocations, s.tool.name)|, provider);
    hide Rejection, CallsOfName;
  }

  lemma OwnTool(run: AgentRun, reg: Registry, i: nat)
    requires Inv(run, reg) && i < |run.invocations|
    ensures run.invocations[i].step < |run.steps| && run.invocations[i].tool == run.steps[run.invocations[i].step].tool
    ensures run.invocations[i].authority == "read"
  {
    hide Ordered, Sequential, Reached, Started, DoneMeansSucceeded, WithinBudgets, StateOk, RetryInFlight;
  }

  // ----- every call of every reachable Run is permitted -----

  /** A call stays within what its Run may read; a retry follows a failure that is safe to repeat. */
  predicate CallOk(run: AgentRun, i: nat, reg: Registry, provider: bool)
    requires i < |run.invocations|
  {
    var v := run.invocations[i];
    && v.step < |run.steps| && Permitted(reg, v.tool, run.steps[v.step].input, run.captured, provider)
    && (v.attempt == 1 ==>
          && i > 0 && run.invocations[i - 1].step == v.step && run.invocations[i - 1].error.Some?
          && RetriedAfter(run.invocations[i - 1].(attempt := 0), run.invocations[i - 1].error.value, reg))
  }

  predicate CallsOk(run: AgentRun, reg: Registry, provider: bool) {
    forall i :: 0 <= i < |run.invocations| ==> CallOk(run, i, reg, provider)
  }

  /** Calls that were there keep what makes them permitted. */
  lemma CallStaysOk(run: AgentRun, after: AgentRun, i: nat, reg: Registry, provider: bool, later: bool)
    requires Inv(run, reg) && Kept(run, after) && i < |run.invocations| && CallOk(run, i, reg, provider)
    requires provider ==> later
    ensures i < |after.invocations| && CallOk(after, i, reg, later)
  {
    hide Sequential, Reached, Started, DoneMeansSucceeded, WithinBudgets, StateOk, RetryInFlight;
    if run.invocations[i].attempt == 1 { assert !ActiveInvocation(run.invocations[i - 1]); }
  }

  lemma StepKeepsCallsOk(run: AgentRun, reg: Registry, s: Step, provider: bool)
    requires Inv(run, reg) && CallsOk(run, reg, provider)
    ensures CallsOk(Apply(run, reg, s), reg, provider || WithProvider(s))
  {
    hide Inv, CallOk, Reserve, Finalize, Recover, Cancel, Kept;
    var after, later := Apply(run, reg, s), provider || WithProvider(s);
    StepEvolves(run, reg, s);
    forall i: nat | i < |run.invocations| ensures i < |after.invocations| && CallOk(after, i, reg, later) {
      CallStaysOk(run, after, i, reg, provider, later);
    }
    match s
    case ReserveStep(allowed, p, now) =>
      if Reserve(run, reg, allowed, p, now).Ok? {
        ReservationGains(run, reg, allowed, p, now);
        if Reserve(run, reg, allowed, p, now).value.invocation.Some? { NewCallIsOk(run, reg, allowed, p, now, later); }
      }
    case FinalizeStep(c, result, now) =>
      if Finalize(run, c, result, reg, now).Ok? { FinalizeTouchesOne(run, c, result, reg, now, 0); }
    case _ => OthersGainNothing(run, reg, s);
  }

  lemma NewCallShape(run: AgentRun, reg: Registry, allowed: Option<set<ToolId>>, provider: bool, now: int)
    requires CallStarted(Reserve(run, reg, allowed, provider, now))
    ensures
      var r, k := Reserve(run, reg, allowed, provider, now).value, Candidate(run.steps, 0);
      && k < |run.steps| && r.run.captured == run.captured && |r.run.steps| == |run.steps| && r.run.steps[k].input == run.steps[k].input
      && r.run.invocations
         == run.invocations + [Invocation(k, if run.steps[k].status.Pending? then 0 else 1, run.steps[k].tool, "read", InFlight, None, now)]
  {
    hide FailWithoutInvocation, FailActiveStep, StepRejection, Candidate, Previous, Retries, ExpireExecution, ExactlyAttemptZeroFinished,
         ClassifyRetry, MaxSequence;
  }

  lemma NewCallIsOk(run: AgentRun, reg: Registry, allowed: Option<set<ToolId>>, provider: bool, now: int, seen: bool)
    requires Inv(run, reg) && CallStarted(Reserve(run, reg, allowed, provider, now)) && (provider ==> seen)
    ensures
      var after := Reserve(run, reg, allowed, provider, now).value.run;
      |run.invocations| < |after.invocations| && CallOk(after, |run.invocations|, reg, seen)
  {
    hide Inv, Reserve, Retries, CallsOfName, Candidate, WaitsForRetry, Permitted, CallOk;
    var after, k, n := Reserve(run, reg, allowed, provider, now).value.run, Candidate(run.steps, 0), |run.invocations|;
    CallStartsIff(run, reg, allowed, provider, now);
    NewCallShape(run, reg, allowed, provider, now);
    if !run.steps[k].status.Pending? {
      ReserveKeepsInv(run, reg, allowed, provider, now);
      RetryIsNeighbour(after, reg, n);
    }
    CallIsOk(run, after, k, reg, provider, seen);
  }

  lemma CallIsOk(run: AgentRun, after: AgentRun, k: nat, reg: Registry, provider: bool, seen: bool)
    requires k < |run.steps| && after.captured == run.captured && (provider ==> seen)
    requires |after.steps| == |run.steps| && after.steps[k].input == run.steps[k].input
    requires |after.invocations| == |run.invocations| + 1 && after.invocations[..|run.invocations|] == run.invocations
    requires
      var v := after.invocations[|run.invocations|];
      && v.step == k && v.tool == run.steps[k].tool && (v.attempt == 0 || v.attempt == 1)
      && (v.attempt == 1 ==> run.invocations != [] && run.invocations[|run.invocations| - 1].step == k && WaitsForRetry(run, k, reg))
    requires Permitted(reg, run.steps[k].tool, run.steps[k].input, run.captured, provider)
    ensures CallOk(after, |run.invocations|, reg, seen)
  {
    hide ExactlyAttemptZeroFinished;
    var n := |run.invocations|;
    if after.invocations[n].attempt == 1 { assert after.invocations[n - 1] == run.invocations[n - 1]; }
  }

  lemma RetryIsNeighbour(run: AgentRun, reg: Registry, j: nat)
    requires Inv(run, reg) && j < |run.invocations| && run.invocations[j].attempt == 1
    ensures j > 0 && run.invocations[j - 1].step == run.invocations[j].step
  {
    hide Sequential, Reached, Started, DoneMeansSucceeded, WithinBudgets, StateOk, RetryInFlight;
  }

  /** A reservation that found a provider configured. */
  predicate WithProvider(s: Step) {
    s.ReserveStep? && s.provider
  }

  predicate ProviderSeen(steps: seq<Step>)
    decreases |steps|
  {
    steps != [] && (WithProvider(steps[0]) || ProviderSeen(steps[1..]))
  }

  lemma {:induction false} RunsKeepCallsOk(run: AgentRun, reg: Registry, steps: seq<Step>, provider: bool)
    requires Inv(run, reg) && CallsOk(run, reg, provider)
    ensures CallsOk(Runs(run, reg, steps), reg, provider || ProviderSeen(steps))
    decreases |steps|
  {
    if steps != [] {
      StepKeepsCallsOk(run, reg, steps[0], provider);
      StepKeepsInv(run, reg, steps[0]);
      hide Inv, Apply, CallsOk;
      RunsKeepCallsOk(Apply(run, reg, steps[0]), reg, steps[1..], provider || WithProvider(steps[0]));
    }
  }

  /**
   Every call of every reachable Run was permitted to it: a registered version, an input of its schema, for
   `project.get` the Run's own Project, never an operator tool, and no provider tool unless a provider was
   configured at some reservation.  And every retry follows a transient failure of a pure read.
   */
  lemma ReachableCallsArePermitted(captured: Captured, supported: bool, created: int, reg: Registry, steps: seq<Step>, run: AgentRun)
    requires run == Runs(NewRun(captured, supported, created), reg, steps)
    ensures run.captured == captured.(toolCallBudget := 20)
    ensures CallsOk(run, reg, ProviderSeen(steps))
  {
    var first := NewRun(captured, supported, created);
    NewRunInv(captured, supported, created, reg);
    RunsKeepCallsOk(first, reg, steps, false);
    RunsEvolve(first, reg, steps);
    hide Inv, CallsOk, Runs;
  }

  // ----- planning -----

  /** Planning is claimed exactly once from a supported new Run; a Run with a plan of 1 to 12 steps is handed back as it is. */
  lemma PlanningClaimedIff(run: AgentRun, reg: Registry, expected: nat)
    requires Inv(run, reg)
    ensures
      ClaimPlanning(run, expected).Ok?
      <==> || (run.state.Created? && expected == 0 && run.captured.registryVersion == "agent-tools-v1" && run.supported)
           || (run.state.Ready? && 1 <= |run.steps| <= 12 && |run.steps| <= run.stepBudget)
    ensures ClaimPlanning(run, expected).Ok? ==>
              var after := ClaimPlanning(run, expected).value;
              if run.state.Ready? then after == run else after == run.(state := Planning, revision := 1, events := after.events)
  {
    hide Work, WithinBudgets, MaxSequence;
  }

  /** The claimed planning ends once: with the plan as pending steps, or as a failure; anyone later is refused or does nothing. */
  lemma PlanningEndsOnce(run: AgentRun, reg: Registry, planningRevision: nat, plan: seq<PlannedStep>)
    requires Inv(run, reg)
    ensures
      FinalizePlan(run, planningRevision, plan).Ok? <==> run.state.Planning? && planningRevision == 1
    ensures FinalizePlan(run, planningRevision, plan).Ok? ==>
              var after := FinalizePlan(run, planningRevision, plan).value;
              && after == run.(state := Ready, revision := 2, steps := after.steps, events := after.events)
              && |after.steps| == |plan|
              && forall k :: 0 <= k < |plan| ==> after.steps[k] == AgentStep(plan[k].tool, plan[k].input, Pending)
    ensures FailPlanning(run, planningRevision).Ok?
    ensures
      var after := FailPlanning(run, planningRevision).value;
      if run.state.Planning? && planningRevision == 1 then after == run.(state := Failed, revision := 2, events := after.events)
      else after == run
  {
    hide Work, WithinBudgets, MaxSequence;
  }

  // ----- recovery, cancellation, expiry -----

  /** What recovery does with a call that has been waited for long enough. */
  predicate GivenUp(run: AgentRun, after: AgentRun, i: nat, reg: Registry) {
    && OnlyCallAndStep(run, after, i)
    && var v, k := run.invocations[i], run.invocations[i].step;
       if run.captured.registryVersion == "agent-tools-v1" && v.tool in reg && reg[v.tool].pureRead then
         && after.invocations[i] == v.(status := Discarded, error := Some(ToolTimeout))
         && if v.attempt < run.retryBudget then after.state.Running? && after.steps[k].status.InProgress?
            else after.state.Failed? && after.steps[k].status.StepFailed?
       else after.invocations[i] == v && after.state.Failed? && after.steps[k].status.StepFailed?
  }

  /**
   Recovery never harms a healthy Run: it expires what is past its deadline, gives up the call that has been
   waited for long enough, and changes nothing else.
   */
  lemma RecoveryDecides(run: AgentRun, reg: Registry, now: int) returns (after: AgentRun)
    requires Inv(run, reg)
    ensures Recover(run, reg, now) == Ok(after)
    ensures
      var early, n := run.state.Created? || run.state.Planning?, |run.invocations|;
      if Terminal(run.state) || now < (if early then run.planningDeadline else run.runDeadline) then
        if run.state.Running? && ActiveCalls(run.invocations) != {} && !Fresh(run.invocations[n - 1], reg, now)
        then GivenUp(run, after, n - 1, reg) else after == run
      else after.state.Expired? && (run.state.Running? ==> NothingOpen(after))
  {
    hide Inv, Recover, Fresh, GivenUp, NothingOpen, ActiveCalls;
    after := run;
    if !run.state.Running? {
      after := StoppedRecovery(run, reg, now);
    } else if now >= run.runDeadline {
      after := LateRecovery(run, reg, now);
    } else if ActiveCalls(run.invocations) == {} {
      IdleIsHealthy(run, reg, now);
    } else {
      ActiveCallIsLast(run, reg);
      var i :| i in ActiveCalls(run.invocations);
      ActiveCallsAre(run.invocations, i);
      FreshCallsAreLeftAlone(run, reg, i, now);
      if !Fresh(run.invocations[i], reg, now) { after := CallIsGivenUp(run, i, reg, now); }
    }
  }

  lemma ActiveCallsAre(invocations: seq<Invocation>, i: nat)
    ensures i in ActiveCalls(invocations) <==> i < |invocations| && ActiveInvocation(invocations[i])
  {
  }

  lemma StoppedRecovery(run: AgentRun, reg: Registry, now: int) returns (after: AgentRun)
    requires Inv(run, reg) && !run.state.Running?
    ensures Recover(run, reg, now) == Ok(after)
    ensures
      var early := run.state.Created? || run.state.Planning?;
      if Terminal(run.state) || now < (if early then run.planningDeadline else run.runDeadline) then after == run else after.state.Expired?
  {
    hide Work, WithinBudgets, MaxSequence, ExpireExecution;
    after := Recover(run, reg, now).value;
  }

  lemma LateRecovery(run: AgentRun, reg: Registry, now: int) returns (after: AgentRun)
    requires Inv(run, reg) && run.state.Running? && now >= run.runDeadline
    ensures Recover(run, reg, now) == Ok(after) && after.state.Expired? && NothingOpen(after)
  {
    ExpireKeepsInv(run, reg, now);
    hide Inv, Sound, NothingOpen, MaxSequence;
    after := ExpireExecution(run, now).value;
  }

  lemma IdleIsHealthy(run: AgentRun, reg: Registry, now: int)
    requires Inv(run, reg) && run.state.Running? && now < run.runDeadline && ActiveCalls(run.invocations) == {}
    ensures Recover(run, reg, now) == Ok(run)
  {
    forall i: nat | i < |run.invocations| ensures !ActiveInvocation(run.invocations[i]) {
      ActiveCallsAre(run.invocations, i);
    }
    StartedStepsHaveCalls(run, reg);
    RunningStepsOnly(run, reg);
    hide Inv, Sound, ActiveCalls, ExpireExecution, RecoverStale, FailActiveStep, Attempts;
  }

  lemma RunningStepsOnly(run: AgentRun, reg: Registry)
    requires Inv(run, reg) && run.state.Running?
    ensures run.steps != [] && forall k :: 0 <= k < |run.steps| ==> run.steps[k].status.Succeeded? || OpenStep(run.steps[k])
  {
    hide Work, WithinBudgets, RetryInFlight;
  }

  lemma StartedStepsHaveCalls(run: AgentRun, reg: Registry)
    requires Inv(run, reg)
    ensures forall k: nat :: k < |run.steps| && run.steps[k].status.InProgress? ==> Attempts(run.invocations, k) != {}
  {
    hide Owned, Ordered, Sequential, Reached, DoneMeansSucceeded, WithinBudgets, StateOk, RetryInFlight;
    forall k: nat | k < |run.steps| && run.steps[k].status.InProgress? ensures Attempts(run.invocations, k) != {} {
      assert HasInvocation(run.invocations, k);
      var i: nat :| i < |run.invocations| && run.invocations[i].step == k;
      assert i in Attempts(run.invocations, k);
    }
  }

  lemma CallIsGivenUp(run: AgentRun, i: nat, reg: Registry, now: int) returns (after: AgentRun)
    requires Inv(run, reg) && run.state.Running? && now < run.runDeadline
    requires i < |run.invocations| && ActiveInvocation(run.invocations[i]) && !Fresh(run.invocations[i], reg, now)
    ensures Recover(run, reg, now) == Ok(after) && GivenUp(run, after, i, reg)
  {
    hide Inv, MaxSequence, RecoverStale, GivenUp;
    OnlyActive(run, reg, i);
    ActiveStepOpen(run, i, reg);
    OwnTool(run, reg, i);
    StaleIsGivenUp(run, i, reg, now);
    after := RecoverStale(run, i, reg, now).value;
  }

  lemma StaleIsGivenUp(run: AgentRun, i: nat, reg: Registry, now: int)
    requires run.state.Running? && i < |run.invocations| && run.invocations[i].step < |run.steps|
    requires run.invocations[i].tool == run.steps[run.invocations[i].step].tool && run.invocations[i].authority == "read"
    requires run.steps[run.invocations[i].step].status.InProgress?
    ensures RecoverStale(run, i, reg, now).Ok? && GivenUp(run, RecoverStale(run, i, reg, now).value, i, reg)
  {
    hide MaxSequence;
  }

  /** With the fixed registry recovery waits 40 seconds for every tool. */
  lemma FixedRegistryWaits(schema: ToolId -> ToolInput -> bool, v: Invocation, now: int)
    requires v.tool in FixedRegistry(schema)
    ensures Fresh(v, FixedRegistry(schema), now) <==> now < v.reservedAt + 40_000_000
    ensures var d := FixedRegistry(schema)[v.tool]; d.callsPerRun == 5 && d.maxOutputBytes == 65_536 && d.pureRead
  {
  }

  /** A Run can be cancelled exactly while it has not ended and the caller saw its revision; twice is once. */
  lemma CancelledIff(run: AgentRun, reg: Registry, expected: nat, now: int)
    requires Inv(run, reg)
    ensures Cancel(run, expected, now).Ok? <==> run.state.Cancelled? || (!Terminal(run.state) && run.revision == expected)
    ensures run.state.Cancelled? ==> Cancel(run, expected, now) == Ok(run)
    ensures Cancel(run, expected, now).Ok? && !run.state.Cancelled? ==>
              var after := Cancel(run, expected, now).value;
              && after == run.(state := RunState.Cancelled, revision := run.revision + 1, steps := after.steps,
                               invocations := after.invocations, events := after.events)
              && |after.steps| == |run.steps| && |after.invocations| == |run.invocations|
              && (forall k :: 0 <= k < |run.steps| ==>
                    after.steps[k] == if OpenStep(run.steps[k]) then run.steps[k].(status := StepCancelled) else run.steps[k])
              && forall i :: 0 <= i < |run.invocations| ==>
                   after.invocations[i]
                   == if ActiveInvocation(run.invocations[i]) then run.invocations[i].(status := Discarded, error := Some(CancellationDiscard))
                      else run.invocations[i]
  {
    hide Work, WithinBudgets, MaxSequence, LogDiscards;
  }

  /** Claiming a plan that is otherwise in order at or after its deadline expires the Run instead. */
  lemma LateClaimExpires(run: AgentRun, reg: Registry, allowed: Option<set<ToolId>>, now: int)
    requires Inv(run, reg) && run.state.Ready? && run.supported && run.captured.registryVersion == "agent-tools-v1"
    requires now >= run.runDeadline
    ensures var r := ClaimExecution(run, run.revision, reg, allowed, now);
            r.Ok? && !r.value.claimed && r.value.run.state.Expired?
  {
    hide OriginalClaim, Work, WithinBudgets, MaxSequence;
  }

  /** The transitions a transaction can make; a Run never awaits approval and never leaves an end. */
  lemma StatesMove(run: AgentRun, reg: Registry, s: Step)
    requires Inv(run, reg)
    ensures
      var next := Apply(run, reg, s).state;
      next == run.state
      || match run.state
         case Created => next.Planning? || next.Cancelled? || next.Expired?
         case Planning => next.Ready? || next.Failed? || next.Cancelled? || next.Expired?
         case Ready => next.Running? || next.Cancelled? || next.Expired?
         case Running => next.Completed? || next.Failed? || next.Cancelled? || next.Expired?
         case _ => false
  {
    StepEvolves(run, reg, s);
    StepKeepsInv(run, reg, s);
    hide Apply, Work, WithinBudgets, Kept, RetryInFlight;
  }

  /** The clock value a transaction used, if it used one. */
  function ClockOf(s: Step): Option<int> {
    match s
    case ClaimStep(_, _, now) => Some(now)
    case ReserveStep(_, _, now) => Some(now)
    case FinalizeStep(_, _, now) => Some(now)
    case RecoverStep(now) => Some(now)
    case ExpireSynthesis(now) => Some(now)
    case _ => None
  }

  /** A Run expires only through a clock value at or after the deadline of its phase. */
  lemma ExpiredOnTime(run: AgentRun, reg: Registry, s: Step)
    requires Inv(run, reg) && !run.state.Expired? && Apply(run, reg, s).state.Expired?
    ensures ClockOf(s).Some?
    ensures ClockOf(s).value >= if run.state.Created? || run.state.Planning? then run.planningDeadline else run.runDeadline
  {
    hide Inv, MaxSequence, OriginalClaim, PlanExecutable, HasResult, CompletePlan, StepRejection, ExactlyAttemptZeroFinished, ClassifyRetry,
         Previous, Retries, Candidate, ExactPureRead, StaleAt, LogDiscards, Reserve, Finalize, Recover, Cancel;
    match s
    case ReserveStep(allowed, provider, now) => ReserveExpires(run, reg, allowed, provider, now);
    case FinalizeStep(i, result, now) => FinalizeExpires(run, reg, i, result, now);
    case RecoverStep(now) =>
      var after := RecoveryDecides(run, reg, now);
      GivenUpIsNotExpired(run, after, reg);
    case CancelStep(expected, now) => CancelledIff(run, reg, expected, now);
    case _ =>
  }

  lemma GivenUpIsNotExpired(run: AgentRun, after: AgentRun, reg: Registry)
    ensures forall i: nat :: GivenUp(run, after, i, reg) ==> !after.state.Expired?
  {
  }

  lemma ReserveExpires(run: AgentRun, reg: Registry, allowed: Option<set<ToolId>>, provider: bool, now: int)
    requires Reserve(run, reg, allowed, provider, now).Ok? && !run.state.Expired?
    requires Reserve(run, reg, allowed, provider, now).value.run.state.Expired?
    ensures run.state.Running? && now >= run.runDeadline
  {
    hide MaxSequence, StepRejection, ExactlyAttemptZeroFinished, ClassifyRetry, Previous, Retries, Candidate;
  }

  lemma FinalizeExpires(run: AgentRun, reg: Registry, i: nat, result: ToolResult, now: int)
    requires Finalize(run, i, result, reg, now).Ok? && !run.state.Expired?
    requires Finalize(run, i, result, reg, now).value.run.state.Expired?
    ensures run.state.Running? && now >= run.runDeadline
  {
    hide MaxSequence, EffectiveCode, Retryable;
  }
}
