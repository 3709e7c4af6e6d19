/** The loop that executes a claimed Run, alone or beside other workers. */
module RunOrchestration {
  import opened Wrappers
  import opened AgentRunStates
  import opened ToolPolicy
  import opened RunModel
  import opened RunInvariant
  import opened RunSafety
  import opened RunStore

  /** Every tool call returns an output or an error code. */
  predicate Definite(result: ToolResult) {
    result.hasOutput || result.code.Some?
  }

  lemma FinalizeNeverRaises(run: AgentRun, i: nat, result: ToolResult, reg: Registry, now: int)
    requires Inv(run, reg)
    ensures Finalize(run, i, result, reg, now).Ok?
  {
    hide Work, Budgets, ClassifyRetry, EffectiveCode;
    if i < |run.invocations| && run.invocations[i].status.InFlight? && run.state.Running? {
      if now >= run.runDeadline {
        MarkKeepsSound(run, i, Discarded, Some(DeadlineExpired), reg);
        ExpireKeepsInv(SetInvocation(run, i, Discarded, Some(DeadlineExpired)), reg, now);
      } else if EffectiveCode(result).Some? {
        var code := EffectiveCode(result).value;
        MarkThenFail(run, i, if code.ToolTimeout? then TimedOut else Errored, Some(code), reg, now);
      }
    }
  }

  /** Working alone the loop always gets its next call, or has nothing left to call. */
  lemma ReserveAlone(run: AgentRun, reg: Registry, allowed: Option<set<ToolId>>, provider: bool, now: int)
    requires Inv(run, reg) && run.retryBudget <= 1
    requires ActiveCalls(run.invocations) == {}
    ensures Reserve(run, reg, allowed, provider, now).Ok?
    ensures
      var r := Reserve(run, reg, allowed, provider, now).value;
      if r.invocation.Some? then
        r.run.state.Running? && r.invocation.value < |r.run.invocations|
        && r.run.invocations[r.invocation.value].status.InFlight?
      else
        !r.run.state.Running? || AllSucceeded(r.run.steps)
  {
    ReserveRefusedIffInFlight(run, reg, allowed, provider, now);
    ReserveOutcome(run, reg, allowed, provider, now);
    if run.state.Running? && Candidate(run.steps, 0) == |run.steps| {
      assert AllSucceeded(run.steps);
    }
  }

  /** A granted call is new and in flight; otherwise the Run stopped or was not touched. */
  lemma ReserveOutcome(run: AgentRun, reg: Registry, allowed: Option<set<ToolId>>, provider: bool, now: int)
    requires Reserve(run, reg, allowed, provider, now).Ok?
    ensures
      var r := Reserve(run, reg, allowed, provider, now).value;
      if r.invocation.Some? then
        && r.run.state.Running? && r.invocation == Some(|run.invocations|)
        && |r.run.invocations| == |run.invocations| + 1
        && r.run.invocations[|run.invocations|].status.InFlight?
      else
        || !r.run.state.Running?
        || (r.run == run && Candidate(run.steps, 0) == |run.steps|)
  {
    hide StepRejection, ExactlyAttemptZeroFinished, ClassifyRetry, MaxSequence, Candidate, Previous, Retries, DiscardActive, CancelOpen;
  }

  lemma FinalizeAlone(run: AgentRun, i: nat, result: ToolResult, reg: Registry, now: int)
    requires Inv(run, reg) && run.state.Running? && Definite(result)
    requires i < |run.invocations| && run.invocations[i].status.InFlight?
    requires Finalize(run, i, result, reg, now).Ok?
    ensures
      var r := Finalize(run, i, result, reg, now).value;
      if r.proceed then r.run.state.Running? && ActiveCalls(r.run.invocations) == {}
      else !r.run.state.Running?
  {
    ActiveStep(run.steps, run.invocations, i);
    assert forall j :: 0 <= j < |run.invocations| && j != i ==> !ActiveInvocation(run.invocations[j]) by {
      ActiveCallIsLast(run, reg);
      assert forall j :: 0 <= j < |run.invocations| && ActiveInvocation(run.invocations[j]) ==> j in ActiveCalls(run.invocations);
    }
    hide Inv, Retryable, MaxSequence, DiscardActive, CancelOpen, EffectiveCode;
    FinalizeStops(run, i, result, reg, now);
  }

  /** What finalizing a call in flight leaves, apart from the rows of an expired Run. */
  lemma FinalizeStops(run: AgentRun, i: nat, result: ToolResult, reg: Registry, now: int)
    requires run.state.Running? && Definite(result)
    requires i < |run.invocations| && run.invocations[i].status.InFlight? && run.invocations[i].step < |run.steps|
    requires Finalize(run, i, result, reg, now).Ok?
    ensures
      var r := Finalize(run, i, result, reg, now).value;
      if r.proceed then
        && r.run.state.Running? && |r.run.invocations| == |run.invocations|
        && !ActiveInvocation(r.run.invocations[i])
        && forall j :: 0 <= j < |run.invocations| && j != i ==> r.run.invocations[j] == run.invocations[j]
      else !r.run.state.Running?
  {
    hide Retryable, MaxSequence, DiscardActive, CancelOpen;
  }

  lemma CompleteNeverRaises(run: AgentRun, required: set<ResultKind>, now: int)
    ensures Complete(run, required, now).Ok?
    ensures (!run.state.Running? || (run.steps != [] && AllSucceeded(run.steps))) ==> !Complete(run, required, now).value.state.Running?
  {
    hide HasResult;
  }

  /** Result persistence changes no step and no call. */
  predicate SynthesisStep(s: Step) {
    s.PersistResult? || s.FailSynthesis? || s.ExpireSynthesis?
  }

  lemma {:induction false} SynthesisKeepsSteps(run: AgentRun, reg: Registry, steps: seq<Step>)
    requires forall k :: 0 <= k < |steps| ==> SynthesisStep(steps[k])
    ensures var after := Runs(run, reg, steps);
      after.steps == run.steps && (!run.state.Running? ==> !after.state.Running?)
    decreases |steps|
  {
    if steps != [] {
      assert SynthesisStep(steps[0]);
      SynthesisKeepsSteps(Apply(run, reg, steps[0]), reg, steps[1..]);
    }
  }

  lemma BudgetHolds(run: AgentRun, reg: Registry)
    requires Inv(run, reg)
    ensures |run.invocations| <= run.captured.toolCallBudget
    ensures run.state.Running? ==> run.steps != []
    ensures run.state.AwaitingApproval? ==> false
  {
  }

  // ----- one turn of the loop -----

  datatype RoundEnd = Again | Finished | Refused(error: RunError)

  datatype Turn = Turn(run: AgentRun, called: bool, end: RoundEnd)

  /**
   What surrounds the loop: the provider's availability and the outcome of the call by round, the clock,
   what other workers commit before each transaction, and what is committed before completion (the
   persisted result, and other workers again).
   */
  datatype Surroundings = Surroundings(
    provider: nat -> bool, results: nat -> ToolResult, clock: nat -> int,
    others: nat -> seq<Step>, persisted: seq<Step>, required: set<ResultKind>)

  /** Round `n`: reserve, call the tool, finalize; each of the two transactions after other workers'. */
  function TurnOf(run: AgentRun, reg: Registry, allowed: Option<set<ToolId>>, n: nat, env: Surroundings): Turn {
    var before := Runs(run, reg, env.others(n));
    match Reserve(before, reg, allowed, env.provider(n), env.clock(n))
    case Err(e) => Turn(before, false, Refused(e))
    case Ok(r) =>
      if r.invocation.None? then Turn(r.run, false, Finished)
      else
        var meanwhile := Runs(r.run, reg, env.others(n + 1));
        match Finalize(meanwhile, r.invocation.value, env.results(n), reg, env.clock(n + 1))
        case Err(e) => Turn(meanwhile, true, Refused(e))
        case Ok(f) => Turn(f.run, true, if f.proceed then Again else Finished)
  }

  /** A turn is a run of committed steps. */
  lemma TurnIsARun(run: AgentRun, reg: Registry, allowed: Option<set<ToolId>>, n: nat, env: Surroundings) returns (steps: seq<Step>)
    requires Inv(run, reg)
    ensures Runs(run, reg, steps) == TurnOf(run, reg, allowed, n, env).run
  {
    hide Inv, Reserve, Finalize, Runs;
    var reserve := ReserveStep(allowed, env.provider(n), env.clock(n));
    var before := Runs(run, reg, env.others(n));
    RunsKeepInv(run, reg, env.others(n));
    steps := env.others(n);
    RunsConcat(run, reg, steps, [reserve]);
    RunsOne(before, reg, reserve);
    var r := Reserve(before, reg, allowed, env.provider(n), env.clock(n));
    if r.Ok? {
      steps := steps + [reserve];
      if r.value.invocation.Some? {
        var finalize := FinalizeStep(r.value.invocation.value, env.results(n), env.clock(n + 1));
        var meanwhile := Runs(r.value.run, reg, env.others(n + 1));
        RunsConcat(run, reg, steps, env.others(n + 1));
        RunsConcat(run, reg, steps + env.others(n + 1), [finalize]);
        RunsOne(meanwhile, reg, finalize);
        steps := steps + env.others(n + 1);
        if Finalize(meanwhile, finalize.invocation, finalize.result, reg, finalize.now).Ok? { steps := steps + [finalize]; }
      }
    }
  }

  /** Calls only grow over a run, and every state of it stays within the budget. */
  lemma RunGrows(run: AgentRun, reg: Registry, steps: seq<Step>)
    requires Inv(run, reg)
    ensures Inv(Runs(run, reg, steps), reg) && Kept(run, Runs(run, reg, steps))
    ensures |run.invocations| <= |Runs(run, reg, steps).invocations| <= run.captured.toolCallBudget
    ensures Runs(run, reg, steps).captured == run.captured && Runs(run, reg, steps).retryBudget == run.retryBudget
  {
    RunsKeepInv(run, reg, steps);
    RunsEvolve(run, reg, steps);
    BudgetHolds(Runs(run, reg, steps), reg);
    hide Inv, Runs;
  }

  lemma TurnGrows(run: AgentRun, reg: Registry, allowed: Option<set<ToolId>>, n: nat, env: Surroundings)
    requires Inv(run, reg)
    ensures
      var t := TurnOf(run, reg, allowed, n, env);
      && Inv(t.run, reg) && Kept(run, t.run)
      && |run.invocations| + (if t.called then 1 else 0) <= |t.run.invocations| <= run.captured.toolCallBudget
      && t.run.captured == run.captured && t.run.retryBudget == run.retryBudget
      && (t.end.Again? ==> t.called)
  {
    hide Inv, Reserve, Finalize, Runs, Kept;
    var steps := TurnIsARun(run, reg, allowed, n, env);
    RunGrows(run, reg, steps);
    var before := Runs(run, reg, env.others(n));
    RunGrows(run, reg, env.others(n));
    var r := Reserve(before, reg, allowed, env.provider(n), env.clock(n));
    if r.Ok? && r.value.invocation.Some? {
      ReserveOutcome(before, reg, allowed, env.provider(n), env.clock(n));
      ReserveKeepsInv(before, reg, allowed, env.provider(n), env.clock(n));
      RunGrows(r.value.run, reg, env.others(n + 1));
      var meanwhile := Runs(r.value.run, reg, env.others(n + 1));
      var finalize := FinalizeStep(r.value.invocation.value, env.results(n), env.clock(n + 1));
      RunsOne(meanwhile, reg, finalize);
      RunGrows(meanwhile, reg, [finalize]);
    }
  }

  // ----- the whole loop -----

  datatype LoopEnd = LoopEnd(run: AgentRun, calls: nat, error: Option<RunError>, round: nat)

  /** The loop from round `n` on; each turn that goes on has made a call, so the budget bounds it. */
  ghost function Loop(run: AgentRun, reg: Registry, allowed: Option<set<ToolId>>, n: nat, env: Surroundings): LoopEnd
    requires Inv(run, reg)
    decreases run.captured.toolCallBudget - |run.invocations|
  {
    TurnGrows(run, reg, allowed, n, env);
    var t := TurnOf(run, reg, allowed, n, env);
    match t.end
    case Again =>
      var rest := Loop(t.run, reg, allowed, n + 2, env);
      rest.(calls := rest.calls + 1)
    case Finished => LoopEnd(t.run, if t.called then 1 else 0, None, n)
    case Refused(e) => LoopEnd(t.run, if t.called then 1 else 0, Some(e), n)
  }

  lemma LoopAgain(run: AgentRun, reg: Registry, allowed: Option<set<ToolId>>, n: nat, env: Surroundings)
    requires Inv(run, reg)
    ensures
      var t := TurnOf(run, reg, allowed, n, env);
      && Inv(t.run, reg)
      && Loop(run, reg, allowed, n, env)
         == match t.end
            case Again => var rest := Loop(t.run, reg, allowed, n + 2, env); rest.(calls := rest.calls + 1)
            case Finished => LoopEnd(t.run, if t.called then 1 else 0, None, n)
            case Refused(e) => LoopEnd(t.run, if t.called then 1 else 0, Some(e), n)
  {
    TurnGrows(run, reg, allowed, n, env);
    hide Inv, TurnOf;
  }

  /** The loop is a run of committed steps and makes at most as many calls as the budget has left. */
  lemma {:induction false} LoopIsARun(run: AgentRun, reg: Registry, allowed: Option<set<ToolId>>, n: nat, env: Surroundings)
    returns (steps: seq<Step>)
    requires Inv(run, reg)
    ensures
      var end := Loop(run, reg, allowed, n, env);
      && end.run == Runs(run, reg, steps)
      && end.calls <= |end.run.invocations| - |run.invocations|
      && |end.run.invocations| <= run.captured.toolCallBudget
    decreases run.captured.toolCallBudget - |run.invocations|
  {
    hide Inv, TurnOf, Loop, Runs, Kept;
    steps := TurnIsARun(run, reg, allowed, n, env);
    TurnGrows(run, reg, allowed, n, env);
    LoopAgain(run, reg, allowed, n, env);
    var t := TurnOf(run, reg, allowed, n, env);
    if t.end.Again? {
      var more := LoopIsARun(t.run, reg, allowed, n + 2, env);
      RunsConcat(run, reg, steps, more);
      steps := steps + more;
    }
  }

  // ----- alone -----

  ghost predicate Alone(env: Surroundings) {
    (forall n: nat :: env.others(n) == []) && (forall n: nat :: Definite(env.results(n)))
  }

  lemma TurnAlone(run: AgentRun, reg: Registry, allowed: Option<set<ToolId>>, n: nat, env: Surroundings)
    requires Inv(run, reg) && run.retryBudget <= 1 && Alone(env) && ActiveCalls(run.invocations) == {}
    ensures
      var t := TurnOf(run, reg, allowed, n, env);
      match t.end
      case Again => ActiveCalls(t.run.invocations) == {}
      case Finished => !t.run.state.Running? || AllSucceeded(t.run.steps)
      case Refused(_) => false
  {
    assert env.others(n) == [] && env.others(n + 1) == [] && Definite(env.results(n));
    ReserveAlone(run, reg, allowed, env.provider(n), env.clock(n));
    ReserveKeepsInv(run, reg, allowed, env.provider(n), env.clock(n));
    hide Inv, Reserve, Finalize, ActiveCalls, AllSucceeded, Alone;
    var r := Reserve(run, reg, allowed, env.provider(n), env.clock(n)).value;
    if r.invocation.Some? {
      FinalizeNeverRaises(r.run, r.invocation.value, env.results(n), reg, env.clock(n + 1));
      FinalizeAlone(r.run, r.invocation.value, env.results(n), reg, env.clock(n + 1));
    }
  }

  lemma {:induction false} LoopAlone(run: AgentRun, reg: Registry, allowed: Option<set<ToolId>>, n: nat, env: Surroundings)
    requires Inv(run, reg) && run.retryBudget <= 1 && Alone(env) && ActiveCalls(run.invocations) == {}
    ensures
      var end := Loop(run, reg, allowed, n, env);
      end.error.None? && (!end.run.state.Running? || AllSucceeded(end.run.steps))
    decreases run.captured.toolCallBudget - |run.invocations|
  {
    hide Inv, TurnOf, Loop, ActiveCalls, AllSucceeded, Alone, Kept;
    TurnGrows(run, reg, allowed, n, env);
    LoopAgain(run, reg, allowed, n, env);
    TurnAlone(run, reg, allowed, n, env);
    var t := TurnOf(run, reg, allowed, n, env);
    if t.end.Again? { LoopAlone(t.run, reg, allowed, n + 2, env); }
  }

  // ----- the whole execution -----

  datatype Execution = Execution(run: AgentRun, claimed: bool, calls: nat, error: Option<RunError>)

  /** `execute_read_only_run`: the claim, the loop, the result, the completion. */
  ghost function Executed(run: AgentRun, expected: nat, reg: Registry, allowed: Option<set<ToolId>>, env: Surroundings): Execution
    requires Inv(run, reg)
  {
    match ClaimExecution(run, expected, reg, allowed, env.clock(0))
    case Err(e) => Execution(run, false, 0, Some(e))
    case Ok(claim) =>
      if !claim.claimed then Execution(claim.run, false, 0, None)
      else
        ClaimKeepsInv(run, expected, allowed, reg, env.clock(0));
        var end := Loop(claim.run, reg, allowed, 1, env);
        if end.error.Some? then Execution(end.run, true, end.calls, end.error)
        else
          CompleteNeverRaises(Runs(end.run, reg, env.persisted), env.required, env.clock(end.round + 2));
          Execution(Complete(Runs(end.run, reg, env.persisted), env.required, env.clock(end.round + 2)).value, true, end.calls, None)
  }

  /** The execution is a run of committed steps, and its calls fit into what the budget has left. */
  lemma ExecutedIsARun(run: AgentRun, expected: nat, reg: Registry, allowed: Option<set<ToolId>>, env: Surroundings)
    returns (steps: seq<Step>)
    requires Inv(run, reg)
    ensures
      var x := Executed(run, expected, reg, allowed, env);
      && x.run == Runs(run, reg, steps)
      && x.calls <= |x.run.invocations| - |run.invocations| && |x.run.invocations| <= run.captured.toolCallBudget
  {
    hide Inv, Loop, Runs, Kept, ClaimExecution, Complete;
    var claimStep := ClaimStep(expected, allowed, env.clock(0));
    RunsOne(run, reg, claimStep);
    RunGrows(run, reg, []);
    RunGrows(run, reg, [claimStep]);
    RunsNone(run, reg);
    var claim := ClaimExecution(run, expected, reg, allowed, env.clock(0));
    if claim.Err? {
      steps := [];
    } else if !claim.value.claimed {
      steps := [claimStep];
    } else {
      ClaimKeepsInv(run, expected, allowed, reg, env.clock(0));
      var end := Loop(claim.value.run, reg, allowed, 1, env);
      var loop := LoopIsARun(claim.value.run, reg, allowed, 1, env);
      RunsConcat(run, reg, [claimStep], loop);
      steps := [claimStep] + loop;
      if end.error.None? {
        var complete := CompleteStep(env.required, env.clock(end.round + 2));
        var persisted := Runs(end.run, reg, env.persisted);
        CompleteNeverRaises(persisted, env.required, env.clock(end.round + 2));
        RunsOne(persisted, reg, complete);
        RunsConcat(run, reg, steps, env.persisted);
        RunsConcat(run, reg, steps + env.persisted, [complete]);
        RunGrows(run, reg, steps);
        RunGrows(end.run, reg, env.persisted);
        RunGrows(run, reg, steps + env.persisted);
        RunGrows(persisted, reg, [complete]);
        steps := steps + env.persisted + [complete];
      }
      RunGrows(run, reg, steps);
    }
  }

  lemma RunsNone(run: AgentRun, reg: Registry)
    ensures Runs(run, reg, []) == run
  {
  }

  /** A worker that is alone and claims the Run leaves it ended, never RUNNING. */
  lemma ExecutedAlone(run: AgentRun, expected: nat, reg: Registry, allowed: Option<set<ToolId>>, env: Surroundings)
    requires Inv(run, reg) && run.retryBudget <= 1 && Alone(env)
    requires forall k :: 0 <= k < |env.persisted| ==> SynthesisStep(env.persisted[k])
    ensures
      var x := Executed(run, expected, reg, allowed, env);
      x.claimed ==> x.error.None? && Terminal(x.run.state)
  {
    hide Inv, Loop, Runs, Kept, ClaimExecution, Complete, ActiveCalls, AllSucceeded, Alone;
    var claim := ClaimExecution(run, expected, reg, allowed, env.clock(0));
    if claim.Ok? && claim.value.claimed {
      ClaimKeepsInv(run, expected, allowed, reg, env.clock(0));
      ClaimStarts(run, expected, reg, allowed, env.clock(0));
      LoopAlone(claim.value.run, reg, allowed, 1, env);
      var loop := LoopIsARun(claim.value.run, reg, allowed, 1, env);
      RunGrows(claim.value.run, reg, loop);
      CompletionEnds(claim.value.run, Loop(claim.value.run, reg, allowed, 1, env), reg, env);
    }
  }

  lemma ClaimStarts(run: AgentRun, expected: nat, reg: Registry, allowed: Option<set<ToolId>>, now: int)
    requires Inv(run, reg) && ClaimExecution(run, expected, reg, allowed, now).Ok?
    requires ClaimExecution(run, expected, reg, allowed, now).value.claimed
    ensures
      var claimed := ClaimExecution(run, expected, reg, allowed, now).value.run;
      claimed.state.Running? && claimed.revision == 3 && ActiveCalls(claimed.invocations) == {} && claimed.retryBudget == run.retryBudget
  {
    ReadyIsIdle(run, reg);
    hide PlanExecutable, OriginalClaim, MaxSequence, ActiveCalls;
  }

  lemma ReadyIsIdle(run: AgentRun, reg: Registry)
    requires Inv(run, reg)
    ensures run.state.Ready? ==> ActiveCalls(run.invocations) == {}
  {
  }

  /** Completing what the loop left. */
  lemma CompletionEnds(claimed: AgentRun, end: LoopEnd, reg: Registry, env: Surroundings)
    requires claimed.revision == 3 && Inv(end.run, reg) && Kept(claimed, end.run)
    requires !end.run.state.Running? || AllSucceeded(end.run.steps)
    requires forall k :: 0 <= k < |env.persisted| ==> SynthesisStep(env.persisted[k])
    ensures Complete(Runs(end.run, reg, env.persisted), env.required, env.clock(end.round + 2)).Ok?
    ensures Terminal(Complete(Runs(end.run, reg, env.persisted), env.required, env.clock(end.round + 2)).value.state)
  {
    hide Inv, Kept, Complete, Runs;
    var persisted := Runs(end.run, reg, env.persisted);
    var complete := CompleteStep(env.required, env.clock(end.round + 2));
    SynthesisKeepsSteps(end.run, reg, env.persisted);
    RunGrows(end.run, reg, env.persisted);
    BudgetHolds(persisted, reg);
    CompleteNeverRaises(persisted, env.required, env.clock(end.round + 2));
    RunGrows(persisted, reg, [complete]);
    RunsOne(persisted, reg, complete);
    KeptTransitive(claimed, end.run, persisted);
    KeptTransitive(claimed, persisted, Runs(persisted, reg, [complete]));
    PastRunningIsTerminal(claimed, Runs(persisted, reg, [complete]), reg);
  }

  /** A later state of a Run that is past planning and no longer running has ended. */
  lemma PastRunningIsTerminal(before: AgentRun, after: AgentRun, reg: Registry)
    requires Inv(after, reg) && Kept(before, after)
    requires before.revision >= 3 && !after.state.Running?
    ensures Terminal(after.state)
  {
  }

  // ----- the method -----

  /** Other workers' transactions between two of this worker's. */
  method Interleave(row: RunRow, reg: Registry, steps: seq<Step>)
    requires Inv(row.View(), reg)
    modifies row
    ensures row.View() == Runs(old(row.View()), reg, steps)
  {
    RunGrows(row.View(), reg, steps);
    hide Inv, Runs;
    var after := Runs(row.View(), reg, steps);
    row.Load(after);
  }

  /** One turn of the loop; a refusal rolls its transaction back. */
  method CallRound(row: RunRow, reg: Registry, allowed: Option<set<ToolId>>, n: nat, env: Surroundings) returns (called: bool, end: RoundEnd)
    requires Inv(row.View(), reg)
    modifies row
    ensures TurnOf(old(row.View()), reg, allowed, n, env) == Turn(row.View(), called, end)
  {
    hide Inv, Runs, Reserve, Finalize, Kept;
    ghost var start := row.View();
    RunGrows(start, reg, env.others(n));
    Interleave(row, reg, env.others(n));
    var saved := row.View();
    var reserved, error := row.ReserveNext(reg, allowed, env.provider(n), env.clock(n));
    if error.Some? {
      row.Load(saved);
      return false, Refused(error.value);
    }
    if reserved.None? { return false, Finished; }
    ReserveKeepsInv(saved, reg, allowed, env.provider(n), env.clock(n));
    RunGrows(row.View(), reg, env.others(n + 1));
    Interleave(row, reg, env.others(n + 1));
    saved := row.View();
    var proceed;
    proceed, error := row.FinalizeInvocation(reserved.value, env.results(n), reg, env.clock(n + 1));
    if error.Some? {
      row.Load(saved);
      return true, Refused(error.value);
    }
    return true, if proceed then Again else Finished;
  }

  /**
   `execute_read_only_run`: exactly the execution defined above, which is a run of committed steps whose
   calls fit into what the budget has left when it starts.
   */
  method ExecuteReadOnlyRun(row: RunRow, expected: nat, reg: Registry, allowed: Option<set<ToolId>>, env: Surroundings)
    returns (claimed: bool, calls: nat, error: Option<RunError>, ghost steps: seq<Step>)
    requires Inv(row.View(), reg)
    modifies row
    ensures Executed(old(row.View()), expected, reg, allowed, env) == Execution(row.View(), claimed, calls, error)
    ensures row.View() == Runs(old(row.View()), reg, steps)
    ensures calls <= |row.invocations| - |old(row.invocations)| && |row.invocations| <= row.captured.toolCallBudget
  {
    hide Inv, Runs, ClaimExecution, Complete, Loop, TurnOf, Kept;
    ghost var start := row.View();
    steps := ExecutedIsARun(start, expected, reg, allowed, env);
    calls := 0;
    claimed, error := row.ClaimForExecution(expected, reg, allowed, env.clock(0));
    if error.Some? || !claimed { return; }
    ClaimKeepsInv(start, expected, allowed, reg, env.clock(0));
    ghost var claim := row.View();
    ghost var end := Loop(claim, reg, allowed, 1, env);
    var n := 1;
    var turn := Again;
    assert MoreCalls(end, 0) == end;
    while turn.Again?
      invariant Inv(row.View(), reg)
      invariant turn.Again? ==> MoreCalls(Loop(row.View(), reg, allowed, n, env), calls) == end
      invariant turn.Finished? ==> end == LoopEnd(row.View(), calls, None, n)
      invariant turn.Refused? ==> end == LoopEnd(row.View(), calls, Some(turn.error), n)
      decreases turn.Again?, row.captured.toolCallBudget - |row.invocations|
    {
      LoopAgain(row.View(), reg, allowed, n, env);
      TurnGrows(row.View(), reg, allowed, n, env);
      var called;
      called, turn := CallRound(row, reg, allowed, n, env);
      calls := calls + if called then 1 else 0;
      if turn.Again? { n := n + 2; }
    }
    if turn.Refused? { return true, calls, Some(turn.error), steps; }
    RunGrows(row.View(), reg, env.persisted);
    Interleave(row, reg, env.persisted);
    CompleteNeverRaises(row.View(), env.required, env.clock(n + 2));
    error := row.CompleteRun(env.required, env.clock(n + 2));
  }

  ghost function MoreCalls(end: LoopEnd, calls: nat): LoopEnd {
    end.(calls := end.calls + calls)
  }
}
