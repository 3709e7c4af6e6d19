/** What every interleaving of planning, execution, recovery, cancellation and synthesis keeps. */
module RunInvariant {
  import opened Wrappers
  import opened AgentRunStates
  import opened ToolPolicy
  import opened RunModel

  // ----- the steps and invocations -----

  predicate FailedAttempt(v: Invocation) {
    v.status.Errored? || v.status.TimedOut? || v.status.Discarded?
  }

  predicate Untouched(s: AgentStep) {
    s.status.Pending? || s.status.StepCancelled?
  }

  /** Each invocation belongs to a step and calls that step's tool for reading. */
  predicate Owned(steps: seq<AgentStep>, invocations: seq<Invocation>) {
    forall i :: 0 <= i < |invocations| ==>
      && invocations[i].step < |steps|
      && invocations[i].tool == steps[invocations[i].step].tool
      && invocations[i].authority == "read"
      && invocations[i].attempt <= 1
  }

  /**
   Invocations are stored in step order, only the last one may be active, and a second one for the
   same step is attempt 1 after a failed attempt 0.
   */
  predicate Ordered(invocations: seq<Invocation>) {
    && (forall i, j :: 0 <= i < j < |invocations| ==>
          && invocations[i].step <= invocations[j].step
          && !ActiveInvocation(invocations[i])
          && (invocations[i].step == invocations[j].step ==>
                invocations[i].attempt == 0 && invocations[j].attempt == 1 && FailedAttempt(invocations[i])))
    && (forall j :: 0 <= j < |invocations| && invocations[j].attempt == 1 ==>
          j > 0 && invocations[j - 1].step == invocations[j].step)
  }

  predicate HasInvocation(invocations: seq<Invocation>, k: nat) {
    exists i :: 0 <= i < |invocations| && invocations[i].step == k
  }

  predicate HasDone(invocations: seq<Invocation>, k: nat) {
    exists i :: 0 <= i < |invocations| && invocations[i].step == k && invocations[i].status.Done?
  }

  /** After the first step that has not succeeded every step is untouched. */
  predicate Sequential(steps: seq<AgentStep>) {
    forall j, k :: 0 <= j < k < |steps| ==> steps[j].status.Succeeded? || Untouched(steps[k])
  }

  /** Calls exist only for steps that were started, and such a step follows successes only. */
  predicate Reached(steps: seq<AgentStep>, invocations: seq<Invocation>) {
    forall i :: 0 <= i < |invocations| && invocations[i].step < |steps| ==>
      && !steps[invocations[i].step].status.Pending?
      && forall j :: 0 <= j < invocations[i].step ==> steps[j].status.Succeeded?
  }

  predicate Started(steps: seq<AgentStep>, invocations: seq<Invocation>) {
    forall k :: 0 <= k < |steps| && steps[k].status.InProgress? ==> HasInvocation(invocations, k)
  }

  predicate DoneMeansSucceeded(steps: seq<AgentStep>, invocations: seq<Invocation>) {
    forall k :: 0 <= k < |steps| ==> (steps[k].status.Succeeded? <==> HasDone(invocations, k))
  }

  function Calls(invocations: seq<Invocation>, tool: ToolId): set<nat> {
    set i: nat | i < |invocations| && invocations[i].tool == tool
  }

  predicate Budgets(invocations: seq<Invocation>, toolCallBudget: int, retryBudget: int, reg: Registry) {
    && retryBudget >= 0 && toolCallBudget >= 0
    && |invocations| <= toolCallBudget
    && |Retries(invocations)| <= retryBudget
    && forall tool :: tool in reg ==> |Calls(invocations, tool)| <= reg[tool].callsPerRun
  }

  predicate WithinBudgets(run: AgentRun, reg: Registry) {
    Budgets(run.invocations, run.captured.toolCallBudget, run.retryBudget, reg)
  }

  /** What the state says about the steps, and the revision each live state has. */
  predicate StateOk(run: AgentRun) {
    match run.state
    case Created => run.revision == 0 && run.steps == []
    case Planning => run.revision == 1 && run.steps == []
    case Ready => run.revision == 2 && forall k :: 0 <= k < |run.steps| ==> run.steps[k].status.Pending?
    case Running => run.revision == 3 && 0 < |run.steps| <= run.stepBudget && RunningSteps(run.steps)
    case AwaitingApproval => false
    case Completed => run.revision == 4 && run.steps != [] && AllSucceeded(run.steps)
    case Cancelled => 1 <= run.revision <= 4 && NothingOpen(run)
    case Failed => 2 <= run.revision <= 4
    case Expired => 1 <= run.revision <= 4
  }

  predicate RunningSteps(steps: seq<AgentStep>) {
    forall k :: 0 <= k < |steps| ==> steps[k].status.Succeeded? || OpenStep(steps[k])
  }

  /** A step in progress whose retry exists is waiting for that retry. */
  predicate RetryInFlight(steps: seq<AgentStep>, invocations: seq<Invocation>) {
    forall i | 0 <= i < |invocations| && invocations[i].attempt == 1 && invocations[i].step < |steps| ::
      steps[invocations[i].step].status.InProgress? ==> ActiveInvocation(invocations[i])
  }

  predicate AllSucceeded(steps: seq<AgentStep>) {
    forall k :: 0 <= k < |steps| ==> steps[k].status.Succeeded?
  }

  predicate NothingOpen(run: AgentRun) {
    && (forall k :: 0 <= k < |run.steps| ==> !OpenStep(run.steps[k]))
    && (forall i :: 0 <= i < |run.invocations| ==> !ActiveInvocation(run.invocations[i]))
  }

  predicate Work(steps: seq<AgentStep>, invocations: seq<Invocation>) {
    && Owned(steps, invocations) && Ordered(invocations) && Sequential(steps)
    && Reached(steps, invocations) && Started(steps, invocations) && DoneMeansSucceeded(steps, invocations)
  }

  predicate Sound(run: AgentRun, reg: Registry) {
    Work(run.steps, run.invocations) && WithinBudgets(run, reg) && StateOk(run)
  }

  predicate Inv(run: AgentRun, reg: Registry) {
    && Sound(run, reg)
    && (run.state.Running? && run.retryBudget <= 1 ==> RetryInFlight(run.steps, run.invocations))
  }

  // ----- changes of the rows -----

  /** The same invocations apart from statuses, error codes and times. */
  predicate SameCalls(before: seq<Invocation>, after: seq<Invocation>) {
    && |after| == |before|
    && forall i :: 0 <= i < |before| ==>
         after[i] == before[i].(status := after[i].status, error := after[i].error)
  }

  lemma SameCallsSameCounts(before: seq<Invocation>, after: seq<Invocation>)
    requires SameCalls(before, after)
    ensures Retries(after) == Retries(before)
    ensures forall tool :: Calls(after, tool) == Calls(before, tool)
  {
    forall tool ensures Calls(after, tool) == Calls(before, tool) {
      forall i: nat ensures i in Calls(after, tool) <==> i in Calls(before, tool) {
      }
    }
    forall i: nat ensures i in Retries(after) <==> i in Retries(before) {
    }
  }

  lemma SameCallsSameSteps(before: seq<Invocation>, after: seq<Invocation>, k: nat)
    requires SameCalls(before, after)
    ensures HasInvocation(before, k) <==> HasInvocation(after, k)
  {
    if HasInvocation(before, k) {
      var i :| 0 <= i < |before| && before[i].step == k;
      assert after[i].step == k;
    }
    if HasInvocation(after, k) {
      var i :| 0 <= i < |after| && after[i].step == k;
      assert before[i].step == k;
    }
  }

  lemma SameDone(before: seq<Invocation>, after: seq<Invocation>, k: nat)
    requires SameCalls(before, after)
    requires forall i :: 0 <= i < |before| && before[i].step == k ==> (before[i].status.Done? <==> after[i].status.Done?)
    ensures HasDone(before, k) <==> HasDone(after, k)
  {
    if HasDone(before, k) {
      var i :| 0 <= i < |before| && before[i].step == k && before[i].status.Done?;
      assert after[i].step == k && after[i].status.Done?;
    }
    if HasDone(after, k) {
      var i :| 0 <= i < |after| && after[i].step == k && after[i].status.Done?;
      assert before[i].step == k && before[i].status.Done?;
    }
  }

  /** Statuses may change only where the call was still active. */
  predicate OnlyActiveChange(before: seq<Invocation>, after: seq<Invocation>) {
    SameCalls(before, after)
    && forall i :: 0 <= i < |before| ==>
         after[i] == before[i] || (ActiveInvocation(before[i]) && !ActiveInvocation(after[i]))
  }

  lemma SameCallsKeep(steps: seq<AgentStep>, before: seq<Invocation>, after: seq<Invocation>)
    requires OnlyActiveChange(before, after)
    requires Owned(steps, before) && Ordered(before) && Reached(steps, before) && Started(steps, before)
    ensures Owned(steps, after) && Ordered(after) && Reached(steps, after) && Started(steps, after)
  {
    hide HasInvocation;
    forall k | 0 <= k < |steps| && steps[k].status.InProgress? ensures HasInvocation(after, k) {
      SameCallsSameSteps(before, after, k);
    }
    assert Owned(steps, after);
    assert Ordered(after);
  }

  lemma EarlierIsFinished(invocations: seq<Invocation>, i: nat, j: nat)
    requires Ordered(invocations) && i < j < |invocations|
    ensures !ActiveInvocation(invocations[i]) && invocations[i].step <= invocations[j].step
  {
    assert invocations[j].step >= invocations[i].step;
  }

  /** The step of the call in flight is in progress or failed, after successes only. */
  lemma ActiveStep(steps: seq<AgentStep>, invocations: seq<Invocation>, i: nat)
    requires Work(steps, invocations)
    requires i < |invocations| && ActiveInvocation(invocations[i])
    ensures i == |invocations| - 1
    ensures invocations[i].step < |steps|
    ensures !steps[invocations[i].step].status.Succeeded? && !steps[invocations[i].step].status.Pending?
    ensures forall j :: 0 <= j < invocations[i].step ==> steps[j].status.Succeeded?
    ensures forall j :: invocations[i].step < j < |steps| ==> Untouched(steps[j])
  {
    if i < |invocations| - 1 {
      EarlierIsFinished(invocations, i, |invocations| - 1);
    }
    assert !HasDone(invocations, invocations[i].step);
  }

  lemma StepStopsSequential(steps: seq<AgentStep>, k: nat, status: StepStatus)
    requires Sequential(steps) && k < |steps|
    requires forall j :: 0 <= j < k ==> steps[j].status.Succeeded?
    requires !steps[k].status.Succeeded? || status.Succeeded?
    ensures Sequential(steps[k := steps[k].(status := status)])
  {
  }

  /** Marking a step that has not succeeded, with every step before it done. */
  lemma StepStops(steps: seq<AgentStep>, invocations: seq<Invocation>, k: nat, status: StepStatus)
    requires Work(steps, invocations)
    requires k < |steps| && !steps[k].status.Succeeded?
    requires forall j :: 0 <= j < k ==> steps[j].status.Succeeded?
    requires status.StepFailed? || status.StepCancelled? || (status.InProgress? && steps[k].status.InProgress?)
    ensures Work(steps[k := steps[k].(status := status)], invocations)
  {
    hide HasInvocation, HasDone;
    StepStopsSequential(steps, k, status);
    var after := steps[k := steps[k].(status := status)];
    assert Owned(after, invocations);
  }

  /** A call that ends without success leaves its step for the caller to decide. */
  lemma CallFails(steps: seq<AgentStep>, invocations: seq<Invocation>, i: nat, v: Invocation)
    requires Work(steps, invocations)
    requires i < |invocations| && ActiveInvocation(invocations[i])
    requires FailedAttempt(v) && v == invocations[i].(status := v.status, error := v.error)
    ensures Work(steps, invocations[i := v])
    ensures SameCalls(invocations, invocations[i := v])
  {
    hide HasInvocation, HasDone, Ordered, Owned, Reached, Started;
    var after := invocations[i := v];
    SameCallsKeep(steps, invocations, after);
    forall k | 0 <= k < |steps| ensures HasDone(invocations, k) <==> HasDone(after, k) {
      SameDone(invocations, after, k);
    }
  }

  lemma CallSucceeds(steps: seq<AgentStep>, invocations: seq<Invocation>, i: nat, v: Invocation)
    requires Work(steps, invocations)
    requires i < |invocations| && ActiveInvocation(invocations[i])
    requires v.status.Done? && v == invocations[i].(status := Done, error := v.error)
    ensures v.step < |steps|
    ensures Work(steps[v.step := steps[v.step].(status := Succeeded)], invocations[i := v])
    ensures SameCalls(invocations, invocations[i := v])
  {
    ActiveStep(steps, invocations, i);
    hide HasInvocation, HasDone, Ordered;
    var s := steps[v.step := steps[v.step].(status := Succeeded)];
    var after := invocations[i := v];
    SameCallsKeep(steps, invocations, after);
    StepStopsSequential(steps, v.step, Succeeded);
    assert Owned(s, after);
    assert Reached(s, after);
    assert HasDone(after, v.step) by { DoneAt(after, i); }
    forall k | 0 <= k < |steps| && k != v.step ensures HasDone(invocations, k) <==> HasDone(after, k) {
      SameDone(invocations, after, k);
    }
  }

  lemma DoneAt(invocations: seq<Invocation>, i: nat)
    requires i < |invocations| && invocations[i].status.Done?
    ensures HasDone(invocations, invocations[i].step)
  {
  }

  lemma CancelKeepsSteps(steps: seq<AgentStep>, invocations: seq<Invocation>)
    requires Work(steps, invocations)
    ensures Work(CancelOpen(steps), invocations)
    ensures forall k :: 0 <= k < |steps| ==> !OpenStep(CancelOpen(steps)[k])
  {
    hide HasInvocation, HasDone, Ordered;
    var s := CancelOpen(steps);
    assert forall k :: 0 <= k < |steps| ==> (s[k].status.Succeeded? <==> steps[k].status.Succeeded?);
  }

  /** Discarding every active call and cancelling every open step. */
  lemma EverythingStops(steps: seq<AgentStep>, invocations: seq<Invocation>, code: ErrorCode)
    requires Work(steps, invocations)
    ensures Work(CancelOpen(steps), DiscardActive(invocations, code))
    ensures SameCalls(invocations, DiscardActive(invocations, code))
    ensures forall k :: 0 <= k < |steps| ==> !OpenStep(CancelOpen(steps)[k])
    ensures forall i :: 0 <= i < |invocations| ==> !ActiveInvocation(DiscardActive(invocations, code)[i])
  {
    hide HasInvocation, HasDone, Ordered, Owned, Reached, Started;
    CancelKeepsSteps(steps, invocations);
    var s, v := CancelOpen(steps), DiscardActive(invocations, code);
    SameCallsKeep(s, invocations, v);
    forall k | 0 <= k < |s| ensures s[k].status.Succeeded? <==> HasDone(v, k) {
      SameDone(invocations, v, k);
    }
  }

  /** The call that may start next: the first of its step, or the retry of a failed first call. */
  predicate MayStart(steps: seq<AgentStep>, invocations: seq<Invocation>, v: Invocation) {
    && v.step < |steps| && v.tool == steps[v.step].tool && v.authority == "read"
    && (forall j :: 0 <= j < v.step ==> steps[j].status.Succeeded?)
    && ((steps[v.step].status.Pending? && v.attempt == 0)
        || (steps[v.step].status.InProgress? && v.attempt == 1
            && exists i :: 0 <= i < |invocations| && invocations[i].step == v.step
                 && invocations[i].attempt == 0 && FailedAttempt(invocations[i])
                 && forall j :: 0 <= j < |invocations| && invocations[j].step == v.step ==> j == i))
  }

  lemma NoLaterStep(steps: seq<AgentStep>, invocations: seq<Invocation>, v: Invocation, i: nat)
    requires Work(steps, invocations) && MayStart(steps, invocations, v)
    requires i < |invocations|
    ensures invocations[i].step <= v.step
  {
    assert !steps[v.step].status.Succeeded?;
  }

  lemma NothingRunsBeforeStart(steps: seq<AgentStep>, invocations: seq<Invocation>, v: Invocation, i: nat)
    requires Work(steps, invocations) && MayStart(steps, invocations, v)
    requires i < |invocations|
    ensures invocations[i].step <= v.step && !ActiveInvocation(invocations[i])
    ensures invocations[i].step == v.step ==>
              v.attempt == 1 && i == |invocations| - 1 && invocations[i].attempt == 0 && FailedAttempt(invocations[i])
  {
    assert !steps[v.step].status.Succeeded?;
    if ActiveInvocation(invocations[i]) {
      ActiveStep(steps, invocations, i);
    }
    NoLaterStep(steps, invocations, v, |invocations| - 1);
    if i < |invocations| - 1 {
      EarlierIsFinished(invocations, i, |invocations| - 1);
    }
  }

  lemma CallStartsInOrder(steps: seq<AgentStep>, invocations: seq<Invocation>, v: Invocation)
    requires Work(steps, invocations) && MayStart(steps, invocations, v)
    ensures Ordered(invocations + [v])
  {
    hide HasInvocation, Sequential, Started, Owned, Reached, DoneMeansSucceeded, HasDone;
    forall i: nat | i < |invocations|
      ensures invocations[i].step <= v.step && !ActiveInvocation(invocations[i])
      ensures invocations[i].step == v.step ==>
                v.attempt == 1 && i == |invocations| - 1 && invocations[i].attempt == 0 && FailedAttempt(invocations[i])
    {
      NothingRunsBeforeStart(steps, invocations, v, i);
    }
    if v.attempt == 1 {
      var i :| 0 <= i < |invocations| && invocations[i].step == v.step;
      assert i == |invocations| - 1;
    }
  }

  lemma StartedRetryInFlight(steps: seq<AgentStep>, invocations: seq<Invocation>, v: Invocation)
    requires Work(steps, invocations) && MayStart(steps, invocations, v) && v.status.InFlight?
    requires RunningSteps(steps)
    ensures RetryInFlight(steps[v.step := steps[v.step].(status := InProgress)], invocations + [v])
  {
    forall i: nat | i < |invocations| && invocations[i].attempt == 1
      ensures invocations[i].step < |steps| && invocations[i].step != v.step && !steps[invocations[i].step].status.InProgress?
    {
      NothingRunsBeforeStart(steps, invocations, v, i);
    }
  }

  lemma CallStartsDone(invocations: seq<Invocation>, v: Invocation, k: nat)
    requires !v.status.Done?
    ensures HasDone(invocations + [v], k) <==> HasDone(invocations, k)
    ensures HasInvocation(invocations + [v], k) <==> HasInvocation(invocations, k) || v.step == k
  {
    var after := invocations + [v];
    assert after[|invocations|] == v;
    if HasDone(invocations, k) {
      var i :| 0 <= i < |invocations| && invocations[i].step == k && invocations[i].status.Done?;
      assert after[i] == invocations[i];
    }
    if HasInvocation(invocations, k) {
      var i :| 0 <= i < |invocations| && invocations[i].step == k;
      assert after[i] == invocations[i];
    }
  }

  /** A new call of the first step that has not succeeded. */
  lemma CallStarts(steps: seq<AgentStep>, invocations: seq<Invocation>, v: Invocation)
    requires Work(steps, invocations) && MayStart(steps, invocations, v)
    requires v.status.InFlight?
    ensures Work(steps[v.step := steps[v.step].(status := InProgress)], invocations + [v])
  {
    hide HasInvocation, HasDone, Ordered;
    CallStartsInOrder(steps, invocations, v);
    var s := steps[v.step := steps[v.step].(status := InProgress)];
    var after := invocations + [v];
    StepStopsSequential(steps, v.step, InProgress);
    assert Owned(s, after);
    assert Reached(s, after);
    forall k | 0 <= k < |s|
      ensures HasDone(after, k) <==> HasDone(invocations, k)
      ensures HasInvocation(after, k) <==> HasInvocation(invocations, k) || v.step == k
    {
      CallStartsDone(invocations, v, k);
    }
  }

  // ----- the budgets -----

  lemma BudgetsAfterSameCalls(run: AgentRun, after: AgentRun, reg: Registry)
    requires WithinBudgets(run, reg)
    requires SameCalls(run.invocations, after.invocations)
    requires after.retryBudget == run.retryBudget && after.captured == run.captured
    ensures WithinBudgets(after, reg)
  {
    SameCallsSameCounts(run.invocations, after.invocations);
  }

  lemma CallsAfterStart(invocations: seq<Invocation>, v: Invocation, tool: ToolId)
    ensures Calls(invocations + [v], tool)
            == Calls(invocations, tool) + if v.tool == tool then {|invocations|} else {}
    ensures Retries(invocations + [v]) == Retries(invocations) + if v.attempt > 0 then {|invocations|} else {}
  {
    var after := invocations + [v];
    forall i: nat
      ensures i in Calls(after, tool) <==> i in Calls(invocations, tool) || (i == |invocations| && v.tool == tool)
      ensures i in Retries(after) <==> i in Retries(invocations) || (i == |invocations| && v.attempt > 0)
    {
      if i < |invocations| { assert after[i] == invocations[i]; }
    }
  }

  lemma CallsWithinName(invocations: seq<Invocation>, tool: ToolId)
    ensures |Calls(invocations, tool)| <= |CallsOfName(invocations, tool.name)|
  {
    SubsetSize(Calls(invocations, tool), CallsOfName(invocations, tool.name));
  }

  lemma {:induction false} SubsetSize(a: set<nat>, b: set<nat>)
    requires a <= b
    ensures |a| <= |b|
  {
    if a != {} {
      var x :| x in a;
      SubsetSize(a - {x}, b - {x});
    }
  }

  lemma BudgetsAfterStart(run: AgentRun, after: AgentRun, v: Invocation, k: nat, reg: Registry, provider: bool)
    requires WithinBudgets(run, reg)
    requires k < |run.steps| && v.tool == run.steps[k].tool
    requires StepRejection(run, k, reg, provider).None?
    requires v.attempt > 0 ==> |Retries(run.invocations)| < run.retryBudget
    requires after.invocations == run.invocations + [v]
    requires after.retryBudget == run.retryBudget && after.captured == run.captured
    ensures WithinBudgets(after, reg)
  {
    CallsAfterStart(run.invocations, v, v.tool);
    CallsWithinName(run.invocations, v.tool);
    forall tool | tool in reg ensures |Calls(after.invocations, tool)| <= reg[tool].callsPerRun {
      CallsAfterStart(run.invocations, v, tool);
    }
  }

  // ----- one lemma per operation -----

  /** Failing the first step that has not succeeded. */
  lemma FailStepKeepsInv(run: AgentRun, k: nat, reg: Registry, now: int)
    requires Sound(run, reg) && run.state.Running?
    requires k < |run.steps| && !run.steps[k].status.Succeeded?
    requires forall j :: 0 <= j < k ==> run.steps[j].status.Succeeded?
    ensures FailActiveStep(run, k, now).Ok? && Inv(FailActiveStep(run, k, now).value, reg)
    ensures FailWithoutInvocation(run, k, now).Ok? && Inv(FailWithoutInvocation(run, k, now).value, reg)
  {
    hide Work;
    StepStops(run.steps, run.invocations, k, StepFailed);
  }

  lemma ExpireKeepsInv(run: AgentRun, reg: Registry, now: int)
    requires Sound(run, reg) && run.state.Running? && now >= run.runDeadline
    ensures ExpireExecution(run, now).Ok? && Inv(ExpireExecution(run, now).value, reg)
    ensures NothingOpen(ExpireExecution(run, now).value)
  {
    hide Work;
    EverythingStops(run.steps, run.invocations, DeadlineExpired);
    BudgetsAfterSameCalls(run, ExpireExecution(run, now).value, reg);
  }

  lemma StartKeepsInv(run: AgentRun, k: nat, attempt: nat, reg: Registry, provider: bool, now: int)
    requires Inv(run, reg) && run.state.Running? && k < |run.steps|
    requires MayStart(run.steps, run.invocations, Invocation(k, attempt, run.steps[k].tool, "read", InFlight, None, now))
    requires attempt > 0 ==> |Retries(run.invocations)| < run.retryBudget
    ensures ReserveAttempt(run, k, attempt, reg, provider, now).Ok?
    ensures Inv(ReserveAttempt(run, k, attempt, reg, provider, now).value.run, reg)
  {
    hide Work, Budgets;
    if StepRejection(run, k, reg, provider).Some? {
      FailStepKeepsInv(run, k, reg, now);
    } else {
      var v := Invocation(k, attempt, run.steps[k].tool, "read", InFlight, None, now);
      CallStarts(run.steps, run.invocations, v);
      StartedRetryInFlight(run.steps, run.invocations, v);
      BudgetsAfterStart(run, ReserveAttempt(run, k, attempt, reg, provider, now).value.run, v, k, reg, provider);
    }
  }

  lemma RetryMayStart(run: AgentRun, k: nat, reg: Registry, now: int)
    requires Inv(run, reg) && k < |run.steps| && run.steps[k].status.InProgress?
    requires forall j :: 0 <= j < k ==> run.steps[j].status.Succeeded?
    requires ExactlyAttemptZeroFinished(run, k)
    ensures MayStart(run.steps, run.invocations, Invocation(k, 1, run.steps[k].tool, "read", InFlight, None, now))
  {
    var i :| 0 <= i < |run.invocations| && run.invocations[i].step == k && run.invocations[i].attempt == 0
             && FailedAttempt(run.invocations[i]);
    forall j | 0 <= j < |run.invocations| && run.invocations[j].step == k ensures j == i {
      assert {i, j} <= Attempts(run.invocations, k);
      SubsetSize({i, j}, Attempts(run.invocations, k));
    }
  }

  lemma ReserveKeepsInv(run: AgentRun, reg: Registry, allowed: Option<set<ToolId>>, provider: bool, now: int)
    requires Inv(run, reg)
    requires Reserve(run, reg, allowed, provider, now).Ok?
    ensures Inv(Reserve(run, reg, allowed, provider, now).value.run, reg)
  {
    hide Work, Budgets, FailWithoutInvocation, FailActiveStep, ReserveAttempt, ExpireExecution, ExactlyAttemptZeroFinished, ClassifyRetry;
    if run.state.Running? {
      if now >= run.runDeadline { ExpireKeepsInv(run, reg, now); }
      var k := Candidate(run.steps, 0);
      if k < |run.steps| {
        assert forall j :: 0 <= j < k ==> run.steps[j].status.Succeeded?;
        FailStepKeepsInv(run, k, reg, now);
        if run.steps[k].status.Pending? {
          StartKeepsInv(run, k, 0, reg, provider, now);
        } else if ExactlyAttemptZeroFinished(run, k) {
          RetryMayStart(run, k, reg, now);
          if |Retries(run.invocations)| < run.retryBudget { StartKeepsInv(run, k, 1, reg, provider, now); }
        }
      }
    }
  }

  /** Discarding, failing or timing out the call in flight, with the step left to the caller. */
  lemma MarkKeepsSound(run: AgentRun, i: nat, status: InvocationStatus, error: Option<ErrorCode>, reg: Registry)
    requires Sound(run, reg)
    requires i < |run.invocations| && ActiveInvocation(run.invocations[i])
    requires status.Errored? || status.TimedOut? || status.Discarded?
    ensures Sound(SetInvocation(run, i, status, error), reg)
    ensures Inv(run, reg) && run.invocations[i].attempt == 0 ==> Inv(SetInvocation(run, i, status, error), reg)
    ensures !run.state.Running? ==> Inv(SetInvocation(run, i, status, error), reg)
  {
    var marked := SetInvocation(run, i, status, error);
    hide Work, Budgets, RetryInFlight;
    CallFails(run.steps, run.invocations, i, marked.invocations[i]);
    BudgetsAfterSameCalls(run, marked, reg);
    if run.invocations[i].attempt == 0 && RetryInFlight(run.steps, run.invocations) {
      MarkKeepsRetry(run.steps, run.invocations, i, marked.invocations[i]);
    }
  }

  lemma MarkKeepsRetry(steps: seq<AgentStep>, invocations: seq<Invocation>, i: nat, v: Invocation)
    requires Work(steps, invocations) && RetryInFlight(steps, invocations)
    requires i < |invocations| && ActiveInvocation(invocations[i]) && invocations[i].attempt == 0 == v.attempt
    ensures RetryInFlight(steps, invocations[i := v])
  {
    FirstCallIsNoRetry(steps, invocations, i);
  }

  lemma FirstCallIsNoRetry(steps: seq<AgentStep>, invocations: seq<Invocation>, i: nat)
    requires Work(steps, invocations)
    requires i < |invocations| && ActiveInvocation(invocations[i]) && invocations[i].attempt == 0
    ensures forall j :: 0 <= j < |invocations| && invocations[j].step == invocations[i].step ==> j == i
  {
    ActiveStep(steps, invocations, i);
  }

  lemma MarkThenFail(run: AgentRun, i: nat, status: InvocationStatus, error: Option<ErrorCode>, reg: Registry, now: int)
    requires Sound(run, reg) && run.state.Running?
    requires i < |run.invocations| && ActiveInvocation(run.invocations[i])
    requires status.Errored? || status.TimedOut? || status.Discarded?
    ensures run.invocations[i].step < |run.steps|
    ensures
      var marked := SetInvocation(run, i, status, error);
      && FailActiveStep(marked, run.invocations[i].step, now).Ok?
      && Inv(FailActiveStep(marked, run.invocations[i].step, now).value, reg)
      && FailWithoutInvocation(marked, run.invocations[i].step, now).Ok?
      && Inv(FailWithoutInvocation(marked, run.invocations[i].step, now).value, reg)
      && FailActiveStep(Append(marked, Other), run.invocations[i].step, now).Ok?
      && Inv(FailActiveStep(Append(marked, Other), run.invocations[i].step, now).value, reg)
  {
    MarkKeepsSound(run, i, status, error, reg);
    ActiveStep(run.steps, run.invocations, i);
    var marked := SetInvocation(run, i, status, error);
    LogKeepsSound(marked, reg);
    hide Sound, FailWithoutInvocation, FailActiveStep, Inv, MaxSequence;
    FailStepKeepsInv(marked, run.invocations[i].step, reg, now);
    FailStepKeepsInv(Append(marked, Other), run.invocations[i].step, reg, now);
  }

  lemma LogKeepsSound(run: AgentRun, reg: Registry)
    requires Sound(run, reg)
    ensures Sound(Append(run, Other), reg)
  {
    hide Work, Budgets, MaxSequence;
  }

  lemma FinalizeKeepsInv(run: AgentRun, i: nat, result: ToolResult, reg: Registry, now: int)
    requires Inv(run, reg)
    requires Finalize(run, i, result, reg, now).Ok?
    ensures Inv(Finalize(run, i, result, reg, now).value.run, reg)
  {
    hide Work, Budgets, ClassifyRetry, EffectiveCode;
    if i < |run.invocations| && run.invocations[i].step < |run.steps| && run.invocations[i].status.InFlight? {
      var v := run.invocations[i];
      if !run.state.Running? {
        MarkKeepsSound(run, i, Discarded, Some(if run.state.Cancelled? then CancellationDiscard else ToolResultDiscarded), reg);
      } else if now >= run.runDeadline {
        MarkKeepsSound(run, i, Discarded, Some(DeadlineExpired), reg);
        ExpireKeepsInv(SetInvocation(run, i, Discarded, Some(DeadlineExpired)), reg, now);
      } else {
        if EffectiveCode(result).Some? {
          ErrorKeepsInv(run, i, EffectiveCode(result).value, reg, now);
        } else if result.hasOutput {
          SuccessKeepsInv(run, i, reg);
        }
        hide Inv, Retryable;
      }
    }
  }

  /** The two ways an error ends a call: the step waits for its retry, or the Run fails. */
  lemma ErrorKeepsInv(run: AgentRun, i: nat, code: ErrorCode, reg: Registry, now: int)
    requires Inv(run, reg) && run.state.Running?
    requires i < |run.invocations| && ActiveInvocation(run.invocations[i])
    ensures run.invocations[i].step < |run.steps|
    ensures
      var k := run.invocations[i].step;
      var marked := SetInvocation(run, i, if code.ToolTimeout? then TimedOut else Errored, Some(code));
      && (run.invocations[i].attempt == 0 ==> Inv(Append(SetStep(marked, k, InProgress), Other), reg))
      && FailWithoutInvocation(marked, k, now).Ok? && Inv(FailWithoutInvocation(marked, k, now).value, reg)
  {
    hide Inv, FailWithoutInvocation;
    var status := if code.ToolTimeout? then TimedOut else Errored;
    assert Sound(run, reg) by { SoundOf(run, reg); }
    MarkThenFail(run, i, status, Some(code), reg, now);
    if run.invocations[i].attempt == 0 { RetryLeavesStep(run, i, status, code, reg); }
  }

  lemma SoundOf(run: AgentRun, reg: Registry)
    requires Inv(run, reg)
    ensures Sound(run, reg)
  {
  }

  lemma SuccessKeepsInv(run: AgentRun, i: nat, reg: Registry)
    requires Inv(run, reg) && run.state.Running?
    requires i < |run.invocations| && ActiveInvocation(run.invocations[i])
    ensures run.invocations[i].step < |run.steps|
    ensures Inv(Append(SetStep(SetInvocation(run, i, Done, run.invocations[i].error), run.invocations[i].step, Succeeded), Other), reg)
  {
    var v := run.invocations[i].(status := Done);
    var steps, invocations := run.steps[v.step := run.steps[v.step].(status := Succeeded)], run.invocations[i := v];
    SuccessKeepsRetry(run.steps, run.invocations, i, v);
    hide Work, Budgets, RetryInFlight;
    CallSucceeds(run.steps, run.invocations, i, v);
    BudgetsAfterSameCalls(run, run.(steps := steps, invocations := invocations), reg);
  }

  lemma SuccessKeepsRetry(steps: seq<AgentStep>, invocations: seq<Invocation>, i: nat, v: Invocation)
    requires i < |invocations| && v.step == invocations[i].step && v.step < |steps|
    requires RetryInFlight(steps, invocations)
    ensures RetryInFlight(steps[v.step := steps[v.step].(status := Succeeded)], invocations[i := v])
  {
  }

  lemma RetryLeavesStep(run: AgentRun, i: nat, status: InvocationStatus, code: ErrorCode, reg: Registry)
    requires Inv(run, reg) && run.state.Running?
    requires i < |run.invocations| && ActiveInvocation(run.invocations[i])
    requires status.Errored? || status.TimedOut?
    requires run.invocations[i].attempt == 0
    ensures run.invocations[i].step < |run.steps|
    ensures Inv(Append(SetStep(SetInvocation(run, i, status, Some(code)), run.invocations[i].step, InProgress), Other), reg)
  {
    var k := run.invocations[i].step;
    ActiveStep(run.steps, run.invocations, i);
    MarkKeepsSound(run, i, status, Some(code), reg);
    hide Work, Budgets;
    assert run.steps[k].status.InProgress?;
    assert run.steps[k := run.steps[k].(status := InProgress)] == run.steps;
  }

  lemma RecoverKeepsInv(run: AgentRun, reg: Registry, now: int)
    requires Inv(run, reg)
    requires Recover(run, reg, now).Ok?
    ensures Inv(Recover(run, reg, now).value, reg)
  {
    hide Work, Budgets, ExpireExecution, FailActiveStep, RecoverStale, StaleAt;
    if run.state.Running? {
      if now >= run.runDeadline {
        ExpireKeepsInv(run, reg, now);
      } else {
        var i := FirstActive(run.invocations, 0);
        if i < |run.invocations| {
          RecoverStaleKeepsInv(run, i, reg, now);
        } else if exists k :: 0 <= k < |run.steps| && run.steps[k].status.InProgress? {
          InProgressIsNext(run, FirstInProgress(run.steps), reg);
          FailStepKeepsInv(run, FirstInProgress(run.steps), reg, now);
        }
      }
    }
  }

  lemma InProgressIsNext(run: AgentRun, k: nat, reg: Registry)
    requires Inv(run, reg) && run.state.Running?
    requires k < |run.steps| && run.steps[k].status.InProgress?
    ensures forall j :: 0 <= j < k ==> run.steps[j].status.Succeeded?
  {
  }

  lemma RecoverStaleKeepsInv(run: AgentRun, i: nat, reg: Registry, now: int)
    requires Inv(run, reg) && run.state.Running?
    requires i < |run.invocations| && ActiveInvocation(run.invocations[i])
    ensures RecoverStale(run, i, reg, now).Ok? && Inv(RecoverStale(run, i, reg, now).value, reg)
  {
    hide Work, Budgets, FailActiveStep, ExactPureRead, RunningSteps;
    ActiveStep(run.steps, run.invocations, i);
    MarkThenFail(run, i, Discarded, Some(ToolTimeout), reg, now);
    MarkKeepsSound(run, i, Discarded, Some(ToolTimeout), reg);
    FailStepKeepsInv(run, run.invocations[i].step, reg, now);
  }

  lemma CancelKeepsInv(run: AgentRun, expected: nat, reg: Registry, now: int)
    requires Inv(run, reg)
    requires Cancel(run, expected, now).Ok?
    ensures Inv(Cancel(run, expected, now).value, reg)
  {
    hide Work, Budgets;
    EverythingStops(run.steps, run.invocations, CancellationDiscard);
    BudgetsAfterSameCalls(run, run.(invocations := DiscardActive(run.invocations, CancellationDiscard)), reg);
    assert LogDiscards(run, 0).(events := []) == run.(events := []);
  }

  lemma FreshSteps(run: AgentRun, plan: seq<PlannedStep>, reg: Registry)
    requires Inv(run, reg) && run.steps == []
    ensures Work(PendingSteps(plan), run.invocations)
  {
  }

  lemma StepKeepsInv(run: AgentRun, reg: Registry, s: Step)
    requires Inv(run, reg)
    ensures Inv(Apply(run, reg, s), reg)
  {
    hide Work, Budgets, Reserve, Finalize, Recover, Cancel, FinalizePlan, PlanExecutable, OriginalClaim, HasResult;
    if Attempt(run, reg, s).Ok? {
      match s
      case FinalizePlanStep(planningRevision, plan) => FinalizePlanKeepsInv(run, planningRevision, plan, reg);
      case ClaimStep(expected, allowed, now) => ClaimKeepsInv(run, expected, allowed, reg, now);
      case ReserveStep(allowed, provider, now) => ReserveKeepsInv(run, reg, allowed, provider, now);
      case FinalizeStep(i, result, now) => FinalizeKeepsInv(run, i, result, reg, now);
      case CancelStep(expected, now) => CancelKeepsInv(run, expected, reg, now);
      case RecoverStep(now) => RecoverKeepsInv(run, reg, now);
      case _ =>
    }
  }

  lemma FinalizePlanKeepsInv(run: AgentRun, planningRevision: nat, plan: seq<PlannedStep>, reg: Registry)
    requires Inv(run, reg)
    requires FinalizePlan(run, planningRevision, plan).Ok?
    ensures Inv(FinalizePlan(run, planningRevision, plan).value, reg)
  {
    FreshSteps(run, plan, reg);
    hide Work, Budgets;
  }

  lemma ClaimKeepsInv(run: AgentRun, expected: nat, allowed: Option<set<ToolId>>, reg: Registry, now: int)
    requires Inv(run, reg)
    requires ClaimExecution(run, expected, reg, allowed, now).Ok?
    ensures Inv(ClaimExecution(run, expected, reg, allowed, now).value.run, reg)
  {
    hide Work, Budgets, OriginalClaim;
  }

  /** A new Run satisfies the invariant, and so does every Run any steps can reach. */
  lemma NewRunInv(captured: Captured, supported: bool, now: int, reg: Registry)
    ensures Inv(NewRun(captured, supported, now), reg)
  {
  }

  lemma {:induction false} RunsKeepInv(run: AgentRun, reg: Registry, steps: seq<Step>)
    requires Inv(run, reg)
    ensures Inv(Runs(run, reg, steps), reg)
    decreases |steps|
  {
    if steps != [] {
      StepKeepsInv(run, reg, steps[0]);
      hide Inv;
      RunsKeepInv(Apply(run, reg, steps[0]), reg, steps[1..]);
    }
  }
}
