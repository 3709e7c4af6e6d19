/** What the invariant of a Run means, and what no later step can undo. */
module RunSafety {
  import opened Wrappers
  import opened AgentRunStates
  import opened ToolPolicy
  import opened RunModel
  import opened RunInvariant

  /** Attempts a step has made, as numbers. */
  function AttemptNumbers(invocations: seq<Invocation>, k: nat): set<nat> {
    set i: nat | i < |invocations| && invocations[i].step == k :: invocations[i].attempt
  }

  function ActiveCalls(invocations: seq<Invocation>): set<nat> {
    set i: nat | i < |invocations| && ActiveInvocation(invocations[i])
  }

  /** Succeeded steps, then at most one in progress, then pending steps. */
  predicate SucceededRunningPending(steps: seq<AgentStep>) {
    exists p: nat :: p <= |steps| && NextAt(steps, p)
  }

  predicate NextAt(steps: seq<AgentStep>, p: nat)
    requires p <= |steps|
  {
    && (forall k :: 0 <= k < p ==> steps[k].status.Succeeded?)
    && (p < |steps| ==> OpenStep(steps[p]))
    && (forall k :: p < k < |steps| ==> steps[k].status.Pending?)
  }

  /** A step has made no call, its first call, or its first call and one retry right after it. */
  lemma AttemptCases(invocations: seq<Invocation>, k: nat, j: nat)
    requires Ordered(invocations) && j < |invocations| && invocations[j].step == k
    requires invocations[j].attempt <= 1
    requires forall i :: j < i < |invocations| ==> invocations[i].step != k
    ensures invocations[j].attempt == 0 ==> Attempts(invocations, k) == {j}
    ensures invocations[j].attempt == 1 ==>
              j > 0 && Attempts(invocations, k) == {j - 1, j} && invocations[j - 1].attempt == 0
  {
    forall i | i in Attempts(invocations, k) && i != j
      ensures invocations[j].attempt == 1 && i == j - 1 && invocations[i].attempt == 0
    {
      assert i < j;
      EarlierIsFinished(invocations, i, j);
      EarlierIsFinished(invocations, j - 1, j);
      StepsAscend(invocations, i, j - 1);
    }
  }

  /** Position of the last call of a step. */
  function LastCall(invocations: seq<Invocation>, k: nat): (j: nat)
    requires HasInvocation(invocations, k)
    ensures j < |invocations| && invocations[j].step == k
    ensures forall i :: j < i < |invocations| ==> invocations[i].step != k
  {
    if invocations[|invocations| - 1].step == k then |invocations| - 1
    else
      assert HasInvocation(invocations[..|invocations| - 1], k) by {
        var i :| 0 <= i < |invocations| && invocations[i].step == k;
        assert invocations[..|invocations| - 1][i].step == k;
      }
      LastCall(invocations[..|invocations| - 1], k)
  }

  lemma AttemptsAreZeroOne(run: AgentRun, reg: Registry, k: nat)
    requires Inv(run, reg)
    ensures AttemptNumbers(run.invocations, k) in {{}, {0}, {0, 1}}
    ensures |Attempts(run.invocations, k)| == |AttemptNumbers(run.invocations, k)|
  {
    if HasInvocation(run.invocations, k) {
      var j := LastCall(run.invocations, k);
      AttemptCases(run.invocations, k, j);
      if run.invocations[j].attempt == 0 {
        NumbersOf(run.invocations, k, j, j);
        assert AttemptNumbers(run.invocations, k) == {0};
        assert |{j}| == 1 == |{0}|;
      } else {
        NumbersOf(run.invocations, k, j - 1, j);
        assert AttemptNumbers(run.invocations, k) == {0, 1};
        assert |{j - 1, j}| == 2 == |{0, 1}|;
      }
    } else {
      assert Attempts(run.invocations, k) == {};
      assert AttemptNumbers(run.invocations, k) == {};
    }
  }

  lemma NumbersOf(invocations: seq<Invocation>, k: nat, i: nat, j: nat)
    requires i < |invocations| && j < |invocations|
    requires Attempts(invocations, k) == {i, j}
    ensures AttemptNumbers(invocations, k) == {invocations[i].attempt, invocations[j].attempt}
  {
    assert i in Attempts(invocations, k) && j in Attempts(invocations, k);
    forall n ensures n in AttemptNumbers(invocations, k) <==> n in {invocations[i].attempt, invocations[j].attempt} {
      if n in AttemptNumbers(invocations, k) {
        var l: nat :| l < |invocations| && invocations[l].step == k && invocations[l].attempt == n;
        assert l in Attempts(invocations, k);
      }
    }
  }

  lemma ActiveCallIsLast(run: AgentRun, reg: Registry)
    requires Inv(run, reg)
    ensures ActiveCalls(run.invocations) <= {|run.invocations| - 1}
    ensures |ActiveCalls(run.invocations)| <= 1
  {
    var active := ActiveCalls(run.invocations);
    forall i | i in active ensures i == |run.invocations| - 1 {
      ActiveStep(run.steps, run.invocations, i);
    }
    if active != {} {
      assert active == {|run.invocations| - 1};
    }
  }

  lemma RunningShape(run: AgentRun, reg: Registry)
    requires Inv(run, reg) && run.state.Running?
    ensures SucceededRunningPending(run.steps)
  {
    hide Owned, Ordered, Reached, Started, DoneMeansSucceeded, Budgets, RetryInFlight;
    var p := Candidate(run.steps, 0);
    assert forall k :: 0 <= k < p ==> run.steps[k].status.Succeeded?;
    forall k | p < k < |run.steps| ensures run.steps[k].status.Pending? {
      assert !run.steps[p].status.Succeeded? && Untouched(run.steps[k]);
    }
    assert NextAt(run.steps, p);
  }

  /** The whole executor invariant, for every Run and every interleaving of steps. */
  lemma ReachableRuns(captured: Captured, supported: bool, created: int, reg: Registry, steps: seq<Step>, run: AgentRun)
    requires run == Runs(NewRun(captured, supported, created), reg, steps)
    ensures Inv(run, reg)
    ensures run.state.Running? ==> SucceededRunningPending(run.steps)
    ensures |ActiveCalls(run.invocations)| <= 1
    ensures forall k :: AttemptNumbers(run.invocations, k) in {{}, {0}, {0, 1}}
    ensures |run.invocations| <= 20 && |Retries(run.invocations)| <= 1 && run.stepBudget == 12
    ensures run.planningDeadline == run.runDeadline == created + 600 * 1_000_000
    ensures forall tool :: tool in reg ==> |Calls(run.invocations, tool)| <= reg[tool].callsPerRun
    ensures !run.state.AwaitingApproval?
  {
    var first := NewRun(captured, supported, created);
    NewRunInv(captured, supported, created, reg);
    RunsKeepInv(first, reg, steps);
    RunsEvolve(first, reg, steps);
    ActiveCallIsLast(run, reg);
    forall k ensures AttemptNumbers(run.invocations, k) in {{}, {0}, {0, 1}} {
      AttemptsAreZeroOne(run, reg, k);
    }
    if run.state.Running? { RunningShape(run, reg); }
  }

  // ----- one call at a time -----

  lemma InProgressCalls(run: AgentRun, reg: Registry, k: nat)
    requires Inv(run, reg) && run.state.Running? && run.retryBudget <= 1
    requires k < |run.steps| && run.steps[k].status.InProgress?
    ensures ExactlyAttemptZeroFinished(run, k) <==> ActiveCalls(run.invocations) == {}
  {
    hide Inv, Sound, Work, Ordered;
    InProgressFacts(run, reg, k);
    var j := LastCall(run.invocations, k);
    LastCallIsLast(run, reg, k, j);
    ActiveCallIsLast(run, reg);
    AttemptCases(run.invocations, k, j);
    var v := run.invocations[j];
    assert ActiveInvocation(v) <==> j in ActiveCalls(run.invocations);
    assert j !in ActiveCalls(run.invocations) ==> ActiveCalls(run.invocations) == {};
    hide ActiveCalls;
    if v.attempt == 0 {
      assert Attempts(run.invocations, k) == {j};
      forall i: nat | i < |run.invocations| && run.invocations[i].step == k ensures i == j {
        assert i in Attempts(run.invocations, k);
      }
      assert ExactlyAttemptZeroFinished(run, k) <==> !ActiveInvocation(v);
    } else {
      assert Attempts(run.invocations, k) == {j - 1, j};
      assert ActiveInvocation(v);
    }
  }

  /** A step in progress has a call, none that succeeded, and a retry of it is still active. */
  lemma InProgressFacts(run: AgentRun, reg: Registry, k: nat)
    requires Inv(run, reg) && run.state.Running? && run.retryBudget <= 1
    requires k < |run.steps| && run.steps[k].status.InProgress?
    ensures Ordered(run.invocations) && HasInvocation(run.invocations, k)
    ensures forall i :: 0 <= i < |run.invocations| && run.invocations[i].step == k ==>
              !run.invocations[i].status.Done? && run.invocations[i].attempt <= 1
              && (run.invocations[i].attempt == 1 ==> ActiveInvocation(run.invocations[i]))
  {
    assert !HasDone(run.invocations, k);
    hide Ordered, Reached, Sequential, Budgets, StateOk;
  }

  lemma LastCallIsLast(run: AgentRun, reg: Registry, k: nat, j: nat)
    requires Inv(run, reg) && run.state.Running?
    requires k < |run.steps| && run.steps[k].status.InProgress?
    requires j < |run.invocations| && run.invocations[j].step == k
    requires forall i :: j < i < |run.invocations| ==> run.invocations[i].step != k
    ensures j == |run.invocations| - 1 && run.invocations[j].attempt <= 1
  {
    var last := |run.invocations| - 1;
    NoCallBeyond(run, reg, k, last);
    StepsAscend(run.invocations, j, last);
  }

  lemma StepsAscend(invocations: seq<Invocation>, i: nat, j: nat)
    requires Ordered(invocations) && i <= j < |invocations|
    ensures invocations[i].step <= invocations[j].step
  {
  }

  lemma NoCallBeyond(run: AgentRun, reg: Registry, k: nat, i: nat)
    requires Inv(run, reg)
    requires k < |run.steps| && !run.steps[k].status.Succeeded?
    requires i < |run.invocations|
    ensures run.invocations[i].step <= k
  {
  }

  /**
   While a call is in flight every other worker that asks for the next one is refused; otherwise
   `reserve_next` never finds the plan invalid.  The early exits come first, as in the code.
   */
  lemma ReserveRefusedIffInFlight(run: AgentRun, reg: Registry, allowed: Option<set<ToolId>>, provider: bool, now: int)
    requires Inv(run, reg) && run.retryBudget <= 1
    ensures
      var k := Candidate(run.steps, 0);
      Reserve(run, reg, allowed, provider, now).Err?
      <==> && run.state.Running? && now < run.runDeadline && k < |run.steps| && run.supported
           && (allowed.Some? ==> run.steps[k].tool in allowed.value)
           && ActiveCalls(run.invocations) != {}
  {
    var k := Candidate(run.steps, 0);
    if run.state.Running? && k < |run.steps| {
      assert forall j :: 0 <= j < k ==> run.steps[j].status.Succeeded?;
      NextStepFails(run, k, reg, now);
      StartNeverRaises(run, k, 0, reg, provider, now);
      StartNeverRaises(run, k, 1, reg, provider, now);
      WaitingMeansActive(run, reg, k);
    }
    if run.state.Running? && now >= run.runDeadline { ExpireKeepsInv(run, reg, now); }
    hide Inv, FailWithoutInvocation, FailActiveStep, ReserveAttempt, ExpireExecution, ExactlyAttemptZeroFinished, ActiveCalls;
    if run.state.Running? && now < run.runDeadline && k < |run.steps| {
      ReserveRaises(run, reg, allowed, provider, now);
    }
  }

  lemma ReserveRaises(run: AgentRun, reg: Registry, allowed: Option<set<ToolId>>, provider: bool, now: int)
    requires run.state.Running? && now < run.runDeadline && Candidate(run.steps, 0) < |run.steps|
    requires forall j :: 0 <= j < Candidate(run.steps, 0) ==> run.steps[j].status.Succeeded?
    requires FailActiveStep(run, Candidate(run.steps, 0), now).Ok?
    requires FailWithoutInvocation(run, Candidate(run.steps, 0), now).Ok?
    requires ReserveAttempt(run, Candidate(run.steps, 0), 0, reg, provider, now).Ok?
    requires ReserveAttempt(run, Candidate(run.steps, 0), 1, reg, provider, now).Ok?
    ensures
      var k := Candidate(run.steps, 0);
      Reserve(run, reg, allowed, provider, now).Err?
      <==> && run.supported && (allowed.Some? ==> run.steps[k].tool in allowed.value)
           && run.steps[k].status.InProgress? && !ExactlyAttemptZeroFinished(run, k)
  {
    hide FailWithoutInvocation, FailActiveStep, ReserveAttempt, ExactlyAttemptZeroFinished, ClassifyRetry, Retries, Previous, Candidate;
  }

  lemma WaitingMeansActive(run: AgentRun, reg: Registry, k: nat)
    requires Inv(run, reg) && run.state.Running? && run.retryBudget <= 1
    requires k < |run.steps| && OpenStep(run.steps[k])
    requires forall j :: 0 <= j < k ==> run.steps[j].status.Succeeded?
    ensures ActiveCalls(run.invocations) != {} <==> run.steps[k].status.InProgress? && !ExactlyAttemptZeroFinished(run, k)
  {
    if run.steps[k].status.InProgress? {
      InProgressCalls(run, reg, k);
    } else {
      PendingMeansIdle(run, reg, k);
    }
  }

  lemma NextStepFails(run: AgentRun, k: nat, reg: Registry, now: int)
    requires Inv(run, reg) && run.state.Running?
    requires k < |run.steps| && OpenStep(run.steps[k])
    requires forall j :: 0 <= j < k ==> run.steps[j].status.Succeeded?
    ensures FailActiveStep(run, k, now).Ok? && FailWithoutInvocation(run, k, now).Ok?
  {
    FailStepKeepsInv(run, k, reg, now);
  }

  lemma StartNeverRaises(run: AgentRun, k: nat, attempt: nat, reg: Registry, provider: bool, now: int)
    requires run.state.Running? && k < |run.steps|
    ensures ReserveAttempt(run, k, attempt, reg, provider, now).Ok?
  {
    hide StepRejection;
  }

  lemma PendingMeansIdle(run: AgentRun, reg: Registry, k: nat)
    requires Inv(run, reg) && run.state.Running?
    requires k < |run.steps| && run.steps[k].status.Pending?
    requires forall j :: 0 <= j < k ==> run.steps[j].status.Succeeded?
    ensures ActiveCalls(run.invocations) == {}
  {
    forall i | i in ActiveCalls(run.invocations) ensures false {
      ActiveStep(run.steps, run.invocations, i);
    }
  }

  // ----- what ended stays ended -----

  /** A COMPLETED Run has, for every step, exactly one succeeded call, and it is its last. */
  lemma CompletedMeans(run: AgentRun, reg: Registry, k: nat)
    requires Inv(run, reg) && run.state.Completed? && k < |run.steps|
    ensures exists i: nat :: i < |run.invocations| && run.invocations[i].step == k && run.invocations[i].status.Done?
              && forall j :: 0 <= j < |run.invocations| && j != i && run.invocations[j].step == k ==>
                   j < i && !run.invocations[j].status.Done?
    ensures ActiveCalls(run.invocations) == {}
  {
    assert HasDone(run.invocations, k);
    forall i | i in ActiveCalls(run.invocations) ensures false {
      ActiveStep(run.steps, run.invocations, i);
    }
  }

  lemma CancelledMeans(run: AgentRun, reg: Registry)
    requires Inv(run, reg) && run.state.Cancelled?
    ensures forall k :: 0 <= k < |run.steps| ==> !OpenStep(run.steps[k])
    ensures ActiveCalls(run.invocations) == {}
  {
  }

  /** Calls keep their identity; a call that ended never changes again. */
  predicate CallsKept(before: seq<Invocation>, after: seq<Invocation>) {
    && |before| <= |after|
    && forall i :: 0 <= i < |before| ==>
         && after[i] == before[i].(status := after[i].status, error := after[i].error)
         && (ActiveInvocation(before[i]) || after[i] == before[i])
  }

  /** A frozen plan keeps its steps; a step that ended never changes again. */
  predicate StepsKept(before: seq<AgentStep>, after: seq<AgentStep>) {
    before != [] ==>
      && |after| == |before|
      && forall k :: 0 <= k < |before| ==>
           && after[k] == before[k].(status := after[k].status)
           && (OpenStep(before[k]) || after[k] == before[k])
  }

  predicate SameLimits(run: AgentRun, after: AgentRun) {
    && after.captured == run.captured && after.supported == run.supported
    && after.stepBudget == run.stepBudget && after.retryBudget == run.retryBudget
    && after.planningDeadline == run.planningDeadline && after.runDeadline == run.runDeadline
  }

  /** Later rows of the same Run: nothing that ended changes, and a terminal Run keeps its steps. */
  predicate Kept(run: AgentRun, after: AgentRun) {
    && SameLimits(run, after)
    && CallsKept(run.invocations, after.invocations)
    && StepsKept(run.steps, after.steps)
    && run.events <= after.events
    && run.revision <= after.revision
    && (after.revision == run.revision ==> after.state == run.state)
    && (Terminal(run.state) ==> after.state == run.state && after.revision == run.revision && after.steps == run.steps)
  }

  predicate Contiguous(events: seq<Event>) {
    forall i :: 0 <= i < |events| ==> events[i].sequence == i
  }

  /** The events from position `from` on that are not state changes. */
  predicate NoStateChange(events: seq<Event>, from: nat, to: nat)
    requires to <= |events|
  {
    forall i :: from <= i < to ==> !events[i].body.StateChanged?
  }

  /** New events record the one transition, if there was one, last, and otherwise no transition. */
  predicate Logged(run: AgentRun, after: AgentRun) {
    && run.events <= after.events
    && (Contiguous(run.events) ==> Contiguous(after.events))
    && if after.revision == run.revision then
         after.state == run.state && NoStateChange(after.events, |run.events|, |after.events|)
       else
         && after.revision == run.revision + 1
         && LegalTransition(run.state, after.state)
         && |after.events| > |run.events|
         && after.events[|after.events| - 1].body == StateChanged(run.state, after.state, after.revision)
         && NoStateChange(after.events, |run.events|, |after.events| - 1)
  }

  predicate Evolves(run: AgentRun, after: AgentRun) {
    Kept(run, after) && Logged(run, after)
  }

  predicate Quiet(run: AgentRun, after: AgentRun) {
    Evolves(run, after) && after.revision == run.revision
  }

  lemma Reflexive(run: AgentRun)
    ensures Quiet(run, run)
  {
  }

  lemma KeptTransitive(a: AgentRun, b: AgentRun, c: AgentRun)
    requires Kept(a, b) && Kept(b, c)
    ensures Kept(a, c)
  {
  }

  lemma QuietThen(a: AgentRun, b: AgentRun, c: AgentRun)
    requires Quiet(a, b) && Evolves(b, c)
    ensures Evolves(a, c)
  {
    KeptTransitive(a, b, c);
    hide Contiguous, Kept;
    assert b.events <= c.events;
  }

  lemma MaxOfContiguous(events: seq<Event>)
    requires Contiguous(events)
    ensures MaxSequence(events) == |events| - 1
  {
    if events != [] {
      MaxOfContiguous(events[..|events| - 1]);
    }
  }

  lemma AppendIsQuiet(run: AgentRun, body: EventBody)
    requires !body.StateChanged?
    ensures Quiet(run, Append(run, body))
  {
    if Contiguous(run.events) { MaxOfContiguous(run.events); }
  }

  lemma TransitionEvolves(run: AgentRun, expectedState: RunState, expectedRevision: nat, to: RunState, now: int)
    requires Transition(run, expectedState, expectedRevision, to, now).Ok?
    ensures Evolves(run, Transition(run, expectedState, expectedRevision, to, now).value)
  {
    if Contiguous(run.events) { MaxOfContiguous(run.events); }
  }

  /** Any transition, after rows that changed without one. */
  lemma QuietThenTransition(run: AgentRun, changed: AgentRun, expectedState: RunState, expectedRevision: nat, to: RunState, now: int)
    requires Quiet(run, changed)
    requires Transition(changed, expectedState, expectedRevision, to, now).Ok?
    ensures Evolves(run, Transition(changed, expectedState, expectedRevision, to, now).value)
  {
    TransitionEvolves(changed, expectedState, expectedRevision, to, now);
    hide Evolves, Transition;
    QuietThen(run, changed, Transition(changed, expectedState, expectedRevision, to, now).value);
  }

  /** Changing the rows of calls and steps that are still open. */
  lemma RowsAreQuiet(run: AgentRun, steps: seq<AgentStep>, invocations: seq<Invocation>)
    requires CallsKept(run.invocations, invocations)
    requires StepsKept(run.steps, steps)
    requires Terminal(run.state) ==> steps == run.steps
    ensures Quiet(run, run.(steps := steps, invocations := invocations))
  {
  }

  lemma LogDiscardsIsQuiet(run: AgentRun, from: nat)
    requires from <= |run.invocations|
    ensures Quiet(run, LogDiscards(run, from))
    decreases |run.invocations| - from
  {
    Reflexive(run);
    if from < |run.invocations| {
      AppendIsQuiet(run, Other);
      var logged := if ActiveInvocation(run.invocations[from]) then Append(run, Other) else run;
      LogDiscardsIsQuiet(logged, from + 1);
      hide Evolves;
      QuietThen(run, logged, LogDiscards(logged, from + 1));
    }
  }

  // ----- one lemma per operation -----

  lemma FailStepEvolves(run: AgentRun, k: nat, now: int)
    requires k < |run.steps| && OpenStep(run.steps[k]) && !Terminal(run.state)
    ensures FailActiveStep(run, k, now).Ok? ==> Evolves(run, FailActiveStep(run, k, now).value)
    ensures FailWithoutInvocation(run, k, now).Ok? ==> Evolves(run, FailWithoutInvocation(run, k, now).value)
  {
    var failed := SetStep(run, k, StepFailed);
    assert Quiet(run, failed) by { RowsAreQuiet(run, failed.steps, run.invocations); }
    AppendIsQuiet(failed, Other);
    hide Evolves;
    QuietThen(run, failed, Append(failed, Other));
    if FailActiveStep(run, k, now).Ok? {
      QuietThenTransition(run, failed, Running, failed.revision, Failed, now);
    }
    if FailWithoutInvocation(run, k, now).Ok? {
      QuietThenTransition(run, Append(failed, Other), Running, failed.revision, Failed, now);
    }
  }

  lemma ExpireEvolves(run: AgentRun, now: int)
    requires !Terminal(run.state)
    ensures ExpireExecution(run, now).Ok? ==> Evolves(run, ExpireExecution(run, now).value)
  {
    var changed := run.(invocations := DiscardActive(run.invocations, DeadlineExpired), steps := CancelOpen(run.steps));
    assert Quiet(run, changed) by { RowsAreQuiet(run, changed.steps, changed.invocations); }
    hide Evolves;
    if ExpireExecution(run, now).Ok? {
      QuietThenTransition(run, changed, Running, run.revision, Expired, now);
    }
  }

  lemma CancelEvolves(run: AgentRun, expected: nat, now: int)
    requires Cancel(run, expected, now).Ok?
    ensures Evolves(run, Cancel(run, expected, now).value)
  {
    Reflexive(run);
    if !Terminal(run.state) {
      var logged := LogDiscards(run, 0);
      LogDiscardsIsQuiet(run, 0);
      var changed := logged.(invocations := DiscardActive(run.invocations, CancellationDiscard), steps := CancelOpen(run.steps));
      assert Quiet(logged, changed) by { RowsAreQuiet(logged, changed.steps, changed.invocations); }
      hide Evolves;
      QuietThen(run, logged, changed);
      QuietThenTransition(run, changed, run.state, expected, RunState.Cancelled, now);
    }
  }

  lemma StartEvolves(run: AgentRun, k: nat, attempt: nat, reg: Registry, provider: bool, now: int)
    requires k < |run.steps| && OpenStep(run.steps[k]) && !Terminal(run.state)
    ensures ReserveAttempt(run, k, attempt, reg, provider, now).Ok? ==>
              Evolves(run, ReserveAttempt(run, k, attempt, reg, provider, now).value.run)
  {
    hide StepRejection;
    FailStepEvolves(run, k, now);
    var v := Invocation(k, attempt, run.steps[k].tool, "read", InFlight, None, now);
    var after := SetStep(run, k, InProgress).(invocations := run.invocations + [v]);
    assert Quiet(run, after) by { RowsAreQuiet(run, after.steps, after.invocations); }
    AppendIsQuiet(after, Other);
    hide Evolves;
    QuietThen(run, after, Append(after, Other));
  }

  lemma ReserveEvolves(run: AgentRun, reg: Registry, allowed: Option<set<ToolId>>, provider: bool, now: int)
    requires Reserve(run, reg, allowed, provider, now).Ok?
    ensures Evolves(run, Reserve(run, reg, allowed, provider, now).value.run)
  {
    Reflexive(run);
    hide Evolves, FailWithoutInvocation, FailActiveStep, ReserveAttempt, ExpireExecution, ExactlyAttemptZeroFinished, ClassifyRetry;
    if run.state.Running? {
      ExpireEvolves(run, now);
      var k := Candidate(run.steps, 0);
      if k < |run.steps| {
        FailStepEvolves(run, k, now);
        StartEvolves(run, k, 0, reg, provider, now);
        StartEvolves(run, k, 1, reg, provider, now);
      }
    }
  }

  lemma MarkIsQuiet(run: AgentRun, i: nat, status: InvocationStatus, error: Option<ErrorCode>)
    requires i < |run.invocations| && ActiveInvocation(run.invocations[i])
    ensures Quiet(run, SetInvocation(run, i, status, error))
  {
    RowsAreQuiet(run, run.steps, SetInvocation(run, i, status, error).invocations);
  }

  /** Setting the call and its open step, with the event that reports it. */
  lemma FinishIsQuiet(run: AgentRun, i: nat, status: InvocationStatus, error: Option<ErrorCode>, next: StepStatus)
    requires i < |run.invocations| && ActiveInvocation(run.invocations[i]) && !Terminal(run.state)
    requires run.invocations[i].step < |run.steps| && OpenStep(run.steps[run.invocations[i].step])
    ensures Quiet(run, Append(SetStep(SetInvocation(run, i, status, error), run.invocations[i].step, next), Other))
  {
    var after := SetStep(SetInvocation(run, i, status, error), run.invocations[i].step, next);
    assert Quiet(run, after) by { RowsAreQuiet(run, after.steps, after.invocations); }
    AppendIsQuiet(after, Other);
    hide Evolves;
    QuietThen(run, after, Append(after, Other));
  }

  /** In a RUNNING Run the step of an active call is in progress. */
  lemma ActiveStepOpen(run: AgentRun, i: nat, reg: Registry)
    requires Inv(run, reg) && run.state.Running?
    requires i < |run.invocations| && ActiveInvocation(run.invocations[i])
    ensures run.invocations[i].step < |run.steps| && run.steps[run.invocations[i].step].status.InProgress?
  {
    ActiveStep(run.steps, run.invocations, i);
  }

  lemma FinalizeEvolves(run: AgentRun, i: nat, result: ToolResult, reg: Registry, now: int)
    requires Inv(run, reg)
    requires Finalize(run, i, result, reg, now).Ok?
    ensures Evolves(run, Finalize(run, i, result, reg, now).value.run)
  {
    Reflexive(run);
    hide Evolves, Retryable, EffectiveCode, ExpireExecution, Inv;
    if i < |run.invocations| && run.invocations[i].step < |run.steps| && run.invocations[i].status.InFlight? {
      var v := run.invocations[i];
      if !run.state.Running? {
        MarkIsQuiet(run, i, Discarded, Some(if run.state.Cancelled? then CancellationDiscard else ToolResultDiscarded));
      } else if now >= run.runDeadline {
        var marked := SetInvocation(run, i, Discarded, Some(DeadlineExpired));
        MarkIsQuiet(run, i, Discarded, Some(DeadlineExpired));
        ExpireEvolves(marked, now);
        QuietThen(run, marked, ExpireExecution(marked, now).value);
      } else {
        ActiveStepOpen(run, i, reg);
        match EffectiveCode(result)
        case None =>
          AppendIsQuiet(run, Other);
          FinishIsQuiet(run, i, Done, v.error, Succeeded);
        case Some(code) =>
          var status := if code.ToolTimeout? then TimedOut else Errored;
          FinishIsQuiet(run, i, status, Some(code), InProgress);
          FinishIsQuiet(run, i, status, Some(code), StepFailed);
          var failed := Append(SetStep(SetInvocation(run, i, status, Some(code)), v.step, StepFailed), Other);
          if FailRun(failed, now).Ok? { QuietThenTransition(run, failed, Running, failed.revision, Failed, now); }
      }
    }
  }

  lemma RecoverEvolves(run: AgentRun, reg: Registry, now: int)
    requires Inv(run, reg)
    requires Recover(run, reg, now).Ok?
    ensures Evolves(run, Recover(run, reg, now).value)
  {
    Reflexive(run);
    hide Evolves, ExpireExecution, FailActiveStep, RecoverStale, StaleAt, Inv;
    forall state, to | Transition(run, state, run.revision, to, now).Ok?
      ensures Evolves(run, Transition(run, state, run.revision, to, now).value)
    {
      TransitionEvolves(run, state, run.revision, to, now);
    }
    if run.state.Running? {
      ExpireEvolves(run, now);
      var i := FirstActive(run.invocations, 0);
      if i < |run.invocations| {
        RecoverStaleEvolves(run, i, reg, now);
      } else if exists k :: 0 <= k < |run.steps| && run.steps[k].status.InProgress? {
        FailStepEvolves(run, FirstInProgress(run.steps), now);
      }
    }
  }

  lemma RecoverStaleEvolves(run: AgentRun, i: nat, reg: Registry, now: int)
    requires Inv(run, reg) && run.state.Running?
    requires i < |run.invocations| && ActiveInvocation(run.invocations[i])
    ensures RecoverStale(run, i, reg, now).Ok? ==> Evolves(run, RecoverStale(run, i, reg, now).value)
  {
    ActiveStepOpen(run, i, reg);
    ReconcileEvolves(run, i, now);
    hide Evolves, FailActiveStep, ExactPureRead, Inv, Append, SetInvocation;
    FailStepEvolves(run, run.invocations[i].step, now);
  }

  lemma ReconcileEvolves(run: AgentRun, i: nat, now: int)
    requires i < |run.invocations| && ActiveInvocation(run.invocations[i]) && !Terminal(run.state)
    requires run.invocations[i].step < |run.steps| && OpenStep(run.steps[run.invocations[i].step])
    ensures
      var reconciled := Append(SetInvocation(run, i, Discarded, Some(ToolTimeout)), Other);
      && Evolves(run, reconciled)
      && |reconciled.steps| == |run.steps|
      && var failed := FailActiveStep(reconciled, run.invocations[i].step, now);
         failed.Ok? ==> Evolves(run, failed.value)
  {
    var marked := SetInvocation(run, i, Discarded, Some(ToolTimeout));
    var k := run.invocations[i].step;
    MarkIsQuiet(run, i, Discarded, Some(ToolTimeout));
    AppendIsQuiet(marked, Other);
    FailStepEvolves(Append(marked, Other), k, now);
    hide Evolves, FailActiveStep;
    QuietThen(run, marked, Append(marked, Other));
    if FailActiveStep(Append(marked, Other), k, now).Ok? {
      QuietThen(run, Append(marked, Other), FailActiveStep(Append(marked, Other), k, now).value);
    }
  }

  lemma PlanEvolves(run: AgentRun, planningRevision: nat, plan: seq<PlannedStep>)
    requires FinalizePlan(run, planningRevision, plan).Ok?
    ensures Evolves(run, FinalizePlan(run, planningRevision, plan).value)
  {
    var planned := run.(steps := PendingSteps(plan));
    assert Quiet(run, planned) by { RowsAreQuiet(run, planned.steps, run.invocations); }
    hide Evolves;
    QuietThenTransition(run, planned, Planning, planningRevision, Ready, 0);
  }

  /** Every committed step: at most one legal transition, logged, and nothing that ended changes. */
  lemma StepEvolves(run: AgentRun, reg: Registry, s: Step)
    requires Inv(run, reg)
    ensures Evolves(run, Apply(run, reg, s))
  {
    Reflexive(run);
    hide Evolves, Inv, Reserve, Finalize, Recover, Cancel, FinalizePlan, PlanExecutable, OriginalClaim, HasResult, CompletePlan;
    forall state, revision, to, now | Transition(run, state, revision, to, now).Ok?
      ensures Evolves(run, Transition(run, state, revision, to, now).value)
    {
      TransitionEvolves(run, state, revision, to, now);
    }
    if Attempt(run, reg, s).Ok? {
      match s
      case FinalizePlanStep(planningRevision, plan) => PlanEvolves(run, planningRevision, plan);
      case ReserveStep(allowed, provider, now) => ReserveEvolves(run, reg, allowed, provider, now);
      case FinalizeStep(i, result, now) => FinalizeEvolves(run, i, result, reg, now);
      case CancelStep(expected, now) => CancelEvolves(run, expected, now);
      case RecoverStep(now) => RecoverEvolves(run, reg, now);
      case PersistResult(kind) => AppendIsQuiet(run, ResultEvent(kind));
      case LogOther => AppendIsQuiet(run, Other);
      case _ =>
    }
  }

  lemma {:induction false} RunsEvolve(run: AgentRun, reg: Registry, steps: seq<Step>)
    requires Inv(run, reg)
    ensures Kept(run, Runs(run, reg, steps))
    decreases |steps|
  {
    Reflexive(run);
    if steps != [] {
      var next := Apply(run, reg, steps[0]);
      StepEvolves(run, reg, steps[0]);
      StepKeepsInv(run, reg, steps[0]);
      hide Inv, Apply, Kept;
      RunsEvolve(next, reg, steps[1..]);
      KeptTransitive(run, next, Runs(next, reg, steps[1..]));
    }
  }

  /**
   A call that recovery, cancellation or expiry discarded, or that finished, is answered with "stop"
   and changes nothing, however much later its worker reports.
   */
  lemma LateResultsNeverCount(run: AgentRun, reg: Registry, i: nat, steps: seq<Step>, result: ToolResult, now: int)
    requires Inv(run, reg)
    requires i < |run.invocations| && !ActiveInvocation(run.invocations[i])
    ensures
      var later := Runs(run, reg, steps);
      Finalize(later, i, result, reg, now) == Ok(Finalization(later, false))
  {
    RunsEvolve(run, reg, steps);
    hide Inv, Runs;
  }

  /** After a Run ended no call, however it returns, changes its state, revision or steps. */
  lemma TerminalRunsStay(run: AgentRun, reg: Registry, steps: seq<Step>)
    requires Inv(run, reg) && Terminal(run.state)
    ensures
      var later := Runs(run, reg, steps);
      && later.state == run.state && later.revision == run.revision && later.steps == run.steps
      && forall i :: 0 <= i < |run.invocations| ==>
           i < |later.invocations|
           && (later.invocations[i] == run.invocations[i]
               || (ActiveInvocation(run.invocations[i]) && !later.invocations[i].status.Done?))
  {
    RunsEvolve(run, reg, steps);
    RunsKeepInv(run, reg, steps);
    var later := Runs(run, reg, steps);
    forall i | 0 <= i < |run.invocations| && ActiveInvocation(run.invocations[i])
      ensures !later.invocations[i].status.Done?
    {
      ActiveStep(run.steps, run.invocations, i);
      var k := run.invocations[i].step;
      assert !later.steps[k].status.Succeeded?;
      assert later.invocations[i].status.Done? ==> HasDone(later.invocations, k);
    }
  }

  // ----- recovery and completion -----

  /** The tool's timeout and 30 seconds of grace have not passed since the call was reserved. */
  predicate Fresh(v: Invocation, reg: Registry, now: int) {
    var waited := now - v.reservedAt;
    if v.tool in reg then waited < (reg[v.tool].timeoutSeconds + 30) * 1_000_000 else waited < 30_000_000
  }

  /**
   Recovery leaves an active call alone exactly until its timeout and the grace period are over; from
   then on the call is no longer active, or the Run has stopped.
   */
  lemma FreshCallsAreLeftAlone(run: AgentRun, reg: Registry, i: nat, now: int)
    requires Inv(run, reg) && run.state.Running? && now < run.runDeadline
    requires i < |run.invocations| && ActiveInvocation(run.invocations[i])
    ensures Recover(run, reg, now) == Ok(run) <==> Fresh(run.invocations[i], reg, now)
    ensures Recover(run, reg, now).Ok?
    ensures !Fresh(run.invocations[i], reg, now) ==>
              var after := Recover(run, reg, now).value;
              after.state.Running? ==> ActiveCalls(after.invocations) == {}
  {
    OnlyActive(run, reg, i);
    ActiveStepOpen(run, i, reg);
    hide Inv, ExactPureRead, MaxSequence;
    if !Fresh(run.invocations[i], reg, now) {
      var stale := RecoverStale(run, i, reg, now);
      assert Recover(run, reg, now) == stale;
      hide Recover, Fresh, StaleAt;
      StaleCallsAreSettled(run, i, reg, now);
    }
  }

  lemma StaleCallsAreSettled(run: AgentRun, i: nat, reg: Registry, now: int)
    requires run.state.Running? && i < |run.invocations| && run.invocations[i].step < |run.steps|
    requires FirstActive(run.invocations, 0) == i == |run.invocations| - 1
    requires run.steps[run.invocations[i].step].status.InProgress? && ActiveInvocation(run.invocations[i])
    ensures RecoverStale(run, i, reg, now).Ok? && RecoverStale(run, i, reg, now).value != run
    ensures var after := RecoverStale(run, i, reg, now).value;
            after.state.Running? ==> ActiveCalls(after.invocations) == {}
  {
    hide ExactPureRead, MaxSequence;
  }

  lemma OnlyActive(run: AgentRun, reg: Registry, i: nat)
    requires Inv(run, reg) && i < |run.invocations| && ActiveInvocation(run.invocations[i])
    ensures FirstActive(run.invocations, 0) == i == |run.invocations| - 1
    ensures FirstActive(run.invocations, i + 1) == |run.invocations|
  {
    ActiveStep(run.steps, run.invocations, i);
    var j := FirstActive(run.invocations, 0);
    ActiveStep(run.steps, run.invocations, j);
  }

  /**
   A stale first call of a pure read is discarded and never lost: the next reservation either starts
   its one retry, for the same step, or fails the Run because the worker's tools or policy refuse it.
   */
  lemma RecoveredCallIsRetried(run: AgentRun, reg: Registry, i: nat, allowed: Option<set<ToolId>>, provider: bool, now: int, later: int)
    returns (recovered: AgentRun)
    requires Inv(run, reg) && run.state.Running? && run.supported && run.retryBudget == 1
    requires now < run.runDeadline && later < run.runDeadline
    requires i < |run.invocations| && ActiveInvocation(run.invocations[i]) && run.invocations[i].attempt == 0
    requires !Fresh(run.invocations[i], reg, now) && ExactPureRead(run, run.invocations[i], reg)
    requires Retries(run.invocations) == {}
    ensures Recover(run, reg, now) == Ok(recovered)
    ensures recovered == run.(events := recovered.events,
              invocations := run.invocations[i := run.invocations[i].(status := Discarded, error := Some(ToolTimeout))])
    ensures run.invocations[i].step < |run.steps|
    ensures Reserve(recovered, reg, allowed, provider, later) == RetryOf(recovered, run.invocations[i].step, reg, allowed, provider, later)
  {
    hide RetryOf, Recover, Reserve, StaleAt, Fresh, ReserveAttempt, MaxSequence;
    OnlyActive(run, reg, i);
    RecoverReconciles(run, reg, i, now);
    recovered := Recover(run, reg, now).value;
    ActiveStepOpen(run, i, reg);
    InProgressIsNext(run, run.invocations[i].step, reg);
    hide Inv;
    NextIsRetry(run, recovered, reg, i, allowed, provider, later);
  }

  /** The retry of a step whose first call failed, for a worker with these tools. */
  function RetryOf(run: AgentRun, k: nat, reg: Registry, allowed: Option<set<ToolId>>, provider: bool, now: int): Outcome<Reservation>
    requires k < |run.steps|
  {
    if allowed.Some? && run.steps[k].tool !in allowed.value then NoReservation(FailWithoutInvocation(run, k, now))
    else ReserveAttempt(run, k, 1, reg, provider, now)
  }

  lemma NextIsRetry(run: AgentRun, recovered: AgentRun, reg: Registry, i: nat, allowed: Option<set<ToolId>>, provider: bool, now: int)
    requires Inv(run, reg) && run.state.Running? && run.supported && run.retryBudget == 1 && now < run.runDeadline
    requires i < |run.invocations| && ActiveInvocation(run.invocations[i]) && run.invocations[i].attempt == 0
    requires run.invocations[i].step < |run.steps| && run.steps[run.invocations[i].step].status.InProgress?
    requires forall j :: 0 <= j < run.invocations[i].step ==> run.steps[j].status.Succeeded?
    requires ExactPureRead(run, run.invocations[i], reg) && Retries(run.invocations) == {}
    requires recovered == run.(events := recovered.events,
               invocations := run.invocations[i := run.invocations[i].(status := Discarded, error := Some(ToolTimeout))])
    ensures Reserve(recovered, reg, allowed, provider, now) == RetryOf(recovered, run.invocations[i].step, reg, allowed, provider, now)
  {
    hide RetryOf, Reserve, ReserveAttempt, Retries, Candidate, Previous, ExactlyAttemptZeroFinished;
    DiscardedIsOnlyAttempt(run, recovered, reg, i);
    hide Inv;
    NoRetries(run, recovered);
    CandidateIs(run.steps, 0, run.invocations[i].step);
    RetryReserved(recovered, reg, run.invocations[i].step, i, allowed, provider, now);
  }

  lemma RetryReserved(run: AgentRun, reg: Registry, k: nat, i: nat, allowed: Option<set<ToolId>>, provider: bool, now: int)
    requires run.state.Running? && run.supported && now < run.runDeadline && run.retryBudget == 1
    requires k < |run.steps| && run.steps[k].status.InProgress? && Candidate(run.steps, 0) == k
    requires forall j :: 0 <= j < k ==> run.steps[j].status.Succeeded?
    requires ExactlyAttemptZeroFinished(run, k) && |Retries(run.invocations)| == 0
    requires HasInvocation(run.invocations, k) && Previous(run.invocations, k) == i
    requires run.invocations[i].error == Some(ToolTimeout) && run.invocations[i].authority == "read"
    requires run.steps[k].tool in reg && reg[run.steps[k].tool].pureRead
    ensures Reserve(run, reg, allowed, provider, now) == RetryOf(run, k, reg, allowed, provider, now)
  {
    hide FailWithoutInvocation, ReserveAttempt, ExactlyAttemptZeroFinished, Retries, Candidate, Previous;
  }

  lemma RecoverReconciles(run: AgentRun, reg: Registry, i: nat, now: int)
    requires run.state.Running? && now < run.runDeadline && run.retryBudget == 1
    requires i < |run.invocations| && FirstActive(run.invocations, 0) == i == |run.invocations| - 1
    requires FirstActive(run.invocations, i + 1) == |run.invocations|
    requires run.invocations[i].attempt == 0
    requires !Fresh(run.invocations[i], reg, now) && ExactPureRead(run, run.invocations[i], reg)
    ensures Recover(run, reg, now) == Ok(Append(SetInvocation(run, i, Discarded, Some(ToolTimeout)), Other))
  {
    hide ExactPureRead, MaxSequence;
  }

  lemma {:induction false} CandidateIs(steps: seq<AgentStep>, from: nat, k: nat)
    requires from <= k < |steps| && OpenStep(steps[k])
    requires forall j :: 0 <= j < k ==> steps[j].status.Succeeded?
    ensures Candidate(steps, from) == k
    decreases k - from
  {
    if from < k { CandidateIs(steps, from + 1, k); }
  }

  lemma DiscardedIsOnlyAttempt(run: AgentRun, recovered: AgentRun, reg: Registry, i: nat)
    requires Inv(run, reg) && i < |run.invocations| && ActiveInvocation(run.invocations[i]) && run.invocations[i].attempt == 0
    requires recovered.invocations == run.invocations[i := run.invocations[i].(status := Discarded, error := Some(ToolTimeout))]
    ensures ExactlyAttemptZeroFinished(recovered, run.invocations[i].step)
    ensures HasInvocation(recovered.invocations, run.invocations[i].step)
    ensures Previous(recovered.invocations, run.invocations[i].step) == i
  {
    var k := run.invocations[i].step;
    FirstCallIsNoRetry(run.steps, run.invocations, i);
    assert recovered.invocations[i].step == k;
    assert forall j :: 0 <= j < |run.invocations| ==> recovered.invocations[j].step == run.invocations[j].step;
    assert Attempts(recovered.invocations, k) == {i};
  }

  lemma NoRetries(run: AgentRun, recovered: AgentRun)
    requires SameCalls(run.invocations, recovered.invocations) && Retries(run.invocations) == {}
    ensures |Retries(recovered.invocations)| == 0
  {
    SameCallsSameCounts(run.invocations, recovered.invocations);
  }

  /** A RUNNING Run completes exactly when every step succeeded and every required result is on record. */
  lemma CompletesIff(run: AgentRun, reg: Registry, required: set<ResultKind>, now: int)
    requires Inv(run, reg) && run.state.Running?
    ensures Complete(run, required, now).Ok?
    ensures
      var after := Complete(run, required, now).value;
      var recorded := forall kind :: kind in required ==>
        exists e :: 0 <= e < |run.events| && e < 1000 && run.events[e].body == ResultEvent(kind);
      && (after.state.Completed? <==> AllSucceeded(run.steps) && recorded)
      && (after.state.Failed? <==> AllSucceeded(run.steps) && !recorded)
      && (after.state.Running? ==> after == run)
  {
    forall kind ensures HasResult(ReadEvents(run), kind) <==>
        exists e :: 0 <= e < |run.events| && e < 1000 && run.events[e].body == ResultEvent(kind) {
      ResultRead(run, kind);
    }
    hide HasResult, Work, Budgets, MaxSequence;
  }

  lemma ResultRead(run: AgentRun, kind: ResultKind)
    ensures HasResult(ReadEvents(run), kind) <==>
            exists e :: 0 <= e < |run.events| && e < 1000 && run.events[e].body == ResultEvent(kind)
  {
    var read := ReadEvents(run);
    if e :| 0 <= e < |run.events| && e < 1000 && run.events[e].body == ResultEvent(kind) {
      assert read[e] == run.events[e];
    }
  }
}
