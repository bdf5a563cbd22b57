/**
 * What the statuses of a plan mean: over every run an invocation is where its last accepted report led,
 * nothing ran that was not approved, and the plan ends as its invocations did.
 */
module PlanMeaning {
  import opened Basics
  import opened Readiness
  import opened PassLoop
  import opened PlanRuntime
  import opened PlanInvariant
  import opened PlanLaws

  /** How the latest attempt of an invocation ended, by what was reported of it. */
  datatype Ending =
    | Open
    | Finished(outcome: Option<string>)
    | Broken
    | Retryable
    | OutOfUsage(blocked: bool)

  /** The meaning of a worker's report on attempt number `attempt`. */
  function Reported(result: ExecutionResult, attempt: nat, c: Config): Ending {
    match result
    case ResultCompleted(outcome) => Finished(outcome)
    case ResultFailed(retryable) => if retryable && attempt < c.maxAttempts then Retryable else Broken
    case ResultWaiting => OutOfUsage(false)
    case ResultBlocked => OutOfUsage(true)
  }

  /** A report or recovery is accepted while the run is the one running in a running plan. */
  predicate Accepted(p: Plan, i: nat, k: nat) { HasRunning(p, i, k) && p.status == PlanRunning && p.invocations[i].status == RUNNING }

  predicate AwaitsHuman(v: Invocation) { v.evaluator && v.approval == HUMAN_APPROVAL && v.status == WAITING_APPROVAL }

  /** The last word on invocation i after one more step. */
  function NextEnding(p: Plan, step: Step, i: nat, before: Ending, c: Config): Ending {
    match step
    case PersistStep(claim, result, _) =>
      if claim.invocation == i && Accepted(p, i, claim.run) then Reported(result, claim.attempt, c) else before
    case RecoverStep(j, k, now) =>
      if j == i && Accepted(p, i, k) && now - p.invocations[i].runs[k].startedAt >= c.staleAfterMs
      then (if p.invocations[i].runs[k].attempt < c.maxAttempts then Retryable else Broken) else before
    case ResolveStep(j, outcome, _) =>
      if j == i < |p.invocations| && p.status == PlanRunning && AwaitsHuman(p.invocations[i]) then Finished(Some(outcome)) else before
    case ClaimStep(j, _) =>
      if j == i < |p.invocations| && p.status == PlanRunning && p.invocations[i].status == READY && RunningCount(p) < p.maxParallelism
      then Open else before
    case _ => before
  }

  function EndingOf(p: Plan, steps: seq<Step>, i: nat, before: Ending, c: Config): Ending
    decreases |steps|
  {
    if steps == [] then before else EndingOf(Apply(p, steps[0], c), steps[1..], i, NextEnding(p, steps[0], i, before, c), c)
  }

  function LastRun(v: Invocation): Run
    requires v.runs != []
  {
    v.runs[|v.runs| - 1]
  }

  /** Where an ending leads; an invocation that is not over may be canceled when its plan ends. */
  predicate Leads(e: Ending, v: Invocation, planRuns: bool) {
    var canceled := v.status == CANCELED && !planRuns;
    match e
    case Open => v.status !in {COMPLETED, FAILED} && (planRuns ==> v.status != CANCELED)
    case Finished(outcome) => v.status == COMPLETED && v.runs != [] && LastRun(v).status == RunCompleted && LastRun(v).outcome == outcome
    case Broken => v.status == FAILED && v.runs != [] && LastRun(v).status == RunFailed
    case Retryable => (v.status == READY || canceled) && v.runs != [] && LastRun(v).status == RunFailed
    case OutOfUsage(blocked) =>
      && (v.status == READY || canceled || v.status == if blocked then BLOCKED_INSUFFICIENT_USAGE else WAITING_FOR_USAGE_CAPACITY)
      && v.runs != [] && LastRun(v).status == if blocked then RunBlocked else RunWaiting
  }

  predicate LeadsIn(p: Plan, i: nat, e: Ending) { i < |p.invocations| && Leads(e, p.invocations[i], p.status == PlanRunning) }

  // ---- One step ----

  /** Statuses other than i's may change as they like; i keeps its runs and its status, or is canceled with its plan while it is not over. */
  predicate Bystander(p: Plan, q: Plan, i: nat) {
    && i < |p.invocations| == |q.invocations| && q.invocations[i].runs == p.invocations[i].runs
    && (|| (q.invocations[i].status == p.invocations[i].status && (p.status == PlanRunning || q.status != PlanRunning))
        || (!Terminal(p.invocations[i].status) && q.invocations[i].status == CANCELED && q.status != PlanRunning))
  }

  lemma BystanderLeads(p: Plan, q: Plan, i: nat, e: Ending)
    requires LeadsIn(p, i, e) && Bystander(p, q, i)
    ensures LeadsIn(q, i, e)
  {}

  lemma FailPlanBystander(p: Plan, failed: nat, i: nat)
    requires p.status == PlanRunning && i < |p.invocations|
    ensures Bystander(p, FailPlan(p, failed), i)
  {}

  lemma AfterFailureLeads(p: Plan, j: nat, k: nat, retry: bool, now: int, i: nat, e: Ending)
    requires Accepted(p, j, k) && k == |p.invocations[j].runs| - 1 && LeadsIn(p, i, e)
    ensures LeadsIn(AfterFailure(p, j, k, retry, now), i, if i == j then (if retry then Retryable else Broken) else e)
  {
    var v := FinishRun(p.invocations[j], k, RunFailed, p.invocations[j].runs[k].outcome, now);
    var q := SetInvocation(p, j, v.(status := if retry then READY else FAILED));
    var e' := if i == j then (if retry then Retryable else Broken) else e;
    assert LeadsIn(q, i, e');
    if !retry && v.failure == FAIL_PLAN {
      FailPlanBystander(q, j, i);
      BystanderLeads(q, FailPlan(q, j), i, e');
    }
  }

  /** A run that is finished behind an ended plan or invocation changes no ending. */
  lemma LateFinishLeads(p: Plan, j: nat, k: nat, now: int, i: nat, e: Ending, maxAttempts: nat)
    requires PlanInv(p, maxAttempts) && HasRunning(p, j, k) && !Accepted(p, j, k) && LeadsIn(p, i, e)
    ensures LeadsIn(SetInvocation(p, j, FinishRun(p.invocations[j], k, RunCanceled, p.invocations[j].runs[k].outcome, now)), i, e)
  {
    assert InvocationInv(p.invocations[j], p.status == PlanRunning, maxAttempts);
    OnlyLatestRuns(p.invocations[j], k, p.status == PlanRunning, maxAttempts);
  }

  lemma AcceptedIsLatest(p: Plan, i: nat, k: nat, maxAttempts: nat)
    requires PlanInv(p, maxAttempts) && Accepted(p, i, k)
    ensures k == |p.invocations[i].runs| - 1
  {
    assert InvocationInv(p.invocations[i], true, maxAttempts);
    OnlyLatestRuns(p.invocations[i], k, true, maxAttempts);
  }

  /** The latest run of a running invocation ends, other than by failing. */
  lemma FinishLeads(p: Plan, j: nat, k: nat, status: RunStatus, outcome: Option<string>, now: int, next: InvocationStatus, i: nat, e: Ending, ended: Ending)
    requires Accepted(p, j, k) && k == |p.invocations[j].runs| - 1 && LeadsIn(p, i, e)
    requires Leads(ended, FinishRun(p.invocations[j], k, status, outcome, now).(status := next), true)
    ensures LeadsIn(SetInvocation(p, j, FinishRun(p.invocations[j], k, status, outcome, now).(status := next)), i, if i == j then ended else e)
  {}

  lemma AcceptedLeads(p: Plan, claim: Claim, result: ExecutionResult, now: int, i: nat, e: Ending, c: Config)
    requires Accepted(p, claim.invocation, claim.run) && claim.run == |p.invocations[claim.invocation].runs| - 1 && LeadsIn(p, i, e)
    ensures LeadsIn(Persist(p, claim, result, now, c), i, if i == claim.invocation then Reported(result, claim.attempt, c) else e)
  {
    var j, k := claim.invocation, claim.run;
    var outcome := p.invocations[j].runs[k].outcome;
    match result
    case ResultWaiting => FinishLeads(p, j, k, RunWaiting, outcome, now, WAITING_FOR_USAGE_CAPACITY, i, e, OutOfUsage(false));
    case ResultBlocked => FinishLeads(p, j, k, RunBlocked, outcome, now, BLOCKED_INSUFFICIENT_USAGE, i, e, OutOfUsage(true));
    case ResultCompleted(o) => FinishLeads(p, j, k, RunCompleted, o, now, COMPLETED, i, e, Finished(o));
    case ResultFailed(retryable) => AfterFailureLeads(p, j, k, retryable && claim.attempt < c.maxAttempts, now, i, e);
  }

  lemma LatePersist(p: Plan, claim: Claim, result: ExecutionResult, now: int, c: Config)
    requires HasRunning(p, claim.invocation, claim.run) && !Accepted(p, claim.invocation, claim.run)
    ensures var j, k := claim.invocation, claim.run;
            Persist(p, claim, result, now, c) ==
            SetInvocation(p, j, FinishRun(p.invocations[j], k, RunCanceled, p.invocations[j].runs[k].outcome, now))
  {}

  lemma UnacceptedLeads(p: Plan, claim: Claim, result: ExecutionResult, now: int, i: nat, e: Ending, c: Config)
    requires PlanInv(p, c.maxAttempts) && !Accepted(p, claim.invocation, claim.run) && LeadsIn(p, i, e)
    ensures LeadsIn(Persist(p, claim, result, now, c), i, e)
  {
    if HasRunning(p, claim.invocation, claim.run) {
      LatePersist(p, claim, result, now, c);
      LateFinishLeads(p, claim.invocation, claim.run, now, i, e, c.maxAttempts);
    }
  }

  lemma PersistLeads(p: Plan, claim: Claim, result: ExecutionResult, now: int, i: nat, e: Ending, c: Config)
    requires PlanInv(p, c.maxAttempts) && ClaimFits(p, claim) && LeadsIn(p, i, e)
    ensures LeadsIn(Persist(p, claim, result, now, c), i, NextEnding(p, PersistStep(claim, result, now), i, e, c))
  {
    if Accepted(p, claim.invocation, claim.run) {
      AcceptedIsLatest(p, claim.invocation, claim.run, c.maxAttempts);
      AcceptedLeads(p, claim, result, now, i, e, c);
    } else {
      UnacceptedLeads(p, claim, result, now, i, e, c);
    }
  }

  lemma UnacceptedRecovery(p: Plan, j: nat, k: nat, now: int, i: nat, e: Ending, c: Config)
    requires PlanInv(p, c.maxAttempts) && !Accepted(p, j, k) && LeadsIn(p, i, e)
    ensures LeadsIn(RecoverStaleRun(p, j, k, now, c), i, e)
  {
    if HasRunning(p, j, k) { LateFinishLeads(p, j, k, now, i, e, c.maxAttempts); }
  }

  lemma AcceptedRecovery(p: Plan, j: nat, k: nat, now: int, i: nat, e: Ending, c: Config)
    requires Accepted(p, j, k) && k == |p.invocations[j].runs| - 1 && LeadsIn(p, i, e)
    ensures LeadsIn(RecoverStaleRun(p, j, k, now, c), i, NextEnding(p, RecoverStep(j, k, now), i, e, c))
  {
    AfterFailureLeads(p, j, k, p.invocations[j].runs[k].attempt < c.maxAttempts, now, i, e);
  }

  lemma RecoverLeads(p: Plan, j: nat, k: nat, now: int, i: nat, e: Ending, c: Config)
    requires PlanInv(p, c.maxAttempts) && LeadsIn(p, i, e)
    ensures LeadsIn(RecoverStaleRun(p, j, k, now, c), i, NextEnding(p, RecoverStep(j, k, now), i, e, c))
  {
    if Accepted(p, j, k) {
      AcceptedIsLatest(p, j, k, c.maxAttempts);
      AcceptedRecovery(p, j, k, now, i, e, c);
    } else {
      UnacceptedRecovery(p, j, k, now, i, e, c);
    }
  }

  lemma DecidedLeads(p: Plan, now: int, c: Config, i: nat, e: Ending)
    requires p.status == PlanRunning && LeadsIn(p, i, e)
    ensures LeadsIn(WithStates(p, Decided(p, now, c)), i, e)
  {
    DecidedMoves(p, now, c, i);
  }

  lemma ClosingLeads(q: Plan, i: nat, e: Ending)
    requires q.status == PlanRunning && LeadsIn(q, i, e)
    ensures LeadsIn(Closing(q).0, i, e)
  {
    var fatal := FirstFatal(q, States(q), 0);
    FailPlanBystander(q, fatal, i);
    BystanderLeads(q, FailPlan(q, fatal), i, e);
  }

  lemma DispatchLeads(p: Plan, now: int, c: Config, i: nat, e: Ending)
    requires LeadsIn(p, i, e)
    ensures LeadsIn(Dispatch(p, now, c).0, i, e)
  {
    if p.status == PlanRunning {
      DecidedLeads(p, now, c, i, e);
      ClosingLeads(WithStates(p, Decided(p, now, c)), i, e);
    }
  }

  lemma StartLeads(p: Plan, maxAttempts: nat, i: nat, e: Ending)
    requires PlanInv(p, maxAttempts) && LeadsIn(p, i, e)
    ensures LeadsIn(Start(p), i, e)
  {
    if p.status == PlanPlanned {
      assert States(p)[i] == PENDING;
      assert InvocationInv(p.invocations[i], false, maxAttempts);
    }
  }

  lemma StopLeads(p: Plan, i: nat, e: Ending)
    requires LeadsIn(p, i, e)
    ensures LeadsIn(Stop(p), i, e)
  {}

  lemma UserLeads(p: Plan, step: Step, i: nat, e: Ending, c: Config)
    requires PlanInv(p, c.maxAttempts) && LeadsIn(p, i, e) && (step.ApproveStep? || step.ResolveStep? || step.ClaimStep?)
    ensures LeadsIn(Apply(p, step, c), i, NextEnding(p, step, i, e, c))
  {
    assert InvocationInv(p.invocations[i], p.status == PlanRunning, c.maxAttempts);
  }

  lemma StepLeads(p: Plan, step: Step, i: nat, e: Ending, c: Config)
    requires PlanInv(p, c.maxAttempts) && Legal(p, step) && LeadsIn(p, i, e)
    ensures LeadsIn(Apply(p, step, c), i, NextEnding(p, step, i, e, c))
  {
    match step
    case StartStep => StartLeads(p, c.maxAttempts, i, e);
    case DispatchStep(now) => DispatchLeads(p, now, c, i, e);
    case PersistStep(claim, result, now) => PersistLeads(p, claim, result, now, i, e, c);
    case RecoverStep(j, k, now) => RecoverLeads(p, j, k, now, i, e, c);
    case StopStep => StopLeads(p, i, e);
    case _ => UserLeads(p, step, i, e, c);
  }

  // ---- Runs ----

  /**
   * Over every run, an invocation is COMPLETED, with the reported outcome, exactly when the last accepted word
   * on it was a completed result or a human's decision; it is FAILED exactly when that was a failure not
   * to be retried or a stale run at the last attempt; after any other failure, and after missing usage, it
   * can be claimed again or waits for usage, unless its plan ended.
   */
  lemma {:induction false} RunLeads(p: Plan, steps: seq<Step>, i: nat, e: Ending, c: Config)
    requires PlanInv(p, c.maxAttempts) && LegalRun(p, steps, c) && LeadsIn(p, i, e)
    ensures LeadsIn(RunSteps(p, steps, c), i, EndingOf(p, steps, i, e, c))
    decreases |steps|
  {
    if steps != [] {
      StepKeepsInv(p, steps[0], c);
      StepLeads(p, steps[0], i, e, c);
      RunLeads(Apply(p, steps[0], c), steps[1..], i, NextEnding(p, steps[0], i, e, c), c);
    }
  }

  lemma FreshLeads(p: Plan, maxAttempts: nat, i: nat)
    requires PlanInv(p, maxAttempts) && p.status == PlanPlanned && i < |p.invocations|
    ensures LeadsIn(p, i, Open)
  {
    assert States(p)[i] == PENDING;
  }

  ghost predicate SomeEnded(p: Plan, steps: seq<Step>, q: Plan, fatalOnly: bool, c: Config) {
    exists i :: 0 <= i < |q.invocations| && EndingOf(p, steps, i, Open, c) == Broken && (fatalOnly ==> q.invocations[i].failure == FAIL_PLAN)
  }

  /**
   * A plan ends as its reports say. It ends FAILED only over an invocation under FAIL_PLAN that broke, and
   * COMPLETED only with every invocation finished or skipped; while nobody stops it, it ends PARTIAL only
   * over one that broke.
   */
  lemma OutcomeFollowsReports(p: Plan, steps: seq<Step>, c: Config)
    requires PlanInv(p, c.maxAttempts) && p.status == PlanPlanned && LegalRun(p, steps, c)
    ensures var q := RunSteps(p, steps, c);
            && (q.status == PlanFailed ==> SomeEnded(p, steps, q, true, c))
            && (q.status == PlanPartial ==> SomeEnded(p, steps, q, false, c))
            && (q.status == PlanCompleted ==> AllEnded(p, steps, q, c))
  {
    var q := RunSteps(p, steps, c);
    EndLeads(p, steps, c);
    RunKeepsInv(p, steps, c);
    RunCancels(p, steps, c);
    match q.status
    case PlanFailed => FailedEnds(p, steps, q, c);
    case PlanPartial => PartialEnds(p, steps, q, c);
    case PlanCompleted => CompletedEnds(p, steps, q, c);
    case _ =>
  }

  ghost predicate AllEnded(p: Plan, steps: seq<Step>, q: Plan, c: Config) {
    forall i :: 0 <= i < |q.invocations| ==>
      EndingOf(p, steps, i, Open, c).Finished? || (q.invocations[i].status == SKIPPED && EndingOf(p, steps, i, Open, c).Open?)
  }

  ghost predicate AllLead(p: Plan, steps: seq<Step>, q: Plan, c: Config) {
    forall i :: 0 <= i < |q.invocations| ==> LeadsIn(q, i, EndingOf(p, steps, i, Open, c))
  }

  lemma EndLeads(p: Plan, steps: seq<Step>, c: Config)
    requires PlanInv(p, c.maxAttempts) && p.status == PlanPlanned && LegalRun(p, steps, c)
    ensures AllLead(p, steps, RunSteps(p, steps, c), c)
  {
    var q := RunSteps(p, steps, c);
    RunAdvances(p, steps, c);
    forall i | 0 <= i < |q.invocations| ensures LeadsIn(q, i, EndingOf(p, steps, i, Open, c)) {
      FreshLeads(p, c.maxAttempts, i);
      RunLeads(p, steps, i, Open, c);
    }
  }

  lemma FailedEnds(p: Plan, steps: seq<Step>, q: Plan, c: Config)
    requires AllLead(p, steps, q, c) && OutcomeFits(q) && q.status == PlanFailed
    ensures SomeEnded(p, steps, q, true, c)
  {
    var i :| 0 <= i < |States(q)| && States(q)[i] == FAILED && q.invocations[i].failure == FAIL_PLAN;
    assert LeadsIn(q, i, EndingOf(p, steps, i, Open, c));
  }

  lemma PartialEnds(p: Plan, steps: seq<Step>, q: Plan, c: Config)
    requires AllLead(p, steps, q, c) && OutcomeFits(q) && q.status == PlanPartial && CancelsFit(q)
    ensures SomeEnded(p, steps, q, false, c)
  {
    var i :| 0 <= i < |States(q)| && (States(q)[i] == FAILED || States(q)[i] == CANCELED);
    assert LeadsIn(q, i, EndingOf(p, steps, i, Open, c));
  }

  lemma CompletedEnds(p: Plan, steps: seq<Step>, q: Plan, c: Config)
    requires AllLead(p, steps, q, c) && OutcomeFits(q) && q.status == PlanCompleted
    ensures AllEnded(p, steps, q, c)
  {
    forall i | 0 <= i < |q.invocations|
      ensures EndingOf(p, steps, i, Open, c).Finished? || (q.invocations[i].status == SKIPPED && EndingOf(p, steps, i, Open, c).Open?)
    {
      assert LeadsIn(q, i, EndingOf(p, steps, i, Open, c)) && States(q)[i] == q.invocations[i].status;
    }
  }

  /** Invocations are canceled only with their plan, when it fails or is stopped. */
  ghost predicate CancelsFit(p: Plan) {
    p.status != PlanFailed && p.status != PlanCanceled ==> forall i :: 0 <= i < |p.invocations| ==> p.invocations[i].status != CANCELED
  }

  lemma ClosingCancels(q: Plan)
    requires CancelsFit(q) && q.status == PlanRunning
    ensures CancelsFit(Closing(q).0)
  {}

  lemma DecidedCancels(p: Plan, now: int, c: Config)
    requires CancelsFit(p) && p.status == PlanRunning
    ensures CancelsFit(WithStates(p, Decided(p, now, c)))
  {
    forall i | 0 <= i < |p.invocations| ensures Decided(p, now, c)[i] != CANCELED { DecidedMoves(p, now, c, i); }
  }

  lemma DispatchCancels(p: Plan, now: int, c: Config)
    requires CancelsFit(p)
    ensures CancelsFit(Dispatch(p, now, c).0)
  {
    if p.status == PlanRunning {
      DecidedCancels(p, now, c);
      ClosingCancels(WithStates(p, Decided(p, now, c)));
    }
  }

  lemma ReportCancels(p: Plan, step: Step, c: Config)
    requires CancelsFit(p) && (step.PersistStep? || step.RecoverStep?)
    ensures CancelsFit(Apply(p, step, c))
  {}

  lemma StepCancels(p: Plan, step: Step, c: Config)
    requires CancelsFit(p)
    ensures CancelsFit(Apply(p, step, c))
  {
    if step.DispatchStep? { DispatchCancels(p, step.now, c); }
    else if step.PersistStep? || step.RecoverStep? { ReportCancels(p, step, c); }
    else { UserCancels(p, step, c); }
  }

  lemma UserCancels(p: Plan, step: Step, c: Config)
    requires CancelsFit(p) && !step.DispatchStep? && !step.PersistStep? && !step.RecoverStep?
    ensures CancelsFit(Apply(p, step, c))
  {}

  lemma {:induction false} RunCancelsFrom(p: Plan, steps: seq<Step>, c: Config)
    requires CancelsFit(p) && PlanInv(p, c.maxAttempts) && LegalRun(p, steps, c)
    ensures CancelsFit(RunSteps(p, steps, c))
    decreases |steps|
  {
    if steps != [] {
      StepCancels(p, steps[0], c);
      StepKeepsInv(p, steps[0], c);
      RunCancelsFrom(Apply(p, steps[0], c), steps[1..], c);
    }
  }

  lemma RunCancels(p: Plan, steps: seq<Step>, c: Config)
    requires PlanInv(p, c.maxAttempts) && p.status == PlanPlanned && LegalRun(p, steps, c)
    ensures CancelsFit(RunSteps(p, steps, c))
  {
    forall i | 0 <= i < |p.invocations| ensures p.invocations[i].status != CANCELED { assert States(p)[i] == PENDING; }
    RunCancelsFrom(p, steps, c);
  }

  /** Reports that never break: completed results, missing usage, and failures that may still be retried. */
  predicate NothingBreaks(p: Plan, steps: seq<Step>, c: Config)
    decreases |steps|
  {
    steps == [] || ((forall i :: 0 <= i < |p.invocations| ==> NextEnding(p, steps[0], i, Open, c) != Broken)
                    && NothingBreaks(Apply(p, steps[0], c), steps[1..], c))
  }

  lemma {:induction false} NothingBroke(p: Plan, steps: seq<Step>, i: nat, e: Ending, c: Config)
    requires NothingBreaks(p, steps, c) && e != Broken && i < |p.invocations|
    ensures EndingOf(p, steps, i, e, c) != Broken
    decreases |steps|
  {
    if steps != [] {
      StepAdvances(p, steps[0], c);
      assert NextEnding(p, steps[0], i, Open, c) != Broken;
      assert NextEnding(p, steps[0], i, e, c) in {e, NextEnding(p, steps[0], i, Open, c)};
      NothingBroke(Apply(p, steps[0], c), steps[1..], i, NextEnding(p, steps[0], i, e, c), c);
    }
  }

  /** While no accepted report breaks, as when all of them are completed results, a plan ends neither FAILED nor PARTIAL. */
  lemma CompletedReportsComplete(p: Plan, steps: seq<Step>, c: Config)
    requires PlanInv(p, c.maxAttempts) && p.status == PlanPlanned && LegalRun(p, steps, c) && NothingBreaks(p, steps, c)
    ensures RunSteps(p, steps, c).status != PlanFailed && RunSteps(p, steps, c).status != PlanPartial
  {
    var q := RunSteps(p, steps, c);
    OutcomeFollowsReports(p, steps, c);
    RunAdvances(p, steps, c);
    forall i | 0 <= i < |q.invocations| ensures EndingOf(p, steps, i, Open, c) != Broken {
      NothingBroke(p, steps, i, Open, c);
    }
  }

  // ---- Approval ----

  /** A user's decision that lets invocation i go on: an approval, or for a human evaluation its result. */
  predicate Approves(p: Plan, step: Step, i: nat) {
    && i < |p.invocations| && p.status == PlanRunning && p.invocations[i].status == WAITING_APPROVAL
    && ((step.ApproveStep? && step.i == i && !AwaitsHuman(p.invocations[i]) && p.invocations[i].approval != AUTO)
        || (step.ResolveStep? && step.i == i && AwaitsHuman(p.invocations[i])))
  }

  predicate NeverApproved(p: Plan, steps: seq<Step>, i: nat, c: Config)
    decreases |steps|
  {
    steps == [] || (!Approves(p, steps[0], i) && NeverApproved(Apply(p, steps[0], c), steps[1..], i, c))
  }

  /** An invocation that needs a decision it has not had. */
  predicate Unstarted(v: Invocation) { v.runs == [] && v.status in {PENDING, WAITING_APPROVAL, SKIPPED, CANCELED} }

  predicate StillUnstarted(p: Plan, q: Plan, i: nat) {
    i < |p.invocations| == |q.invocations| && q.invocations[i].approval == p.invocations[i].approval && Unstarted(q.invocations[i])
  }

  lemma ClosingUnstarted(q: Plan, i: nat)
    requires q.status == PlanRunning && i < |q.invocations| && Unstarted(q.invocations[i])
    ensures StillUnstarted(q, Closing(q).0, i)
  {}

  lemma DecidedUnstarted(p: Plan, now: int, c: Config, i: nat)
    requires i < |p.invocations| && p.invocations[i].approval != AUTO && Unstarted(p.invocations[i])
    ensures StillUnstarted(p, WithStates(p, Decided(p, now, c)), i)
  {
    DecidedMoves(p, now, c, i);
    NeverReadyUnasked(DeciderOf(p), AutoFlags(p), Resumed(p, now, c), |p.invocations| + 1, i);
  }

  lemma DispatchUnstarted(p: Plan, now: int, c: Config, i: nat)
    requires i < |p.invocations| && p.invocations[i].approval != AUTO && Unstarted(p.invocations[i])
    ensures StillUnstarted(p, Dispatch(p, now, c).0, i)
  {
    if p.status == PlanRunning {
      DecidedUnstarted(p, now, c, i);
      ClosingUnstarted(WithStates(p, Decided(p, now, c)), i);
    }
  }

  lemma {:induction false} PassAsks(decide: Decider, auto: seq<bool>, st: seq<InvocationStatus>, k: nat, i: nat)
    requires k <= |st| == |auto| && i < |st| && !auto[i] && st[i] != READY
    ensures Pass(decide, auto, st, k)[i] != READY
  {
    if k > 0 { PassAsks(decide, auto, st, k - 1, i); }
  }

  lemma {:induction false} NeverReadyUnasked(decide: Decider, auto: seq<bool>, st: seq<InvocationStatus>, m: nat, i: nat)
    requires |st| == |auto| && i < |st| && !auto[i] && st[i] != READY
    ensures Passes(decide, auto, st, m)[i] != READY
  {
    if m > 0 {
      NeverReadyUnasked(decide, auto, st, m - 1, i);
      PassAsks(decide, auto, Passes(decide, auto, st, m - 1), |st|, i);
    }
  }

  lemma ReportUnstarted(p: Plan, step: Step, i: nat, c: Config)
    requires i < |p.invocations| && Unstarted(p.invocations[i]) && (step.PersistStep? || step.RecoverStep?)
    ensures StillUnstarted(p, Apply(p, step, c), i)
  {}

  lemma StepUnstarted(p: Plan, step: Step, i: nat, c: Config)
    requires i < |p.invocations| && p.invocations[i].approval != AUTO && Unstarted(p.invocations[i]) && !Approves(p, step, i)
    ensures StillUnstarted(p, Apply(p, step, c), i)
  {
    if step.DispatchStep? { DispatchUnstarted(p, step.now, c, i); }
    else if step.PersistStep? || step.RecoverStep? { ReportUnstarted(p, step, i, c); }
  }

  /** Over every run, an invocation that needs a user's decision has no run before it has one. */
  lemma {:induction false} NothingRunsUnapproved(p: Plan, steps: seq<Step>, i: nat, c: Config)
    requires i < |p.invocations| && p.invocations[i].approval != AUTO && Unstarted(p.invocations[i]) && NeverApproved(p, steps, i, c)
    ensures StillUnstarted(p, RunSteps(p, steps, c), i)
    decreases |steps|
  {
    if steps != [] {
      StepUnstarted(p, steps[0], i, c);
      NothingRunsUnapproved(Apply(p, steps[0], c), steps[1..], i, c);
    }
  }

  /** A decision is what lets it go on: an approved invocation can be claimed, and a human evaluation carries the decision. */
  lemma DecisionsCount(p: Plan, step: Step, i: nat, c: Config)
    requires Approves(p, step, i)
    ensures var v := Apply(p, step, c).invocations[i];
            if step.ApproveStep? then v.status == READY
            else v.status == COMPLETED && v.runs != [] && LastRun(v).status == RunCompleted && LastRun(v).outcome == Some(step.outcome)
  {}

  // ---- What a dispatch hands out ----

  /** Claims one after the other, as long as they are granted. */
  function ClaimAll(p: Plan, ready: seq<nat>, now: int): (Plan, bool)
    decreases |ready|
  {
    if ready == [] then (p, true)
    else
      var (q, claim) := ClaimInvocation(p, ready[0], now);
      if claim.None? then (q, false) else ClaimAll(q, ready[1..], now)
  }

  ghost predicate Claimable(p: Plan, ready: seq<nat>) {
    && p.status == PlanRunning && RunningCount(p) + |ready| <= p.maxParallelism
    && (forall k :: 0 <= k < |ready| ==> ready[k] < |p.invocations| && p.invocations[ready[k]].status == READY)
    && (forall j, k :: 0 <= j < k < |ready| ==> ready[j] != ready[k])
  }

  lemma {:induction false} AllAreGranted(p: Plan, ready: seq<nat>, now: int)
    requires Claimable(p, ready)
    ensures ClaimAll(p, ready, now).1
    decreases |ready|
  {
    if ready != [] {
      var q := ClaimInvocation(p, ready[0], now).0;
      CountAfterSet(p, ready[0], q.invocations[ready[0]]);
      AllAreGranted(q, ready[1..], now);
    }
  }

  lemma {:induction false} FirstReady(st: seq<InvocationStatus>, slots: nat)
    ensures var r := ReadyOnes(st, slots);
            && (forall j, k :: 0 <= j < k < |r| ==> r[j] < r[k])
            && (forall i :: 0 <= i < |st| && st[i] == READY && i !in r ==> |r| == slots && forall k :: 0 <= k < |r| ==> r[k] < i)
  {
    if st != [] {
      var n := |st| - 1;
      FirstReady(st[..n], slots);
      var front, r := ReadyOnes(st[..n], slots), ReadyOnes(st, slots);
      forall i | 0 <= i < |st| && st[i] == READY && i !in r ensures |r| == slots && forall k :: 0 <= k < |r| ==> r[k] < i {
        if i < n {
          assert st[..n][i] == READY;
          assert forall k :: 0 <= k < |front| ==> r[k] == front[k] && r[k] in r;
        }
      }
    }
  }

  /** The ready invocations from the first on, every one of them or as many as there are free places. */
  ghost predicate FirstOnes(q: Plan, ready: seq<nat>) {
    && (forall j, k :: 0 <= j < k < |ready| ==> ready[j] < ready[k])
    && (forall i :: 0 <= i < |q.invocations| && q.invocations[i].status == READY && i !in ready ==>
          RunningCount(q) + |ready| == q.maxParallelism && forall k :: 0 <= k < |ready| ==> ready[k] < i)
  }

  lemma HandedOutAreFirst(q: Plan, ready: seq<nat>, at: int)
    requires q.status == PlanRunning && RunningCount(q) <= q.maxParallelism && HandedOut(q, ready)
    ensures ClaimAll(q, ready, at).1 && FirstOnes(q, ready)
  {
    var slots := Max(0, q.maxParallelism - RunningCount(q));
    FirstReady(States(q), slots);
    forall i | 0 <= i < |q.invocations| && q.invocations[i].status == READY && i !in ready
      ensures |ready| == slots && forall k :: 0 <= k < |ready| ==> ready[k] < i
    {
      assert States(q)[i] == READY;
    }
    AllAreGranted(q, ready, at);
  }

  /**
   * What a dispatch hands out can all be claimed, one after the other; it is every ready invocation in the
   * plan's order, or as many of them from the first on as there are free places.
   */
  lemma HandedOutAreGranted(p: Plan, now: int, at: int, c: Config)
    requires PlanInv(p, c.maxAttempts) && p.status == PlanRunning && Dispatch(p, now, c).0.status == PlanRunning
    ensures var (q, ready) := Dispatch(p, now, c); ClaimAll(q, ready, at).1 && FirstOnes(q, ready)
  {
    var (q, ready) := Dispatch(p, now, c);
    DispatchKeepsInv(p, now, c);
    ClosingHandsOut(WithStates(p, Decided(p, now, c)));
    HandedOutAreFirst(q, ready, at);
  }

  // ---- What a dispatch decides ----

  /** Where a decision takes a pending invocation: it is skipped, can be claimed, or first needs a user. */
  predicate Placed(v: Invocation, d: Decision, status: InvocationStatus) {
    match d
    case STAY_PENDING => status == PENDING
    case BECOME_SKIPPED => status == SKIPPED
    case BECOME_READY => status == if v.approval == AUTO then READY else WAITING_APPROVAL
  }

  /** After its passes a dispatch has placed every pending invocation where the worker's decision over the final statuses puts it. */
  lemma DispatchPlaces(p: Plan, now: int, c: Config, i: nat)
    requires i < |p.invocations| && p.invocations[i].status == PENDING
    ensures var st := Decided(p, now, c);
            Placed(p.invocations[i], DecideReadiness(p.invocations[i].join, p.dependencies, i, st, Outcomes(p)), st[i])
  {
    DeciderIsStable(p);
    PassesPlace(DeciderOf(p), AutoFlags(p), Resumed(p, now, c), i);
    DeciderDecides(p, i, Decided(p, now, c));
  }

  lemma DeciderDecides(p: Plan, i: nat, st: seq<InvocationStatus>)
    requires i < |p.invocations| == |st|
    ensures DeciderOf(p)(i, st) == DecideReadiness(p.invocations[i].join, p.dependencies, i, st, Outcomes(p))
  {}

  /** A started plan runs, and what has no sources can be claimed or waits for a user at once. */
  lemma StartOpensRoots(p: Plan, maxAttempts: nat, i: nat)
    requires PlanInv(p, maxAttempts) && p.status == PlanPlanned && i < |p.invocations|
    requires forall d :: d in p.dependencies ==> d.to != i && d.from < |p.invocations|
    ensures Start(p).status == PlanRunning && Placed(p.invocations[i], BECOME_READY, Start(p).invocations[i].status)
  {
    var n := |p.invocations|;
    assert States(p)[i] == PENDING;
    DecisionTells(p.invocations[i].join, p.dependencies, i, AllPending(n), NoOutcomes(n));
  }

  // ---- Failing and stopping ----

  /** While a plan runs, none of its invocations has failed under FAIL_PLAN. */
  ghost predicate NothingFatal(p: Plan) {
    p.status == PlanRunning ==>
      forall i :: 0 <= i < |p.invocations| ==> !(p.invocations[i].status == FAILED && p.invocations[i].failure == FAIL_PLAN)
  }

  lemma ReportFatal(p: Plan, step: Step, c: Config)
    requires NothingFatal(p) && (step.PersistStep? || step.RecoverStep?)
    ensures NothingFatal(Apply(p, step, c))
  {}

  lemma ClosingFatal(q: Plan)
    requires q.status == PlanRunning
    ensures NothingFatal(Closing(q).0)
  {
    var st := States(q);
    if FirstFatal(q, st, 0) == |st| {
      assert forall i :: 0 <= i < |st| ==> !(st[i] == FAILED && q.invocations[i].failure == FAIL_PLAN);
    }
  }

  lemma StepFatal(p: Plan, step: Step, c: Config)
    requires NothingFatal(p) && PlanInv(p, c.maxAttempts)
    ensures NothingFatal(Apply(p, step, c))
  {
    match step
    case DispatchStep(now) => if p.status == PlanRunning { ClosingFatal(WithStates(p, Decided(p, now, c))); }
    case PersistStep(_, _, _) => ReportFatal(p, step, c);
    case RecoverStep(_, _, _) => ReportFatal(p, step, c);
    case _ => UserFatal(p, step, c);
  }

  lemma UserFatal(p: Plan, step: Step, c: Config)
    requires NothingFatal(p) && PlanInv(p, c.maxAttempts) && !step.DispatchStep? && !step.PersistStep? && !step.RecoverStep?
    ensures NothingFatal(Apply(p, step, c))
  {
    if step.StartStep? && p.status == PlanPlanned { StartedInvocations(p, c.maxAttempts); NoFailedYet(p); }
  }

  lemma NoFailedYet(p: Plan)
    requires OutcomeFits(p) && p.status == PlanPlanned
    ensures |Start(p).invocations| == |p.invocations|
    ensures forall i :: 0 <= i < |p.invocations| ==> Start(p).invocations[i].status != FAILED
  {
    forall i | 0 <= i < |p.invocations| ensures Start(p).invocations[i].status != FAILED {
      assert States(p)[i] == PENDING;
    }
  }

  /** Over every run, a failure under FAIL_PLAN takes the plan out of RUNNING at once. */
  lemma {:induction false} FatalFailuresFailPlan(p: Plan, steps: seq<Step>, c: Config)
    requires NothingFatal(p) && PlanInv(p, c.maxAttempts) && LegalRun(p, steps, c)
    ensures NothingFatal(RunSteps(p, steps, c))
    decreases |steps|
  {
    if steps != [] {
      StepFatal(p, steps[0], c);
      StepKeepsInv(p, steps[0], c);
      FatalFailuresFailPlan(Apply(p, steps[0], c), steps[1..], c);
    }
  }

  /** Stopping ends a plan that has not ended: what was not over is canceled, and what was over stays as it ended. */
  lemma StopEnds(p: Plan)
    requires p.status == PlanPlanned || p.status == PlanRunning
    ensures var q := Stop(p);
            && q.status == PlanCanceled && |q.invocations| == |p.invocations|
            && forall i :: 0 <= i < |q.invocations| ==>
                 q.invocations[i] == if Terminal(p.invocations[i].status) then p.invocations[i] else p.invocations[i].(status := CANCELED)
  {}
}
