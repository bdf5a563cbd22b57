/** What every interleaving of plan steps promises: fencing, bounded work, sound and final outcomes, progress. */
module PlanLaws {
  import opened Basics
  import opened Readiness
  import opened PassLoop
  import opened PlanRuntime
  import opened PlanInvariant

  datatype Step =
    | StartStep
    | DispatchStep(now: int)
    | ClaimStep(i: nat, now: int)
    | PersistStep(claim: Claim, result: ExecutionResult, now: int)
    | RecoverStep(i: nat, k: nat, now: int)
    | ApproveStep(i: nat)
    | ResolveStep(i: nat, outcome: string, now: int)
    | StopStep

  /** Any step may happen at any time; a worker reports only on a run it was given, however late and often. */
  predicate Legal(p: Plan, step: Step) { step.PersistStep? ==> ClaimFits(p, step.claim) }

  function Apply(p: Plan, step: Step, c: Config): Plan {
    match step
    case StartStep => Start(p)
    case DispatchStep(now) => Dispatch(p, now, c).0
    case ClaimStep(i, now) => ClaimInvocation(p, i, now).0
    case PersistStep(claim, result, now) => Persist(p, claim, result, now, c)
    case RecoverStep(i, k, now) => RecoverStaleRun(p, i, k, now, c)
    case ApproveStep(i) => Approve(p, i)
    case ResolveStep(i, outcome, now) => ResolveHuman(p, i, outcome, now)
    case StopStep => Stop(p)
  }

  predicate LegalRun(p: Plan, steps: seq<Step>, c: Config)
    decreases |steps|
  {
    steps == [] || (Legal(p, steps[0]) && LegalRun(Apply(p, steps[0], c), steps[1..], c))
  }

  function RunSteps(p: Plan, steps: seq<Step>, c: Config): Plan
    decreases |steps|
  {
    if steps == [] then p else RunSteps(Apply(p, steps[0], c), steps[1..], c)
  }

  lemma StepKeepsInv(p: Plan, step: Step, c: Config)
    requires PlanInv(p, c.maxAttempts) && Legal(p, step)
    ensures PlanInv(Apply(p, step, c), c.maxAttempts)
  {
    match step
    case StartStep => StartKeepsInv(p, c.maxAttempts);
    case DispatchStep(now) => DispatchKeepsInv(p, now, c);
    case ClaimStep(i, now) => ClaimKeepsInv(p, i, now, c.maxAttempts);
    case PersistStep(claim, result, now) => PersistKeepsInv(p, claim, result, now, c);
    case RecoverStep(i, k, now) => RecoverKeepsInv(p, i, k, now, c);
    case ApproveStep(i) => ApproveKeepsInv(p, i, c.maxAttempts);
    case ResolveStep(i, outcome, now) => ResolveKeepsInv(p, i, outcome, now, c.maxAttempts);
    case StopStep => StopKeepsInv(p, c.maxAttempts);
  }

  /** Every interleaving of every step keeps the plan's invariant. */
  lemma {:induction false} RunKeepsInv(p: Plan, steps: seq<Step>, c: Config)
    requires PlanInv(p, c.maxAttempts) && LegalRun(p, steps, c)
    ensures PlanInv(RunSteps(p, steps, c), c.maxAttempts)
    decreases |steps|
  {
    if steps != [] {
      StepKeepsInv(p, steps[0], c);
      RunKeepsInv(Apply(p, steps[0], c), steps[1..], c);
    }
  }

  // ---- Fencing ----

  /** An invocation has at most one running run, its latest; in a running plan it runs exactly then. */
  lemma OneRunningRun(p: Plan, i: nat, maxAttempts: nat)
    requires PlanInv(p, maxAttempts) && i < |p.invocations|
    ensures forall j, k :: HasRunning(p, i, j) && HasRunning(p, i, k) ==> j == k == |p.invocations[i].runs| - 1
    ensures p.status == PlanRunning ==> (p.invocations[i].status == RUNNING <==> LastIs(p.invocations[i], RunRunning))
  {
    var v := p.invocations[i];
    assert InvocationInv(v, p.status == PlanRunning, maxAttempts);
    forall k | HasRunning(p, i, k) ensures k == |v.runs| - 1 {
      OnlyLatestRuns(v, k, p.status == PlanRunning, maxAttempts);
    }
  }

  /** Neither a result nor a recovery of a superseded run changes anything. */
  lemma SupersededRunIsFenced(p: Plan, claim: Claim, result: ExecutionResult, now: int, c: Config)
    requires PlanInv(p, c.maxAttempts) && ClaimFits(p, claim)
    requires claim.run < |p.invocations[claim.invocation].runs| - 1
    ensures Persist(p, claim, result, now, c) == p
    ensures RecoverStaleRun(p, claim.invocation, claim.run, now, c) == p
  {
    assert InvocationInv(p.invocations[claim.invocation], p.status == PlanRunning, c.maxAttempts);
  }

  // ---- History ----

  /** Runs are only added, and a run that ended keeps its record. */
  ghost predicate RunsGrow(v: Invocation, w: Invocation) {
    && |v.runs| <= |w.runs|
    && (forall k :: 0 <= k < |v.runs| ==> w.runs[k].attempt == v.runs[k].attempt && w.runs[k].startedAt == v.runs[k].startedAt)
    && (forall k :: 0 <= k < |v.runs| && v.runs[k].status != RunRunning ==> w.runs[k] == v.runs[k])
  }

  /** A terminal status is final. */
  ghost predicate Advances(p: Plan, q: Plan) {
    && |q.invocations| == |p.invocations| && q.dependencies == p.dependencies && q.maxParallelism == p.maxParallelism
    && (p.status !in {PlanPlanned, PlanRunning} ==> q.status == p.status)
    && (forall i :: 0 <= i < |p.invocations| ==> RunsGrow(p.invocations[i], q.invocations[i]))
    && (forall i :: 0 <= i < |p.invocations| && Terminal(p.invocations[i].status) ==> q.invocations[i].status == p.invocations[i].status)
  }

  lemma SetAdvances(p: Plan, i: nat, v: Invocation)
    requires i < |p.invocations| && RunsGrow(p.invocations[i], v)
    requires Terminal(p.invocations[i].status) ==> v.status == p.invocations[i].status
    ensures Advances(p, SetInvocation(p, i, v))
  {}

  lemma StatesAdvance(p: Plan, st: seq<InvocationStatus>, status: PlanStatus)
    requires |st| == |p.invocations|
    requires forall i :: 0 <= i < |st| && Terminal(p.invocations[i].status) ==> st[i] == p.invocations[i].status
    requires p.status !in {PlanPlanned, PlanRunning} ==> status == p.status
    ensures Advances(p, WithStates(p, st).(status := status))
  {}

  lemma FailPlanAdvances(p: Plan, failed: nat)
    ensures Advances(p, FailPlan(p, failed))
  {
    StatesAdvance(p, FailedStates(States(p), failed), if p.status == PlanRunning then PlanFailed else p.status);
  }

  lemma FinishAdvances(p: Plan, i: nat, k: nat, status: RunStatus, outcome: Option<string>, now: int, next: InvocationStatus)
    requires HasRunning(p, i, k) && (Terminal(p.invocations[i].status) ==> next == p.invocations[i].status)
    ensures Advances(p, SetInvocation(p, i, FinishRun(p.invocations[i], k, status, outcome, now).(status := next)))
  {
    SetAdvances(p, i, FinishRun(p.invocations[i], k, status, outcome, now).(status := next));
  }

  lemma AfterFailureAdvances(p: Plan, i: nat, k: nat, retry: bool, now: int)
    requires HasRunning(p, i, k) && p.invocations[i].status == RUNNING
    ensures Advances(p, AfterFailure(p, i, k, retry, now))
  {
    var next := if retry then READY else FAILED;
    var outcome := p.invocations[i].runs[k].outcome;
    FinishAdvances(p, i, k, RunFailed, outcome, now, next);
    var q := SetInvocation(p, i, FinishRun(p.invocations[i], k, RunFailed, outcome, now).(status := next));
    if !retry && p.invocations[i].failure == FAIL_PLAN {
      FailPlanAdvances(q, i);
      AdvancesTransitive(p, q, FailPlan(q, i));
    }
  }

  lemma PersistAdvances(p: Plan, claim: Claim, result: ExecutionResult, now: int, c: Config)
    ensures Advances(p, Persist(p, claim, result, now, c))
  {
    var i, k := claim.invocation, claim.run;
    if HasRunning(p, i, k) {
      var v := p.invocations[i];
      var outcome := v.runs[k].outcome;
      if p.status != PlanRunning || v.status != RUNNING {
        FinishAdvances(p, i, k, RunCanceled, outcome, now, v.status);
      } else {
        match result
        case ResultWaiting => FinishAdvances(p, i, k, RunWaiting, outcome, now, WAITING_FOR_USAGE_CAPACITY);
        case ResultBlocked => FinishAdvances(p, i, k, RunBlocked, outcome, now, BLOCKED_INSUFFICIENT_USAGE);
        case ResultCompleted(o) => FinishAdvances(p, i, k, RunCompleted, o, now, COMPLETED);
        case ResultFailed(retryable) => AfterFailureAdvances(p, i, k, retryable && claim.attempt < c.maxAttempts, now);
      }
    }
  }

  lemma RecoverAdvances(p: Plan, i: nat, k: nat, now: int, c: Config)
    ensures Advances(p, RecoverStaleRun(p, i, k, now, c))
  {
    if HasRunning(p, i, k) {
      var v := p.invocations[i];
      if p.status != PlanRunning || v.status != RUNNING {
        FinishAdvances(p, i, k, RunCanceled, v.runs[k].outcome, now, v.status);
      } else {
        AfterFailureAdvances(p, i, k, v.runs[k].attempt < c.maxAttempts, now);
      }
    }
  }

  lemma DecidedAdvances(p: Plan, now: int, c: Config, status: PlanStatus)
    requires p.status == PlanRunning
    ensures Advances(p, WithStates(p, Decided(p, now, c)).(status := status))
  {
    var st := Decided(p, now, c);
    forall i | 0 <= i < |st| && Terminal(p.invocations[i].status) ensures st[i] == p.invocations[i].status {
      DecidedMoves(p, now, c, i);
    }
    StatesAdvance(p, st, status);
  }

  lemma ClosingAdvances(q: Plan)
    requires q.status == PlanRunning
    ensures Advances(q, Closing(q).0)
  {
    FailPlanAdvances(q, FirstFatal(q, States(q), 0));
  }

  lemma DispatchAdvances(p: Plan, now: int, c: Config)
    ensures Advances(p, Dispatch(p, now, c).0)
  {
    if p.status == PlanRunning {
      var q := WithStates(p, Decided(p, now, c));
      DecidedAdvances(p, now, c, PlanRunning);
      assert q.(status := PlanRunning) == q;
      ClosingAdvances(q);
      AdvancesTransitive(p, q, Closing(q).0);
    }
  }

  lemma StartAdvances(p: Plan)
    ensures Advances(p, Start(p))
  {}

  lemma StopAdvances(p: Plan)
    ensures Advances(p, Stop(p))
  {
    StatesAdvance(p, FailedStates(States(p), |p.invocations|), if p.status == PlanPlanned || p.status == PlanRunning then PlanCanceled else p.status);
  }

  lemma ClaimAdvances(p: Plan, i: nat, now: int)
    ensures Advances(p, ClaimInvocation(p, i, now).0)
  {
    if ClaimInvocation(p, i, now).1.Some? { SetAdvances(p, i, ClaimInvocation(p, i, now).0.invocations[i]); }
  }

  lemma ApprovalAdvances(p: Plan, i: nat, outcome: string, now: int)
    ensures Advances(p, Approve(p, i)) && Advances(p, ResolveHuman(p, i, outcome, now))
  {
    if Approve(p, i) != p { SetAdvances(p, i, Approve(p, i).invocations[i]); }
    if ResolveHuman(p, i, outcome, now) != p { SetAdvances(p, i, ResolveHuman(p, i, outcome, now).invocations[i]); }
  }

  lemma StepAdvances(p: Plan, step: Step, c: Config)
    ensures Advances(p, Apply(p, step, c))
  {
    match step
    case StartStep => StartAdvances(p);
    case DispatchStep(now) => DispatchAdvances(p, now, c);
    case ClaimStep(i, now) => ClaimAdvances(p, i, now);
    case PersistStep(claim, result, now) => PersistAdvances(p, claim, result, now, c);
    case RecoverStep(i, k, now) => RecoverAdvances(p, i, k, now, c);
    case ApproveStep(i) => ApprovalAdvances(p, i, "", 0);
    case ResolveStep(i, outcome, now) => ApprovalAdvances(p, i, outcome, now);
    case StopStep => StopAdvances(p);
  }

  lemma AdvancesTransitive(p: Plan, q: Plan, r: Plan)
    requires Advances(p, q) && Advances(q, r)
    ensures Advances(p, r)
  {
    forall i | 0 <= i < |p.invocations| ensures RunsGrow(p.invocations[i], r.invocations[i]) {
      assert RunsGrow(p.invocations[i], q.invocations[i]) && RunsGrow(q.invocations[i], r.invocations[i]);
    }
  }

  /** Over every run, histories only grow and terminal plans and invocations stay as they are. */
  lemma {:induction false} RunAdvances(p: Plan, steps: seq<Step>, c: Config)
    ensures Advances(p, RunSteps(p, steps, c))
    decreases |steps|
  {
    if steps != [] {
      StepAdvances(p, steps[0], c);
      RunAdvances(Apply(p, steps[0], c), steps[1..], c);
      AdvancesTransitive(p, Apply(p, steps[0], c), RunSteps(p, steps, c));
    }
  }

  /** Once a run has ended, no later report on it changes the plan, whatever happened in between. */
  lemma LateReportChangesNothing(p: Plan, claim: Claim, steps: seq<Step>, result: ExecutionResult, now: int, c: Config)
    requires ClaimFits(p, claim) && p.invocations[claim.invocation].runs[claim.run].status != RunRunning
    ensures var q := RunSteps(p, steps, c);
            && Persist(q, claim, result, now, c) == q
            && RecoverStaleRun(q, claim.invocation, claim.run, now, c) == q
  {
    RunAdvances(p, steps, c);
    assert RunsGrow(p.invocations[claim.invocation], RunSteps(p, steps, c).invocations[claim.invocation]);
  }

  // ---- Bounded work ----

  function Usage(): Run -> int { (r: Run) => if r.status == RunWaiting || r.status == RunBlocked then 1 else 0 }

  function Failures(): Run -> int { (r: Run) => if r.status == RunFailed then 1 else 0 }

  function RunsIn(): Invocation -> int { (v: Invocation) => |v.runs| }

  function WaitsIn(): Invocation -> int { (v: Invocation) => Sum(v.runs, Usage()) }

  function TotalRuns(p: Plan): int { Sum(p.invocations, RunsIn()) }

  function TotalWaits(p: Plan): int { Sum(p.invocations, WaitsIn()) }

  /** Among the first n retried runs, those that failed have attempts below the limit. */
  lemma {:induction false} RetriesAreBounded(v: Invocation, n: nat, maxAttempts: nat)
    requires n <= |v.runs| && maxAttempts > 0
    requires forall k :: 0 <= k < n ==> v.runs[k].attempt == k + 1 && RetryRun(v.runs[k], maxAttempts)
    ensures n == Sum(v.runs[..n], Usage()) + Sum(v.runs[..n], Failures())
    ensures 0 <= Sum(v.runs[..n], Failures()) <= Min(n, maxAttempts - 1)
  {
    if n > 0 {
      RetriesAreBounded(v, n - 1, maxAttempts);
      SumTake(v.runs, n - 1, Usage());
      SumTake(v.runs, n - 1, Failures());
    }
  }

  /** Attempts of one invocation: at most maxAttempts of them fail, and all others but one waited for usage. */
  lemma AttemptsAreBounded(v: Invocation, planRuns: bool, maxAttempts: nat)
    requires InvocationInv(v, planRuns, maxAttempts) && maxAttempts > 0
    ensures |v.runs| <= maxAttempts + Sum(v.runs, Usage())
    ensures Sum(v.runs, Failures()) <= maxAttempts
    ensures forall k :: 0 <= k < |v.runs| ==> v.runs[k].attempt == k + 1
  {
    if v.runs != [] {
      var n := |v.runs| - 1;
      RetriesAreBounded(v, n, maxAttempts);
      SumTake(v.runs, n, Usage());
      SumTake(v.runs, n, Failures());
      assert v.runs[..n + 1] == v.runs;
    }
  }

  lemma {:induction false} RunsAreBounded(vs: seq<Invocation>, planRuns: bool, maxAttempts: nat)
    requires maxAttempts > 0 && forall i :: 0 <= i < |vs| ==> InvocationInv(vs[i], planRuns, maxAttempts)
    ensures Sum(vs, RunsIn()) <= |vs| * maxAttempts + Sum(vs, WaitsIn())
  {
    if vs != [] {
      var n := |vs| - 1;
      RunsAreBounded(vs[..n], planRuns, maxAttempts);
      AttemptsAreBounded(vs[n], planRuns, maxAttempts);
      assert |vs| * maxAttempts == n * maxAttempts + maxAttempts;
    }
  }

  /** Claims that were granted, and results that sent an invocation to wait for usage. */
  function Claimed(p: Plan, step: Step): nat {
    if step.ClaimStep? && ClaimInvocation(p, step.i, step.now).1.Some? then 1 else 0
  }

  function Waited(p: Plan, step: Step): nat {
    if step.PersistStep? && (step.result.ResultWaiting? || step.result.ResultBlocked?)
       && HasRunning(p, step.claim.invocation, step.claim.run)
       && p.status == PlanRunning && p.invocations[step.claim.invocation].status == RUNNING then 1 else 0
  }

  function Claims(p: Plan, steps: seq<Step>, c: Config): nat
    decreases |steps|
  {
    if steps == [] then 0 else Claimed(p, steps[0]) + Claims(Apply(p, steps[0], c), steps[1..], c)
  }

  function Waits(p: Plan, steps: seq<Step>, c: Config): nat
    decreases |steps|
  {
    if steps == [] then 0 else Waited(p, steps[0]) + Waits(Apply(p, steps[0], c), steps[1..], c)
  }

  /** A step that only rewrites statuses. */
  lemma SameRuns(p: Plan, q: Plan)
    requires |q.invocations| == |p.invocations|
    requires forall i :: 0 <= i < |p.invocations| ==> q.invocations[i].runs == p.invocations[i].runs
    ensures TotalRuns(q) == TotalRuns(p) && TotalWaits(q) == TotalWaits(p)
  {
    SumPointwise(q.invocations, p.invocations, RunsIn());
    SumPointwise(q.invocations, p.invocations, WaitsIn());
  }

  lemma FinishCounts(p: Plan, i: nat, k: nat, status: RunStatus, outcome: Option<string>, now: int, next: InvocationStatus)
    requires HasRunning(p, i, k)
    ensures var q := SetInvocation(p, i, FinishRun(p.invocations[i], k, status, outcome, now).(status := next));
            && TotalRuns(q) == TotalRuns(p)
            && TotalWaits(q) == TotalWaits(p) + if status == RunWaiting || status == RunBlocked then 1 else 0
  {
    var v := p.invocations[i];
    var w := FinishRun(v, k, status, outcome, now).(status := next);
    SumUpdate(v.runs, k, w.runs[k], Usage());
    SumUpdate(p.invocations, i, w, RunsIn());
    SumUpdate(p.invocations, i, w, WaitsIn());
  }

  lemma AfterFailureCounts(p: Plan, i: nat, k: nat, retry: bool, now: int)
    requires HasRunning(p, i, k)
    ensures TotalRuns(AfterFailure(p, i, k, retry, now)) == TotalRuns(p)
    ensures TotalWaits(AfterFailure(p, i, k, retry, now)) == TotalWaits(p)
  {
    var next := if retry then READY else FAILED;
    var outcome := p.invocations[i].runs[k].outcome;
    FinishCounts(p, i, k, RunFailed, outcome, now, next);
    var q := SetInvocation(p, i, FinishRun(p.invocations[i], k, RunFailed, outcome, now).(status := next));
    SameRuns(q, FailPlan(q, i));
  }

  lemma PersistCounts(p: Plan, claim: Claim, result: ExecutionResult, now: int, c: Config)
    ensures TotalRuns(Persist(p, claim, result, now, c)) == TotalRuns(p)
    ensures TotalWaits(Persist(p, claim, result, now, c)) == TotalWaits(p) + Waited(p, PersistStep(claim, result, now))
  {
    var i, k := claim.invocation, claim.run;
    if HasRunning(p, i, k) {
      var v := p.invocations[i];
      var outcome := v.runs[k].outcome;
      if p.status != PlanRunning || v.status != RUNNING {
        FinishCounts(p, i, k, RunCanceled, outcome, now, v.status);
      } else {
        match result
        case ResultWaiting => FinishCounts(p, i, k, RunWaiting, outcome, now, WAITING_FOR_USAGE_CAPACITY);
        case ResultBlocked => FinishCounts(p, i, k, RunBlocked, outcome, now, BLOCKED_INSUFFICIENT_USAGE);
        case ResultCompleted(o) => FinishCounts(p, i, k, RunCompleted, o, now, COMPLETED);
        case ResultFailed(retryable) => AfterFailureCounts(p, i, k, retryable && claim.attempt < c.maxAttempts, now);
      }
    }
  }

  lemma RecoverCounts(p: Plan, i: nat, k: nat, now: int, c: Config)
    ensures TotalRuns(RecoverStaleRun(p, i, k, now, c)) == TotalRuns(p)
    ensures TotalWaits(RecoverStaleRun(p, i, k, now, c)) == TotalWaits(p)
  {
    if HasRunning(p, i, k) {
      var v := p.invocations[i];
      if p.status != PlanRunning || v.status != RUNNING {
        FinishCounts(p, i, k, RunCanceled, v.runs[k].outcome, now, v.status);
      } else {
        AfterFailureCounts(p, i, k, v.runs[k].attempt < c.maxAttempts, now);
      }
    }
  }

  lemma AddedRunCounts(p: Plan, i: nat, r: Run, next: InvocationStatus)
    requires i < |p.invocations| && r.status != RunWaiting && r.status != RunBlocked
    ensures var q := SetInvocation(p, i, p.invocations[i].(status := next, runs := p.invocations[i].runs + [r]));
            TotalRuns(q) == TotalRuns(p) + 1 && TotalWaits(q) == TotalWaits(p)
  {
    var v := p.invocations[i];
    var w := v.(status := next, runs := v.runs + [r]);
    SumLast(v.runs, r, Usage());
    SumUpdate(p.invocations, i, w, RunsIn());
    SumUpdate(p.invocations, i, w, WaitsIn());
  }

  lemma ClosingCounts(q: Plan)
    ensures TotalRuns(Closing(q).0) == TotalRuns(q) && TotalWaits(Closing(q).0) == TotalWaits(q)
  {
    SameRuns(q, FailPlan(q, FirstFatal(q, States(q), 0)));
  }

  lemma DispatchCounts(p: Plan, now: int, c: Config)
    ensures TotalRuns(Dispatch(p, now, c).0) == TotalRuns(p) && TotalWaits(Dispatch(p, now, c).0) == TotalWaits(p)
  {
    if p.status == PlanRunning {
      SameRuns(p, WithStates(p, Decided(p, now, c)));
      ClosingCounts(WithStates(p, Decided(p, now, c)));
    }
  }

  lemma ClaimCounts(p: Plan, i: nat, now: int)
    ensures TotalRuns(ClaimInvocation(p, i, now).0) == TotalRuns(p) + Claimed(p, ClaimStep(i, now))
    ensures TotalWaits(ClaimInvocation(p, i, now).0) == TotalWaits(p)
  {
    if ClaimInvocation(p, i, now).1.Some? {
      AddedRunCounts(p, i, Run(LatestAttempt(p.invocations[i]) + 1, RunRunning, None, now, None), RUNNING);
    }
  }

  lemma ResolveCounts(p: Plan, i: nat, outcome: string, now: int)
    ensures TotalRuns(ResolveHuman(p, i, outcome, now)) >= TotalRuns(p)
    ensures TotalWaits(ResolveHuman(p, i, outcome, now)) == TotalWaits(p)
  {
    if ResolveHuman(p, i, outcome, now) != p {
      AddedRunCounts(p, i, Run(LatestAttempt(p.invocations[i]) + 1, RunCompleted, Some(outcome), now, Some(now)), COMPLETED);
    }
  }

  lemma StatusCounts(p: Plan, i: nat)
    ensures TotalRuns(Start(p)) == TotalRuns(p) && TotalWaits(Start(p)) == TotalWaits(p)
    ensures TotalRuns(Stop(p)) == TotalRuns(p) && TotalWaits(Stop(p)) == TotalWaits(p)
    ensures TotalRuns(Approve(p, i)) == TotalRuns(p) && TotalWaits(Approve(p, i)) == TotalWaits(p)
  {
    SameRuns(p, Start(p));
    SameRuns(p, Stop(p));
    SameRuns(p, Approve(p, i));
  }

  lemma StepCounts(p: Plan, step: Step, c: Config)
    ensures TotalRuns(Apply(p, step, c)) >= TotalRuns(p) + Claimed(p, step)
    ensures TotalWaits(Apply(p, step, c)) == TotalWaits(p) + Waited(p, step)
  {
    match step
    case ClaimStep(i, now) => ClaimCounts(p, i, now);
    case PersistStep(claim, result, now) => PersistCounts(p, claim, result, now, c);
    case RecoverStep(i, k, now) => RecoverCounts(p, i, k, now, c);
    case ResolveStep(i, outcome, now) => ResolveCounts(p, i, outcome, now);
    case StartStep => StatusCounts(p, 0);
    case DispatchStep(now) => DispatchCounts(p, now, c);
    case ApproveStep(i) => StatusCounts(p, i);
    case StopStep => StatusCounts(p, 0);
  }

  lemma {:induction false} RunCounts(p: Plan, steps: seq<Step>, c: Config)
    ensures TotalRuns(RunSteps(p, steps, c)) >= TotalRuns(p) + Claims(p, steps, c)
    ensures TotalWaits(RunSteps(p, steps, c)) == TotalWaits(p) + Waits(p, steps, c)
    decreases |steps|
  {
    if steps != [] {
      StepCounts(p, steps[0], c);
      RunCounts(Apply(p, steps[0], c), steps[1..], c);
    }
  }

  lemma FreshPlan(p: Plan, maxAttempts: nat)
    requires PlanInv(p, maxAttempts) && p.status == PlanPlanned
    ensures TotalRuns(p) == 0 && TotalWaits(p) == 0
  {
    forall i | 0 <= i < |p.invocations| ensures p.invocations[i].runs == [] {
      assert InvocationInv(p.invocations[i], false, maxAttempts) && States(p)[i] == PENDING;
    }
    SumZero(p.invocations, RunsIn());
    SumZero(p.invocations, WaitsIn());
  }

  /**
   * From its start, a plan of n invocations grants at most n * maxAttempts claims, and one more
   * for every result that reported missing usage, whatever crashes, races or repeats.
   */
  lemma WorkIsBounded(p: Plan, steps: seq<Step>, c: Config)
    requires PlanInv(p, c.maxAttempts) && p.status == PlanPlanned && ValidConfig(c) && LegalRun(p, steps, c)
    ensures Claims(p, steps, c) <= |p.invocations| * c.maxAttempts + Waits(p, steps, c)
  {
    var q := RunSteps(p, steps, c);
    FreshPlan(p, c.maxAttempts);
    RunKeepsInv(p, steps, c);
    RunAdvances(p, steps, c);
    RunCounts(p, steps, c);
    RunsAreBounded(q.invocations, q.status == PlanRunning, c.maxAttempts);
  }

  // ---- Progress ----

  lemma DeciderIsStable(p: Plan)
    ensures Stable(DeciderOf(p))
  {
    var decide := DeciderOf(p);
    forall i: nat, s, t | Extends(s, t) && decide(i, s) != STAY_PENDING ensures decide(i, t) == decide(i, s) {
      DecisionIsStable(p.invocations[i].join, p.dependencies, i, s, t, Outcomes(p));
    }
  }

  /** A dispatch decides the same invocations in whatever order they are visited. */
  lemma DispatchDecidesInAnyOrder(p: Plan, now: int, c: Config, order: seq<nat>)
    requires forall k :: 0 <= k < |order| ==> order[k] < |p.invocations|
    requires Fixpoint(DeciderOf(p), InOrder(DeciderOf(p), AutoFlags(p), Resumed(p, now, c), order))
    ensures Decided(p, now, c) == InOrder(DeciderOf(p), AutoFlags(p), Resumed(p, now, c), order)
  {
    DeciderIsStable(p);
    DispatchIgnoresOrder(DeciderOf(p), AutoFlags(p), Resumed(p, now, c), order);
  }

  /** Every dependency leads from a lower to a higher rank of the same plan. */
  ghost predicate Acyclic(p: Plan, rank: seq<nat>) {
    |rank| == |p.invocations| && forall d :: d in p.dependencies ==> d.from < |rank| && d.to < |rank| && rank[d.from] < rank[d.to]
  }

  lemma {:induction false} LowestPending(st: seq<InvocationStatus>, rank: seq<nat>, i: nat) returns (low: nat)
    requires |rank| == |st| && i < |st| && st[i] == PENDING
    ensures low < |st| && st[low] == PENDING
    ensures forall j :: 0 <= j < |st| && rank[j] < rank[low] ==> st[j] != PENDING
    decreases rank[i]
  {
    if j :| 0 <= j < |st| && rank[j] < rank[i] && st[j] == PENDING {
      low := LowestPending(st, rank, j);
    } else {
      low := i;
    }
  }

  predicate InHand(s: InvocationStatus) { !Terminal(s) && s != PENDING }

  lemma FixpointIsNotStuck(p: Plan, st: seq<InvocationStatus>, rank: seq<nat>)
    requires Acyclic(p, rank) && |st| == |p.invocations| && Fixpoint(DeciderOf(p), st) && !AllTerminal(st)
    ensures exists i :: 0 <= i < |st| && InHand(st[i])
  {
    var i :| 0 <= i < |st| && !Terminal(st[i]);
    if !InHand(st[i]) {
      var low := LowestPending(st, rank, i);
      if d :| d in p.dependencies && d.to == low && !Terminal(st[d.from]) {
        assert InHand(st[d.from]);
      } else {
        SettledSourcesDecide(p.invocations[low].join, p.dependencies, low, st, Outcomes(p));
        assert false;
      }
    }
  }

  /** In a plan without cycles a dispatch never leaves every open invocation pending. */
  lemma NoStuckPlan(p: Plan, now: int, c: Config, rank: seq<nat>)
    requires Acyclic(p, rank) && p.status == PlanRunning && Dispatch(p, now, c).0.status == PlanRunning
    ensures var st := States(Dispatch(p, now, c).0);
            exists i :: 0 <= i < |st| && InHand(st[i])
  {
    PassesReachFixpoint(DeciderOf(p), AutoFlags(p), Resumed(p, now, c), |p.invocations| + 1);
    FixpointIsNotStuck(p, Decided(p, now, c), rank);
  }

  lemma {:induction false} SomeReady(st: seq<InvocationStatus>, slots: nat)
    requires slots > 0 && READY in st
    ensures ReadyOnes(st, slots) != []
  {
    var n := |st| - 1;
    if st[n] != READY {
      assert st == st[..n] + [st[n]];
      SomeReady(st[..n], slots);
    }
  }

  lemma NoneRunning(p: Plan)
    requires forall i :: 0 <= i < |p.invocations| ==> p.invocations[i].status != RUNNING
    ensures RunningCount(p) == 0
  {
    SumZero(States(p), IsRunning());
  }

  /**
   * A plan that is still running after a dispatch has something running, waits for a user or for
   * usage, or the dispatch hands out an invocation that can be claimed at once.
   */
  lemma DispatchMakesProgress(p: Plan, now: int, c: Config, rank: seq<nat>)
    requires Acyclic(p, rank) && p.status == PlanRunning && p.maxParallelism > 0
    requires Dispatch(p, now, c).0.status == PlanRunning
    ensures Progresses(Dispatch(p, now, c).0, Dispatch(p, now, c).1)
  {
    NoStuckPlan(p, now, c, rank);
    ClosingHandsOut(WithStates(p, Decided(p, now, c)));
    HandedOutProgresses(Dispatch(p, now, c).0, Dispatch(p, now, c).1);
  }

  /** Something runs or waits, or the first invocation handed out can be claimed at once. */
  ghost predicate Progresses(q: Plan, ready: seq<nat>) {
    || (exists i :: 0 <= i < |q.invocations| && Occupied(q.invocations[i].status))
    || (ready != [] && forall at :: ClaimInvocation(q, ready[0], at).1.Some?)
  }

  predicate HandedOut(q: Plan, ready: seq<nat>) { ready == ReadyOnes(States(q), Max(0, q.maxParallelism - RunningCount(q))) }

  lemma ClosingHandsOut(q: Plan)
    requires Closing(q).0.status == PlanRunning
    ensures Closing(q).0 == q && HandedOut(q, Closing(q).1)
  {}

  lemma HandedOutProgresses(q: Plan, ready: seq<nat>)
    requires q.status == PlanRunning && q.maxParallelism > 0 && HandedOut(q, ready)
    requires exists i :: 0 <= i < |States(q)| && InHand(States(q)[i])
    ensures Progresses(q, ready)
  {
    if forall j :: 0 <= j < |q.invocations| ==> !Occupied(q.invocations[j].status) {
      var st := States(q);
      var i :| 0 <= i < |st| && InHand(st[i]);
      assert st[i] == READY;
      NoneRunning(q);
      SomeReady(st, q.maxParallelism);
    }
  }

  predicate Occupied(s: InvocationStatus) {
    s in {RUNNING, WAITING_APPROVAL, WAITING_FOR_USAGE_CAPACITY, BLOCKED_INSUFFICIENT_USAGE}
  }

  /** Everything a dispatch hands out fits beside what is already running. */
  lemma DispatchedFits(p: Plan, now: int, c: Config)
    requires PlanInv(p, c.maxAttempts)
    ensures var (q, ready) := Dispatch(p, now, c); ready != [] ==> RunningCount(q) + |ready| <= q.maxParallelism
  {
    DispatchKeepsInv(p, now, c);
  }

  // ---- Usage back-off ----

  /**
   * A waiting invocation is never rechecked before the base delay, and always may be after the maximum; in between
   * it is after the base delay doubled with every attempt before the last, eight times at most.
   */
  lemma RecheckWindow(v: Invocation, now: int, c: Config)
    requires ValidConfig(c) && v.status in {WAITING_FOR_USAGE_CAPACITY, BLOCKED_INSUFFICIENT_USAGE}
    requires v.runs != [] && v.runs[|v.runs| - 1].finishedAt.Some?
    ensures var waited := now - v.runs[|v.runs| - 1].finishedAt.value;
            && (Resumes(v, now, c) ==> waited >= c.usageRecheckBaseMs)
            && (waited >= c.usageRecheckMaxMs ==> Resumes(v, now, c))
            && (waited < c.usageRecheckMaxMs ==>
                  (Resumes(v, now, c) <==> waited >= c.usageRecheckBaseMs * Pow2(Max(0, Min(v.runs[|v.runs| - 1].attempt - 1, 8)))))
  {
    var attempt := v.runs[|v.runs| - 1].attempt;
    BackoffIsBounded(attempt, attempt, 8, c.usageRecheckBaseMs, c.usageRecheckMaxMs);
  }
}
