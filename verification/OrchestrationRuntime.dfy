/**
 * The worker's transactions on one plan as they run (apps/worker/src/orchestration.ts), each
 * proved to leave exactly the plan its function in module PlanRuntime describes.
 */
module OrchestrationRuntime {
  import opened Basics
  import opened Readiness
  import opened PassLoop
  import opened PlanRuntime
  import opened PlanInvariant

  class OrchestrationRuntime {
    const config: Config
    const maxParallelism: nat
    const dependencies: seq<Dependency>
    var status: PlanStatus
    var invocations: seq<Invocation>

    ghost function State(): Plan
      reads this
    {
      Plan(status, maxParallelism, invocations, dependencies)
    }

    ghost predicate Valid()
      reads this
    {
      ValidConfig(config) && PlanInv(State(), config.maxAttempts)
    }

    constructor (config: Config, p: Plan)
      requires ValidConfig(config) && PlanInv(p, config.maxAttempts)
      ensures Valid() && State() == p && this.config == config
    {
      this.config, maxParallelism, dependencies := config, p.maxParallelism, p.dependencies;
      status, invocations := p.status, p.invocations;
    }

    method DispatchPlan(now: int) returns (ready: seq<nat>)
      requires Valid()
      modifies this
      ensures Valid() && (State(), ready) == Dispatch(old(State()), now, config)
    {
      DispatchKeepsInv(State(), now, config);
      ready := DispatchRows(now);
    }

    method DispatchRows(now: int) returns (ready: seq<nat>)
      modifies this
      ensures (State(), ready) == Dispatch(old(State()), now, config)
    {
      if status != PlanRunning { return []; }
      var stateById := DecideStatuses(now);
      ready := CloseOrHandOut(stateById);
    }

    /** The part of a dispatch that resumes and decides invocations. */
    method DecideStatuses(now: int) returns (stateById: seq<InvocationStatus>)
      modifies this`invocations
      ensures stateById == Decided(old(State()), now, config)
      ensures State() == WithStates(old(State()), stateById)
    {
      var current := Plan(status, maxParallelism, invocations, dependencies);
      stateById := ResumeWaiting(now);
      stateById := RunPasses(DeciderOf(current), AutoFlags(current), stateById);
      WriteStatuses(stateById);
    }

    /** The part of a dispatch that ends the plan or hands out ready invocations. */
    method CloseOrHandOut(stateById: seq<InvocationStatus>) returns (ready: seq<nat>)
      requires stateById == States(State())
      modifies this
      ensures (State(), ready) == Closing(old(State()))
    {
      var current := Plan(status, maxParallelism, invocations, dependencies);
      var fatal := FirstFatal(current, stateById, 0);
      if fatal < |stateById| {
        FailNow(fatal);
        return [];
      }
      if AllTerminal(stateById) {
        status := if AnyBad(stateById) then PlanPartial else PlanCompleted;
        return [];
      }
      var running := RunningCount(current);
      ready := ReadyOnes(stateById, Max(0, maxParallelism - running));
    }

    /** The loop that puts usage-waiting invocations back once their back-off is over. */
    method ResumeWaiting(now: int) returns (stateById: seq<InvocationStatus>)
      ensures stateById == Resumed(State(), now, config)
    {
      stateById := [];
      var i := 0;
      while i < |invocations|
        invariant 0 <= i <= |invocations|
        invariant stateById == Resumed(State(), now, config)[..i]
      {
        var next := invocations[i].status;
        if next == WAITING_FOR_USAGE_CAPACITY || next == BLOCKED_INSUFFICIENT_USAGE {
          if invocations[i].runs != [] {
            var latestRun := invocations[i].runs[|invocations[i].runs| - 1];
            if latestRun.finishedAt.Some? {
              var retryAfterMs := UsageBackoffMs(latestRun.attempt, config.usageRecheckBaseMs, config.usageRecheckMaxMs);
              if now - latestRun.finishedAt.value >= retryAfterMs { next := READY; }
            }
          }
        }
        stateById := stateById + [next];
        i := i + 1;
      }
      assert Resumed(State(), now, config)[..i] == Resumed(State(), now, config);
    }

    method WriteStatuses(stateById: seq<InvocationStatus>)
      requires |stateById| == |invocations|
      modifies this`invocations
      ensures State() == WithStates(old(State()), stateById)
    {
      ghost var p := State();
      var i := 0;
      while i < |invocations|
        invariant 0 <= i <= |invocations| == |p.invocations|
        invariant forall k :: 0 <= k < i ==> invocations[k] == p.invocations[k].(status := stateById[k])
        invariant forall k :: i <= k < |invocations| ==> invocations[k] == p.invocations[k]
      {
        invocations := invocations[i := invocations[i].(status := stateById[i])];
        i := i + 1;
      }
      assert invocations == WithStates(p, stateById).invocations;
    }

    /** failPlan: one statement for the plan and one for the active invocations. */
    method FailNow(failed: nat)
      modifies this
      ensures State() == FailPlan(old(State()), failed)
    {
      var current := Plan(status, maxParallelism, invocations, dependencies);
      if status == PlanRunning { status := PlanFailed; }
      WriteStatuses(FailedStates(States(current), failed));
    }

    method ClaimInvocation(i: nat, now: int) returns (claim: Option<Claim>)
      requires Valid()
      modifies this
      ensures Valid() && (State(), claim) == PlanRuntime.ClaimInvocation(old(State()), i, now)
      ensures claim.Some? ==> ClaimFits(State(), claim.value)
    {
      ClaimKeepsInv(State(), i, now, config.maxAttempts);
      if status != PlanRunning { return None; }
      if i >= |invocations| || invocations[i].status != READY { return None; }
      var runningCount := RunningCount(Plan(status, maxParallelism, invocations, dependencies));
      if runningCount >= maxParallelism { return None; }
      var invocation := invocations[i];
      var attempt := LatestAttempt(invocation) + 1;
      claim := Some(Claim(i, |invocation.runs|, attempt));
      invocations := invocations[i := invocation.(status := RUNNING, runs := invocation.runs + [Run(attempt, RunRunning, None, now, None)])];
    }

    /** Ends a run and moves its invocation. */
    method EndRun(i: nat, k: nat, runStatus: RunStatus, outcome: Option<string>, now: int, next: InvocationStatus)
      requires i < |invocations| && k < |invocations[i].runs|
      modifies this`invocations
      ensures State() == SetInvocation(old(State()), i, FinishRun(old(invocations)[i], k, runStatus, outcome, now).(status := next))
    {
      var invocation := invocations[i];
      var run := invocation.runs[k].(status := runStatus, outcome := outcome, finishedAt := Some(now));
      invocations := invocations[i := invocation.(runs := invocation.runs[k := run], status := next)];
    }

    method PersistExecutionResult(claim: Claim, result: ExecutionResult, now: int)
      requires Valid() && ClaimFits(State(), claim)
      modifies this
      ensures Valid() && State() == Persist(old(State()), claim, result, now, config)
    {
      PersistKeepsInv(State(), claim, result, now, config);
      var i, k := claim.invocation, claim.run;
      var run := invocations[i].runs[k];
      if run.status != RunRunning { return; }
      if status != PlanRunning || invocations[i].status != RUNNING {
        EndRun(i, k, RunCanceled, run.outcome, now, invocations[i].status);
        return;
      }
      match result
      case ResultWaiting => EndRun(i, k, RunWaiting, run.outcome, now, WAITING_FOR_USAGE_CAPACITY);
      case ResultBlocked => EndRun(i, k, RunBlocked, run.outcome, now, BLOCKED_INSUFFICIENT_USAGE);
      case ResultCompleted(outcome) => EndRun(i, k, RunCompleted, outcome, now, COMPLETED);
      case ResultFailed(retryable) => EndFailed(i, k, retryable && claim.attempt < config.maxAttempts, now);
    }

    method EndFailed(i: nat, k: nat, retry: bool, now: int)
      requires i < |invocations| && k < |invocations[i].runs|
      modifies this
      ensures State() == AfterFailure(old(State()), i, k, retry, now)
    {
      EndRun(i, k, RunFailed, invocations[i].runs[k].outcome, now, if retry then READY else FAILED);
      if !retry && invocations[i].failure == FAIL_PLAN { FailNow(i); }
    }

    method RecoverStaleRun(i: nat, k: nat, now: int) returns (recovered: bool)
      requires Valid() && i < |invocations| && k < |invocations[i].runs|
      modifies this
      ensures Valid() && State() == PlanRuntime.RecoverStaleRun(old(State()), i, k, now, config)
      ensures recovered <==> HasRunning(old(State()), i, k) && !HasRunning(State(), i, k)
    {
      RecoverKeepsInv(State(), i, k, now, config);
      var run := invocations[i].runs[k];
      if run.status != RunRunning { return false; }
      if now - run.startedAt < config.staleAfterMs { return false; }
      if status != PlanRunning || invocations[i].status != RUNNING {
        EndRun(i, k, RunCanceled, run.outcome, now, invocations[i].status);
        return true;
      }
      EndFailed(i, k, run.attempt < config.maxAttempts, now);
      return true;
    }
  }
}
