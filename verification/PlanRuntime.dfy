/**
 * One execution plan and the locked transactions that move it, as values:
 * apps/worker/src/orchestration.ts, and the steps of apps/api/src/orchestration/orchestration.service.ts
 * that act on the same rows.
 */
module PlanRuntime {
  import opened Basics
  import opened Readiness
  import opened PassLoop

  datatype RunStatus = RunRunning | RunCompleted | RunFailed | RunWaiting | RunBlocked | RunCanceled

  datatype Run = Run(attempt: nat, status: RunStatus, outcome: Option<string>, startedAt: int, finishedAt: Option<int>)

  datatype ApprovalPolicy = AUTO | USER_CONFIRMATION | HUMAN_APPROVAL

  datatype FailurePolicy = FAIL_PLAN | CONTINUE

  /** An invocation with its runs in attempt order. */
  datatype Invocation = Invocation(approval: ApprovalPolicy, failure: FailurePolicy, join: JoinPolicy, evaluator: bool,
                                   status: InvocationStatus, runs: seq<Run>)

  datatype PlanStatus = PlanPlanned | PlanRunning | PlanPartial | PlanCompleted | PlanFailed | PlanCanceled

  /** A plan with its invocations in sequence order; an invocation is named by its position. */
  datatype Plan = Plan(status: PlanStatus, maxParallelism: nat, invocations: seq<Invocation>, dependencies: seq<Dependency>)

  datatype Config = Config(maxAttempts: nat, staleAfterMs: nat, usageRecheckBaseMs: nat, usageRecheckMaxMs: nat)

  predicate ValidConfig(c: Config) {
    c.maxAttempts > 0 && c.staleAfterMs > 0 && 0 < c.usageRecheckBaseMs <= c.usageRecheckMaxMs
  }

  datatype Claim = Claim(invocation: nat, run: nat, attempt: nat)

  datatype ExecutionResult = ResultCompleted(outcome: Option<string>) | ResultWaiting | ResultBlocked | ResultFailed(retryable: bool)

  // ---- Columns ----

  function States(p: Plan): (st: seq<InvocationStatus>)
    ensures |st| == |p.invocations| && forall i :: 0 <= i < |st| ==> st[i] == p.invocations[i].status
  {
    seq(|p.invocations|, i requires 0 <= i < |p.invocations| => p.invocations[i].status)
  }

  function Outcomes(p: Plan): (o: seq<Option<string>>)
    ensures |o| == |p.invocations| && forall i :: 0 <= i < |o| ==> o[i] == LatestOutcome(p.invocations[i])
  {
    seq(|p.invocations|, i requires 0 <= i < |p.invocations| => LatestOutcome(p.invocations[i]))
  }

  function AutoFlags(p: Plan): (a: seq<bool>)
    ensures |a| == |p.invocations| && forall i :: 0 <= i < |a| ==> a[i] == (p.invocations[i].approval == AUTO)
  {
    seq(|p.invocations|, i requires 0 <= i < |p.invocations| => p.invocations[i].approval == AUTO)
  }

  function LatestOutcome(v: Invocation): Option<string> { if v.runs == [] then None else v.runs[|v.runs| - 1].outcome }

  function LatestAttempt(v: Invocation): nat { if v.runs == [] then 0 else v.runs[|v.runs| - 1].attempt }

  function WithStates(p: Plan, st: seq<InvocationStatus>): (q: Plan)
    requires |st| == |p.invocations|
    ensures |q.invocations| == |st| && States(q) == st
    ensures forall i :: 0 <= i < |st| ==> q.invocations[i] == p.invocations[i].(status := st[i])
  {
    p.(invocations := seq(|st|, i requires 0 <= i < |st| => p.invocations[i].(status := st[i])))
  }

  function SetInvocation(p: Plan, i: nat, v: Invocation): Plan
    requires i < |p.invocations|
  {
    p.(invocations := p.invocations[i := v])
  }

  function IsRunning(): InvocationStatus -> int { (s: InvocationStatus) => if s == RUNNING then 1 else 0 }

  function RunningCount(p: Plan): int { Sum(States(p), IsRunning()) }

  // ---- failPlan ----

  /** The failed invocation keeps its status; every other active invocation is canceled. */
  function FailedStates(st: seq<InvocationStatus>, failed: nat): (r: seq<InvocationStatus>)
    ensures |r| == |st|
    ensures forall i :: 0 <= i < |r| ==> r[i] == if i != failed && !Terminal(st[i]) then CANCELED else st[i]
  {
    seq(|st|, i requires 0 <= i < |st| => if i != failed && !Terminal(st[i]) then CANCELED else st[i])
  }

  function FailPlan(p: Plan, failed: nat): Plan {
    WithStates(p, FailedStates(States(p), failed)).(status := if p.status == PlanRunning then PlanFailed else p.status)
  }

  // ---- dispatchPlan ----

  function UsageBackoffMs(attempt: int, baseMs: nat, maxMs: nat): int { Backoff(attempt, 8, baseMs, maxMs) }

  predicate Resumes(v: Invocation, now: int, c: Config) {
    && (v.status == WAITING_FOR_USAGE_CAPACITY || v.status == BLOCKED_INSUFFICIENT_USAGE)
    && v.runs != []
    && var last := v.runs[|v.runs| - 1];
       last.finishedAt.Some?
       && now - last.finishedAt.value >= UsageBackoffMs(last.attempt, c.usageRecheckBaseMs, c.usageRecheckMaxMs)
  }

  function Resumed(p: Plan, now: int, c: Config): (st: seq<InvocationStatus>)
    ensures |st| == |p.invocations|
    ensures forall i :: 0 <= i < |st| ==> st[i] == if Resumes(p.invocations[i], now, c) then READY else p.invocations[i].status
  {
    seq(|p.invocations|, i requires 0 <= i < |p.invocations| =>
      if Resumes(p.invocations[i], now, c) then READY else p.invocations[i].status)
  }

  /** decideReadiness of the worker, over the statuses a dispatch has in hand. */
  function DeciderOf(p: Plan): Decider {
    (i: nat, st: seq<InvocationStatus>) =>
      if i < |p.invocations| && |st| == |p.invocations|
      then DecideReadiness(p.invocations[i].join, p.dependencies, i, st, Outcomes(p))
      else STAY_PENDING
  }

  function Decided(p: Plan, now: int, c: Config): (st: seq<InvocationStatus>)
    ensures |st| == |p.invocations|
  {
    Passes(DeciderOf(p), AutoFlags(p), Resumed(p, now, c), |p.invocations| + 1)
  }

  /** The first invocation that failed under FAIL_PLAN, or the number of invocations. */
  function FirstFatal(p: Plan, st: seq<InvocationStatus>, i: nat): (r: nat)
    requires |st| == |p.invocations| && i <= |st|
    ensures i <= r <= |st|
    ensures r < |st| ==> st[r] == FAILED && p.invocations[r].failure == FAIL_PLAN
    ensures forall k :: i <= k < r ==> !(st[k] == FAILED && p.invocations[k].failure == FAIL_PLAN)
    decreases |st| - i
  {
    if i == |st| || (st[i] == FAILED && p.invocations[i].failure == FAIL_PLAN) then i else FirstFatal(p, st, i + 1)
  }

  predicate AllTerminal(st: seq<InvocationStatus>) { forall i :: 0 <= i < |st| ==> Terminal(st[i]) }

  predicate AnyBad(st: seq<InvocationStatus>) { exists i :: 0 <= i < |st| && (st[i] == FAILED || st[i] == CANCELED) }

  /** The first READY invocations, at most `slots` of them. */
  function ReadyOnes(st: seq<InvocationStatus>, slots: nat): (r: seq<nat>)
    ensures forall k :: 0 <= k < |r| ==> r[k] < |st| && st[r[k]] == READY
    ensures |r| <= slots
  {
    if st == [] then []
    else
      var n := |st| - 1;
      var front := ReadyOnes(st[..n], slots);
      if st[n] == READY && |front| < slots then front + [n] else front
  }

  /** How a dispatch ends once statuses are decided: it fails or closes the plan, or hands out invocations. */
  function Closing(q: Plan): (Plan, seq<nat>) {
    var st := States(q);
    var fatal := FirstFatal(q, st, 0);
    if fatal < |st| then (FailPlan(q, fatal), [])
    else if AllTerminal(st) then (q.(status := if AnyBad(st) then PlanPartial else PlanCompleted), [])
    else (q, ReadyOnes(st, Max(0, q.maxParallelism - RunningCount(q))))
  }

  function Dispatch(p: Plan, now: int, c: Config): (Plan, seq<nat>) {
    if p.status != PlanRunning then (p, []) else Closing(WithStates(p, Decided(p, now, c)))
  }

  // ---- claimInvocation ----

  function ClaimInvocation(p: Plan, i: nat, now: int): (Plan, Option<Claim>) {
    if p.status != PlanRunning || i >= |p.invocations| || p.invocations[i].status != READY then (p, None)
    else if RunningCount(p) >= p.maxParallelism then (p, None)
    else
      var v := p.invocations[i];
      var attempt := LatestAttempt(v) + 1;
      (SetInvocation(p, i, v.(status := RUNNING, runs := v.runs + [Run(attempt, RunRunning, None, now, None)])),
       Some(Claim(i, |v.runs|, attempt)))
  }

  // ---- persistExecutionResult and recoverStaleRun ----

  function FinishRun(v: Invocation, k: nat, status: RunStatus, outcome: Option<string>, now: int): Invocation
    requires k < |v.runs|
  {
    v.(runs := v.runs[k := v.runs[k].(status := status, outcome := outcome, finishedAt := Some(now))])
  }

  predicate HasRunning(p: Plan, i: nat, k: nat) {
    i < |p.invocations| && k < |p.invocations[i].runs| && p.invocations[i].runs[k].status == RunRunning
  }

  /** A failed run: the invocation is retried, or fails and may take the plan with it. */
  function AfterFailure(p: Plan, i: nat, k: nat, retry: bool, now: int): Plan
    requires i < |p.invocations| && k < |p.invocations[i].runs|
  {
    var v := FinishRun(p.invocations[i], k, RunFailed, p.invocations[i].runs[k].outcome, now);
    var q := SetInvocation(p, i, v.(status := if retry then READY else FAILED));
    if !retry && v.failure == FAIL_PLAN then FailPlan(q, i) else q
  }

  function Persist(p: Plan, claim: Claim, result: ExecutionResult, now: int, c: Config): Plan {
    var i, k := claim.invocation, claim.run;
    if !HasRunning(p, i, k) then p
    else
      var v := p.invocations[i];
      var outcome := v.runs[k].outcome;
      if p.status != PlanRunning || v.status != RUNNING
      then SetInvocation(p, i, FinishRun(v, k, RunCanceled, outcome, now))
      else
        match result
        case ResultWaiting => SetInvocation(p, i, FinishRun(v, k, RunWaiting, outcome, now).(status := WAITING_FOR_USAGE_CAPACITY))
        case ResultBlocked => SetInvocation(p, i, FinishRun(v, k, RunBlocked, outcome, now).(status := BLOCKED_INSUFFICIENT_USAGE))
        case ResultCompleted(o) => SetInvocation(p, i, FinishRun(v, k, RunCompleted, o, now).(status := COMPLETED))
        case ResultFailed(retryable) => AfterFailure(p, i, k, retryable && claim.attempt < c.maxAttempts, now)
  }

  function RecoverStaleRun(p: Plan, i: nat, k: nat, now: int, c: Config): Plan {
    if !HasRunning(p, i, k) || now - p.invocations[i].runs[k].startedAt < c.staleAfterMs then p
    else
      var v := p.invocations[i];
      if p.status != PlanRunning || v.status != RUNNING
      then SetInvocation(p, i, FinishRun(v, k, RunCanceled, v.runs[k].outcome, now))
      else AfterFailure(p, i, k, v.runs[k].attempt < c.maxAttempts, now)
  }

  // ---- Steps of the API on the same rows ----

  /** start: roots of the graph leave PENDING at once. */
  function InitialStates(p: Plan): (st: seq<InvocationStatus>)
    ensures |st| == |p.invocations|
    ensures forall i :: 0 <= i < |st| ==>
              st[i] == if DecideReadiness(p.invocations[i].join, p.dependencies, i, AllPending(|st|), NoOutcomes(|st|)) == BECOME_READY
                       then NextStatus(BECOME_READY, p.invocations[i].approval == AUTO) else PENDING
  {
    var n := |p.invocations|;
    seq(n, i requires 0 <= i < n =>
      if DecideReadiness(p.invocations[i].join, p.dependencies, i, AllPending(n), NoOutcomes(n)) == BECOME_READY
      then NextStatus(BECOME_READY, p.invocations[i].approval == AUTO) else PENDING)
  }

  function AllPending(n: nat): (st: seq<InvocationStatus>)
    ensures |st| == n && forall i :: 0 <= i < n ==> st[i] == PENDING
  {
    seq(n, i => PENDING)
  }

  function NoOutcomes(n: nat): (o: seq<Option<string>>)
    ensures |o| == n && forall i :: 0 <= i < n ==> o[i] == None
  {
    seq(n, i => None)
  }

  function Start(p: Plan): Plan {
    if p.status != PlanPlanned then p
    else
      var st := InitialStates(p);
      WithStates(p, seq(|st|, i requires 0 <= i < |st| =>
                          if st[i] != PENDING && p.invocations[i].status == PENDING then st[i] else p.invocations[i].status))
      .(status := PlanRunning)
  }

  function Stop(p: Plan): Plan {
    if p.status == PlanPlanned || p.status == PlanRunning
    then WithStates(p, FailedStates(States(p), |p.invocations|)).(status := PlanCanceled)
    else p
  }

  function Approve(p: Plan, i: nat): Plan {
    if p.status != PlanRunning || i >= |p.invocations| then p
    else
      var v := p.invocations[i];
      if v.approval == AUTO || (v.evaluator && v.approval == HUMAN_APPROVAL) || v.status != WAITING_APPROVAL then p
      else SetInvocation(p, i, v.(status := READY))
  }

  /** resolveHumanEvaluation: the decision is itself a completed run. */
  function ResolveHuman(p: Plan, i: nat, outcome: string, now: int): Plan {
    if p.status != PlanRunning || i >= |p.invocations| then p
    else
      var v := p.invocations[i];
      if !v.evaluator || v.approval != HUMAN_APPROVAL || v.status != WAITING_APPROVAL then p
      else
        SetInvocation(p, i, v.(status := COMPLETED,
                               runs := v.runs + [Run(LatestAttempt(v) + 1, RunCompleted, Some(outcome), now, Some(now))]))
  }
}
