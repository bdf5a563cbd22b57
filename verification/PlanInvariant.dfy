/** The invariant of a plan under every interleaving of dispatchers, workers, recovery and users. */
module PlanInvariant {
  import opened Basics
  import opened Readiness
  import opened PassLoop
  import opened PlanRuntime

  /** A run that was followed, or may be followed, by another attempt. */
  predicate RetryRun(r: Run, maxAttempts: nat) {
    r.status == RunWaiting || r.status == RunBlocked || (r.status == RunFailed && r.attempt < maxAttempts)
  }

  predicate LastIs(v: Invocation, status: RunStatus) { v.runs != [] && v.runs[|v.runs| - 1].status == status }

  /** What the status of an invocation says about its latest run. */
  ghost predicate StatusFits(v: Invocation, maxAttempts: nat) {
    match v.status
    case PENDING => v.runs == []
    case WAITING_APPROVAL => v.runs == []
    case SKIPPED => v.runs == []
    case READY => v.runs == [] || RetryRun(v.runs[|v.runs| - 1], maxAttempts)
    case WAITING_FOR_USAGE_CAPACITY => LastIs(v, RunWaiting)
    case BLOCKED_INSUFFICIENT_USAGE => LastIs(v, RunBlocked)
    case RUNNING => LastIs(v, RunRunning)
    case COMPLETED => LastIs(v, RunCompleted)
    case FAILED => LastIs(v, RunFailed)
    case CANCELED => true
  }

  /**
   * Attempts are 1, 2, 3, ... without gaps; only the latest run can be running or final; and in a
   * running plan the latest run is running exactly when the invocation is.
   */
  ghost predicate InvocationInv(v: Invocation, planRuns: bool, maxAttempts: nat) {
    && (forall k :: 0 <= k < |v.runs| ==> v.runs[k].attempt == k + 1)
    && (forall k :: 0 <= k < |v.runs| - 1 ==> RetryRun(v.runs[k], maxAttempts))
    && StatusFits(v, maxAttempts)
    && (planRuns && LastIs(v, RunRunning) ==> v.status == RUNNING)
  }

  ghost predicate AllInvocations(p: Plan, maxAttempts: nat) {
    forall i :: 0 <= i < |p.invocations| ==> InvocationInv(p.invocations[i], p.status == PlanRunning, maxAttempts)
  }

  /** What the status of a plan says about its invocations. */
  ghost predicate OutcomeFits(p: Plan) {
    var st := States(p);
    match p.status
    case PlanPlanned => forall i :: 0 <= i < |st| ==> st[i] == PENDING
    case PlanRunning => true
    case PlanCompleted => forall i :: 0 <= i < |st| ==> st[i] == COMPLETED || st[i] == SKIPPED
    case PlanPartial => AllTerminal(st) && AnyBad(st)
    case PlanFailed => AllTerminal(st) && exists i :: 0 <= i < |st| && st[i] == FAILED && p.invocations[i].failure == FAIL_PLAN
    case PlanCanceled => AllTerminal(st)
  }

  ghost predicate PlanInv(p: Plan, maxAttempts: nat) {
    AllInvocations(p, maxAttempts) && OutcomeFits(p) && RunningCount(p) <= p.maxParallelism
  }

  // ---- Changing one invocation ----

  lemma CountAfterSet(p: Plan, i: nat, v: Invocation)
    requires i < |p.invocations|
    ensures RunningCount(SetInvocation(p, i, v)) ==
            RunningCount(p) - IsRunning()(p.invocations[i].status) + IsRunning()(v.status)
  {
    assert States(SetInvocation(p, i, v)) == States(p)[i := v.status];
    SumUpdate(States(p), i, v.status, IsRunning());
  }

  /** An invocation of a running plan moves without exceeding the parallelism. */
  lemma SetKeepsInv(p: Plan, i: nat, v: Invocation, maxAttempts: nat)
    requires PlanInv(p, maxAttempts) && i < |p.invocations| && p.status == PlanRunning
    requires InvocationInv(v, true, maxAttempts)
    requires v.status == RUNNING ==> p.invocations[i].status == RUNNING || RunningCount(p) < p.maxParallelism
    ensures PlanInv(SetInvocation(p, i, v), maxAttempts)
  {
    CountAfterSet(p, i, v);
  }

  /** Finishing a run behind a plan or an invocation that is no longer active. */
  lemma CancelRunKeepsInv(p: Plan, i: nat, k: nat, now: int, maxAttempts: nat)
    requires PlanInv(p, maxAttempts) && HasRunning(p, i, k)
    requires p.status != PlanRunning || p.invocations[i].status != RUNNING
    ensures PlanInv(SetInvocation(p, i, FinishRun(p.invocations[i], k, RunCanceled, p.invocations[i].runs[k].outcome, now)), maxAttempts)
  {
    var v := p.invocations[i];
    var w := FinishRun(v, k, RunCanceled, v.runs[k].outcome, now);
    assert InvocationInv(v, p.status == PlanRunning, maxAttempts);
    OnlyLatestRuns(v, k, p.status == PlanRunning, maxAttempts);
    if v.status == RUNNING { NotRunningIsTerminal(p, i); }
    CanceledRunIsSound(v, k, p.status == PlanRunning, now, maxAttempts);
    SameStatusKeepsInv(p, i, w, maxAttempts);
  }

  lemma CanceledRunIsSound(v: Invocation, k: nat, planRuns: bool, now: int, maxAttempts: nat)
    requires InvocationInv(v, planRuns, maxAttempts) && k == |v.runs| - 1 && v.runs[k].status == RunRunning && v.status != RUNNING
    ensures InvocationInv(FinishRun(v, k, RunCanceled, v.runs[k].outcome, now), planRuns, maxAttempts)
  {}

  lemma SameStatusKeepsInv(p: Plan, i: nat, w: Invocation, maxAttempts: nat)
    requires PlanInv(p, maxAttempts) && i < |p.invocations| && w.status == p.invocations[i].status && w.failure == p.invocations[i].failure
    requires InvocationInv(w, p.status == PlanRunning, maxAttempts)
    ensures PlanInv(SetInvocation(p, i, w), maxAttempts)
  {
    CountAfterSet(p, i, w);
    assert States(SetInvocation(p, i, w)) == States(p);
  }

  lemma NotRunningIsTerminal(p: Plan, i: nat)
    requires OutcomeFits(p) && p.status != PlanRunning && i < |p.invocations|
    ensures Terminal(p.invocations[i].status) || p.invocations[i].status == PENDING
  {
    assert States(p)[i] == p.invocations[i].status;
  }

  /** A running run is the latest one. */
  lemma OnlyLatestRuns(v: Invocation, k: nat, planRuns: bool, maxAttempts: nat)
    requires InvocationInv(v, planRuns, maxAttempts) && k < |v.runs| && v.runs[k].status == RunRunning
    ensures k == |v.runs| - 1
  {}

  /** The latest run of a running invocation ends with this status. */
  lemma FinishKeepsInvocation(v: Invocation, k: nat, status: RunStatus, outcome: Option<string>, now: int, next: InvocationStatus, maxAttempts: nat)
    requires InvocationInv(v, true, maxAttempts) && k == |v.runs| - 1 && status != RunRunning
    requires StatusFits(FinishRun(v, k, status, outcome, now).(status := next), maxAttempts)
    ensures InvocationInv(FinishRun(v, k, status, outcome, now).(status := next), true, maxAttempts)
  {}

  // ---- failPlan ----

  lemma FailKeepsCount(p: Plan, failed: nat)
    ensures RunningCount(FailPlan(p, failed)) <= RunningCount(p)
  {
    var st := States(p);
    assert States(FailPlan(p, failed)) == FailedStates(st, failed);
    SumPointwiseAtMost(FailedStates(st, failed), st, IsRunning());
  }

  lemma FailPlanKeepsInv(p: Plan, failed: nat, maxAttempts: nat)
    requires PlanInv(p, maxAttempts) && p.status == PlanRunning && failed < |p.invocations|
    requires p.invocations[failed].status == FAILED && p.invocations[failed].failure == FAIL_PLAN
    ensures PlanInv(FailPlan(p, failed), maxAttempts)
  {
    var q := FailPlan(p, failed);
    FailKeepsCount(p, failed);
    forall i | 0 <= i < |q.invocations| ensures InvocationInv(q.invocations[i], false, maxAttempts) {
      assert InvocationInv(p.invocations[i], true, maxAttempts);
    }
    assert States(q)[failed] == FAILED && q.invocations[failed].failure == FAIL_PLAN;
  }

  lemma AfterFailureKeepsInv(p: Plan, i: nat, k: nat, retry: bool, now: int, maxAttempts: nat)
    requires PlanInv(p, maxAttempts) && p.status == PlanRunning && HasRunning(p, i, k) && p.invocations[i].status == RUNNING
    requires retry ==> p.invocations[i].runs[k].attempt < maxAttempts
    ensures PlanInv(AfterFailure(p, i, k, retry, now), maxAttempts)
  {
    var v := p.invocations[i];
    OnlyLatestRuns(v, k, true, maxAttempts);
    var next := if retry then READY else FAILED;
    FinishKeepsInvocation(v, k, RunFailed, v.runs[k].outcome, now, next, maxAttempts);
    var q := SetInvocation(p, i, FinishRun(v, k, RunFailed, v.runs[k].outcome, now).(status := next));
    SetKeepsInv(p, i, q.invocations[i], maxAttempts);
    if !retry && v.failure == FAIL_PLAN { FailPlanKeepsInv(q, i, maxAttempts); }
  }

  // ---- dispatchPlan ----

  /** Dispatch moves pending and usage-waiting invocations only. */
  lemma DecidedMoves(p: Plan, now: int, c: Config, i: nat)
    requires i < |p.invocations|
    ensures var st, was := Decided(p, now, c), p.invocations[i];
            && (Resumes(was, now, c) ==> st[i] == READY)
            && (!Resumes(was, now, c) && was.status != PENDING ==> st[i] == was.status)
            && (was.status == PENDING ==> st[i] in {PENDING, READY, WAITING_APPROVAL, SKIPPED})
  {
    DecidedFromPending(DeciderOf(p), AutoFlags(p), Resumed(p, now, c), |p.invocations| + 1, i);
  }

  lemma {:induction false} DecidedInPass(decide: Decider, auto: seq<bool>, st: seq<InvocationStatus>, k: nat, i: nat)
    requires k <= |st| == |auto| && i < |st|
    ensures Pass(decide, auto, st, k)[i] == st[i] || Pass(decide, auto, st, k)[i] in {READY, WAITING_APPROVAL, SKIPPED}
  {
    if k > 0 { DecidedInPass(decide, auto, st, k - 1, i); }
  }

  lemma {:induction false} DecidedFromPending(decide: Decider, auto: seq<bool>, st: seq<InvocationStatus>, m: nat, i: nat)
    requires |st| == |auto| && i < |st|
    ensures Passes(decide, auto, st, m)[i] == st[i] || Passes(decide, auto, st, m)[i] in {READY, WAITING_APPROVAL, SKIPPED}
  {
    if m > 0 {
      DecidedFromPending(decide, auto, st, m - 1, i);
      DecidedInPass(decide, auto, Passes(decide, auto, st, m - 1), |st|, i);
    }
  }

  lemma DecidedKeepsInvocation(p: Plan, now: int, c: Config, i: nat)
    requires i < |p.invocations| && InvocationInv(p.invocations[i], true, c.maxAttempts)
    ensures InvocationInv(p.invocations[i].(status := Decided(p, now, c)[i]), true, c.maxAttempts)
    ensures Decided(p, now, c)[i] == RUNNING <==> p.invocations[i].status == RUNNING
  {
    DecidedMoves(p, now, c, i);
  }

  lemma DecidedKeepsInv(p: Plan, now: int, c: Config)
    requires PlanInv(p, c.maxAttempts) && p.status == PlanRunning
    ensures PlanInv(WithStates(p, Decided(p, now, c)), c.maxAttempts)
  {
    var st := Decided(p, now, c);
    var q := WithStates(p, st);
    forall i | 0 <= i < |st|
      ensures InvocationInv(q.invocations[i], true, c.maxAttempts) && IsRunning()(st[i]) == IsRunning()(States(p)[i])
    {
      assert InvocationInv(p.invocations[i], true, c.maxAttempts);
      DecidedKeepsInvocation(p, now, c, i);
    }
    SumPointwise(st, States(p), IsRunning());
  }

  /** A plan closes only over terminal invocations, with the outcome they have. */
  lemma ClosingKeepsInv(q: Plan, maxAttempts: nat)
    requires PlanInv(q, maxAttempts) && q.status == PlanRunning && AllTerminal(States(q))
    ensures PlanInv(q.(status := if AnyBad(States(q)) then PlanPartial else PlanCompleted), maxAttempts)
  {
    var t := q.(status := if AnyBad(States(q)) then PlanPartial else PlanCompleted);
    assert States(t) == States(q);
    forall i | 0 <= i < |t.invocations| ensures InvocationInv(t.invocations[i], false, maxAttempts) {
      assert InvocationInv(q.invocations[i], true, maxAttempts);
    }
  }

  lemma ClosedKeepsInv(q: Plan, maxAttempts: nat)
    requires PlanInv(q, maxAttempts) && q.status == PlanRunning
    ensures PlanInv(Closing(q).0, maxAttempts)
  {
    var st := States(q);
    if FirstFatal(q, st, 0) < |st| {
      FailPlanKeepsInv(q, FirstFatal(q, st, 0), maxAttempts);
    } else if AllTerminal(st) {
      ClosingKeepsInv(q, maxAttempts);
    }
  }

  lemma DispatchKeepsInv(p: Plan, now: int, c: Config)
    requires PlanInv(p, c.maxAttempts)
    ensures PlanInv(Dispatch(p, now, c).0, c.maxAttempts)
  {
    if p.status == PlanRunning {
      DecidedKeepsInv(p, now, c);
      ClosedKeepsInv(WithStates(p, Decided(p, now, c)), c.maxAttempts);
    }
  }

  // ---- The other steps ----

  lemma ClaimKeepsInv(p: Plan, i: nat, now: int, maxAttempts: nat)
    requires PlanInv(p, maxAttempts)
    ensures PlanInv(ClaimInvocation(p, i, now).0, maxAttempts)
  {
    var (q, claim) := ClaimInvocation(p, i, now);
    if claim.Some? {
      var v := p.invocations[i];
      assert InvocationInv(v, true, maxAttempts);
      SetKeepsInv(p, i, q.invocations[i], maxAttempts);
    }
  }

  /** A claim names the run it was given. */
  predicate ClaimFits(p: Plan, claim: Claim) {
    && claim.invocation < |p.invocations| && claim.run < |p.invocations[claim.invocation].runs|
    && p.invocations[claim.invocation].runs[claim.run].attempt == claim.attempt
  }

  lemma PersistKeepsInv(p: Plan, claim: Claim, result: ExecutionResult, now: int, c: Config)
    requires PlanInv(p, c.maxAttempts) && ClaimFits(p, claim)
    ensures PlanInv(Persist(p, claim, result, now, c), c.maxAttempts)
  {
    var i, k := claim.invocation, claim.run;
    if HasRunning(p, i, k) {
      var v := p.invocations[i];
      if p.status != PlanRunning || v.status != RUNNING {
        CancelRunKeepsInv(p, i, k, now, c.maxAttempts);
      } else {
        assert InvocationInv(v, true, c.maxAttempts);
        OnlyLatestRuns(v, k, true, c.maxAttempts);
        var outcome := v.runs[k].outcome;
        match result
        case ResultWaiting =>
          FinishKeepsInvocation(v, k, RunWaiting, outcome, now, WAITING_FOR_USAGE_CAPACITY, c.maxAttempts);
          SetKeepsInv(p, i, FinishRun(v, k, RunWaiting, outcome, now).(status := WAITING_FOR_USAGE_CAPACITY), c.maxAttempts);
        case ResultBlocked =>
          FinishKeepsInvocation(v, k, RunBlocked, outcome, now, BLOCKED_INSUFFICIENT_USAGE, c.maxAttempts);
          SetKeepsInv(p, i, FinishRun(v, k, RunBlocked, outcome, now).(status := BLOCKED_INSUFFICIENT_USAGE), c.maxAttempts);
        case ResultCompleted(o) =>
          FinishKeepsInvocation(v, k, RunCompleted, o, now, COMPLETED, c.maxAttempts);
          SetKeepsInv(p, i, FinishRun(v, k, RunCompleted, o, now).(status := COMPLETED), c.maxAttempts);
        case ResultFailed(retryable) =>
          AfterFailureKeepsInv(p, i, k, retryable && claim.attempt < c.maxAttempts, now, c.maxAttempts);
      }
    }
  }

  lemma RecoverKeepsInv(p: Plan, i: nat, k: nat, now: int, c: Config)
    requires PlanInv(p, c.maxAttempts)
    ensures PlanInv(RecoverStaleRun(p, i, k, now, c), c.maxAttempts)
  {
    if HasRunning(p, i, k) && now - p.invocations[i].runs[k].startedAt >= c.staleAfterMs {
      if p.status != PlanRunning || p.invocations[i].status != RUNNING {
        CancelRunKeepsInv(p, i, k, now, c.maxAttempts);
      } else {
        AfterFailureKeepsInv(p, i, k, p.invocations[i].runs[k].attempt < c.maxAttempts, now, c.maxAttempts);
      }
    }
  }

  lemma StartedInvocations(p: Plan, maxAttempts: nat)
    requires PlanInv(p, maxAttempts) && p.status == PlanPlanned
    ensures AllInvocations(Start(p), maxAttempts)
    ensures forall i :: 0 <= i < |Start(p).invocations| ==> Start(p).invocations[i].status != RUNNING
  {
    var q := Start(p);
    forall i | 0 <= i < |q.invocations|
      ensures InvocationInv(q.invocations[i], true, maxAttempts) && q.invocations[i].status != RUNNING
    {
      assert InvocationInv(p.invocations[i], false, maxAttempts);
      assert States(p)[i] == PENDING;
    }
  }

  lemma StartKeepsInv(p: Plan, maxAttempts: nat)
    requires PlanInv(p, maxAttempts)
    ensures PlanInv(Start(p), maxAttempts)
  {
    if p.status == PlanPlanned {
      StartedInvocations(p, maxAttempts);
      SumZero(States(Start(p)), IsRunning());
    }
  }

  lemma StoppedInvocations(p: Plan, maxAttempts: nat)
    requires AllInvocations(p, maxAttempts) && (p.status == PlanPlanned || p.status == PlanRunning)
    ensures AllInvocations(Stop(p), maxAttempts)
  {
    var q := Stop(p);
    forall i | 0 <= i < |q.invocations| ensures InvocationInv(q.invocations[i], false, maxAttempts) {
      assert InvocationInv(p.invocations[i], p.status == PlanRunning, maxAttempts);
    }
  }

  lemma StopKeepsInv(p: Plan, maxAttempts: nat)
    requires PlanInv(p, maxAttempts)
    ensures PlanInv(Stop(p), maxAttempts)
  {
    if p.status == PlanPlanned || p.status == PlanRunning {
      StoppedInvocations(p, maxAttempts);
      assert States(Stop(p)) == FailedStates(States(p), |p.invocations|);
      SumPointwiseAtMost(States(Stop(p)), States(p), IsRunning());
    }
  }

  lemma ApproveKeepsInv(p: Plan, i: nat, maxAttempts: nat)
    requires PlanInv(p, maxAttempts)
    ensures PlanInv(Approve(p, i), maxAttempts)
  {
    if Approve(p, i) != p {
      assert InvocationInv(p.invocations[i], true, maxAttempts);
      SetKeepsInv(p, i, p.invocations[i].(status := READY), maxAttempts);
    }
  }

  lemma ResolveKeepsInv(p: Plan, i: nat, outcome: string, now: int, maxAttempts: nat)
    requires PlanInv(p, maxAttempts)
    ensures PlanInv(ResolveHuman(p, i, outcome, now), maxAttempts)
  {
    var q := ResolveHuman(p, i, outcome, now);
    if q != p {
      assert InvocationInv(p.invocations[i], true, maxAttempts);
      SetKeepsInv(p, i, q.invocations[i], maxAttempts);
    }
  }
}
