/** The graph of a plan over its runs: nothing runs before its sources ended as its join policy asks. */
module PlanOrder {
  import opened Basics
  import opened Readiness
  import opened PassLoop
  import opened PlanRuntime
  import opened PlanInvariant
  import opened PlanLaws
  import opened PlanMeaning

  /** An invocation that was let on: it can be claimed, runs, waits, or ran. */
  predicate LetOn(v: Invocation) { v.status !in {PENDING, SKIPPED, CANCELED} || v.runs != [] }

  /** What its sources, as they stand, decide for invocation i. */
  function Due(p: Plan, i: nat): Decision
    requires i < |p.invocations|
  {
    DecideReadiness(p.invocations[i].join, p.dependencies, i, States(p), Outcomes(p))
  }

  predicate InTurn(p: Plan, i: nat)
    requires i < |p.invocations|
  {
    (LetOn(p.invocations[i]) ==> Due(p, i) == BECOME_READY) && (p.invocations[i].status == SKIPPED ==> Due(p, i) == BECOME_SKIPPED)
  }

  ghost predicate AllInTurn(p: Plan) { forall i :: 0 <= i < |p.invocations| ==> InTurn(p, i) }

  /** The graph stays, and an invocation that is over keeps its status and outcome. */
  ghost predicate KeepsGraph(p: Plan, q: Plan) {
    && |q.invocations| == |p.invocations| && q.dependencies == p.dependencies
    && (forall i :: 0 <= i < |p.invocations| ==> q.invocations[i].join == p.invocations[i].join)
    && Settles(States(p), Outcomes(p), States(q), Outcomes(q))
  }

  lemma DueStays(p: Plan, q: Plan, i: nat)
    requires KeepsGraph(p, q) && i < |p.invocations| && Due(p, i) != STAY_PENDING
    ensures Due(q, i) == Due(p, i)
  {
    DecisionStands(p.invocations[i].join, p.dependencies, i, States(p), Outcomes(p), States(q), Outcomes(q));
  }

  /** Invocation i keeps its place in the graph, and its end if it is over. */
  predicate KeepsEnd(p: Plan, q: Plan, i: nat) {
    && i < |p.invocations| == |q.invocations|
    && var v, w := p.invocations[i], q.invocations[i];
       w.join == v.join && (Terminal(v.status) ==> w.status == v.status && LatestOutcome(w) == LatestOutcome(v))
  }

  lemma EndsKeepGraph(p: Plan, q: Plan)
    requires |q.invocations| == |p.invocations| && q.dependencies == p.dependencies
    requires forall i :: 0 <= i < |p.invocations| ==> KeepsEnd(p, q, i)
    ensures KeepsGraph(p, q)
  {
    forall i | 0 <= i < |p.invocations|
      ensures q.invocations[i].join == p.invocations[i].join
      ensures Terminal(States(p)[i]) ==> States(q)[i] == States(p)[i] && Outcomes(q)[i] == Outcomes(p)[i]
    {
      assert KeepsEnd(p, q, i);
    }
  }

  /** Invocation i keeps its end and is neither let on nor skipped. */
  predicate KeepsStanding(p: Plan, q: Plan, i: nat) {
    && KeepsEnd(p, q, i)
    && (LetOn(q.invocations[i]) ==> LetOn(p.invocations[i]))
    && (q.invocations[i].status == SKIPPED ==> p.invocations[i].status == SKIPPED)
  }

  lemma PersistKeepsStanding(p: Plan, claim: Claim, result: ExecutionResult, now: int, c: Config, i: nat)
    requires i < |p.invocations|
    ensures KeepsStanding(p, Persist(p, claim, result, now, c), i)
  {}

  lemma RecoverKeepsStanding(p: Plan, j: nat, k: nat, now: int, c: Config, i: nat)
    requires i < |p.invocations|
    ensures KeepsStanding(p, RecoverStaleRun(p, j, k, now, c), i)
  {}

  lemma UserKeepsStanding(p: Plan, step: Step, c: Config, i: nat)
    requires (step.ClaimStep? || step.ApproveStep? || step.ResolveStep? || step.StopStep?) && i < |p.invocations|
    ensures KeepsStanding(p, Apply(p, step, c), i)
  {}

  /** Steps other than a start and a dispatch let nothing on. */
  lemma QuietKeepsTurn(p: Plan, step: Step, c: Config)
    requires AllInTurn(p) && !step.StartStep? && !step.DispatchStep?
    ensures AllInTurn(Apply(p, step, c))
  {
    StepAdvances(p, step, c);
    forall i | 0 <= i < |p.invocations| ensures KeepsStanding(p, Apply(p, step, c), i) {
      if step.PersistStep? { PersistKeepsStanding(p, step.claim, step.result, step.now, c, i); }
      else if step.RecoverStep? { RecoverKeepsStanding(p, step.i, step.k, step.now, c, i); }
      else { UserKeepsStanding(p, step, c, i); }
    }
    LaterKeepsTurn(p, Apply(p, step, c));
  }

  /** A plan in which nothing more is let on or skipped stays in turn. */
  lemma LaterKeepsTurn(p: Plan, q: Plan)
    requires AllInTurn(p) && |q.invocations| == |p.invocations| && q.dependencies == p.dependencies
    requires forall i :: 0 <= i < |p.invocations| ==> KeepsStanding(p, q, i)
    ensures AllInTurn(q)
  {
    forall i | 0 <= i < |p.invocations| ensures KeepsEnd(p, q, i) { assert KeepsStanding(p, q, i); }
    EndsKeepGraph(p, q);
    forall i | 0 <= i < |q.invocations| ensures InTurn(q, i) {
      assert InTurn(p, i) && KeepsStanding(p, q, i);
      if Due(p, i) != STAY_PENDING { DueStays(p, q, i); }
    }
  }

  lemma DecidedKeepsEnd(p: Plan, now: int, c: Config, i: nat)
    requires i < |p.invocations|
    ensures KeepsEnd(p, WithStates(p, Decided(p, now, c)), i)
  {
    DecidedMoves(p, now, c, i);
  }

  /** What a dispatch's passes decide is in turn by the statuses they end in. */
  lemma DecidedKeepsTurn(p: Plan, now: int, c: Config)
    requires AllInTurn(p)
    ensures AllInTurn(WithStates(p, Decided(p, now, c)))
  {
    var q := WithStates(p, Decided(p, now, c));
    forall i | 0 <= i < |p.invocations| ensures KeepsEnd(p, q, i) { DecidedKeepsEnd(p, now, c, i); }
    EndsKeepGraph(p, q);
    assert Outcomes(q) == Outcomes(p);
    forall i | 0 <= i < |q.invocations| ensures InTurn(q, i) {
      assert InTurn(p, i);
      DecidedMoves(p, now, c, i);
      if Due(p, i) != STAY_PENDING { DueStays(p, q, i); }
      if p.invocations[i].status == PENDING { DispatchPlaces(p, now, c, i); }
    }
  }

  lemma ClosingKeepsStanding(q: Plan, i: nat)
    requires q.status == PlanRunning && i < |q.invocations|
    ensures KeepsStanding(q, Closing(q).0, i)
  {}

  lemma DispatchKeepsTurn(p: Plan, now: int, c: Config)
    requires AllInTurn(p)
    ensures AllInTurn(Dispatch(p, now, c).0)
  {
    if p.status == PlanRunning {
      var q := WithStates(p, Decided(p, now, c));
      DecidedKeepsTurn(p, now, c);
      ClosingAdvances(q);
      forall i | 0 <= i < |q.invocations| ensures KeepsStanding(q, Closing(q).0, i) { ClosingKeepsStanding(q, i); }
      LaterKeepsTurn(q, Closing(q).0);
    }
  }

  lemma StartedInTurn(p: Plan, i: nat)
    requires p.status == PlanPlanned && i < |p.invocations| && p.invocations[i].status == PENDING && p.invocations[i].runs == []
    ensures |Start(p).invocations| == |p.invocations| && InTurn(Start(p), i)
  {
    var n, q := |p.invocations|, Start(p);
    if DecideReadiness(p.invocations[i].join, p.dependencies, i, AllPending(n), NoOutcomes(n)) == BECOME_READY {
      DecisionStands(p.invocations[i].join, p.dependencies, i, AllPending(n), NoOutcomes(n), States(q), Outcomes(q));
    }
  }

  lemma PlannedIsFresh(p: Plan, maxAttempts: nat, i: nat)
    requires PlanInv(p, maxAttempts) && p.status == PlanPlanned && i < |p.invocations|
    ensures p.invocations[i].status == PENDING && p.invocations[i].runs == []
  {
    assert States(p)[i] == PENDING && InvocationInv(p.invocations[i], false, maxAttempts);
  }

  /** A start lets on only what is due before anything ran. */
  lemma StartKeepsTurn(p: Plan, maxAttempts: nat)
    requires PlanInv(p, maxAttempts) && AllInTurn(p)
    ensures AllInTurn(Start(p))
  {
    if p.status == PlanPlanned {
      forall i | 0 <= i < |p.invocations| ensures |Start(p).invocations| == |p.invocations| && InTurn(Start(p), i) {
        PlannedIsFresh(p, maxAttempts, i);
        StartedInTurn(p, i);
      }
    }
  }

  lemma StepKeepsTurn(p: Plan, step: Step, c: Config)
    requires PlanInv(p, c.maxAttempts) && AllInTurn(p)
    ensures AllInTurn(Apply(p, step, c))
  {
    match step
    case StartStep => StartKeepsTurn(p, c.maxAttempts);
    case DispatchStep(now) => DispatchKeepsTurn(p, now, c);
    case _ => QuietKeepsTurn(p, step, c);
  }

  lemma {:induction false} RunKeepsTurn(p: Plan, steps: seq<Step>, c: Config)
    requires PlanInv(p, c.maxAttempts) && LegalRun(p, steps, c) && AllInTurn(p)
    ensures AllInTurn(RunSteps(p, steps, c))
    decreases |steps|
  {
    if steps != [] {
      StepKeepsTurn(p, steps[0], c);
      StepKeepsInv(p, steps[0], c);
      RunKeepsTurn(Apply(p, steps[0], c), steps[1..], c);
    }
  }

  /** The sources of i ended as its join policy asks, so that it may run. */
  ghost predicate MayRun(p: Plan, i: nat)
    requires i < |p.invocations|
  {
    var met := IsMet(States(p), Outcomes(p));
    match p.invocations[i].join
    case ALL_REQUIRED => AllInto(p.dependencies, i, met)
    case ANY_REQUIRED => SomeInto(p.dependencies, i, met) || !SomeInto(p.dependencies, i, IsInto())
    case ALL_SETTLED => forall d :: d in p.dependencies && d.to == i ==> d.from < |p.invocations| && Terminal(p.invocations[d.from].status)
  }

  /** They ended so that it can never run. */
  ghost predicate CannotRun(p: Plan, i: nat)
    requires i < |p.invocations|
  {
    var missed := IsMissed(States(p), Outcomes(p));
    match p.invocations[i].join
    case ALL_REQUIRED => SomeInto(p.dependencies, i, missed)
    case ANY_REQUIRED => AllInto(p.dependencies, i, missed) && SomeInto(p.dependencies, i, IsInto())
    case ALL_SETTLED => false
  }

  lemma TurnTells(p: Plan, i: nat)
    requires InRange(p.dependencies, |p.invocations|) && i < |p.invocations| && InTurn(p, i)
    ensures LetOn(p.invocations[i]) ==> MayRun(p, i)
    ensures p.invocations[i].status == SKIPPED ==> CannotRun(p, i)
  {
    DecisionTells(p.invocations[i].join, p.dependencies, i, States(p), Outcomes(p));
  }

  lemma PlannedInTurn(p: Plan, maxAttempts: nat)
    requires PlanInv(p, maxAttempts) && p.status == PlanPlanned
    ensures AllInTurn(p)
  {
    forall i | 0 <= i < |p.invocations| ensures InTurn(p, i) { PlannedIsFresh(p, maxAttempts, i); }
  }

  /**
   * Over every run, an invocation is let on only after its sources ended as its join policy and their conditions
   * ask, and is skipped only when they ended so that it can never run.
   */
  lemma NothingRunsEarly(p: Plan, steps: seq<Step>, i: nat, c: Config)
    requires PlanInv(p, c.maxAttempts) && p.status == PlanPlanned && LegalRun(p, steps, c)
    requires InRange(p.dependencies, |p.invocations|) && i < |p.invocations|
    ensures var q := RunSteps(p, steps, c);
            && |q.invocations| == |p.invocations| && q.dependencies == p.dependencies
            && (LetOn(q.invocations[i]) ==> MayRun(q, i))
            && (q.invocations[i].status == SKIPPED ==> CannotRun(q, i))
  {
    PlannedInTurn(p, c.maxAttempts);
    RunKeepsTurn(p, steps, c);
    RunAdvances(p, steps, c);
    TurnTells(RunSteps(p, steps, c), i);
  }
}
