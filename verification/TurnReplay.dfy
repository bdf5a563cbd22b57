/**
 * What beginOrReuseTurn answers (apps/worker/src/external-ai-invocation-executor.ts), by how the turn stands:
 * what was paid for is replayed and never asked again, and new work is admitted whenever it fits.
 */
module TurnReplay {
  import opened Basics
  import opened Books
  import opened Turns
  import opened TurnMachine
  import opened TurnInvariant
  import R = TurnRecovery

  /** A turn that ended with a usable answer, which its user paid. */
  predicate Answered(x: Turn) { x.status == TurnSucceeded && !x.toolCallError && !x.interrupted }

  lemma NobodyHoldsEnded(s: System, i: nat, lim: Limits)
    requires SystemInv(s, lim) && At(s, i)
    ensures TurnAt(s, i).status !in {TurnSucceeded, TurnFailedPreProvider, TurnFailedSafe}
  {
    assert TurnInv(TurnAt(s, i), lim.maxReservation) && PcFits(TurnAt(s, i), s.pcs[i]);
  }

  lemma EndedStays(s: System, e: Event, lim: Limits, k: nat)
    requires SystemInv(s, lim) && k < |s.turns| && s.turns[k].status in {TurnSucceeded, TurnFailedPreProvider, TurnFailedSafe}
    ensures k < |Next(s, e, lim).turns| && Next(s, e, lim).turns[k] == s.turns[k]
  {
    if IsExecutor(e) && At(s, e.i) { NobodyHoldsEnded(s, e.i, lim); }
    if R.Touches(s, e, k) { R.ReconcilerTouches(s, e, lim); } else { R.UntouchedStays(s, e, lim, k); }
  }

  /** A turn that ended stays as it ended, over every run. */
  lemma {:induction false} EndedForever(s: System, es: seq<Event>, lim: Limits, k: nat)
    requires SystemInv(s, lim) && SoundRun(es, lim) && k < |s.turns|
    requires s.turns[k].status in {TurnSucceeded, TurnFailedPreProvider, TurnFailedSafe}
    ensures k < |Run(s, es, lim).turns| && Run(s, es, lim).turns[k] == s.turns[k]
    decreases |es|
  {
    if es != [] {
      EndedStays(s, es[0], lim, k);
      NextKeepsInv(s, es[0], lim);
      EndedForever(Next(s, es[0], lim), es[1..], lim, k);
    }
  }

  lemma FoundAgain(turns: seq<Turn>, k: nat)
    requires UniqueTurns(turns) && k < |turns|
    ensures FindTurn(turns, turns[k].invocation, turns[k].index) == k
  {
    var j := FindTurn(turns, turns[k].invocation, turns[k].index);
    assert j < k || j == k || k < j;
  }

  /**
   * Once an execution of (invocation, index) was settled without an error of the answer, every later request for
   * it, after any run of executors, crashes and passes, replays that turn: no turn is added, none is
   * changed, and the provider is not called again.
   */
  lemma PaidAnswersAreReplayed(s: System, es: seq<Event>, lim: Limits, k: nat, capacity: Capacity, budget: Budget)
    requires SystemInv(s, lim) && SoundRun(es, lim) && k < |s.turns| && Answered(s.turns[k])
    ensures var x, t := s.turns[k], Run(s, es, lim);
            && BeginOrReuseTurn(t.turns, x.invocation, x.index, capacity, budget, lim) == (t.turns, BeginReplay(k))
            && k < |t.turns| && t.turns[k] == x
            && Next(t, Begin(x.invocation, x.index, capacity, budget), lim) == t
  {
    EndedForever(s, es, lim, k);
    RunKeepsInv(s, es, lim);
    var t := Run(s, es, lim);
    FoundAgain(t.turns, k);
    assert TurnInv(t.turns[k], lim.maxReservation);
  }

  /**
   * What the other answers mean: a turn that no provider has seen is taken up again if it fits, one that is
   * under way is in progress, a settled one with an error of the answer says which, one on hold needs
   * reconciliation, and one that failed has failed before.
   */
  lemma AnswersTell(k: nat, x: Turn, maxReservation: nat)
    requires TurnInv(x, maxReservation)
    ensures ExistingProviderTurnOutcome(k, x) ==
            match x.status
            case TurnCreated => BeginNew(k)
            case TurnWaiting => BeginNew(k)
            case TurnBlocked => BeginNew(k)
            case TurnReserved => BeginInProgress
            case TurnStarting => BeginInProgress
            case TurnInFlight => BeginInProgress
            case TurnDurable => BeginInProgress
            case TurnSettling => BeginInProgress
            case TurnSucceeded =>
              if x.toolCallError then BeginFailure(AI_TOOL_CALL_INVALID)
              else if x.interrupted then BeginFailure(AI_PROVIDER_INTERRUPTED) else BeginReplay(k)
            case TurnReconciliation => BeginFailure(AI_RECONCILIATION_REQUIRED)
            case TurnFailedPreProvider => BeginFailure(AI_REQUEST_PREVIOUSLY_FAILED)
            case TurnFailedSafe => BeginFailure(AI_REQUEST_PREVIOUSLY_FAILED)
  {}

  /** A budget that never asks for more than is there. */
  ghost predicate WithinMeans(budget: Budget) { forall available :: budget(available).Funded? ==> budget(available).estimate <= available }

  /** There is a turn left for the invocation, a place among the paying invocations, and something left under both ceilings. */
  predicate RoomForTurn(turns: seq<Turn>, invocation: nat, lim: Limits) {
    && Sum(turns, Ours(invocation)) < lim.maxTurns
    && (invocation in PaidIds(turns) || |PaidIds(turns)| < lim.maxPaid)
    && Sum(turns, SettledPart()) < lim.maxSettled
    && Sum(turns, SettledPart()) + Sum(turns, ActivePart()) + Sum(turns, PendingPart()) < lim.maxCommitted
  }

  /** What is there for one more turn: the user's usage, as far as both ceilings leave it. */
  function LeftFor(turns: seq<Turn>, capacity: Capacity, lim: Limits): int {
    Min(capacity.available,
        Min(lim.maxSettled - Sum(turns, SettledPart()),
            lim.maxCommitted - Sum(turns, SettledPart()) - Sum(turns, ActivePart()) - Sum(turns, PendingPart())))
  }

  /**
   * A new turn is admitted exactly when there is room under all four limits and the budget funds it from what
   * is left; it is added as created, with the funded estimate. Otherwise no turn is added.
   */
  lemma NewTurnIsAdmittedIff(turns: seq<Turn>, invocation: nat, index: nat, capacity: Capacity, budget: Budget, lim: Limits)
    requires WithinMeans(budget) && FindTurn(turns, invocation, index) == |turns|
    ensures var (after, answer) := BeginOrReuseTurn(turns, invocation, index, capacity, budget, lim);
            var funded := budget(LeftFor(turns, capacity, lim));
            if RoomForTurn(turns, invocation, lim) && funded.Funded?
            then answer == BeginNew(|turns|) && after == turns + [NewTurn(invocation, index, funded.estimate)]
            else after == turns && !answer.BeginNew? && !answer.BeginReplay?
  {}

  /**
   * Why a new turn is refused: its plan's limits, or the request's own cost, or missing usage, which it waits for
   * while other reservations of the user may still come back, and is blocked on otherwise.
   */
  lemma RefusalsTell(turns: seq<Turn>, invocation: nat, index: nat, capacity: Capacity, budget: Budget, lim: Limits)
    requires WithinMeans(budget) && FindTurn(turns, invocation, index) == |turns|
    ensures var answer := BeginOrReuseTurn(turns, invocation, index, capacity, budget, lim).1;
            var left := LeftFor(turns, capacity, lim);
            && (!RoomForTurn(turns, invocation, lim) ==> answer == BeginFailure(PLAN_SPEND_LIMIT_REACHED))
            && (RoomForTurn(turns, invocation, lim) && budget(left) == CostLimit ==> answer == BeginFailure(AI_REQUEST_COST_LIMIT))
            && (RoomForTurn(turns, invocation, lim) && budget(left) == Insufficient ==>
                  answer == if left < capacity.available && budget(capacity.available).Funded? then BeginFailure(PLAN_SPEND_LIMIT_REACHED)
                            else if capacity.activeReserved > 0 then BeginCapacityWait else BeginUsageBlocked)
  {}

  /** A turn that no provider has seen is taken up again exactly while it fits beside everything else. */
  lemma ReadmittedIff(turns: seq<Turn>, k: nat, capacity: Capacity, budget: Budget, lim: Limits)
    requires UniqueTurns(turns) && k < |turns| && TurnInv(turns[k], lim.maxReservation)
    requires turns[k].status in {TurnCreated, TurnWaiting, TurnBlocked}
    ensures var x := turns[k];
            var (after, answer) := BeginOrReuseTurn(turns, x.invocation, x.index, capacity, budget, lim);
            var others := Sum(turns, SettledPart()) + Sum(turns, ActivePart()) + Sum(turns, PendingPart())
                          - if x.status == TurnCreated then x.request.estimated else 0;
            && after == turns
            && answer == if Sum(turns, Ours(x.invocation)) <= lim.maxTurns && |PaidIds(turns)| <= lim.maxPaid
                            && Sum(turns, SettledPart()) + x.request.estimated <= lim.maxSettled && others + x.request.estimated <= lim.maxCommitted
                         then BeginNew(k) else BeginFailure(PLAN_SPEND_LIMIT_REACHED)
  {
    FoundAgain(turns, k);
    AnswersTell(k, turns[k], lim.maxReservation);
  }
}
