/**
 * Durable paid provider turns: the records that the executor
 * (apps/worker/src/external-ai-invocation-executor.ts) and the reconciler
 * (packages/ai/src/reconciliation.ts) write, what they mean for the plan's spending, and the
 * writes themselves, each one transaction.
 */
module Turns {
  import opened Basics
  import opened Books

  datatype TurnStatus = TurnCreated | TurnWaiting | TurnBlocked | TurnReserved | TurnStarting | TurnInFlight
                      | TurnDurable | TurnSettling | TurnSucceeded | TurnFailedPreProvider | TurnFailedSafe
                      | TurnReconciliation

  datatype RequestStatus = ReqCreated | ReqReserved | ReqProviderStarted | ReqStreaming
                         | ReqSucceeded | ReqFailed | ReqReconciliation

  datatype FinancialStatus = FinNone | FinReserved | FinSettled | FinAnomaly | FinReleased | FinHold

  /** The user's reservation for a request, as the billing engine holds it. */
  datatype Hold = NoHold | Held(status: ReservationStatus, estimated: int, settled: int)

  /** `linked` says that the request names its reservation; `hasText` that output text is stored. */
  datatype Request = Request(status: RequestStatus, financial: FinancialStatus, estimated: int, linked: bool,
                             actual: Option<int>, userSettled: Option<int>, hasText: bool)

  /** A turn, unique by (invocation, index), with its request; `calls` counts calls of the provider. */
  datatype Turn = Turn(invocation: nat, index: nat, status: TurnStatus, request: Request, hold: Hold,
                       toolCallError: bool, interrupted: bool, calls: nat)

  // ---- What a turn costs its plan ----

  datatype SpendClass = SpendNothing | SpendActive(amount: int) | SpendSettled(amount: int) | SpendPending(amount: int)

  function Classify(x: Turn): SpendClass {
    if x.request.linked && x.hold.Held? && x.hold.status == ACTIVE then SpendActive(x.hold.estimated)
    else if x.request.linked && x.hold.Held? && (x.hold.status == SETTLED || x.hold.status == ANOMALY) then SpendSettled(x.hold.settled)
    else if x.request.userSettled.Some? then SpendSettled(x.request.userSettled.value)
    else if x.status == TurnCreated && x.request.status == ReqCreated && x.request.financial == FinNone
    then SpendPending(x.request.estimated)
    else SpendNothing
  }

  function SettledPart(): Turn -> int { (x: Turn) => match Classify(x) case SpendSettled(a) => a case _ => 0 }

  function ActivePart(): Turn -> int { (x: Turn) => match Classify(x) case SpendActive(a) => a case _ => 0 }

  function PendingPart(): Turn -> int { (x: Turn) => match Classify(x) case SpendPending(a) => a case _ => 0 }

  /** Everything a turn takes out of the committed envelope. */
  function Committed(): Turn -> int { (x: Turn) => match Classify(x) case SpendNothing => 0 case c => c.amount }

  function Ours(invocation: nat): Turn -> int { (x: Turn) => if x.invocation == invocation then 1 else 0 }

  function PaidIds(turns: seq<Turn>): set<nat> { set x | x in turns :: x.invocation }

  datatype PlanSpend = PlanSpend(paidInvocationIds: set<nat>, providerTurnsForInvocation: int,
                                 settled: int, activeReserved: int, pendingAdmission: int)

  function SpendOf(turns: seq<Turn>, invocation: nat): PlanSpend {
    PlanSpend(PaidIds(turns), Sum(turns, Ours(invocation)), Sum(turns, SettledPart()), Sum(turns, ActivePart()), Sum(turns, PendingPart()))
  }

  // ---- Admission ----

  datatype Limits = Limits(maxTurns: nat, maxPaid: nat, maxSettled: int, maxCommitted: int, maxReservation: nat)

  datatype BudgetResult = Funded(estimate: nat) | Insufficient | CostLimit

  /** The execution budget as a function of what is available; the other inputs are fixed. */
  type Budget = int -> BudgetResult

  ghost predicate SoundBudget(budget: Budget, maxReservation: nat) {
    forall available :: budget(available).Funded? ==> budget(available).estimate <= maxReservation
  }

  datatype Capacity = Capacity(available: int, activeReserved: int)

  datatype FailureCode = PLAN_SPEND_LIMIT_REACHED | AI_REQUEST_COST_LIMIT | AI_TOOL_CALL_INVALID | AI_PROVIDER_INTERRUPTED
                       | AI_RECONCILIATION_REQUIRED | AI_REQUEST_PREVIOUSLY_FAILED

  datatype Begin = BeginNew(turn: nat) | BeginReplay(turn: nat) | BeginInProgress | BeginFailure(code: FailureCode)
                 | BeginCapacityWait | BeginUsageBlocked

  predicate InProgress(s: RequestStatus) { s in {ReqCreated, ReqReserved, ReqProviderStarted, ReqStreaming} }

  predicate Paid(f: FinancialStatus) { f == FinSettled || f == FinAnomaly }

  function ExistingProviderTurnOutcome(k: nat, x: Turn): Begin {
    var r := x.request;
    if r.status == ReqCreated && r.financial == FinNone then BeginNew(k)
    else if r.status == ReqSucceeded && r.hasText then BeginReplay(k)
    else if x.toolCallError && Paid(r.financial) then BeginFailure(AI_TOOL_CALL_INVALID)
    else if x.interrupted && Paid(r.financial) then BeginFailure(AI_PROVIDER_INTERRUPTED)
    else if InProgress(r.status) then BeginInProgress
    else if r.status == ReqReconciliation || x.status == TurnReconciliation then BeginFailure(AI_RECONCILIATION_REQUIRED)
    else BeginFailure(AI_REQUEST_PREVIOUSLY_FAILED)
  }

  /** The turn with this idempotency key, or the number of turns. */
  function FindTurn(turns: seq<Turn>, invocation: nat, index: nat): (k: nat)
    ensures k <= |turns|
    ensures k < |turns| ==> turns[k].invocation == invocation && turns[k].index == index
    ensures k == |turns| ==> forall j :: 0 <= j < |turns| ==> !(turns[j].invocation == invocation && turns[j].index == index)
  {
    if turns == [] then 0
    else if turns[0].invocation == invocation && turns[0].index == index then 0
    else 1 + FindTurn(turns[1..], invocation, index)
  }

  function NewTurn(invocation: nat, index: nat, estimate: nat): Turn {
    Turn(invocation, index, TurnCreated, Request(ReqCreated, FinNone, estimate, false, None, None, false), NoHold, false, false, 0)
  }

  /** Re-admission of a turn that exists: its own pending share is not held against it. */
  function Readmit(spend: PlanSpend, k: nat, x: Turn, lim: Limits): Begin {
    var own := if x.status == TurnCreated && x.request.status == ReqCreated && x.request.financial == FinNone
               then x.request.estimated else 0;
    var otherCommitted := spend.settled + spend.activeReserved + spend.pendingAdmission - own;
    if spend.providerTurnsForInvocation > lim.maxTurns || |spend.paidInvocationIds| > lim.maxPaid
    then BeginFailure(PLAN_SPEND_LIMIT_REACHED)
    else if spend.settled + x.request.estimated > lim.maxSettled || otherCommitted + x.request.estimated > lim.maxCommitted
    then BeginFailure(PLAN_SPEND_LIMIT_REACHED)
    else BeginNew(k)
  }

  /** What is left of both plan ceilings. */
  function PlanAvailable(spend: PlanSpend, lim: Limits): int {
    Min(lim.maxSettled - spend.settled,
        lim.maxCommitted - (spend.settled + spend.activeReserved + spend.pendingAdmission))
  }

  /** Whether and at what estimate a new turn is admitted. */
  function AdmitNew(spend: PlanSpend, invocation: nat, capacity: Capacity, budget: Budget, lim: Limits): Result<nat, Begin> {
    var planAvailable := PlanAvailable(spend, lim);
    var available := Min(capacity.available, planAvailable);
    if spend.providerTurnsForInvocation >= lim.maxTurns
       || (invocation !in spend.paidInvocationIds && |spend.paidInvocationIds| >= lim.maxPaid)
    then Err(BeginFailure(PLAN_SPEND_LIMIT_REACHED))
    else if planAvailable <= 0 then Err(BeginFailure(PLAN_SPEND_LIMIT_REACHED))
    else
      match budget(available)
      case Insufficient =>
        if available < capacity.available && budget(capacity.available).Funded? then Err(BeginFailure(PLAN_SPEND_LIMIT_REACHED))
        else Err(if capacity.activeReserved > 0 then BeginCapacityWait else BeginUsageBlocked)
      case CostLimit => Err(BeginFailure(AI_REQUEST_COST_LIMIT))
      case Funded(estimate) =>
        if spend.settled + estimate > lim.maxSettled
           || spend.settled + spend.activeReserved + spend.pendingAdmission + estimate > lim.maxCommitted
        then Err(BeginFailure(PLAN_SPEND_LIMIT_REACHED))
        else Ok(estimate)
  }

  /** beginOrReuseTurn, under the plan's row lock. */
  function BeginOrReuseTurn(turns: seq<Turn>, invocation: nat, index: nat, capacity: Capacity, budget: Budget, lim: Limits)
    : (seq<Turn>, Begin)
  {
    var k, spend := FindTurn(turns, invocation, index), SpendOf(turns, invocation);
    if k < |turns| then
      var outcome := ExistingProviderTurnOutcome(k, turns[k]);
      (turns, if outcome.BeginNew? then Readmit(spend, k, turns[k], lim) else outcome)
    else
      match AdmitNew(spend, invocation, capacity, budget, lim)
      case Err(refusal) => (turns, refusal)
      case Ok(estimate) => (turns + [NewTurn(invocation, index, estimate)], BeginNew(k))
  }

  // ---- The billing engine's answers ----

  predicate CanReserve(h: Hold, estimate: int, funded: bool) {
    estimate > 0 && match h case NoHold => funded case Held(status, estimated, _) => status == ACTIVE && estimated == estimate
  }

  function ReserveHold(h: Hold, estimate: int): Hold { if h.NoHold? then Held(ACTIVE, estimate, 0) else h }

  /** Settling within the estimate, or repeating a settlement. */
  predicate CanSettle(h: Hold, actual: int) {
    h.Held? && 0 <= actual && ((h.status == ACTIVE && actual <= h.estimated) || (h.status == SETTLED && h.settled == actual))
  }

  function SettleHold(h: Hold, actual: int): Hold
    requires CanSettle(h, actual)
  {
    Held(SETTLED, h.estimated, actual)
  }

  predicate CanRelease(h: Hold) { h.Held? && (h.status == ACTIVE || h.status == RELEASED) }

  function ReleaseHold(h: Hold): Hold
    requires CanRelease(h)
  {
    h.(status := RELEASED)
  }

  /** reserveUsage answers that there is not enough usage only for a request that holds nothing yet. */
  predicate MayLoseCapacity(x: Turn) { x.hold.NoHold? || x.request.estimated <= 0 }

  // ---- The executor's writes ----

  function RestoreCreated(x: Turn): Turn { if x.status == TurnWaiting || x.status == TurnBlocked then x.(status := TurnCreated) else x }

  function MarkUsageWait(x: Turn, waiting: bool): Turn { x.(status := if waiting then TurnWaiting else TurnBlocked) }

  function MarkPreProviderFailure(x: Turn): Turn {
    x.(status := TurnFailedPreProvider, request := x.request.(status := ReqFailed, financial := FinNone))
  }

  function LinkReservation(x: Turn): Turn {
    x.(status := TurnReserved, request := x.request.(status := ReqReserved, financial := FinReserved, linked := true))
  }

  function MarkStarting(x: Turn): Turn { x.(status := TurnStarting, request := x.request.(status := ReqProviderStarted)) }

  function CountCall(x: Turn): Turn { x.(calls := x.calls + 1) }

  function MarkInFlight(x: Turn): Turn { x.(status := TurnInFlight, request := x.request.(status := ReqStreaming)) }

  function MarkDurable(x: Turn, actual: int, toolCallError: bool, interrupted: bool): Turn {
    x.(status := TurnDurable, toolCallError := toolCallError, interrupted := interrupted,
       request := x.request.(actual := Some(actual), hasText := true))
  }

  function MarkSettling(x: Turn): Turn { x.(status := TurnSettling) }

  function MarkSettled(x: Turn): Turn
    requires x.hold.Held?
  {
    x.(status := TurnSucceeded,
       request := x.request.(status := if x.toolCallError || x.interrupted then ReqFailed else ReqSucceeded,
                             financial := if x.hold.status == ANOMALY then FinAnomaly else FinSettled,
                             userSettled := Some(x.hold.settled)))
  }

  function MarkReleased(x: Turn): Turn {
    x.(status := TurnFailedSafe, request := x.request.(status := ReqFailed, financial := FinReleased))
  }

  /** markReconciliation, with the actual cost when it is known. */
  function MarkReconciliation(x: Turn, actual: Option<int>): Turn {
    x.(status := TurnReconciliation,
       request := x.request.(status := ReqReconciliation, financial := FinHold, hasText := true,
                             actual := if actual.Some? then actual else x.request.actual))
  }

  // ---- The reconciler ----

  predicate PreProvider(s: TurnStatus) { s == TurnCreated || s == TurnReserved }

  predicate PostProvider(s: TurnStatus) { s in {TurnStarting, TurnInFlight, TurnDurable, TurnSettling, TurnReconciliation} }

  /** The scan selects the turn. */
  predicate Scanned(x: Turn) { PreProvider(x.status) || PostProvider(x.status) }

  function HoldAmbiguous(x: Turn): Turn {
    x.(status := TurnReconciliation,
       request := x.request.(linked := x.hold.Held?, status := ReqReconciliation, financial := FinHold))
  }

  predicate Settles(x: Turn) {
    x.request.actual.Some? && x.hold.Held? && x.request.actual.value <= x.hold.estimated && x.hold.status == ACTIVE
  }

  predicate Finalizes(x: Turn) {
    x.request.actual.Some? && x.hold.Held? && x.request.actual.value <= x.hold.estimated && x.hold.status != RELEASED
  }

  predicate Releases(x: Turn) { x.request.actual.None? && PreProvider(x.status) && x.hold.Held? && x.hold.status == ACTIVE }

  /** A pass leaves the turn on hold: provider work of unknown cost, or a reservation that contradicts the record. */
  predicate Holds(x: Turn) {
    if x.request.actual.Some? then !Finalizes(x)
    else !PreProvider(x.status) || (x.hold.Held? && x.hold.status != ACTIVE && x.hold.status != RELEASED)
  }

  /** A pass fails a turn that never reserved. */
  predicate FailsUnreserved(x: Turn) { x.request.actual.None? && PreProvider(x.status) && x.hold.NoHold? }

  /** The part of a pass that asks the billing engine; a crash may follow it. */
  function ReconcileBilling(x: Turn): Turn {
    if Settles(x) && x.request.actual.value >= 0 then x.(hold := SettleHold(x.hold, x.request.actual.value))
    else if Releases(x) then x.(hold := ReleaseHold(x.hold))
    else x
  }

  function FinalRequest(x: Turn): Turn
    requires x.hold.Held?
  {
    x.(status := TurnSucceeded,
       request := x.request.(linked := true,
                             status := if !x.request.hasText || x.toolCallError || x.interrupted then ReqFailed else ReqSucceeded,
                             financial := if x.hold.status == ANOMALY then FinAnomaly else FinSettled,
                             userSettled := Some(x.hold.settled)))
  }

  /** failBeforeProvider after the reservation, if any, is released. */
  function FailedBefore(x: Turn): Turn {
    x.(status := TurnFailedPreProvider,
       request := x.request.(linked := x.hold.Held?, status := ReqFailed, financial := if x.hold.Held? then FinReleased else FinNone))
  }

  /** The part of a pass that writes the request and the turn. */
  function ReconcileRecord(x: Turn): Turn {
    if x.request.actual.Some? then (if Finalizes(x) then FinalRequest(x) else HoldAmbiguous(x))
    else if PreProvider(x.status) then
      (if x.hold.Held? && x.hold.status != RELEASED then HoldAmbiguous(x) else FailedBefore(x))
    else HoldAmbiguous(x)
  }

  /** reconcileProviderTurn on a turn that the scan selects. */
  function Reconcile(x: Turn): Turn {
    if Scanned(x) then ReconcileRecord(ReconcileBilling(x)) else x
  }
}
