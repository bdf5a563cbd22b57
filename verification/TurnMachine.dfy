/**
 * All turns of one plan with one live executor per invocation, which may crash between any two
 * transactions and start again, and a reconciler that works on turns no executor holds.
 */
module TurnMachine {
  import opened Basics
  import opened Books
  import opened Turns

  /** Where an executor stands, and on which turn. */
  datatype Pc =
    | Idle
    | Admitted(turn: nat)
    | Restored(turn: nat)
    | Holding(turn: nat)
    | Linked(turn: nat)
    | Started(turn: nat)
    | Called(turn: nat)
    | Streaming(turn: nat)
    | Measured(turn: nat, actual: nat, toolCallError: bool, interrupted: bool)
    | DurablePc(turn: nat)
    | SettlingPc(turn: nat)
    | SettledPc(turn: nat)
    | Released(turn: nat)

  datatype System = System(turns: seq<Turn>, pcs: seq<Pc>)

  datatype Event =
    | Begin(i: nat, index: nat, capacity: Capacity, budget: Budget)
    | Restore(i: nat)
    | Reserve(i: nat, funded: bool)
    | LoseCapacity(i: nat, waiting: bool)
    | FailReservation(i: nat)
    | Link(i: nat)
    | Start(i: nat)
    | Call(i: nat)
    | Stream(i: nat)
    | Measure(i: nat, actual: nat, toolCallError: bool, interrupted: bool)
    | MakeDurable(i: nat)
    | Settling(i: nat)
    | Settle(i: nat)
    | Finish(i: nat)
    | Release(i: nat)
    | FinishRelease(i: nat)
    | GiveUp(i: nat, withActual: bool)
    | Crash(i: nat)
    | ReconcilePartly(k: nat)
    | ReconcileTurn(k: nat)

  predicate At(s: System, i: nat) {
    i < |s.pcs| && !s.pcs[i].Idle? && s.pcs[i].turn < |s.turns|
  }

  function TurnAt(s: System, i: nat): Turn
    requires At(s, i)
  {
    s.turns[s.pcs[i].turn]
  }

  function Move(s: System, i: nat, x: Turn, pc: Pc): System
    requires At(s, i)
  {
    System(s.turns[s.pcs[i].turn := x], s.pcs[i := pc])
  }

  /** No executor holds turn k. */
  predicate Free(s: System, k: nat) {
    forall i :: 0 <= i < |s.pcs| ==> s.pcs[i].Idle? || s.pcs[i].turn != k
  }

  /** A result that leaves the turn for reconciliation; its actual cost is written when it is known. */
  function GivenUp(x: Turn, pc: Pc, withActual: bool): Option<Turn> {
    match pc
    case Linked(_) => Some(MarkReconciliation(x, None))
    case Called(_) => Some(MarkReconciliation(x, None))
    case Streaming(_) => Some(MarkReconciliation(x, None))
    case Measured(_, actual, _, _) =>
      if actual > x.request.estimated && withActual then Some(MarkReconciliation(x, Some(actual))) else Some(MarkReconciliation(x, None))
    case SettlingPc(_) => Some(MarkReconciliation(x, None))
    case SettledPc(_) => Some(MarkReconciliation(x, None))
    case Released(_) => Some(MarkReconciliation(x, None))
    case _ => None
  }

  function Next(s: System, e: Event, lim: Limits): System {
    match e
    case Begin(i, index, capacity, budget) =>
      if i < |s.pcs| && s.pcs[i].Idle? then
        var (turns, outcome) := BeginOrReuseTurn(s.turns, i, index, capacity, budget, lim);
        System(turns, if outcome.BeginNew? then s.pcs[i := Admitted(outcome.turn)] else s.pcs)
      else s
    case Restore(i) =>
      if At(s, i) && s.pcs[i].Admitted? then Move(s, i, RestoreCreated(TurnAt(s, i)), Restored(s.pcs[i].turn)) else s
    case Reserve(i, funded) =>
      if At(s, i) && s.pcs[i].Restored? && CanReserve(TurnAt(s, i).hold, TurnAt(s, i).request.estimated, funded)
      then Move(s, i, TurnAt(s, i).(hold := ReserveHold(TurnAt(s, i).hold, TurnAt(s, i).request.estimated)), Holding(s.pcs[i].turn))
      else s
    case LoseCapacity(i, waiting) =>
      if At(s, i) && s.pcs[i].Restored? && MayLoseCapacity(TurnAt(s, i)) then Move(s, i, MarkUsageWait(TurnAt(s, i), waiting), Idle) else s
    case FailReservation(i) =>
      if At(s, i) && (s.pcs[i].Restored? || s.pcs[i].Holding?) then Move(s, i, MarkPreProviderFailure(TurnAt(s, i)), Idle) else s
    case Link(i) =>
      if At(s, i) && s.pcs[i].Holding? then Move(s, i, LinkReservation(TurnAt(s, i)), Linked(s.pcs[i].turn)) else s
    case Start(i) =>
      if At(s, i) && s.pcs[i].Linked? then Move(s, i, MarkStarting(TurnAt(s, i)), Started(s.pcs[i].turn)) else s
    case Call(i) =>
      if At(s, i) && s.pcs[i].Started? then Move(s, i, CountCall(TurnAt(s, i)), Called(s.pcs[i].turn)) else s
    case Stream(i) =>
      if At(s, i) && s.pcs[i].Called? then Move(s, i, MarkInFlight(TurnAt(s, i)), Streaming(s.pcs[i].turn)) else s
    case Measure(i, actual, toolCallError, interrupted) =>
      if At(s, i) && s.pcs[i].Streaming?
      then Move(s, i, TurnAt(s, i), Measured(s.pcs[i].turn, actual, toolCallError, interrupted)) else s
    case MakeDurable(i) =>
      if At(s, i) && s.pcs[i].Measured? && s.pcs[i].actual <= TurnAt(s, i).request.estimated
      then Move(s, i, MarkDurable(TurnAt(s, i), s.pcs[i].actual, s.pcs[i].toolCallError, s.pcs[i].interrupted), DurablePc(s.pcs[i].turn))
      else s
    case Settling(i) =>
      if At(s, i) && s.pcs[i].DurablePc? then Move(s, i, MarkSettling(TurnAt(s, i)), SettlingPc(s.pcs[i].turn)) else s
    case Settle(i) =>
      if At(s, i) && s.pcs[i].SettlingPc? && TurnAt(s, i).request.actual.Some? && CanSettle(TurnAt(s, i).hold, TurnAt(s, i).request.actual.value)
      then Move(s, i, TurnAt(s, i).(hold := SettleHold(TurnAt(s, i).hold, TurnAt(s, i).request.actual.value)), SettledPc(s.pcs[i].turn))
      else s
    case Finish(i) =>
      if At(s, i) && s.pcs[i].SettledPc? && TurnAt(s, i).hold.Held? then Move(s, i, MarkSettled(TurnAt(s, i)), Idle) else s
    case Release(i) =>
      if At(s, i) && (s.pcs[i].Linked? || s.pcs[i].Called? || s.pcs[i].Streaming?) && CanRelease(TurnAt(s, i).hold)
      then Move(s, i, TurnAt(s, i).(hold := ReleaseHold(TurnAt(s, i).hold)), Released(s.pcs[i].turn)) else s
    case FinishRelease(i) =>
      if At(s, i) && s.pcs[i].Released? then Move(s, i, MarkReleased(TurnAt(s, i)), Idle) else s
    case GiveUp(i, withActual) =>
      if At(s, i) && GivenUp(TurnAt(s, i), s.pcs[i], withActual).Some?
      then Move(s, i, GivenUp(TurnAt(s, i), s.pcs[i], withActual).value, Idle) else s
    case Crash(i) => if i < |s.pcs| then s.(pcs := s.pcs[i := Idle]) else s
    case ReconcilePartly(k) =>
      if k < |s.turns| && Free(s, k) && Scanned(s.turns[k])
      then s.(turns := s.turns[k := ReconcileBilling(s.turns[k])]) else s
    case ReconcileTurn(k) =>
      if k < |s.turns| && Free(s, k) then s.(turns := s.turns[k := Reconcile(s.turns[k])]) else s
  }

  function Run(s: System, es: seq<Event>, lim: Limits): System
    decreases |es|
  {
    if es == [] then s else Run(Next(s, es[0], lim), es[1..], lim)
  }

  // ---- The invariant of one turn ----

  /** A turn that no provider has seen. */
  predicate Untouched(x: Turn) {
    && x.request.financial == FinNone && !x.request.linked && x.request.actual.None? && x.request.userSettled.None?
    && x.calls == 0 && (x.hold.Held? ==> x.hold.status == ACTIVE || x.hold.status == RELEASED)
    && (x.status == TurnCreated || x.status == TurnWaiting || x.status == TurnBlocked)
  }

  predicate HoldInv(x: Turn) {
    x.hold.Held? ==>
      && x.hold.estimated == x.request.estimated > 0
      && (x.hold.status == SETTLED || x.hold.settled == 0) && x.hold.status != ANOMALY
      && (x.hold.status == SETTLED ==>
            && x.request.actual == Some(x.hold.settled) && 0 <= x.hold.settled <= x.hold.estimated)
  }

  /** What the status of the request says about the turn. */
  predicate StatusFits(x: Turn) {
    match x.request.status
    case ReqCreated => Untouched(x)
    case ReqReserved => x.request.linked && x.status == TurnReserved && x.request.actual.None? && x.calls == 0
    case ReqProviderStarted => x.request.linked && x.status == TurnStarting && x.request.actual.None?
    case ReqStreaming =>
      x.request.linked && (if x.request.actual.Some? then x.status == TurnDurable || x.status == TurnSettling else x.status == TurnInFlight)
    case ReqSucceeded => x.status == TurnSucceeded && x.request.actual.Some?
    case ReqFailed => x.status in {TurnSucceeded, TurnFailedPreProvider, TurnFailedSafe}
    case ReqReconciliation => x.status == TurnReconciliation && x.request.linked
  }

  predicate TurnInv(x: Turn, maxReservation: nat) {
    && 0 <= x.request.estimated <= maxReservation
    && x.calls <= 1
    && HoldInv(x) && StatusFits(x)
    && (x.request.linked ==> x.hold.Held?)
    && (x.status in {TurnCreated, TurnWaiting, TurnBlocked} ==> x.request.status == ReqCreated)
    && (x.status == TurnWaiting || x.status == TurnBlocked ==> x.hold.NoHold?)
    && (x.request.userSettled.Some? || Paid(x.request.financial) ==> x.status == TurnSucceeded)
    && (x.status == TurnSucceeded ==>
          && x.hold.Held? && x.hold.status == SETTLED && x.request.linked
          && x.request.userSettled == Some(x.hold.settled) && x.request.financial == FinSettled
          && x.request.status == if x.toolCallError || x.interrupted then ReqFailed else ReqSucceeded)
    && (x.status == TurnReconciliation ==> x.request.status == ReqReconciliation && x.request.financial == FinHold)
    && (x.request.actual.Some? ==>
          && 0 <= x.request.actual.value && x.request.hasText && x.request.linked
          && x.hold.Held? && (x.hold.status == ACTIVE || x.hold.status == SETTLED)
          && (x.request.actual.value <= x.request.estimated || x.status == TurnReconciliation)
          && x.status in {TurnDurable, TurnSettling, TurnSucceeded, TurnReconciliation})
  }

  predicate ActiveHoldOf(x: Turn) { x.hold.Held? && x.hold.status == ACTIVE }

  /** What an executor knows about the turn it holds. */
  predicate PcFits(x: Turn, pc: Pc) {
    match pc
    case Idle => true
    case Admitted(_) => x.request.status == ReqCreated
    case Restored(_) => x.request.status == ReqCreated && x.status == TurnCreated
    case Holding(_) => x.request.status == ReqCreated && x.status == TurnCreated && ActiveHoldOf(x)
    case Linked(_) => x.request.status == ReqReserved && ActiveHoldOf(x)
    case Started(_) => x.request.status == ReqProviderStarted && ActiveHoldOf(x) && x.calls == 0
    case Called(_) => x.request.status == ReqProviderStarted && ActiveHoldOf(x)
    case Streaming(_) => x.status == TurnInFlight && x.request.status == ReqStreaming && ActiveHoldOf(x)
    case Measured(_, _, _, _) => x.status == TurnInFlight && x.request.status == ReqStreaming && ActiveHoldOf(x)
    case DurablePc(_) => x.status == TurnDurable && x.request.status == ReqStreaming && ActiveHoldOf(x)
    case SettlingPc(_) => x.status == TurnSettling && x.request.status == ReqStreaming && ActiveHoldOf(x)
    case SettledPc(_) => x.status == TurnSettling && x.hold.Held? && x.hold.status == SETTLED
    case Released(_) =>
      && x.hold.Held? && x.hold.status == RELEASED && x.request.linked && x.request.actual.None?
      && x.request.status in {ReqReserved, ReqProviderStarted, ReqStreaming}
  }

  // ---- The invariant of the plan ----

  ghost predicate UniqueTurns(turns: seq<Turn>) {
    forall j, k :: 0 <= j < k < |turns| ==> !(turns[j].invocation == turns[k].invocation && turns[j].index == turns[k].index)
  }

  ghost predicate SystemInv(s: System, lim: Limits) {
    && (forall k :: 0 <= k < |s.turns| ==> TurnInv(s.turns[k], lim.maxReservation))
    && (forall i :: 0 <= i < |s.pcs| && !s.pcs[i].Idle? ==>
          s.pcs[i].turn < |s.turns| && s.turns[s.pcs[i].turn].invocation == i && PcFits(s.turns[s.pcs[i].turn], s.pcs[i]))
    && UniqueTurns(s.turns)
    && (forall i: nat :: Sum(s.turns, Ours(i)) <= lim.maxTurns)
    && |PaidIds(s.turns)| <= lim.maxPaid
  }
}
