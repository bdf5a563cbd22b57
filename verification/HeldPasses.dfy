/**
 * A reconciler pass on a turn that an executor still holds, which only staleness prevents
 * (packages/ai/src/reconciliation.ts): what it breaks, and from where on it is harmless.
 */
module HeldPasses {
  import opened Basics
  import opened Books
  import opened Turns
  import opened TurnMachine
  import opened TurnInvariant
  import opened TurnRecovery
  import P = ProviderTurns

  /** A complete pass on the turn executor i holds. */
  function PassOn(s: System, i: nat): System
    requires At(s, i)
  {
    s.(turns := s.turns[s.pcs[i].turn := Reconcile(TurnAt(s, i))])
  }

  lemma PassUnsettlesExecutor(x: Turn, pc: Pc, maxReservation: nat)
    requires TurnInv(x, maxReservation) && PcFits(x, pc) && !pc.Idle? && Scanned(x)
    ensures !PcFits(Reconcile(x), pc)
  {}

  /** A pass on a held turn leaves the executor where it believes to be exactly when the scan would not select the turn. */
  lemma PassOnHeldTurnIff(s: System, i: nat, lim: Limits)
    requires SystemInv(s, lim) && At(s, i)
    ensures SystemInv(PassOn(s, i), lim) <==> !Scanned(TurnAt(s, i))
  {
    var k := s.pcs[i].turn;
    if Scanned(s.turns[k]) {
      PassUnsettlesExecutor(s.turns[k], s.pcs[i], lim.maxReservation);
      assert PassOn(s, i).turns[k] == Reconcile(s.turns[k]) && PassOn(s, i).pcs[i] == s.pcs[i];
    } else {
      assert PassOn(s, i) == s;
    }
  }

  /** It takes the reservation away from under the executor exactly before the provider's start. */
  lemma PassReleasesIff(x: Turn, pc: Pc, maxReservation: nat)
    requires TurnInv(x, maxReservation) && PcFits(x, pc) && !pc.Idle? && ActiveHoldOf(x)
    ensures Reconcile(x).hold.status == RELEASED <==> PreProvider(x.status)
  {}

  /**
   * And then the executor goes on regardless: it calls the provider without a reservation, and what the
   * provider charges is never settled, though the turn stays on hold.
   */
  lemma PassBeforeStartIsNeverPaid(x: Turn, w: P.World, maxReservation: nat)
    requires TurnInv(x, maxReservation) && PcFits(x, Linked(0)) && !w.answer.Misconfigured?
    ensures var y := P.Answered(Reconcile(x), w).0;
            && y.calls == 1 && y.hold == Held(RELEASED, x.request.estimated, 0)
            && (w.answer.Usage? ==> y.status == TurnReconciliation && Reconcile(y) == y)
  {}

  /** The marks of a hold, over whatever the executor had written. */
  function Marked(x: Turn): Turn {
    x.(status := TurnReconciliation, request := x.request.(status := ReqReconciliation, financial := FinHold))
  }

  lemma PassOnlyMarks(x: Turn, pc: Pc, maxReservation: nat)
    requires TurnInv(x, maxReservation) && PcFits(x, pc) && (pc.Started? || pc.Called? || pc.Streaming? || pc.Measured?)
    ensures Reconcile(x) == Marked(x)
  {}

  lemma MarksAreOverwritten(x: Turn, actual: nat, toolCallError: bool, interrupted: bool, call: P.BillingCall)
    ensures P.Metered(Marked(x), actual, toolCallError, interrupted, call) == P.Metered(x, actual, toolCallError, interrupted, call)
    ensures P.ReleasedSafely(Marked(x), call) == P.ReleasedSafely(x, call)
    ensures MarkReconciliation(Marked(x), None) == MarkReconciliation(x, None)
  {}

  /** Once the provider is started, a pass leaves no trace on how the executor ends the turn: streamed and metered, released or held. */
  lemma PassAfterStartLeavesNoTrace(x: Turn, pc: Pc, actual: nat, toolCallError: bool, interrupted: bool, call: P.BillingCall, maxReservation: nat)
    requires TurnInv(x, maxReservation) && PcFits(x, pc) && (pc.Started? || pc.Called? || pc.Streaming? || pc.Measured?)
    ensures P.Metered(Reconcile(x), actual, toolCallError, interrupted, call) == P.Metered(x, actual, toolCallError, interrupted, call)
    ensures P.ReleasedSafely(Reconcile(x), call) == P.ReleasedSafely(x, call)
    ensures MarkReconciliation(Reconcile(x), None) == MarkReconciliation(x, None)
    ensures Marked(MarkInFlight(CountCall(Reconcile(x)))) == Marked(MarkInFlight(CountCall(x)))
  {
    PassOnlyMarks(x, pc, maxReservation);
    MarksAreOverwritten(x, actual, toolCallError, interrupted, call);
  }

  /** A pass that settles before or after the executor does brings the turn to the end it would have had, at once or with one more pass. */
  lemma PassAroundSettlementIsHarmless(x: Turn, pc: Pc, call: P.BillingCall, maxReservation: nat)
    requires TurnInv(x, maxReservation) && PcFits(x, pc) && (pc.DurablePc? || pc.SettlingPc? || pc.SettledPc?) && x.request.actual.Some?
    ensures x.request.actual.value >= 0
    ensures pc.SettledPc? ==> MarkSettled(x) == MarkSettled(Reconcile(x)) == Outcome(x)
    ensures var actual, y := x.request.actual.value, if pc.DurablePc? then MarkSettling(Reconcile(x)) else Reconcile(x);
            !pc.SettledPc? ==>
              && P.SettledBy(y, actual, P.Answers) == (Outcome(x), true)
              && Reconcile(P.SettledBy(y, actual, call).0) == Outcome(x)
  {}
}
