/**
 * The executor's and the reconciler's transactions on the turns of one plan as they run, each
 * proved to leave what modules Turns and TurnMachine describe.
 */
module ProviderTurns {
  import opened Basics
  import opened Books
  import opened Turns
  import opened TurnMachine
  import opened TurnInvariant
  import opened TurnRecovery
  import opened StrandedHolds

  datatype Counters = Counters(scanned: nat, settled: nat, released: nat, held: nat, failedBeforeProvider: nat, finalized: nat, errors: nat)

  /** What may throw inside the pass over one turn: the billing call, in effect or not, or the record written last. */
  datatype Trouble = Smooth | CallBreaks(committed: bool) | RecordBreaks

  /** How the provider's part goes; an error may come before the stream has begun or during it. */
  datatype ProviderAnswer =
    | Usage(actual: Option<nat>, withinCaps: bool, toolCallError: bool, interrupted: bool)
    | Ambiguous(streaming: bool)
    | Rejected(streaming: bool)
    | Misconfigured

  /** A call of the billing engine: its answer arrives, or some other error does, whether or not it took effect. */
  datatype BillingCall = Answers | Breaks(committed: bool)

  /** Everything outside the turn that one execution of it meets. */
  datatype World = World(reserve: BillingCall, funded: bool, othersReserve: bool, running: bool,
                         answer: ProviderAnswer, release: BillingCall, settle: BillingCall)

  datatype Verdict = Done | Failed(code: VerdictCode) | WaitsForUsage | BlockedOnUsage

  datatype VerdictCode = ToolCallInvalid | Interrupted | Canceled | NotReserved | ReservationBroke | NeedsReconciliation
                       | OutOfBounds | ProviderRejected | ProviderMismatch

  predicate TakesEffect(call: BillingCall) { call.Answers? || call.committed }

  /** releaseReservationAfterSafeFailure, and whether it succeeded. */
  function ReleasedSafely(x: Turn, call: BillingCall): (Turn, bool) {
    var released := if CanRelease(x.hold) && TakesEffect(call) then x.(hold := ReleaseHold(x.hold)) else x;
    if CanRelease(x.hold) && call.Answers? then (MarkReleased(released), true) else (MarkReconciliation(released, None), false)
  }

  /** The settlement of a turn whose cost is stored. */
  function SettledBy(x: Turn, actual: nat, call: BillingCall): (Turn, bool) {
    var settled := if CanSettle(x.hold, actual) && TakesEffect(call) then x.(hold := SettleHold(x.hold, actual)) else x;
    if CanSettle(x.hold, actual) && call.Answers? then (MarkSettled(settled), true) else (MarkReconciliation(settled, None), false)
  }

  function AnswerVerdict(toolCallError: bool, interrupted: bool): Verdict {
    if toolCallError then Failed(ToolCallInvalid) else if interrupted then Failed(Interrupted) else Done
  }

  /** A streaming turn after the provider reported usage. */
  function Metered(x: Turn, actual: nat, toolCallError: bool, interrupted: bool, settle: BillingCall): (Turn, Verdict) {
    if actual > x.request.estimated then (MarkReconciliation(x, Some(actual)), Failed(OutOfBounds))
    else
      var (y, settled) := SettledBy(MarkSettling(MarkDurable(x, actual, toolCallError, interrupted)), actual, settle);
      (y, if settled then AnswerVerdict(toolCallError, interrupted) else Failed(NeedsReconciliation))
  }

  /** callProvider and what follows it, on a turn that holds its reservation. */
  function Answered(x: Turn, w: World): (Turn, Verdict) {
    var called := CountCall(MarkStarting(x));
    match w.answer
    case Misconfigured => (ReleasedSafely(x, w.release).0, Failed(ProviderMismatch))
    case Ambiguous(streaming) => (MarkReconciliation(if streaming then MarkInFlight(called) else called, None), Failed(NeedsReconciliation))
    case Rejected(streaming) =>
      var (y, released) := ReleasedSafely(if streaming then MarkInFlight(called) else called, w.release);
      (y, Failed(if released then ProviderRejected else NeedsReconciliation))
    case Usage(actual, withinCaps, toolCallError, interrupted) =>
      var streamed := MarkInFlight(called);
      if !withinCaps then (MarkReconciliation(streamed, None), Failed(OutOfBounds))
      else if actual.None? then (MarkReconciliation(streamed, None), Failed(NeedsReconciliation))
      else Metered(streamed, actual.value, toolCallError, interrupted, w.settle)
  }

  /** reserveUsage fails otherwise than by its own answer; an amount that is not positive it refuses before anything else. */
  predicate ReserveBreaks(x: Turn, w: World) { w.reserve.Breaks? && x.request.estimated > 0 }

  predicate Reserves(x: Turn, w: World) { CanReserve(x.hold, x.request.estimated, w.funded) && TakesEffect(w.reserve) }

  function AfterReserve(x: Turn, w: World): Turn {
    if Reserves(x, w) then x.(hold := ReserveHold(x.hold, x.request.estimated)) else x
  }

  /** One admitted turn from its reservation to its end. */
  function Executed(x: Turn, w: World): (Turn, Verdict) {
    var created := RestoreCreated(x);
    if ReserveBreaks(created, w) then (MarkPreProviderFailure(AfterReserve(created, w)), Failed(ReservationBroke))
    else if !CanReserve(created.hold, created.request.estimated, w.funded) then
      if MayLoseCapacity(created)
      then (MarkUsageWait(created, w.othersReserve), if w.othersReserve then WaitsForUsage else BlockedOnUsage)
      else (MarkPreProviderFailure(created), Failed(NotReserved))
    else
      var linked := LinkReservation(AfterReserve(created, w));
      if !w.running then (ReleasedSafely(linked, w.release).0, Failed(Canceled)) else Answered(linked, w)
  }

  class ProviderTurns {
    const limits: Limits
    var turns: seq<Turn>
    var counters: Counters

    ghost predicate Valid()
      reads this
    {
      && TablesInv(turns, limits)
      && forall k :: 0 <= k < |turns| ==> TurnInv(turns[k], limits.maxReservation)
    }

    constructor (limits: Limits)
      ensures Valid() && turns == [] && this.limits == limits && counters == Counters(0, 0, 0, 0, 0, 0, 0)
    {
      this.limits, turns, counters := limits, [], Counters(0, 0, 0, 0, 0, 0, 0);
      new;
      assert PaidIds([]) == {};
    }

    /** The loop that sorts every turn of the plan into what it costs. */
    method GetPlanSpendState(invocation: nat) returns (spend: PlanSpend)
      ensures spend == SpendOf(turns, invocation)
    {
      var paidInvocationIds: set<nat>, providerTurnsForInvocation := {}, 0;
      var settled, activeReserved, pendingAdmission := 0, 0, 0;
      var k := 0;
      while k < |turns|
        invariant 0 <= k <= |turns|
        invariant PlanSpend(paidInvocationIds, providerTurnsForInvocation, settled, activeReserved, pendingAdmission)
                  == SpendOf(turns[..k], invocation)
      {
        var turn := turns[k];
        SpendOneMore(turns, k, invocation);
        paidInvocationIds := paidInvocationIds + {turn.invocation};
        if turn.invocation == invocation { providerTurnsForInvocation := providerTurnsForInvocation + 1; }
        var r := turn.request;
        if r.linked && turn.hold.Held? && turn.hold.status == ACTIVE {
          activeReserved := activeReserved + turn.hold.estimated;
        } else if r.linked && turn.hold.Held? && (turn.hold.status == SETTLED || turn.hold.status == ANOMALY) {
          settled := settled + turn.hold.settled;
        } else if r.userSettled.Some? {
          settled := settled + r.userSettled.value;
        } else if turn.status == TurnCreated && r.status == ReqCreated && r.financial == FinNone {
          pendingAdmission := pendingAdmission + r.estimated;
        }
        k := k + 1;
      }
      assert turns[..k] == turns;
      spend := PlanSpend(paidInvocationIds, providerTurnsForInvocation, settled, activeReserved, pendingAdmission);
    }

    method BeginOrReuseTurn(invocation: nat, index: nat, capacity: Capacity, budget: Budget) returns (r: Begin)
      requires Valid() && SoundBudget(budget, limits.maxReservation)
      modifies this`turns
      ensures Valid() && (turns, r) == Turns.BeginOrReuseTurn(old(turns), invocation, index, capacity, budget, limits)
    {
      var spend := GetPlanSpendState(invocation);
      var k := FindTurn(turns, invocation, index);
      if k < |turns| {
        var outcome := ExistingProviderTurnOutcome(k, turns[k]);
        if !outcome.BeginNew? { return outcome; }
        return Readmit(spend, k, turns[k], limits);
      }
      var admitted := AdmitNew(spend, invocation, capacity, budget, limits);
      if admitted.Err? { return admitted.error; }
      AppendKeepsTables(turns, invocation, index, admitted.value, capacity, budget, limits);
      NewTurnIsSound(invocation, index, admitted.value, limits.maxReservation);
      turns := turns + [NewTurn(invocation, index, admitted.value)];
      r := BeginNew(k);
    }

    method Write(k: nat, x: Turn)
      requires k < |turns|
      modifies this`turns
      ensures turns == old(turns)[k := x]
    {
      turns := turns[k := x];
    }

    // ---- The executor on one admitted turn ----

    method ExecuteTurn(k: nat, w: World) returns (verdict: Verdict)
      requires k < |turns|
      modifies this`turns
      ensures turns == old(turns)[k := Executed(old(turns)[k], w).0] && verdict == Executed(old(turns)[k], w).1
      ensures old(Valid() && turns[k].request.status == ReqCreated) ==> Valid()
    {
      if Valid() && turns[k].request.status == ReqCreated { ExecutionKeepsPlan(turns, k, w, limits); }
      var turn := RestoreCreated(turns[k]);
      Write(k, turn);
      var grantable := CanReserve(turn.hold, turn.request.estimated, w.funded);
      if grantable && TakesEffect(w.reserve) {
        turn := turn.(hold := ReserveHold(turn.hold, turn.request.estimated));
        Write(k, turn);
      }
      if w.reserve.Breaks? && turn.request.estimated > 0 {
        Write(k, MarkPreProviderFailure(turn));
        return Failed(ReservationBroke);
      }
      if !grantable {
        if turn.request.estimated <= 0 || turn.hold.NoHold? {
          Write(k, MarkUsageWait(turn, w.othersReserve));
          return if w.othersReserve then WaitsForUsage else BlockedOnUsage;
        }
        Write(k, MarkPreProviderFailure(turn));
        return Failed(NotReserved);
      }
      turn := LinkReservation(turn);
      Write(k, turn);
      if !w.running {
        var released := ReleaseReservationAfterSafeFailure(k, w.release);
        return Failed(Canceled);
      }
      verdict := CallProvider(k, w);
    }

    method ReleaseReservationAfterSafeFailure(k: nat, call: BillingCall) returns (released: bool)
      requires k < |turns|
      modifies this`turns
      ensures turns == old(turns)[k := ReleasedSafely(old(turns)[k], call).0] && released == ReleasedSafely(old(turns)[k], call).1
    {
      var turn := turns[k];
      var releasable := CanRelease(turn.hold);
      if releasable && TakesEffect(call) {
        turn := turn.(hold := ReleaseHold(turn.hold));
        Write(k, turn);
      }
      released := releasable && call.Answers?;
      if released { Write(k, MarkReleased(turn)); } else { Write(k, MarkReconciliation(turn, None)); }
    }

    method CallProvider(k: nat, w: World) returns (verdict: Verdict)
      requires k < |turns|
      modifies this`turns
      ensures turns == old(turns)[k := Answered(old(turns)[k], w).0] && verdict == Answered(old(turns)[k], w).1
    {
      if w.answer.Misconfigured? {
        var released := ReleaseReservationAfterSafeFailure(k, w.release);
        return Failed(ProviderMismatch);
      }
      var turn := MarkStarting(turns[k]);
      Write(k, turn);
      turn := CountCall(turn);
      Write(k, turn);
      if w.answer.Usage? || w.answer.streaming {
        turn := MarkInFlight(turn);
        Write(k, turn);
      }
      match w.answer
      case Ambiguous(_) =>
        Write(k, MarkReconciliation(turn, None));
        verdict := Failed(NeedsReconciliation);
      case Rejected(_) =>
        var released := ReleaseReservationAfterSafeFailure(k, w.release);
        verdict := Failed(if released then ProviderRejected else NeedsReconciliation);
      case Usage(actual, withinCaps, toolCallError, interrupted) =>
        if !withinCaps {
          Write(k, MarkReconciliation(turn, None));
          return Failed(OutOfBounds);
        }
        if actual.None? {
          Write(k, MarkReconciliation(turn, None));
          return Failed(NeedsReconciliation);
        }
        verdict := SettleAnswer(k, actual.value, toolCallError, interrupted, w.settle);
    }

    method SettleAnswer(k: nat, actual: nat, toolCallError: bool, interrupted: bool, call: BillingCall) returns (verdict: Verdict)
      requires k < |turns|
      modifies this`turns
      ensures turns == old(turns)[k := Metered(old(turns)[k], actual, toolCallError, interrupted, call).0]
      ensures verdict == Metered(old(turns)[k], actual, toolCallError, interrupted, call).1
    {
      var turn := turns[k];
      if actual > turn.request.estimated {
        Write(k, MarkReconciliation(turn, Some(actual)));
        return Failed(OutOfBounds);
      }
      turn := MarkDurable(turn, actual, toolCallError, interrupted);
      Write(k, turn);
      turn := MarkSettling(turn);
      Write(k, turn);
      var settleable := CanSettle(turn.hold, actual);
      if settleable && TakesEffect(call) {
        turn := turn.(hold := SettleHold(turn.hold, actual));
        Write(k, turn);
      }
      if !settleable || call.Breaks? {
        Write(k, MarkReconciliation(turn, None));
        return Failed(NeedsReconciliation);
      }
      Write(k, MarkSettled(turn));
      verdict := if toolCallError then Failed(ToolCallInvalid) else if interrupted then Failed(Interrupted) else Done;
    }

    // ---- The reconciler ----

    /** One turn reconciled; threw says that an error left the pass. */
    method ReconcileProviderTurn(k: nat, trouble: Trouble) returns (threw: bool)
      requires k < |turns| && NaturalCost(turns[k])
      modifies this
      ensures turns == old(turns)[k := Passed(old(turns)[k], trouble)] && threw == Throws(old(turns)[k], trouble)
      ensures counters == Counted(old(counters), old(turns)[k], trouble)
      ensures old(Valid()) ==> Valid()
    {
      if Valid() { PassedOneKeepsPlan(turns, k, trouble, limits); }
      var turn := turns[k];
      threw := false;
      if !(PreProvider(turn.status) || PostProvider(turn.status)) { return; }
      if turn.request.actual.Some? {
        threw := ReconcileDurableUsage(k, trouble);
      } else if PreProvider(turn.status) {
        threw := FailBeforeProvider(k, trouble);
      } else {
        threw := HoldTurn(k, trouble);
      }
    }

    method ReconcileDurableUsage(k: nat, trouble: Trouble) returns (threw: bool)
      requires k < |turns| && NaturalCost(turns[k]) && Scanned(turns[k]) && turns[k].request.actual.Some?
      modifies this
      ensures turns == old(turns)[k := Passed(old(turns)[k], trouble)] && threw == Throws(old(turns)[k], trouble)
      ensures counters == Counted(old(counters), old(turns)[k], trouble)
    {
      var turn := turns[k];
      var actual := turn.request.actual.value;
      if turn.hold.NoHold? || actual > turn.hold.estimated || turn.hold.status == RELEASED {
        threw := HoldTurn(k, trouble);
        return;
      }
      if turn.hold.status == ACTIVE {
        if trouble.CallBreaks? {
          if trouble.committed { Write(k, turn.(hold := SettleHold(turn.hold, actual))); }
          return true;
        }
        turn := turn.(hold := SettleHold(turn.hold, actual));
        Write(k, turn);
        counters := counters.(settled := counters.settled + 1);
      }
      if trouble.RecordBreaks? { return true; }
      Write(k, FinalRequest(turn));
      counters := counters.(finalized := counters.finalized + 1);
      threw := false;
    }

    method FailBeforeProvider(k: nat, trouble: Trouble) returns (threw: bool)
      requires k < |turns| && PreProvider(turns[k].status) && turns[k].request.actual.None?
      modifies this
      ensures turns == old(turns)[k := Passed(old(turns)[k], trouble)] && threw == Throws(old(turns)[k], trouble)
      ensures counters == Counted(old(counters), old(turns)[k], trouble)
    {
      var turn := turns[k];
      if turn.hold.Held? && turn.hold.status == ACTIVE {
        if trouble.CallBreaks? {
          if trouble.committed { Write(k, turn.(hold := ReleaseHold(turn.hold))); }
          return true;
        }
        turn := turn.(hold := ReleaseHold(turn.hold));
        Write(k, turn);
        counters := counters.(released := counters.released + 1);
      } else if turn.hold.Held? && turn.hold.status != RELEASED {
        threw := HoldTurn(k, trouble);
        return;
      } else if turn.hold.NoHold? {
        counters := counters.(failedBeforeProvider := counters.failedBeforeProvider + 1);
      }
      if trouble.RecordBreaks? { return true; }
      Write(k, FailedBefore(turn));
      threw := false;
    }

    method HoldTurn(k: nat, trouble: Trouble) returns (threw: bool)
      requires k < |turns|
      modifies this
      ensures threw == trouble.RecordBreaks?
      ensures turns == if threw then old(turns) else old(turns)[k := HoldAmbiguous(old(turns)[k])]
      ensures counters == if threw then old(counters) else old(counters).(held := old(counters).held + 1)
    {
      if trouble.RecordBreaks? { return true; }
      Write(k, HoldAmbiguous(turns[k]));
      counters := counters.(held := counters.held + 1);
      threw := false;
    }

    /** The scan: every selected turn once, in order; an error on one is counted and the others go on. */
    method ReconcileBatch(selected: seq<nat>, troubles: seq<Trouble>)
      requires Valid() && |troubles| == |selected| && forall j :: 0 <= j < |selected| ==> selected[j] < |turns|
      requires forall i, j :: 0 <= i < j < |selected| ==> selected[i] != selected[j]
      modifies this
      ensures Valid() && |turns| == |old(turns)|
      ensures PassedUpTo(old(turns), turns, selected, troubles, |selected|)
      ensures counters == CountedUpTo(old(counters).(scanned := |selected|), old(turns), selected, troubles, |selected|)
    {
      counters := counters.(scanned := |selected|);
      assert forall j :: 0 <= j < |selected| ==> TurnInv(turns[selected[j]], limits.maxReservation);
      PassSelected(selected, troubles);
      PassedKeepPlan(old(turns), turns, selected, troubles, limits);
    }

    /** The loop of the scan. */
    method PassSelected(selected: seq<nat>, troubles: seq<Trouble>)
      requires |troubles| == |selected| && forall j :: 0 <= j < |selected| ==> selected[j] < |turns|
      requires forall i, j :: 0 <= i < j < |selected| ==> selected[i] != selected[j]
      requires forall j :: 0 <= j < |selected| ==> NaturalCost(turns[selected[j]])
      modifies this
      ensures PassedUpTo(old(turns), turns, selected, troubles, |selected|)
      ensures counters == CountedUpTo(old(counters), old(turns), selected, troubles, |selected|)
    {
      ghost var start, before := turns, counters;
      var j := 0;
      while j < |selected|
        invariant 0 <= j <= |selected|
        invariant PassedUpTo(start, turns, selected, troubles, j)
        invariant counters == CountedUpTo(before, start, selected, troubles, j)
      {
        ghost var t, c := turns, counters;
        UntilNow(start, turns, selected, troubles, j);
        PassTurn(selected[j], troubles[j]);
        OneMorePassed(start, t, turns, before, c, counters, selected, troubles, j);
        j := j + 1;
      }
    }

    /** The pass over one turn of the batch; an error is counted and goes no further. */
    method PassTurn(k: nat, trouble: Trouble)
      requires k < |turns| && NaturalCost(turns[k])
      modifies this
      ensures turns == old(turns)[k := Passed(old(turns)[k], trouble)]
      ensures counters == CountedWithErrors(old(counters), old(turns)[k], trouble)
    {
      var threw := ReconcileProviderTurn(k, trouble);
      if threw { counters := counters.(errors := counters.errors + 1); }
    }
  }

  /** Exactly the first j selected turns have passed, each with its own trouble. */
  ghost predicate PassedUpTo(before: seq<Turn>, after: seq<Turn>, selected: seq<nat>, troubles: seq<Trouble>, j: nat) {
    && |after| == |before| && j <= |selected| == |troubles|
    && (forall i :: 0 <= i < |selected| ==> selected[i] < |before|)
    && (forall i :: 0 <= i < j ==> after[selected[i]] == Passed(before[selected[i]], troubles[i]))
    && (forall k :: 0 <= k < |after| && k !in selected[..j] ==> after[k] == before[k])
  }

  lemma UntilNow(start: seq<Turn>, turns: seq<Turn>, selected: seq<nat>, troubles: seq<Trouble>, j: nat)
    requires j < |selected| && PassedUpTo(start, turns, selected, troubles, j)
    requires forall i, k :: 0 <= i < k < |selected| ==> selected[i] != selected[k]
    ensures selected[j] < |turns| && turns[selected[j]] == start[selected[j]]
  {
    assert selected[j] !in selected[..j];
  }

  lemma OneMorePassed(start: seq<Turn>, t: seq<Turn>, u: seq<Turn>, before: Counters, c: Counters, d: Counters,
                      selected: seq<nat>, troubles: seq<Trouble>, j: nat)
    requires j < |selected| && PassedUpTo(start, t, selected, troubles, j) && c == CountedUpTo(before, start, selected, troubles, j)
    requires forall i, k :: 0 <= i < k < |selected| ==> selected[i] != selected[k]
    requires u == t[selected[j] := Passed(t[selected[j]], troubles[j])] && d == CountedWithErrors(c, t[selected[j]], troubles[j])
    ensures PassedUpTo(start, u, selected, troubles, j + 1) && d == CountedUpTo(before, start, selected, troubles, j + 1)
  {
    UntilNow(start, t, selected, troubles, j);
    assert selected[..j + 1] == selected[..j] + [selected[j]];
  }

  /** What a pass leaves of a turn when an error ends it early. */
  function Passed(x: Turn, trouble: Trouble): Turn {
    match trouble
    case Smooth => Reconcile(x)
    case CallBreaks(committed) => if !Asks(x) then Reconcile(x) else if committed then ReconcileBilling(x) else x
    case RecordBreaks => if Scanned(x) then ReconcileBilling(x) else x
  }

  predicate NaturalCost(x: Turn) { x.request.actual.Some? ==> x.request.actual.value >= 0 }

  /** The pass calls the billing engine. */
  predicate Asks(x: Turn) { Scanned(x) && (Settles(x) || Releases(x)) }

  predicate Throws(x: Turn, trouble: Trouble) {
    match trouble case Smooth => false case CallBreaks(_) => Asks(x) case RecordBreaks => Scanned(x)
  }

  /** A call is counted once it is answered, a record once it is written, and a turn that never reserved before its record. */
  function Counted(c: Counters, x: Turn, trouble: Trouble): Counters {
    if !Scanned(x) then c
    else
      var answered, recorded := !trouble.CallBreaks?, !Throws(x, trouble);
      c.(settled := c.settled + One(Settles(x) && answered),
         released := c.released + One(Releases(x) && answered),
         finalized := c.finalized + One(Finalizes(x) && recorded),
         held := c.held + One(Holds(x) && recorded),
         failedBeforeProvider := c.failedBeforeProvider + One(FailsUnreserved(x)))
  }

  function One(b: bool): nat { if b then 1 else 0 }

  /** The counters after the first j selected turns. */
  function CountedUpTo(c: Counters, turns: seq<Turn>, selected: seq<nat>, troubles: seq<Trouble>, j: nat): Counters
    requires j <= |selected| == |troubles| && forall i :: 0 <= i < |selected| ==> selected[i] < |turns|
  {
    if j == 0 then c
    else
      CountedWithErrors(CountedUpTo(c, turns, selected, troubles, j - 1), turns[selected[j - 1]], troubles[j - 1])
  }

  function CountedWithErrors(c: Counters, x: Turn, trouble: Trouble): Counters {
    var after := Counted(c, x, trouble);
    after.(errors := after.errors + One(Throws(x, trouble)))
  }

  lemma PassedKeeps(x: Turn, trouble: Trouble, lim: Limits)
    requires TurnInv(x, lim.maxReservation)
    ensures Keeps(x, Passed(x, trouble), Idle, lim)
  {
    ReconcileKeeps(x, lim);
    if Scanned(x) { BillingKeeps(x, lim); }
  }

  lemma PassedOneKeepsPlan(turns: seq<Turn>, k: nat, trouble: Trouble, lim: Limits)
    requires TablesInv(turns, lim) && (forall j :: 0 <= j < |turns| ==> TurnInv(turns[j], lim.maxReservation)) && k < |turns|
    ensures var after := turns[k := Passed(turns[k], trouble)];
            TablesInv(after, lim) && forall j :: 0 <= j < |after| ==> TurnInv(after[j], lim.maxReservation)
  {
    PassedKeeps(turns[k], trouble, lim);
    TablesOfUpdate(turns, k, Passed(turns[k], trouble), lim);
  }

  lemma PassedKeepPlan(before: seq<Turn>, after: seq<Turn>, selected: seq<nat>, troubles: seq<Trouble>, lim: Limits)
    requires TablesInv(before, lim) && forall j :: 0 <= j < |before| ==> TurnInv(before[j], lim.maxReservation)
    requires PassedUpTo(before, after, selected, troubles, |selected|)
    ensures TablesInv(after, lim) && forall j :: 0 <= j < |after| ==> TurnInv(after[j], lim.maxReservation)
  {
    forall k | 0 <= k < |after| ensures SameKey(before[k], after[k]) && TurnInv(after[k], lim.maxReservation) {
      if k in selected[..|selected|] {
        var i :| 0 <= i < |selected| && selected[i] == k;
        PassedKeeps(before[k], troubles[i], lim);
      }
    }
    TablesOfKeys(before, after, lim);
  }

  /** The tables' invariant speaks of keys only. */
  lemma TablesOfKeys(before: seq<Turn>, after: seq<Turn>, lim: Limits)
    requires TablesInv(before, lim) && |after| == |before| && forall k :: 0 <= k < |after| ==> SameKey(before[k], after[k])
    ensures TablesInv(after, lim)
  {
    forall i: nat ensures Sum(after, Ours(i)) <= lim.maxTurns { SumPointwise(after, before, Ours(i)); }
    SamePaid(before, after);
  }

  lemma SamePaid(before: seq<Turn>, after: seq<Turn>)
    requires |after| == |before| && forall k :: 0 <= k < |after| ==> SameKey(before[k], after[k])
    ensures PaidIds(after) == PaidIds(before)
  {
    forall i ensures i in PaidIds(after) <==> i in PaidIds(before) {
      if i in PaidIds(after) {
        var k :| 0 <= k < |after| && after[k].invocation == i;
        assert before[k] in before && before[k].invocation == i;
      }
      if i in PaidIds(before) {
        var k :| 0 <= k < |before| && before[k].invocation == i;
        assert after[k] in after && after[k].invocation == i;
      }
    }
  }

  /** A turn on which a pass threw is still brought to the same end by the next one. */
  lemma ThrownPassIsRepeated(x: Turn, trouble: Trouble, maxReservation: nat)
    requires TurnInv(x, maxReservation)
    ensures Reconcile(Passed(x, trouble)) == Reconcile(x)
  {
    ReconcileIsIdempotent(x, maxReservation);
    if Scanned(x) { PartialPassIsHarmless(x, maxReservation); }
  }

  lemma NewTurnIsSound(invocation: nat, index: nat, estimate: nat, maxReservation: nat)
    requires estimate <= maxReservation
    ensures TurnInv(NewTurn(invocation, index, estimate), maxReservation)
  {}

  lemma SpendOneMore(turns: seq<Turn>, k: nat, invocation: nat)
    requires k < |turns|
    ensures var before, x := SpendOf(turns[..k], invocation), turns[k];
            SpendOf(turns[..k + 1], invocation) ==
            PlanSpend(before.paidInvocationIds + {x.invocation}, before.providerTurnsForInvocation + Ours(invocation)(x),
                      before.settled + SettledPart()(x), before.activeReserved + ActivePart()(x), before.pendingAdmission + PendingPart()(x))
  {
    assert turns[..k + 1] == turns[..k] + [turns[k]];
    PaidOfAppend(turns[..k], turns[k]);
    SumTake(turns, k, Ours(invocation));
    SumTake(turns, k, SettledPart());
    SumTake(turns, k, ActivePart());
    SumTake(turns, k, PendingPart());
  }

  lemma ExecutionKeepsPlan(turns: seq<Turn>, k: nat, w: World, lim: Limits)
    requires TablesInv(turns, lim) && (forall j :: 0 <= j < |turns| ==> TurnInv(turns[j], lim.maxReservation))
    requires k < |turns| && turns[k].request.status == ReqCreated
    ensures var after := turns[k := Executed(turns[k], w).0];
            TablesInv(after, lim) && forall j :: 0 <= j < |after| ==> TurnInv(after[j], lim.maxReservation)
  {
    ExecutionKeepsTurn(turns[k], w, lim.maxReservation);
    ExecutionKeepsKey(turns[k], w);
    TablesOfUpdate(turns, k, Executed(turns[k], w).0, lim);
  }

  predicate SameKey(x: Turn, y: Turn) { y.invocation == x.invocation && y.index == x.index }

  lemma AnsweredKeepsKey(x: Turn, w: World)
    ensures SameKey(x, Answered(x, w).0)
  {
    if w.answer.Usage? && w.answer.actual.Some? {
      var streamed := MarkInFlight(CountCall(MarkStarting(x)));
      assert SameKey(x, Metered(streamed, w.answer.actual.value, w.answer.toolCallError, w.answer.interrupted, w.settle).0);
    }
  }

  lemma ExecutionKeepsKey(x: Turn, w: World)
    ensures SameKey(x, Executed(x, w).0)
  {
    var linked := LinkReservation(AfterReserve(RestoreCreated(x), w));
    assert SameKey(x, linked);
    AnsweredKeepsKey(linked, w);
  }

  /** The linked turn of an execution whose reservation is granted. */
  function LinkedTurn(x: Turn, w: World): Turn { LinkReservation(AfterReserve(RestoreCreated(x), w)) }

  lemma LinkedIsSound(x: Turn, w: World, maxReservation: nat)
    requires TurnInv(x, maxReservation) && x.request.status == ReqCreated && CanReserve(x.hold, x.request.estimated, w.funded)
    requires w.reserve.Answers?
    ensures TurnInv(LinkedTurn(x, w), maxReservation) && PcFits(LinkedTurn(x, w), Linked(0)) && LinkedTurn(x, w).calls == 0
    ensures LinkedTurn(x, w).hold == Held(ACTIVE, x.request.estimated, 0) && LinkedTurn(x, w).request.estimated == x.request.estimated
  {}

  lemma StreamedIsSound(x: Turn, maxReservation: nat)
    requires TurnInv(x, maxReservation) && PcFits(x, Linked(0))
    ensures var called := CountCall(MarkStarting(x));
            && TurnInv(called, maxReservation) && PcFits(called, Called(0))
            && TurnInv(MarkInFlight(called), maxReservation) && PcFits(MarkInFlight(called), Streaming(0))
            && called.calls == x.calls + 1
  {}

  /** A measured answer within the estimate, on a streaming turn. */
  lemma MeasuredSettles(x: Turn, actual: nat, toolCallError: bool, interrupted: bool, maxReservation: nat)
    requires TurnInv(x, maxReservation) && PcFits(x, Streaming(0)) && actual <= x.request.estimated
    ensures var y := Metered(x, actual, toolCallError, interrupted, Answers).0;
            && TurnInv(y, maxReservation) && y.status == TurnSucceeded && y.calls == x.calls
            && y.hold == Held(SETTLED, x.request.estimated, actual) && y.request.actual == Some(actual)
            && y == Outcome(y)
  {}

  /** Whatever becomes of a streaming turn's usage, what is still held is on hold for the reconciler. */
  lemma MeasuredIsSeen(x: Turn, actual: nat, toolCallError: bool, interrupted: bool, settle: BillingCall, maxReservation: nat)
    requires TurnInv(x, maxReservation) && PcFits(x, Streaming(0))
    ensures var y := Metered(x, actual, toolCallError, interrupted, settle).0;
            TurnInv(y, maxReservation) && (ActiveHoldOf(y) ==> y.status == TurnReconciliation) && y.calls == x.calls
  {
    if actual <= x.request.estimated && settle.Answers? { MeasuredSettles(x, actual, toolCallError, interrupted, maxReservation); }
  }

  lemma ReleasedIsSeen(x: Turn, pc: Pc, call: BillingCall, maxReservation: nat)
    requires TurnInv(x, maxReservation) && PcFits(x, pc) && (pc.Linked? || pc.Called? || pc.Streaming?)
    ensures var y := ReleasedSafely(x, call).0;
            TurnInv(y, maxReservation) && (ActiveHoldOf(y) ==> y.status == TurnReconciliation) && y.calls == x.calls
  {}

  lemma AnsweredIsSeen(x: Turn, w: World, maxReservation: nat)
    requires TurnInv(x, maxReservation) && PcFits(x, Linked(0))
    ensures var y := Answered(x, w).0;
            TurnInv(y, maxReservation) && (ActiveHoldOf(y) ==> y.status == TurnReconciliation)
    ensures Answered(x, w).0.calls == if w.answer.Misconfigured? then 0 else 1
  {
    StreamedIsSound(x, maxReservation);
    var called := CountCall(MarkStarting(x));
    match w.answer
    case Misconfigured => ReleasedIsSeen(x, Linked(0), w.release, maxReservation);
    case Ambiguous(_) =>
    case Rejected(streaming) =>
      if streaming { ReleasedIsSeen(MarkInFlight(called), Streaming(0), w.release, maxReservation); }
      else { ReleasedIsSeen(called, Called(0), w.release, maxReservation); }
    case Usage(actual, withinCaps, toolCallError, interrupted) =>
      if withinCaps && actual.Some? {
        MeasuredIsSeen(MarkInFlight(called), actual.value, toolCallError, interrupted, w.settle, maxReservation);
      }
  }

  /**
   * An admitted turn whose reservation is granted and whose provider answers within the estimate
   * ends settled at exactly the measured cost, after one call of the provider.
   */
  lemma ExecutionSettlesExactly(x: Turn, w: World, maxReservation: nat)
    requires TurnInv(x, maxReservation) && x.request.status == ReqCreated && w.running && w.reserve.Answers? && w.settle.Answers?
    requires CanReserve(x.hold, x.request.estimated, w.funded)
    requires w.answer.Usage? && w.answer.withinCaps && w.answer.actual.Some? && w.answer.actual.value <= x.request.estimated
    ensures var y := Executed(x, w).0;
            && y.status == TurnSucceeded && y.calls == 1
            && y.hold == Held(SETTLED, x.request.estimated, w.answer.actual.value)
            && y.request.actual == Some(w.answer.actual.value)
            && y == Outcome(y)
  {
    LinkedIsSound(x, w, maxReservation);
    var linked := LinkedTurn(x, w);
    StreamedIsSound(linked, maxReservation);
    MeasuredSettles(MarkInFlight(CountCall(MarkStarting(linked))), w.answer.actual.value, w.answer.toolCallError, w.answer.interrupted,
                    maxReservation);
    assert Executed(x, w) == Answered(linked, w);
  }

  /**
   * However an execution goes, with every billing call failing before or after its effect, the turn stays
   * sound; what is still held is on hold for the reconciler, unless it is stranded, and that happens
   * exactly when reserveUsage breaks while the turn holds already or the broken call took effect.
   */
  lemma ExecutionKeepsTurn(x: Turn, w: World, maxReservation: nat)
    requires TurnInv(x, maxReservation) && x.request.status == ReqCreated
    ensures var y := Executed(x, w).0;
            && TurnInv(y, maxReservation)
            && (ActiveHoldOf(y) ==> y.status == TurnReconciliation || Stranded(y))
            && (Stranded(y) <==> ReserveBreaks(x, w) && (ActiveHoldOf(x) || Reserves(x, w)))
  {
    if !ReserveBreaks(x, w) && CanReserve(x.hold, x.request.estimated, w.funded) {
      LinkedIsSound(x, w, maxReservation);
      var linked := LinkedTurn(x, w);
      if w.running {
        AnsweredIsSeen(linked, w, maxReservation);
        assert Executed(x, w) == Answered(linked, w);
      } else {
        ReleasedIsSeen(linked, Linked(0), w.release, maxReservation);
      }
    }
  }

  // ---- What the executor is told, and where the other answers end ----

  /** The verdict tells how the turn ended: done exactly when it was settled without an error of the answer, and so on. */
  lemma VerdictTells(x: Turn, w: World, maxReservation: nat)
    requires TurnInv(x, maxReservation) && x.request.status == ReqCreated
    ensures var (y, verdict) := Executed(x, w);
            match y.status
            case TurnSucceeded => verdict == if y.toolCallError then Failed(ToolCallInvalid) else if y.interrupted then Failed(Interrupted) else Done
            case TurnWaiting => verdict == WaitsForUsage
            case TurnBlocked => verdict == BlockedOnUsage
            case TurnFailedPreProvider => verdict in {Failed(NotReserved), Failed(ReservationBroke)}
            case TurnFailedSafe => verdict in {Failed(Canceled), Failed(ProviderRejected), Failed(ProviderMismatch)}
            case TurnReconciliation => verdict in {Failed(Canceled), Failed(NeedsReconciliation), Failed(OutOfBounds), Failed(ProviderMismatch)}
            case _ => false
  {
    if !ReserveBreaks(x, w) && CanReserve(x.hold, x.request.estimated, w.funded) {
      LinkedIsSound(x, w, maxReservation);
      var linked := LinkedTurn(x, w);
      if w.running {
        assert Executed(x, w) == Answered(linked, w);
        AnswerTells(linked, w);
      }
    }
  }

  /** How the verdict of a linked turn goes with its end. */
  predicate Fits(y: Turn, verdict: Verdict) {
    match y.status
    case TurnSucceeded => verdict == if y.toolCallError then Failed(ToolCallInvalid) else if y.interrupted then Failed(Interrupted) else Done
    case TurnFailedSafe => verdict in {Failed(ProviderRejected), Failed(ProviderMismatch)}
    case TurnReconciliation => verdict in {Failed(NeedsReconciliation), Failed(OutOfBounds), Failed(ProviderMismatch)}
    case _ => false
  }

  lemma MeteredTells(x: Turn, actual: nat, toolCallError: bool, interrupted: bool, settle: BillingCall)
    ensures Fits(Metered(x, actual, toolCallError, interrupted, settle).0, Metered(x, actual, toolCallError, interrupted, settle).1)
  {}

  lemma ReleasedTells(x: Turn, call: BillingCall)
    ensures ReleasedSafely(x, call).0.status == if ReleasedSafely(x, call).1 then TurnFailedSafe else TurnReconciliation
  {}

  lemma AnswerTells(x: Turn, w: World)
    ensures Fits(Answered(x, w).0, Answered(x, w).1)
  {
    var called := CountCall(MarkStarting(x));
    match w.answer
    case Misconfigured => ReleasedTells(x, w.release);
    case Rejected(streaming) => ReleasedTells(if streaming then MarkInFlight(called) else called, w.release);
    case Ambiguous(_) =>
    case Usage(actual, _, toolCallError, interrupted) =>
      if actual.Some? { MeteredTells(MarkInFlight(called), actual.value, toolCallError, interrupted, w.settle); }
  }

  /** A turn that holds its reservation, whose billing calls are answered: where each answer of the provider leaves its hold. */
  lemma AnswersEnd(x: Turn, w: World, maxReservation: nat)
    requires TurnInv(x, maxReservation) && PcFits(x, Linked(0)) && w.release.Answers? && w.settle.Answers?
    ensures var y := Answered(x, w).0;
            match w.answer
            case Misconfigured => y.status == TurnFailedSafe && y.hold.status == RELEASED && y.calls == 0
            case Rejected(_) => y.status == TurnFailedSafe && y.hold.status == RELEASED && y.calls == 1
            case Ambiguous(_) => y.status == TurnReconciliation && y.hold == x.hold && y.request.actual.None? && y.calls == 1
            case Usage(actual, withinCaps, toolCallError, interrupted) =>
              && y.calls == 1
              && if !withinCaps || actual.None? then y.status == TurnReconciliation && y.hold == x.hold && y.request.actual.None?
                 else if actual.value > x.request.estimated then y.status == TurnReconciliation && y.hold == x.hold && y.request.actual == Some(actual.value)
                 else && y.status == TurnSucceeded && y.hold == Held(SETTLED, x.request.estimated, actual.value)
                      && y.toolCallError == toolCallError && y.interrupted == interrupted && y.request.userSettled == actual
    ensures var y := Answered(x, w).0;
            y.request.financial == match y.status case TurnSucceeded => FinSettled case TurnFailedSafe => FinReleased case _ => FinHold
  {}

  /** A turn that cannot be reserved waits while the user's other reservations may still come back, and is blocked otherwise; one stopped before the provider releases. */
  lemma EarlyEnds(x: Turn, w: World, maxReservation: nat)
    requires TurnInv(x, maxReservation) && x.request.status == ReqCreated && w.reserve.Answers?
    ensures var y := Executed(x, w).0;
            && (x.hold.NoHold? && !CanReserve(x.hold, x.request.estimated, w.funded) ==>
                  y.status == (if w.othersReserve then TurnWaiting else TurnBlocked) && y.hold.NoHold? && y.calls == 0)
            && (CanReserve(x.hold, x.request.estimated, w.funded) && !w.running && w.release.Answers? ==>
                  y.status == TurnFailedSafe && y.hold.Held? && y.hold.status == RELEASED && y.calls == 0)
  {}
}
