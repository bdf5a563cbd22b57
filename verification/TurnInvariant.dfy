/** Every step of executors, crashes and the reconciler keeps the invariant of a plan's turns. */
module TurnInvariant {
  import opened Basics
  import opened Books
  import opened Turns
  import opened TurnMachine

  // ---- One turn ----

  /** What a write by the executor at pc keeps and establishes. */
  ghost predicate Keeps(x: Turn, y: Turn, pc: Pc, lim: Limits) {
    y.invocation == x.invocation && y.index == x.index && TurnInv(y, lim.maxReservation) && PcFits(y, pc)
  }

  lemma PreparingKeeps(x: Turn, pc: Pc, waiting: bool, funded: bool, lim: Limits)
    requires TurnInv(x, lim.maxReservation) && PcFits(x, pc)
    ensures pc.Admitted? ==> Keeps(x, RestoreCreated(x), Restored(pc.turn), lim)
    ensures pc.Restored? && MayLoseCapacity(x) ==> Keeps(x, MarkUsageWait(x, waiting), Idle, lim)
    ensures pc.Restored? && CanReserve(x.hold, x.request.estimated, funded) ==>
              Keeps(x, x.(hold := ReserveHold(x.hold, x.request.estimated)), Holding(pc.turn), lim)
    ensures pc.Restored? || pc.Holding? ==> Keeps(x, MarkPreProviderFailure(x), Idle, lim)
    ensures pc.Holding? ==> Keeps(x, LinkReservation(x), Linked(pc.turn), lim)
  {}

  lemma CallingKeeps(x: Turn, pc: Pc, actual: nat, toolCallError: bool, interrupted: bool, lim: Limits)
    requires TurnInv(x, lim.maxReservation) && PcFits(x, pc)
    ensures pc.Linked? ==> Keeps(x, MarkStarting(x), Started(pc.turn), lim)
    ensures pc.Started? ==> Keeps(x, CountCall(x), Called(pc.turn), lim)
    ensures pc.Called? ==> Keeps(x, MarkInFlight(x), Streaming(pc.turn), lim)
    ensures pc.Streaming? ==> Keeps(x, x, Measured(pc.turn, actual, toolCallError, interrupted), lim)
  {}

  lemma SettlingKeeps(x: Turn, pc: Pc, lim: Limits)
    requires TurnInv(x, lim.maxReservation) && PcFits(x, pc)
    ensures pc.Measured? && pc.actual <= x.request.estimated ==>
              Keeps(x, MarkDurable(x, pc.actual, pc.toolCallError, pc.interrupted), DurablePc(pc.turn), lim)
    ensures pc.DurablePc? ==> Keeps(x, MarkSettling(x), SettlingPc(pc.turn), lim)
    ensures pc.SettlingPc? && x.request.actual.Some? && CanSettle(x.hold, x.request.actual.value) ==>
              Keeps(x, x.(hold := SettleHold(x.hold, x.request.actual.value)), SettledPc(pc.turn), lim)
    ensures pc.SettledPc? && x.hold.Held? ==> Keeps(x, MarkSettled(x), Idle, lim)
  {}

  lemma ReleasingKeeps(x: Turn, pc: Pc, withActual: bool, lim: Limits)
    requires TurnInv(x, lim.maxReservation) && PcFits(x, pc)
    ensures (pc.Linked? || pc.Called? || pc.Streaming?) && CanRelease(x.hold) ==>
              Keeps(x, x.(hold := ReleaseHold(x.hold)), Released(pc.turn), lim)
    ensures pc.Released? ==> Keeps(x, MarkReleased(x), Idle, lim)
    ensures GivenUp(x, pc, withActual).Some? ==> Keeps(x, GivenUp(x, pc, withActual).value, Idle, lim)
  {}

  lemma BillingKeeps(x: Turn, lim: Limits)
    requires TurnInv(x, lim.maxReservation) && Scanned(x)
    ensures Keeps(x, ReconcileBilling(x), Idle, lim)
  {}

  lemma RecordKeeps(x: Turn, lim: Limits)
    requires TurnInv(x, lim.maxReservation) && Scanned(x)
    requires !Settles(x) && !Releases(x)
    ensures Keeps(x, ReconcileRecord(x), Idle, lim)
  {}

  lemma ReconcileKeeps(x: Turn, lim: Limits)
    requires TurnInv(x, lim.maxReservation)
    ensures Keeps(x, Reconcile(x), Idle, lim)
  {
    if Scanned(x) {
      BillingKeeps(x, lim);
      RecordKeeps(ReconcileBilling(x), lim);
    }
  }

  // ---- The tables ----

  lemma PaidOfUpdate(turns: seq<Turn>, k: nat, x: Turn)
    requires k < |turns| && x.invocation == turns[k].invocation
    ensures PaidIds(turns[k := x]) == PaidIds(turns)
  {
    var after := turns[k := x];
    forall i ensures i in PaidIds(after) <==> i in PaidIds(turns) {
      if i in PaidIds(after) {
        var y :| y in after && y.invocation == i;
        var j :| 0 <= j < |after| && after[j] == y;
        assert turns[j] in turns && turns[j].invocation == i;
      }
      if i in PaidIds(turns) {
        var y :| y in turns && y.invocation == i;
        var j :| 0 <= j < |turns| && turns[j] == y;
        assert after[j] in after && after[j].invocation == i;
      }
    }
  }

  /** The parts of the invariant that only keys and tables matter to. */
  ghost predicate TablesInv(turns: seq<Turn>, lim: Limits) {
    UniqueTurns(turns) && (forall i: nat :: Sum(turns, Ours(i)) <= lim.maxTurns) && |PaidIds(turns)| <= lim.maxPaid
  }

  lemma TablesOfUpdate(turns: seq<Turn>, k: nat, x: Turn, lim: Limits)
    requires TablesInv(turns, lim) && k < |turns| && x.invocation == turns[k].invocation && x.index == turns[k].index
    ensures TablesInv(turns[k := x], lim)
  {
    PaidOfUpdate(turns, k, x);
    forall i: nat ensures Sum(turns[k := x], Ours(i)) <= lim.maxTurns {
      SumUpdate(turns, k, x, Ours(i));
    }
  }

  lemma MoveKeepsInv(s: System, i: nat, x: Turn, pc: Pc, lim: Limits)
    requires SystemInv(s, lim) && At(s, i) && Keeps(TurnAt(s, i), x, pc, lim)
    requires pc.Idle? || pc.turn == s.pcs[i].turn
    ensures SystemInv(Move(s, i, x, pc), lim)
  {
    TablesOfUpdate(s.turns, s.pcs[i].turn, x, lim);
  }

  lemma FreeKeepsInv(s: System, k: nat, x: Turn, lim: Limits)
    requires SystemInv(s, lim) && k < |s.turns| && Free(s, k) && Keeps(s.turns[k], x, Idle, lim)
    ensures SystemInv(s.(turns := s.turns[k := x]), lim)
  {
    TablesOfUpdate(s.turns, k, x, lim);
  }

  // ---- Admission ----

  lemma PaidOfAppend(turns: seq<Turn>, x: Turn)
    ensures PaidIds(turns + [x]) == PaidIds(turns) + {x.invocation}
  {
    assert x in turns + [x];
    forall i ensures i in PaidIds(turns + [x]) <==> i in PaidIds(turns) + {x.invocation} {
      if i in PaidIds(turns) {
        var y :| y in turns && y.invocation == i;
        assert y in turns + [x];
      }
    }
  }

  lemma PaidStaysBounded(turns: seq<Turn>, x: Turn, lim: Limits)
    requires |PaidIds(turns)| <= lim.maxPaid && (x.invocation in PaidIds(turns) || |PaidIds(turns)| < lim.maxPaid)
    ensures |PaidIds(turns + [x])| <= lim.maxPaid
  {
    PaidOfAppend(turns, x);
    if x.invocation in PaidIds(turns) { assert PaidIds(turns) + {x.invocation} == PaidIds(turns); }
  }

  lemma AppendKeepsTables(turns: seq<Turn>, invocation: nat, index: nat, estimate: nat, capacity: Capacity, budget: Budget, lim: Limits)
    requires TablesInv(turns, lim) && FindTurn(turns, invocation, index) == |turns|
    requires AdmitNew(SpendOf(turns, invocation), invocation, capacity, budget, lim) == Ok(estimate)
    ensures TablesInv(turns + [NewTurn(invocation, index, estimate)], lim)
  {
    var x := NewTurn(invocation, index, estimate);
    PaidStaysBounded(turns, x, lim);
    forall i: nat ensures Sum(turns + [x], Ours(i)) <= lim.maxTurns {
      SumLast(turns, x, Ours(i));
    }
  }

  lemma BeginKeepsInv(s: System, i: nat, index: nat, capacity: Capacity, budget: Budget, lim: Limits)
    requires SystemInv(s, lim) && SoundBudget(budget, lim.maxReservation)
    ensures SystemInv(Next(s, Begin(i, index, capacity, budget), lim), lim)
  {
    if i < |s.pcs| && s.pcs[i].Idle? {
      var (turns, outcome) := BeginOrReuseTurn(s.turns, i, index, capacity, budget, lim);
      var k := FindTurn(s.turns, i, index);
      if k < |s.turns| {
        if outcome.BeginNew? { ReadmittedKeepsInv(s, i, k, lim); }
      } else if outcome.BeginNew? {
        NewTurnKeepsInv(s, i, index, capacity, budget, lim);
      }
    }
  }

  lemma ReadmittedKeepsInv(s: System, i: nat, k: nat, lim: Limits)
    requires SystemInv(s, lim) && i < |s.pcs| && k < |s.turns| && s.turns[k].invocation == i
    requires s.turns[k].request.status == ReqCreated
    ensures SystemInv(s.(pcs := s.pcs[i := Admitted(k)]), lim)
  {}

  lemma AdmittedIsSound(spend: PlanSpend, i: nat, index: nat, capacity: Capacity, budget: Budget, lim: Limits)
    requires SoundBudget(budget, lim.maxReservation) && AdmitNew(spend, i, capacity, budget, lim).Ok?
    ensures TurnInv(NewTurn(i, index, AdmitNew(spend, i, capacity, budget, lim).value), lim.maxReservation)
  {
    assert AdmitNew(spend, i, capacity, budget, lim).value == budget(Min(capacity.available, PlanAvailable(spend, lim))).estimate;
  }

  lemma NewTurnKeepsInv(s: System, i: nat, index: nat, capacity: Capacity, budget: Budget, lim: Limits)
    requires SystemInv(s, lim) && SoundBudget(budget, lim.maxReservation) && i < |s.pcs|
    requires FindTurn(s.turns, i, index) == |s.turns|
    requires AdmitNew(SpendOf(s.turns, i), i, capacity, budget, lim).Ok?
    ensures var estimate := AdmitNew(SpendOf(s.turns, i), i, capacity, budget, lim).value;
            SystemInv(System(s.turns + [NewTurn(i, index, estimate)], s.pcs[i := Admitted(|s.turns|)]), lim)
  {
    var estimate := AdmitNew(SpendOf(s.turns, i), i, capacity, budget, lim).value;
    AppendKeepsTables(s.turns, i, index, estimate, capacity, budget, lim);
    AdmittedIsSound(SpendOf(s.turns, i), i, index, capacity, budget, lim);
  }

  // ---- Every event ----

  /** The budget an admission uses keeps to the reservation limit. */
  ghost predicate Sound(e: Event, lim: Limits) { e.Begin? ==> SoundBudget(e.budget, lim.maxReservation) }

  predicate IsExecutor(e: Event) { !e.Begin? && !e.Crash? && !e.ReconcilePartly? && !e.ReconcileTurn? }

  /** What an executor's event did: one write on its turn, which keeps it sound. */
  ghost predicate Moves(s: System, i: nat, t: System, lim: Limits) {
    && At(s, i) && |t.turns| == |s.turns| && |t.pcs| == |s.pcs|
    && var x, pc := t.turns[s.pcs[i].turn], t.pcs[i];
       t == Move(s, i, x, pc) && (pc.Idle? || pc.turn == s.pcs[i].turn) && Keeps(TurnAt(s, i), x, pc, lim)
  }

  lemma PreparingMoves(s: System, e: Event, lim: Limits)
    requires SystemInv(s, lim) && (e.Restore? || e.Reserve? || e.LoseCapacity? || e.FailReservation? || e.Link?)
    ensures Next(s, e, lim) == s || Moves(s, e.i, Next(s, e, lim), lim)
  {
    if At(s, e.i) {
      PreparingKeeps(TurnAt(s, e.i), s.pcs[e.i], e.LoseCapacity? && e.waiting, e.Reserve? && e.funded, lim);
    }
  }

  lemma CallingMoves(s: System, e: Event, lim: Limits)
    requires SystemInv(s, lim) && (e.Start? || e.Call? || e.Stream? || e.Measure?)
    ensures Next(s, e, lim) == s || Moves(s, e.i, Next(s, e, lim), lim)
  {
    if At(s, e.i) {
      if e.Measure? {
        CallingKeeps(TurnAt(s, e.i), s.pcs[e.i], e.actual, e.toolCallError, e.interrupted, lim);
      } else {
        CallingKeeps(TurnAt(s, e.i), s.pcs[e.i], 0, false, false, lim);
      }
    }
  }

  lemma MeasuringMoves(s: System, e: Event, lim: Limits)
    requires SystemInv(s, lim) && (e.MakeDurable? || e.Settling?)
    ensures Next(s, e, lim) == s || Moves(s, e.i, Next(s, e, lim), lim)
  {
    if At(s, e.i) { SettlingKeeps(TurnAt(s, e.i), s.pcs[e.i], lim); }
  }

  lemma SettlingMoves(s: System, e: Event, lim: Limits)
    requires SystemInv(s, lim) && (e.Settle? || e.Finish?)
    ensures Next(s, e, lim) == s || Moves(s, e.i, Next(s, e, lim), lim)
  {
    if At(s, e.i) { SettlingKeeps(TurnAt(s, e.i), s.pcs[e.i], lim); }
  }

  lemma ReleasingMoves(s: System, e: Event, lim: Limits)
    requires SystemInv(s, lim) && (e.Release? || e.FinishRelease?)
    ensures Next(s, e, lim) == s || Moves(s, e.i, Next(s, e, lim), lim)
  {
    if At(s, e.i) { ReleasingKeeps(TurnAt(s, e.i), s.pcs[e.i], false, lim); }
  }

  lemma GivingUpMoves(s: System, e: Event, lim: Limits)
    requires SystemInv(s, lim) && e.GiveUp?
    ensures Next(s, e, lim) == s || Moves(s, e.i, Next(s, e, lim), lim)
  {
    if At(s, e.i) { ReleasingKeeps(TurnAt(s, e.i), s.pcs[e.i], e.withActual, lim); }
  }

  lemma ExecutorMoves(s: System, e: Event, lim: Limits)
    requires SystemInv(s, lim) && IsExecutor(e)
    ensures Next(s, e, lim) == s || Moves(s, e.i, Next(s, e, lim), lim)
  {
    if e.Restore? || e.Reserve? || e.LoseCapacity? || e.FailReservation? || e.Link? { PreparingMoves(s, e, lim); }
    else if e.Start? || e.Call? || e.Stream? || e.Measure? { CallingMoves(s, e, lim); }
    else if e.Release? || e.FinishRelease? { ReleasingMoves(s, e, lim); }
    else if e.GiveUp? { GivingUpMoves(s, e, lim); }
    else if e.MakeDurable? || e.Settling? { MeasuringMoves(s, e, lim); }
    else { SettlingMoves(s, e, lim); }
  }

  lemma NextKeepsInv(s: System, e: Event, lim: Limits)
    requires SystemInv(s, lim) && Sound(e, lim)
    ensures SystemInv(Next(s, e, lim), lim)
  {
    if IsExecutor(e) {
      ExecutorMoves(s, e, lim);
      var t := Next(s, e, lim);
      if t != s { MoveKeepsInv(s, e.i, t.turns[s.pcs[e.i].turn], t.pcs[e.i], lim); }
    } else {
      OthersKeepInv(s, e, lim);
    }
  }

  lemma OthersKeepInv(s: System, e: Event, lim: Limits)
    requires SystemInv(s, lim) && Sound(e, lim) && !IsExecutor(e)
    ensures SystemInv(Next(s, e, lim), lim)
  {
    match e
    case Begin(i, index, capacity, budget) => BeginKeepsInv(s, i, index, capacity, budget, lim);
    case Crash(i) => CrashKeepsInv(s, i, lim);
    case ReconcilePartly(k) =>
      if Next(s, e, lim) != s {
        BillingKeeps(s.turns[k], lim);
        FreeKeepsInv(s, k, ReconcileBilling(s.turns[k]), lim);
      }
    case ReconcileTurn(k) =>
      if Next(s, e, lim) != s {
        ReconcileKeeps(s.turns[k], lim);
        FreeKeepsInv(s, k, Reconcile(s.turns[k]), lim);
      }
  }

  lemma CrashKeepsInv(s: System, i: nat, lim: Limits)
    requires SystemInv(s, lim)
    ensures SystemInv(Next(s, Crash(i), lim), lim)
  {}

  ghost predicate SoundRun(es: seq<Event>, lim: Limits) { forall j :: 0 <= j < |es| ==> Sound(es[j], lim) }

  /** Whatever crashes and restarts happen, every turn stays sound. */
  lemma {:induction false} RunKeepsInv(s: System, es: seq<Event>, lim: Limits)
    requires SystemInv(s, lim) && SoundRun(es, lim)
    ensures SystemInv(Run(s, es, lim), lim)
    decreases |es|
  {
    if es != [] {
      NextKeepsInv(s, es[0], lim);
      RunKeepsInv(Next(s, es[0], lim), es[1..], lim);
    }
  }

  // ---- What a run can cost ----

  function SettledAmount(): Turn -> int { (x: Turn) => if x.hold.Held? && x.hold.status == SETTLED then x.hold.settled else 0 }

  function OursSettled(invocation: nat): Turn -> int {
    (x: Turn) => if x.invocation == invocation then SettledAmount()(x) else 0
  }

  lemma OneTurnSettles(x: Turn, maxReservation: nat)
    requires TurnInv(x, maxReservation)
    ensures SettledAmount()(x) <= maxReservation
  {
    assert HoldInv(x);
  }

  lemma {:induction false} SettledWithinTurns(turns: seq<Turn>, invocation: nat, maxReservation: nat)
    requires forall k :: 0 <= k < |turns| ==> TurnInv(turns[k], maxReservation)
    ensures Sum(turns, OursSettled(invocation)) <= Sum(turns, Ours(invocation)) * maxReservation
  {
    if turns != [] {
      var n := |turns| - 1;
      var before := Sum(turns[..n], Ours(invocation));
      SettledWithinTurns(turns[..n], invocation, maxReservation);
      OneTurnSettles(turns[n], maxReservation);
      if turns[n].invocation == invocation {
        OneMore(before, maxReservation);
      } else {
        assert Sum(turns, Ours(invocation)) == before;
      }
    }
  }

  lemma OneMore(a: int, r: int)
    ensures (a + 1) * r == a * r + r
  {}

  lemma ScaledBound(a: int, b: int, r: nat)
    requires a <= b
    ensures a * r <= b * r
  {}

  /**
   * Over every run, each turn calls the provider at most once, and the settled spend of an
   * invocation is at most maxTurns reservations of the greatest size.
   */
  lemma RunIsBounded(s: System, es: seq<Event>, lim: Limits, invocation: nat)
    requires SystemInv(s, lim) && SoundRun(es, lim)
    ensures var t := Run(s, es, lim);
            && (forall k :: 0 <= k < |t.turns| ==> t.turns[k].calls <= 1)
            && Sum(t.turns, OursSettled(invocation)) <= lim.maxTurns * lim.maxReservation
  {
    RunKeepsInv(s, es, lim);
    var t := Run(s, es, lim);
    SettledWithinTurns(t.turns, invocation, lim.maxReservation);
    ScaledBound(Sum(t.turns, Ours(invocation)), lim.maxTurns, lim.maxReservation);
  }
}
