/** Executing one admitted turn is a run of the turn machine. */
module TurnRefinement {
  import opened Basics
  import opened Turns
  import opened TurnMachine
  import opened ProviderTurns

  ghost predicate Reaches(s: System, t: System, lim: Limits) { exists es :: Run(s, es, lim) == t }

  lemma {:induction false} RunAppend(s: System, es: seq<Event>, e: Event, lim: Limits)
    ensures Run(s, es + [e], lim) == Next(Run(s, es, lim), e, lim)
    decreases |es|
  {
    if es == [] {
      assert es + [e] == [e] && [e][1..] == [];
    } else {
      assert (es + [e])[1..] == es[1..] + [e];
      RunAppend(Next(s, es[0], lim), es[1..], e, lim);
    }
  }

  lemma StartReaches(s: System, lim: Limits)
    ensures Reaches(s, s, lim)
  {
    assert Run(s, [], lim) == s;
  }

  /** Executor i has brought its turn to x, and stands at pc. */
  ghost predicate Brought(s: System, i: nat, x: Turn, pc: Pc, lim: Limits) {
    At(s, i) && Reaches(s, Move(s, i, x, pc), lim)
  }

  /** One more event of executor i. */
  lemma OneMoreEvent(s: System, i: nat, x: Turn, pc: Pc, e: Event, y: Turn, next: Pc, lim: Limits)
    requires Brought(s, i, x, pc, lim) && !pc.Idle? && pc.turn == s.pcs[i].turn
    requires var t := Move(s, i, x, pc); Next(t, e, lim) == Move(t, i, y, next)
    ensures Brought(s, i, y, next, lim)
  {
    var t := Move(s, i, x, pc);
    var es :| Run(s, es, lim) == t;
    RunAppend(s, es, e, lim);
    assert Move(t, i, y, next) == Move(s, i, y, next);
  }

  lemma GivenUpReaches(s: System, i: nat, x: Turn, pc: Pc, withActual: bool, lim: Limits)
    requires Brought(s, i, x, pc, lim) && !pc.Idle? && pc.turn == s.pcs[i].turn && GivenUp(x, pc, withActual).Some?
    ensures Brought(s, i, GivenUp(x, pc, withActual).value, Idle, lim)
  {
    OneMoreEvent(s, i, x, pc, GiveUp(i, withActual), GivenUp(x, pc, withActual).value, Idle, lim);
  }

  lemma ReleasedReaches(s: System, i: nat, x: Turn, pc: Pc, call: BillingCall, lim: Limits)
    requires Brought(s, i, x, pc, lim) && (pc.Linked? || pc.Called? || pc.Streaming?) && pc.turn == s.pcs[i].turn
    ensures Brought(s, i, ReleasedSafely(x, call).0, Idle, lim)
  {
    if CanRelease(x.hold) && TakesEffect(call) {
      var released := x.(hold := ReleaseHold(x.hold));
      OneMoreEvent(s, i, x, pc, Release(i), released, Released(pc.turn), lim);
      if call.Answers? { OneMoreEvent(s, i, released, Released(pc.turn), FinishRelease(i), MarkReleased(released), Idle, lim); }
      else { GivenUpReaches(s, i, released, Released(pc.turn), false, lim); }
    } else {
      GivenUpReaches(s, i, x, pc, false, lim);
    }
  }

  lemma DurableReaches(s: System, i: nat, x: Turn, k: nat, actual: nat, toolCallError: bool, interrupted: bool, lim: Limits)
    requires Brought(s, i, x, Streaming(k), lim) && k == s.pcs[i].turn && actual <= x.request.estimated
    ensures Brought(s, i, MarkSettling(MarkDurable(x, actual, toolCallError, interrupted)), SettlingPc(k), lim)
  {
    var measured := Measured(k, actual, toolCallError, interrupted);
    var durable := MarkDurable(x, actual, toolCallError, interrupted);
    OneMoreEvent(s, i, x, Streaming(k), Measure(i, actual, toolCallError, interrupted), x, measured, lim);
    OneMoreEvent(s, i, x, measured, MakeDurable(i), durable, DurablePc(k), lim);
    OneMoreEvent(s, i, durable, DurablePc(k), Settling(i), MarkSettling(durable), SettlingPc(k), lim);
  }

  lemma SettledReaches(s: System, i: nat, x: Turn, k: nat, actual: nat, call: BillingCall, lim: Limits)
    requires Brought(s, i, x, SettlingPc(k), lim) && k == s.pcs[i].turn && x.request.actual == Some(actual)
    ensures Brought(s, i, SettledBy(x, actual, call).0, Idle, lim)
  {
    if CanSettle(x.hold, actual) && TakesEffect(call) {
      var settled := x.(hold := SettleHold(x.hold, actual));
      OneMoreEvent(s, i, x, SettlingPc(k), Settle(i), settled, SettledPc(k), lim);
      if call.Answers? { OneMoreEvent(s, i, settled, SettledPc(k), Finish(i), MarkSettled(settled), Idle, lim); }
      else { GivenUpReaches(s, i, settled, SettledPc(k), false, lim); }
    } else {
      GivenUpReaches(s, i, x, SettlingPc(k), false, lim);
    }
  }

  lemma MeteredReaches(s: System, i: nat, x: Turn, k: nat, actual: nat, toolCallError: bool, interrupted: bool, call: BillingCall, lim: Limits)
    requires Brought(s, i, x, Streaming(k), lim) && k == s.pcs[i].turn
    ensures Brought(s, i, Metered(x, actual, toolCallError, interrupted, call).0, Idle, lim)
  {
    if actual > x.request.estimated {
      var measured := Measured(k, actual, toolCallError, interrupted);
      OneMoreEvent(s, i, x, Streaming(k), Measure(i, actual, toolCallError, interrupted), x, measured, lim);
      GivenUpReaches(s, i, x, measured, true, lim);
    } else {
      DurableReaches(s, i, x, k, actual, toolCallError, interrupted, lim);
      SettledReaches(s, i, MarkSettling(MarkDurable(x, actual, toolCallError, interrupted)), k, actual, call, lim);
    }
  }

  lemma StreamedReaches(s: System, i: nat, x: Turn, k: nat, w: World, lim: Limits)
    requires Brought(s, i, x, Streaming(k), lim) && k == s.pcs[i].turn && !w.answer.Misconfigured? && (w.answer.Usage? || w.answer.streaming)
    ensures Brought(s, i, AfterStream(x, w), Idle, lim)
  {
    match w.answer
    case Ambiguous(_) => GivenUpReaches(s, i, x, Streaming(k), false, lim);
    case Rejected(_) => ReleasedReaches(s, i, x, Streaming(k), w.release, lim);
    case Usage(actual, withinCaps, toolCallError, interrupted) =>
      if !withinCaps || actual.None? { GivenUpReaches(s, i, x, Streaming(k), false, lim); }
      else { MeteredReaches(s, i, x, k, actual.value, toolCallError, interrupted, w.settle, lim); }
  }

  /** A streaming turn, by how its stream ends. */
  function AfterStream(x: Turn, w: World): Turn {
    match w.answer
    case Rejected(_) => ReleasedSafely(x, w.release).0
    case Usage(actual, withinCaps, toolCallError, interrupted) =>
      if !withinCaps || actual.None? then MarkReconciliation(x, None)
      else Metered(x, actual.value, toolCallError, interrupted, w.settle).0
    case _ => MarkReconciliation(x, None)
  }

  lemma AnsweredReaches(s: System, i: nat, x: Turn, k: nat, w: World, lim: Limits)
    requires Brought(s, i, x, Linked(k), lim) && k == s.pcs[i].turn
    ensures Brought(s, i, Answered(x, w).0, Idle, lim)
  {
    if w.answer.Misconfigured? {
      ReleasedReaches(s, i, x, Linked(k), w.release, lim);
    } else {
      var started := MarkStarting(x);
      OneMoreEvent(s, i, x, Linked(k), Start(i), started, Started(k), lim);
      var called := CountCall(started);
      OneMoreEvent(s, i, started, Started(k), Call(i), called, Called(k), lim);
      if w.answer.Usage? || w.answer.streaming {
        OneMoreEvent(s, i, called, Called(k), Stream(i), MarkInFlight(called), Streaming(k), lim);
        StreamedReaches(s, i, MarkInFlight(called), k, w, lim);
        assert Answered(x, w).0 == AfterStream(MarkInFlight(called), w);
      } else if w.answer.Rejected? {
        ReleasedReaches(s, i, called, Called(k), w.release, lim);
      } else {
        GivenUpReaches(s, i, called, Called(k), false, lim);
      }
    }
  }

  lemma RestoredReaches(s: System, i: nat, lim: Limits)
    requires At(s, i) && s.pcs[i].Admitted?
    ensures Brought(s, i, RestoreCreated(TurnAt(s, i)), Restored(s.pcs[i].turn), lim)
  {
    StartReaches(s, lim);
    assert Move(s, i, TurnAt(s, i), s.pcs[i]) == s;
    OneMoreEvent(s, i, TurnAt(s, i), s.pcs[i], Restore(i), RestoreCreated(TurnAt(s, i)), Restored(s.pcs[i].turn), lim);
  }

  lemma HeldReaches(s: System, i: nat, x: Turn, k: nat, w: World, lim: Limits)
    requires Brought(s, i, x, Restored(k), lim) && k == s.pcs[i].turn && CanReserve(x.hold, x.request.estimated, w.funded) && TakesEffect(w.reserve)
    ensures Brought(s, i, AfterReserve(x, w), Holding(k), lim)
  {
    OneMoreEvent(s, i, x, Restored(k), Reserve(i, w.funded), AfterReserve(x, w), Holding(k), lim);
  }

  /** The executions that end before the reservation is linked. */
  lemma UnreservedReaches(s: System, i: nat, x: Turn, k: nat, w: World, lim: Limits)
    requires Brought(s, i, x, Restored(k), lim) && k == s.pcs[i].turn && RestoreCreated(x) == x
    requires ReserveBreaks(x, w) || !CanReserve(x.hold, x.request.estimated, w.funded)
    ensures Brought(s, i, Executed(x, w).0, Idle, lim)
  {
    if ReserveBreaks(x, w) && Reserves(x, w) {
      HeldReaches(s, i, x, k, w, lim);
      OneMoreEvent(s, i, AfterReserve(x, w), Holding(k), FailReservation(i), MarkPreProviderFailure(AfterReserve(x, w)), Idle, lim);
    } else if ReserveBreaks(x, w) || !MayLoseCapacity(x) {
      OneMoreEvent(s, i, x, Restored(k), FailReservation(i), MarkPreProviderFailure(x), Idle, lim);
    } else {
      OneMoreEvent(s, i, x, Restored(k), LoseCapacity(i, w.othersReserve), MarkUsageWait(x, w.othersReserve), Idle, lim);
    }
  }

  /**
   * Whatever the world answers, executing an admitted turn to its end is one of the runs over which
   * the turn machine's invariant, its ceiling and its crash convergence are proved.
   */
  lemma ExecutionIsARun(s: System, i: nat, w: World, lim: Limits)
    requires At(s, i) && s.pcs[i].Admitted?
    ensures Reaches(s, Move(s, i, Executed(TurnAt(s, i), w).0, Idle), lim)
  {
    var x, k := RestoreCreated(TurnAt(s, i)), s.pcs[i].turn;
    RestoredReaches(s, i, lim);
    assert Executed(TurnAt(s, i), w) == Executed(x, w);
    if ReserveBreaks(x, w) || !CanReserve(x.hold, x.request.estimated, w.funded) {
      UnreservedReaches(s, i, x, k, w, lim);
    } else {
      HeldReaches(s, i, x, k, w, lim);
      var linked := LinkReservation(AfterReserve(x, w));
      OneMoreEvent(s, i, AfterReserve(x, w), Holding(k), Link(i), linked, Linked(k), lim);
      if w.running { AnsweredReaches(s, i, linked, k, w, lim); } else { ReleasedReaches(s, i, linked, Linked(k), w.release, lim); }
    }
  }
}
