/**
 * Whether the reconciler will see every reservation that is still held: it does unless an executor
 * marks a turn as failed before the provider while the turn already holds, and then it never does.
 */
module StrandedHolds {
  import opened Basics
  import opened Books
  import opened Turns
  import opened TurnMachine
  import opened TurnInvariant
  import R = TurnRecovery

  /** An ACTIVE reservation on a turn that the scan does not select. */
  predicate Stranded(x: Turn) { ActiveHoldOf(x) && !Scanned(x) }

  ghost predicate NoneStranded(s: System) { forall k :: 0 <= k < |s.turns| ==> !Stranded(s.turns[k]) }

  /** A failed reserveUsage call on a turn that holds already: from before a crash, or because only the answer was lost. */
  predicate FailsHeld(s: System, e: Event) {
    e.FailReservation? && At(s, e.i) && (s.pcs[e.i].Restored? || s.pcs[e.i].Holding?) && ActiveHoldOf(TurnAt(s, e.i))
  }

  predicate NeverFailsHeld(s: System, es: seq<Event>, lim: Limits)
    decreases |es|
  {
    es == [] || (!FailsHeld(s, es[0]) && NeverFailsHeld(Next(s, es[0], lim), es[1..], lim))
  }

  // ---- One event ----

  /** What an executor holds is selected by the scan. */
  lemma FittingIsSeen(x: Turn, pc: Pc, maxReservation: nat)
    requires TurnInv(x, maxReservation) && PcFits(x, pc) && !pc.Idle?
    ensures !Stranded(x)
  {}

  lemma NobodyHoldsStranded(s: System, i: nat, lim: Limits)
    requires SystemInv(s, lim) && At(s, i)
    ensures !Stranded(TurnAt(s, i))
  {
    FittingIsSeen(TurnAt(s, i), s.pcs[i], lim.maxReservation);
  }

  /** A stranded reservation stays as it is, whatever happens. */
  lemma StrandedStays(s: System, e: Event, lim: Limits, k: nat)
    requires SystemInv(s, lim) && k < |s.turns| && Stranded(s.turns[k])
    ensures k < |Next(s, e, lim).turns| && Next(s, e, lim).turns[k] == s.turns[k]
  {
    if IsExecutor(e) && At(s, e.i) { NobodyHoldsStranded(s, e.i, lim); }
    if R.Touches(s, e, k) { R.ReconcilerTouches(s, e, lim); } else { R.UntouchedStays(s, e, lim, k); }
  }

  /** Every write that ends an executor's turn, but markPreProviderFailure, strands nothing. */
  lemma EndingIsSeen(s: System, e: Event, lim: Limits)
    requires SystemInv(s, lim) && IsExecutor(e) && !e.FailReservation? && At(s, e.i)
    requires var t := Next(s, e, lim); t != s && t.pcs[e.i].Idle?
    ensures !Stranded(Next(s, e, lim).turns[s.pcs[e.i].turn])
  {
    assert TurnInv(TurnAt(s, e.i), lim.maxReservation) && PcFits(TurnAt(s, e.i), s.pcs[e.i]);
  }

  lemma ExecutorStrands(s: System, e: Event, lim: Limits)
    requires SystemInv(s, lim) && IsExecutor(e) && At(s, e.i)
    ensures Stranded(Next(s, e, lim).turns[s.pcs[e.i].turn]) <==> FailsHeld(s, e)
  {
    var t := Next(s, e, lim);
    NobodyHoldsStranded(s, e.i, lim);
    if t != s && !e.FailReservation? {
      ExecutorMoves(s, e, lim);
      if t.pcs[e.i].Idle? { EndingIsSeen(s, e, lim); }
      else { FittingIsSeen(t.turns[s.pcs[e.i].turn], t.pcs[e.i], lim.maxReservation); }
    }
  }

  lemma ReconcilerStrandsNothing(x: Turn, maxReservation: nat)
    requires TurnInv(x, maxReservation) && Scanned(x)
    ensures !Stranded(ReconcileBilling(x)) && !Stranded(Reconcile(x))
  {}

  lemma NextStrands(s: System, e: Event, lim: Limits)
    requires SystemInv(s, lim) && NoneStranded(s)
    ensures NoneStranded(Next(s, e, lim)) <==> !FailsHeld(s, e)
  {
    if IsExecutor(e) {
      if At(s, e.i) {
        ExecutorStrands(s, e, lim);
        OthersStay(s, e, lim);
      }
    } else {
      EnvironmentStrandsNothing(s, e, lim);
    }
  }

  lemma OthersStay(s: System, e: Event, lim: Limits)
    requires IsExecutor(e) && At(s, e.i)
    ensures var t := Next(s, e, lim);
            |t.turns| == |s.turns| && forall j :: 0 <= j < |t.turns| && j != s.pcs[e.i].turn ==> t.turns[j] == s.turns[j]
  {}

  lemma EnvironmentStrandsNothing(s: System, e: Event, lim: Limits)
    requires SystemInv(s, lim) && NoneStranded(s) && !IsExecutor(e)
    ensures NoneStranded(Next(s, e, lim))
  {
    if (e.ReconcilePartly? || e.ReconcileTurn?) && Next(s, e, lim) != s && Scanned(s.turns[e.k]) {
      ReconcilerStrandsNothing(s.turns[e.k], lim.maxReservation);
    }
  }

  // ---- Runs ----

  lemma {:induction false} StrandedForever(s: System, es: seq<Event>, lim: Limits, k: nat)
    requires SystemInv(s, lim) && SoundRun(es, lim) && k < |s.turns| && Stranded(s.turns[k])
    ensures k < |Run(s, es, lim).turns| && Run(s, es, lim).turns[k] == s.turns[k]
    decreases |es|
  {
    if es != [] {
      StrandedStays(s, es[0], lim, k);
      NextKeepsInv(s, es[0], lim);
      StrandedForever(Next(s, es[0], lim), es[1..], lim, k);
    }
  }

  /**
   * After any run, every ACTIVE reservation is on a turn the reconciler selects exactly when no
   * reserveUsage call failed on a turn that was already holding.
   */
  lemma {:induction false} HoldsAreSeenIff(s: System, es: seq<Event>, lim: Limits)
    requires SystemInv(s, lim) && SoundRun(es, lim) && NoneStranded(s)
    ensures NoneStranded(Run(s, es, lim)) <==> NeverFailsHeld(s, es, lim)
    decreases |es|
  {
    if es != [] {
      var t := Next(s, es[0], lim);
      NextStrands(s, es[0], lim);
      NextKeepsInv(s, es[0], lim);
      if FailsHeld(s, es[0]) {
        var k :| 0 <= k < |t.turns| && Stranded(t.turns[k]);
        StrandedForever(t, es[1..], lim, k);
      } else {
        HoldsAreSeenIff(t, es[1..], lim);
      }
    }
  }

  // ---- Two failing runs ----

  lemma RunOfThree(s: System, a: Event, b: Event, c: Event, lim: Limits)
    ensures Run(s, [a, b, c], lim) == Next(Next(Next(s, a, lim), b, lim), c, lim)
  {
    assert [a, b, c][1..] == [b, c] && [b, c][1..] == [c] && [c][1..] == [];
    var t := Next(Next(s, a, lim), b, lim);
    assert Run(Next(s, a, lim), [b, c], lim) == Run(t, [c], lim);
  }

  /** Only the answer to reserveUsage is lost: its reservation is held for ever. */
  lemma LostAnswerStrands(s: System, i: nat, lim: Limits)
    requires SystemInv(s, lim) && At(s, i) && s.pcs[i].Admitted? && TurnAt(s, i).hold.NoHold? && TurnAt(s, i).request.estimated > 0
    ensures var t := Run(s, [Restore(i), Reserve(i, true), FailReservation(i)], lim);
            s.pcs[i].turn < |t.turns| && Stranded(t.turns[s.pcs[i].turn]) && Reconcile(t.turns[s.pcs[i].turn]) == t.turns[s.pcs[i].turn]
  {
    RunOfThree(s, Restore(i), Reserve(i, true), FailReservation(i), lim);
  }

  function Created(): Turn { NewTurn(0, 0, 1) }

  function HeldAgain(): Turn { Created().(hold := Held(ACTIVE, 1, 0)) }

  function OneUnit(): Limits { Limits(1, 1, 1, 1, 1) }

  lemma StartIsSound()
    ensures SystemInv(System([Created()], [Admitted(0)]), OneUnit())
  {
    forall i: nat ensures Sum([Created()], Ours(i)) <= 1 {
      SumOne(Created(), Ours(i));
    }
    assert Created() in [Created()];
    assert PaidIds([Created()]) == {0};
  }

  lemma SpendOfHeld()
    ensures SpendOf([HeldAgain()], 0) == PlanSpend({0}, 1, 0, 0, 1)
  {
    SumOne(HeldAgain(), Ours(0));
    SumOne(HeldAgain(), SettledPart());
    SumOne(HeldAgain(), ActivePart());
    SumOne(HeldAgain(), PendingPart());
    assert HeldAgain() in [HeldAgain()];
    assert PaidIds([HeldAgain()]) == {0};
  }

  /** An executor that crashed after reserving is readmitted, its next reserveUsage call fails, and the first reservation is stranded. */
  lemma CrashThenFailureStrands(capacity: Capacity, budget: Budget)
    ensures SystemInv(System([Created()], [Admitted(0)]), OneUnit())
    ensures var s := System([Created()], [Admitted(0)]);
            var held := Run(s, [Restore(0), Reserve(0, true), Crash(0)], OneUnit());
            var t := Run(held, [Begin(0, 0, capacity, budget), Restore(0), FailReservation(0)], OneUnit());
            |t.turns| == 1 && Stranded(t.turns[0]) && t.turns[0].status == TurnFailedPreProvider
  {
    var lim := OneUnit();
    var s := System([Created()], [Admitted(0)]);
    StartIsSound();
    var s2 := System([HeldAgain()], [Idle]);
    RunOfThree(s, Restore(0), Reserve(0, true), Crash(0), lim);
    assert Next(s, Restore(0), lim) == System([Created()], [Restored(0)]);
    assert Next(System([Created()], [Restored(0)]), Reserve(0, true), lim) == System([HeldAgain()], [Holding(0)]);
    assert Next(System([HeldAgain()], [Holding(0)]), Crash(0), lim) == s2;
    SpendOfHeld();
    assert FindTurn(s2.turns, 0, 0) == 0;
    RunOfThree(s2, Begin(0, 0, capacity, budget), Restore(0), FailReservation(0), lim);
    assert Next(s2, Begin(0, 0, capacity, budget), lim) == System([HeldAgain()], [Admitted(0)]);
    assert Next(System([HeldAgain()], [Admitted(0)]), Restore(0), lim) == System([HeldAgain()], [Restored(0)]);
  }
}
