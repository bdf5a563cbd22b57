/**
 * The ceiling on settled spending (apps/worker/src/external-ai-invocation-executor.ts), which admission
 * checks without counting what is only reserved: it holds through the committed ceiling or not at all.
 */
module SettledCeiling {
  import opened Basics
  import opened Books
  import opened Turns
  import opened TurnMachine
  import opened TurnInvariant
  import opened SpendCeiling
  import opened TurnRefinement
  import P = ProviderTurns

  function SettledOf(turns: seq<Turn>): int { Sum(turns, SettledPart()) }

  lemma {:induction false} SettledIsCommitted(turns: seq<Turn>, maxReservation: nat)
    requires forall k :: 0 <= k < |turns| ==> TurnInv(turns[k], maxReservation)
    ensures SettledOf(turns) <= CommittedOf(turns)
  {
    if turns != [] {
      var n := |turns| - 1;
      SettledIsCommitted(turns[..n], maxReservation);
      assert TurnInv(turns[n], maxReservation);
      OneClass(turns[n]);
    }
  }

  predicate SettledStaysWithin(s: System, es: seq<Event>, lim: Limits)
    decreases |es|
  {
    SettledOf(s.turns) <= lim.maxSettled && (es == [] || SettledStaysWithin(Next(s, es[0], lim), es[1..], lim))
  }

  /** Where the committed ceiling is kept and is no higher, settled spending stays within its own. */
  lemma {:induction false} SettledWithinCommitted(s: System, es: seq<Event>, lim: Limits)
    requires SystemInv(s, lim) && SoundRun(es, lim) && StaysWithin(s, es, lim) && lim.maxCommitted <= lim.maxSettled
    ensures SettledStaysWithin(s, es, lim)
    decreases |es|
  {
    SettledIsCommitted(s.turns, lim.maxReservation);
    if es != [] {
      NextKeepsInv(s, es[0], lim);
      SettledWithinCommitted(Next(s, es[0], lim), es[1..], lim);
    }
  }

  /** So with readmission and restore as one step it does in every run. */
  lemma AtomicRestoresKeepSettled(s: System, es: seq<Event>, lim: Limits)
    requires SystemInv(s, lim) && SoundRun(es, lim) && CommittedOf(s.turns) <= lim.maxCommitted && NoneReadmitted(s)
    requires lim.maxCommitted <= lim.maxSettled
    ensures SettledStaysWithin(s, Joined(es), lim)
  {
    AtomicRestoresKeepCeiling(s, es, lim);
    JoinedIsSound(es, lim);
    SettledWithinCommitted(s, Joined(es), lim);
  }

  // ---- A committed ceiling above the settled one ----

  /** Two turns of one unit each, under a settled ceiling of one and a committed ceiling of two. */
  function Loose(): Limits { Limits(1, 2, 1, 2, 1) }

  function OneUnit(): Budget { (available: int) => Funded(1) }

  function Plenty(): Capacity { Capacity(2, 0) }

  /** Every call is answered and the provider reports one unit. */
  function Smooth(): P.World { P.World(P.Answers, true, false, true, P.Usage(Some(1), true, false, false), P.Answers, P.Answers) }

  function Fresh(i: nat): Turn { NewTurn(i, 0, 1) }

  function Paid(i: nat): Turn {
    Turn(i, 0, TurnSucceeded, Request(ReqSucceeded, FinSettled, 1, true, Some(1), Some(1), true), Held(SETTLED, 1, 1), false, false, 1)
  }

  lemma FreshIsPaid(i: nat)
    ensures P.Executed(Fresh(i), Smooth()).0 == Paid(i)
  {}

  lemma AdmitsOne(spend: PlanSpend, i: nat)
    requires spend.settled == 0 && spend.activeReserved == 0 && 0 <= spend.pendingAdmission <= 1
    requires spend.providerTurnsForInvocation == 0 && |spend.paidInvocationIds| <= 1
    ensures AdmitNew(spend, i, Plenty(), OneUnit(), Loose()) == Ok(1)
  {}

  lemma AdmitsFirst()
    ensures Next(System([], [Idle, Idle]), Begin(0, 0, Plenty(), OneUnit()), Loose()) == System([Fresh(0)], [Admitted(0), Idle])
  {
    assert PaidIds([]) == {} && [] + [Fresh(0)] == [Fresh(0)];
    AdmitsOne(SpendOf([], 0), 0);
    assert FindTurn([], 0, 0) == 0;
  }

  lemma AdmitsSecond()
    ensures Next(System([Fresh(0)], [Admitted(0), Idle]), Begin(1, 0, Plenty(), OneUnit()), Loose())
            == System([Fresh(0), Fresh(1)], [Admitted(0), Admitted(1)])
  {
    var turns := [Fresh(0)];
    SumOne(Fresh(0), Ours(1));
    SumOne(Fresh(0), SettledPart());
    SumOne(Fresh(0), ActivePart());
    SumOne(Fresh(0), PendingPart());
    assert Fresh(0) in turns;
    assert PaidIds(turns) == {0};
    assert turns[1..] == [] && FindTurn(turns, 1, 0) == 1;
    assert turns + [Fresh(1)] == [Fresh(0), Fresh(1)];
    AdmitsOne(SpendOf(turns, 1), 1);
  }

  lemma {:induction false} RunThrough(s: System, a: seq<Event>, b: seq<Event>, lim: Limits)
    ensures Run(s, a + b, lim) == Run(Run(s, a, lim), b, lim)
    decreases |a|
  {
    if a == [] {
      assert a + b == b;
    } else {
      assert (a + b)[1..] == a[1..] + b;
      RunThrough(Next(s, a[0], lim), a[1..], b, lim);
    }
  }

  lemma ReachesOn(s: System, t: System, u: System, lim: Limits)
    requires Reaches(s, t, lim) && Reaches(t, u, lim)
    ensures Reaches(s, u, lim)
  {
    var a: seq<Event> :| Run(s, a, lim) == t;
    var b: seq<Event> :| Run(t, b, lim) == u;
    RunThrough(s, a, b, lim);
  }

  lemma ReachesNext(s: System, e: Event, lim: Limits)
    ensures Reaches(s, Next(s, e, lim), lim)
  {
    assert [e][1..] == [];
    assert Run(s, [e], lim) == Next(s, e, lim);
  }

  lemma BothAdmitted()
    ensures Reaches(System([], [Idle, Idle]), System([Fresh(0), Fresh(1)], [Admitted(0), Admitted(1)]), Loose())
  {
    AdmitsFirst();
    AdmitsSecond();
    var s1 := System([Fresh(0)], [Admitted(0), Idle]);
    ReachesNext(System([], [Idle, Idle]), Begin(0, 0, Plenty(), OneUnit()), Loose());
    ReachesNext(s1, Begin(1, 0, Plenty(), OneUnit()), Loose());
    ReachesOn(System([], [Idle, Idle]), s1, System([Fresh(0), Fresh(1)], [Admitted(0), Admitted(1)]), Loose());
  }

  lemma OnePays(s: System, i: nat)
    requires At(s, i) && s.pcs[i] == Admitted(i) && TurnAt(s, i) == Fresh(i)
    ensures Reaches(s, Move(s, i, Paid(i), Idle), Loose())
  {
    FreshIsPaid(i);
    ExecutionIsARun(s, i, Smooth(), Loose());
  }

  /**
   * The settled ceiling does fail when the committed one is higher: from an empty plan, two executors are
   * admitted one after the other while nothing is settled, and both settle one unit under a ceiling of one.
   */
  lemma ConcurrentTurnsBreakSettled()
    ensures var end := System([Paid(0), Paid(1)], [Idle, Idle]);
            Reaches(System([], [Idle, Idle]), end, Loose()) && SettledOf(end.turns) == 2 > Loose().maxSettled
  {
    var lim := Loose();
    var s0, s2 := System([], [Idle, Idle]), System([Fresh(0), Fresh(1)], [Admitted(0), Admitted(1)]);
    var s3, s4 := System([Paid(0), Fresh(1)], [Idle, Admitted(1)]), System([Paid(0), Paid(1)], [Idle, Idle]);
    BothAdmitted();
    OnePays(s2, 0);
    OnePays(s3, 1);
    assert Move(s2, 0, Paid(0), Idle) == s3 && Move(s3, 1, Paid(1), Idle) == s4;
    ReachesOn(s0, s2, s3, lim);
    ReachesOn(s0, s3, s4, lim);
    SumOfPair(Paid(0), Paid(1), SettledPart());
  }
}
