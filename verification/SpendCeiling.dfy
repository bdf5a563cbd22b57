/** How far the committed spending of a plan stays below its ceiling when workers compete. */
module SpendCeiling {
  import opened Basics
  import opened Books
  import opened Turns
  import opened TurnMachine
  import opened TurnInvariant

  function CommittedOf(turns: seq<Turn>): int { Sum(turns, Committed()) }

  /** A turn counts in exactly one of the three sums, or in none. */
  lemma OneClass(x: Turn)
    ensures Committed()(x) == SettledPart()(x) + ActivePart()(x) + PendingPart()(x)
    ensures SettledPart()(x) == 0 || ActivePart()(x) == 0
    ensures PendingPart()(x) == 0 || (SettledPart()(x) == 0 && ActivePart()(x) == 0)
  {}

  lemma {:induction false} SpendIsCommitted(turns: seq<Turn>, i: nat)
    ensures var spend := SpendOf(turns, i); CommittedOf(turns) == spend.settled + spend.activeReserved + spend.pendingAdmission
  {
    if turns != [] {
      SpendIsCommitted(turns[..|turns| - 1], i);
      OneClass(turns[|turns| - 1]);
    }
  }

  /**
   * What a turn counts for: from its admission until its reservation is linked, its estimate; then what the
   * reservation holds, and once settled what was settled; nothing while it waits or once it failed or released.
   */
  lemma SpendTells(x: Turn, maxReservation: nat)
    requires TurnInv(x, maxReservation)
    ensures Classify(x) ==
            if x.status == TurnCreated then SpendPending(x.request.estimated)
            else if !x.request.linked then SpendNothing
            else match x.hold
                 case NoHold => SpendNothing
                 case Held(status, estimated, settled) =>
                   if status == ACTIVE then SpendActive(estimated) else if status == SETTLED then SpendSettled(settled) else SpendNothing
  {}

  // ---- What events do to the committed sum ----

  lemma PreparingCosts(x: Turn, pc: Pc, waiting: bool, lim: Limits)
    requires TurnInv(x, lim.maxReservation) && PcFits(x, pc)
    ensures pc.Restored? ==> Committed()(MarkUsageWait(x, waiting)) <= Committed()(x)
    ensures pc.Restored? ==> Committed()(x.(hold := ReserveHold(x.hold, x.request.estimated))) <= Committed()(x)
    ensures pc.Restored? || pc.Holding? ==> Committed()(MarkPreProviderFailure(x)) <= Committed()(x)
    ensures pc.Holding? ==> Committed()(LinkReservation(x)) <= Committed()(x)
  {}

  lemma CallingCosts(x: Turn, pc: Pc, lim: Limits)
    requires TurnInv(x, lim.maxReservation) && PcFits(x, pc)
    ensures pc.Linked? ==> Committed()(MarkStarting(x)) <= Committed()(x)
    ensures pc.Started? ==> Committed()(CountCall(x)) <= Committed()(x)
    ensures pc.Called? ==> Committed()(MarkInFlight(x)) <= Committed()(x)
  {}

  lemma SettlingCosts(x: Turn, pc: Pc, lim: Limits)
    requires TurnInv(x, lim.maxReservation) && PcFits(x, pc)
    ensures pc.Measured? && pc.actual <= x.request.estimated ==>
              Committed()(MarkDurable(x, pc.actual, pc.toolCallError, pc.interrupted)) <= Committed()(x)
    ensures pc.DurablePc? ==> Committed()(MarkSettling(x)) <= Committed()(x)
    ensures pc.SettlingPc? && x.request.actual.Some? && CanSettle(x.hold, x.request.actual.value) ==>
              Committed()(x.(hold := SettleHold(x.hold, x.request.actual.value))) <= Committed()(x)
    ensures pc.SettledPc? && x.hold.Held? ==> Committed()(MarkSettled(x)) <= Committed()(x)
  {}

  lemma ReleasingCosts(x: Turn, pc: Pc, withActual: bool, lim: Limits)
    requires TurnInv(x, lim.maxReservation) && PcFits(x, pc)
    ensures (pc.Linked? || pc.Called? || pc.Streaming?) && CanRelease(x.hold) ==>
              Committed()(x.(hold := ReleaseHold(x.hold))) <= Committed()(x)
    ensures pc.Released? ==> Committed()(MarkReleased(x)) <= Committed()(x)
    ensures GivenUp(x, pc, withActual).Some? ==> Committed()(GivenUp(x, pc, withActual).value) <= Committed()(x)
  {}

  lemma BillingCosts(x: Turn, lim: Limits)
    requires TurnInv(x, lim.maxReservation) && Scanned(x)
    ensures Committed()(ReconcileBilling(x)) <= Committed()(x)
  {}

  lemma RecordCosts(x: Turn, lim: Limits)
    requires TurnInv(x, lim.maxReservation) && Scanned(x)
    requires !Settles(x) && !Releases(x)
    ensures Committed()(ReconcileRecord(x)) <= Committed()(x)
  {}

  lemma ReconcileCosts(x: Turn, lim: Limits)
    requires TurnInv(x, lim.maxReservation)
    ensures Committed()(Reconcile(x)) <= Committed()(x)
  {
    if Scanned(x) {
      BillingCosts(x, lim);
      BillingKeeps(x, lim);
      RecordCosts(ReconcileBilling(x), lim);
    }
  }

  /** Only restoring a waiting turn adds to what its executor has committed. */
  lemma MoveCosts(s: System, e: Event, lim: Limits)
    requires SystemInv(s, lim) && IsExecutor(e) && !e.Restore? && At(s, e.i)
    ensures Committed()(Next(s, e, lim).turns[s.pcs[e.i].turn]) <= Committed()(TurnAt(s, e.i))
  {
    var x, pc := TurnAt(s, e.i), s.pcs[e.i];
    if e.Reserve? || e.LoseCapacity? || e.FailReservation? || e.Link? { PreparingCosts(x, pc, e.LoseCapacity? && e.waiting, lim); }
    else if e.Start? || e.Call? || e.Stream? || e.Measure? { CallingCosts(x, pc, lim); }
    else if e.Release? || e.FinishRelease? || e.GiveUp? { ReleasingCosts(x, pc, e.GiveUp? && e.withActual, lim); }
    else { SettlingCosts(x, pc, lim); }
  }

  lemma ReplacedCosts(turns: seq<Turn>, k: nat, x: Turn)
    requires k < |turns|
    ensures CommittedOf(turns[k := x]) == CommittedOf(turns) + Committed()(x) - Committed()(turns[k])
  {
    SumUpdate(turns, k, x, Committed());
  }

  // ---- What is admitted but not yet counted ----

  predicate Waits(x: Turn) { x.status == TurnWaiting || x.status == TurnBlocked }

  /** The estimate of a waiting turn that passed admission and is not restored yet. */
  function Uncounted(s: System, i: nat): int
    requires i < |s.pcs|
  {
    if At(s, i) && s.pcs[i].Admitted? && Waits(TurnAt(s, i)) then TurnAt(s, i).request.estimated else 0
  }

  function Same(): int -> int { (x: int) => x }

  function UncountedList(s: System): (w: seq<int>)
    ensures |w| == |s.pcs| && forall i :: 0 <= i < |w| ==> w[i] == Uncounted(s, i)
  {
    seq(|s.pcs|, i requires 0 <= i < |s.pcs| => Uncounted(s, i))
  }

  function Exposure(s: System): int { CommittedOf(s.turns) + Sum(UncountedList(s), Same()) }

  lemma {:induction false} AllBounded(w: seq<int>, r: nat)
    requires forall i :: 0 <= i < |w| ==> w[i] <= r
    ensures Sum(w, Same()) <= |w| * r
  {
    if w != [] {
      AllBounded(w[..|w| - 1], r);
      OneMore(|w| - 1, r);
    }
  }

  lemma OthersBounded(w: seq<int>, i: nat, r: nat)
    requires i < |w| && w[i] == 0 && forall j :: 0 <= j < |w| ==> w[j] <= r
    ensures Sum(w, Same()) <= (|w| - 1) * r
  {
    var rest := w[..i] + w[i + 1..];
    assert w == w[..i] + [w[i]] + w[i + 1..];
    SumLast(w[..i], w[i], Same());
    SumAppend(w[..i] + [w[i]], w[i + 1..], Same());
    SumAppend(w[..i], w[i + 1..], Same());
    AllBounded(rest, r);
  }

  lemma UncountedBounded(s: System, lim: Limits)
    requires SystemInv(s, lim)
    ensures forall i :: 0 <= i < |s.pcs| ==> 0 <= UncountedList(s)[i] <= lim.maxReservation
  {
    forall i | 0 <= i < |s.pcs| ensures 0 <= Uncounted(s, i) <= lim.maxReservation {
      if At(s, i) { assert TurnInv(TurnAt(s, i), lim.maxReservation); }
    }
  }

  /** An executor's write on its own turn leaves what the others wait for. */
  lemma OthersUncounted(s: System, i: nat, x: Turn, pc: Pc, lim: Limits)
    requires SystemInv(s, lim) && At(s, i)
    requires x.invocation == i
    ensures var t := Move(s, i, x, pc);
            UncountedList(t) == UncountedList(s)[i := Uncounted(t, i)]
  {
    var t := Move(s, i, x, pc);
    forall j | 0 <= j < |s.pcs| && j != i ensures Uncounted(t, j) == Uncounted(s, j) {
      if At(s, j) { assert s.turns[s.pcs[j].turn].invocation == j; }
    }
  }

  /** A write that costs no more than what its executor had waiting. */
  lemma WriteExposure(s: System, i: nat, x: Turn, pc: Pc, lim: Limits)
    requires SystemInv(s, lim) && At(s, i) && x.invocation == i
    requires Committed()(x) + Uncounted(Move(s, i, x, pc), i) <= Committed()(TurnAt(s, i)) + Uncounted(s, i)
    ensures Exposure(Move(s, i, x, pc)) <= Exposure(s)
  {
    OthersUncounted(s, i, x, pc, lim);
    ReplacedCosts(s.turns, s.pcs[i].turn, x);
    SumUpdate(UncountedList(s), i, Uncounted(Move(s, i, x, pc), i), Same());
  }

  lemma ExecutorExposure(s: System, e: Event, lim: Limits)
    requires SystemInv(s, lim) && IsExecutor(e)
    ensures Exposure(Next(s, e, lim)) <= Exposure(s)
  {
    var t := Next(s, e, lim);
    if t != s {
      ExecutorMoves(s, e, lim);
      if e.Restore? {
        RestoreMoves(s, e.i, lim);
      } else {
        MoveCosts(s, e, lim);
        OnlyAdmittedWait(s, e, lim);
      }
      WriteExposure(s, e.i, t.turns[s.pcs[e.i].turn], t.pcs[e.i], lim);
    }
  }

  lemma OnlyAdmittedWait(s: System, e: Event, lim: Limits)
    requires IsExecutor(e) && !e.Restore? && Next(s, e, lim) != s && At(s, e.i)
    ensures e.i < |Next(s, e, lim).pcs| && Uncounted(Next(s, e, lim), e.i) == 0 && Uncounted(s, e.i) == 0
  {}

  /** Restoring counts exactly what was admitted. */
  lemma RestoreMoves(s: System, i: nat, lim: Limits)
    requires SystemInv(s, lim) && At(s, i) && s.pcs[i].Admitted?
    ensures Uncounted(Next(s, Restore(i), lim), i) == 0
    ensures Committed()(RestoreCreated(TurnAt(s, i))) == Committed()(TurnAt(s, i)) + Uncounted(s, i)
  {
    assert TurnInv(TurnAt(s, i), lim.maxReservation) && PcFits(TurnAt(s, i), s.pcs[i]);
  }

  lemma FreeExposure(s: System, k: nat, x: Turn, lim: Limits)
    requires SystemInv(s, lim) && k < |s.turns| && Free(s, k) && Committed()(x) <= Committed()(s.turns[k])
    ensures Exposure(s.(turns := s.turns[k := x])) <= Exposure(s)
  {
    ReplacedCosts(s.turns, k, x);
    assert UncountedList(s.(turns := s.turns[k := x])) == UncountedList(s);
  }

  lemma CrashExposure(s: System, i: nat, lim: Limits)
    requires SystemInv(s, lim)
    ensures Exposure(Next(s, Crash(i), lim)) <= Exposure(s)
  {
    if i < |s.pcs| {
      UncountedBounded(s, lim);
      var t := Next(s, Crash(i), lim);
      assert UncountedList(t) == UncountedList(s)[i := 0];
      SumUpdate(UncountedList(s), i, 0, Same());
    }
  }

  /** The bound that always holds: one reservation beyond the ceiling for every other executor. */
  function Slack(s: System, lim: Limits): int { (|s.pcs| - 1) * lim.maxReservation }

  lemma ReadmissionFits(s: System, i: nat, k: nat, lim: Limits)
    requires SystemInv(s, lim) && i < |s.pcs| && s.pcs[i].Idle? && k < |s.turns| && s.turns[k].invocation == i
    requires Readmit(SpendOf(s.turns, i), k, s.turns[k], lim).BeginNew? && s.turns[k].request.status == ReqCreated
    requires Exposure(s) <= lim.maxCommitted + Slack(s, lim)
    ensures Exposure(s.(pcs := s.pcs[i := Admitted(k)])) <= lim.maxCommitted + Slack(s, lim)
  {
    var t := s.(pcs := s.pcs[i := Admitted(k)]);
    UncountedBounded(s, lim);
    OthersBounded(UncountedList(s), i, lim.maxReservation);
    assert UncountedList(t) == UncountedList(s)[i := Uncounted(t, i)];
    SumUpdate(UncountedList(s), i, Uncounted(t, i), Same());
    ReadmittedFits(s.turns, i, k, lim);
  }

  /** A waiting turn is readmitted only while it fits. */
  lemma ReadmittedFits(turns: seq<Turn>, i: nat, k: nat, lim: Limits)
    requires k < |turns| && turns[k].request.status == ReqCreated && TurnInv(turns[k], lim.maxReservation)
    requires Readmit(SpendOf(turns, i), k, turns[k], lim).BeginNew?
    ensures Waits(turns[k]) ==> CommittedOf(turns) + turns[k].request.estimated <= lim.maxCommitted
  {
    SpendIsCommitted(turns, i);
  }

  function WithNewTurn(s: System, i: nat, index: nat, estimate: nat): System
    requires i < |s.pcs|
  {
    System(s.turns + [NewTurn(i, index, estimate)], s.pcs[i := Admitted(|s.turns|)])
  }

  lemma NewTurnUncounted(s: System, i: nat, index: nat, estimate: nat, j: nat)
    requires i < |s.pcs| && s.pcs[i].Idle? && j < |s.pcs|
    requires !s.pcs[j].Idle? ==> s.pcs[j].turn < |s.turns|
    ensures Uncounted(WithNewTurn(s, i, index, estimate), j) == Uncounted(s, j)
  {
    var t := WithNewTurn(s, i, index, estimate);
    if j != i && At(s, j) { assert t.turns[s.pcs[j].turn] == s.turns[s.pcs[j].turn]; }
  }

  lemma NewTurnFits(s: System, i: nat, index: nat, estimate: nat, lim: Limits)
    requires SystemInv(s, lim) && i < |s.pcs| && s.pcs[i].Idle?
    requires CommittedOf(s.turns) + estimate <= lim.maxCommitted
    ensures Exposure(WithNewTurn(s, i, index, estimate)) <= lim.maxCommitted + Slack(s, lim)
  {
    var t := WithNewTurn(s, i, index, estimate);
    SumLast(s.turns, NewTurn(i, index, estimate), Committed());
    forall j | 0 <= j < |s.pcs| ensures Uncounted(t, j) == Uncounted(s, j) {
      NewTurnUncounted(s, i, index, estimate, j);
    }
    assert UncountedList(t) == UncountedList(s);
    UncountedBounded(s, lim);
    OthersBounded(UncountedList(s), i, lim.maxReservation);
  }

  lemma BeginExposure(s: System, e: Event, lim: Limits)
    requires SystemInv(s, lim) && e.Begin? && Sound(e, lim)
    requires Exposure(s) <= lim.maxCommitted + Slack(s, lim)
    ensures Exposure(Next(s, e, lim)) <= lim.maxCommitted + Slack(s, lim)
  {
    if e.i < |s.pcs| && s.pcs[e.i].Idle? {
      var k := FindTurn(s.turns, e.i, e.index);
      var outcome := BeginOrReuseTurn(s.turns, e.i, e.index, e.capacity, e.budget, lim).1;
      if outcome.BeginNew? {
        if k < |s.turns| {
          ReadmissionFits(s, e.i, k, lim);
        } else {
          SpendIsCommitted(s.turns, e.i);
          NewTurnFits(s, e.i, e.index, AdmitNew(SpendOf(s.turns, e.i), e.i, e.capacity, e.budget, lim).value, lim);
        }
      }
    }
  }

  lemma ReconcileExposure(s: System, e: Event, lim: Limits)
    requires SystemInv(s, lim) && (e.ReconcilePartly? || e.ReconcileTurn?)
    ensures Exposure(Next(s, e, lim)) <= Exposure(s)
  {
    if Next(s, e, lim) != s {
      if e.ReconcilePartly? {
        BillingCosts(s.turns[e.k], lim);
        FreeExposure(s, e.k, ReconcileBilling(s.turns[e.k]), lim);
      } else {
        ReconcileCosts(s.turns[e.k], lim);
        FreeExposure(s, e.k, Reconcile(s.turns[e.k]), lim);
      }
    }
  }

  lemma SameExecutors(s: System, e: Event, lim: Limits)
    ensures |Next(s, e, lim).pcs| == |s.pcs|
  {}

  lemma NextExposure(s: System, e: Event, lim: Limits)
    requires SystemInv(s, lim) && Sound(e, lim) && Exposure(s) <= lim.maxCommitted + Slack(s, lim)
    ensures Exposure(Next(s, e, lim)) <= lim.maxCommitted + Slack(s, lim)
  {
    if IsExecutor(e) { ExecutorExposure(s, e, lim); }
    else if e.Begin? { BeginExposure(s, e, lim); }
    else if e.Crash? { CrashExposure(s, e.i, lim); }
    else { ReconcileExposure(s, e, lim); }
  }

  /**
   * However workers compete, settled, reserved and admitted spending of a plan exceed its ceiling
   * by at most one reservation for each executor but one.
   */
  lemma {:induction false} CeilingWithSlack(s: System, es: seq<Event>, lim: Limits)
    requires SystemInv(s, lim) && SoundRun(es, lim) && Exposure(s) <= lim.maxCommitted + Slack(s, lim)
    ensures CommittedOf(Run(s, es, lim).turns) <= lim.maxCommitted + Slack(s, lim)
    decreases |es|
  {
    if es == [] {
      UncountedBounded(s, lim);
      SumNonNegative(UncountedList(s), Same());
    } else {
      NextKeepsInv(s, es[0], lim);
      NextExposure(s, es[0], lim);
      SameExecutors(s, es[0], lim);
      CeilingWithSlack(Next(s, es[0], lim), es[1..], lim);
    }
  }

  // ---- When the ceiling itself holds ----

  /** A waiting turn is restored only while it still fits. */
  predicate RestoreFits(s: System, e: Event, lim: Limits) {
    e.Restore? && e.i < |s.pcs| ==> CommittedOf(s.turns) + Uncounted(s, e.i) <= lim.maxCommitted
  }

  predicate RestoresFit(s: System, es: seq<Event>, lim: Limits)
    decreases |es|
  {
    es == [] || (RestoreFits(s, es[0], lim) && RestoresFit(Next(s, es[0], lim), es[1..], lim))
  }

  predicate StaysWithin(s: System, es: seq<Event>, lim: Limits)
    decreases |es|
  {
    CommittedOf(s.turns) <= lim.maxCommitted && (es == [] || StaysWithin(Next(s, es[0], lim), es[1..], lim))
  }

  lemma RestoreCosts(s: System, i: nat, lim: Limits)
    requires SystemInv(s, lim) && i < |s.pcs|
    ensures CommittedOf(Next(s, Restore(i), lim).turns) == CommittedOf(s.turns) + Uncounted(s, i)
  {
    if At(s, i) && s.pcs[i].Admitted? {
      RestoreMoves(s, i, lim);
      ReplacedCosts(s.turns, s.pcs[i].turn, RestoreCreated(TurnAt(s, i)));
    }
  }

  /** Every event but a restore keeps the plan within the ceiling; a restore does exactly when it fits. */
  lemma NextStaysWithin(s: System, e: Event, lim: Limits)
    requires SystemInv(s, lim) && Sound(e, lim) && CommittedOf(s.turns) <= lim.maxCommitted
    ensures CommittedOf(Next(s, e, lim).turns) <= lim.maxCommitted <==> RestoreFits(s, e, lim)
  {
    if e.Restore? {
      if e.i < |s.pcs| { RestoreCosts(s, e.i, lim); }
    } else if IsExecutor(e) {
      if Next(s, e, lim) != s {
        ExecutorMoves(s, e, lim);
        MoveCosts(s, e, lim);
        ReplacedCosts(s.turns, s.pcs[e.i].turn, Next(s, e, lim).turns[s.pcs[e.i].turn]);
      }
    } else {
      OthersStayWithin(s, e, lim);
    }
  }

  lemma BeginStaysWithin(s: System, e: Event, lim: Limits)
    requires e.Begin? && CommittedOf(s.turns) <= lim.maxCommitted
    ensures CommittedOf(Next(s, e, lim).turns) <= lim.maxCommitted
  {
    var i := e.i;
    if i < |s.pcs| && s.pcs[i].Idle? && FindTurn(s.turns, i, e.index) == |s.turns| {
      SpendIsCommitted(s.turns, i);
      var admitted := AdmitNew(SpendOf(s.turns, i), i, e.capacity, e.budget, lim);
      if admitted.Ok? { SumLast(s.turns, NewTurn(i, e.index, admitted.value), Committed()); }
    }
  }

  lemma ReconcileStaysWithin(s: System, e: Event, lim: Limits)
    requires SystemInv(s, lim) && (e.ReconcilePartly? || e.ReconcileTurn?)
    ensures CommittedOf(Next(s, e, lim).turns) <= CommittedOf(s.turns)
  {
    if Next(s, e, lim) != s {
      if e.ReconcilePartly? {
        BillingCosts(s.turns[e.k], lim);
        ReplacedCosts(s.turns, e.k, ReconcileBilling(s.turns[e.k]));
      } else {
        ReconcileCosts(s.turns[e.k], lim);
        ReplacedCosts(s.turns, e.k, Reconcile(s.turns[e.k]));
      }
    }
  }

  lemma OthersStayWithin(s: System, e: Event, lim: Limits)
    requires SystemInv(s, lim) && !IsExecutor(e) && CommittedOf(s.turns) <= lim.maxCommitted
    ensures CommittedOf(Next(s, e, lim).turns) <= lim.maxCommitted
  {
    if e.Begin? { BeginStaysWithin(s, e, lim); }
    else if !e.Crash? { ReconcileStaysWithin(s, e, lim); }
  }

  /** A run stays within the ceiling exactly when every restore of a waiting turn fits at its moment. */
  lemma {:induction false} CeilingIffRestoresFit(s: System, es: seq<Event>, lim: Limits)
    requires SystemInv(s, lim) && SoundRun(es, lim) && CommittedOf(s.turns) <= lim.maxCommitted
    ensures StaysWithin(s, es, lim) <==> RestoresFit(s, es, lim)
    decreases |es|
  {
    if es != [] {
      NextStaysWithin(s, es[0], lim);
      if CommittedOf(Next(s, es[0], lim).turns) <= lim.maxCommitted {
        NextKeepsInv(s, es[0], lim);
        CeilingIffRestoresFit(Next(s, es[0], lim), es[1..], lim);
      }
    }
  }

  // ---- A schedule that keeps the ceiling ----

  /** Executor j was readmitted for a waiting turn and has not restored it. */
  predicate Readmitted(s: System, j: nat) { At(s, j) && s.pcs[j].Admitted? && Waits(TurnAt(s, j)) }

  /** No executor begins or restores while another one stands between readmission and restore. */
  predicate Alone(s: System, e: Event) {
    e.Begin? || e.Restore? ==> forall j: nat :: j < |s.pcs| && Readmitted(s, j) ==> j == e.i
  }

  predicate PromptRestores(s: System, es: seq<Event>, lim: Limits)
    decreases |es|
  {
    es == [] || (Alone(s, es[0]) && PromptRestores(Next(s, es[0], lim), es[1..], lim))
  }

  /** One executor at most is between readmission and restore, and its turn still fits. */
  ghost predicate RestoreIsSafe(s: System, lim: Limits) {
    && (forall i: nat, j: nat :: i < |s.pcs| && j < |s.pcs| && Readmitted(s, i) && Readmitted(s, j) ==> i == j)
    && (forall i: nat :: i < |s.pcs| && Readmitted(s, i) ==> CommittedOf(s.turns) + TurnAt(s, i).request.estimated <= lim.maxCommitted)
  }

  /** Only a Begin readmits. */
  lemma OnlyBeginReadmits(s: System, e: Event, lim: Limits, j: nat)
    requires SystemInv(s, lim) && !e.Begin? && j < |s.pcs| && Readmitted(Next(s, e, lim), j)
    ensures Readmitted(s, j) && TurnAt(Next(s, e, lim), j).request.estimated == TurnAt(s, j).request.estimated
  {
    var t := Next(s, e, lim);
    if IsExecutor(e) {
      if t != s {
        ExecutorMoves(s, e, lim);
        MoveReadmitsNobody(s, e, lim);
        if j != e.i { MoveLeavesOthers(s, e.i, t.turns[s.pcs[e.i].turn], t.pcs[e.i], lim, j); }
      }
    } else if e.ReconcilePartly? || e.ReconcileTurn? {
      ReconcileLeavesHeld(s, e, lim, j);
    }
  }

  lemma MoveReadmitsNobody(s: System, e: Event, lim: Limits)
    requires IsExecutor(e) && Next(s, e, lim) != s
    ensures e.i < |Next(s, e, lim).pcs| && !Next(s, e, lim).pcs[e.i].Admitted?
  {}

  lemma MoveLeavesOthers(s: System, i: nat, x: Turn, pc: Pc, lim: Limits, j: nat)
    requires SystemInv(s, lim) && At(s, i) && x.invocation == i && j < |s.pcs| && j != i
    requires Readmitted(Move(s, i, x, pc), j)
    ensures Readmitted(s, j) && TurnAt(Move(s, i, x, pc), j) == TurnAt(s, j)
  {
    assert s.turns[s.pcs[j].turn].invocation == j;
  }

  lemma ReconcileLeavesHeld(s: System, e: Event, lim: Limits, j: nat)
    requires (e.ReconcilePartly? || e.ReconcileTurn?) && j < |s.pcs| && Readmitted(Next(s, e, lim), j)
    ensures Readmitted(s, j) && TurnAt(Next(s, e, lim), j) == TurnAt(s, j)
  {
    if Next(s, e, lim) != s { assert Free(s, e.k) && s.pcs[j].turn != e.k; }
  }

  lemma OnlyRestoreCosts(s: System, e: Event, lim: Limits)
    requires SystemInv(s, lim) && !e.Begin? && !e.Restore?
    ensures CommittedOf(Next(s, e, lim).turns) <= CommittedOf(s.turns)
  {
    if IsExecutor(e) {
      if Next(s, e, lim) != s {
        ExecutorMoves(s, e, lim);
        MoveCosts(s, e, lim);
        ReplacedCosts(s.turns, s.pcs[e.i].turn, Next(s, e, lim).turns[s.pcs[e.i].turn]);
      }
    } else if !e.Crash? {
      ReconcileStaysWithin(s, e, lim);
    }
  }

  lemma BeginLeavesOthers(s: System, e: Event, lim: Limits, j: nat)
    requires SystemInv(s, lim) && e.Begin? && j < |s.pcs| && j != e.i && Readmitted(Next(s, e, lim), j)
    ensures Readmitted(s, j)
  {
    var t := Next(s, e, lim);
    assert t.pcs[j] == s.pcs[j] && s.pcs[j].turn < |s.turns|;
    assert t.turns[s.pcs[j].turn] == s.turns[s.pcs[j].turn];
  }

  lemma ReadmissionIsSafe(s: System, e: Event, lim: Limits)
    requires SystemInv(s, lim) && e.Begin? && e.i < |s.pcs| && s.pcs[e.i].Idle? && Readmitted(Next(s, e, lim), e.i)
    ensures var t := Next(s, e, lim); CommittedOf(t.turns) + TurnAt(t, e.i).request.estimated <= lim.maxCommitted
  {
    var k := FindTurn(s.turns, e.i, e.index);
    if k < |s.turns| { ReadmittedFits(s.turns, e.i, k, lim); }
  }

  lemma BeginIsSafe(s: System, e: Event, lim: Limits)
    requires SystemInv(s, lim) && e.Begin? && Sound(e, lim) && Alone(s, e) && RestoreIsSafe(s, lim)
    ensures RestoreIsSafe(Next(s, e, lim), lim)
  {
    var t := Next(s, e, lim);
    if e.i < |s.pcs| && s.pcs[e.i].Idle? {
      SameExecutors(s, e, lim);
      forall j: nat | j < |t.pcs| && Readmitted(t, j) ensures j == e.i {
        if j != e.i { BeginLeavesOthers(s, e, lim, j); }
      }
      if Readmitted(t, e.i) { ReadmissionIsSafe(s, e, lim); }
    }
  }

  lemma NextIsSafe(s: System, e: Event, lim: Limits)
    requires SystemInv(s, lim) && Sound(e, lim) && Alone(s, e) && RestoreIsSafe(s, lim) && CommittedOf(s.turns) <= lim.maxCommitted
    ensures RestoreIsSafe(Next(s, e, lim), lim) && RestoreFits(s, e, lim)
  {
    var t := Next(s, e, lim);
    if e.Begin? {
      BeginIsSafe(s, e, lim);
    } else {
      SameExecutors(s, e, lim);
      forall j: nat | j < |t.pcs| && Readmitted(t, j)
        ensures Readmitted(s, j) && TurnAt(t, j).request.estimated == TurnAt(s, j).request.estimated
      {
        OnlyBeginReadmits(s, e, lim, j);
      }
      if !e.Restore? { OnlyRestoreCosts(s, e, lim); }
    }
  }

  /**
   * When readmission and its restore are not interrupted by another executor's, in particular when they
   * are one step, no interleaving of workers, crashes and the reconciler ever exceeds the ceiling.
   */
  lemma {:induction false} PromptRestoresKeepCeiling(s: System, es: seq<Event>, lim: Limits)
    requires SystemInv(s, lim) && SoundRun(es, lim) && CommittedOf(s.turns) <= lim.maxCommitted
    requires RestoreIsSafe(s, lim) && PromptRestores(s, es, lim)
    ensures StaysWithin(s, es, lim)
    decreases |es|
  {
    if es != [] {
      NextIsSafe(s, es[0], lim);
      NextStaysWithin(s, es[0], lim);
      NextKeepsInv(s, es[0], lim);
      PromptRestoresKeepCeiling(Next(s, es[0], lim), es[1..], lim);
    }
  }

  /** A run in which every admission and its restore are one step. */
  function Joined(es: seq<Event>): seq<Event> {
    if es == [] then [] else (if es[0].Begin? then [es[0], Restore(es[0].i)] else [es[0]]) + Joined(es[1..])
  }

  ghost predicate NoneReadmitted(s: System) { forall j: nat :: j < |s.pcs| ==> !Readmitted(s, j) }

  lemma JoinedStepReadmitsNobody(s: System, e: Event, lim: Limits)
    requires SystemInv(s, lim) && Sound(e, lim) && NoneReadmitted(s)
    ensures var t := Next(s, e, lim);
            if e.Begin? then Alone(t, Restore(e.i)) && NoneReadmitted(Next(t, Restore(e.i), lim)) else NoneReadmitted(t)
  {
    var t := Next(s, e, lim);
    SameExecutors(s, e, lim);
    if e.Begin? {
      NextKeepsInv(s, e, lim);
      SameExecutors(t, Restore(e.i), lim);
      forall j: nat | j < |t.pcs| && Readmitted(t, j) ensures j == e.i {
        if j != e.i { BeginLeavesOthers(s, e, lim, j); }
      }
      var u := Next(t, Restore(e.i), lim);
      forall j: nat | j < |u.pcs| ensures !Readmitted(u, j) {
        if Readmitted(u, j) { OnlyBeginReadmits(t, Restore(e.i), lim, j); }
      }
    } else {
      forall j: nat | j < |t.pcs| ensures !Readmitted(t, j) {
        if Readmitted(t, j) { OnlyBeginReadmits(s, e, lim, j); }
      }
    }
  }

  lemma PromptStep(s: System, e: Event, rest: seq<Event>, lim: Limits)
    requires Alone(s, e) && PromptRestores(Next(s, e, lim), rest, lim)
    ensures PromptRestores(s, [e] + rest, lim)
  {
    assert ([e] + rest)[1..] == rest;
  }

  lemma {:induction false} JoinedIsSound(es: seq<Event>, lim: Limits)
    requires SoundRun(es, lim)
    ensures SoundRun(Joined(es), lim)
  {
    if es != [] {
      assert Sound(es[0], lim);
      JoinedIsSound(es[1..], lim);
    }
  }

  lemma {:induction false} JoinedIsPrompt(s: System, es: seq<Event>, lim: Limits)
    requires SystemInv(s, lim) && SoundRun(es, lim) && NoneReadmitted(s)
    ensures PromptRestores(s, Joined(es), lim)
    decreases |es|
  {
    if es != [] {
      var e, rest := es[0], Joined(es[1..]);
      var t := Next(s, e, lim);
      NextKeepsInv(s, e, lim);
      JoinedStepReadmitsNobody(s, e, lim);
      if e.Begin? {
        NextKeepsInv(t, Restore(e.i), lim);
        JoinedIsPrompt(Next(t, Restore(e.i), lim), es[1..], lim);
        PromptStep(t, Restore(e.i), rest, lim);
        PromptStep(s, e, [Restore(e.i)] + rest, lim);
        assert Joined(es) == [e] + ([Restore(e.i)] + rest);
      } else {
        JoinedIsPrompt(t, es[1..], lim);
        PromptStep(s, e, rest, lim);
      }
    }
  }

  /** With readmission and restore as one step, the ceiling holds in every run. */
  lemma AtomicRestoresKeepCeiling(s: System, es: seq<Event>, lim: Limits)
    requires SystemInv(s, lim) && SoundRun(es, lim) && CommittedOf(s.turns) <= lim.maxCommitted && NoneReadmitted(s)
    ensures StaysWithin(s, Joined(es), lim)
  {
    JoinedIsPrompt(s, es, lim);
    JoinedIsSound(es, lim);
    PromptRestoresKeepCeiling(s, Joined(es), lim);
  }

  // ---- Two workers that restore after both were admitted ----

  function WaitingTurn(i: nat): Turn { NewTurn(i, 0, 1).(status := TurnWaiting) }

  function TwoWaiting(): System { System([WaitingTurn(0), WaitingTurn(1)], [Idle, Idle]) }

  function TightLimits(): Limits { Limits(1, 2, 1, 1, 1) }

  lemma TwoWaitingSpend(i: nat)
    requires i < 2
    ensures SpendOf(TwoWaiting().turns, i) == PlanSpend({0, 1}, 1, 0, 0, 0)
  {
    var turns := TwoWaiting().turns;
    assert turns == [WaitingTurn(0)] + [WaitingTurn(1)];
    SumOfPair(WaitingTurn(0), WaitingTurn(1), Ours(i));
    SumOfPair(WaitingTurn(0), WaitingTurn(1), SettledPart());
    SumOfPair(WaitingTurn(0), WaitingTurn(1), ActivePart());
    SumOfPair(WaitingTurn(0), WaitingTurn(1), PendingPart());
    assert turns[0] in turns && turns[1] in turns;
    assert PaidIds(turns) == {0, 1};
  }

  lemma SumOfPair<T>(x: T, y: T, f: T -> int)
    ensures Sum([x, y], f) == f(x) + f(y)
  {
    assert [x, y] == [x] + [y];
    SumLast([x], y, f);
    SumOne(x, f);
  }

  /**
   * The ceiling does fail: two workers admitted one after the other for waiting turns of one unit
   * each, and restored only then, commit two units under a ceiling of one.
   */
  lemma LateRestoresBreakCeiling(capacity: Capacity, budget: Budget)
    ensures SystemInv(TwoWaiting(), TightLimits()) && CommittedOf(TwoWaiting().turns) == 0
    ensures var es := [Begin(0, 0, capacity, budget), Begin(1, 0, capacity, budget), Restore(0), Restore(1)];
            CommittedOf(Run(TwoWaiting(), es, TightLimits()).turns) == 2 > TightLimits().maxCommitted
  {
    var lim, s := TightLimits(), TwoWaiting();
    var es := [Begin(0, 0, capacity, budget), Begin(1, 0, capacity, budget), Restore(0), Restore(1)];
    TwoWaitingIsSound();
    TwoWaitingSpend(0);
    TwoWaitingSpend(1);
    SumOfPair(WaitingTurn(0), WaitingTurn(1), Committed());
    var s1, s2 := s.(pcs := [Admitted(0), Idle]), s.(pcs := [Admitted(0), Admitted(1)]);
    assert FindTurn(s.turns, 0, 0) == 0;
    assert s.turns[1..] == [WaitingTurn(1)];
    assert FindTurn(s.turns, 1, 0) == 1;
    assert Next(s, es[0], lim) == s1;
    assert Next(s1, es[1], lim) == s2;
    var x, y := NewTurn(0, 0, 1), NewTurn(1, 0, 1);
    var s3, s4 := System([x, WaitingTurn(1)], [Restored(0), Admitted(1)]), System([x, y], [Restored(0), Restored(1)]);
    assert Next(s2, es[2], lim) == s3;
    assert Next(s3, es[3], lim) == s4;
    RunOfFour(s, es[0], es[1], es[2], es[3], lim);
    SumOfPair(x, y, Committed());
  }

  lemma TwoWaitingIsSound()
    ensures SystemInv(TwoWaiting(), TightLimits())
  {
    TwoWaitingSpend(0);
    forall i: nat ensures Sum(TwoWaiting().turns, Ours(i)) <= 1 {
      SumOfPair(WaitingTurn(0), WaitingTurn(1), Ours(i));
    }
  }

  lemma RunOfFour(s: System, a: Event, b: Event, c: Event, d: Event, lim: Limits)
    ensures Run(s, [a, b, c, d], lim) == Next(Next(Next(Next(s, a, lim), b, lim), c, lim), d, lim)
  {
    assert [a, b, c, d][1..] == [b, c, d] && [b, c, d][1..] == [c, d] && [c, d][1..] == [d] && [d][1..] == [];
    var s1 := Next(s, a, lim);
    var s2 := Next(s1, b, lim);
    assert Run(s, [a, b, c, d], lim) == Run(s1, [b, c, d], lim);
    assert Run(s1, [b, c, d], lim) == Run(s2, [c, d], lim);
    assert Run(s2, [c, d], lim) == Run(Next(s2, c, lim), [d], lim);
  }
}
