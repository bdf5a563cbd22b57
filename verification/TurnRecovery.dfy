/**
 * What crashes and the reconciler lead to: a measured cost within its reservation is debited once
 * and ends in one final state, whatever happens in between; ambiguous work stays on hold.
 */
module TurnRecovery {
  import opened Basics
  import opened Books
  import opened Turns
  import opened TurnMachine
  import opened TurnInvariant

  /** A turn whose actual cost is stored and within its reservation. */
  predicate Measurable(x: Turn) { x.request.actual.Some? && x.request.actual.value <= x.request.estimated }

  /** The state such a turn must end in. */
  function Outcome(x: Turn): Turn
    requires x.request.actual.Some?
  {
    x.(status := TurnSucceeded,
       hold := Held(SETTLED, x.request.estimated, x.request.actual.value),
       request := x.request.(status := if x.toolCallError || x.interrupted then ReqFailed else ReqSucceeded,
                             financial := FinSettled, linked := true, userSettled := x.request.actual))
  }

  /** A complete pass of the reconciler ends a measured turn, and finds nothing to do on an ended one. */
  lemma ReconcileReachesOutcome(x: Turn, maxReservation: nat)
    requires TurnInv(x, maxReservation) && Measurable(x)
    ensures Reconcile(x) == Outcome(x)
    ensures x.status == TurnSucceeded ==> x == Outcome(x)
  {}

  ghost predicate SameFate(x: Turn, y: Turn) {
    Measurable(x) && Measurable(y) && Outcome(y) == Outcome(x)
  }

  lemma ExecutorKeepsFate(s: System, e: Event, lim: Limits)
    requires SystemInv(s, lim) && IsExecutor(e) && At(s, e.i) && Measurable(TurnAt(s, e.i))
    ensures SameFate(TurnAt(s, e.i), Next(s, e, lim).turns[s.pcs[e.i].turn])
  {
    assert TurnInv(TurnAt(s, e.i), lim.maxReservation) && PcFits(TurnAt(s, e.i), s.pcs[e.i]);
  }

  lemma ReconcilerKeepsFate(x: Turn, maxReservation: nat)
    requires TurnInv(x, maxReservation) && Measurable(x)
    ensures SameFate(x, ReconcileBilling(x)) && SameFate(x, Reconcile(x))
  {
    ReconcileReachesOutcome(x, maxReservation);
  }

  /** What an event may do to turn k. */
  ghost predicate Touches(s: System, e: Event, k: nat) {
    if IsExecutor(e) then At(s, e.i) && s.pcs[e.i].turn == k else (e.ReconcilePartly? || e.ReconcileTurn?) && e.k == k
  }

  lemma UntouchedStays(s: System, e: Event, lim: Limits, k: nat)
    requires k < |s.turns| && !Touches(s, e, k)
    ensures k < |Next(s, e, lim).turns| && Next(s, e, lim).turns[k] == s.turns[k]
  {}

  lemma ReconcilerTouches(s: System, e: Event, lim: Limits)
    requires (e.ReconcilePartly? || e.ReconcileTurn?) && e.k < |s.turns|
    ensures |Next(s, e, lim).turns| == |s.turns|
    ensures Next(s, e, lim).turns[e.k] in {s.turns[e.k], ReconcileBilling(s.turns[e.k]), Reconcile(s.turns[e.k])}
  {}

  lemma NextKeepsFate(s: System, e: Event, lim: Limits, k: nat)
    requires SystemInv(s, lim) && k < |s.turns| && Measurable(s.turns[k])
    ensures k < |Next(s, e, lim).turns| && SameFate(s.turns[k], Next(s, e, lim).turns[k])
  {
    if !Touches(s, e, k) {
      UntouchedStays(s, e, lim, k);
    } else if IsExecutor(e) {
      ExecutorKeepsFate(s, e, lim);
    } else {
      ReconcilerTouches(s, e, lim);
      ReconcilerKeepsFate(s.turns[k], lim.maxReservation);
    }
  }

  lemma {:induction false} RunKeepsFate(s: System, es: seq<Event>, lim: Limits, k: nat)
    requires SystemInv(s, lim) && SoundRun(es, lim) && k < |s.turns| && Measurable(s.turns[k])
    ensures k < |Run(s, es, lim).turns| && SameFate(s.turns[k], Run(s, es, lim).turns[k])
    decreases |es|
  {
    if es != [] {
      NextKeepsFate(s, es[0], lim, k);
      NextKeepsInv(s, es[0], lim);
      RunKeepsFate(Next(s, es[0], lim), es[1..], lim, k);
    }
  }

  /**
   * Crash convergence: from the moment the actual cost is stored, any run of executor steps, crashes
   * and partial or complete reconciler passes leaves a turn that one complete pass brings to the
   * same outcome; and where the turn has ended, it has ended there.
   */
  lemma CrashesConverge(s: System, es: seq<Event>, lim: Limits, k: nat)
    requires SystemInv(s, lim) && SoundRun(es, lim) && k < |s.turns| && Measurable(s.turns[k])
    ensures var t := Run(s, es, lim);
            && k < |t.turns|
            && Reconcile(t.turns[k]) == Outcome(s.turns[k])
            && (t.turns[k].status == TurnSucceeded ==> t.turns[k] == Outcome(s.turns[k]))
  {
    RunKeepsFate(s, es, lim, k);
    RunKeepsInv(s, es, lim);
    ReconcileReachesOutcome(Run(s, es, lim).turns[k], lim.maxReservation);
  }

  // ---- The reconciler ----

  /** A pass that crashed after its billing call is repeated without a trace. */
  lemma PartialPassIsHarmless(x: Turn, maxReservation: nat)
    requires TurnInv(x, maxReservation) && Scanned(x)
    ensures Reconcile(ReconcileBilling(x)) == Reconcile(x)
  {}

  lemma ReconcileIsIdempotent(x: Turn, maxReservation: nat)
    requires TurnInv(x, maxReservation)
    ensures Reconcile(Reconcile(x)) == Reconcile(x)
  {}

  /**
   * What a pass decides: measured turns are settled at their cost, turns before the provider fail safely, all others
   * are held; and the request's record then says what became of the reservation.
   */
  lemma ReconcileDecides(x: Turn, maxReservation: nat)
    requires TurnInv(x, maxReservation) && Scanned(x)
    ensures Reconcile(x).status ==
            if Measurable(x) then TurnSucceeded else if PreProvider(x.status) then TurnFailedPreProvider else TurnReconciliation
    ensures Reconcile(x).status == TurnFailedPreProvider ==> x.calls == 0 && (x.hold.Held? ==> Reconcile(x).hold.status == RELEASED)
    ensures Reconcile(x).status == TurnReconciliation ==> Reconcile(x).hold == x.hold
    ensures Reconcile(x).status == TurnSucceeded ==>
              x.request.actual.Some? && x.hold.Held? && Reconcile(x).hold == Held(SETTLED, x.hold.estimated, x.request.actual.value)
    ensures Reconcile(x).calls == x.calls
    ensures Reconcile(x).request.linked == Reconcile(x).hold.Held?
    ensures Reconcile(x).request.financial ==
            match Reconcile(x).status
            case TurnSucceeded => FinSettled
            case TurnFailedPreProvider => if x.hold.Held? then FinReleased else FinNone
            case _ => FinHold
  {}

  /** A hold is a fixed point that keeps its reservation. */
  lemma HoldIsFixedPoint(x: Turn, maxReservation: nat)
    requires TurnInv(x, maxReservation) && x.status == TurnReconciliation && !Measurable(x)
    ensures Reconcile(x) == x
  {}

  // ---- A settled or released reservation never changes ----

  predicate Closed(h: Hold) { h.Held? && (h.status == SETTLED || h.status == RELEASED) }

  lemma ExecutorKeepsClosed(s: System, e: Event, lim: Limits)
    requires SystemInv(s, lim) && IsExecutor(e) && At(s, e.i) && Closed(TurnAt(s, e.i).hold)
    ensures Next(s, e, lim).turns[s.pcs[e.i].turn].hold == TurnAt(s, e.i).hold
  {
    assert TurnInv(TurnAt(s, e.i), lim.maxReservation) && PcFits(TurnAt(s, e.i), s.pcs[e.i]);
  }

  lemma ReconcilerKeepsClosed(x: Turn)
    requires Closed(x.hold)
    ensures ReconcileBilling(x).hold == x.hold && Reconcile(x).hold == x.hold
  {}

  lemma NextKeepsClosed(s: System, e: Event, lim: Limits, k: nat)
    requires SystemInv(s, lim) && k < |s.turns| && Closed(s.turns[k].hold)
    ensures k < |Next(s, e, lim).turns| && Next(s, e, lim).turns[k].hold == s.turns[k].hold
  {
    if !Touches(s, e, k) {
      UntouchedStays(s, e, lim, k);
    } else if IsExecutor(e) {
      ExecutorKeepsClosed(s, e, lim);
    } else {
      ReconcilerTouches(s, e, lim);
      ReconcilerKeepsClosed(s.turns[k]);
    }
  }

  /** Each turn is settled at most once: what is settled or released stays exactly so over every run. */
  lemma {:induction false} ClosedStaysClosed(s: System, es: seq<Event>, lim: Limits, k: nat)
    requires SystemInv(s, lim) && SoundRun(es, lim) && k < |s.turns| && Closed(s.turns[k].hold)
    ensures k < |Run(s, es, lim).turns| && Run(s, es, lim).turns[k].hold == s.turns[k].hold
    decreases |es|
  {
    if es != [] {
      NextKeepsClosed(s, es[0], lim, k);
      NextKeepsInv(s, es[0], lim);
      ClosedStaysClosed(Next(s, es[0], lim), es[1..], lim, k);
    }
  }
}
