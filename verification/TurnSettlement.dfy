/** The reservations that turns hold are the reservations of the usage books. */
module TurnSettlement {
  import opened Basics
  import opened Allocation
  import opened Books
  import opened BooksInvariant
  import opened BooksLaws
  import T = Turns

  function HoldOf(r: Reservation): T.Hold { T.Held(r.status, r.estimated, r.settled) }

  function HoldFor(s: Books, userId: string, requestId: string): T.Hold {
    match Find(s.reservations, userId, requestId)
    case None => T.NoHold
    case Some(i) => HoldOf(s.reservations[i])
  }

  /** A turn's reservation succeeds exactly when the books reserve it, and with the same effect. */
  lemma ReserveMatchesBooks(s: Books, userId: string, requestId: string, estimate: int, order: seq<nat>)
    requires forall i :: 0 <= i < |order| ==> order[i] < |s.buckets|
    ensures var (t, r) := Reserve(s, userId, requestId, estimate, order);
            var h, funded := HoldFor(s, userId, requestId), Plan(Rows(s.buckets, order), estimate).Some?;
            && (r.Ok? <==> T.CanReserve(h, estimate, funded))
            && HoldFor(t, userId, requestId) == if r.Ok? then T.ReserveHold(h, estimate) else h
  {
    if Find(s.reservations, userId, requestId).None? && Plan(Rows(s.buckets, order), estimate).Some? {
      FindLast(s.reservations, Reservation(userId, requestId, estimate, 0, ACTIVE,
                                           ToRows(Plan(Rows(s.buckets, order), estimate).value)));
    }
  }

  /** A turn's settlement within its estimate is the books' settlement and debits the buckets by the actual cost. */
  lemma SettleMatchesBooks(s: Books, userId: string, rid: nat, actual: int, lockNow: int, order: seq<nat>, now: int)
    requires Inv(s) && Owns(s, userId, rid) && lockNow <= now
    requires IsLockOrder(s, userId, BucketIds(s.reservations[rid].rows), lockNow, order)
    requires T.CanSettle(HoldOf(s.reservations[rid]), actual)
    ensures var (t, r) := Settle(s, userId, rid, actual, order, now);
            && r == Ok(rid)
            && HoldOf(t.reservations[rid]) == T.SettleHold(HoldOf(s.reservations[rid]), actual)
            && Sum(t.buckets, SpentBy()) == Sum(s.buckets, SpentBy()) + if s.reservations[rid].status == ACTIVE then actual else 0
  {
    if s.reservations[rid].status == ACTIVE {
      SettlementIsExact(s, userId, rid, actual, lockNow, order, now);
      SpareIsNatural(s, userId, now);
      assert CoverActual(Rows(s.buckets, order), s.reservations[rid].estimated, actual, now).extra == [];
    }
  }

  lemma ReleaseMatchesBooks(s: Books, userId: string, rid: nat)
    requires Inv(s) && Owns(s, userId, rid)
    ensures var (t, r) := Release(s, userId, rid);
            && (r.Ok? <==> T.CanRelease(HoldOf(s.reservations[rid])))
            && (r.Ok? ==> HoldOf(t.reservations[rid]) == T.ReleaseHold(HoldOf(s.reservations[rid])))
  {
    assert ReservationInv(s.buckets, s.reservations[rid]);
    if s.reservations[rid].status == ACTIVE { SumZero(s.reservations[rid].rows, RowCharge()); }
  }

  // ---- Repeated settlements among everything else that happens to the books ----

  /** A step that could close reservation rid. */
  predicate MayClose(step: Step, userId: string, rid: nat) {
    (step.SettleStep? || step.ReleaseStep?) && step.userId == userId && step.rid == rid
  }

  lemma {:induction false} OpenStaysOpen(s: Books, steps: seq<Step>, userId: string, rid: nat)
    requires LegalRun(s, steps) && Owns(s, userId, rid)
    requires forall k :: 0 <= k < |steps| ==> !MayClose(steps[k], userId, rid)
    ensures Owns(Run(s, steps), userId, rid) && Run(s, steps).reservations[rid] == s.reservations[rid]
    decreases |steps|
  {
    if steps != [] {
      assert !MayClose(steps[0], userId, rid);
      OpenStaysOpen(Apply(s, steps[0]), steps[1..], userId, rid);
    }
  }

  /**
   * Executor and reconciler may repeat the settlement of a measured cost as often as they like, with any
   * legal steps of other reservations, grants and refunds before, between and after: from the first attempt
   * on the reservation is settled at exactly that cost, its rows and the ledger are charged it once, and no
   * later attempt, release or settlement at another amount changes that.
   */
  lemma AttemptsDebitOnce(s: Books, before: seq<Step>, attempt: Step, after: seq<Step>, userId: string, rid: nat, actual: int)
    requires Inv(s) && ChargedOnce(s) && Owns(s, userId, rid)
    requires s.reservations[rid].status == ACTIVE && 0 <= actual <= s.reservations[rid].estimated
    requires LegalRun(s, before) && forall k :: 0 <= k < |before| ==> !MayClose(before[k], userId, rid)
    requires attempt.SettleStep? && attempt.userId == userId && attempt.rid == rid && attempt.actual == actual
    requires attempt.lockNow <= attempt.now && Legal(Run(s, before), attempt)
    requires LegalRun(Apply(Run(s, before), attempt), after)
    ensures var t := Run(Apply(Run(s, before), attempt), after);
            && rid < |t.reservations|
            && HoldOf(t.reservations[rid]) == T.Held(SETTLED, s.reservations[rid].estimated, actual)
            && Sum(t.reservations[rid].rows, RowCharge()) == actual
            && Sum(t.ledger, ChargedTo(rid)) == -actual
  {
    var u := Run(s, before);
    RunKeepsInv(s, before);
    RunChargesOnce(s, before);
    OpenStaysOpen(s, before, userId, rid);
    SettleMatchesBooks(u, userId, rid, actual, attempt.lockNow, attempt.order, attempt.now);
    var v := Apply(u, attempt);
    StepKeepsInv(u, attempt);
    StepChargesOnce(u, attempt);
    ClosedForever(v, after, rid);
    RunKeepsInv(v, after);
    RunChargesOnce(v, after);
    var t := Run(v, after);
    assert ReservationInv(t.buckets, t.reservations[rid]);
  }
}
