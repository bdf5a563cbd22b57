/**
 * The turns of a plan and the usage books as one system: every billing call of an executor or the
 * reconciler is a transaction of the books, and anything else may happen to the books in between.
 */
module TurnsAndBooks {
  import opened Basics
  import opened Allocation
  import opened Books
  import opened BooksInvariant
  import opened BooksLaws
  import opened TurnSettlement
  import T = Turns
  import M = TurnMachine
  import I = TurnInvariant
  import R = TurnRecovery

  /** The user who pays, and the request id of every turn. */
  datatype Payer = Payer(userId: string, requestOf: nat -> string)

  ghost predicate DistinctRequests(p: Payer) { forall j: nat, k: nat :: p.requestOf(j) == p.requestOf(k) ==> j == k }

  datatype Joint = Joint(turns: M.System, books: Books)

  /** The billing call that an event of the turn machine makes. */
  datatype Call = NoCall | CallReserve(turn: nat) | CallSettle(turn: nat) | CallRelease(turn: nat)

  function CallOf(s: M.System, e: M.Event): Call {
    match e
    case Reserve(i, _) => if M.At(s, i) && s.pcs[i].Restored? then CallReserve(s.pcs[i].turn) else NoCall
    case Settle(i) => if M.At(s, i) && s.pcs[i].SettlingPc? && M.TurnAt(s, i).request.actual.Some? then CallSettle(s.pcs[i].turn) else NoCall
    case Release(i) =>
      if M.At(s, i) && (s.pcs[i].Linked? || s.pcs[i].Called? || s.pcs[i].Streaming?) then CallRelease(s.pcs[i].turn) else NoCall
    case ReconcilePartly(k) => PassCall(s, k)
    case ReconcileTurn(k) => PassCall(s, k)
    case _ => NoCall
  }

  function PassCall(s: M.System, k: nat): Call {
    if k < |s.turns| && M.Free(s, k) && T.Scanned(s.turns[k]) then
      if T.Settles(s.turns[k]) then CallSettle(k) else if T.Releases(s.turns[k]) then CallRelease(k) else NoCall
    else NoCall
  }

  /** The step of the books that a call is, with the rows and clocks the database happens to show. */
  function StepOf(j: Joint, call: Call, p: Payer, lockNow: int, order: seq<nat>, now: int): Option<Step> {
    if call.NoCall? || call.turn >= |j.turns.turns| then None
    else
      var x := j.turns.turns[call.turn];
      var found := Find(j.books.reservations, p.userId, p.requestOf(call.turn));
      match call
      case CallReserve(k) => Some(ReserveStep(p.userId, p.requestOf(k), x.request.estimated, lockNow, order))
      case CallSettle(_) =>
        if found.None? || x.request.actual.None? then None
        else Some(SettleStep(p.userId, found.value, x.request.actual.value, lockNow, order, now))
      case CallRelease(_) => if found.None? then None else Some(ReleaseStep(p.userId, found.value))
  }

  datatype JointEvent =
    | TurnEvent(e: M.Event, lockNow: int, order: seq<nat>, now: int)
    | BooksEvent(step: Step)

  /** A step of the books that is no call for a turn of this plan. */
  ghost predicate Foreign(j: Joint, step: Step, p: Payer) {
    match step
    case ReserveStep(u, q, _, _, _) => forall k: nat :: !(u == p.userId && q == p.requestOf(k))
    case SettleStep(u, rid, _, _, _, _) => OthersReservation(j, u, rid, p)
    case ReleaseStep(u, rid) => OthersReservation(j, u, rid, p)
    case _ => true
  }

  ghost predicate OthersReservation(j: Joint, userId: string, rid: nat, p: Payer) {
    userId == p.userId && rid < |j.books.reservations| ==> forall k: nat :: j.books.reservations[rid].requestId != p.requestOf(k)
  }

  ghost predicate Possible(j: Joint, ev: JointEvent, p: Payer, lim: T.Limits) {
    match ev
    case BooksEvent(step) => Legal(j.books, step) && Foreign(j, step, p)
    case TurnEvent(e, lockNow, order, now) =>
      && I.Sound(e, lim) && lockNow <= now
      && (var step := StepOf(j, CallOf(j.turns, e), p, lockNow, order, now);
          step.Some? ==> Legal(j.books, step.value))
      && (forall i :: 0 <= i < |order| ==> order[i] < |j.books.buckets|)
      && (e.Reserve? && CallOf(j.turns, e).CallReserve? ==>
            e.funded == Plan(Rows(j.books.buckets, order), M.TurnAt(j.turns, e.i).request.estimated).Some?)
  }

  ghost function NextJoint(j: Joint, ev: JointEvent, p: Payer, lim: T.Limits): Joint
    requires Possible(j, ev, p, lim)
  {
    match ev
    case BooksEvent(step) => j.(books := Apply(j.books, step))
    case TurnEvent(e, lockNow, order, now) =>
      var step := StepOf(j, CallOf(j.turns, e), p, lockNow, order, now);
      Joint(M.Next(j.turns, e, lim), if step.Some? then Apply(j.books, step.value) else j.books)
  }

  /** Every turn's hold is its reservation in the books, and turns to come have none. */
  ghost predicate Linked(turns: seq<T.Turn>, books: Books, p: Payer) {
    forall k: nat :: HoldFor(books, p.userId, p.requestOf(k)) == if k < |turns| then turns[k].hold else T.NoHold
  }

  ghost predicate JointInv(j: Joint, p: Payer, lim: T.Limits) {
    && M.SystemInv(j.turns, lim) && Inv(j.books) && ChargedOnce(j.books) && DistinctRequests(p)
    && Linked(j.turns.turns, j.books, p)
  }

  // ---- Reservations of other requests ----

  lemma FindIsUnique(rs: seq<Reservation>, userId: string, requestId: string, i: nat)
    requires UniqueRequests(rs) && i < |rs| && rs[i].userId == userId && rs[i].requestId == requestId
    ensures Find(rs, userId, requestId) == Some(i)
  {}

  /** Reservations keep their keys, and new ones are not for this request. */
  ghost predicate KeepsHold(s: Books, t: Books, userId: string, requestId: string) {
    && |s.reservations| <= |t.reservations|
    && (forall r :: 0 <= r < |s.reservations| ==>
          && t.reservations[r].userId == s.reservations[r].userId && t.reservations[r].requestId == s.reservations[r].requestId
          && (s.reservations[r].userId == userId && s.reservations[r].requestId == requestId ==> t.reservations[r] == s.reservations[r]))
    && (forall r :: |s.reservations| <= r < |t.reservations| ==>
          !(t.reservations[r].userId == userId && t.reservations[r].requestId == requestId))
  }

  /** Where a request's reservation is not touched, its hold is what it was. */
  lemma HoldIsKept(s: Books, t: Books, userId: string, requestId: string)
    requires UniqueRequests(s.reservations) && UniqueRequests(t.reservations) && KeepsHold(s, t, userId, requestId)
    ensures HoldFor(t, userId, requestId) == HoldFor(s, userId, requestId)
  {
    var f, g := Find(s.reservations, userId, requestId), Find(t.reservations, userId, requestId);
    if f.Some? { FindIsUnique(t.reservations, userId, requestId, f.value); }
  }

  /** A step of the books touches at most the reservation it names. */
  ghost predicate Names(s: Books, step: Step, userId: string, requestId: string) {
    match step
    case ReserveStep(u, q, _, _, _) => u == userId && q == requestId
    case SettleStep(u, rid, _, _, _, _) => NamesReservation(s, u, rid, userId, requestId)
    case ReleaseStep(u, rid) => NamesReservation(s, u, rid, userId, requestId)
    case _ => false
  }

  predicate NamesReservation(s: Books, u: string, rid: nat, userId: string, requestId: string) {
    Owns(s, u, rid) && u == userId && s.reservations[rid].requestId == requestId
  }

  lemma UnnamedIsKept(s: Books, step: Step, userId: string, requestId: string)
    requires Legal(s, step) && !Names(s, step, userId, requestId)
    ensures KeepsHold(s, Apply(s, step), userId, requestId)
  {}

  lemma UnnamedHold(s: Books, step: Step, userId: string, requestId: string)
    requires Inv(s) && Legal(s, step) && !Names(s, step, userId, requestId)
    ensures HoldFor(Apply(s, step), userId, requestId) == HoldFor(s, userId, requestId)
  {
    StepKeepsInv(s, step);
    UnnamedIsKept(s, step, userId, requestId);
    HoldIsKept(s, Apply(s, step), userId, requestId);
  }

  // ---- What a call does to its own turn's hold ----

  /** The hold of the turn after the call, as the turn machine has it. */
  function HoldAfter(x: T.Turn, call: Call, funded: bool): T.Hold {
    match call
    case NoCall => x.hold
    case CallReserve(_) => if T.CanReserve(x.hold, x.request.estimated, funded) then T.ReserveHold(x.hold, x.request.estimated) else x.hold
    case CallSettle(_) =>
      if x.request.actual.Some? && T.CanSettle(x.hold, x.request.actual.value) then T.SettleHold(x.hold, x.request.actual.value) else x.hold
    case CallRelease(_) => if T.CanRelease(x.hold) then T.ReleaseHold(x.hold) else x.hold
  }

  lemma BeginHolds(s: M.System, e: M.Event, lim: T.Limits, k: nat)
    requires e.Begin?
    ensures var t := M.Next(s, e, lim).turns;
            && (k < |s.turns| ==> k < |t| && t[k].hold == s.turns[k].hold)
            && (|s.turns| <= k < |t| ==> t[k].hold == T.NoHold)
  {}

  lemma QuietExecutorHolds(s: M.System, e: M.Event, lim: T.Limits, k: nat)
    requires M.SystemInv(s, lim) && I.IsExecutor(e) && CallOf(s, e).NoCall? && k < |s.turns|
    ensures var t := M.Next(s, e, lim).turns; |t| == |s.turns| && t[k].hold == s.turns[k].hold
  {}

  /** Events that make no call leave every hold; new turns hold nothing. */
  lemma QuietHolds(s: M.System, e: M.Event, lim: T.Limits, k: nat)
    requires M.SystemInv(s, lim) && CallOf(s, e).NoCall?
    ensures var t := M.Next(s, e, lim).turns;
            && (k < |s.turns| ==> k < |t| && t[k].hold == s.turns[k].hold)
            && (|s.turns| <= k < |t| ==> t[k].hold == T.NoHold)
  {
    if e.Begin? { BeginHolds(s, e, lim, k); }
    else if I.IsExecutor(e) { if k < |s.turns| { QuietExecutorHolds(s, e, lim, k); } else { QuietExecutorAdds(s, e, lim); } }
  }

  lemma QuietExecutorAdds(s: M.System, e: M.Event, lim: T.Limits)
    requires I.IsExecutor(e)
    ensures |M.Next(s, e, lim).turns| == |s.turns|
  {}

  lemma ExecutorHolds(s: M.System, e: M.Event, lim: T.Limits, k: nat)
    requires M.SystemInv(s, lim) && k < |s.turns| && I.IsExecutor(e) && !CallOf(s, e).NoCall?
    ensures var call, t := CallOf(s, e), M.Next(s, e, lim).turns;
            |t| == |s.turns| && t[k].hold == if call.turn == k then HoldAfter(s.turns[k], call, e.Reserve? && e.funded) else s.turns[k].hold
  {}

  lemma PassHolds(s: M.System, e: M.Event, lim: T.Limits, k: nat)
    requires M.SystemInv(s, lim) && k < |s.turns| && (e.ReconcilePartly? || e.ReconcileTurn?) && !CallOf(s, e).NoCall?
    ensures var call, t := CallOf(s, e), M.Next(s, e, lim).turns;
            |t| == |s.turns| && t[k].hold == if call.turn == k then HoldAfter(s.turns[k], call, false) else s.turns[k].hold
  {}

  /** The calls that settle can be answered. */
  lemma SettlingCallsFit(s: M.System, e: M.Event, lim: T.Limits)
    requires M.SystemInv(s, lim) && CallOf(s, e).CallSettle?
    ensures var x := s.turns[CallOf(s, e).turn]; x.request.actual.Some? && T.CanSettle(x.hold, x.request.actual.value)
  {}

  /** The step of the books and the turn machine agree on the hold of the turn that calls. */
  lemma StepHolds(j: Joint, call: Call, p: Payer, lockNow: int, order: seq<nat>, now: int, funded: bool)
    requires Inv(j.books) && !call.NoCall? && call.turn < |j.turns.turns| && lockNow <= now
    requires j.turns.turns[call.turn].hold == HoldFor(j.books, p.userId, p.requestOf(call.turn))
    requires forall i :: 0 <= i < |order| ==> order[i] < |j.books.buckets|
    requires var step := StepOf(j, call, p, lockNow, order, now); step.Some? && Legal(j.books, step.value)
    requires var x := j.turns.turns[call.turn];
             && (call.CallReserve? ==> funded == Plan(Rows(j.books.buckets, order), x.request.estimated).Some?)
             && (call.CallSettle? ==> x.request.actual.Some? && T.CanSettle(x.hold, x.request.actual.value))
    ensures var step := StepOf(j, call, p, lockNow, order, now).value;
            HoldFor(Apply(j.books, step), p.userId, p.requestOf(call.turn)) == HoldAfter(j.turns.turns[call.turn], call, funded)
  {
    var s, x, requestId := j.books, j.turns.turns[call.turn], p.requestOf(call.turn);
    match call
    case CallReserve(_) => ReserveMatchesBooks(s, p.userId, requestId, x.request.estimated, order);
    case CallSettle(_) =>
      var rid := Find(s.reservations, p.userId, requestId).value;
      SettleMatchesBooks(s, p.userId, rid, x.request.actual.value, lockNow, order, now);
      SameRow(s, SettleStep(p.userId, rid, x.request.actual.value, lockNow, order, now), p.userId, requestId, rid);
    case CallRelease(_) =>
      var rid := Find(s.reservations, p.userId, requestId).value;
      ReleaseMatchesBooks(s, p.userId, rid);
      SameRow(s, ReleaseStep(p.userId, rid), p.userId, requestId, rid);
  }

  /** A settlement or release leaves a reservation where it is. */
  lemma SameRow(s: Books, step: Step, userId: string, requestId: string, rid: nat)
    requires Inv(s) && Legal(s, step) && (step.SettleStep? || step.ReleaseStep?)
    requires rid < |s.reservations| && s.reservations[rid].userId == userId && s.reservations[rid].requestId == requestId
    ensures Find(Apply(s, step).reservations, userId, requestId) == Some(rid)
  {
    StepKeepsInv(s, step);
    KeysStay(s, step, rid);
    FindIsUnique(Apply(s, step).reservations, userId, requestId, rid);
  }

  lemma KeysStay(s: Books, step: Step, rid: nat)
    requires Legal(s, step) && rid < |s.reservations|
    ensures var t := Apply(s, step).reservations;
            rid < |t| && t[rid].userId == s.reservations[rid].userId && t[rid].requestId == s.reservations[rid].requestId
  {}

  // ---- One joint step ----

  lemma ForeignKeepsInv(j: Joint, step: Step, p: Payer, lim: T.Limits)
    requires JointInv(j, p, lim) && Legal(j.books, step) && Foreign(j, step, p)
    ensures JointInv(j.(books := Apply(j.books, step)), p, lim)
  {
    StepKeepsInv(j.books, step);
    StepChargesOnce(j.books, step);
    forall k: nat ensures HoldFor(Apply(j.books, step), p.userId, p.requestOf(k)) == HoldFor(j.books, p.userId, p.requestOf(k)) {
      UnnamedHold(j.books, step, p.userId, p.requestOf(k));
    }
  }

  /** What the call of a possible event brings with it. */
  ghost predicate CanCall(j: Joint, call: Call, p: Payer, lockNow: int, order: seq<nat>, now: int, funded: bool) {
    && Inv(j.books) && !call.NoCall? && call.turn < |j.turns.turns| && lockNow <= now
    && j.turns.turns[call.turn].hold == HoldFor(j.books, p.userId, p.requestOf(call.turn))
    && (forall i :: 0 <= i < |order| ==> order[i] < |j.books.buckets|)
    && (var step := StepOf(j, call, p, lockNow, order, now); step.Some? ==> Legal(j.books, step.value))
    && (var x := j.turns.turns[call.turn];
        && (call.CallReserve? ==> funded == Plan(Rows(j.books.buckets, order), x.request.estimated).Some?)
        && (call.CallSettle? ==> x.request.actual.Some? && T.CanSettle(x.hold, x.request.actual.value)))
  }

  /** What a call leaves of its turn's reservation, whether or not there is one to ask for. */
  lemma CallLeaves(j: Joint, call: Call, p: Payer, lockNow: int, order: seq<nat>, now: int, funded: bool)
    requires CanCall(j, call, p, lockNow, order, now, funded)
    ensures var step := StepOf(j, call, p, lockNow, order, now);
            HoldFor(if step.Some? then Apply(j.books, step.value) else j.books, p.userId, p.requestOf(call.turn))
            == HoldAfter(j.turns.turns[call.turn], call, funded)
  {
    if StepOf(j, call, p, lockNow, order, now).Some? {
      StepHolds(j, call, p, lockNow, order, now, funded);
    } else {
      NoStepNoHold(j, call, p, lockNow, order, now, funded);
    }
  }

  lemma CallInRange(s: M.System, e: M.Event)
    requires !CallOf(s, e).NoCall?
    ensures CallOf(s, e).turn < |s.turns|
    ensures CallOf(s, e).CallReserve? ==> e.Reserve? && M.At(s, e.i) && M.TurnAt(s, e.i) == s.turns[CallOf(s, e).turn]
  {}

  lemma CallIsPossible(j: Joint, ev: JointEvent, p: Payer, lim: T.Limits)
    requires JointInv(j, p, lim) && ev.TurnEvent? && Possible(j, ev, p, lim) && !CallOf(j.turns, ev.e).NoCall?
    ensures CanCall(j, CallOf(j.turns, ev.e), p, ev.lockNow, ev.order, ev.now, ev.e.Reserve? && ev.e.funded)
  {
    var call := CallOf(j.turns, ev.e);
    CallInRange(j.turns, ev.e);
    assert HoldFor(j.books, p.userId, p.requestOf(call.turn)) == j.turns.turns[call.turn].hold;
    if call.CallSettle? { SettlingCallsFit(j.turns, ev.e, lim); }
  }

  lemma OwnCallInBooks(j: Joint, ev: JointEvent, p: Payer, lim: T.Limits)
    requires JointInv(j, p, lim) && ev.TurnEvent? && Possible(j, ev, p, lim) && !CallOf(j.turns, ev.e).NoCall?
    ensures var call := CallOf(j.turns, ev.e);
            && call.turn < |j.turns.turns|
            && HoldFor(NextJoint(j, ev, p, lim).books, p.userId, p.requestOf(call.turn))
               == HoldAfter(j.turns.turns[call.turn], call, ev.e.Reserve? && ev.e.funded)
  {
    CallIsPossible(j, ev, p, lim);
    CallLeaves(j, CallOf(j.turns, ev.e), p, ev.lockNow, ev.order, ev.now, ev.e.Reserve? && ev.e.funded);
  }

  lemma OtherCallInBooks(j: Joint, ev: JointEvent, p: Payer, lim: T.Limits, k: nat)
    requires JointInv(j, p, lim) && ev.TurnEvent? && Possible(j, ev, p, lim) && !CallOf(j.turns, ev.e).NoCall?
    requires k != CallOf(j.turns, ev.e).turn
    ensures HoldFor(NextJoint(j, ev, p, lim).books, p.userId, p.requestOf(k)) == HoldFor(j.books, p.userId, p.requestOf(k))
  {
    var call := CallOf(j.turns, ev.e);
    var step := StepOf(j, call, p, ev.lockNow, ev.order, ev.now);
    if step.Some? {
      OthersUnnamed(j, call, p, ev.lockNow, ev.order, ev.now, k);
      UnnamedHold(j.books, step.value, p.userId, p.requestOf(k));
    }
  }

  lemma CallKeepsLinked(j: Joint, ev: JointEvent, p: Payer, lim: T.Limits, k: nat)
    requires JointInv(j, p, lim) && ev.TurnEvent? && Possible(j, ev, p, lim) && !CallOf(j.turns, ev.e).NoCall?
    ensures var t := NextJoint(j, ev, p, lim);
            HoldFor(t.books, p.userId, p.requestOf(k)) == if k < |t.turns.turns| then t.turns.turns[k].hold else T.NoHold
  {
    CallHolds(j.turns, ev.e, lim, k);
    if k == CallOf(j.turns, ev.e).turn {
      OwnCallInBooks(j, ev, p, lim);
    } else {
      OtherCallInBooks(j, ev, p, lim, k);
      assert HoldFor(j.books, p.userId, p.requestOf(k)) == if k < |j.turns.turns| then j.turns.turns[k].hold else T.NoHold;
    }
  }

  /** A call finds no reservation to ask for only where the turn holds none. */
  lemma NoStepNoHold(j: Joint, call: Call, p: Payer, lockNow: int, order: seq<nat>, now: int, funded: bool)
    requires !call.NoCall? && call.turn < |j.turns.turns| && StepOf(j, call, p, lockNow, order, now).None?
    requires j.turns.turns[call.turn].hold == HoldFor(j.books, p.userId, p.requestOf(call.turn))
    ensures HoldAfter(j.turns.turns[call.turn], call, funded) == j.turns.turns[call.turn].hold
  {}

  lemma OthersUnnamed(j: Joint, call: Call, p: Payer, lockNow: int, order: seq<nat>, now: int, k: nat)
    requires DistinctRequests(p) && !call.NoCall? && k != call.turn && StepOf(j, call, p, lockNow, order, now).Some?
    ensures !Names(j.books, StepOf(j, call, p, lockNow, order, now).value, p.userId, p.requestOf(k))
  {}

  lemma CallHolds(s: M.System, e: M.Event, lim: T.Limits, k: nat)
    requires M.SystemInv(s, lim) && !CallOf(s, e).NoCall?
    ensures var call, t := CallOf(s, e), M.Next(s, e, lim).turns;
            && call.turn < |s.turns| == |t|
            && (k < |t| ==> t[k].hold == if call.turn == k then HoldAfter(s.turns[k], call, e.Reserve? && e.funded) else s.turns[k].hold)
  {
    if k < |s.turns| {
      if I.IsExecutor(e) { ExecutorHolds(s, e, lim, k); } else { PassHolds(s, e, lim, k); }
    } else {
      if I.IsExecutor(e) { ExecutorHolds(s, e, lim, CallOf(s, e).turn); } else { PassHolds(s, e, lim, CallOf(s, e).turn); }
    }
  }

  /** Every joint step keeps turns, books and the link between them. */
  lemma NextKeepsJoint(j: Joint, ev: JointEvent, p: Payer, lim: T.Limits)
    requires JointInv(j, p, lim) && Possible(j, ev, p, lim)
    ensures JointInv(NextJoint(j, ev, p, lim), p, lim)
  {
    match ev
    case BooksEvent(step) => ForeignKeepsInv(j, step, p, lim);
    case TurnEvent(e, lockNow, order, now) =>
      I.NextKeepsInv(j.turns, e, lim);
      var step := StepOf(j, CallOf(j.turns, e), p, lockNow, order, now);
      if step.Some? {
        StepKeepsInv(j.books, step.value);
        StepChargesOnce(j.books, step.value);
      }
      var t := NextJoint(j, ev, p, lim);
      forall k: nat
        ensures HoldFor(t.books, p.userId, p.requestOf(k)) == if k < |t.turns.turns| then t.turns.turns[k].hold else T.NoHold
      {
        if CallOf(j.turns, e).NoCall? { QuietHolds(j.turns, e, lim, k); } else { CallKeepsLinked(j, ev, p, lim, k); }
      }
  }

  /** A plan without turns, beside any sound books that know none of its requests. */
  lemma NewPlanIsJoint(executors: nat, books: Books, p: Payer, lim: T.Limits)
    requires Inv(books) && ChargedOnce(books) && DistinctRequests(p)
    requires forall k: nat :: Find(books.reservations, p.userId, p.requestOf(k)).None?
    ensures JointInv(Joint(M.System([], seq(executors, _ => M.Idle)), books), p, lim)
  {
    assert T.PaidIds([]) == {};
  }

  // ---- Joint runs ----

  ghost predicate PossibleRun(j: Joint, evs: seq<JointEvent>, p: Payer, lim: T.Limits)
    decreases |evs|
  {
    evs == [] || (Possible(j, evs[0], p, lim) && PossibleRun(NextJoint(j, evs[0], p, lim), evs[1..], p, lim))
  }

  ghost function RunJoint(j: Joint, evs: seq<JointEvent>, p: Payer, lim: T.Limits): Joint
    requires PossibleRun(j, evs, p, lim)
    decreases |evs|
  {
    if evs == [] then j else RunJoint(NextJoint(j, evs[0], p, lim), evs[1..], p, lim)
  }

  lemma {:induction false} RunKeepsJoint(j: Joint, evs: seq<JointEvent>, p: Payer, lim: T.Limits)
    requires JointInv(j, p, lim) && PossibleRun(j, evs, p, lim)
    ensures JointInv(RunJoint(j, evs, p, lim), p, lim)
    decreases |evs|
  {
    if evs != [] {
      NextKeepsJoint(j, evs[0], p, lim);
      RunKeepsJoint(NextJoint(j, evs[0], p, lim), evs[1..], p, lim);
    }
  }

  /** What the ledger has debited for turn k. */
  ghost function Debited(j: Joint, p: Payer, k: nat): int {
    match Find(j.books.reservations, p.userId, p.requestOf(k))
    case None => 0
    case Some(rid) => -Sum(j.books.ledger, ChargedTo(rid))
  }

  /** The ledger has debited every turn by what its reservation is settled at, and nothing else. */
  lemma DebitedIsSettled(j: Joint, p: Payer, lim: T.Limits, k: nat)
    requires JointInv(j, p, lim) && k < |j.turns.turns|
    ensures Debited(j, p, k) == match j.turns.turns[k].hold case NoHold => 0 case Held(_, _, settled) => settled
  {
    assert HoldFor(j.books, p.userId, p.requestOf(k)) == j.turns.turns[k].hold;
  }

  lemma {:induction false} JointFate(j: Joint, evs: seq<JointEvent>, p: Payer, lim: T.Limits, k: nat)
    requires JointInv(j, p, lim) && PossibleRun(j, evs, p, lim) && k < |j.turns.turns| && R.Measurable(j.turns.turns[k])
    ensures var t := RunJoint(j, evs, p, lim).turns.turns; k < |t| && R.SameFate(j.turns.turns[k], t[k])
    decreases |evs|
  {
    if evs != [] {
      var next := NextJoint(j, evs[0], p, lim);
      if evs[0].TurnEvent? { R.NextKeepsFate(j.turns, evs[0].e, lim, k); }
      NextKeepsJoint(j, evs[0], p, lim);
      JointFate(next, evs[1..], p, lim, k);
    }
  }

  /** Turn k, whose measured state was x, is debited nothing yet or exactly its cost, and exactly that where it has ended. */
  ghost predicate PaidAtMostOnce(x: T.Turn, j: Joint, p: Payer, k: nat)
    requires x.request.actual.Some?
  {
    && k < |j.turns.turns|
    && (Debited(j, p, k) == 0 || Debited(j, p, k) == x.request.actual.value)
    && (j.turns.turns[k].status == T.TurnSucceeded ==> PaidAndEnded(x, j, p, k))
  }

  ghost predicate PaidAndEnded(x: T.Turn, j: Joint, p: Payer, k: nat)
    requires x.request.actual.Some?
  {
    k < |j.turns.turns| && j.turns.turns[k] == R.Outcome(x) && Debited(j, p, k) == x.request.actual.value
  }

  lemma FateIsPaid(x: T.Turn, j: Joint, p: Payer, lim: T.Limits, k: nat)
    requires JointInv(j, p, lim) && k < |j.turns.turns| && R.SameFate(x, j.turns.turns[k])
    ensures PaidAtMostOnce(x, j, p, k)
  {
    DebitedIsSettled(j, p, lim, k);
    assert M.TurnInv(j.turns.turns[k], lim.maxReservation);
    R.ReconcileReachesOutcome(j.turns.turns[k], lim.maxReservation);
  }

  lemma PassPays(x: T.Turn, j: Joint, pass: JointEvent, p: Payer, lim: T.Limits, k: nat)
    requires JointInv(j, p, lim) && k < |j.turns.turns| && R.SameFate(x, j.turns.turns[k])
    requires pass.TurnEvent? && pass.e == M.ReconcileTurn(k) && M.Free(j.turns, k) && Possible(j, pass, p, lim)
    ensures PaidAndEnded(x, NextJoint(j, pass, p, lim), p, k)
  {
    var u := NextJoint(j, pass, p, lim);
    assert M.TurnInv(j.turns.turns[k], lim.maxReservation);
    R.ReconcileReachesOutcome(j.turns.turns[k], lim.maxReservation);
    assert u.turns.turns[k] == R.Outcome(x);
    NextKeepsJoint(j, pass, p, lim);
    DebitedIsSettled(u, p, lim, k);
  }

  /**
   * From the moment a turn's actual cost is stored within its estimate: whatever executors, crashes, whole and
   * partial passes and all other users of the books do, and in any order, the ledger has debited the turn
   * either nothing yet or exactly that cost; where the turn has ended, it ended in the one outcome and is
   * debited exactly the cost, and one complete pass on a turn no executor holds brings it there.
   */
  lemma TurnIsDebitedOnce(j: Joint, evs: seq<JointEvent>, pass: JointEvent, p: Payer, lim: T.Limits, k: nat)
    requires JointInv(j, p, lim) && PossibleRun(j, evs, p, lim) && k < |j.turns.turns| && R.Measurable(j.turns.turns[k])
    requires pass.TurnEvent? && pass.e == M.ReconcileTurn(k)
    ensures var x, t := j.turns.turns[k], RunJoint(j, evs, p, lim);
            && PaidAtMostOnce(x, t, p, k)
            && (M.Free(t.turns, k) && Possible(t, pass, p, lim) ==> PaidAndEnded(x, NextJoint(t, pass, p, lim), p, k))
  {
    var x, t := j.turns.turns[k], RunJoint(j, evs, p, lim);
    RunKeepsJoint(j, evs, p, lim);
    JointFate(j, evs, p, lim, k);
    FateIsPaid(x, t, p, lim, k);
    if M.Free(t.turns, k) && Possible(t, pass, p, lim) { PassPays(x, t, pass, p, lim, k); }
  }
}
