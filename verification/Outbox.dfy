/**
 * The leased outbox of realtime events (apps/worker/src/realtime-outbox.ts) under competing
 * dispatchers that may stall, crash and lose their leases.
 */
module Outbox {
  import opened Basics

  datatype RowStatus = Pending | Processing | Published

  /**
   * One outbox row. `claimants` (every token that claimed it) and `completedBy` (the token that
   * completed it) are kept for the statements below; the table has only their number, `attempts`.
   */
  datatype Row = Row(status: RowStatus, token: Option<nat>, processingUntil: Option<int>, nextAttemptAt: Option<int>,
                     attempts: nat, compactAfter: Option<int>, hasRecipients: bool,
                     claimants: set<nat>, completedBy: Option<nat>)

  datatype Policy = Policy(leaseMs: nat, backoffBaseMs: nat, backoffCapMs: nat, retentionMs: nat)

  /** What a dispatcher has in hand: its token, the claimed events, those it renewed and those it has sent. */
  datatype Dispatcher = Off | On(token: nat, claimed: set<nat>, renewed: set<nat>, sent: set<nat>)

  /** `sends` are the successful publishes one after the other, each an event and the token it was sent under. */
  datatype State = State(rows: map<nat, Row>, dispatchers: seq<Dispatcher>, nextToken: nat, sends: seq<(nat, nat)>)

  // ---- The updates, each one statement ----

  predicate Eligible(r: Row, now: int) {
    || (r.status == Pending && r.nextAttemptAt.Some? && r.nextAttemptAt.value <= now)
    || (r.status == Processing && r.processingUntil.Some? && r.processingUntil.value < now)
  }

  function ClaimedRow(r: Row, token: nat, now: int, p: Policy): Row {
    r.(status := Processing, token := Some(token), processingUntil := Some(now + p.leaseMs), nextAttemptAt := None,
       attempts := r.attempts + 1, claimants := r.claimants + {token})
  }

  /** The guard of every later update: the row is still being processed under this token. */
  predicate Owned(rows: map<nat, Row>, e: nat, token: nat) {
    e in rows && rows[e].status == Processing && rows[e].token == Some(token)
  }

  function RenewLease(rows: map<nat, Row>, e: nat, token: nat, now: int, p: Policy): map<nat, Row> {
    if Owned(rows, e, token) then rows[e := rows[e].(processingUntil := Some(now + p.leaseMs))] else rows
  }

  function MarkPublished(rows: map<nat, Row>, e: nat, token: nat, now: int, p: Policy): map<nat, Row> {
    if Owned(rows, e, token)
    then rows[e := rows[e].(status := Published, token := None, processingUntil := None, nextAttemptAt := None,
                            compactAfter := Some(now + p.retentionMs), completedBy := Some(token))]
    else rows
  }

  function RetryBackoffMs(attempts: nat, p: Policy): int { Backoff(attempts, 30, p.backoffBaseMs, p.backoffCapMs) }

  function ScheduleRetry(rows: map<nat, Row>, e: nat, token: nat, attempts: nat, now: int, p: Policy): map<nat, Row> {
    if Owned(rows, e, token)
    then rows[e := rows[e].(status := Pending, token := None, processingUntil := None,
                            nextAttemptAt := Some(now + RetryBackoffMs(attempts, p)))]
    else rows
  }

  predicate Compactable(r: Row, now: int) { r.status == Published && r.compactAfter.Some? && r.compactAfter.value <= now }

  function CompactPublished(rows: map<nat, Row>, now: int): map<nat, Row> {
    map e | e in rows && !Compactable(rows[e], now) :: rows[e]
  }

  // ---- Interleavings ----

  datatype Event =
    | Enqueue(e: nat, now: int, hasRecipients: bool)
    | Claim(d: nat, chosen: set<nat>, now: int)
    | Renew(d: nat, e: nat, now: int)
    | Publish(d: nat, e: nat)
    | Complete(d: nat, e: nat, now: int)
    | Retry(d: nat, e: nat, attempts: nat, now: int)
    | Compact(now: int)
    | Stop(d: nat)

  predicate Busy(s: State, d: nat, e: nat) { d < |s.dispatchers| && s.dispatchers[d].On? && e in s.dispatchers[d].claimed }

  /** A dispatcher's next statement on event e is allowed by what it did before. */
  predicate Ready(s: State, d: nat, e: nat) { Busy(s, d, e) && e in s.dispatchers[d].renewed }

  function Done(d: Dispatcher, e: nat): Dispatcher
    requires d.On?
  {
    d.(claimed := d.claimed - {e})
  }

  /** Any of the eligible rows may be handed out: others may be locked or beyond the batch. */
  function ClaimRows(rows: map<nat, Row>, chosen: set<nat>, token: nat, now: int, p: Policy): map<nat, Row> {
    map e | e in rows :: if e in chosen && Eligible(rows[e], now) then ClaimedRow(rows[e], token, now, p) else rows[e]
  }

  function ClaimedEvents(rows: map<nat, Row>, chosen: set<nat>, now: int): set<nat> {
    set e | e in rows && e in chosen && Eligible(rows[e], now)
  }

  function Next(s: State, ev: Event, p: Policy): State {
    match ev
    case Enqueue(e, now, recipients) =>
      if e in s.rows then s
      else s.(rows := s.rows[e := Row(Pending, None, None, Some(now), 0, None, recipients, {}, None)])
    case Claim(d, chosen, now) =>
      if d >= |s.dispatchers| then s
      else
        s.(rows := ClaimRows(s.rows, chosen, s.nextToken, now, p), nextToken := s.nextToken + 1,
           dispatchers := s.dispatchers[d := On(s.nextToken, ClaimedEvents(s.rows, chosen, now), {}, {})])
    case Renew(d, e, now) =>
      if !Busy(s, d, e) then s
      else
        var x := s.dispatchers[d];
        s.(rows := RenewLease(s.rows, e, x.token, now, p),
           dispatchers := s.dispatchers[d := if Owned(s.rows, e, x.token) then x.(renewed := x.renewed + {e}) else Done(x, e)])
    case Publish(d, e) =>
      if !Ready(s, d, e) || e in s.dispatchers[d].sent then s
      else
        var x := s.dispatchers[d];
        s.(sends := s.sends + [(e, x.token)], dispatchers := s.dispatchers[d := x.(sent := x.sent + {e})])
    case Complete(d, e, now) =>
      if !Ready(s, d, e) || !(e in s.dispatchers[d].sent || (e in s.rows && !s.rows[e].hasRecipients)) then s
      else
        var x := s.dispatchers[d];
        s.(rows := MarkPublished(s.rows, e, x.token, now, p), dispatchers := s.dispatchers[d := Done(x, e)])
    case Retry(d, e, attempts, now) =>
      if !Ready(s, d, e) || e in s.dispatchers[d].sent then s
      else
        var x := s.dispatchers[d];
        s.(rows := ScheduleRetry(s.rows, e, x.token, attempts, now, p), dispatchers := s.dispatchers[d := Done(x, e)])
    case Compact(now) => s.(rows := CompactPublished(s.rows, now))
    case Stop(d) => if d < |s.dispatchers| then s.(dispatchers := s.dispatchers[d := Off]) else s
  }

  function Run(s: State, events: seq<Event>, p: Policy): State
    decreases |events|
  {
    if events == [] then s else Run(Next(s, events[0], p), events[1..], p)
  }

  // ---- The invariant ----

  ghost predicate RowInv(s: State, e: nat)
    requires e in s.rows
  {
    var r := s.rows[e];
    && (match r.status
        case Pending => r.token.None? && r.nextAttemptAt.Some?
        case Processing => r.token.Some? && r.processingUntil.Some? && r.token.value in r.claimants
        case Published =>
          r.token.None? && r.compactAfter.Some? && r.completedBy.Some? && r.completedBy.value in r.claimants
          && (r.hasRecipients ==> (e, r.completedBy.value) in s.sends))
    && r.attempts == |r.claimants|
    && (forall t :: t in r.claimants ==> t < s.nextToken)
    && (forall t :: (e, t) in s.sends ==> t in r.claimants)
  }

  ghost predicate DispatcherInv(s: State, d: nat)
    requires d < |s.dispatchers|
  {
    var x := s.dispatchers[d];
    x.On? ==>
      && x.token < s.nextToken
      && (forall e :: e in x.sent <==> (e, x.token) in s.sends)
      && (forall e :: e in x.claimed && e in s.rows ==> x.token in s.rows[e].claimants)
  }

  /** Every claim has its own token, and under one token an event is sent once. */
  ghost predicate TokensInv(s: State) {
    && (forall c, d :: 0 <= c < d < |s.dispatchers| && s.dispatchers[c].On? && s.dispatchers[d].On? ==>
          s.dispatchers[c].token != s.dispatchers[d].token)
    && (forall i :: 0 <= i < |s.sends| ==> s.sends[i].1 < s.nextToken)
    && (forall i, j :: 0 <= i < j < |s.sends| ==> s.sends[i] != s.sends[j])
  }

  ghost predicate Inv(s: State) {
    && (forall e :: e in s.rows ==> RowInv(s, e))
    && (forall d :: 0 <= d < |s.dispatchers| ==> DispatcherInv(s, d))
    && TokensInv(s)
  }

  /** An event that is enqueued was never sent before; event ids are not reused. */
  ghost predicate Fresh(s: State, ev: Event) {
    ev.Enqueue? && ev.e !in s.rows ==>
      && (forall t :: (ev.e, t) !in s.sends)
      && (forall d :: 0 <= d < |s.dispatchers| && s.dispatchers[d].On? ==> ev.e !in s.dispatchers[d].claimed)
  }

  lemma ClaimKeepsRows(s: State, d: nat, chosen: set<nat>, now: int, p: Policy)
    requires Inv(s) && d < |s.dispatchers|
    ensures var t := Next(s, Claim(d, chosen, now), p); forall e :: e in t.rows ==> RowInv(t, e)
  {
    var t := Next(s, Claim(d, chosen, now), p);
    forall e | e in t.rows ensures RowInv(t, e) {
      assert RowInv(s, e);
      assert s.nextToken !in s.rows[e].claimants;
    }
  }

  /** The token that is given out next was never sent under and is no dispatcher's. */
  lemma NextTokenIsFresh(s: State)
    requires Inv(s)
    ensures forall e :: (e, s.nextToken) !in s.sends
    ensures forall k :: 0 <= k < |s.dispatchers| && s.dispatchers[k].On? ==> s.dispatchers[k].token < s.nextToken
  {
    assert forall i :: 0 <= i < |s.sends| ==> s.sends[i].1 < s.nextToken;
    forall k | 0 <= k < |s.dispatchers| && s.dispatchers[k].On? ensures s.dispatchers[k].token < s.nextToken {
      assert DispatcherInv(s, k);
    }
  }

  lemma ClaimKeepsInv(s: State, d: nat, chosen: set<nat>, now: int, p: Policy)
    requires Inv(s)
    ensures Inv(Next(s, Claim(d, chosen, now), p))
  {
    var t := Next(s, Claim(d, chosen, now), p);
    if d < |s.dispatchers| {
      ClaimKeepsRows(s, d, chosen, now, p);
      NextTokenIsFresh(s);
      forall k | 0 <= k < |t.dispatchers| ensures DispatcherInv(t, k) {
        if k != d { assert DispatcherInv(s, k); }
      }
    }
  }

  /** An update of one row under a dispatcher's own token. */
  lemma OwnUpdateKeepsInv(s: State, t: State, d: nat, e: nat)
    requires Inv(s) && d < |s.dispatchers| == |t.dispatchers| && s.dispatchers[d].On? && t.dispatchers[d].On?
    requires t.nextToken == s.nextToken && t.sends == s.sends
    requires t.dispatchers == s.dispatchers[d := t.dispatchers[d]]
    requires t.dispatchers[d].token == s.dispatchers[d].token && t.dispatchers[d].sent == s.dispatchers[d].sent
    requires t.dispatchers[d].claimed <= s.dispatchers[d].claimed
    requires t.rows.Keys == s.rows.Keys && forall k :: k in s.rows && k != e ==> t.rows[k] == s.rows[k]
    requires e in s.rows ==> RowInv(t, e) && t.rows[e].claimants == s.rows[e].claimants
    ensures Inv(t)
  {
    forall k | k in t.rows ensures RowInv(t, k) { assert RowInv(s, k); }
    forall k | 0 <= k < |t.dispatchers| ensures DispatcherInv(t, k) { assert DispatcherInv(s, k); }
  }

  lemma RenewKeepsInv(s: State, d: nat, e: nat, now: int, p: Policy)
    requires Inv(s)
    ensures Inv(Next(s, Renew(d, e, now), p))
  {
    if Busy(s, d, e) {
      assert e in s.rows ==> RowInv(s, e);
      OwnUpdateKeepsInv(s, Next(s, Renew(d, e, now), p), d, e);
    }
  }

  lemma PublishKeepsInv(s: State, d: nat, e: nat, p: Policy)
    requires Inv(s)
    ensures Inv(Next(s, Publish(d, e), p))
  {
    var t := Next(s, Publish(d, e), p);
    if Ready(s, d, e) {
      assert DispatcherInv(s, d);
      forall k | k in t.rows ensures RowInv(t, k) { assert RowInv(s, k); }
      forall k | 0 <= k < |t.dispatchers| ensures DispatcherInv(t, k) { assert DispatcherInv(s, k); }
    }
  }

  lemma CompleteKeepsInv(s: State, d: nat, e: nat, now: int, p: Policy)
    requires Inv(s)
    ensures Inv(Next(s, Complete(d, e, now), p))
  {
    if Next(s, Complete(d, e, now), p) != s {
      assert DispatcherInv(s, d) && (e in s.rows ==> RowInv(s, e));
      OwnUpdateKeepsInv(s, Next(s, Complete(d, e, now), p), d, e);
    }
  }

  lemma RetryKeepsInv(s: State, d: nat, e: nat, attempts: nat, now: int, p: Policy)
    requires Inv(s)
    ensures Inv(Next(s, Retry(d, e, attempts, now), p))
  {
    if Next(s, Retry(d, e, attempts, now), p) != s {
      assert e in s.rows ==> RowInv(s, e);
      OwnUpdateKeepsInv(s, Next(s, Retry(d, e, attempts, now), p), d, e);
    }
  }

  lemma TableKeepsInv(s: State, ev: Event, p: Policy)
    requires Inv(s) && Fresh(s, ev) && (ev.Enqueue? || ev.Compact? || ev.Stop?)
    ensures Inv(Next(s, ev, p))
  {
    var t := Next(s, ev, p);
    forall e | e in t.rows ensures RowInv(t, e) { if e in s.rows { assert RowInv(s, e); } }
    forall d | 0 <= d < |t.dispatchers| ensures DispatcherInv(t, d) { assert DispatcherInv(s, d); }
  }

  lemma NextKeepsInv(s: State, ev: Event, p: Policy)
    requires Inv(s) && Fresh(s, ev)
    ensures Inv(Next(s, ev, p))
  {
    match ev
    case Claim(d, chosen, now) => ClaimKeepsInv(s, d, chosen, now, p);
    case Renew(d, e, now) => RenewKeepsInv(s, d, e, now, p);
    case Publish(d, e) => PublishKeepsInv(s, d, e, p);
    case Complete(d, e, now) => CompleteKeepsInv(s, d, e, now, p);
    case Retry(d, e, attempts, now) => RetryKeepsInv(s, d, e, attempts, now, p);
    case _ => TableKeepsInv(s, ev, p);
  }

  ghost predicate FreshRun(s: State, events: seq<Event>, p: Policy)
    decreases |events|
  {
    events == [] || (Fresh(s, events[0]) && FreshRun(Next(s, events[0], p), events[1..], p))
  }

  lemma {:induction false} RunKeepsInv(s: State, events: seq<Event>, p: Policy)
    requires Inv(s) && FreshRun(s, events, p)
    ensures Inv(Run(s, events, p))
    decreases |events|
  {
    if events != [] {
      NextKeepsInv(s, events[0], p);
      RunKeepsInv(Next(s, events[0], p), events[1..], p);
    }
  }

  // ---- What the outbox promises ----

  /** The row of e does not carry this token, which was given out before. */
  predicate Lost(s: State, e: nat, token: nat) {
    token < s.nextToken && (e in s.rows ==> s.rows[e].token != Some(token))
  }

  /**
   * Once a row no longer carries a token, it never carries it again, whatever claims, updates and
   * compactions follow, so a late renewal, completion or retry under that token changes nothing.
   */
  lemma {:induction false} LostTokenChangesNothing(s: State, events: seq<Event>, e: nat, token: nat, attempts: nat, now: int, p: Policy)
    requires Lost(s, e, token)
    ensures var t := Run(s, events, p);
            && Lost(t, e, token)
            && RenewLease(t.rows, e, token, now, p) == t.rows
            && MarkPublished(t.rows, e, token, now, p) == t.rows
            && ScheduleRetry(t.rows, e, token, attempts, now, p) == t.rows
    decreases |events|
  {
    if events != [] {
      NextKeepsLost(s, events[0], e, token, p);
      LostTokenChangesNothing(Next(s, events[0], p), events[1..], e, token, attempts, now, p);
    }
  }

  lemma NextKeepsLost(s: State, ev: Event, e: nat, token: nat, p: Policy)
    requires Lost(s, e, token)
    ensures Lost(Next(s, ev, p), e, token)
  {}

  /** An unpublished row can always be claimed from some moment on. */
  lemma UnpublishedIsClaimable(s: State, e: nat) returns (from: int)
    requires Inv(s) && e in s.rows && s.rows[e].status != Published
    ensures forall now :: now >= from ==> Eligible(s.rows[e], now)
  {
    assert RowInv(s, e);
    from := if s.rows[e].status == Pending then s.rows[e].nextAttemptAt.value else s.rows[e].processingUntil.value + 1;
  }

  /** The tokens an event was sent under, one for each send. */
  function SendsOf(sends: seq<(nat, nat)>, e: nat): seq<nat> {
    if sends == [] then []
    else
      var n := |sends| - 1;
      if sends[n].0 == e then SendsOf(sends[..n], e) + [sends[n].1] else SendsOf(sends[..n], e)
  }

  lemma {:induction false} SendsOfListed(sends: seq<(nat, nat)>, e: nat)
    ensures forall t :: t in SendsOf(sends, e) <==> (e, t) in sends
    ensures (forall i, j :: 0 <= i < j < |sends| ==> sends[i] != sends[j]) ==>
              forall i, j :: 0 <= i < j < |SendsOf(sends, e)| ==> SendsOf(sends, e)[i] != SendsOf(sends, e)[j]
  {
    if sends != [] {
      var n := |sends| - 1;
      SendsOfListed(sends[..n], e);
      assert sends == sends[..n] + [sends[n]];
    }
  }

  lemma {:induction false} DistinctWithin(w: seq<nat>, a: set<nat>)
    requires (forall i, j :: 0 <= i < j < |w| ==> w[i] != w[j]) && forall i :: 0 <= i < |w| ==> w[i] in a
    ensures |w| <= |a|
  {
    if w != [] {
      var n := |w| - 1;
      DistinctWithin(w[..n], a - {w[n]});
    }
  }

  /** An event is sent at most once per claim, so at most as often as its row was attempted. */
  lemma SendsAreBounded(s: State, e: nat)
    requires Inv(s) && e in s.rows
    ensures |SendsOf(s.sends, e)| <= s.rows[e].attempts
  {
    assert RowInv(s, e);
    SendsOfListed(s.sends, e);
    DistinctWithin(SendsOf(s.sends, e), s.rows[e].claimants);
  }

  lemma {:induction false} Subset(a: set<nat>, b: set<nat>)
    requires a <= b
    ensures |a| <= |b|
  {
    if a != {} {
      var x :| x in a;
      Subset(a - {x}, b - {x});
    }
  }

  /** Sends are never forgotten, and an event keeps whether it has recipients. */
  lemma NextKeepsSends(s: State, ev: Event, p: Policy)
    ensures s.sends <= Next(s, ev, p).sends
    ensures forall e :: e in s.rows && e in Next(s, ev, p).rows ==> Next(s, ev, p).rows[e].hasRecipients == s.rows[e].hasRecipients
  {}

  /** A row leaves the table only after a successful send, or when nobody was to receive it. */
  lemma {:induction false} RowsAreNotLost(s: State, events: seq<Event>, p: Policy, e: nat)
    requires Inv(s) && FreshRun(s, events, p) && e in s.rows && s.rows[e].hasRecipients
    ensures e in Run(s, events, p).rows || SendsOf(Run(s, events, p).sends, e) != []
    decreases |events|
  {
    if events != [] {
      var t := Next(s, events[0], p);
      NextKeepsInv(s, events[0], p);
      NextKeepsSends(s, events[0], p);
      if e in t.rows {
        RowsAreNotLost(t, events[1..], p, e);
      } else {
        assert RowInv(s, e);
        var sender := s.rows[e].completedBy.value;
        assert (e, sender) in t.sends;
        SendsStay(t, events[1..], p);
        SendsOfListed(Run(s, events, p).sends, e);
      }
    }
  }

  lemma {:induction false} SendsStay(s: State, events: seq<Event>, p: Policy)
    ensures s.sends <= Run(s, events, p).sends
    decreases |events|
  {
    if events != [] {
      NextKeepsSends(s, events[0], p);
      SendsStay(Next(s, events[0], p), events[1..], p);
    }
  }

  /** A row becomes published only under the token it carries, after that token sent it or with nobody to send it to. */
  lemma OnlyHolderPublishes(s: State, ev: Event, p: Policy, e: nat)
    requires Inv(s) && e in s.rows && e in Next(s, ev, p).rows
    requires s.rows[e].status != Published && Next(s, ev, p).rows[e].status == Published
    ensures s.rows[e].status == Processing && s.rows[e].token.Some?
    ensures Next(s, ev, p).rows[e].completedBy == s.rows[e].token
    ensures s.rows[e].hasRecipients ==> (e, s.rows[e].token.value) in s.sends
  {
    assert RowInv(s, e);
    if ev.Complete? { assert DispatcherInv(s, ev.d); }
  }
}
