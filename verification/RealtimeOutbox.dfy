/**
 * One pass of the outbox dispatcher (apps/worker/src/realtime-outbox.ts): claim a batch, then renew,
 * publish and complete event after event, while rivals work on the same rows between any two statements.
 */
module RealtimeOutbox {
  import opened Basics
  import opened Outbox

  /** How handing an event to the publisher goes. */
  datatype Delivery = Delivered | Undecodable | Unreachable

  datatype Verdict = Completed | Rescheduled | LeaseLost

  datatype RunResult = RunResult(claimed: nat, published: nat, retryScheduled: nat, leaseLost: nat, compacted: nat)

  /** What happens around one event: the rivals' events before each of its statements, the clock at each, the delivery. */
  datatype Turn = Turn(beforeRenewal: seq<Event>, beforePublish: seq<Event>, beforeUpdate: seq<Event>,
                       renewedAt: int, updatedAt: int, delivery: Delivery)

  /** No rival event is one of dispatcher d. */
  predicate Rivals(events: seq<Event>, d: nat) {
    forall k :: 0 <= k < |events| ==> !((events[k].Claim? || events[k].Renew? || events[k].Publish? || events[k].Complete?
                                         || events[k].Retry? || events[k].Stop?) && events[k].d == d)
  }

  predicate RivalTurn(t: Turn, d: nat) {
    Rivals(t.beforeRenewal, d) && Rivals(t.beforePublish, d) && Rivals(t.beforeUpdate, d)
  }

  predicate Alone(t: Turn) { t.beforeRenewal == [] && t.beforePublish == [] && t.beforeUpdate == [] }

  /** What the query reads for an event of the batch: None is a row that is gone. */
  function Snapshot(rows: map<nat, Row>, e: nat): Option<Row> { if e in rows then Some(rows[e]) else None }

  predicate Fails(r: Row, t: Turn) { r.hasRecipients && t.delivery != Delivered }

  /** How an undisturbed pass leaves a row it claimed. */
  function Handled(r: Row, token: nat, t: Turn, p: Policy): Row {
    if Fails(r, t)
    then r.(status := Pending, token := None, processingUntil := None,
            nextAttemptAt := Some(t.updatedAt + RetryBackoffMs(r.attempts, p)))
    else r.(status := Published, token := None, processingUntil := None, nextAttemptAt := None,
            compactAfter := Some(t.updatedAt + p.retentionMs), completedBy := Some(token))
  }

  lemma {:induction false} RunAppend(s: State, a: seq<Event>, b: seq<Event>, p: Policy)
    ensures Run(s, a + b, p) == Run(Run(s, a, p), b, p)
    decreases |a|
  {
    if a == [] {
      assert a + b == b;
    } else {
      assert (a + b)[1..] == a[1..] + b;
      RunAppend(Next(s, a[0], p), a[1..], b, p);
    }
  }

  /** Rivals leave what a dispatcher has in hand. */
  lemma {:induction false} RivalsKeep(s: State, events: seq<Event>, d: nat, p: Policy)
    requires d < |s.dispatchers| && Rivals(events, d)
    ensures |Run(s, events, p).dispatchers| == |s.dispatchers|
    ensures Run(s, events, p).dispatchers[d] == s.dispatchers[d]
    decreases |events|
  {
    if events != [] { RivalsKeep(Next(s, events[0], p), events[1..], d, p); }
  }

  /** Dispatcher d has claimed e under this token and not sent it. */
  ghost predicate Holds(s: State, d: nat, token: nat, e: nat) {
    && d < |s.dispatchers| && s.dispatchers[d].On? && s.dispatchers[d].token == token
    && e in s.dispatchers[d].claimed && e !in s.dispatchers[d].sent
  }

  /** What dispatcher d has in hand besides e stays so. */
  ghost predicate KeepsOthers(s: State, t: State, d: nat, e: nat) {
    forall token, k :: k != e && Holds(s, d, token, k) ==> Holds(t, d, token, k)
  }

  /** As long as e's row carries a token already given out, it keeps its recipients. */
  ghost predicate Told(s: State, e: nat, token: nat, hasRecipients: bool) {
    token < s.nextToken && (e in s.rows && s.rows[e].token == Some(token) ==> s.rows[e].hasRecipients == hasRecipients)
  }

  lemma {:induction false} RunKeepsTold(s: State, events: seq<Event>, e: nat, token: nat, hasRecipients: bool, p: Policy)
    requires Told(s, e, token, hasRecipients)
    ensures Told(Run(s, events, p), e, token, hasRecipients)
    decreases |events|
  {
    if events != [] { RunKeepsTold(Next(s, events[0], p), events[1..], e, token, hasRecipients, p); }
  }

  lemma RestrictionIsSmaller(m: map<nat, Row>, n: map<nat, Row>)
    requires n.Keys <= m.Keys
    ensures |n| <= |m|
  {
    Subset(n.Keys, m.Keys);
    assert |n| == |n.Keys| && |m| == |m.Keys|;
  }

  /** What the claiming query returns: eligible rows, each once; others may be locked or beyond the batch. */
  ghost predicate IsBatch(rows: map<nat, Row>, batch: seq<nat>, now: int) {
    && (forall k :: 0 <= k < |batch| ==> batch[k] in rows && Eligible(rows[batch[k]], now))
    && (forall j, k :: 0 <= j < k < |batch| ==> batch[j] != batch[k])
  }

  function Chosen(batch: seq<nat>): set<nat> { set e | e in batch }

  /** The first n events of the batch are handled, all other rows are as before. */
  ghost predicate PassedOver(before: map<nat, Row>, after: map<nat, Row>, batch: seq<nat>, turns: seq<Turn>, n: nat, token: nat, p: Policy)
    requires n <= |batch| == |turns|
  {
    && after.Keys == before.Keys
    && (forall k :: 0 <= k < n && batch[k] in before ==> after[batch[k]] == Handled(before[batch[k]], token, turns[k], p))
    && (forall e :: e in before && e !in batch[..n] ==> after[e] == before[e])
  }

  /** From position i on, the events of the batch are in hand, and what was read of them stands. */
  ghost predicate Remain(s: State, d: nat, batch: seq<nat>, i: nat, read: map<nat, Row>, token: nat) {
    && (forall j, k :: 0 <= j < k < |batch| ==> batch[j] != batch[k])
    && (forall k :: i <= k < |batch| ==> Holds(s, d, token, batch[k]))
    && (forall k :: i <= k < |batch| && batch[k] in read ==> Told(s, batch[k], token, read[batch[k]].hasRecipients))
  }

  lemma RemainAfter(s: State, t: State, steps: seq<Event>, d: nat, batch: seq<nat>, i: nat, read: map<nat, Row>, token: nat, p: Policy)
    requires i < |batch| && Remain(s, d, batch, i, read, token)
    requires t == Run(s, steps, p) && KeepsOthers(s, t, d, batch[i])
    ensures Remain(t, d, batch, i + 1, read, token)
  {
    forall k | i + 1 <= k < |batch| && batch[k] in read ensures Told(t, batch[k], token, read[batch[k]].hasRecipients) {
      RunKeepsTold(s, steps, batch[k], token, read[batch[k]].hasRecipients, p);
    }
  }

  lemma UndisturbedOne(read: map<nat, Row>, before: map<nat, Row>, after: map<nat, Row>, batch: seq<nat>, turns: seq<Turn>,
                       verdicts: seq<Verdict>, v: Verdict, token: nat, p: Policy)
    requires |verdicts| < |batch| == |turns| && (forall j, k :: 0 <= j < k < |batch| ==> batch[j] != batch[k])
    requires Verdicts(read, batch, turns, verdicts) && PassedOver(read, before, batch, turns, |verdicts|, token, p)
    requires var i := |verdicts|;
             && batch[i] in read
             && v == (if Fails(read[batch[i]], turns[i]) then Rescheduled else Completed)
             && after == before[batch[i] := Handled(read[batch[i]], token, turns[i], p)]
    ensures Verdicts(read, batch, turns, verdicts + [v])
    ensures PassedOver(read, after, batch, turns, |verdicts| + 1, token, p)
  {
    var i := |verdicts|;
    assert batch[..i + 1] == batch[..i] + [batch[i]];
  }

  ghost predicate Counted(verdicts: seq<Verdict>, published: nat, retryScheduled: nat, leaseLost: nat) {
    var m := multiset(verdicts);
    published == m[Completed] && retryScheduled == m[Rescheduled] && leaseLost == m[LeaseLost]
  }

  function One(b: bool): nat { if b then 1 else 0 }

  lemma CountedOne(verdicts: seq<Verdict>, v: Verdict, published: nat, retryScheduled: nat, leaseLost: nat)
    requires Counted(verdicts, published, retryScheduled, leaseLost)
    ensures Counted(verdicts + [v], published + One(v == Completed), retryScheduled + One(v == Rescheduled), leaseLost + One(v == LeaseLost))
  {}

  /** What was counted as published was read under the pass's own token, and sent unless it had no recipients. */
  ghost predicate CompletedWereSent(s: State, batch: seq<nat>, read: map<nat, Row>, token: nat, verdicts: seq<Verdict>)
    requires |verdicts| <= |batch|
  {
    forall k :: 0 <= k < |verdicts| && verdicts[k] == Completed ==>
      batch[k] in read && read[batch[k]].token == Some(token) && (read[batch[k]].hasRecipients ==> (batch[k], token) in s.sends)
  }

  lemma SentOne(s: State, t: State, batch: seq<nat>, read: map<nat, Row>, token: nat, verdicts: seq<Verdict>, v: Verdict)
    requires |verdicts| < |batch| && CompletedWereSent(s, batch, read, token, verdicts) && s.sends <= t.sends
    requires var e := batch[|verdicts|];
             v == Completed ==> e in read && read[e].token == Some(token) && (read[e].hasRecipients ==> (e, token) in t.sends)
    ensures CompletedWereSent(t, batch, read, token, verdicts + [v])
  {}

  /** No rival acts, and the claimed rows are still as they were read. */
  ghost predicate Undisturbed(read: map<nat, Row>, rows: map<nat, Row>, batch: seq<nat>, turns: seq<Turn>, token: nat) {
    && read == rows && (forall k :: 0 <= k < |turns| ==> Alone(turns[k]))
    && (forall k :: 0 <= k < |batch| ==> Owned(read, batch[k], token))
  }

  /** The verdicts of an undisturbed pass. */
  ghost predicate Verdicts(rows: map<nat, Row>, batch: seq<nat>, turns: seq<Turn>, verdicts: seq<Verdict>)
    requires |verdicts| <= |batch| == |turns|
  {
    forall k :: 0 <= k < |verdicts| && batch[k] in rows ==>
      verdicts[k] == if Fails(rows[batch[k]], turns[k]) then Rescheduled else Completed
  }

  /** A claim does not change how a delivery is judged. */
  lemma VerdictsOfClaimed(rows: map<nat, Row>, batch: seq<nat>, turns: seq<Turn>, verdicts: seq<Verdict>, token: nat, now: int, p: Policy)
    requires |verdicts| <= |batch| == |turns|
    requires Verdicts(ClaimRows(rows, Chosen(batch), token, now, p), batch, turns, verdicts)
    ensures Verdicts(rows, batch, turns, verdicts)
  {}

  /** No event was sent twice under the token of one claim. */
  ghost predicate SentOnceEach(sends: seq<(nat, nat)>) { forall i, j :: 0 <= i < j < |sends| ==> sends[i] != sends[j] }

  class RealtimeOutboxDispatcher {
    const policy: Policy
    /** Its place among the dispatchers. */
    const d: nat
    var box: State

    constructor (policy: Policy, d: nat, box: State)
      requires d < |box.dispatchers|
      ensures this.policy == policy && this.d == d && this.box == box && Valid()
    {
      this.policy, this.d, this.box := policy, d, box;
    }

    ghost predicate Valid()
      reads this
    {
      d < |box.dispatchers|
    }

    /** Event e is claimed under this token and not sent yet. */
    ghost predicate InHand(token: nat, e: nat)
      reads this
    {
      Valid() && Holds(box, d, token, e)
    }

    /** The lease update; a dispatcher whose lease is gone puts the event down. */
    method RenewLease(e: nat, token: nat, now: int) returns (renewed: bool)
      requires InHand(token, e)
      modifies this`box
      ensures renewed == Owned(old(box).rows, e, token)
      ensures box == Next(old(box), Renew(d, e, now), policy)
    {
      renewed := e in box.rows && box.rows[e].status == Processing && box.rows[e].token == Some(token);
      var mine := box.dispatchers[d];
      if renewed {
        var row := box.rows[e].(processingUntil := Some(now + policy.leaseMs));
        box := box.(rows := box.rows[e := row], dispatchers := box.dispatchers[d := mine.(renewed := mine.renewed + {e})]);
      } else {
        box := box.(dispatchers := box.dispatchers[d := Done(mine, e)]);
      }
    }

    method Publish(e: nat, token: nat, delivery: Delivery) returns (sent: bool)
      requires InHand(token, e) && Ready(box, d, e)
      modifies this`box
      ensures sent == (delivery == Delivered)
      ensures box == if sent then Next(old(box), Event.Publish(d, e), policy) else old(box)
    {
      sent := delivery == Delivered;
      if sent {
        var mine := box.dispatchers[d];
        box := box.(sends := box.sends + [(e, token)], dispatchers := box.dispatchers[d := mine.(sent := mine.sent + {e})]);
      }
    }

    method CompleteRow(e: nat, token: nat, now: int) returns (completed: bool)
      requires Valid() && Ready(box, d, e) && box.dispatchers[d].token == token
      requires Owned(box.rows, e, token) ==> e in box.dispatchers[d].sent || !box.rows[e].hasRecipients
      modifies this`box
      ensures completed == Owned(old(box).rows, e, token)
      ensures box == if completed then Next(old(box), Complete(d, e, now), policy) else old(box)
    {
      completed := e in box.rows && box.rows[e].status == Processing && box.rows[e].token == Some(token);
      if completed {
        var row := box.rows[e].(status := Published, token := None, processingUntil := None, nextAttemptAt := None,
                                compactAfter := Some(now + policy.retentionMs), completedBy := Some(token));
        box := box.(rows := box.rows[e := row], dispatchers := box.dispatchers[d := Done(box.dispatchers[d], e)]);
      }
    }

    method PutOff(e: nat, token: nat, attempts: nat, now: int) returns (retried: bool)
      requires InHand(token, e) && Ready(box, d, e)
      modifies this`box
      ensures retried == Owned(old(box).rows, e, token)
      ensures box == if retried then Next(old(box), Retry(d, e, attempts, now), policy) else old(box)
    {
      retried := e in box.rows && box.rows[e].status == Processing && box.rows[e].token == Some(token);
      if retried {
        var row := box.rows[e].(status := Pending, token := None, processingUntil := None,
                                nextAttemptAt := Some(now + RetryBackoffMs(attempts, policy)));
        box := box.(rows := box.rows[e := row], dispatchers := box.dispatchers[d := Done(box.dispatchers[d], e)]);
      }
    }

    method DropCompactable(now: int) returns (removed: nat)
      modifies this`box
      ensures box == Next(old(box), Compact(now), policy)
      ensures removed == |old(box).rows| - |box.rows|
    {
      var kept := map e | e in box.rows && !Compactable(box.rows[e], now) :: box.rows[e];
      RestrictionIsSmaller(box.rows, kept);
      removed := |box.rows| - |kept|;
      box := box.(rows := kept);
    }

    /** Other dispatchers, writers and compactions get their turn. */
    method LetRivals(events: seq<Event>)
      requires Valid() && Rivals(events, d)
      modifies this`box
      ensures box == Run(old(box), events, policy)
      ensures Valid() && box.dispatchers[d] == old(box).dispatchers[d] && old(box).sends <= box.sends
      ensures forall e, token, hasRecipients :: Told(old(box), e, token, hasRecipients) ==> Told(box, e, token, hasRecipients)
    {
      RivalsKeep(box, events, d, policy);
      SendsStay(box, events, policy);
      forall e, token, hasRecipients | Told(box, e, token, hasRecipients)
        ensures Told(Run(box, events, policy), e, token, hasRecipients)
      {
        RunKeepsTold(box, events, e, token, hasRecipients, policy);
      }
      box := Run(box, events, policy);
    }

    /** One event of the batch, from the row the batch query read to the verdict that is counted. */
    method HandleEvent(e: nat, row: Option<Row>, token: nat, t: Turn) returns (verdict: Verdict, ghost trail: seq<Event>)
      requires InHand(token, e) && RivalTurn(t, d)
      requires row.Some? ==> Told(box, e, token, row.value.hasRecipients)
      modifies this`box
      ensures box == Run(old(box), trail, policy)
      ensures Valid() && old(box).sends <= box.sends && KeepsOthers(old(box), box, d, e)
      ensures verdict == Completed ==> row.Some? && row.value.token == Some(token) && (row.value.hasRecipients ==> (e, token) in box.sends)
      ensures Alone(t) && Owned(old(box).rows, e, token) && row == Snapshot(old(box).rows, e) ==>
                && verdict == (if Fails(row.value, t) then Rescheduled else Completed)
                && box.rows == old(box).rows[e := Handled(row.value, token, t, policy)]
    {
      verdict, trail := LeaseLost, [];
      if row.None? || row.value.status != Processing || row.value.token != Some(token) { return; }
      LetRivals(t.beforeRenewal);
      assert Told(box, e, token, row.value.hasRecipients);
      var renewed := RenewLease(e, token, t.renewedAt);
      trail := t.beforeRenewal + [Renew(d, e, t.renewedAt)];
      RunAppend(old(box), t.beforeRenewal, [Renew(d, e, t.renewedAt)], policy);
      if !renewed { return; }
      ghost var rest;
      if row.value.hasRecipients {
        verdict, rest := PublishEvent(e, token, row.value.attempts, t);
      } else {
        verdict, rest := FinishWithoutRecipients(e, token, t);
      }
      RunAppend(old(box), trail, rest, policy);
      trail := trail + rest;
    }

    /** The one publish of a renewed event, with what rivals do before and after it. */
    method SendEvent(e: nat, token: nat, t: Turn) returns (sent: bool, ghost trail: seq<Event>)
      requires InHand(token, e) && Ready(box, d, e) && RivalTurn(t, d)
      modifies this`box
      ensures box == Run(old(box), trail, policy)
      ensures Valid() && old(box).sends <= box.sends && Ready(box, d, e)
      ensures sent == (t.delivery == Delivered) && (sent ==> (e, token) in box.sends)
      ensures var mine := old(box).dispatchers[d];
              box.dispatchers[d] == if sent then mine.(sent := mine.sent + {e}) else mine
      ensures t.beforePublish == t.beforeUpdate == [] ==> box.rows == old(box).rows
    {
      LetRivals(t.beforePublish);
      trail := t.beforePublish;
      sent := Publish(e, token, t.delivery);
      if sent {
        RunAppend(old(box), trail, [Event.Publish(d, e)], policy);
        trail := trail + [Event.Publish(d, e)];
      }
      ghost var n := |box.sends|;
      LetRivals(t.beforeUpdate);
      assert sent ==> box.sends[n - 1] == (e, token);
      RunAppend(old(box), trail, t.beforeUpdate, policy);
      trail := trail + t.beforeUpdate;
    }

    /** A renewed event with recipients: published and completed, or put off. */
    method PublishEvent(e: nat, token: nat, attempts: nat, t: Turn) returns (verdict: Verdict, ghost trail: seq<Event>)
      requires InHand(token, e) && Ready(box, d, e) && RivalTurn(t, d)
      modifies this`box
      ensures box == Run(old(box), trail, policy)
      ensures Valid() && old(box).sends <= box.sends && KeepsOthers(old(box), box, d, e)
      ensures verdict == Completed ==> (e, token) in box.sends
      ensures t.beforePublish == t.beforeUpdate == [] && Owned(old(box).rows, e, token) ==>
                if t.delivery == Delivered
                then verdict == Completed && box.rows == MarkPublished(old(box).rows, e, token, t.updatedAt, policy)
                else verdict == Rescheduled && box.rows == ScheduleRetry(old(box).rows, e, token, attempts, t.updatedAt, policy)
    {
      var sent;
      verdict := LeaseLost;
      sent, trail := SendEvent(e, token, t);
      if sent {
        var completed := CompleteRow(e, token, t.updatedAt);
        if completed {
          RunAppend(old(box), trail, [Complete(d, e, t.updatedAt)], policy);
          trail := trail + [Complete(d, e, t.updatedAt)];
          verdict := Completed;
        }
      } else {
        var retried := PutOff(e, token, attempts, t.updatedAt);
        if retried {
          RunAppend(old(box), trail, [Retry(d, e, attempts, t.updatedAt)], policy);
          trail := trail + [Retry(d, e, attempts, t.updatedAt)];
          verdict := Rescheduled;
        }
      }
    }

    /** A renewed event nobody is to receive is completed at once. */
    method FinishWithoutRecipients(e: nat, token: nat, t: Turn) returns (verdict: Verdict, ghost trail: seq<Event>)
      requires InHand(token, e) && Ready(box, d, e) && RivalTurn(t, d) && Told(box, e, token, false)
      modifies this`box
      ensures box == Run(old(box), trail, policy)
      ensures Valid() && old(box).sends <= box.sends && KeepsOthers(old(box), box, d, e)
      ensures t.beforeUpdate == [] && Owned(old(box).rows, e, token) ==>
                verdict == Completed && box.rows == MarkPublished(old(box).rows, e, token, t.updatedAt, policy)
    {
      LetRivals(t.beforeUpdate);
      trail := t.beforeUpdate;
      verdict := LeaseLost;
      assert Told(box, e, token, false);
      var completed := CompleteRow(e, token, t.updatedAt);
      if completed {
        RunAppend(old(box), trail, [Complete(d, e, t.updatedAt)], policy);
        trail := trail + [Complete(d, e, t.updatedAt)];
        verdict := Completed;
      }
    }

    /** Claims the batch under a new token. */
    method Claim(batch: seq<nat>, now: int) returns (token: nat)
      requires Valid() && IsBatch(box.rows, batch, now)
      modifies this`box
      ensures token == old(box).nextToken
      ensures box == Next(old(box), Event.Claim(d, Chosen(batch), now), policy)
      ensures forall k :: 0 <= k < |batch| ==> Holds(box, d, token, batch[k]) && Owned(box.rows, batch[k], token)
    {
      token := box.nextToken;
      var chosen := Chosen(batch);
      box := box.(rows := ClaimRows(box.rows, chosen, token, now, policy), nextToken := token + 1,
                  dispatchers := box.dispatchers[d := On(token, ClaimedEvents(box.rows, chosen, now), {}, {})]);
    }

    method Tally(verdict: Verdict, published: nat, retryScheduled: nat, leaseLost: nat)
      returns (published': nat, retryScheduled': nat, leaseLost': nat)
      ensures published' == published + One(verdict == Completed)
      ensures retryScheduled' == retryScheduled + One(verdict == Rescheduled)
      ensures leaseLost' == leaseLost + One(verdict == LeaseLost)
    {
      published', retryScheduled', leaseLost' := published, retryScheduled, leaseLost;
      match verdict
      case Completed => published' := published + 1;
      case Rescheduled => retryScheduled' := retryScheduled + 1;
      case LeaseLost => leaseLost' := leaseLost + 1;
    }

    /** The loop of the pass, over the rows `read` after the claim. */
    method HandleBatch(batch: seq<nat>, read: map<nat, Row>, token: nat, turns: seq<Turn>)
      returns (published: nat, retryScheduled: nat, leaseLost: nat, ghost trail: seq<Event>, ghost verdicts: seq<Verdict>)
      requires Valid() && |turns| == |batch| && forall k :: 0 <= k < |turns| ==> RivalTurn(turns[k], d)
      requires Remain(box, d, batch, 0, read, token)
      modifies this`box
      ensures Valid() && box == Run(old(box), trail, policy)
      ensures |verdicts| == |batch| == published + retryScheduled + leaseLost
      ensures Counted(verdicts, published, retryScheduled, leaseLost)
      ensures CompletedWereSent(box, batch, read, token, verdicts)
      ensures Undisturbed(read, old(box).rows, batch, turns, token) ==>
                && Verdicts(read, batch, turns, verdicts)
                && PassedOver(read, box.rows, batch, turns, |batch|, token, policy)
    {
      trail, verdicts := [], [];
      published, retryScheduled, leaseLost := 0, 0, 0;
      ghost var alone := Undisturbed(read, box.rows, batch, turns, token);
      for i := 0 to |batch|
        invariant Valid() && box == Run(old(box), trail, policy)
        invariant Remain(box, d, batch, i, read, token)
        invariant |verdicts| == i == published + retryScheduled + leaseLost
        invariant Counted(verdicts, published, retryScheduled, leaseLost)
        invariant CompletedWereSent(box, batch, read, token, verdicts)
        invariant alone ==> Verdicts(read, batch, turns, verdicts) && PassedOver(read, box.rows, batch, turns, i, token, policy)
      {
        var e := batch[i];
        ghost var before := box;
        assert alone ==> before.rows[e] == read[e] by {
          if alone { assert e !in batch[..i]; }
        }
        var verdict, steps := HandleEvent(e, if e in read then Some(read[e]) else None, token, turns[i]);
        RunAppend(old(box), trail, steps, policy);
        SentOne(before, box, batch, read, token, verdicts, verdict);
        RemainAfter(before, box, steps, d, batch, i, read, token, policy);
        if alone { UndisturbedOne(read, before.rows, box.rows, batch, turns, verdicts, verdict, token, policy); }
        CountedOne(verdicts, verdict, published, retryScheduled, leaseLost);
        trail, verdicts := trail + steps, verdicts + [verdict];
        published, retryScheduled, leaseLost := Tally(verdict, published, retryScheduled, leaseLost);
      }
    }

    /** The pass up to its compaction. */
    method ClaimAndHandle(batch: seq<nat>, now: int, beforeRead: seq<Event>, turns: seq<Turn>)
      returns (published: nat, retryScheduled: nat, leaseLost: nat, ghost trail: seq<Event>, ghost verdicts: seq<Verdict>)
      requires Valid() && IsBatch(box.rows, batch, now) && |turns| == |batch|
      requires Rivals(beforeRead, d) && forall k :: 0 <= k < |turns| ==> RivalTurn(turns[k], d)
      modifies this`box
      ensures Valid() && box == Run(old(box), trail, policy)
      ensures |batch| == |verdicts| == published + retryScheduled + leaseLost
      ensures Counted(verdicts, published, retryScheduled, leaseLost)
      ensures forall k :: 0 <= k < |batch| && verdicts[k] == Completed && old(box).rows[batch[k]].hasRecipients ==>
                (batch[k], old(box).nextToken) in box.sends
      ensures beforeRead == [] && (forall k :: 0 <= k < |turns| ==> Alone(turns[k])) ==>
                && Verdicts(old(box).rows, batch, turns, verdicts)
                && PassedOver(ClaimRows(old(box).rows, Chosen(batch), old(box).nextToken, now, policy), box.rows,
                              batch, turns, |batch|, old(box).nextToken, policy)
    {
      ghost var start := box;
      var token := Claim(batch, now);
      trail := [Event.Claim(d, Chosen(batch), now)];
      assert forall k :: 0 <= k < |batch| ==> Told(box, batch[k], token, start.rows[batch[k]].hasRecipients);
      LetRivals(beforeRead);
      RunAppend(start, trail, beforeRead, policy);
      trail := trail + beforeRead;
      ghost var told := box;
      assert forall k :: 0 <= k < |batch| ==> Told(told, batch[k], token, start.rows[batch[k]].hasRecipients);
      var read := box.rows;
      ghost var undisturbed := beforeRead == [] && forall k :: 0 <= k < |turns| ==> Alone(turns[k]);
      assert undisturbed ==> Undisturbed(read, box.rows, batch, turns, token);
      ghost var steps;
      published, retryScheduled, leaseLost, steps, verdicts := HandleBatch(batch, read, token, turns);
      RunAppend(start, trail, steps, policy);
      trail := trail + steps;
      if undisturbed { VerdictsOfClaimed(start.rows, batch, turns, verdicts, token, now, policy); }
      forall k | 0 <= k < |batch| && verdicts[k] == Completed && start.rows[batch[k]].hasRecipients
        ensures (batch[k], token) in box.sends
      {
        assert Told(told, batch[k], token, start.rows[batch[k]].hasRecipients);
      }
    }

    /**
     * The whole pass. Whatever the rivals do, it is a run of the outbox, every claimed event is counted
     * once, and what it counts as published was sent or had no recipients. Undisturbed, it loses no lease
     * and leaves every claimed row completed or put off, as its delivery went.
     */
    method RunOnce(batch: seq<nat>, now: int, beforeRead: seq<Event>, turns: seq<Turn>, finishedAt: int)
      returns (r: RunResult, ghost trail: seq<Event>, ghost verdicts: seq<Verdict>, ghost handled: map<nat, Row>)
      requires Valid() && IsBatch(box.rows, batch, now) && |turns| == |batch|
      requires Rivals(beforeRead, d) && forall k :: 0 <= k < |turns| ==> RivalTurn(turns[k], d)
      modifies this`box
      ensures box == Run(old(box), trail, policy)
      ensures r.claimed == |batch| == |verdicts| == r.published + r.retryScheduled + r.leaseLost
      ensures Counted(verdicts, r.published, r.retryScheduled, r.leaseLost)
      ensures forall k :: 0 <= k < |batch| && verdicts[k] == Completed && old(box).rows[batch[k]].hasRecipients ==>
                (batch[k], old(box).nextToken) in box.sends
      ensures Inv(old(box)) && FreshRun(old(box), trail, policy) ==> SentOnceEach(box.sends)
      ensures box.rows == CompactPublished(handled, if batch == [] then now else finishedAt)
      ensures r.compacted == |handled| - |box.rows|
      ensures beforeRead == [] && (forall k :: 0 <= k < |turns| ==> Alone(turns[k])) ==>
                && Verdicts(old(box).rows, batch, turns, verdicts)
                && PassedOver(ClaimRows(old(box).rows, Chosen(batch), old(box).nextToken, now, policy), handled,
                              batch, turns, |batch|, old(box).nextToken, policy)
    {
      var published, retryScheduled, leaseLost;
      published, retryScheduled, leaseLost, trail, verdicts := ClaimAndHandle(batch, now, beforeRead, turns);
      handled := box.rows;
      var end := if batch == [] then now else finishedAt;
      var compacted := DropCompactable(end);
      RunAppend(old(box), trail, [Compact(end)], policy);
      trail := trail + [Compact(end)];
      if Inv(old(box)) && FreshRun(old(box), trail, policy) { RunKeepsInv(old(box), trail, policy); }
      r := RunResult(|batch|, published, retryScheduled, leaseLost, compacted);
    }
  }
}
