/**
 * What the times in an outbox row promise (apps/worker/src/realtime-outbox.ts): a lease keeps every other
 * dispatcher away until it ends, a retry waits for its back-off, and a published row is kept for its retention.
 */
module OutboxLeases {
  import opened Basics
  import opened Outbox

  /** The clock an event reads, if it reads one. */
  function Clock(ev: Event): Option<int> {
    match ev
    case Claim(_, _, now) => Some(now)
    case Renew(_, _, now) => Some(now)
    case Complete(_, _, now) => Some(now)
    case Retry(_, _, _, now) => Some(now)
    case Compact(now) => Some(now)
    case _ => None
  }

  /** Event ev ends the work of the holder of this token on e. */
  predicate HolderEnds(s: State, ev: Event, e: nat, token: nat) {
    (ev.Complete? || ev.Retry?) && ev.e == e && ev.d < |s.dispatchers| && s.dispatchers[ev.d].On? && s.dispatchers[ev.d].token == token
  }

  /** A run whose clocks stay between two times, in which the holder of the token does not end its work on e. */
  predicate Meanwhile(s: State, events: seq<Event>, e: nat, token: nat, from: int, until: int, p: Policy)
    decreases |events|
  {
    events == []
    || (&& (Clock(events[0]).Some? ==> from <= Clock(events[0]).value <= until)
        && !HolderEnds(s, events[0], e, token)
        && Meanwhile(Next(s, events[0], p), events[1..], e, token, from, until, p))
  }

  /** The row is leased to this token at least until the given time. */
  predicate Leased(rows: map<nat, Row>, e: nat, token: nat, until: int) {
    Owned(rows, e, token) && rows[e].processingUntil.Some? && rows[e].processingUntil.value >= until
  }

  /** No claim touches a row whose lease still runs. */
  lemma ClaimRespectsLease(s: State, d: nat, chosen: set<nat>, now: int, p: Policy, e: nat)
    requires e in s.rows && s.rows[e].status == Processing && s.rows[e].processingUntil.Some? && s.rows[e].processingUntil.value >= now
    ensures e in Next(s, Claim(d, chosen, now), p).rows && Next(s, Claim(d, chosen, now), p).rows[e] == s.rows[e]
  {}

  lemma NextKeepsLease(s: State, ev: Event, e: nat, token: nat, from: int, until: int, p: Policy)
    requires Leased(s.rows, e, token, until) && until <= from + p.leaseMs && !HolderEnds(s, ev, e, token)
    requires Clock(ev).Some? ==> from <= Clock(ev).value <= until
    ensures Leased(Next(s, ev, p).rows, e, token, until)
  {}

  /**
   * From a claim or renewal at `from` until its lease ends, the row stays with its holder, whatever other
   * dispatchers, writers, compactions and crashes do, unless the holder itself completes or puts it off.
   */
  lemma {:induction false} LeaseExcludes(s: State, events: seq<Event>, e: nat, token: nat, from: int, p: Policy)
    requires Leased(s.rows, e, token, from + p.leaseMs) && Meanwhile(s, events, e, token, from, from + p.leaseMs, p)
    ensures Leased(Run(s, events, p).rows, e, token, from + p.leaseMs)
    decreases |events|
  {
    if events != [] {
      NextKeepsLease(s, events[0], e, token, from, from + p.leaseMs, p);
      LeaseExcludes(Next(s, events[0], p), events[1..], e, token, from, p);
    }
  }

  /** A claim hands out exactly the eligible rows it chose, each under its new token for one lease; a renewal extends its own. */
  lemma ClaimLeases(s: State, d: nat, chosen: set<nat>, now: int, p: Policy, e: nat)
    requires d < |s.dispatchers| && e in s.rows
    ensures var t, r := Next(s, Claim(d, chosen, now), p), s.rows[e];
            var takes := || (r.status == Pending && r.nextAttemptAt.Some? && r.nextAttemptAt.value <= now)
                         || (r.status == Processing && r.processingUntil.Some? && r.processingUntil.value < now);
            && e in t.rows
            && (e in chosen && takes ==> Leased(t.rows, e, s.nextToken, now + p.leaseMs) && Busy(t, d, e) && t.rows[e].attempts == r.attempts + 1)
            && (!(e in chosen && takes) ==> t.rows[e] == r)
  {}

  /** A new event can be claimed from the moment it is enqueued; one that is there already is left alone. */
  lemma EnqueuedIsClaimable(s: State, e: nat, now: int, hasRecipients: bool, later: int, p: Policy)
    ensures var t := Next(s, Enqueue(e, now, hasRecipients), p);
            && e in t.rows && t.rows - {e} == s.rows - {e} && (e in s.rows ==> t == s)
            && (e !in s.rows ==> t.rows[e].attempts == 0 && (Eligible(t.rows[e], later) <==> later >= now))
  {}

  lemma RenewalLeases(s: State, d: nat, e: nat, now: int, p: Policy)
    requires Busy(s, d, e) && Owned(s.rows, e, s.dispatchers[d].token)
    ensures var t := Next(s, Renew(d, e, now), p); Leased(t.rows, e, s.dispatchers[d].token, now + p.leaseMs) && Ready(t, d, e)
  {}

  /**
   * A dispatcher that acts within its lease never loses it: whatever happens in between, its completion takes
   * effect, and so does putting the event off.
   */
  lemma ActsWithinLease(s: State, events: seq<Event>, e: nat, token: nat, from: int, now: int, attempts: nat, p: Policy)
    requires Leased(s.rows, e, token, from + p.leaseMs) && Meanwhile(s, events, e, token, from, from + p.leaseMs, p)
    ensures var rows := Run(s, events, p).rows;
            && e in rows
            && MarkPublished(rows, e, token, now, p)
               == rows[e := rows[e].(status := Published, token := None, processingUntil := None, nextAttemptAt := None,
                                     compactAfter := Some(now + p.retentionMs), completedBy := Some(token))]
            && ScheduleRetry(rows, e, token, attempts, now, p)
               == rows[e := rows[e].(status := Pending, token := None, processingUntil := None,
                                     nextAttemptAt := Some(now + Backoff(attempts, 30, p.backoffBaseMs, p.backoffCapMs)))]
  {
    LeaseExcludes(s, events, e, token, from, p);
  }

  // ---- Rows that rest ----

  /** The time before which nothing happens to a row that waits or is kept. */
  function RestsUntil(r: Row): Option<int> {
    match r.status
    case Pending => r.nextAttemptAt
    case Published => r.compactAfter
    case Processing => None
  }

  predicate ClocksBefore(events: seq<Event>, until: int) {
    forall k :: 0 <= k < |events| ==> Clock(events[k]).Some? ==> Clock(events[k]).value < until
  }

  lemma NextRests(s: State, ev: Event, e: nat, p: Policy)
    requires e in s.rows && RestsUntil(s.rows[e]).Some? && (Clock(ev).Some? ==> Clock(ev).value < RestsUntil(s.rows[e]).value)
    requires s.rows[e].token.None?
    ensures e in Next(s, ev, p).rows && Next(s, ev, p).rows[e] == s.rows[e]
  {}

  /** A row that was put off is not touched before its back-off is over, and a published one not before its retention is. */
  lemma {:induction false} RowsRest(s: State, events: seq<Event>, e: nat, p: Policy)
    requires Inv(s) && FreshRun(s, events, p) && e in s.rows && RestsUntil(s.rows[e]).Some?
    requires ClocksBefore(events, RestsUntil(s.rows[e]).value)
    ensures e in Run(s, events, p).rows && Run(s, events, p).rows[e] == s.rows[e]
    decreases |events|
  {
    if events != [] {
      assert RowInv(s, e);
      assert Clock(events[0]).Some? ==> Clock(events[0]).value < RestsUntil(s.rows[e]).value;
      NextRests(s, events[0], e, p);
      NextKeepsInv(s, events[0], p);
      RowsRest(Next(s, events[0], p), events[1..], e, p);
    }
  }

  /** A compaction removes exactly the published rows whose retention is over. */
  lemma CompactionRemoves(s: State, now: int, p: Policy, e: nat)
    requires e in s.rows
    ensures var t, r := Next(s, Compact(now), p), s.rows[e];
            var over := r.status == Published && r.compactAfter.Some? && r.compactAfter.value <= now;
            if over then e !in t.rows else e in t.rows && t.rows[e] == r
  {}

  /** After it was put off, an event waits at least the base and at most the longest back-off. */
  lemma BackoffWindow(attempts: nat, p: Policy)
    requires 0 < p.backoffBaseMs <= p.backoffCapMs
    ensures p.backoffBaseMs <= RetryBackoffMs(attempts, p) <= p.backoffCapMs
    ensures RetryBackoffMs(attempts, p) <= RetryBackoffMs(attempts + 1, p)
  {
    BackoffIsBounded(attempts, attempts + 1, 30, p.backoffBaseMs, p.backoffCapMs);
  }
}
