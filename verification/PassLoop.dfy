/**
 * The pass loop of dispatchPlan (apps/worker/src/orchestration.ts): pending invocations are
 * decided one after the other until a pass changes nothing. The deciding function is a parameter.
 */
module PassLoop {
  import opened Readiness

  type Decider = (nat, seq<InvocationStatus>) -> Decision

  function NextStatus(decision: Decision, auto: bool): InvocationStatus
    requires decision != STAY_PENDING
  {
    if decision == BECOME_SKIPPED then SKIPPED else if auto then READY else WAITING_APPROVAL
  }

  /** Decides one invocation if it is pending. */
  function Decide(decide: Decider, auto: seq<bool>, st: seq<InvocationStatus>, i: nat): (r: seq<InvocationStatus>)
    requires i < |st| == |auto|
    ensures Extends(st, r)
  {
    if st[i] == PENDING && decide(i, st) != STAY_PENDING then st[i := NextStatus(decide(i, st), auto[i])] else st
  }

  /** Decides the first k invocations in order. */
  function Pass(decide: Decider, auto: seq<bool>, st: seq<InvocationStatus>, k: nat): (r: seq<InvocationStatus>)
    requires k <= |st| == |auto|
    ensures Extends(st, r)
  {
    if k == 0 then st else Decide(decide, auto, Pass(decide, auto, st, k - 1), k - 1)
  }

  function Passes(decide: Decider, auto: seq<bool>, st: seq<InvocationStatus>, m: nat): (r: seq<InvocationStatus>)
    requires |st| == |auto|
    ensures Extends(st, r)
  {
    if m == 0 then st
    else
      var before := Passes(decide, auto, st, m - 1);
      Pass(decide, auto, before, |st|)
  }

  ghost predicate Fixpoint(decide: Decider, st: seq<InvocationStatus>) {
    forall i :: 0 <= i < |st| && st[i] == PENDING ==> decide(i, st) == STAY_PENDING
  }

  function Pending(st: seq<InvocationStatus>): nat {
    if st == [] then 0 else Pending(st[1..]) + if st[0] == PENDING then 1 else 0
  }

  lemma {:induction false} PendingShrinks(s: seq<InvocationStatus>, t: seq<InvocationStatus>)
    requires Extends(s, t)
    ensures Pending(t) <= Pending(s) <= |s|
    ensures (exists k :: 0 <= k < |s| && s[k] == PENDING && t[k] != PENDING) ==> Pending(t) < Pending(s)
  {
    if s != [] {
      PendingShrinks(s[1..], t[1..]);
      if k :| 0 <= k < |s| && s[k] == PENDING && t[k] != PENDING {
        if k > 0 { assert s[1..][k - 1] == PENDING && t[1..][k - 1] != PENDING; }
      }
    }
  }

  /** A pass that changes nothing has reached a fixpoint. */
  lemma {:induction false} QuietPass(decide: Decider, auto: seq<bool>, st: seq<InvocationStatus>, k: nat)
    requires k <= |st| == |auto| && Pass(decide, auto, st, k) == st
    ensures forall i :: 0 <= i < k && st[i] == PENDING ==> decide(i, st) == STAY_PENDING
  {
    if k > 0 {
      var before := Pass(decide, auto, st, k - 1);
      assert before == st by {
        forall j | 0 <= j < |st| ensures before[j] == st[j] {
          assert Extends(st, before) && Extends(before, st);
        }
      }
      QuietPass(decide, auto, st, k - 1);
    }
  }

  lemma {:induction false} FixpointIsQuiet(decide: Decider, auto: seq<bool>, st: seq<InvocationStatus>, k: nat)
    requires k <= |st| == |auto| && Fixpoint(decide, st)
    ensures Pass(decide, auto, st, k) == st
  {
    if k > 0 { FixpointIsQuiet(decide, auto, st, k - 1); }
  }

  /** Every pass before the fixpoint decides at least one invocation. */
  lemma {:induction false} PassesProgress(decide: Decider, auto: seq<bool>, st: seq<InvocationStatus>, m: nat)
    requires |st| == |auto|
    ensures Fixpoint(decide, Passes(decide, auto, st, m)) || Pending(Passes(decide, auto, st, m)) <= |st| - m
  {
    if m == 0 {
      PendingShrinks(st, st);
    } else {
      var before := Passes(decide, auto, st, m - 1);
      var after := Pass(decide, auto, before, |st|);
      PassesProgress(decide, auto, st, m - 1);
      if after == before {
        QuietPass(decide, auto, before, |st|);
      } else if Fixpoint(decide, before) {
        FixpointIsQuiet(decide, auto, before, |st|);
      } else {
        var k :| 0 <= k < |st| && after[k] != before[k];
        PendingChanged(decide, auto, before, |st|, k);
        PendingShrinks(before, after);
      }
    }
  }

  lemma {:induction false} PendingChanged(decide: Decider, auto: seq<bool>, st: seq<InvocationStatus>, n: nat, k: nat)
    requires n <= |st| == |auto| && k < |st| && Pass(decide, auto, st, n)[k] != st[k]
    ensures st[k] == PENDING && Pass(decide, auto, st, n)[k] != PENDING
  {}

  lemma {:induction false} NonePending(st: seq<InvocationStatus>)
    requires Pending(st) == 0
    ensures forall k :: 0 <= k < |st| ==> st[k] != PENDING
  {
    if st != [] {
      NonePending(st[1..]);
      forall k | 0 <= k < |st| ensures st[k] != PENDING { if k > 0 { assert st[1..][k - 1] == st[k]; } }
    }
  }

  /** Whatever the deciding function, one pass per invocation and one more reach the fixpoint. */
  lemma PassesReachFixpoint(decide: Decider, auto: seq<bool>, st: seq<InvocationStatus>, m: nat)
    requires |st| == |auto| && m >= |st|
    ensures Fixpoint(decide, Passes(decide, auto, st, m))
  {
    PassesProgress(decide, auto, st, m);
    var t := Passes(decide, auto, st, m);
    if !Fixpoint(decide, t) { NonePending(t); }
  }

  /** Passing over a fixpoint any number of times changes nothing. */
  lemma {:induction false} PassesStay(decide: Decider, auto: seq<bool>, st: seq<InvocationStatus>, m: nat, n: nat)
    requires |st| == |auto| && m <= n && Fixpoint(decide, Passes(decide, auto, st, m))
    ensures Passes(decide, auto, st, n) == Passes(decide, auto, st, m)
  {
    if m < n {
      PassesStay(decide, auto, st, m, n - 1);
      FixpointIsQuiet(decide, auto, Passes(decide, auto, st, m), |st|);
    }
  }

  /** The source's loop, which stops at the first pass without a change. */
  method RunPasses(decide: Decider, auto: seq<bool>, start: seq<InvocationStatus>) returns (stateById: seq<InvocationStatus>)
    requires |start| == |auto|
    ensures stateById == Passes(decide, auto, start, |start| + 1)
    ensures Fixpoint(decide, stateById)
  {
    stateById := start;
    var n, pass := |start|, 0;
    var changed := true;
    while pass <= n && changed
      invariant 0 <= pass <= n + 1
      invariant stateById == Passes(decide, auto, start, pass)
      invariant !changed ==> Fixpoint(decide, stateById)
    {
      changed := false;
      ghost var before := stateById;
      var i := 0;
      while i < n
        invariant 0 <= i <= n
        invariant stateById == Pass(decide, auto, before, i)
        invariant !changed ==> stateById == before
      {
        if stateById[i] == PENDING {
          var decision := decide(i, stateById);
          if decision != STAY_PENDING {
            stateById := stateById[i := NextStatus(decision, auto[i])];
            changed := true;
          }
        }
        i := i + 1;
      }
      if !changed { QuietPass(decide, auto, before, n); }
      pass := pass + 1;
    }
    PassesReachFixpoint(decide, auto, start, n + 1);
    if !changed { PassesStay(decide, auto, start, pass, n + 1); }
  }

  // ---- Independence of order ----

  ghost predicate Stable(decide: Decider) {
    forall i: nat, s, t :: Extends(s, t) && decide(i, s) != STAY_PENDING ==> decide(i, t) == decide(i, s)
  }

  /** Deciding single invocations in any order, any number of times. */
  function InOrder(decide: Decider, auto: seq<bool>, st: seq<InvocationStatus>, order: seq<nat>): (r: seq<InvocationStatus>)
    requires |st| == |auto| && forall k :: 0 <= k < |order| ==> order[k] < |st|
    ensures Extends(st, r)
  {
    if order == [] then st
    else Decide(decide, auto, InOrder(decide, auto, st, order[..|order| - 1]), order[|order| - 1])
  }

  /** Whatever was decided on the way is what the end state itself decides. */
  lemma {:induction false} EndStateDecides(decide: Decider, auto: seq<bool>, st: seq<InvocationStatus>, order: seq<nat>, i: nat)
    requires |st| == |auto| && (forall k :: 0 <= k < |order| ==> order[k] < |st|) && Stable(decide) && i < |st| && st[i] == PENDING
    ensures var t := InOrder(decide, auto, st, order);
            t[i] != PENDING ==> decide(i, t) != STAY_PENDING && t[i] == NextStatus(decide(i, t), auto[i])
  {
    if order != [] {
      var front := InOrder(decide, auto, st, order[..|order| - 1]);
      var t := InOrder(decide, auto, st, order);
      EndStateDecides(decide, auto, st, order[..|order| - 1], i);
      assert Extends(front, t);
    }
  }

  /** Everything reachable in some order agrees, as far as it is decided, with a reachable fixpoint. */
  lemma {:induction false} BelowFixpoint(decide: Decider, auto: seq<bool>, st: seq<InvocationStatus>, order: seq<nat>, full: seq<nat>)
    requires |st| == |auto| && Stable(decide)
    requires forall k :: 0 <= k < |order| ==> order[k] < |st|
    requires forall k :: 0 <= k < |full| ==> full[k] < |st|
    requires Fixpoint(decide, InOrder(decide, auto, st, full))
    ensures Extends(InOrder(decide, auto, st, order), InOrder(decide, auto, st, full))
  {
    if order != [] {
      var front, i := order[..|order| - 1], order[|order| - 1];
      BelowFixpoint(decide, auto, st, front, full);
      var s, fix := InOrder(decide, auto, st, front), InOrder(decide, auto, st, full);
      if s[i] == PENDING && decide(i, s) != STAY_PENDING {
        assert st[i] == PENDING;
        assert decide(i, fix) == decide(i, s);
        EndStateDecides(decide, auto, st, full, i);
      }
    }
  }

  /** With stable decisions, the fixpoint does not depend on the order in which invocations are visited. */
  lemma FixpointIsUnique(decide: Decider, auto: seq<bool>, st: seq<InvocationStatus>, one: seq<nat>, other: seq<nat>)
    requires |st| == |auto| && Stable(decide)
    requires forall k :: 0 <= k < |one| ==> one[k] < |st|
    requires forall k :: 0 <= k < |other| ==> other[k] < |st|
    requires Fixpoint(decide, InOrder(decide, auto, st, one)) && Fixpoint(decide, InOrder(decide, auto, st, other))
    ensures InOrder(decide, auto, st, one) == InOrder(decide, auto, st, other)
  {
    BelowFixpoint(decide, auto, st, one, other);
    BelowFixpoint(decide, auto, st, other, one);
    var s, t := InOrder(decide, auto, st, one), InOrder(decide, auto, st, other);
    forall k | 0 <= k < |s| ensures s[k] == t[k] {}
  }

  function Upto(n: nat): (r: seq<nat>)
    ensures |r| == n && forall k :: 0 <= k < n ==> r[k] == k
  {
    seq(n, k => k)
  }

  lemma OneMoreVisit(before: seq<nat>, k: nat)
    requires k > 0
    ensures before + Upto(k) == (before + Upto(k - 1)) + [k - 1]
  {
    assert Upto(k) == Upto(k - 1) + [k - 1];
  }

  lemma {:induction false} PassInOrder(decide: Decider, auto: seq<bool>, st: seq<InvocationStatus>, before: seq<nat>, k: nat)
    requires k <= |st| == |auto| && forall j :: 0 <= j < |before| ==> before[j] < |st|
    ensures forall j :: 0 <= j < |before + Upto(k)| ==> (before + Upto(k))[j] < |st|
    ensures Pass(decide, auto, InOrder(decide, auto, st, before), k) == InOrder(decide, auto, st, before + Upto(k))
  {
    if k == 0 {
      assert before + Upto(0) == before;
    } else {
      PassInOrder(decide, auto, st, before, k - 1);
      OneMoreVisit(before, k);
      var visits := before + Upto(k - 1);
      assert (visits + [k - 1])[..|visits|] == visits;
    }
  }

  /** The visits that m passes make. */
  function Visits(n: nat, m: nat): (r: seq<nat>)
    ensures forall k :: 0 <= k < |r| ==> r[k] < n
  {
    if m == 0 then [] else Visits(n, m - 1) + Upto(n)
  }

  lemma {:induction false} PassesInOrder(decide: Decider, auto: seq<bool>, st: seq<InvocationStatus>, m: nat)
    requires |st| == |auto|
    ensures Passes(decide, auto, st, m) == InOrder(decide, auto, st, Visits(|st|, m))
  {
    if m > 0 {
      PassesInOrder(decide, auto, st, m - 1);
      PassInOrder(decide, auto, st, Visits(|st|, m - 1), |st|);
    }
  }

  /** The dispatcher's result is the one every other exhaustive visiting order would give. */
  lemma DispatchIgnoresOrder(decide: Decider, auto: seq<bool>, st: seq<InvocationStatus>, order: seq<nat>)
    requires |st| == |auto| && Stable(decide) && forall k :: 0 <= k < |order| ==> order[k] < |st|
    requires Fixpoint(decide, InOrder(decide, auto, st, order))
    ensures Passes(decide, auto, st, |st| + 1) == InOrder(decide, auto, st, order)
  {
    PassesReachFixpoint(decide, auto, st, |st| + 1);
    PassesInOrder(decide, auto, st, |st| + 1);
    FixpointIsUnique(decide, auto, st, Visits(|st|, |st| + 1), order);
  }

  /** With stable decisions every pending invocation ends where the decision over the end state puts it. */
  lemma PassesPlace(decide: Decider, auto: seq<bool>, st: seq<InvocationStatus>, i: nat)
    requires |st| == |auto| && Stable(decide) && i < |st| && st[i] == PENDING
    ensures var t := Passes(decide, auto, st, |st| + 1);
            t[i] == if decide(i, t) == STAY_PENDING then PENDING else NextStatus(decide(i, t), auto[i])
  {
    PassesReachFixpoint(decide, auto, st, |st| + 1);
    PassesInOrder(decide, auto, st, |st| + 1);
    EndStateDecides(decide, auto, st, Visits(|st|, |st| + 1), i);
  }
}
