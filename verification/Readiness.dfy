/** When an invocation may start: packages/orchestration/src/readiness.ts and states.ts. */
module Readiness {
  import opened Basics

  datatype InvocationStatus = PENDING | READY | RUNNING | WAITING_APPROVAL
                            | WAITING_FOR_USAGE_CAPACITY | BLOCKED_INSUFFICIENT_USAGE
                            | COMPLETED | FAILED | SKIPPED | CANCELED

  predicate Terminal(s: InvocationStatus) { s in {COMPLETED, FAILED, SKIPPED, CANCELED} }

  datatype JoinPolicy = ALL_REQUIRED | ANY_REQUIRED | ALL_SETTLED

  datatype Condition = DATA | ON_SUCCESS | ON_FAILURE | ALWAYS | OUTCOME(outcome: string)

  datatype Dependency = Dependency(from: nat, to: nat, condition: Condition)

  datatype Decision = STAY_PENDING | BECOME_READY | BECOME_SKIPPED

  datatype Evaluation = WAITING | SATISFIED | IMPOSSIBLE

  function EvaluateCondition(condition: Condition, status: InvocationStatus, outcome: Option<string>): Evaluation {
    if !Terminal(status) then WAITING
    else
      match condition
      case ALWAYS => SATISFIED
      case DATA => if status == COMPLETED then SATISFIED else IMPOSSIBLE
      case ON_SUCCESS => if status == COMPLETED then SATISFIED else IMPOSSIBLE
      case ON_FAILURE => if status == FAILED then SATISFIED else IMPOSSIBLE
      case OUTCOME(o) => if status == COMPLETED && outcome == Some(o) then SATISFIED else IMPOSSIBLE
  }

  predicate Every(es: seq<Evaluation>, e: Evaluation) { forall k :: 0 <= k < |es| ==> es[k] == e }

  function DecideJoin(policy: JoinPolicy, es: seq<Evaluation>): Decision {
    if es == [] then BECOME_READY
    else
      match policy
      case ALL_SETTLED => if WAITING !in es then BECOME_READY else STAY_PENDING
      case ANY_REQUIRED =>
        if SATISFIED in es then BECOME_READY else if Every(es, IMPOSSIBLE) then BECOME_SKIPPED else STAY_PENDING
      case ALL_REQUIRED =>
        if IMPOSSIBLE in es then BECOME_SKIPPED else if Every(es, SATISFIED) then BECOME_READY else STAY_PENDING
  }

  /** The evaluations of the dependencies into one invocation, in the order of the plan. */
  function Evaluations(deps: seq<Dependency>, i: nat, states: seq<InvocationStatus>, outcomes: seq<Option<string>>): seq<Evaluation>
    requires |outcomes| == |states|
  {
    if deps == [] then []
    else
      var n := |deps| - 1;
      var front, d := Evaluations(deps[..n], i, states, outcomes), deps[n];
      if d.to != i then front
      else front + [if d.from < |states| then EvaluateCondition(d.condition, states[d.from], outcomes[d.from]) else WAITING]
  }

  function DecideReadiness(policy: JoinPolicy, deps: seq<Dependency>, i: nat, states: seq<InvocationStatus>, outcomes: seq<Option<string>>)
    : Decision
    requires |outcomes| == |states|
  {
    DecideJoin(policy, Evaluations(deps, i, states, outcomes))
  }

  /** Later statuses of the same invocations: only what was pending has moved. */
  ghost predicate Extends(s: seq<InvocationStatus>, t: seq<InvocationStatus>) {
    |t| == |s| && forall k :: 0 <= k < |s| && s[k] != PENDING ==> t[k] == s[k]
  }

  /** Later statuses and outcomes of the same invocations: what was over stays as it ended. */
  ghost predicate Settles(s: seq<InvocationStatus>, outcomes: seq<Option<string>>, t: seq<InvocationStatus>, later: seq<Option<string>>) {
    |outcomes| == |s| == |t| == |later|
    && forall k :: 0 <= k < |s| && Terminal(s[k]) ==> t[k] == s[k] && later[k] == outcomes[k]
  }

  lemma {:induction false} EvaluationsStand(deps: seq<Dependency>, i: nat, s: seq<InvocationStatus>, outcomes: seq<Option<string>>,
                                            t: seq<InvocationStatus>, later: seq<Option<string>>)
    requires Settles(s, outcomes, t, later)
    ensures var e, f := Evaluations(deps, i, s, outcomes), Evaluations(deps, i, t, later);
            |e| == |f| && forall k :: 0 <= k < |e| && e[k] != WAITING ==> f[k] == e[k]
  {
    if deps != [] { EvaluationsStand(deps[..|deps| - 1], i, s, outcomes, t, later); }
  }

  /** A decision to run or skip an invocation stands, whatever becomes of those that are not over. */
  lemma DecisionStands(policy: JoinPolicy, deps: seq<Dependency>, i: nat, s: seq<InvocationStatus>, outcomes: seq<Option<string>>,
                       t: seq<InvocationStatus>, later: seq<Option<string>>)
    requires Settles(s, outcomes, t, later) && DecideReadiness(policy, deps, i, s, outcomes) != STAY_PENDING
    ensures DecideReadiness(policy, deps, i, t, later) == DecideReadiness(policy, deps, i, s, outcomes)
  {
    EvaluationsStand(deps, i, s, outcomes, t, later);
    JoinIsStable(policy, Evaluations(deps, i, s, outcomes), Evaluations(deps, i, t, later));
  }

  /** A decision to run or skip an invocation stands, whatever other pending invocations become. */
  lemma DecisionIsStable(policy: JoinPolicy, deps: seq<Dependency>, i: nat, s: seq<InvocationStatus>, t: seq<InvocationStatus>,
                         outcomes: seq<Option<string>>)
    requires |outcomes| == |s| && Extends(s, t)
    requires DecideReadiness(policy, deps, i, s, outcomes) != STAY_PENDING
    ensures DecideReadiness(policy, deps, i, t, outcomes) == DecideReadiness(policy, deps, i, s, outcomes)
  {
    DecisionStands(policy, deps, i, s, outcomes, t, outcomes);
  }

  lemma JoinIsStable(policy: JoinPolicy, e: seq<Evaluation>, f: seq<Evaluation>)
    requires |e| == |f| && forall k :: 0 <= k < |e| && e[k] != WAITING ==> f[k] == e[k]
    requires DecideJoin(policy, e) != STAY_PENDING
    ensures DecideJoin(policy, f) == DecideJoin(policy, e)
  {
    if e != [] {
      match policy
      case ALL_SETTLED =>
        forall k | 0 <= k < |f| ensures f[k] != WAITING { assert e[k] in e; }
      case ANY_REQUIRED =>
        if SATISFIED in e {
          var k :| 0 <= k < |e| && e[k] == SATISFIED;
          assert f[k] == SATISFIED;
        } else {
          forall k | 0 <= k < |f| ensures f[k] == IMPOSSIBLE { assert e[k] == IMPOSSIBLE; }
        }
      case ALL_REQUIRED =>
        if IMPOSSIBLE in e {
          var k :| 0 <= k < |e| && e[k] == IMPOSSIBLE;
          assert f[k] == IMPOSSIBLE;
        } else {
          forall k | 0 <= k < |f| ensures f[k] == SATISFIED { assert e[k] == SATISFIED; }
        }
    }
  }

  lemma {:induction false} SettledSourcesEvaluate(deps: seq<Dependency>, i: nat, states: seq<InvocationStatus>, outcomes: seq<Option<string>>)
    requires |outcomes| == |states|
    requires forall d :: d in deps && d.to == i ==> d.from < |states| && Terminal(states[d.from])
    ensures WAITING !in Evaluations(deps, i, states, outcomes)
  {
    if deps != [] {
      var n := |deps| - 1;
      assert deps[n] in deps;
      SettledSourcesEvaluate(deps[..n], i, states, outcomes);
    }
  }

  /** Once every source is terminal, every join policy decides. */
  lemma SettledSourcesDecide(policy: JoinPolicy, deps: seq<Dependency>, i: nat, states: seq<InvocationStatus>, outcomes: seq<Option<string>>)
    requires |outcomes| == |states|
    requires forall d :: d in deps && d.to == i ==> d.from < |states| && Terminal(states[d.from])
    ensures DecideReadiness(policy, deps, i, states, outcomes) != STAY_PENDING
  {
    SettledSourcesEvaluate(deps, i, states, outcomes);
    var es := Evaluations(deps, i, states, outcomes);
    forall k | 0 <= k < |es| ensures es[k] != WAITING { assert es[k] in es; }
  }

  // ---- What the decision means for the sources ----

  /** The condition of a dependency came true: its source ended as the condition asks. */
  predicate Met(d: Dependency, states: seq<InvocationStatus>, outcomes: seq<Option<string>>)
    requires |outcomes| == |states|
  {
    d.from < |states| &&
    match d.condition
    case DATA => states[d.from] == COMPLETED
    case ON_SUCCESS => states[d.from] == COMPLETED
    case ON_FAILURE => states[d.from] == FAILED
    case ALWAYS => states[d.from] in {COMPLETED, FAILED, SKIPPED, CANCELED}
    case OUTCOME(o) => states[d.from] == COMPLETED && outcomes[d.from] == Some(o)
  }

  /** Its source ended, but otherwise. */
  predicate Missed(d: Dependency, states: seq<InvocationStatus>, outcomes: seq<Option<string>>)
    requires |outcomes| == |states|
  {
    d.from < |states| && states[d.from] in {COMPLETED, FAILED, SKIPPED, CANCELED} && !Met(d, states, outcomes)
  }

  ghost predicate SomeInto(deps: seq<Dependency>, i: nat, holds: Dependency -> bool) { exists d :: d in deps && d.to == i && holds(d) }

  ghost predicate AllInto(deps: seq<Dependency>, i: nat, holds: Dependency -> bool) { forall d :: d in deps && d.to == i ==> holds(d) }

  function IsMet(states: seq<InvocationStatus>, outcomes: seq<Option<string>>): Dependency -> bool
    requires |outcomes| == |states|
  {
    (d: Dependency) => Met(d, states, outcomes)
  }

  function IsMissed(states: seq<InvocationStatus>, outcomes: seq<Option<string>>): Dependency -> bool
    requires |outcomes| == |states|
  {
    (d: Dependency) => Missed(d, states, outcomes)
  }

  function IsInto(): Dependency -> bool { (d: Dependency) => true }

  ghost predicate InRange(deps: seq<Dependency>, n: nat) { forall d :: d in deps ==> d.from < n }

  /** The evaluations are exactly those of the dependencies into i. */
  lemma {:induction false} EvaluationsTell(deps: seq<Dependency>, i: nat, states: seq<InvocationStatus>, outcomes: seq<Option<string>>)
    requires |outcomes| == |states| && InRange(deps, |states|)
    ensures var es := Evaluations(deps, i, states, outcomes);
            && (es == [] <==> !SomeInto(deps, i, IsInto()))
            && (SATISFIED in es <==> SomeInto(deps, i, IsMet(states, outcomes)))
            && (IMPOSSIBLE in es <==> SomeInto(deps, i, IsMissed(states, outcomes)))
            && (Every(es, SATISFIED) <==> AllInto(deps, i, IsMet(states, outcomes)))
            && (Every(es, IMPOSSIBLE) <==> AllInto(deps, i, IsMissed(states, outcomes)))
  {
    if deps != [] {
      var n := |deps| - 1;
      EvaluationsTell(deps[..n], i, states, outcomes);
      LastInto(deps, i, IsInto());
      LastInto(deps, i, IsMet(states, outcomes));
      LastInto(deps, i, IsMissed(states, outcomes));
      EvaluationTells(deps[n], states, outcomes);
      LastEvaluation(deps, i, states, outcomes);
      assert deps[n] in deps;
      if deps[n].to == i {
        var front := Evaluations(deps[..n], i, states, outcomes);
        var e := EvaluateCondition(deps[n].condition, states[deps[n].from], outcomes[deps[n].from]);
        EveryLast(front, e, SATISFIED);
        EveryLast(front, e, IMPOSSIBLE);
      }
    }
  }

  lemma EveryLast(front: seq<Evaluation>, last: Evaluation, e: Evaluation)
    ensures Every(front + [last], e) <==> Every(front, e) && last == e
  {
    assert forall k :: 0 <= k < |front| ==> (front + [last])[k] == front[k];
    assert (front + [last])[|front|] == last;
  }

  lemma LastInto(deps: seq<Dependency>, i: nat, holds: Dependency -> bool)
    requires deps != []
    ensures var n := |deps| - 1;
            && (SomeInto(deps, i, holds) <==> SomeInto(deps[..n], i, holds) || (deps[n].to == i && holds(deps[n])))
            && (AllInto(deps, i, holds) <==> AllInto(deps[..n], i, holds) && (deps[n].to == i ==> holds(deps[n])))
  {
    var n := |deps| - 1;
    assert deps == deps[..n] + [deps[n]];
  }

  lemma EvaluationTells(d: Dependency, states: seq<InvocationStatus>, outcomes: seq<Option<string>>)
    requires |outcomes| == |states| && d.from < |states|
    ensures var e := EvaluateCondition(d.condition, states[d.from], outcomes[d.from]);
            (e == SATISFIED <==> Met(d, states, outcomes)) && (e == IMPOSSIBLE <==> Missed(d, states, outcomes))
  {}

  lemma LastEvaluation(deps: seq<Dependency>, i: nat, states: seq<InvocationStatus>, outcomes: seq<Option<string>>)
    requires |outcomes| == |states| && InRange(deps, |states|) && deps != []
    ensures var n := |deps| - 1;
            Evaluations(deps, i, states, outcomes) ==
            Evaluations(deps[..n], i, states, outcomes)
            + if deps[n].to == i then [EvaluateCondition(deps[n].condition, states[deps[n].from], outcomes[deps[n].from])] else []
  {
    var n := |deps| - 1;
    assert deps[n] in deps;
    assert Evaluations(deps[..n], i, states, outcomes) + [] == Evaluations(deps[..n], i, states, outcomes);
  }

  /**
   * When an invocation runs and when it is skipped, by how its sources ended: with all required, it runs once
   * every condition is met and is skipped once one is missed; with any required, it runs once one is met and
   * is skipped once all are missed; with all settled it runs once all sources ended, and is never skipped.
   * Without sources it always runs.
   */
  lemma DecisionTells(policy: JoinPolicy, deps: seq<Dependency>, i: nat, states: seq<InvocationStatus>, outcomes: seq<Option<string>>)
    requires |outcomes| == |states| && InRange(deps, |states|)
    ensures var r := DecideReadiness(policy, deps, i, states, outcomes);
            var met, missed := IsMet(states, outcomes), IsMissed(states, outcomes);
            match policy
            case ALL_REQUIRED => (r == BECOME_READY <==> AllInto(deps, i, met)) && (r == BECOME_SKIPPED <==> SomeInto(deps, i, missed))
            case ANY_REQUIRED =>
              && (r == BECOME_READY <==> SomeInto(deps, i, met) || !SomeInto(deps, i, IsInto()))
              && (r == BECOME_SKIPPED <==> AllInto(deps, i, missed) && SomeInto(deps, i, IsInto()))
            case ALL_SETTLED =>
              && r != BECOME_SKIPPED
              && (r == BECOME_READY <==> forall d :: d in deps && d.to == i ==> Met(d, states, outcomes) || Missed(d, states, outcomes))
  {
    var es := Evaluations(deps, i, states, outcomes);
    EvaluationsTell(deps, i, states, outcomes);
    assert Every(es, SATISFIED) ==> IMPOSSIBLE !in es;
    assert es != [] && Every(es, IMPOSSIBLE) ==> SATISFIED !in es;
    WaitingTells(deps, i, states, outcomes);
  }

  lemma {:induction false} WaitingTells(deps: seq<Dependency>, i: nat, states: seq<InvocationStatus>, outcomes: seq<Option<string>>)
    requires |outcomes| == |states| && InRange(deps, |states|)
    ensures WAITING in Evaluations(deps, i, states, outcomes) <==>
              exists d :: d in deps && d.to == i && !Met(d, states, outcomes) && !Missed(d, states, outcomes)
  {
    if deps != [] {
      var n := |deps| - 1;
      WaitingTells(deps[..n], i, states, outcomes);
      EvaluationTells(deps[n], states, outcomes);
      LastEvaluation(deps, i, states, outcomes);
      assert deps == deps[..n] + [deps[n]];
    }
  }
}
