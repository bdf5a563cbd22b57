/**
 * Admission to the local inference provider (packages/ai/src/local-inference-provider.ts): the slots
 * with their first-in-first-out queue, and the circuit breaker with its half-open probe.
 */
module LocalInference {
  import opened Basics

  // ---- Slots ----

  datatype Slots = Slots(active: nat, waiters: seq<nat>)

  datatype Acquisition = Acquired | Queued | Overloaded

  function Acquire(s: Slots, id: nat, maxActive: nat, maxQueue: nat): (Slots, Acquisition) {
    if s.active < maxActive then (s.(active := s.active + 1), Acquired)
    else if |s.waiters| >= maxQueue then (s, Overloaded)
    else (s.(waiters := s.waiters + [id]), Queued)
  }

  /** A slot that is given back goes to the first waiter, if there is one. */
  function ReleaseSlot(s: Slots): (Slots, Option<nat>) {
    var active := if s.active > 0 then s.active - 1 else 0;
    if s.waiters == [] then (s.(active := active), None)
    else (Slots(active + 1, s.waiters[1..]), Some(s.waiters[0]))
  }

  function Without(w: seq<nat>, id: nat): (r: seq<nat>)
    ensures |r| <= |w|
    ensures forall x :: x in r ==> x in w
    ensures id !in w ==> r == w
  {
    if w == [] then [] else if w[0] == id then w[1..] else [w[0]] + Without(w[1..], id)
  }

  function AbortWait(s: Slots, id: nat): Slots { s.(waiters := Without(s.waiters, id)) }

  // ---- Circuit breaker ----

  datatype Permit = Permit(generation: nat, halfOpen: bool)

  datatype Circuit = Circuit(failures: nat, openUntil: int, probing: bool, generation: nat)

  function OpenCircuit(c: Circuit, now: int, resetMs: nat): Circuit {
    c.(openUntil := now + resetMs, probing := false, generation := c.generation + 1)
  }

  /** None is the thrown CIRCUIT_OPEN. */
  function ClaimPermission(c: Circuit, now: int): (Circuit, Option<Permit>) {
    if c.openUntil > now then (c, None)
    else if c.openUntil > 0 then (if c.probing then (c, None) else (c.(probing := true), Some(Permit(c.generation, true))))
    else (c, Some(Permit(c.generation, false)))
  }

  function RecordSuccess(c: Circuit, p: Permit): Circuit {
    if p.generation != c.generation then c
    else if p.halfOpen then Circuit(0, 0, false, c.generation + 1)
    else if c.openUntil == 0 then c.(failures := 0)
    else c
  }

  function RecordFailure(c: Circuit, p: Permit, now: int, threshold: nat, resetMs: nat): Circuit {
    if p.generation != c.generation then c
    else if p.halfOpen then OpenCircuit(c, now, resetMs)
    else
      var counted := c.(failures := c.failures + 1);
      if counted.failures >= threshold then OpenCircuit(counted, now, resetMs) else counted
  }

  function ReleasePermit(c: Circuit, p: Permit): Circuit {
    if p.halfOpen && p.generation == c.generation && c.openUntil > 0 then c.(probing := false) else c
  }

  // ---- The provider object ----

  class LocalInferenceProvider {
    const maxConcurrentRequests: nat
    const maxQueueDepth: nat
    const failureThreshold: nat
    const resetMs: nat
    var activeRequests: nat
    var waiters: seq<nat>
    var consecutiveFailures: nat
    var openUntilMs: int
    var halfOpenInFlight: bool
    var circuitGeneration: nat
    /** The requests that hold a slot. */
    ghost var holders: set<nat>

    ghost function SlotState(): Slots
      reads this
    {
      Slots(activeRequests, waiters)
    }

    ghost function CircuitState(): Circuit
      reads this
    {
      Circuit(consecutiveFailures, openUntilMs, halfOpenInFlight, circuitGeneration)
    }

    /** Slots are counted exactly, nobody waits while a slot is free, and no request waits twice or while holding. */
    ghost predicate Valid()
      reads this
    {
      && maxConcurrentRequests > 0
      && activeRequests == |holders| && activeRequests <= maxConcurrentRequests
      && |waiters| <= maxQueueDepth && (waiters != [] ==> activeRequests == maxConcurrentRequests)
      && (forall j, k :: 0 <= j < k < |waiters| ==> waiters[j] != waiters[k])
      && (forall k :: 0 <= k < |waiters| ==> waiters[k] !in holders)
    }

    constructor (maxConcurrentRequests: nat, maxQueueDepth: nat, failureThreshold: nat, resetMs: nat)
      requires maxConcurrentRequests > 0
      ensures Valid() && holders == {} && waiters == [] && CircuitState() == Circuit(0, 0, false, 0)
    {
      this.maxConcurrentRequests, this.maxQueueDepth := maxConcurrentRequests, maxQueueDepth;
      this.failureThreshold, this.resetMs := failureThreshold, resetMs;
      activeRequests, waiters, holders := 0, [], {};
      consecutiveFailures, openUntilMs, halfOpenInFlight, circuitGeneration := 0, 0, false, 0;
    }

    method AcquireSlot(id: nat) returns (r: Acquisition)
      requires Valid() && id !in holders && id !in waiters
      modifies this`activeRequests, this`waiters, this`holders
      ensures Valid() && (SlotState(), r) == Acquire(old(SlotState()), id, maxConcurrentRequests, maxQueueDepth)
      ensures holders == old(holders) + if r == Acquired then {id} else {}
      ensures r == Acquired <==> old(|holders|) < maxConcurrentRequests
      ensures r == Overloaded <==> old(|holders|) == maxConcurrentRequests && old(|waiters|) == maxQueueDepth
      ensures waiters == old(waiters) + if r == Queued then [id] else []
    {
      if activeRequests < maxConcurrentRequests {
        activeRequests := activeRequests + 1;
        holders := holders + {id};
        return Acquired;
      }
      if |waiters| >= maxQueueDepth { return Overloaded; }
      waiters := waiters + [id];
      r := Queued;
    }

    /** A holder gives its slot back, which a request does once; the longest waiting request gets it. */
    method GiveSlotBack(id: nat) returns (woken: Option<nat>)
      requires Valid() && id in holders
      modifies this`activeRequests, this`waiters, this`holders
      ensures Valid() && (SlotState(), woken) == ReleaseSlot(old(SlotState()))
      ensures holders == old(holders) - {id} + if woken.Some? then {woken.value} else {}
      ensures old(waiters) != [] ==> woken == Some(old(waiters)[0])
    {
      holders := holders - {id};
      activeRequests := Max(0, activeRequests - 1);
      woken := None;
      if |waiters| > 0 {
        var waiter := waiters[0];
        waiters := waiters[1..];
        activeRequests := activeRequests + 1;
        holders := holders + {waiter};
        woken := Some(waiter);
      }
    }

    method AbandonQueue(id: nat)
      requires Valid()
      modifies this`waiters
      ensures Valid() && SlotState() == AbortWait(old(SlotState()), id)
      ensures id !in old(waiters) ==> waiters == old(waiters)
      ensures forall k :: 0 <= k < |old(waiters)| && old(waiters)[k] == id ==> waiters == old(waiters)[..k] + old(waiters)[k + 1..]
    {
      WithoutKeepsOrder(waiters, id);
      ghost var before := waiters;
      forall k | 0 <= k < |waiters| && waiters[k] == id ensures Without(waiters, id) == waiters[..k] + waiters[k + 1..] {
        WithoutTakesOne(waiters, id, k);
      }
      waiters := Without(waiters, id);
      forall k | 0 <= k < |waiters| ensures waiters[k] !in holders { assert waiters[k] in before; }
    }

    method ClaimCircuitPermission(now: int) returns (permit: Option<Permit>)
      modifies this`halfOpenInFlight
      ensures (CircuitState(), permit) == ClaimPermission(old(CircuitState()), now)
    {
      if openUntilMs > now { return None; }
      if openUntilMs > 0 {
        if halfOpenInFlight { return None; }
        halfOpenInFlight := true;
        return Some(Permit(circuitGeneration, true));
      }
      permit := Some(Permit(circuitGeneration, false));
    }

    method NoteSuccess(permit: Permit)
      modifies this`consecutiveFailures, this`openUntilMs, this`halfOpenInFlight, this`circuitGeneration
      ensures CircuitState() == RecordSuccess(old(CircuitState()), permit)
    {
      if permit.generation != circuitGeneration { return; }
      if permit.halfOpen {
        consecutiveFailures, openUntilMs, halfOpenInFlight := 0, 0, false;
        circuitGeneration := circuitGeneration + 1;
        return;
      }
      if openUntilMs == 0 { consecutiveFailures := 0; }
    }

    method NoteFailure(permit: Permit, now: int)
      modifies this`consecutiveFailures, this`openUntilMs, this`halfOpenInFlight, this`circuitGeneration
      ensures CircuitState() == RecordFailure(old(CircuitState()), permit, now, failureThreshold, resetMs)
    {
      if permit.generation != circuitGeneration { return; }
      if permit.halfOpen {
        Open(now);
        return;
      }
      consecutiveFailures := consecutiveFailures + 1;
      if consecutiveFailures >= failureThreshold { Open(now); }
    }

    method Open(now: int)
      modifies this`openUntilMs, this`halfOpenInFlight, this`circuitGeneration
      ensures CircuitState() == OpenCircuit(old(CircuitState()), now, resetMs)
    {
      openUntilMs, halfOpenInFlight, circuitGeneration := now + resetMs, false, circuitGeneration + 1;
    }

    method ReleaseHalfOpenPermit(permit: Permit)
      modifies this`halfOpenInFlight
      ensures CircuitState() == ReleasePermit(old(CircuitState()), permit)
    {
      if permit.halfOpen && permit.generation == circuitGeneration && openUntilMs > 0 { halfOpenInFlight := false; }
    }
  }

  lemma {:induction false} WithoutKeepsOrder(w: seq<nat>, id: nat)
    requires forall j, k :: 0 <= j < k < |w| ==> w[j] != w[k]
    ensures forall j, k :: 0 <= j < k < |Without(w, id)| ==> Without(w, id)[j] != Without(w, id)[k]
    ensures id !in Without(w, id)
  {
    if w != [] && w[0] != id {
      WithoutKeepsOrder(w[1..], id);
      assert w[0] !in w[1..];
    }
  }

  /** Only the first place of a request is taken out; everybody else keeps theirs. */
  lemma {:induction false} WithoutTakesOne(w: seq<nat>, id: nat, k: nat)
    requires k < |w| && w[k] == id && id !in w[..k]
    ensures Without(w, id) == w[..k] + w[k + 1..]
  {
    if k > 0 {
      var tail := w[1..];
      assert w[..k][0] == w[0] && tail[..k - 1] == w[..k][1..];
      WithoutTakesOne(tail, id, k - 1);
      assert tail[k..] == w[k + 1..];
    }
  }

  // ---- The circuit over runs ----

  /** What a request does with a permit it was given: record how it went, or hand it back, in any order and number. */
  datatype Use =
    | Claim(now: nat)
    | Succeed(k: nat)
    | Fail(k: nat, now: nat)
    | Release(k: nat)

  datatype Config = Config(threshold: nat, resetMs: nat)

  /** The constructor refuses a threshold or a reset time that is not positive. */
  predicate Positive(cfg: Config) { cfg.threshold > 0 && cfg.resetMs > 0 }

  /** A breaker with every permit it gave out, which of them were recorded and which were released. */
  datatype Breaker = Breaker(circuit: Circuit, permits: seq<Permit>, recorded: set<nat>, released: set<nat>)

  function Step(b: Breaker, u: Use, cfg: Config): Breaker {
    match u
    case Claim(now) =>
      var (c, permit) := ClaimPermission(b.circuit, now);
      if permit.None? then b else b.(circuit := c, permits := b.permits + [permit.value])
    case Succeed(k) =>
      if k >= |b.permits| then b else b.(circuit := RecordSuccess(b.circuit, b.permits[k]), recorded := b.recorded + {k})
    case Fail(k, now) =>
      if k >= |b.permits| then b
      else b.(circuit := RecordFailure(b.circuit, b.permits[k], now, cfg.threshold, cfg.resetMs), recorded := b.recorded + {k})
    case Release(k) =>
      if k >= |b.permits| then b else b.(circuit := ReleasePermit(b.circuit, b.permits[k]), released := b.released + {k})
  }

  function RunUses(b: Breaker, uses: seq<Use>, cfg: Config): Breaker
    decreases |uses|
  {
    if uses == [] then b else RunUses(Step(b, uses[0], cfg), uses[1..], cfg)
  }

  /** A permit of the generation the circuit is in; others are dead. */
  predicate Live(b: Breaker, k: nat) { k < |b.permits| && b.permits[k].generation == b.circuit.generation }

  /** A probe that is out: a live half-open permit neither recorded nor released. */
  predicate Probes(b: Breaker, k: nat) { Live(b, k) && b.permits[k].halfOpen && k !in b.recorded && k !in b.released }

  /** One probe at most is out, and while it is, nobody else is let through. */
  ghost predicate Guarded(b: Breaker) {
    && (forall j: nat, k: nat :: Probes(b, j) && Probes(b, k) ==> j == k)
    && (forall k: nat, now: nat :: Probes(b, k) ==> ClaimPermission(b.circuit, now).1.None?)
  }

  ghost predicate BreakerInv(b: Breaker) {
    && (forall j: nat, k: nat :: Probes(b, j) && Probes(b, k) ==> j == k)
    && (b.circuit.probing <==> exists k: nat :: Probes(b, k))
    && (forall k :: 0 <= k < |b.permits| ==> b.permits[k].generation <= b.circuit.generation)
    && (forall k :: k in b.recorded || k in b.released ==> k < |b.permits|)
    && (forall k: nat :: Live(b, k) ==> (b.permits[k].halfOpen <==> b.circuit.openUntil > 0))
    && (forall k :: k in b.recorded ==> Live(b, k) ==> !b.permits[k].halfOpen)
    && b.circuit.openUntil >= 0
  }

  /** The release that hurts: of a live half-open permit released before, while another probe is out. */
  predicate FreesAnother(b: Breaker, u: Use) {
    u.Release? && Live(b, u.k) && b.permits[u.k].halfOpen && u.k in b.released && b.circuit.probing
  }

  lemma ClaimKeepsInv(b: Breaker, now: nat, cfg: Config)
    requires BreakerInv(b)
    ensures BreakerInv(Step(b, Claim(now), cfg))
  {
    var c := Step(b, Claim(now), cfg);
    var n := |b.permits|;
    if c != b {
      assert c.permits[..n] == b.permits;
      forall k: nat ensures k < n ==> Live(c, k) == Live(b, k) && Probes(c, k) == Probes(b, k) {}
      if c.circuit.probing && !b.circuit.probing { assert Probes(c, n); }
    }
  }

  lemma RecordKeepsInv(b: Breaker, u: Use, cfg: Config)
    requires BreakerInv(b) && Positive(cfg) && (u.Succeed? || u.Fail?)
    ensures BreakerInv(Step(b, u, cfg))
  {
    var c := Step(b, u, cfg);
    forall k: nat ensures Probes(c, k) ==> Probes(b, k) {}
    if c.circuit.generation == b.circuit.generation {
      forall k: nat ensures Probes(b, k) ==> Probes(c, k) {}
    }
  }

  lemma ReleaseKeepsInv(b: Breaker, k: nat, cfg: Config)
    requires BreakerInv(b) && !FreesAnother(b, Release(k))
    ensures BreakerInv(Step(b, Release(k), cfg))
  {
    var c := Step(b, Release(k), cfg);
    forall j: nat ensures Probes(c, j) <==> Probes(b, j) && j != k {}
    if Live(b, k) && b.permits[k].halfOpen && b.circuit.probing { assert Probes(b, k); }
  }

  lemma InvIsGuarded(b: Breaker)
    requires BreakerInv(b)
    ensures Guarded(b)
  {}

  lemma FreeingUnguards(b: Breaker, u: Use, cfg: Config)
    requires BreakerInv(b) && FreesAnother(b, u)
    ensures !Guarded(Step(b, u, cfg))
  {
    var c := Step(b, u, cfg);
    var j: nat :| Probes(b, j);
    assert Probes(c, j);
    assert ClaimPermission(c.circuit, c.circuit.openUntil).1.Some?;
  }

  ghost predicate StaysGuarded(b: Breaker, uses: seq<Use>, cfg: Config)
    decreases |uses|
  {
    Guarded(b) && (uses == [] || StaysGuarded(Step(b, uses[0], cfg), uses[1..], cfg))
  }

  predicate NeverFreesAnother(b: Breaker, uses: seq<Use>, cfg: Config)
    decreases |uses|
  {
    uses == [] || (!FreesAnother(b, uses[0]) && NeverFreesAnother(Step(b, uses[0], cfg), uses[1..], cfg))
  }

  /**
   * Over every run, a half-open circuit lets one probe through at a time exactly when no live permit is
   * released a second time while another probe is out.
   */
  lemma {:induction false} OneProbeAtATime(b: Breaker, uses: seq<Use>, cfg: Config)
    requires BreakerInv(b) && Positive(cfg)
    ensures StaysGuarded(b, uses, cfg) <==> NeverFreesAnother(b, uses, cfg)
    decreases |uses|
  {
    InvIsGuarded(b);
    if uses != [] {
      var c := Step(b, uses[0], cfg);
      if FreesAnother(b, uses[0]) {
        FreeingUnguards(b, uses[0], cfg);
        assert !StaysGuarded(c, uses[1..], cfg);
      } else {
        StepKeepsInv(b, uses[0], cfg);
        OneProbeAtATime(c, uses[1..], cfg);
      }
    }
  }

  lemma StepKeepsInv(b: Breaker, u: Use, cfg: Config)
    requires BreakerInv(b) && Positive(cfg) && !FreesAnother(b, u)
    ensures BreakerInv(Step(b, u, cfg))
  {
    match u
    case Claim(now) => ClaimKeepsInv(b, now, cfg);
    case Release(k) => ReleaseKeepsInv(b, k, cfg);
    case _ => RecordKeepsInv(b, u, cfg);
  }

  /**
   * Requests that hand a permit back twice only once it was recorded, as every stream does that ends
   * without an abort, or once it is dead, as a refreshed permit is.
   */
  predicate RecordsBeforeReleasingAgain(b: Breaker, uses: seq<Use>, cfg: Config)
    decreases |uses|
  {
    uses == []
    || ((uses[0].Release? && uses[0].k in b.released ==> uses[0].k in b.recorded || !Live(b, uses[0].k))
        && RecordsBeforeReleasingAgain(Step(b, uses[0], cfg), uses[1..], cfg))
  }

  /** Such requests, however interleaved, keep one probe at a time. */
  lemma {:induction false} RecordedStreamsKeepOneProbe(b: Breaker, uses: seq<Use>, cfg: Config)
    requires BreakerInv(b) && Positive(cfg) && RecordsBeforeReleasingAgain(b, uses, cfg)
    ensures StaysGuarded(b, uses, cfg)
    decreases |uses|
  {
    InvIsGuarded(b);
    if uses != [] {
      StepKeepsInv(b, uses[0], cfg);
      RecordedStreamsKeepOneProbe(Step(b, uses[0], cfg), uses[1..], cfg);
    }
  }

  /** A breaker that opened until time 10 and has given out no permit since. */
  function Opened(): Breaker { Breaker(Circuit(1, 10, false, 1), [], {}, {}) }

  /** An aborted probe that is released twice, the second time after the next probe went out, lets a third one out beside it. */
  lemma TwoProbes(cfg: Config)
    ensures BreakerInv(Opened())
    ensures var b := RunUses(Opened(), [Claim(20), Release(0), Claim(21), Release(0), Claim(22)], cfg);
            Probes(b, 1) && Probes(b, 2)
  {
    var half := Permit(1, true);
    var c0, c1 := Circuit(1, 10, false, 1), Circuit(1, 10, true, 1);
    var b1, b2 := Breaker(c1, [half], {}, {}), Breaker(c0, [half], {}, {0});
    var b3, b4 := Breaker(c1, [half, half], {}, {0}), Breaker(c0, [half, half], {}, {0});
    var b5 := Breaker(c1, [half, half, half], {}, {0});
    Probed(Opened(), 20, cfg);
    Probed(b2, 21, cfg);
    Probed(b4, 22, cfg);
    assert b1.permits == [half] && b3.permits == [half, half] && b5.permits == [half, half, half];
    assert Step(b1, Release(0), cfg) == b2;
    assert Step(b3, Release(0), cfg) == b4;
    RunOfFive(Opened(), Claim(20), Release(0), Claim(21), Release(0), Claim(22), cfg);
  }

  lemma Probed(b: Breaker, now: nat, cfg: Config)
    requires 0 < b.circuit.openUntil <= now && !b.circuit.probing
    ensures Step(b, Claim(now), cfg) ==
            b.(circuit := b.circuit.(probing := true), permits := b.permits + [Permit(b.circuit.generation, true)])
  {}

  lemma RunOfFive(b: Breaker, u: Use, v: Use, w: Use, x: Use, y: Use, cfg: Config)
    ensures RunUses(b, [u, v, w, x, y], cfg) == Step(Step(Step(Step(Step(b, u, cfg), v, cfg), w, cfg), x, cfg), y, cfg)
  {
    assert [u, v, w, x, y][1..] == [v, w, x, y] && [v, w, x, y][1..] == [w, x, y];
    assert [w, x, y][1..] == [x, y] && [x, y][1..] == [y] && [y][1..] == [];
    var b1 := Step(b, u, cfg);
    var b2 := Step(b1, v, cfg);
    var b3 := Step(b2, w, cfg);
    assert RunUses(b2, [w, x, y], cfg) == RunUses(b3, [x, y], cfg);
    assert RunUses(b3, [x, y], cfg) == RunUses(Step(b3, x, cfg), [y], cfg);
  }

  /**
   * Releasing a spent permit again lets a second probe in exactly when that permit is a probe of the
   * generation in which another probe is out.
   */
  lemma SecondReleaseAdmits(b: Breaker, k: nat, now: int)
    requires BreakerInv(b) && k in b.released && k < |b.permits| && b.circuit.probing && b.circuit.openUntil <= now
    ensures ClaimPermission(b.circuit, now).1.None?
    ensures ClaimPermission(ReleasePermit(b.circuit, b.permits[k]), now).1.Some? <==> FreesAnother(b, Release(k))
  {
    var j: nat :| Probes(b, j);
  }

  // ---- When a closed circuit opens ----

  predicate Closed(b: Breaker) { b.circuit.openUntil == 0 }

  /** A failure of a request admitted since the circuit last closed. */
  predicate CountsAgainst(b: Breaker, u: Use) { u.Fail? && Live(b, u.k) && !b.permits[u.k].halfOpen }

  /** A success of a request of this generation, the probe's included. */
  predicate ClearsFailures(b: Breaker, u: Use) { u.Succeed? && Live(b, u.k) }

  function NextStreak(b: Breaker, u: Use, streak: nat): nat {
    if ClearsFailures(b, u) then 0 else if CountsAgainst(b, u) then streak + 1 else streak
  }

  /** The failures since the last success, over a run that begins with `streak` of them. */
  function Streak(b: Breaker, uses: seq<Use>, streak: nat, cfg: Config): nat
    decreases |uses|
  {
    if uses == [] then streak else Streak(Step(b, uses[0], cfg), uses[1..], NextStreak(b, uses[0], streak), cfg)
  }

  /** A closed breaker has seen `streak` failures in a row, too few to open; a half-open one has no closed permits. */
  ghost predicate Counts(b: Breaker, streak: nat, cfg: Config) {
    && (forall k :: 0 <= k < |b.permits| ==> b.permits[k].generation <= b.circuit.generation)
    && (forall k: nat :: Live(b, k) ==> (b.permits[k].halfOpen <==> b.circuit.openUntil > 0))
    && b.circuit.openUntil >= 0
    && (Closed(b) ==> b.circuit.failures == streak < cfg.threshold)
  }

  lemma StepCounts(b: Breaker, u: Use, streak: nat, cfg: Config)
    requires Counts(b, streak, cfg) && Positive(cfg)
    ensures Counts(Step(b, u, cfg), NextStreak(b, u, streak), cfg)
    ensures Closed(b) ==> (!Closed(Step(b, u, cfg)) <==> CountsAgainst(b, u) && streak + 1 == cfg.threshold)
  {
    var c := Step(b, u, cfg);
    forall k: nat | Live(c, k) ensures c.permits[k].halfOpen <==> c.circuit.openUntil > 0 {
      if k < |b.permits| { assert c.permits[k] == b.permits[k]; }
    }
  }

  /**
   * Over every run, a closed circuit has seen fewer failures in a row than the threshold, and it opens
   * exactly at the failure that is the threshold-th since the last success; successes and failures count
   * whatever stale permits of earlier generations report in between.
   */
  lemma {:induction false} OpensAtThreshold(b: Breaker, uses: seq<Use>, u: Use, streak: nat, cfg: Config)
    requires Counts(b, streak, cfg) && Positive(cfg)
    ensures var c, n := RunUses(b, uses, cfg), Streak(b, uses, streak, cfg);
            Closed(c) ==>
              && c.circuit.failures == n < cfg.threshold
              && (!Closed(Step(c, u, cfg)) <==> CountsAgainst(c, u) && n + 1 == cfg.threshold)
    decreases |uses|
  {
    if uses == [] {
      StepCounts(b, u, streak, cfg);
    } else {
      StepCounts(b, uses[0], streak, cfg);
      OpensAtThreshold(Step(b, uses[0], cfg), uses[1..], u, NextStreak(b, uses[0], streak), cfg);
    }
  }

  /** Over every run, a permit of an earlier generation stays dead, and whatever its request still reports leaves the circuit as it is. */
  lemma {:induction false} DeadPermitsStayDead(b: Breaker, uses: seq<Use>, k: nat, now: nat, cfg: Config)
    requires k < |b.permits| && b.permits[k].generation < b.circuit.generation
    ensures var c := RunUses(b, uses, cfg);
            && k < |c.permits| && !Live(c, k)
            && Step(c, Succeed(k), cfg).circuit == Step(c, Fail(k, now), cfg).circuit == Step(c, Release(k), cfg).circuit == c.circuit
    decreases |uses|
  {
    if uses != [] {
      GenerationsGrow(b, uses[0], k, cfg);
      DeadPermitsStayDead(Step(b, uses[0], cfg), uses[1..], k, now, cfg);
    }
  }

  lemma GenerationsGrow(b: Breaker, u: Use, k: nat, cfg: Config)
    requires k < |b.permits|
    ensures var c := Step(b, u, cfg); k < |c.permits| && c.permits[k] == b.permits[k] && b.circuit.generation <= c.circuit.generation
  {}

  // ---- The reset time ----

  /** Uses while the circuit is shut: claims before the given time, and whatever permits of earlier generations report. */
  predicate WhileShut(b: Breaker, uses: seq<Use>, until: int) {
    forall j :: 0 <= j < |uses| ==>
      if uses[j].Claim? then uses[j].now < until
      else uses[j].k < |b.permits| && b.permits[uses[j].k].generation < b.circuit.generation
  }

  lemma {:induction false} ShutStays(b: Breaker, uses: seq<Use>, cfg: Config)
    requires b.circuit.openUntil > 0 && WhileShut(b, uses, b.circuit.openUntil)
    ensures RunUses(b, uses, cfg).circuit == b.circuit && RunUses(b, uses, cfg).permits == b.permits
    decreases |uses|
  {
    if uses != [] {
      var c := Step(b, uses[0], cfg);
      assert c.circuit == b.circuit && c.permits == b.permits;
      assert WhileShut(c, uses[1..], c.circuit.openUntil) by {
        forall j | 0 <= j < |uses[1..]|
          ensures if uses[1..][j].Claim? then uses[1..][j].now < c.circuit.openUntil
                  else uses[1..][j].k < |c.permits| && c.permits[uses[1..][j].k].generation < c.circuit.generation
        {
          assert uses[1..][j] == uses[j + 1];
        }
      }
      ShutStays(c, uses[1..], cfg);
    }
  }

  /**
   * After the failure at t that opens the circuit nobody is let through before t + resetMs, whatever older
   * requests still report; the first claim from then on is let through, as the one probe.
   */
  lemma OpenForResetTime(b: Breaker, k: nat, t: nat, uses: seq<Use>, now: nat, cfg: Config)
    requires BreakerInv(b) && Positive(cfg) && Step(b, Fail(k, t), cfg).circuit.generation > b.circuit.generation
    requires WhileShut(Step(b, Fail(k, t), cfg), uses, t + cfg.resetMs)
    ensures var c := RunUses(Step(b, Fail(k, t), cfg), uses, cfg);
            && (now < t + cfg.resetMs ==> ClaimPermission(c.circuit, now).1.None?)
            && (now >= t + cfg.resetMs ==>
                  && ClaimPermission(c.circuit, now).1 == Some(Permit(c.circuit.generation, true))
                  && Probes(Step(c, Claim(now), cfg), |c.permits|))
  {
    var o := Step(b, Fail(k, t), cfg);
    RecordKeepsInv(b, Fail(k, t), cfg);
    ShutStays(o, uses, cfg);
    var c := RunUses(o, uses, cfg);
    SpentAreKnown(o, uses, cfg);
  }

  /** Only permits that were given out are recorded or released. */
  ghost predicate SpentKnown(b: Breaker) { forall k :: k in b.recorded || k in b.released ==> k < |b.permits| }

  lemma {:induction false} SpentAreKnown(b: Breaker, uses: seq<Use>, cfg: Config)
    requires SpentKnown(b)
    ensures SpentKnown(RunUses(b, uses, cfg))
    decreases |uses|
  {
    if uses != [] { SpentAreKnown(Step(b, uses[0], cfg), uses[1..], cfg); }
  }

  /**
   * A closed circuit lets everybody through; a probe that succeeds closes it with no failures counted, one that
   * fails opens it for another reset time, and one that is handed back makes room for the next.
   */
  lemma ProbesDecide(b: Breaker, k: nat, now: nat, cfg: Config)
    requires BreakerInv(b) && Positive(cfg)
    ensures Closed(b) ==> ClaimPermission(b.circuit, now).1 == Some(Permit(b.circuit.generation, false))
    ensures Probes(b, k) ==>
              && Closed(Step(b, Succeed(k), cfg)) && Step(b, Succeed(k), cfg).circuit.failures == 0
              && Step(b, Fail(k, now), cfg).circuit.openUntil == now + cfg.resetMs
              && Step(b, Fail(k, now), cfg).circuit.generation > b.circuit.generation
              && (now >= b.circuit.openUntil ==> ClaimPermission(Step(b, Release(k), cfg).circuit, now).1.Some?)
  {}
}
