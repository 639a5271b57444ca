/**
 * CadenceEstimator: turns the cumulative step-counter stream into a smoothed
 * steps-per-minute value. The first reading after start() is a baseline; each
 * later reading appends its positive step delta to a 15-second window, prunes
 * the window, computes a rate and folds it into an exponential moving average
 * (alpha 0.3) whose truncation is reported through onCadenceChanged. A
 * walking/not-walking gate and a 5-second inactivity reset zero the estimate.
 *
 * Double arithmetic is modelled with exact reals. The wall clock and the
 * sensor value are parameters of OnSensorChanged; the delayed inactivity job
 * is the explicit event OnInactivityTimeout.
 */
module Cadence {

  const TYPE_STEP_COUNTER := 19
  /** Width of the sliding window, in milliseconds. */
  const WINDOW_MS := 15000
  const EMA_ALPHA: real := 0.3

  /** One entry of `stepEvents`: when the reading came and how many new steps it carried. */
  datatype StepEvent = StepEvent(timestamp: int, steps: int)

  predicate AllPositive(w: seq<StepEvent>) {
    forall e :: e in w ==> e.steps > 0
  }

  predicate AllSince(w: seq<StepEvent>, cutoff: int) {
    forall e :: e in w ==> e.timestamp >= cutoff
  }

  /** `stepEvents.removeAll { it.first < cutoff }`: keeps the recent entries, in order. */
  function Prune(w: seq<StepEvent>, cutoff: int): (r: seq<StepEvent>)
    ensures |r| <= |w|
  {
    if w == [] then []
    else if w[0].timestamp < cutoff then Prune(w[1..], cutoff)
    else [w[0]] + Prune(w[1..], cutoff)
  }

  /** The pruned window holds exactly the entries of the window stamped at or after the cutoff. */
  lemma {:induction false} PruneKeepsRecent(w: seq<StepEvent>, cutoff: int)
    ensures forall e :: e in Prune(w, cutoff) <==> e in w && e.timestamp >= cutoff
  {
    if w != [] {
      PruneKeepsRecent(w[1..], cutoff);
      assert forall e :: e in w <==> e == w[0] || e in w[1..];
    }
  }

  /** A window with nothing older than the cutoff is left as it is. */
  lemma {:induction false} PruneOfRecent(w: seq<StepEvent>, cutoff: int)
    requires AllSince(w, cutoff)
    ensures Prune(w, cutoff) == w
  {
    if w != [] {
      assert w[0] in w;
      assert forall e :: e in w[1..] ==> e in w;
      PruneOfRecent(w[1..], cutoff);
      assert [w[0]] + w[1..] == w;
    }
  }

  /** Pruning a concatenation prunes each part. */
  lemma {:induction false} PruneAppend(u: seq<StepEvent>, v: seq<StepEvent>, cutoff: int)
    ensures Prune(u + v, cutoff) == Prune(u, cutoff) + Prune(v, cutoff)
  {
    if u == [] {
      assert u + v == v;
    } else {
      assert (u + v)[0] == u[0];
      assert (u + v)[1..] == u[1..] + v;
      PruneAppend(u[1..], v, cutoff);
      var head := if u[0].timestamp < cutoff then [] else [u[0]];
      assert Prune(u, cutoff) == head + Prune(u[1..], cutoff);
      assert Prune(u + v, cutoff) == head + (Prune(u[1..], cutoff) + Prune(v, cutoff));
    }
  }

  /** An entry older than the cutoff, wherever it stands, has no effect on the pruned window. */
  lemma StaleEntryIgnored(u: seq<StepEvent>, e: StepEvent, v: seq<StepEvent>, cutoff: int)
    requires e.timestamp < cutoff
    ensures Prune(u + [e] + v, cutoff) == Prune(u + v, cutoff)
  {
    PruneAppend(u + [e], v, cutoff);
    PruneAppend(u, [e], cutoff);
    PruneAppend(u, v, cutoff);
    assert [e][1..] == [];
    assert Prune([e], cutoff) == Prune([], cutoff) == [];
  }

  /** `stepEvents.sumOf { it.second }`; entries with positive deltas add up to at least one step each. */
  function StepsIn(w: seq<StepEvent>): (n: int)
    ensures AllPositive(w) ==> n >= |w|
  {
    if w == [] then 0
    else
      assert w[0] in w;
      assert forall e :: e in w[1..] ==> e in w;
      w[0].steps + StepsIn(w[1..])
  }

  /** Seconds between the first and the last entry of the window; 0 for an empty window. */
  function ElapsedSeconds(w: seq<StepEvent>): (r: real)
    ensures |w| <= 1 ==> r == 0.0
    ensures |w| > 0 ==> r * 1000.0 == (w[|w| - 1].timestamp - w[0].timestamp) as real
  {
    if w == [] then 0.0 else (w[|w| - 1].timestamp - w[0].timestamp) as real / 1000.0
  }

  /** The instantaneous cadence: steps in the window per elapsed minute, 0 when no time has elapsed. */
  function Rate(w: seq<StepEvent>): (r: real)
    ensures ElapsedSeconds(w) <= 0.0 ==> r == 0.0
    ensures ElapsedSeconds(w) > 0.0 ==> r * ElapsedSeconds(w) == StepsIn(w) as real * 60.0
    ensures AllPositive(w) ==> r >= 0.0
    ensures AllPositive(w) && ElapsedSeconds(w) > 0.0 ==> r > 0.0
  {
    var elapsed := ElapsedSeconds(w);
    if elapsed > 0.0 then
      (StepsIn(w) as real / elapsed) * 60.0
    else 0.0
  }

  /** One step of the exponential moving average with alpha 0.3. */
  function Ema(previous: real, rate: real): (r: real)
    ensures previous <= rate ==> previous <= r <= rate
    ensures rate <= previous ==> rate <= r <= previous
    ensures r - previous == EMA_ALPHA * (rate - previous)
  {
    rate * EMA_ALPHA + previous * (1.0 - EMA_ALPHA)
  }

  /** Kotlin's `Double.toInt()`: truncation toward zero. */
  function ToInt(x: real): (n: int)
    ensures x >= 0.0 ==> n >= 0 && n as real <= x < n as real + 1.0
    ensures x < 0.0 ==> n <= 0 && n as real - 1.0 < x <= n as real
  {
    if x >= 0.0 then x.Floor else -((-x).Floor)
  }

  class CadenceEstimator {
    /** Whether the device has a step-counter sensor to register with. */
    const hasStepCounter: bool
    /** Whether the listener is registered, so that readings are delivered to it. */
    var registered: bool
    var lastStepCount: int
    var isFirstReading: bool
    var isWalking: bool
    var stepEvents: seq<StepEvent>
    var smoothedSpm: real
    /** Whether a delayed inactivity reset is scheduled and not cancelled. */
    var stopDetectionPending: bool
    /** Whether stop() has cancelled the coroutine scope; later launches never run. */
    var scopeCancelled: bool
    /** Every value passed to onCadenceChanged, in order. */
    var emitted: seq<int>

    ghost predicate Valid()
      reads this
    {
      && smoothedSpm >= 0.0
      && AllPositive(stepEvents)
      && (forall i :: 0 <= i < |emitted| ==> emitted[i] >= 0)
      && (registered ==> hasStepCounter)
      && (scopeCancelled ==> !stopDetectionPending)
      && (!isWalking ==> smoothedSpm == 0.0 && stepEvents == [] && !stopDetectionPending)
    }

    ghost predicate Gated(sensorType: int)
      reads this
    {
      registered && sensorType == TYPE_STEP_COUNTER && isWalking
    }

    constructor (hasStepCounter: bool)
      ensures Valid()
      ensures this.hasStepCounter == hasStepCounter && !registered
      ensures lastStepCount == 0 && isFirstReading && !isWalking
      ensures stepEvents == [] && smoothedSpm == 0.0 && emitted == []
      ensures !stopDetectionPending && !scopeCancelled
    {
      this.hasStepCounter := hasStepCounter;
      registered := false;
      lastStepCount := 0;
      isFirstReading := true;
      isWalking := false;
      stepEvents := [];
      smoothedSpm := 0.0;
      stopDetectionPending := false;
      scopeCancelled := false;
      emitted := [];
    }

    /** start(): register with the step counter if there is one; the next reading is a baseline. */
    method Start()
      requires Valid()
      modifies this`registered, this`isFirstReading
      ensures Valid()
      ensures registered == (old(registered) || hasStepCounter)
      ensures isFirstReading
    {
      if hasStepCounter {
        registered := true;
      }
      isFirstReading := true;
    }

    /** stop(): unregister, cancel the pending reset and the coroutine scope for good. */
    method Stop()
      requires Valid()
      modifies this`registered, this`stopDetectionPending, this`scopeCancelled
      ensures Valid()
      ensures !registered && !stopDetectionPending && scopeCancelled
    {
      registered := false;
      stopDetectionPending := false;
      scopeCancelled := true;
    }

    /** setWalkingState(b): leaving the walking state zeroes the estimate and reports 0. */
    method SetWalkingState(walking: bool)
      requires Valid()
      modifies this`isWalking, this`smoothedSpm, this`stepEvents, this`emitted, this`stopDetectionPending
      ensures Valid()
      ensures isWalking == walking
      ensures walking ==> (smoothedSpm == old(smoothedSpm) && stepEvents == old(stepEvents)
        && emitted == old(emitted) && stopDetectionPending == old(stopDetectionPending))
      ensures !walking ==> (smoothedSpm == 0.0 && stepEvents == []
        && emitted == old(emitted) + [0] && !stopDetectionPending)
    {
      isWalking := walking;
      if !walking {
        smoothedSpm := 0.0;
        emitted := emitted + [0];
        stepEvents := [];
        stopDetectionPending := false;
      }
    }

    /** onSensorChanged(event) for a reading `count` of sensor `sensorType` at wall-clock time `now`. */
    method OnSensorChanged(sensorType: int, now: int, count: int)
      requires Valid()
      modifies this`lastStepCount, this`isFirstReading, this`stepEvents, this`smoothedSpm,
        this`stopDetectionPending, this`emitted
      ensures Valid()
      ensures !Gated(sensorType) ==> unchanged(this)
      ensures Gated(sensorType) && old(isFirstReading) ==>
        && lastStepCount == count && !isFirstReading
        && stepEvents == old(stepEvents) && smoothedSpm == old(smoothedSpm)
        && emitted == old(emitted) && stopDetectionPending == old(stopDetectionPending)
      ensures Gated(sensorType) && !old(isFirstReading) ==>
        var delta := count - old(lastStepCount);
        && !isFirstReading
        && lastStepCount == (if delta > 0 then count else old(lastStepCount))
        && stepEvents == Prune(old(stepEvents) + (if delta > 0 then [StepEvent(now, delta)] else []), now - WINDOW_MS)
        && AllSince(stepEvents, now - WINDOW_MS)
        && smoothedSpm == Ema(old(smoothedSpm), Rate(stepEvents))
        && emitted == old(emitted) + [ToInt(smoothedSpm)]
        && stopDetectionPending == (if delta > 0 then !scopeCancelled else old(stopDetectionPending))
    {
      if !registered || sensorType != TYPE_STEP_COUNTER || !isWalking {
        return;
      }
      if isFirstReading {
        lastStepCount := count;
        isFirstReading := false;
        return;
      }
      var newSteps := count - lastStepCount;
      if newSteps > 0 {
        lastStepCount := count;
        stepEvents := stepEvents + [StepEvent(now, newSteps)];
        ScheduleStopDetection();
      } else {
        assert stepEvents + [] == stepEvents;
      }
      assert AllPositive(stepEvents);
      PruneKeepsRecent(stepEvents, now - WINDOW_MS);
      stepEvents := Prune(stepEvents, now - WINDOW_MS);
      var currentSpm := Rate(stepEvents);
      assert currentSpm >= 0.0;
      smoothedSpm := Ema(smoothedSpm, currentSpm);
      var spm := ToInt(smoothedSpm);
      assert spm >= 0;
      emitted := emitted + [spm];
    }

    /** scheduleStopDetection(): replaces any pending reset by a new one, unless the scope is cancelled. */
    method ScheduleStopDetection()
      modifies this`stopDetectionPending
      ensures stopDetectionPending == !scopeCancelled
    {
      stopDetectionPending := !scopeCancelled;
    }

    /** The delayed block of scheduleStopDetection, five seconds after the last new step. */
    method OnInactivityTimeout()
      requires Valid()
      modifies this`smoothedSpm, this`stepEvents, this`emitted, this`stopDetectionPending
      ensures Valid()
      ensures !old(stopDetectionPending) ==> unchanged(this)
      ensures old(stopDetectionPending) ==>
        smoothedSpm == 0.0 && stepEvents == [] && emitted == old(emitted) + [0] && !stopDetectionPending
    {
      if stopDetectionPending {
        smoothedSpm := 0.0;
        emitted := emitted + [0];
        stepEvents := [];
        stopDetectionPending := false;
      }
    }
  }
}
