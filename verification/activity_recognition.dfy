/**
 * The decision ActivityRecognitionManager takes on one batch of activity
 * transition events: walking/running entered means "walking", otherwise
 * still entered means "not walking", otherwise nothing is reported.
 * Registering for the transitions and receiving the broadcast are platform
 * plumbing and are not modelled; the batch is the input.
 */
module ActivityRecognition {
  import opened Wrappers

  // DetectedActivity activity types.
  const STILL := 3
  const WALKING := 7
  const RUNNING := 8
  // ActivityTransition directions.
  const ACTIVITY_TRANSITION_ENTER := 0
  const ACTIVITY_TRANSITION_EXIT := 1

  datatype TransitionEvent = TransitionEvent(activityType: int, transitionType: int)

  predicate EntersWalkingOrRunning(e: TransitionEvent) {
    (e.activityType == WALKING || e.activityType == RUNNING) && e.transitionType == ACTIVITY_TRANSITION_ENTER
  }

  predicate EntersStill(e: TransitionEvent) {
    e.activityType == STILL && e.transitionType == ACTIVITY_TRANSITION_ENTER
  }

  /** Kotlin's `events.any(p)`. */
  function Any(events: seq<TransitionEvent>, p: TransitionEvent -> bool): (b: bool)
    ensures b <==> exists i :: 0 <= i < |events| && p(events[i])
  {
    if events == [] then false
    else if p(events[0]) then true
    else
      var b := Any(events[1..], p);
      assert forall i :: 1 <= i < |events| ==> events[1..][i - 1] == events[i];
      b
  }

  /**
   * handleTransitionResult: the value passed to onActivityChanged, or None
   * when it is not called. Walking/running takes precedence over still.
   */
  function HandleTransitionResult(events: seq<TransitionEvent>): (r: Option<bool>)
    ensures r == Some(true) <==> exists i :: 0 <= i < |events| && EntersWalkingOrRunning(events[i])
    ensures r == Some(false) <==>
      (forall i :: 0 <= i < |events| ==> !EntersWalkingOrRunning(events[i])) &&
      (exists i :: 0 <= i < |events| && EntersStill(events[i]))
    ensures r == None <==>
      forall i :: 0 <= i < |events| ==> !EntersWalkingOrRunning(events[i]) && !EntersStill(events[i])
  {
    var isWalkingOrRunning := Any(events, EntersWalkingOrRunning);
    var isStill := Any(events, EntersStill);
    if isWalkingOrRunning then Some(true)
    else if isStill then Some(false)
    else None
  }

  /** A batch of EXIT events only (the empty batch included) reports nothing. */
  lemma ExitsOnlyReportNothing(events: seq<TransitionEvent>)
    requires forall i :: 0 <= i < |events| ==> events[i].transitionType == ACTIVITY_TRANSITION_EXIT
    ensures HandleTransitionResult(events) == None
  {
  }

  /** The decision depends only on which events the batch holds, not on their order. */
  lemma OrderIndependent(a: seq<TransitionEvent>, b: seq<TransitionEvent>)
    requires multiset(a) == multiset(b)
    ensures HandleTransitionResult(a) == HandleTransitionResult(b)
  {
    forall e | e in a ensures e in b {
      assert e in multiset(a);
    }
    forall e | e in b ensures e in a {
      assert e in multiset(b);
    }
    SameElementsSameDecision(a, b);
  }

  /** Receiving the same batch twice decides as receiving it once. */
  lemma DuplicateDeliveryIdempotent(a: seq<TransitionEvent>)
    ensures HandleTransitionResult(a + a) == HandleTransitionResult(a)
  {
    forall e | e in a + a ensures e in a { }
    SameElementsSameDecision(a + a, a);
  }

  lemma SameElementsSameDecision(a: seq<TransitionEvent>, b: seq<TransitionEvent>)
    requires forall e :: e in a <==> e in b
    ensures HandleTransitionResult(a) == HandleTransitionResult(b)
  {
    var wa := exists i :: 0 <= i < |a| && EntersWalkingOrRunning(a[i]);
    var wb := exists i :: 0 <= i < |b| && EntersWalkingOrRunning(b[i]);
    var sa := exists i :: 0 <= i < |a| && EntersStill(a[i]);
    var sb := exists i :: 0 <= i < |b| && EntersStill(b[i]);
    if wa {
      var i :| 0 <= i < |a| && EntersWalkingOrRunning(a[i]);
      assert a[i] in b;
    }
    if wb {
      var i :| 0 <= i < |b| && EntersWalkingOrRunning(b[i]);
      assert b[i] in a;
    }
    if sa {
      var i :| 0 <= i < |a| && EntersStill(a[i]);
      assert a[i] in b;
    }
    if sb {
      var i :| 0 <= i < |b| && EntersStill(b[i]);
      assert b[i] in a;
    }
  }
}
