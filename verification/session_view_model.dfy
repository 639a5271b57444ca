/**
 * SessionViewModel: the interval-walking session. Five sets of a 180-second
 * fast phase followed by a 180-second slow phase; every unpaused second the
 * countdown advances and the current cadence is added to the running sum, and
 * once five sets are done the session finishes with the integer average.
 *
 * Each pass of the startTimer loop (guard, body, one-second delay, finish
 * check) is the event Tick; the loop's locals fast/remain/totalSets are
 * fields. Speech is recorded as a sequence of Announcement tokens, and the
 * metronome's choice of cue and wait is the function Metronome.
 */
module Session {
  import opened Kotlin
  import Text

  const PHASE_SECONDS := 180
  const TOTAL_SETS := 5
  const RANGE_HALF_WIDTH := 5
  /** The one-second tick count of a whole session: five fast and five slow phases. */
  const SESSION_SECONDS := 2 * TOTAL_SETS * PHASE_SECONDS

  datatype UiState = UiState(
    fastPhase: bool,
    setCount: int,
    formHint: string,
    targetSpm: int,
    targetSpmRange: IntRange,
    remainingSeconds: int,
    cadenceSpm: int,
    paused: bool,
    finished: bool,
    avgSpm: int)
  {
    function RemainingMinutes(): int { Text.Minutes(remainingSeconds) }
    function RemainingSecondsPart(): string { Text.SecondsPart(remainingSeconds) }
  }

  /** UiState(): fast phase, set 0, target 120 in 115..125, 3:00 on the clock. */
  const DefaultUi := UiState(true, 0, "", 120, IntRange(115, 125), 180, 0, false, false, 0)

  /** What the session says aloud, one token per utterance. */
  datatype Announcement = StartFast | NextFast | SwitchToSlow | SoonFast | SoonSlow | WellDone

  function Utterance(a: Announcement): string {
    match a
    case StartFast => "速歩を始めます"
    case NextFast => "次の速歩を始めます"
    case SwitchToSlow => "スローに切り替えます"
    case SoonFast => "まもなく速歩に切り替わります"
    case SoonSlow => "まもなくスローに切り替わります"
    case WellDone => "お疲れ様でした。"
  }

  /** Each announcement is a different phrase, so the spoken sequence names the tokens unambiguously. */
  lemma UtterancesDistinct(a: Announcement, b: Announcement)
    requires Utterance(a) == Utterance(b)
    ensures a == b
  {
  }

  /** `target-5..target+5`: the cadences within five of the target. */
  function TargetRange(target: int): (r: IntRange)
    ensures forall c :: r.Contains(c) <==> Abs(c - target) <= RANGE_HALF_WIDTH
  {
    IntRange(target - RANGE_HALF_WIDTH, target + RANGE_HALF_WIDTH)
  }

  /** setPhase's update of the view state: the phase, its target and the range around it. */
  function SetPhase(ui: UiState, fast: bool, fastSpm: int, slowSpm: int): (r: UiState)
    ensures r.fastPhase == fast && r.targetSpm == (if fast then fastSpm else slowSpm)
    ensures forall c :: r.targetSpmRange.Contains(c) <==> Abs(c - r.targetSpm) <= RANGE_HALF_WIDTH
    ensures r.formHint == ""
    ensures r.(fastPhase := ui.fastPhase, targetSpm := ui.targetSpm,
      targetSpmRange := ui.targetSpmRange, formHint := ui.formHint) == ui
  {
    var target := if fast then fastSpm else slowSpm;
    ui.(fastPhase := fast, targetSpm := target, targetSpmRange := TargetRange(target), formHint := "")
  }

  /** What setPhase says: the first fast phase, a later fast phase, or a slow phase. */
  function PhaseAnnouncement(fast: bool, sets: int): (a: Announcement)
    ensures a == StartFast <==> fast && sets <= 0
    ensures a == NextFast <==> fast && sets > 0
    ensures a == SwitchToSlow <==> !fast
  {
    if fast then (if sets > 0 then NextFast else StartFast) else SwitchToSlow
  }

  /** The warning ten seconds before a phase ends names the phase about to start. */
  function SoonAnnouncement(fast: bool): (a: Announcement)
    ensures a == SoonFast <==> !fast
    ensures a == SoonSlow <==> fast
  {
    if !fast then SoonFast else SoonSlow
  }

  /** The startTimer loop's locals: the phase, the seconds left in it and the finished sets. */
  datatype Countdown = Countdown(fast: bool, remain: int, sets: int)

  const InitialCountdown := Countdown(true, PHASE_SECONDS, 0)

  /** One unpaused second: count down, and at 0 switch phase, counting a set on each return to fast. */
  function Advance(c: Countdown): (d: Countdown)
    ensures 1 <= d.remain && (c.remain <= PHASE_SECONDS ==> d.remain <= PHASE_SECONDS)
    ensures d.fast != c.fast <==> c.remain <= 1
    ensures d.fast == c.fast ==> d.remain == c.remain - 1
    ensures d.fast != c.fast ==> d.remain == PHASE_SECONDS
    ensures d.sets == c.sets + (if !c.fast && d.fast then 1 else 0)
  {
    var remain := c.remain - 1;
    if remain <= 0 then
      var fast := !c.fast;
      Countdown(fast, PHASE_SECONDS, if fast then c.sets + 1 else c.sets)
    else
      Countdown(c.fast, remain, c.sets)
  }

  function AdvanceN(c: Countdown, n: nat): Countdown {
    if n == 0 then c else Advance(AdvanceN(c, n - 1))
  }

  /** How many of the first n seconds switched the phase. */
  function Toggles(c: Countdown, n: nat): nat {
    if n == 0 then 0
    else Toggles(c, n - 1) + (if AdvanceN(c, n).fast != AdvanceN(c, n - 1).fast then 1 else 0)
  }

  /** After n unpaused seconds of a session: the phase, the clock and the sets in closed form. */
  lemma {:induction false} ScheduleAfter(n: nat)
    ensures AdvanceN(InitialCountdown, n) ==
      Countdown((n / PHASE_SECONDS) % 2 == 0, PHASE_SECONDS - n % PHASE_SECONDS, n / (2 * PHASE_SECONDS))
    ensures Toggles(InitialCountdown, n) == n / PHASE_SECONDS
  {
    if n > 0 {
      ScheduleAfter(n - 1);
      var m := n - 1;
      var q, r := m / 180, m % 180;
      assert m == 180 * q + r && 0 <= r < 180;
      if r == 179 {
        assert n == 180 * (q + 1);
        assert n / 180 == q + 1 && n % 180 == 0;
        if q % 2 == 0 {
          assert m / 360 == q / 2 && n / 360 == q / 2;
        } else {
          assert m / 360 == q / 2 && n / 360 == q / 2 + 1;
        }
      } else {
        assert n == 180 * q + (r + 1);
        assert n / 180 == q && n % 180 == r + 1;
        assert m / 360 == q / 2 && n / 360 == q / 2;
      }
    }
  }

  /**
   * An unpaused session reaches five sets after exactly 1800 seconds and ten
   * phase switches, and not before; it is then back in the fast phase.
   */
  lemma SessionLength()
    ensures AdvanceN(InitialCountdown, SESSION_SECONDS) == Countdown(true, PHASE_SECONDS, TOTAL_SETS)
    ensures Toggles(InitialCountdown, SESSION_SECONDS) == 2 * TOTAL_SETS
    ensures forall n :: 0 <= n < SESSION_SECONDS ==> AdvanceN(InitialCountdown, n).sets < TOTAL_SETS
  {
    ScheduleAfter(SESSION_SECONDS);
    forall n | 0 <= n < SESSION_SECONDS
      ensures AdvanceN(InitialCountdown, n).sets < TOTAL_SETS
    {
      ScheduleAfter(n);
    }
  }

  /** With r seconds on the clock the phase holds for r - 1 more seconds and switches at the r-th. */
  lemma {:induction false} PhaseEndsWhenClockRunsOut(c: Countdown, j: nat)
    requires 1 <= c.remain && j <= c.remain
    ensures j < c.remain ==> AdvanceN(c, j) == c.(remain := c.remain - j)
    ensures j == c.remain ==> AdvanceN(c, j).fast != c.fast
  {
    if j > 0 {
      PhaseEndsWhenClockRunsOut(c, j - 1);
    }
  }

  /**
   * A switch during a session announces the slow phase or the next fast
   * phase; "start fast" is said only by the first setPhase.
   */
  lemma SwitchAnnouncement(c: Countdown)
    requires c.sets >= 0 && c.remain <= 1
    ensures var d := Advance(c);
      PhaseAnnouncement(d.fast, d.sets) == (if c.fast then SwitchToSlow else NextFast)
  {
  }

  /** The ten-second warning names exactly the phase that starts ten seconds later. */
  lemma SoonNamesNextPhase(c: Countdown)
    requires c.remain == 10
    ensures SoonAnnouncement(c.fast) == (if AdvanceN(c, 10).fast then SoonFast else SoonSlow)
  {
    PhaseEndsWhenClockRunsOut(c, 10);
  }

  /** What one unpaused second says: the new phase on a switch, the warning at ten seconds left. */
  function TickAnnouncements(before: Countdown, after: Countdown): (r: seq<Announcement>)
    ensures |r| == (if after.fast != before.fast then 1 else 0) + (if after.remain == 10 then 1 else 0)
    ensures after.fast != before.fast ==> r[0] == PhaseAnnouncement(after.fast, after.sets)
    ensures after.remain == 10 ==> r[|r| - 1] == SoonAnnouncement(after.fast)
  {
    (if after.fast != before.fast then [PhaseAnnouncement(after.fast, after.sets)] else [])
    + (if after.remain == 10 then [SoonAnnouncement(after.fast)] else [])
  }

  function Sum(s: seq<int>): int {
    if s == [] then 0 else Sum(s[..|s| - 1]) + s[|s| - 1]
  }

  /** `if (samples > 0) sumSpm / samples else 0` over the collected cadence samples. */
  function Average(s: seq<int>): (r: int)
    ensures |s| == 0 ==> r == 0
    ensures |s| > 0 && Sum(s) >= 0 ==> |s| * r <= Sum(s) < |s| * (r + 1)
    ensures |s| > 0 && Sum(s) < 0 ==> |s| * (r - 1) < Sum(s) <= |s| * r
  {
    if |s| > 0 then Div(Sum(s), |s|) else 0
  }

  lemma {:induction false} SumBounds(s: seq<int>, lo: int, hi: int)
    requires forall i :: 0 <= i < |s| ==> lo <= s[i] <= hi
    ensures |s| * lo <= Sum(s) <= |s| * hi
  {
    if s != [] {
      SumBounds(s[..|s| - 1], lo, hi);
    }
  }

  /** The nonlinear step AverageWithinSamples needs, kept apart so that its proof stays small. */
  lemma MulMonotone(n: int, a: int, b: int)
    requires n > 0 && a <= b
    ensures n * a <= n * b
  {
  }

  /** The session average lies between the lowest and the highest cadence sample. */
  lemma AverageWithinSamples(s: seq<int>, lo: int, hi: int)
    requires |s| > 0
    requires forall i :: 0 <= i < |s| ==> lo <= s[i] <= hi
    ensures lo <= Average(s) <= hi
  {
    SumBounds(s, lo, hi);
    var n, q, total := |s|, Average(s), Sum(s);
    assert n * q - n < total < n * q + n;
    if q < lo {
      MulMonotone(n, q + 1, lo);
      assert false;
    }
    if q > hi {
      MulMonotone(n, hi, q - 1);
      assert false;
    }
  }

  /** Samples 100, 110 and 120 average to 110. */
  lemma AverageExample()
    ensures Average([100, 110, 120]) == 110
  {
    assert [100, 110, 120][..2] == [100, 110];
    assert [100, 110][..1] == [100];
    assert [100][..0] == [];
  }

  /** The metronome's next step: whether it sounds a cue, then how long it waits. */
  datatype Beat = Beat(cue: bool, delayMs: int)

  /** One pass of the metronome loop: a cue per target step while unpaused, else a 100 ms poll. */
  function Metronome(ui: UiState): (b: Beat)
    ensures b.cue <==> !ui.paused && ui.targetSpm > 0
    ensures b.cue ==> b.delayMs * ui.targetSpm <= 60000 < (b.delayMs + 1) * ui.targetSpm
    ensures !b.cue ==> b.delayMs == 100
  {
    if !ui.paused && ui.targetSpm > 0 then Beat(true, Div(60000, ui.targetSpm)) else Beat(false, 100)
  }

  class SessionViewModel {
    var ui: UiState
    var running: bool
    var sumSpm: int
    var samples: int
    /** The cadence samples summed so far, oldest first. */
    ghost var history: seq<int>
    /** Whether the startTimer loop is still running. */
    var timerActive: bool
    var fast: bool
    var remain: int
    var totalSets: int
    /** The targets startTimer was given. */
    var fastSpm: int
    var slowSpm: int
    /** Everything passed to speak(), in order. */
    var spoken: seq<Announcement>

    /** The running sum and count are those of the recorded samples. */
    ghost predicate Sums()
      reads this
    {
      samples == |history| && sumSpm == Sum(history)
    }

    /** The view state shows the timer loop's phase, target, clock and sets. */
    ghost predicate Shown()
      reads this
    {
      && ui.fastPhase == fast && ui.targetSpm == (if fast then fastSpm else slowSpm)
      && ui.targetSpmRange == TargetRange(ui.targetSpm)
      && ui.remainingSeconds == remain && ui.setCount == totalSets
    }

    ghost predicate Valid()
      reads this
    {
      && Sums()
      && 1 <= remain <= PHASE_SECONDS && totalSets >= 0
      && (running ==> timerActive)
      && (timerActive ==> totalSets < TOTAL_SETS && !ui.finished && Shown())
      && (ui.finished ==> !running && ui.avgSpm == Average(history))
    }

    constructor ()
      ensures Valid()
      ensures ui == DefaultUi && !running && !timerActive
      ensures sumSpm == 0 && samples == 0 && spoken == []
    {
      ui := DefaultUi;
      running := false;
      sumSpm := 0;
      samples := 0;
      history := [];
      timerActive := false;
      fast, remain, totalSets := true, PHASE_SECONDS, 0;
      // the targets are set by start(); until then they are HomeUiState's defaults
      fastSpm, slowSpm := 120, 80;
      spoken := [];
    }

    /** resetState(): the default view state, no samples, not running. */
    method ResetState()
      modifies this`ui, this`sumSpm, this`samples, this`history, this`running
      ensures ui == DefaultUi && sumSpm == 0 && samples == 0 && history == [] && !running
    {
      ui := DefaultUi;
      sumSpm := 0;
      samples := 0;
      history := [];
      running := false;
    }

    /** start(fastSpm, slowSpm): ignored while running; otherwise a fresh session in the first fast phase. */
    method Start(fastSpm: int, slowSpm: int)
      requires Valid()
      modifies this
      ensures Valid()
      ensures old(running) ==> unchanged(this)
      ensures !old(running) ==>
        && running && timerActive
        && ui == SetPhase(DefaultUi, true, fastSpm, slowSpm)
        && sumSpm == 0 && samples == 0 && history == []
        && Countdown(fast, remain, totalSets) == InitialCountdown
        && this.fastSpm == fastSpm && this.slowSpm == slowSpm
        && spoken == old(spoken) + [StartFast]
    {
      if running {
        return;
      }
      ResetState();
      running := true;
      // startTimer: the loop's locals and the initial setPhase
      timerActive := true;
      this.fastSpm, this.slowSpm := fastSpm, slowSpm;
      fast, remain, totalSets := true, PHASE_SECONDS, 0;
      ui := SetPhase(ui, fast, fastSpm, slowSpm);
      spoken := spoken + [PhaseAnnouncement(fast, 0)];
    }

    /** togglePause(): flips the pause flag and nothing else. */
    method TogglePause()
      requires Valid()
      modifies this`ui
      ensures Valid()
      ensures ui == old(ui).(paused := !old(ui.paused))
    {
      ui := ui.(paused := !ui.paused);
    }

    /** cancel(): the session is no longer running; the timer loop ends at its next check. */
    method Cancel()
      requires Valid()
      modifies this`running
      ensures Valid()
      ensures !running
    {
      running := false;
    }

    /** The cadence estimator's callback: shows the latest cadence. */
    method OnCadenceChanged(spm: int)
      requires Valid()
      modifies this`ui
      ensures Valid()
      ensures ui == old(ui).(cadenceSpm := spm)
    {
      ui := ui.(cadenceSpm := spm);
    }

    /** One pass of the startTimer loop: the running check, the unpaused second, the delay, the finish check. */
    method Tick()
      requires Valid()
      modifies this`ui, this`running, this`sumSpm, this`samples, this`history, this`timerActive,
        this`fast, this`remain, this`totalSets, this`spoken
      ensures Valid()
      ensures !old(timerActive) ==> unchanged(this)
      ensures old(timerActive) && !old(running) ==>
        && !timerActive && ui == old(ui) && history == old(history) && spoken == old(spoken)
        && Countdown(fast, remain, totalSets) == old(Countdown(fast, remain, totalSets))
      ensures old(timerActive) && old(running) && old(ui.paused) ==>
        && running && timerActive && ui == old(ui) && history == old(history) && spoken == old(spoken)
        && Countdown(fast, remain, totalSets) == old(Countdown(fast, remain, totalSets))
      ensures old(timerActive) && old(running) && !old(ui.paused) ==>
        && Countdown(fast, remain, totalSets) == Advance(old(Countdown(fast, remain, totalSets)))
        && history == old(history) + [old(ui.cadenceSpm)]
        && (var shown := (if fast != old(fast) then SetPhase(old(ui), fast, fastSpm, slowSpm) else old(ui))
              .(remainingSeconds := remain, setCount := totalSets);
            ui == if totalSets >= TOTAL_SETS then shown.(finished := true, avgSpm := Average(history)) else shown)
        && ui.fastPhase == fast && ui.targetSpm == (if fast then fastSpm else slowSpm)
        && (ui.finished <==> totalSets >= TOTAL_SETS)
        && (running <==> totalSets < TOTAL_SETS) && (timerActive <==> running)
        && spoken == old(spoken)
          + TickAnnouncements(old(Countdown(fast, remain, totalSets)), Countdown(fast, remain, totalSets))
          + (if totalSets >= TOTAL_SETS then [WellDone] else [])
    {
      if !timerActive {
        return;
      }
      if !running {
        timerActive := false;
        return;
      }
      if !ui.paused {
        CountSecond();
      }
      // delay(1000), then the finish check
      if totalSets >= TOTAL_SETS {
        FinishSession();
      }
    }

    /** The body of the timer loop for an unpaused second. */
    method CountSecond()
      requires Valid() && timerActive && running && !ui.paused
      modifies this`ui, this`sumSpm, this`samples, this`history, this`fast, this`remain, this`totalSets, this`spoken
      ensures Sums() && Shown() && 1 <= remain <= PHASE_SECONDS && 0 <= totalSets <= TOTAL_SETS
      ensures Countdown(fast, remain, totalSets) == Advance(old(Countdown(fast, remain, totalSets)))
      ensures history == old(history) + [old(ui.cadenceSpm)]
      ensures ui == (if fast != old(fast) then SetPhase(old(ui), fast, fastSpm, slowSpm) else old(ui))
        .(remainingSeconds := remain, setCount := totalSets)
      ensures spoken == old(spoken)
        + TickAnnouncements(old(Countdown(fast, remain, totalSets)), Countdown(fast, remain, totalSets))
    {
      ghost var before := Countdown(fast, remain, totalSets);
      remain := remain - 1;
      if remain <= 0 {
        fast := !fast;
        remain := PHASE_SECONDS;
        if fast {
          totalSets := totalSets + 1;
        }
        ui := SetPhase(ui, fast, fastSpm, slowSpm);
        spoken := spoken + [PhaseAnnouncement(fast, totalSets)];
      }
      assert Countdown(fast, remain, totalSets) == Advance(before);
      sumSpm := sumSpm + ui.cadenceSpm;
      samples := samples + 1;
      history := history + [ui.cadenceSpm];
      assert history[..|history| - 1] == old(history);
      ui := ui.(remainingSeconds := remain, setCount := totalSets);
      if remain == 10 {
        spoken := spoken + [SoonAnnouncement(fast)];
      }
    }

    /** The finish check once five sets are done: average, announce, cancel, and the loop ends. */
    method FinishSession()
      requires Sums()
      modifies this`ui, this`running, this`timerActive, this`spoken
      ensures !running && !timerActive
      ensures ui == old(ui).(finished := true, avgSpm := Average(history))
      ensures spoken == old(spoken) + [WellDone]
    {
      running := false;
      var avg := if samples > 0 then Div(sumSpm, samples) else 0;
      ui := ui.(finished := true, avgSpm := avg);
      spoken := spoken + [WellDone];
      // cancel(), and the loop's running check fails
      timerActive := false;
    }

    /**
     * A whole session without pauses: start, then one cadence report and one
     * pass of the timer loop per second. It finishes after exactly 1800
     * seconds, with five sets and the average of the reported cadences.
     */
    method RunSession(fastSpm: int, slowSpm: int, cadences: seq<int>) returns (seconds: nat)
      requires Valid() && !running && |cadences| == SESSION_SECONDS
      modifies this
      ensures Valid()
      ensures seconds == SESSION_SECONDS && !running && !timerActive
      ensures ui.finished && ui.setCount == TOTAL_SETS && ui.fastPhase && ui.targetSpm == fastSpm
      ensures ui.avgSpm == Average(cadences)
    {
      Start(fastSpm, slowSpm);
      seconds := 0;
      while timerActive
        invariant Valid() && seconds <= SESSION_SECONDS
        invariant this.fastSpm == fastSpm && this.slowSpm == slowSpm && !ui.paused
        invariant history == cadences[..seconds]
        invariant timerActive ==> running && seconds < SESSION_SECONDS
        invariant timerActive ==> Countdown(fast, remain, totalSets) == AdvanceN(InitialCountdown, seconds)
        invariant !timerActive ==> seconds == SESSION_SECONDS && ui.finished
        invariant !timerActive ==> ui.setCount == TOTAL_SETS && ui.fastPhase && ui.targetSpm == fastSpm
        decreases SESSION_SECONDS - seconds
      {
        OnCadenceChanged(cadences[seconds]);
        Tick();
        assert AdvanceN(InitialCountdown, seconds + 1) == Advance(AdvanceN(InitialCountdown, seconds));
        assert cadences[..seconds + 1] == cadences[..seconds] + [cadences[seconds]];
        seconds := seconds + 1;
        SessionLength();
      }
      assert cadences[..SESSION_SECONDS] == cadences;
    }
  }
}
