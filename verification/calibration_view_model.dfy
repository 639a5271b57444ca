/**
 * CalibrationViewModel: a five-minute walk that counts one step per
 * step-detector event and stores steps / 5 as the baseline cadence under
 * `base_spm`. Each pass of the one-second countdown loop is the event Tick;
 * sensor events are OnSensorChanged calls.
 */
module Calibration {
  import opened Kotlin
  import Text
  import opened Prefs

  const KEY_BASE_SPM := "base_spm"
  const TYPE_STEP_DETECTOR := 18
  const DURATION_MINUTES := 5

  datatype CalibrationUiState = CalibrationUiState(running: bool, finished: bool, remainingSeconds: int, resultSpm: int)
  {
    function RemainingMinutes(): int { Text.Minutes(remainingSeconds) }
    function RemainingSecondsPart(): string { Text.SecondsPart(remainingSeconds) }
  }

  /** CalibrationUiState(): not running, five minutes on the clock. */
  const DefaultCalibrationUi := CalibrationUiState(false, false, 300, 0)

  /** `totalSteps / durationMinutes`: whole steps per minute over the five-minute walk. */
  function ResultSpm(totalSteps: int): (r: int)
    ensures totalSteps >= 0 ==> r >= 0 && DURATION_MINUTES * r <= totalSteps < DURATION_MINUTES * (r + 1)
  {
    Div(totalSteps, DURATION_MINUTES)
  }

  /** 300 steps over the five minutes give a baseline of 60 steps per minute. */
  lemma CalibrationExample()
    ensures ResultSpm(300) == 60
  {
  }

  class CalibrationViewModel {
    const prefs: PrefStore
    var ui: CalibrationUiState
    var totalSteps: int
    /** Whether the listener is registered with the step detector, so that its events are delivered. */
    var listening: bool
    /** Whether the countdown loop of startTimer is still running. */
    var timerActive: bool

    ghost predicate Valid()
      reads this
    {
      && totalSteps >= 0
      && ui.remainingSeconds >= 0
      && (timerActive ==> ui.remainingSeconds > 0)
    }

    constructor (prefs: PrefStore)
      ensures Valid()
      ensures this.prefs == prefs && ui == DefaultCalibrationUi
      ensures totalSteps == 0 && !listening && !timerActive
    {
      this.prefs := prefs;
      ui := DefaultCalibrationUi;
      totalSteps := 0;
      listening := false;
      timerActive := false;
    }

    /**
     * start(): running, step count back to 0, listening, countdown launched.
     * The clock is left as it is, so a countdown already at 0 finishes at once.
     */
    method Start()
      requires Valid()
      modifies this`ui, this`totalSteps, this`listening, this`timerActive, prefs
      ensures Valid()
      ensures totalSteps == 0
      ensures old(ui.remainingSeconds) > 0 ==>
        && ui == old(ui).(running := true)
        && listening && timerActive
        && prefs.values == old(prefs.values)
      ensures old(ui.remainingSeconds) <= 0 ==>
        && ui == old(ui).(running := false, finished := true, resultSpm := 0)
        && !listening && !timerActive
        && prefs.values == old(prefs.values)[KEY_BASE_SPM := 0]
    {
      ui := ui.(running := true);
      totalSteps := 0;
      listening := true;
      timerActive := true;
      if ui.remainingSeconds <= 0 {
        timerActive := false;
        FinishCalibration();
      }
    }

    /** One pass of the countdown loop: a second has passed; at 0 the calibration finishes. */
    method Tick()
      requires Valid()
      modifies this`ui, this`listening, this`timerActive, prefs
      ensures Valid()
      ensures !old(timerActive) ==> unchanged(this) && unchanged(prefs)
      ensures old(timerActive) ==> ui.remainingSeconds == old(ui.remainingSeconds) - 1
      ensures old(timerActive) && ui.remainingSeconds > 0 ==>
        && ui == old(ui).(remainingSeconds := old(ui.remainingSeconds) - 1)
        && timerActive && listening == old(listening)
        && prefs.values == old(prefs.values)
      ensures old(timerActive) && ui.remainingSeconds == 0 ==>
        && !timerActive && !listening
        && ui == old(ui).(remainingSeconds := 0, running := false, finished := true, resultSpm := ResultSpm(totalSteps))
        && prefs.values == old(prefs.values)[KEY_BASE_SPM := ResultSpm(totalSteps)]
    {
      if !timerActive {
        return;
      }
      ui := ui.(remainingSeconds := ui.remainingSeconds - 1);
      if ui.remainingSeconds <= 0 {
        timerActive := false;
        FinishCalibration();
      }
    }

    /** finishCalibration(): unregister, store and show steps / 5. */
    method FinishCalibration()
      requires Valid()
      modifies this`ui, this`listening, prefs
      ensures Valid()
      ensures !listening
      ensures ui == old(ui).(running := false, finished := true, resultSpm := ResultSpm(totalSteps))
      ensures prefs.values == old(prefs.values)[KEY_BASE_SPM := ResultSpm(totalSteps)]
    {
      listening := false;
      var resultSpm := totalSteps / DURATION_MINUTES;
      assert resultSpm == ResultSpm(totalSteps);
      prefs.PutInt(KEY_BASE_SPM, resultSpm);
      ui := ui.(running := false, finished := true, resultSpm := resultSpm);
    }

    /** onSensorChanged(event): a delivered step-detector event is one step. */
    method OnSensorChanged(sensorType: int)
      requires Valid()
      modifies this`totalSteps
      ensures Valid()
      ensures totalSteps == old(totalSteps) + (if listening && sensorType == TYPE_STEP_DETECTOR then 1 else 0)
    {
      if listening && sensorType == TYPE_STEP_DETECTOR {
        totalSteps := totalSteps + 1;
      }
    }

    /**
     * The countdown loop of startTimer run to its end with no step events in
     * between: it takes exactly as many seconds as were on the clock.
     */
    method RunCountdown() returns (seconds: nat)
      requires Valid() && timerActive
      modifies this`ui, this`listening, this`timerActive, prefs
      ensures Valid()
      ensures seconds == old(ui.remainingSeconds)
      ensures !timerActive && !listening && ui.finished && !ui.running && ui.remainingSeconds == 0
      ensures ui.resultSpm == ResultSpm(totalSteps) && totalSteps == old(totalSteps)
      ensures prefs.values == old(prefs.values)[KEY_BASE_SPM := ui.resultSpm]
    {
      seconds := 0;
      while timerActive
        invariant Valid() && totalSteps == old(totalSteps)
        invariant ui.remainingSeconds + seconds == old(ui.remainingSeconds)
        invariant timerActive ==> prefs.values == old(prefs.values)
        invariant !timerActive ==> !listening && ui.finished && !ui.running && ui.remainingSeconds == 0
        invariant !timerActive ==> ui.resultSpm == ResultSpm(totalSteps)
        invariant !timerActive ==> prefs.values == old(prefs.values)[KEY_BASE_SPM := ui.resultSpm]
        decreases ui.remainingSeconds + (if timerActive then 1 else 0)
      {
        Tick();
        seconds := seconds + 1;
      }
    }
  }

  /**
   * A calibration started from a fresh view model while the walker takes one
   * step each second: 300 steps in 300 seconds store a baseline of 60.
   */
  method WalkOneStepPerSecond(prefs: PrefStore) returns (vm: CalibrationViewModel, seconds: nat)
    modifies prefs
    ensures seconds == 300 && vm.totalSteps == 300
    ensures vm.ui == CalibrationUiState(false, true, 0, 60)
    ensures prefs.values == old(prefs.values)[KEY_BASE_SPM := 60]
  {
    vm := new CalibrationViewModel(prefs);
    vm.Start();
    seconds := 0;
    while vm.timerActive
      invariant fresh(vm) && vm.prefs == prefs && vm.Valid()
      invariant vm.totalSteps == seconds && vm.ui.remainingSeconds + seconds == 300
      invariant vm.timerActive ==> vm.listening && vm.ui == CalibrationUiState(true, false, 300 - seconds, 0)
      invariant vm.timerActive ==> prefs.values == old(prefs.values)
      invariant !vm.timerActive ==> vm.ui == CalibrationUiState(false, true, 0, ResultSpm(seconds))
      invariant !vm.timerActive ==> prefs.values == old(prefs.values)[KEY_BASE_SPM := ResultSpm(seconds)]
      decreases vm.ui.remainingSeconds + (if vm.timerActive then 1 else 0)
    {
      vm.OnSensorChanged(TYPE_STEP_DETECTOR);
      vm.Tick();
      seconds := seconds + 1;
    }
    CalibrationExample();
  }
}
