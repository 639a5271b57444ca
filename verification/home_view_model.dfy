/**
 * HomeViewModel: the fast and slow target cadences shown on the home screen.
 * A stored `fast_spm`/`slow_spm` wins; otherwise a calibrated baseline
 * `base_spm` gives baseline +/- 20, and without a baseline the defaults are
 * 120 and 80.
 */
module Home {
  import opened Prefs
  import Calibration

  const KEY_BASE_SPM := Calibration.KEY_BASE_SPM
  const KEY_FAST_SPM := "fast_spm"
  const KEY_SLOW_SPM := "slow_spm"

  datatype HomeUiState = HomeUiState(fastSpm: int, slowSpm: int, isCalibrated: bool)

  /** HomeUiState() before anything is loaded. */
  const DefaultHomeUi := HomeUiState(120, 80, false)

  /** The state loadPaces computes from the store. */
  function Paces(store: map<string, int>): (r: HomeUiState)
    ensures r.isCalibrated <==> KEY_BASE_SPM in store && store[KEY_BASE_SPM] > 0
    ensures KEY_FAST_SPM in store ==> r.fastSpm == store[KEY_FAST_SPM]
    ensures KEY_SLOW_SPM in store ==> r.slowSpm == store[KEY_SLOW_SPM]
    ensures KEY_FAST_SPM !in store ==> r.fastSpm == (if r.isCalibrated then store[KEY_BASE_SPM] + 20 else 120)
    ensures KEY_SLOW_SPM !in store ==> r.slowSpm == (if r.isCalibrated then store[KEY_BASE_SPM] - 20 else 80)
  {
    var baseSpm := Lookup(store, KEY_BASE_SPM, 0);
    var fastSpm := Lookup(store, KEY_FAST_SPM, if baseSpm > 0 then baseSpm + 20 else 120);
    var slowSpm := Lookup(store, KEY_SLOW_SPM, if baseSpm > 0 then baseSpm - 20 else 80);
    HomeUiState(fastSpm, slowSpm, baseSpm > 0)
  }

  /** An empty store loads the defaults HomeUiState starts with. */
  lemma EmptyStoreLoadsDefaults()
    ensures Paces(map[]) == DefaultHomeUi
  {
  }

  /** Saving a fast target and loading again reads it back and changes nothing else. */
  lemma SaveFastThenLoad(store: map<string, int>, spm: int)
    ensures Paces(store[KEY_FAST_SPM := spm]) == Paces(store).(fastSpm := spm)
  {
  }

  /** Saving a slow target and loading again reads it back and changes nothing else. */
  lemma SaveSlowThenLoad(store: map<string, int>, spm: int)
    ensures Paces(store[KEY_SLOW_SPM := spm]) == Paces(store).(slowSpm := spm)
  {
  }

  /** Once both targets are stored, the calibration baseline no longer moves them. */
  lemma StoredTargetsOverrideBaseline(store: map<string, int>, baseSpm: int)
    requires KEY_FAST_SPM in store && KEY_SLOW_SPM in store
    ensures Paces(store[KEY_BASE_SPM := baseSpm]).fastSpm == Paces(store).fastSpm
    ensures Paces(store[KEY_BASE_SPM := baseSpm]).slowSpm == Paces(store).slowSpm
  {
  }

  /** Without stored targets a positive baseline gives targets 40 apart, centred on it. */
  lemma CalibratedDefaults(store: map<string, int>, baseSpm: int)
    requires KEY_FAST_SPM !in store && KEY_SLOW_SPM !in store
    ensures var r := Paces(store[KEY_BASE_SPM := baseSpm]);
      baseSpm > 0 ==> r == HomeUiState(baseSpm + 20, baseSpm - 20, true)
    ensures baseSpm <= 0 ==> Paces(store[KEY_BASE_SPM := baseSpm]) == DefaultHomeUi
  {
  }

  class HomeViewModel {
    const prefs: PrefStore
    var ui: HomeUiState

    /** The view model loads the paces as it is created. */
    constructor (prefs: PrefStore)
      ensures this.prefs == prefs
      ensures ui == Paces(prefs.values)
    {
      this.prefs := prefs;
      ui := DefaultHomeUi;
      new;
      LoadPaces();
    }

    /** loadPaces(). */
    method LoadPaces()
      modifies this`ui
      ensures ui == Paces(prefs.values)
    {
      var baseSpm := prefs.GetInt(KEY_BASE_SPM, 0);
      var fastSpm := prefs.GetInt(KEY_FAST_SPM, if baseSpm > 0 then baseSpm + 20 else 120);
      var slowSpm := prefs.GetInt(KEY_SLOW_SPM, if baseSpm > 0 then baseSpm - 20 else 80);
      ui := HomeUiState(fastSpm, slowSpm, baseSpm > 0);
    }

    /** saveFastSpm(spm). */
    method SaveFastSpm(spm: int)
      modifies this`ui, prefs
      ensures ui == old(ui).(fastSpm := spm)
      ensures prefs.values == old(prefs.values)[KEY_FAST_SPM := spm]
      ensures old(ui) == Paces(old(prefs.values)) ==> ui == Paces(prefs.values)
    {
      ui := ui.(fastSpm := spm);
      prefs.PutInt(KEY_FAST_SPM, spm);
      SaveFastThenLoad(old(prefs.values), spm);
    }

    /** saveSlowSpm(spm). */
    method SaveSlowSpm(spm: int)
      modifies this`ui, prefs
      ensures ui == old(ui).(slowSpm := spm)
      ensures prefs.values == old(prefs.values)[KEY_SLOW_SPM := spm]
      ensures old(ui) == Paces(old(prefs.values)) ==> ui == Paces(prefs.values)
    {
      ui := ui.(slowSpm := spm);
      prefs.PutInt(KEY_SLOW_SPM, spm);
      SaveSlowThenLoad(old(prefs.values), spm);
    }
  }
}
