/**
 * The SharedPreferences file "iwt_prefs" as the view models use it: a
 * process-wide store of integers by key, shared by the calibration and home
 * screens. Writes are visible at once (apply() only defers the disk write).
 */
module Prefs {

  /** getInt(key, default) on a snapshot of the store. */
  function Lookup(store: map<string, int>, key: string, default: int): int {
    if key in store then store[key] else default
  }

  class PrefStore {
    var values: map<string, int>

    constructor (initial: map<string, int>)
      ensures values == initial
    {
      values := initial;
    }

    /** getInt(key, default). */
    function GetInt(key: string, default: int): int
      reads this
    {
      Lookup(values, key, default)
    }

    /** edit().putInt(key, value).apply(). */
    method PutInt(key: string, value: int)
      modifies this
      ensures values == old(values)[key := value]
    {
      values := values[key := value];
    }
  }
}
