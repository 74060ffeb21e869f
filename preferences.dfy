/**
 * The app's preference store (a DataStore of boolean preferences), as a mutable map
 * from key to value. A key that was never written reads as false, the `?: false`
 * fallback every reader of the store applies.
 */
module Preferences {
  const DIAGNOSTICS_ENABLED_KEY: string := "diagnostics_enabled"
  const FIRST_LAUNCH_COMPLETE_KEY: string := "first_launch_complete"

  class PreferenceStore {
    var values: map<string, bool>

    constructor(initial: map<string, bool>)
      ensures values == initial
    {
      values := initial;
    }

    /** `preferences[key] ?: false`. */
    function Get(key: string): bool
      reads this
    {
      if key in values then values[key] else false
    }

    /** `dataStore.edit { preferences[key] = value }`. */
    method Set(key: string, value: bool)
      modifies this
      ensures values == old(values)[key := value]
      ensures Get(key) == value
    {
      values := values[key := value];
    }
  }
}
