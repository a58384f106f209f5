/**
  The preference store the engine and the language settings persist into,
  taken as a plain key-to-string map.  Encryption, the separate secure store
  and the asynchronous `apply()` of the Android wrapper are not modelled.
 */
module Persistence {

  type Store = map<string, string>

  /** `getString(key, default)`: the stored value, or the default when the key is absent. */
  function GetString(store: Store, key: string, default: string): string
  {
    if key in store then store[key] else default
  }
}
