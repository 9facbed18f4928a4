/**
 * The extension's local storage area, as an abstract map. A write either takes effect or
 * fails with the runtime's `lastError` message, which the caller supplies.
 */
module ChromeStorage {
  import opened Wrappers
  import opened Palette

  /** The two keys the extension stores. */
  datatype StoreKey = CurrentThemeKey | CustomThemesKey

  /** A stored value: one theme (under `currentTheme`) or a list of them (under `customThemes`). */
  datatype StoreValue = ThemeValue(theme: Theme) | ThemeListValue(themes: seq<Theme>)

  class Store {
    var data: map<StoreKey, StoreValue>

    constructor (data: map<StoreKey, StoreValue>)
      ensures this.data == data
    {
      this.data := data;
    }

    /** `get(key)`: the stored value, or nothing when the key was never written. */
    method Get(key: StoreKey) returns (v: Option<StoreValue>)
      ensures key in data ==> v == Some(data[key])
      ensures key !in data ==> v == None
    {
      if key in data {
        v := Some(data[key]);
      } else {
        v := None;
      }
    }

    /**
     * `set({key: value})`. With `failure == None` the write takes effect and resolves; with
     * `Some(message)` nothing is written and the call rejects with that message.
     */
    method Set(key: StoreKey, value: StoreValue, failure: Option<string>) returns (o: Outcome)
      modifies this
      ensures failure.None? ==> data == old(data)[key := value] && o == Resolved
      ensures failure.Some? ==> data == old(data) && o == Rejected(failure.value)
    {
      if failure.None? {
        data := data[key := value];
        o := Resolved;
      } else {
        o := Rejected(failure.value);
      }
    }
  }
}
