/** The content script's storage manager: an in-memory current theme over the store. */
module StorageManager {
  import opened Wrappers
  import opened Palette
  import opened ChromeStorage

  /**
   * What `loadSavedTheme` accepts from the store: a stored theme that has `colors`.
   * Anything else (nothing stored, a theme without colours, a value of another shape) is no theme.
   */
  function LoadedTheme(stored: Option<StoreValue>): (t: Option<Theme>)
    ensures t.Some? <==> stored.Some? && stored.value.ThemeValue? && stored.value.theme.colors.Some?
    ensures t.Some? ==> stored == Some(ThemeValue(t.value))
  {
    match stored
    case Some(ThemeValue(theme)) => if theme.colors.Some? then Some(theme) else None
    case _ => None
  }

  /** The three operations that may write the in-memory theme. */
  datatype MemoryOp =
    | Loaded(stored: Option<StoreValue>)
    | Saved(theme: Theme, failure: Option<string>)
    | Assigned(theme: Theme)

  /** The theme an operation writes into memory, if it writes one. */
  function Written(op: MemoryOp): Option<Theme> {
    match op
    case Loaded(stored) => LoadedTheme(stored)
    case Saved(theme, failure) => if failure.None? then Some(theme) else None
    case Assigned(theme) => Some(theme)
  }

  /** Memory after one operation. */
  function Apply(memory: Option<Theme>, op: MemoryOp): Option<Theme> {
    if Written(op).Some? then Written(op) else memory
  }

  /** Memory after a sequence of operations, applied in order. */
  function Replay(memory: Option<Theme>, ops: seq<MemoryOp>): Option<Theme>
    decreases |ops|
  {
    if ops == [] then memory else Apply(Replay(memory, ops[..|ops| - 1]), ops[|ops| - 1])
  }

  /**
   * `getCurrentTheme` returns what the last writing operation wrote; when no operation
   * wrote, it returns the starting value.
   */
  lemma {:induction false} ReplayIsLastWrite(memory: Option<Theme>, ops: seq<MemoryOp>)
    ensures (forall i :: 0 <= i < |ops| ==> Written(ops[i]).None?) ==> Replay(memory, ops) == memory
    ensures forall i :: 0 <= i < |ops| && Written(ops[i]).Some? && (forall j :: i < j < |ops| ==> Written(ops[j]).None?)
                        ==> Replay(memory, ops) == Written(ops[i])
    decreases |ops|
  {
    if ops != [] {
      var init := ops[..|ops| - 1];
      ReplayIsLastWrite(memory, init);
      assert forall i :: 0 <= i < |init| ==> init[i] == ops[i];
    }
  }

  /** After a successful save, loading yields the saved theme exactly when it has colours. */
  lemma SaveThenLoad(data: map<StoreKey, StoreValue>, theme: Theme)
    ensures var stored := data[CurrentThemeKey := ThemeValue(theme)];
            LoadedTheme(Some(stored[CurrentThemeKey])) == (if theme.colors.Some? then Some(theme) else None)
  {
  }

  class StorageManager {
    /** The in-memory theme; `None` is JavaScript `null`. */
    var currentTheme: Option<Theme>
    const store: Store

    /** The module starts with no theme in memory. */
    constructor (store: Store)
      ensures currentTheme.None? && this.store == store
    {
      currentTheme := None;
      this.store := store;
    }

    /** `loadSavedTheme()`: read `currentTheme` from the store and keep it if it has colours. */
    method LoadSavedTheme() returns (t: Option<Theme>)
      modifies this`currentTheme
      ensures t == LoadedTheme(if CurrentThemeKey in store.data then Some(store.data[CurrentThemeKey]) else None)
      ensures currentTheme == Apply(old(currentTheme), Loaded(if CurrentThemeKey in store.data then Some(store.data[CurrentThemeKey]) else None))
      ensures t.Some? ==> currentTheme == t
      ensures t.None? ==> currentTheme == old(currentTheme)
    {
      var stored := store.Get(CurrentThemeKey);
      t := LoadedTheme(stored);
      if t.Some? {
        currentTheme := t;
      }
    }

    /** `saveTheme(theme)`: write the store first; only a write that succeeds updates memory. */
    method SaveTheme(theme: Theme, failure: Option<string>) returns (o: Outcome)
      modifies this`currentTheme, store
      ensures failure.None? ==> o == Resolved && store.data == old(store.data)[CurrentThemeKey := ThemeValue(theme)]
      ensures failure.Some? ==> o == Rejected(failure.value) && store.data == old(store.data)
      ensures currentTheme == Apply(old(currentTheme), Saved(theme, failure))
      ensures o.Resolved? ==> currentTheme == Some(theme)
      ensures o.Rejected? ==> currentTheme == old(currentTheme)
    {
      o := store.Set(CurrentThemeKey, ThemeValue(theme), failure);
      if o.Resolved? {
        currentTheme := Some(theme);
      }
    }

    /** `getCurrentTheme()`. */
    method GetCurrentTheme() returns (t: Option<Theme>)
      ensures t == currentTheme
    {
      t := currentTheme;
    }

    /** `setCurrentTheme(theme)`: memory only; the store is not touched. */
    method SetCurrentTheme(theme: Theme)
      modifies this`currentTheme
      ensures currentTheme == Apply(old(currentTheme), Assigned(theme))
      ensures currentTheme == Some(theme)
    {
      currentTheme := Some(theme);
    }
  }
}
