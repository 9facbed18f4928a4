/**
 * The popup's module-level state (`currentPage`, `currentTheme`, `customThemes`) and the
 * event handlers that reassign it.
 */
module Popup {
  import opened Wrappers
  import opened Palette
  import opened ChromeStorage
  import opened ThemeRenderer
  import opened CustomThemeManager

  /** The previous page: one back, but never below page 1. */
  function PrevPage(page: int): int {
    if page > 1 then page - 1 else page
  }

  /** The next page: one on, but only while below the last page. */
  function NextPage(page: int, totalPages: nat): int {
    if page < totalPages then page + 1 else page
  }

  /** The page numbers the popup can reach: 1 up to the last page, or just 1 with no presets. */
  predicate PageInRange(page: int, totalPages: nat) {
    1 <= page && (page <= totalPages || page == 1)
  }

  /** Both buttons keep the page in range, and each moves it by at most one. */
  lemma NavigationStaysInRange(page: int, totalPages: nat)
    requires PageInRange(page, totalPages)
    ensures PageInRange(PrevPage(page), totalPages) && PageInRange(NextPage(page, totalPages), totalPages)
    ensures page - 1 <= PrevPage(page) <= page && page <= NextPage(page, totalPages) <= page + 1
    ensures PrevPage(page) == page <==> page == 1
    ensures NextPage(page, totalPages) == page <==> page >= totalPages
  {
  }

  /** Next then previous comes back, unless already on the last page. */
  lemma NextThenPrev(page: int, totalPages: nat)
    requires PageInRange(page, totalPages) && page < totalPages
    ensures PrevPage(NextPage(page, totalPages)) == page
  {
  }

  /**
   * On a page in range there is something to show, and the buttons' disabled flags match the
   * handlers. This needs a non-empty preset list: see `EmptyPresetsNextEnabled`.
   */
  lemma ButtonsMatchHandlers(presets: seq<Theme>, page: int, current: Option<Theme>)
    requires PageInRange(page, TotalPages(|presets|)) && presets != []
    ensures var v := RenderThemes(Some(presets), page, current);
            && v.cards != []
            && (v.prevDisabled <==> PrevPage(page) == page)
            && (v.nextDisabled <==> NextPage(page, TotalPages(|presets|)) == page)
  {
    PagesNotEmpty(presets, page);
  }

  /**
   * With no presets there are no pages, yet page 1 renders an enabled next button (`1 === 0`
   * is false) whose handler does nothing.
   */
  lemma EmptyPresetsNextEnabled(current: Option<Theme>)
    ensures var v := RenderThemes(Some([]), 1, current);
            !v.nextDisabled && v.cards == [] && NextPage(1, TotalPages(0)) == 1
  {
  }

  /** `data.currentTheme || null`: a stored theme, or nothing. */
  function StoredTheme(data: map<StoreKey, StoreValue>): Option<Theme> {
    if CurrentThemeKey in data && data[CurrentThemeKey].ThemeValue? then Some(data[CurrentThemeKey].theme) else None
  }

  /** `data.customThemes || []`: the stored list, or the empty one. */
  function StoredCustomThemes(data: map<StoreKey, StoreValue>): seq<Theme> {
    if CustomThemesKey in data && data[CustomThemesKey].ThemeListValue? then data[CustomThemesKey].themes else []
  }

  /** What is stored is what loads back, and an empty store loads the defaults. */
  lemma StoredRoundTrip(data: map<StoreKey, StoreValue>, theme: Theme, themes: seq<Theme>)
    ensures StoredTheme(data[CurrentThemeKey := ThemeValue(theme)]) == Some(theme)
    ensures StoredCustomThemes(data[CustomThemesKey := ThemeListValue(themes)]) == themes
    ensures StoredTheme(data[CustomThemesKey := ThemeListValue(themes)]) == StoredTheme(data)
    ensures StoredCustomThemes(data[CurrentThemeKey := ThemeValue(theme)]) == StoredCustomThemes(data)
    ensures StoredTheme(map[]) == None && StoredCustomThemes(map[]) == []
  {
  }

  class PopupState {
    var currentPage: int
    var currentTheme: Option<Theme>
    var customThemes: seq<Theme>
    const store: Store
    /** The preset list (`SLACK_THEMES`). */
    const presets: seq<Theme>

    /** Page 1, no current theme, no custom themes. */
    constructor (store: Store, presets: seq<Theme>)
      ensures currentPage == 1 && currentTheme == None && customThemes == []
      ensures CurrentThemeLabel(currentTheme) == "없음"
      ensures this.store == store && this.presets == presets
      ensures PageInRange(currentPage, TotalPages(|presets|))
    {
      currentPage := 1;
      currentTheme := None;
      customThemes := [];
      this.store := store;
      this.presets := presets;
    }

    /** `loadSavedData`: both keys read back, with their defaults when missing. */
    method LoadSavedData()
      modifies this`currentTheme, this`customThemes
      ensures currentTheme == StoredTheme(store.data)
      ensures customThemes == StoredCustomThemes(store.data)
    {
      var theme := store.Get(CurrentThemeKey);
      var themes := store.Get(CustomThemesKey);
      currentTheme := if theme.Some? && theme.value.ThemeValue? then Some(theme.value.theme) else None;
      customThemes := if themes.Some? && themes.value.ThemeListValue? then themes.value.themes else [];
    }

    /** The previous-page button. */
    method OnPrevPage()
      modifies this`currentPage
      ensures currentPage == PrevPage(old(currentPage))
    {
      if currentPage > 1 {
        currentPage := currentPage - 1;
      }
    }

    /** The next-page button: the bound is the page count of the preset list. */
    method OnNextPage()
      modifies this`currentPage
      ensures currentPage == NextPage(old(currentPage), TotalPages(|presets|))
    {
      var totalPages := TotalPages(|presets|);
      if currentPage < totalPages {
        currentPage := currentPage + 1;
      }
    }

    /**
     * `applyTheme`: the theme becomes current before it is written, so it stays current
     * when the write fails; the failure is caught.
     */
    method ApplyTheme(theme: Theme, failure: Option<string>)
      modifies this`currentTheme, store
      ensures currentTheme == Some(theme)
      ensures CurrentThemeLabel(currentTheme) == theme.name
      ensures failure.None? ==> store.data == old(store.data)[CurrentThemeKey := ThemeValue(theme)]
      ensures failure.Some? ==> store.data == old(store.data)
    {
      currentTheme := Some(theme);
      var _ := store.Set(CurrentThemeKey, ThemeValue(theme), failure);
    }

    /** The delete button: on success the list becomes the returned one; on error it stays. */
    method HandleDeleteCustomTheme(index: nat, confirmed: bool, failure: Option<string>)
      modifies this`customThemes, store
      ensures confirmed && failure.None? && index < |old(customThemes)| ==>
                customThemes == Spliced(old(customThemes), index)
      ensures !(confirmed && failure.None? && index < |old(customThemes)|) ==> customThemes == old(customThemes)
      ensures confirmed && failure.None? ==>
                store.data == old(store.data)[CustomThemesKey := ThemeListValue(Spliced(old(customThemes), index))]
      ensures !(confirmed && failure.None?) ==> store.data == old(store.data)
    {
      var r := DeleteCustomTheme(store, index, customThemes, confirmed, failure);
      if r.Ok? {
        customThemes := r.value;
      }
    }

    /**
     * The save button. The save writes the list and then applies the new theme through
     * `applyTheme`; on success the list becomes the one it returned. A failed save changes
     * nothing.
     */
    method HandleSaveCustomTheme(form: Form, editing: Option<nat>, now: nat, hasColorUtils: bool,
                                 failure: Option<string>, applyFailure: Option<string>)
      modifies this`customThemes, this`currentTheme, store
      ensures var saves := failure.None? && (editing.None? || editing.value < |old(customThemes)|);
              && (saves ==>
                    var id := if editing.Some? then old(customThemes)[editing.value].id else NewId(now);
                    var theme := BuildTheme(form, id, hasColorUtils);
                    var themes := SavedList(old(customThemes), theme, editing);
                    var written := old(store.data)[CustomThemesKey := ThemeListValue(themes)];
                    && customThemes == themes
                    && currentTheme == Some(theme)
                    && store.data == (if applyFailure.None? then written[CurrentThemeKey := ThemeValue(theme)] else written))
              && (!saves ==> customThemes == old(customThemes) && currentTheme == old(currentTheme)
                             && store.data == old(store.data))
    {
      var r := SaveCustomTheme(store, customThemes, form, editing, now, hasColorUtils, failure);
      if r.Ok? {
        ApplyTheme(r.value.theme, applyFailure);
        customThemes := r.value.themes;
      }
    }
  }
}
