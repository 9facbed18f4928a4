/**
 * Saving and deleting the user's own themes: the theme record built from the form, the
 * updated copy of the list, and the write of that list under `customThemes`.
 */
module CustomThemeManager {
  import opened Wrappers
  import opened Strings
  import opened Palette
  import opened ChromeStorage
  import opened ColorUtils

  /** The modal's field values: the name box and the six colour pickers. */
  datatype Form = Form(name: string, chatBg: string, chatText: string, sidebar: string,
                       header: string, inputBg: string, accent: string)

  /** What a successful save hands back: the saved theme and the list written. */
  datatype Saved = Saved(theme: Theme, themes: seq<Theme>)

  const DefaultName := "내 테마"
  const CustomDescription := "커스텀 테마"
  const CustomIdPrefix := "custom-"
  /** The error raised by reading a property of `undefined`. */
  const UndefinedRead := "TypeError: Cannot read properties of undefined"

  /** The trimmed name, or the default when nothing but white space was typed. */
  function ThemeName(input: string): string {
    var t := Trim(input);
    if t == [] then DefaultName else t
  }

  /** The id of a new theme created at time `now` (milliseconds). */
  function NewId(now: nat): string {
    CustomIdPrefix + NatToString(now)
  }

  /** The stored text colour: the contrast colour when the colour helpers are loaded. */
  function FinalChatText(form: Form, hasColorUtils: bool): string {
    if hasColorUtils then GetContrastColor(form.chatBg, form.chatText) else form.chatText
  }

  /** The theme object the save builds, with the given id. */
  function BuildTheme(form: Form, id: string, hasColorUtils: bool): Theme {
    Theme(id, ThemeName(form.name), CustomDescription,
          Some(FullColors(form.sidebar, form.sidebar, form.header, form.chatBg,
                          FinalChatText(form, hasColorUtils), form.inputBg, form.accent, form.accent)),
          true)
  }

  /**
   * The record a save builds: a custom theme whose name is never empty and has no white
   * space at either end, whose primary colour is the sidebar colour and whose input border is
   * the accent colour, and whose text colour is forced to black or white by the background
   * when the colour helpers are loaded.
   */
  lemma BuiltThemeShape(form: Form, id: string, hasColorUtils: bool)
    ensures var t := BuildTheme(form, id, hasColorUtils);
            && t.id == id && t.isCustom && t.description == CustomDescription && t.colors.Some?
            && t.name != [] && !IsTrimmed(t.name[0]) && !IsTrimmed(t.name[|t.name| - 1])
            && (t.name != DefaultName ==> Trim(form.name) == t.name)
            && (Trim(form.name) == [] <==> forall k :: 0 <= k < |form.name| ==> IsTrimmed(form.name[k]))
            && t.colors.value.primary == t.colors.value.sidebar == Some(form.sidebar)
            && t.colors.value.inputBorder == t.colors.value.accent == Some(form.accent)
            && t.colors.value.chatBg == Some(form.chatBg)
            && t.colors.value.header == Some(form.header)
            && t.colors.value.inputBg == Some(form.inputBg)
            && t.colors.value.stickyHeader.None? && t.colors.value.userBubble.None?
            && (hasColorUtils ==> t.colors.value.chatText == Some(GetContrastColor(form.chatBg, form.chatText)))
            && (hasColorUtils ==> t.colors.value.chatText == Some(DarkText) || t.colors.value.chatText == Some(LightText))
            && (!hasColorUtils ==> t.colors.value.chatText == Some(form.chatText))
  {
    TrimSpec(form.name);
  }

  /** A name of nothing but an ideographic space gets the default name. */
  lemma IdeographicSpaceName()
    ensures ThemeName("\U{3000}") == DefaultName
  {
    assert "\U{3000}"[1..] == [];
    assert TrimStart("\U{3000}") == [];
  }

  /** A name of nothing but a no-break and an em space gets the default name. */
  lemma UnicodeSpacesName()
    ensures ThemeName("\U{00A0}\U{2003}") == DefaultName
  {
    var s := "\U{00A0}\U{2003}";
    var rest := "\U{2003}";
    assert s[1..] == rest && rest[1..] == [];
    assert IsTrimmed(s[0]) && IsTrimmed(rest[0]);
    assert TrimStart(rest) == [];
    assert TrimStart(s) == TrimStart(rest);
  }

  /** The list a save writes: the edited entry replaced, or the new one appended. */
  function SavedList(themes: seq<Theme>, theme: Theme, editing: Option<nat>): seq<Theme>
    requires editing.Some? ==> editing.value < |themes|
  {
    if editing.Some? then themes[editing.value := theme] else themes + [theme]
  }

  /**
   * Editing keeps the length and changes only the edited slot; creating adds one entry at the
   * end with the earlier ones unchanged.
   */
  lemma SavedListSpec(themes: seq<Theme>, theme: Theme, editing: Option<nat>)
    requires editing.Some? ==> editing.value < |themes|
    ensures var r := SavedList(themes, theme, editing);
            && (editing.Some? ==> |r| == |themes| && r[editing.value] == theme
                                  && forall j :: 0 <= j < |themes| && j != editing.value ==> r[j] == themes[j])
            && (editing.None? ==> |r| == |themes| + 1 && r[|themes|] == theme && r[..|themes|] == themes)
  {
  }

  /** The list after `splice(index, 1)`: the entry removed, or nothing when out of range. */
  function Spliced(themes: seq<Theme>, index: nat): seq<Theme> {
    if index < |themes| then themes[..index] + themes[index + 1..] else themes
  }

  /** An in-range removal drops exactly that entry and keeps the rest in order. */
  lemma SplicedSpec(themes: seq<Theme>, index: nat)
    ensures index < |themes| ==>
              var r := Spliced(themes, index);
              && |r| == |themes| - 1
              && (forall j :: 0 <= j < index ==> r[j] == themes[j])
              && (forall j :: index <= j < |r| ==> r[j] == themes[j + 1])
              && multiset(r) + multiset{themes[index]} == multiset(themes)
    ensures index >= |themes| ==> Spliced(themes, index) == themes
  {
    if index < |themes| {
      assert themes == themes[..index] + [themes[index]] + themes[index + 1..];
    }
  }

  /**
   * `saveCustomTheme`. Editing an index past the end fails reading the old id, before any
   * write. Otherwise the theme and the updated copy of the list are built, the list is
   * written, and the pair is returned; a failed write fails the save and writes nothing.
   * The input list itself is a value here, so it cannot be changed.
   */
  method SaveCustomTheme(store: Store, customThemes: seq<Theme>, form: Form, editing: Option<nat>,
                         now: nat, hasColorUtils: bool, failure: Option<string>) returns (r: Result<Saved>)
    modifies store
    ensures editing.Some? && editing.value >= |customThemes| ==> r == Failed(UndefinedRead) && store.data == old(store.data)
    ensures editing.None? || editing.value < |customThemes| ==>
              var id := if editing.Some? then customThemes[editing.value].id else NewId(now);
              var theme := BuildTheme(form, id, hasColorUtils);
              var themes := SavedList(customThemes, theme, editing);
              && (failure.None? ==> r == Ok(Saved(theme, themes))
                                    && store.data == old(store.data)[CustomThemesKey := ThemeListValue(themes)])
              && (failure.Some? ==> r == Failed(failure.value) && store.data == old(store.data))
  {
    var id: string;
    if editing.Some? {
      if editing.value >= |customThemes| {
        return Failed(UndefinedRead);
      }
      id := customThemes[editing.value].id;
    } else {
      id := NewId(now);
    }
    var theme := BuildTheme(form, id, hasColorUtils);
    var updated := customThemes;
    if editing.Some? {
      updated := updated[editing.value := theme];
    } else {
      updated := updated + [theme];
    }
    var o := store.Set(CustomThemesKey, ThemeListValue(updated), failure);
    if o.Rejected? {
      return Failed(o.message);
    }
    r := Ok(Saved(theme, updated));
  }

  /**
   * `deleteCustomTheme`. A declined confirmation returns the list and writes nothing. A
   * confirmed one writes the spliced copy; an index past the end removes nothing and then
   * fails reading the removed entry's name, after the write.
   */
  method DeleteCustomTheme(store: Store, index: nat, customThemes: seq<Theme>, confirmed: bool,
                           failure: Option<string>) returns (r: Result<seq<Theme>>)
    modifies store
    ensures !confirmed ==> r == Ok(customThemes) && store.data == old(store.data)
    ensures confirmed && failure.Some? ==> r == Failed(failure.value) && store.data == old(store.data)
    ensures confirmed && failure.None? ==>
              store.data == old(store.data)[CustomThemesKey := ThemeListValue(Spliced(customThemes, index))]
    ensures confirmed && failure.None? && index < |customThemes| ==> r == Ok(Spliced(customThemes, index))
    ensures confirmed && failure.None? && index >= |customThemes| ==> r == Failed(UndefinedRead)
  {
    if !confirmed {
      return Ok(customThemes);
    }
    var updated := customThemes;
    var removed: Option<Theme> := None;
    if index < |updated| {
      removed := Some(updated[index]);
      updated := updated[..index] + updated[index + 1..];
    }
    var o := store.Set(CustomThemesKey, ThemeListValue(updated), failure);
    if o.Rejected? {
      return Failed(o.message);
    }
    if removed.None? {
      return Failed(UndefinedRead);
    }
    r := Ok(updated);
  }
}
