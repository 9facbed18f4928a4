# I-Look theme extension: a Dafny model

I-Look is a browser extension that re-colours four AI chat sites: ChatGPT, Claude, Gemini and Grok.
A content script runs in the chat page. It works out which site the page belongs to and builds that
site's style sheet from a ten-role colour palette. It writes the sheet into one `<style>` element
with a fixed id, keeps the current theme in memory and in local storage, and re-applies it after
page mutations. A popup lists the preset themes six to a page, applies a chosen theme, and lets the
user create, edit and delete custom themes.

This project models that core in Dafny and proves properties of the model. Each source file
becomes one module:

- `PlatformDetector`: host name to platform key (a first-match chain) and the selector table.
- `ChatGptStyles`, `ClaudeStyles`, `GeminiStyles`, `GrokStyles`: each platform's style template.
  A template is a list of CSS rules over the palette, rendered to text.
- `StyleInjector`:
  - the textual lightness test;
  - the generic style template;
  - a `Document` class with the `<head>` elements and the page elements' inline styles, which
    the injector updates in place.
- `ThemeApplier`: an `Applier` class with the re-entrancy flag, the platform dispatch, and the
  injection of the result.
- `StorageManager`: a class with the in-memory current theme over a `ChromeStorage.Store`.
- `ContentScript`: the message handler, the debounced re-apply after mutations, and the
  start-up load.
- `ColorUtils`: the contrast text colour and the colour-picker/hex-field sync.
- `CustomThemeManager`: the custom theme record and the list updates for save and delete.
- `ThemeRenderer`: the arithmetic of preset pagination, the active card and the
  current-theme label.
- `Popup`: the popup's page, current theme and custom list, and the handlers that change them.

Helper modules:

- `Wrappers`: `Option`, `Result`, `Outcome`.
- `Strings`: JavaScript string operations on `seq<char>`.
- `Palette`: the palette, the theme, and JavaScript's `undefined` and `||` on its fields.
- `Css`: rules, rendering, and "the text contains this rule".
- `ChromeStorage`: local storage as a map whose writes can fail.

Where the page or the browser supplies a value, the model takes it as a parameter:

- the page's host name;
- which platform modules are loaded;
- whether a storage write fails, and with what message;
- `Date.now()`;
- the answer to the delete confirmation;
- whether the colour helpers are loaded;
- the preset list.

## Model

| member | source | states |
|---|---|---|
| PlatformDetector.DetectPlatform | extension/content/platformDetector.js:81-91 | every key detection yields has an entry in the selector table |
| PlatformDetector.DetectIsFirstMatch | extension/content/platformDetector.js:84-90 | the if-chain equals the first match over the ordered substring list |
| PlatformDetector.FirstMatchSpec | extension/content/platformDetector.js:84-90 | first-match semantics: entry j wins iff its substring occurs and no earlier one does |
| PlatformDetector.FirstMatchNone | extension/content/platformDetector.js:90 | null exactly when none of the substrings occurs in the host name |
| PlatformDetector.FirstMatchFrom | extension/content/platformDetector.js:84-88 | a match is the key of an entry whose substring occurs |
| PlatformDetector.ClaudeWins | extension/content/platformDetector.js:84 | a host name containing "claude.ai" is Claude whatever else it contains |
| PlatformDetector.OpenAiHosts | extension/content/platformDetector.js:85-86 | "chatgpt.com" is tested before "openai.com"; "openai.com" alone gives "chat.openai.com" |
| PlatformDetector.LaterHosts | extension/content/platformDetector.js:87-90 | Gemini, then Grok, and null when none of the five substrings occurs |
| PlatformDetector.DetectedHasSelectors | extension/content/platformDetector.js:81-101 | every detected platform has selectors |
| PlatformDetector.TableKeysAreDetectable | extension/content/platformDetector.js:33-74 | the table's keys are exactly the keys detection can yield |
| PlatformDetector.SharedSelectors | extension/content/platformDetector.js:33-74 | every table entry has root "html" and header "header" |
| Css.RenderContainsRule | extension/content/platforms/claude.js:11-47 | every rule of a template appears in its rendered text |
| Css.RuleInFlatten | extension/content/styleInjector.js:123-386 | every rule of every group of a template appears in the text of the whole template |
| Css.FlattenMember | extension/content/styleInjector.js:262-306 | a rule is in the whole template iff it is in one of its groups |
| ChatGptStyles.GenerateStyles | extension/content/platforms/chatgpt.js:16-111 | the generated sheet is never empty |
| ChatGptStyles.RootVariables | extension/content/platforms/chatgpt.js:19-28 | `:root` carries the eight palette roles as `--theme-*` variables |
| ChatGptStyles.BodyUsesChatColours | extension/content/platforms/chatgpt.js:31-34 | the page background and text are `chatBg` and `chatText` |
| ChatGptStyles.LinksAndPanels | extension/content/platforms/chatgpt.js:55-57 | links use `accent`, and `.bg-bg-300` panels use `sidebar` |
| ChatGptStyles.StickyHeaderFallback | extension/content/platforms/chatgpt.js:72-75 | the sticky header uses `stickyHeader` when set, otherwise `chatBg` |
| ChatGptStyles.UserBubbleFallback | extension/content/platforms/chatgpt.js:93-95 | the user bubble uses `userBubble` when set, otherwise transparent |
| ChatGptStyles.LightFlagOnlyChangesHover | extension/content/platforms/chatgpt.js:98-102 | the light flag changes only the hover rule, and changes it to the two colours given |
| ClaudeStyles.GenerateStyles | extension/content/platforms/claude.js:10-47 | the generated sheet is never empty |
| ClaudeStyles.IgnoresLightFlag | extension/content/platforms/claude.js:10-47 | the output does not depend on the light flag |
| ClaudeStyles.RegionColours | extension/content/platforms/claude.js:13-36 | page, sidebar, header and input rules use the matching palette roles |
| ClaudeStyles.UserBubbleFallback | extension/content/platforms/claude.js:44-46 | the user message uses `userBubble` when set, otherwise transparent |
| GeminiStyles.GenerateStyles | extension/content/platforms/gemini.js:10-41 | the generated sheet is never empty |
| GeminiStyles.IgnoresLightFlag | extension/content/platforms/gemini.js:10-41 | the output does not depend on the light flag |
| GeminiStyles.IgnoresInputBorder | extension/content/platforms/gemini.js:10-41 | `inputBorder`, `primary`, `accent` and `stickyHeader` never reach the output |
| GeminiStyles.RegionColours | extension/content/platforms/gemini.js:13-35 | page, sidebar, header and input rules use the matching palette roles |
| GeminiStyles.UserBubbleFallback | extension/content/platforms/gemini.js:38-40 | the user message uses `userBubble` when set, otherwise transparent |
| GrokStyles.GenerateStyles | extension/content/platforms/grok.js:10-32 | the generated sheet is never empty |
| GrokStyles.IgnoresLightFlag | extension/content/platforms/grok.js:10-32 | the output does not depend on the light flag |
| GrokStyles.DependsOnFourRoles | extension/content/platforms/grok.js:10-32 | only `chatBg`, `chatText`, `sidebar` and `inputBg` reach the output |
| GrokStyles.RegionColours | extension/content/platforms/grok.js:13-31 | page, sidebar and textarea rules use the matching palette roles |
| StyleInjector.IsLightTheme | extension/content/styleInjector.js:72-81 | a missing or empty colour is dark; "255", "white" in any case, or the hex pattern each make it light |
| StyleInjector.HasLightHexIff | extension/content/styleInjector.js:77 | the unanchored search succeeds iff the pattern occurs at some position |
| StyleInjector.LightIffPattern | extension/content/styleInjector.js:76-80 | without "255" and "white", light iff the `#[F-f]` hex pattern occurs |
| StyleInjector.LightExamples | extension/content/styleInjector.js:77 | `#FAF9FA`, `#abcdef`, `#a0a0a0` and `#FFFFFF` are light |
| StyleInjector.ChannelExample | extension/content/styleInjector.js:78 | "rgb(10,10,255)" is light |
| StyleInjector.WhiteExample | extension/content/styleInjector.js:79 | "White" is light |
| StyleInjector.DarkExamples | extension/content/styleInjector.js:77 | `#A0A0A0` and `#002B36` are dark |
| StyleInjector.MoreDarkExamples | extension/content/styleInjector.js:73-80 | `#000000`, `#0D1117`, the empty string and a missing colour are dark |
| StyleInjector.NotLight | extension/content/styleInjector.js:76-80 | a 7-character colour outside the class with no '5' and no 'w' is dark |
| StyleInjector.CaseChangesLightness | extension/content/styleInjector.js:77 | upper-casing `#a0a0a0` turns light into dark |
| StyleInjector.IntendedIsLightTheme | extension/content/styleInjector.js:72-81 | the corrected test: the same three light conditions with the class `[Ff]` |
| StyleInjector.IntendedHexIgnoresCase | extension/content/styleInjector.js:77 | the corrected hex search gives the same answer for a string and its upper-cased form |
| StyleInjector.IntendedNarrower | extension/content/styleInjector.js:77 | whatever the corrected test calls light, the as-written one does too |
| StyleInjector.IntendedExamples | extension/content/styleInjector.js:77 | under the corrected test `#a0a0a0` and `#A0A0A0` are both dark, and `#ffffff` and `#FFFFFF` both light |
| StyleInjector.NotIntendedLight | extension/content/styleInjector.js:76-80 | a 7-character colour not starting `#F`/`#f` with no '5' and no 'w' is dark under the corrected test |
| StyleInjector.TokenRulesOnlyWhenLight | extension/content/styleInjector.js:262-306 | the eight syntax-token rules appear iff the palette is light |
| StyleInjector.GroupRuleShown | extension/content/styleInjector.js:123-386 | every rule of the generic template appears in the text written |
| StyleInjector.CodeRuleShown | extension/content/styleInjector.js:236-240 | the `code` rule uses the code-block background and text colours |
| StyleInjector.CodeRuleLiterals | extension/content/styleInjector.js:111-121 | on a light background the `code` rule is `rgba(0, 0, 0, 0.05)` on `#1A1A1A`; otherwise `rgba(255, 255, 255, 0.05)` with the palette's `chatText` |
| StyleInjector.GlobalBodyColours | extension/content/styleInjector.js:125-129 | the body rule uses `chatBg` and `chatText` |
| StyleInjector.GlobalRegionColours | extension/content/styleInjector.js:138-141 | the sidebar rule uses `sidebar`, links use `accent`, and the scrollbar thumb uses `accent` |
| StyleInjector.TextArgumentRendersUndefined | extension/content/styleInjector.js:106-129 | given a string, the template is the same for every string: dark, with "undefined" in the body rule and the dark code colours |
| StyleInjector.FindIdSpec | extension/content/styleInjector.js:97 | `getElementById` finds the first element with the id, or none iff there is none |
| StyleInjector.WithStyleTextSpec | extension/content/styleInjector.js:96-123 | the number of elements with the id becomes one when there were none and is otherwise unchanged; the first holds the text; one is appended only when none existed; every other element is unchanged |
| StyleInjector.WithStyleTextOverwrites | extension/content/styleInjector.js:96-123 | a second write replaces the first outright |
| StyleInjector.SetAllSpec | extension/content/styleInjector.js:53-55 | each property gets its last value with priority "important"; other properties keep theirs |
| StyleInjector.SetProperties | extension/content/styleInjector.js:53-55 | the loop sets exactly the fold of the entries |
| StyleInjector.Document.GetElementById | extension/content/styleInjector.js:97 | the loop returns the first element with the id, or none |
| StyleInjector.Document.WriteStyleTag | extension/content/styleInjector.js:96-103 | the `<head>` becomes the text written into the one element with the id |
| StyleInjector.Document.InjectGlobalStyles | extension/content/styleInjector.js:95-389 | the `<head>` holds the generic template for the argument's palette |
| StyleInjector.Document.ApplyStylesToElements | extension/content/styleInjector.js:41-64 | only matching elements that are not editable change, each by the properties set "important"; an invalid selector changes nothing |
| ThemeApplier.DispatchTable | extension/content/themeApplier.js:91-107 | both ChatGPT keys go to the ChatGPT module and the others to their own; a generator exists iff the key is in the table |
| ThemeApplier.DetectedPlatformsDispatch | extension/content/themeApplier.js:75-107 | every detected platform has a generator |
| ThemeApplier.PlatformCss | extension/content/themeApplier.js:86-107 | non-empty iff the platform's module is loaded, and then that module's output under the lightness test |
| ThemeApplier.AppliedTextIgnoresTheme | extension/content/themeApplier.js:110-117 | as written, the text injected is the same for every theme and is the generic template for no palette |
| ThemeApplier.IntendedTextIsPlatformCss | extension/content/themeApplier.js:110-117 | corrected: the style element holds the platform's own sheet |
| ThemeApplier.IntendedCarriesPalette | extension/content/themeApplier.js:110-117 | corrected, on Claude: the style text carries the theme's `chatBg` and `chatText` |
| ThemeApplier.Applier.ApplyTheme | extension/content/themeApplier.js:55-130 | busy: false and nothing changes; otherwise true iff a platform is detected and the theme has colours; then the theme becomes current and the head is as written; a flag clear on entry is clear again on every path |
| ThemeApplier.Applier.ApplyThemeIntended | extension/content/themeApplier.js:55-130 | the same, with the platform sheet written into the style element |
| ThemeApplier.Applier.ApplyOnPlatform | extension/content/themeApplier.js:84-126 | a theme without colours fails with nothing changed; otherwise the sheet is written when non-empty and the theme becomes current |
| ThemeApplier.Applier.IsThemeApplying | extension/content/themeApplier.js:137-139 | returns the flag |
| ChromeStorage.Store.Get | extension/content/storageManager.js:50 | the stored value, or none when the key is absent |
| ChromeStorage.Store.Set | extension/content/storageManager.js:71-74 | a write takes effect and resolves, or fails with the message and writes nothing |
| StorageManager.LoadedTheme | extension/content/storageManager.js:51-57 | a stored theme is returned iff it exists and has colours |
| StorageManager.ReplayIsLastWrite | extension/content/storageManager.js:41-100 | the in-memory theme is the one written by the last load that found a theme, the last successful save or the last set, and is unchanged without one |
| StorageManager.SaveThenLoad | extension/content/storageManager.js:48-82 | a theme with colours that was saved loads back |
| StorageManager.StorageManager.constructor | extension/content/storageManager.js:41 | memory starts empty |
| StorageManager.StorageManager.LoadSavedTheme | extension/content/storageManager.js:48-61 | returns the loaded theme; memory takes it only when one is found |
| StorageManager.StorageManager.SaveTheme | extension/content/storageManager.js:69-82 | writes `currentTheme`; memory is set only on success; a failure rejects and changes nothing |
| StorageManager.StorageManager.GetCurrentTheme | extension/content/storageManager.js:89-91 | returns memory |
| StorageManager.StorageManager.SetCurrentTheme | extension/content/storageManager.js:98-100 | sets memory without writing storage |
| ContentScript.ResponseFor | extension/content/content.js:59-71 | success iff applied and saved; the fixed apply error; or the save's message |
| ContentScript.ContentScript.HandleMessage | extension/content/content.js:51-75 | other messages: no response, no change, no `true`. `applyTheme` with a theme: apply, save only after success, respond, and return true. After a successful apply the head holds the applied style text and the theme is in memory; after a refused one the head and memory are unchanged; the busy flag ends as it began |
| ContentScript.FiresAtMostRuns | extension/content/content.js:82-92 | callbacks that run number at most the bursts of mutations, plus one for a timer already pending |
| ContentScript.BurstFiresOnce | extension/content/content.js:82-92 | a burst of mutations followed by expiries runs the callback exactly once |
| ContentScript.IdleExpiriesDoNothing | extension/content/content.js:83-85 | with no timer pending nothing runs |
| ContentScript.ContentScript.OnMutation | extension/content/content.js:83-85 | a mutation clears and re-arms the timer |
| ContentScript.ContentScript.OnTimerFired | extension/content/content.js:85-91 | re-applies iff a timer was pending, a current theme exists and no application is running; an accepted re-apply writes that theme's style text to the head, and a refused re-apply (no platform, or no colours) leaves the head unchanged |
| ContentScript.ContentScript.LoadAndApplySavedTheme | extension/content/content.js:34-45 | applies only when a saved theme with colours loads, otherwise nothing changes. A loaded theme stays in memory even when the apply is refused; the apply succeeds iff none is in progress and the host is supported, and the head then holds the applied text for that theme; a refused apply leaves the head unchanged |
| ColorUtils.ParseHex | extension/popup/colorUtils.js:42-44 | after skipping a leading `0x`/`0X`, NaN exactly when no hex digit follows |
| ColorUtils.HexPrefixExamples | extension/popup/colorUtils.js:42-44 | `"0x"` and `"0X"` are NaN, `"0xA"` is 10, and `"0g"` reads its one leading digit as 0 |
| ColorUtils.HexPrefixChannelExample | extension/popup/colorUtils.js:39-50 | a background whose first pair is `0x` has a NaN channel and gets white text |
| ColorUtils.ParsePair | extension/popup/colorUtils.js:42-44 | two hex digits parse to their byte value |
| ColorUtils.GetContrastColor | extension/popup/colorUtils.js:39-56 | the result is always "#1D1C1D" or "#FFFFFF" |
| ColorUtils.ContrastOfHexColor | extension/popup/colorUtils.js:41-55 | on `#rrggbb`: "#1D1C1D" iff 299r + 587g + 114b > 128000, and the user text colour has no effect |
| ColorUtils.MidGreyExample | extension/popup/colorUtils.js:51-55 | `#808080` (brightness exactly 128) gives "#FFFFFF" |
| ColorUtils.WhiteExample | extension/popup/colorUtils.js:51-53 | `#FFFFFF` and `#ffffff` give "#1D1C1D" |
| ColorUtils.BlackExample | extension/popup/colorUtils.js:53-55 | `#000000` gives "#FFFFFF" |
| ColorUtils.UnreadableBackground | extension/popup/colorUtils.js:41-55 | the backgrounds `""`, `"#12"` and `"#zz0000"` give "#FFFFFF" |
| ColorUtils.UnreadablePair | extension/popup/colorUtils.js:41-55 | a background with fewer than five characters after the `#`, or a non-hex character at the start of one of its three pairs, gives "#FFFFFF" |
| ColorUtils.FiveDigitBackground | extension/popup/colorUtils.js:41-55 | a short text whose pairs start with digits is still read: `#FFFFF` and `#FFFFFg` give "#1D1C1D" |
| ColorUtils.ContrastMonotone | extension/popup/colorUtils.js:48-55 | raising channels never turns "#1D1C1D" into "#FFFFFF" |
| ColorUtils.UpperKeepsChannels | extension/popup/colorUtils.js:80 | upper-casing a colour keeps it a colour with the same channels |
| ColorUtils.AcceptedInputs | extension/popup/colorUtils.js:89-94 | typed text is accepted iff it is `#rrggbb`, or six hex digits without the `#` |
| ColorUtils.NormalizeIdempotent | extension/popup/colorUtils.js:89-91 | prepending `#` twice is the same as once |
| ColorUtils.ColorPair.OnPickerInput | extension/popup/colorUtils.js:79-81 | the hex field shows the picker's value upper-cased |
| ColorUtils.ColorPair.OnHexInput | extension/popup/colorUtils.js:85-97 | the picker takes the value with `#` prepended iff that is a colour; otherwise it is unchanged |
| ColorUtils.PickerRoundTrip | extension/popup/colorUtils.js:79-95 | a picker colour copied to the hex field and accepted back keeps its channels |
| CustomThemeManager.BuiltThemeShape | extension/popup/customThemeManager.js:174-202 | the record: trimmed name or "내 테마", `primary = sidebar`, `inputBorder = accent`, `header`, `chatBg` and `inputBg` from the form, custom, fixed description, and the text colour taken from `getContrastColor` (so black or white) when the helpers are loaded, from the form otherwise |
| CustomThemeManager.IdeographicSpaceName | extension/popup/customThemeManager.js:174 | a name of only an ideographic space (U+3000) is trimmed away and gets "내 테마" |
| CustomThemeManager.UnicodeSpacesName | extension/popup/customThemeManager.js:174 | a name of a no-break space and an em space gets "내 테마" |
| CustomThemeManager.SavedListSpec | extension/popup/customThemeManager.js:208-218 | edit keeps the length and changes only the edited slot; create appends one at the end |
| CustomThemeManager.SplicedSpec | extension/popup/customThemeManager.js:272-273 | an in-range splice drops exactly that entry and keeps the rest in order (as a multiset too); out of range nothing changes |
| CustomThemeManager.SaveCustomTheme | extension/popup/customThemeManager.js:170-257 | an edit index past the end fails before any write; otherwise the updated list is written and returned with the theme, keeping the old id when editing; a failed write fails and writes nothing |
| CustomThemeManager.DeleteCustomTheme | extension/popup/customThemeManager.js:266-284 | declined: the list, no write; confirmed: the spliced list is written and returned, or the failure; out of range: written, then an error |
| ThemeRenderer.TotalPages | extension/popup/themeRenderer.js:51 | the ceiling of n / 6: enough pages for every theme, none of them empty |
| ThemeRenderer.Slice | extension/popup/themeRenderer.js:57 | on non-negative bounds, the slice between the clamped indices |
| ThemeRenderer.RenderThemes | extension/popup/themeRenderer.js:41-75 | nothing when the presets are undefined; otherwise total pages, the cards of the page's slice in order, at most six and all from the list, active iff the id matches, and the two disabled flags |
| ThemeRenderer.RenderedPage | extension/popup/themeRenderer.js:55-57 | on a page from 1 to the last, card `i` shows theme `(page - 1) * 6 + i`, and the page has as many cards as are left up to its end |
| ThemeRenderer.PastLastPage | extension/popup/themeRenderer.js:55-57 | a page past the last shows no cards |
| ThemeRenderer.PageSliceOfPage | extension/popup/themeRenderer.js:55-57 | page p shows exactly `[(p-1)*6, p*6)` clamped to the list |
| ThemeRenderer.PagesUpToPrefix | extension/popup/themeRenderer.js:55-57 | the first k pages are the first 6k themes |
| ThemeRenderer.PagesCoverList | extension/popup/themeRenderer.js:51-57 | all pages one after the other give the list back, in order |
| ThemeRenderer.PagesNotEmpty | extension/popup/themeRenderer.js:51-57 | every page in range shows at least one card |
| ThemeRenderer.Cards | extension/popup/themeRenderer.js:63-67 | one card per theme, active iff the current theme has its id |
| Popup.NavigationStaysInRange | extension/popup/popup.js:192-207 | both buttons keep the page in range (`[1, totalPages]`, or just page 1 when there are no presets) and move it by at most one; each is a no-op exactly at its end |
| Popup.NextThenPrev | extension/popup/popup.js:192-207 | below the last page, next then previous comes back to the same page |
| Popup.ButtonsMatchHandlers | extension/popup/popup.js:192-207 | with a non-empty preset list, the rendered disabled flags agree with when the handlers do nothing |
| Popup.EmptyPresetsNextEnabled | extension/popup/themeRenderer.js:69-71 | with no presets, page 1 shows an enabled next button whose handler does nothing |
| Popup.StoredRoundTrip | extension/popup/popup.js:69-70 | what is written under a key loads back, the other key is untouched, and an empty store loads null and `[]` |
| Popup.PopupState.constructor | extension/popup/popup.js:31-33 | page 1, no current theme (so the label reads "없음"), no custom themes |
| Popup.PopupState.LoadSavedData | extension/popup/popup.js:62-78 | both keys are read back, with null and `[]` as defaults |
| Popup.PopupState.OnPrevPage | extension/popup/popup.js:192-197 | decrements only above page 1 |
| Popup.PopupState.OnNextPage | extension/popup/popup.js:199-207 | increments only below the preset page count |
| Popup.PopupState.ApplyTheme | extension/popup/popup.js:85-116 | the theme becomes current before the write, so it stays current when the write fails; the current-theme label computed from it is the theme's name |
| Popup.PopupState.HandleDeleteCustomTheme | extension/popup/popup.js:148-158 | on success the list becomes the returned one; on error it is unchanged |
| Popup.PopupState.HandleSaveCustomTheme | extension/popup/popup.js:163-183 | on success the list becomes the saved list and the new theme is applied; a failed save changes nothing |

## Left out

- The browser: messaging, tabs (the message to the page and its reload after an edit), the
  `MutationObserver` itself and the 1000 ms timer. Each timer event is a method call, or an
  element of an event list.
- background.js, uiController.js and domManager.js: UI wiring, modals and tabs. Card markup,
  `renderCustomThemes`, `updatePreview` and all logging are also left out, as is the page's DOM
  beyond `<head>` elements and inline styles.
- The preset data in themes.js: the preset list is a parameter.
- CSS comments and white space: the templates are lists of rules. A rule's text is
  `selector { property: value !important; … }`, so "the sheet contains this rule" is modelled
  but byte equality with the template literals is not.
- The lightness test's regular expression is written out as the one pattern it is; there is
  no regular-expression engine. `toLowerCase`/`toUpperCase` act on ASCII letters only.
- ThemeApplier.PlatformCss: the `if`/`else if` dispatch on the platform key is a function
  over a key-to-module table and the set of loaded modules, not a chain of statements.
- StyleInjector.Document.ApplyStylesToElements: which elements a selector matches, and
  whether it is a valid selector, are given per element. A thrown selector error is a flag.
- ColorUtils.ParseHex: `parseInt`'s leading white space and sign are not modelled. A pair
  that starts with either reads as NaN. The `0x` prefix is modelled.
- PlatformDetector.GetPlatformSelectors: the table is a map of its own keys. A lookup with
  the name of a property every object inherits (`constructor`, `toString`, `__proto__`)
  would return that property instead of null; this is not modelled. Nothing in the
  repository calls the function with such a key.
- ColorUtils.ColorPair.OnHexInput: the colour input's own value sanitisation (it stores
  the assigned colour in lower case) is not modelled; the picker holds the text as assigned.
- StyleInjector.CodeBlockColorsFor: the code-block border colour (`codeBlockBorder`) is
  computed, but the template never writes it, so no rule of the model shows it.
- Popup.PopupState.ApplyTheme: the redraw (`renderAll`) that follows a successful write is
  not modelled. A failed write skips it, so the label on screen is then not refreshed.
- ColorUtils.GetContrastColor: the brightness is compared exactly,
  `299r + 587g + 114b > 128000`. That is the same as the floating-point `/ 1000 > 128`,
  because the sum is an integer.
- CustomThemeManager.DeleteCustomTheme: the index is a natural number. `splice`'s
  counting from the end for a negative index is not modelled.
- Popup.PopupState.LoadSavedData: a stored value of the wrong kind under a key (a list
  under `currentTheme`) loads as absent. A failing `get` is not modelled.
- `saveCustomTheme`'s `applyThemeCallback`: the popup calls its own `applyTheme` straight
  after the list write, so Popup.PopupState.HandleSaveCustomTheme makes that call after
  CustomThemeManager.SaveCustomTheme returns. The callback never throws, because `applyTheme`
  catches its own errors, so the outcome is the same.
- ThemeApplier.Applier.ApplyTheme: the guard on `isApplying` is modelled, but
  single-threaded scheduling is not. The flag can be set on entry because the model allows
  calls from anywhere; in the browser it is always clear between calls.

## Findings

| source | as written | input that shows it | evidently intended | confidence | as-written member | corrected member |
|---|---|---|---|---|---|---|
| extension/content/themeApplier.js:116 | the platform sheet (a string) is passed to `injectGlobalStyles`, which reads palette fields from it; every field is `undefined`, so the generic template is written with "undefined" colours and the platform sheet is discarded | any theme on any supported platform whose module is loaded, e.g. a Claude page with a Solarized palette | the style element holds the platform's generated sheet | high, not executed | ThemeApplier.AppliedTextIgnoresTheme | ThemeApplier.IntendedTextIsPlatformCss |
| extension/content/styleInjector.js:77 | the class `[F-f]` is the ASCII range 0x46 to 0x66, so `G`–`Z`, `[`, `_`, `a`–`f` and more count as "light" after `#`, and the answer depends on letter case | `#a0a0a0` is light but `#A0A0A0` is dark | the class `[Ff]`: a colour starting `#F`/`#f` | medium, not executed | StyleInjector.CaseChangesLightness | StyleInjector.IntendedHexIgnoresCase |

Both as-written behaviours are the ones the rest of the model uses: `ThemeApplier.Applier.ApplyTheme`,
and through it the content script, follow the code as written. The corrected halves are stated
beside them. `ThemeApplier.Applier.ApplyThemeIntended` writes the platform's sheet, and
`ThemeApplier.IntendedCarriesPalette` proves that the theme's colours then reach the page.
`StyleInjector.IntendedIsLightTheme` reads the class as `[Ff]`, and `StyleInjector.IntendedNarrower`
and `StyleInjector.IntendedExamples` compare it with the as-written test.
