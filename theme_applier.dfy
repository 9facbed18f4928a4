/**
 * The theme applier: the re-entrancy guard, platform dispatch to the style generators, and
 * injection of the result into the page.
 */
module ThemeApplier {
  import opened Wrappers
  import opened Strings
  import opened Palette
  import opened Css
  import opened PlatformDetector
  import opened StyleInjector
  import StorageManager
  import ChatGptStyles
  import ClaudeStyles
  import GeminiStyles
  import GrokStyles

  /** The platform style modules; each may or may not be loaded in the page. */
  datatype Generator = ChatGpt | Claude | Gemini | Grok

  /** Which module a platform key dispatches to. */
  function GeneratorFor(platform: string): Option<Generator> {
    if platform == "chatgpt.com" || platform == "chat.openai.com" then Some(ChatGpt)
    else if platform == "claude.ai" then Some(Claude)
    else if platform == "gemini.google.com" then Some(Gemini)
    else if platform == "grok.com" then Some(Grok)
    else None
  }

  /** Both ChatGPT hosts share one generator; the other three platforms each have their own. */
  lemma DispatchTable()
    ensures GeneratorFor("chatgpt.com") == GeneratorFor("chat.openai.com") == Some(ChatGpt)
    ensures GeneratorFor("claude.ai") == Some(Claude)
    ensures GeneratorFor("gemini.google.com") == Some(Gemini)
    ensures GeneratorFor("grok.com") == Some(Grok)
    ensures forall p :: GeneratorFor(p).Some? <==> p in PlatformSelectors
  {
  }

  /** Every platform the detector can return has a generator. */
  lemma DetectedPlatformsDispatch(hostname: string)
    ensures DetectPlatform(hostname).Some? ==> GeneratorFor(DetectPlatform(hostname).value).Some?
  {
    DispatchTable();
  }

  /** A generator's output. */
  function Generate(g: Generator, c: Colors, isLight: bool): (css: string)
    ensures css != []
  {
    match g
    case ChatGpt => ChatGptStyles.GenerateStyles(c, isLight)
    case Claude => ClaudeStyles.GenerateStyles(c, isLight)
    case Gemini => GeminiStyles.GenerateStyles(c, isLight)
    case Grok => GrokStyles.GenerateStyles(c, isLight)
  }

  /** `cssContent` after dispatch: empty when the platform's module is not loaded. */
  function PlatformCss(platform: string, c: Colors, loaded: set<Generator>): (css: string)
    ensures css != [] <==> GeneratorFor(platform).Some? && GeneratorFor(platform).value in loaded
    ensures css != [] ==> css == Generate(GeneratorFor(platform).value, c, IsLightTheme(c.chatBg))
  {
    match GeneratorFor(platform)
    case None => ""
    case Some(g) => if g in loaded then Generate(g, c, IsLightTheme(c.chatBg)) else ""
  }

  /** The document head after a successful application, as written: the CSS text goes where a palette is expected. */
  function AppliedHead(head: seq<HeadElement>, platform: string, c: Colors, loaded: set<Generator>): seq<HeadElement> {
    var css := PlatformCss(platform, c, loaded);
    if css == "" then head else WithStyleText(head, GlobalCss(ArgColors(FromText(css))))
  }

  /** The document head after a successful application that writes the platform CSS itself. */
  function IntendedHead(head: seq<HeadElement>, platform: string, c: Colors, loaded: set<Generator>): seq<HeadElement> {
    var css := PlatformCss(platform, c, loaded);
    if css == "" then head else WithStyleText(head, css)
  }

  /** The text of the extension's style element, if there is one. */
  function StyleText(head: seq<HeadElement>): Option<string> {
    match FindId(head, StyleId)
    case None => None
    case Some(k) => if k < |head| then Some(head[k].text) else None
  }

  /**
   * As written, the style element's text does not depend on the theme at all: any two
   * palettes that get a module to run leave the same text, the all-"undefined" template.
   */
  lemma AppliedTextIgnoresTheme(head: seq<HeadElement>, platform: string, c: Colors, d: Colors, loaded: set<Generator>)
    requires PlatformCss(platform, c, loaded) != []
    ensures PlatformCss(platform, d, loaded) != []
    ensures AppliedHead(head, platform, c, loaded) == AppliedHead(head, platform, d, loaded)
    ensures StyleText(AppliedHead(head, platform, c, loaded)) == Some(GlobalCss(ArgColors(FromText(PlatformCss(platform, d, loaded)))))
  {
    var css, other := PlatformCss(platform, c, loaded), PlatformCss(platform, d, loaded);
    TextArgumentRendersUndefined(css, other);
    WithStyleTextSpec(head, GlobalCss(ArgColors(FromText(css))));
  }

  /** Writing the platform CSS itself leaves exactly that CSS in the style element. */
  lemma IntendedTextIsPlatformCss(head: seq<HeadElement>, platform: string, c: Colors, loaded: set<Generator>)
    requires PlatformCss(platform, c, loaded) != []
    ensures StyleText(IntendedHead(head, platform, c, loaded)) == Some(PlatformCss(platform, c, loaded))
  {
    WithStyleTextSpec(head, PlatformCss(platform, c, loaded));
  }

  /** With the intended injection on Claude, the theme's page colours reach the style element. */
  lemma IntendedCarriesPalette(head: seq<HeadElement>, c: Colors, loaded: set<Generator>)
    requires Claude in loaded
    ensures var text := StyleText(IntendedHead(head, "claude.ai", c, loaded));
            text.Some? && HasRule(text.value, Rule("body, html, main, [role=\"main\"]",
              [Important("background-color", Show(c.chatBg)), Important("color", Show(c.chatText))]))
  {
    var css := PlatformCss("claude.ai", c, loaded);
    assert css == ClaudeStyles.GenerateStyles(c, IsLightTheme(c.chatBg));
    IntendedTextIsPlatformCss(head, "claude.ai", c, loaded);
    ClaudeStyles.RegionColours(c, IsLightTheme(c.chatBg));
  }

  class Applier {
    /** The guard against overlapping applications. */
    var isApplying: bool
    /** `window.location.hostname`. */
    const hostname: string
    /** The platform modules present in the page. */
    const loaded: set<Generator>
    const storage: StorageManager.StorageManager
    const doc: Document

    constructor (hostname: string, loaded: set<Generator>, storage: StorageManager.StorageManager, doc: Document)
      ensures !isApplying && this.hostname == hostname && this.loaded == loaded
      ensures this.storage == storage && this.doc == doc
    {
      isApplying := false;
      this.hostname := hostname;
      this.loaded := loaded;
      this.storage := storage;
      this.doc := doc;
    }

    /**
     * `applyTheme(theme)`. While an application is in progress the call is refused and
     * nothing changes. Otherwise it succeeds exactly when the platform is supported and the
     * theme has colours; a success injects (when the platform module produced CSS) and then
     * records the theme in memory, a failure changes neither. The guard is down again on
     * every path. Whether the same theme is already current plays no part.
     */
    method ApplyTheme(theme: Theme) returns (ok: bool)
      modifies this`isApplying, storage`currentTheme, doc`head
      ensures old(isApplying) ==> !ok && isApplying
      ensures !old(isApplying) ==> !isApplying
      ensures !old(isApplying) ==> (ok <==> DetectPlatform(hostname).Some? && theme.colors.Some?)
      ensures ok ==> storage.currentTheme == Some(theme)
                     && doc.head == AppliedHead(old(doc.head), DetectPlatform(hostname).value, theme.colors.value, loaded)
      ensures !ok ==> storage.currentTheme == old(storage.currentTheme) && doc.head == old(doc.head)
    {
      if isApplying {
        return false;
      }
      isApplying := true;
      var platform := DetectPlatform(hostname);
      if platform.None? {
        isApplying := false;
        return false;
      }
      ok := ApplyOnPlatform(platform.value, theme, false);
      isApplying := false;
    }

    /** `applyTheme` with the injection writing the generated CSS itself into the style element. */
    method ApplyThemeIntended(theme: Theme) returns (ok: bool)
      modifies this`isApplying, storage`currentTheme, doc`head
      ensures old(isApplying) ==> !ok && isApplying
      ensures !old(isApplying) ==> !isApplying
      ensures !old(isApplying) ==> (ok <==> DetectPlatform(hostname).Some? && theme.colors.Some?)
      ensures ok ==> storage.currentTheme == Some(theme)
                     && doc.head == IntendedHead(old(doc.head), DetectPlatform(hostname).value, theme.colors.value, loaded)
      ensures !ok ==> storage.currentTheme == old(storage.currentTheme) && doc.head == old(doc.head)
    {
      if isApplying {
        return false;
      }
      isApplying := true;
      var platform := DetectPlatform(hostname);
      if platform.None? {
        isApplying := false;
        return false;
      }
      ok := ApplyOnPlatform(platform.value, theme, true);
      isApplying := false;
    }

    /**
     * The `try` block of `applyTheme` on a detected platform: generate, inject when there is
     * CSS, then record the theme. `intended` selects the injection that writes the CSS text.
     */
    method ApplyOnPlatform(platform: string, theme: Theme, intended: bool) returns (ok: bool)
      modifies storage`currentTheme, doc`head
      ensures ok <==> theme.colors.Some?
      ensures ok ==> storage.currentTheme == Some(theme)
      ensures ok && !intended ==> doc.head == AppliedHead(old(doc.head), platform, theme.colors.value, loaded)
      ensures ok && intended ==> doc.head == IntendedHead(old(doc.head), platform, theme.colors.value, loaded)
      ensures !ok ==> storage.currentTheme == old(storage.currentTheme) && doc.head == old(doc.head)
    {
      if theme.colors.None? {
        // Reading `colors.chatBg` throws; the catch returns false.
        return false;
      }
      var cssContent := PlatformCss(platform, theme.colors.value, loaded);
      if cssContent != "" {
        if intended {
          doc.WriteStyleTag(cssContent);
        } else {
          doc.InjectGlobalStyles(FromText(cssContent));
        }
      }
      storage.SetCurrentTheme(theme);
      ok := true;
    }

    /** `isThemeApplying()`. */
    method IsThemeApplying() returns (b: bool)
      ensures b == isApplying
    {
      b := isApplying;
    }
  }
}
