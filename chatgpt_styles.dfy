/** The ChatGPT style module: one template over the palette and the light/dark flag. */
module ChatGptStyles {
  import opened Wrappers
  import opened Palette
  import opened Css

  function BubbleRule(c: Colors): Rule {
    Rule("[data-message-author-role=\"user\"]", [Important("background-color", OrElse(c.userBubble, "transparent"))])
  }

  function StickyRule(c: Colors): Rule {
    Rule(".sticky.top-0, .content-fade-top, .offset-padding-top-4.sticky",
         [Important("background-color", OrElse(c.stickyHeader, Show(c.chatBg))),
          Important("color", Show(c.chatText))])
  }

  function HoverRule(isLight: bool): Rule {
    Rule("form button:hover",
         [Important("background-color", if isLight then "rgba(0,0,0,0.05)" else "rgba(255,255,255,0.1)")])
  }

  /** The rules of `generateStyles(colors, isLight)`, in template order. */
  function Sheet(c: Colors, isLight: bool): Css.Sheet {
    [ Rule(":root", [
        Plain("--theme-primary", Show(c.primary)),
        Plain("--theme-sidebar", Show(c.sidebar)),
        Plain("--theme-header", Show(c.header)),
        Plain("--theme-chat-bg", Show(c.chatBg)),
        Plain("--theme-chat-text", Show(c.chatText)),
        Plain("--theme-input-bg", Show(c.inputBg)),
        Plain("--theme-input-border", Show(c.inputBorder)),
        Plain("--theme-accent", Show(c.accent))]),
      Rule("body, html", [Important("background-color", Show(c.chatBg)), Important("color", Show(c.chatText))]),
      Rule("main, [role=\"main\"], .chat-container",
           [Important("background-color", Show(c.chatBg)), Important("color", Show(c.chatText)), Important("opacity", "1")]),
      Rule("main *, [role=\"main\"] *", [Important("color", "inherit"), Plain("border-color", Show(c.inputBorder))]),
      Rule("main p, main span, main div, main h1, main h2, main h3, main h4, main h5, main h6, main li",
           [Important("color", Show(c.chatText))]),
      Rule("a, [role=\"link\"], a *, [role=\"link\"] *", [Important("color", Show(c.accent))]),
      Rule("nav, .sidebar", [Important("background-color", Show(c.sidebar)), Important("color", Show(c.chatText))]),
      Rule("header", [Important("background-color", Show(c.header)), Important("color", Show(c.chatText))]),
      StickyRule(c),
      Rule("#prompt-textarea, textarea, [contenteditable=\"true\"]",
           [Important("background-color", Show(c.inputBg)), Important("color", Show(c.chatText)),
            Important("border", "1px solid " + Show(c.inputBorder))]),
      Rule("[view-transition-name*=\"disclaimer\"], .text-xs.text-center, div[class*=\"disclaimer\"], div[class*=\"footer\"]",
           [Important("background-color", "transparent")]),
      BubbleRule(c),
      HoverRule(isLight),
      Rule(".bg-bg-300", [Important("background-color", Show(c.sidebar))])
    ]
  }

  /** `generateStyles(colors, isLight)`: the template's text. */
  function GenerateStyles(c: Colors, isLight: bool): (css: string)
    ensures css != []
  {
    RenderNonEmpty(Sheet(c, isLight));
    Render(Sheet(c, isLight))
  }

  /** The `:root` block carries the eight palette roles verbatim as `--theme-*` variables. */
  lemma RootVariables(c: Colors, isLight: bool)
    ensures HasRule(GenerateStyles(c, isLight), Rule(":root", [
              Plain("--theme-primary", Show(c.primary)), Plain("--theme-sidebar", Show(c.sidebar)),
              Plain("--theme-header", Show(c.header)), Plain("--theme-chat-bg", Show(c.chatBg)),
              Plain("--theme-chat-text", Show(c.chatText)), Plain("--theme-input-bg", Show(c.inputBg)),
              Plain("--theme-input-border", Show(c.inputBorder)), Plain("--theme-accent", Show(c.accent))]))
  {
    RenderContainsRule(Sheet(c, isLight), 0);
  }

  /** The page background and text colour are `chatBg` and `chatText`. */
  lemma BodyUsesChatColours(c: Colors, isLight: bool)
    ensures HasRule(GenerateStyles(c, isLight),
              Rule("body, html", [Important("background-color", Show(c.chatBg)), Important("color", Show(c.chatText))]))
  {
    RenderContainsRule(Sheet(c, isLight), 1);
  }

  /** Links use `accent`; `.bg-bg-300` panels use `sidebar`. */
  lemma LinksAndPanels(c: Colors, isLight: bool)
    ensures HasRule(GenerateStyles(c, isLight), Rule("a, [role=\"link\"], a *, [role=\"link\"] *", [Important("color", Show(c.accent))]))
    ensures HasRule(GenerateStyles(c, isLight), Rule(".bg-bg-300", [Important("background-color", Show(c.sidebar))]))
  {
    RenderContainsRule(Sheet(c, isLight), 5);
    RenderContainsRule(Sheet(c, isLight), 13);
  }

  /** The sticky header takes `stickyHeader` when it is set, and `chatBg` otherwise. */
  lemma StickyHeaderFallback(c: Colors, isLight: bool)
    ensures Truthy(c.stickyHeader) ==> HasRule(GenerateStyles(c, isLight),
              Rule(".sticky.top-0, .content-fade-top, .offset-padding-top-4.sticky",
                   [Important("background-color", c.stickyHeader.value), Important("color", Show(c.chatText))]))
    ensures !Truthy(c.stickyHeader) ==> HasRule(GenerateStyles(c, isLight),
              Rule(".sticky.top-0, .content-fade-top, .offset-padding-top-4.sticky",
                   [Important("background-color", Show(c.chatBg)), Important("color", Show(c.chatText))]))
  {
    RenderContainsRule(Sheet(c, isLight), 8);
  }

  /** The user bubble takes `userBubble` when it is set, and is transparent otherwise. */
  lemma UserBubbleFallback(c: Colors, isLight: bool)
    ensures Truthy(c.userBubble) ==> HasRule(GenerateStyles(c, isLight),
              Rule("[data-message-author-role=\"user\"]", [Important("background-color", c.userBubble.value)]))
    ensures !Truthy(c.userBubble) ==> HasRule(GenerateStyles(c, isLight),
              Rule("[data-message-author-role=\"user\"]", [Important("background-color", "transparent")]))
  {
    RenderContainsRule(Sheet(c, isLight), 11);
  }

  /**
   * The light flag changes only the form-button hover background: the two sheets agree
   * rule for rule except that one, which is dark-on-light or light-on-dark.
   */
  lemma LightFlagOnlyChangesHover(c: Colors)
    ensures |Sheet(c, true)| == |Sheet(c, false)|
    ensures forall i :: 0 <= i < |Sheet(c, true)| && i != 12 ==> Sheet(c, true)[i] == Sheet(c, false)[i]
    ensures Sheet(c, true)[12] != Sheet(c, false)[12]
    ensures HasRule(GenerateStyles(c, true), Rule("form button:hover", [Important("background-color", "rgba(0,0,0,0.05)")]))
    ensures HasRule(GenerateStyles(c, false), Rule("form button:hover", [Important("background-color", "rgba(255,255,255,0.1)")]))
  {
    RenderContainsRule(Sheet(c, true), 12);
    RenderContainsRule(Sheet(c, false), 12);
    assert "rgba(0,0,0,0.05)"[5] != "rgba(255,255,255,0.1)"[5];
  }
}
