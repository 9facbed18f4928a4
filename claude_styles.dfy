/** The Claude style module: one template over the palette (the light flag is unused). */
module ClaudeStyles {
  import opened Palette
  import opened Css

  /** The rules of `generateStyles(colors, isLight)`, in template order. */
  function Sheet(c: Colors, isLight: bool): Css.Sheet {
    [ Rule("body, html, main, [role=\"main\"]",
           [Important("background-color", Show(c.chatBg)), Important("color", Show(c.chatText))]),
      Rule("main *, [role=\"main\"] *", [Important("color", "inherit")]),
      Rule("nav, aside", [Important("background-color", Show(c.sidebar))]),
      Rule("header", [Important("background-color", Show(c.header))]),
      Rule("div[contenteditable=\"true\"], textarea",
           [Important("background-color", Show(c.inputBg)), Important("color", Show(c.chatText)),
            Important("border", "1px solid " + Show(c.inputBorder))]),
      Rule(".font-claude-message, [data-testid=\"chat-message\"]", [Important("color", Show(c.chatText))]),
      Rule(".font-claude-message.user", [Important("background-color", OrElse(c.userBubble, "transparent"))])
    ]
  }

  /** `generateStyles(colors, isLight)`: the template's text. */
  function GenerateStyles(c: Colors, isLight: bool): (css: string)
    ensures css != []
  {
    RenderNonEmpty(Sheet(c, isLight));
    Render(Sheet(c, isLight))
  }

  /** The output does not depend on the light flag. */
  lemma IgnoresLightFlag(c: Colors)
    ensures GenerateStyles(c, true) == GenerateStyles(c, false)
  {
  }

  /** Page, header, sidebar and input rules use the corresponding palette roles. */
  lemma RegionColours(c: Colors, isLight: bool)
    ensures HasRule(GenerateStyles(c, isLight), Rule("body, html, main, [role=\"main\"]",
              [Important("background-color", Show(c.chatBg)), Important("color", Show(c.chatText))]))
    ensures HasRule(GenerateStyles(c, isLight), Rule("nav, aside", [Important("background-color", Show(c.sidebar))]))
    ensures HasRule(GenerateStyles(c, isLight), Rule("header", [Important("background-color", Show(c.header))]))
    ensures HasRule(GenerateStyles(c, isLight), Rule("div[contenteditable=\"true\"], textarea",
              [Important("background-color", Show(c.inputBg)), Important("color", Show(c.chatText)),
               Important("border", "1px solid " + Show(c.inputBorder))]))
  {
    var s := Sheet(c, isLight);
    RenderContainsRule(s, 0);
    RenderContainsRule(s, 2);
    RenderContainsRule(s, 3);
    RenderContainsRule(s, 4);
  }

  /** The user message takes `userBubble` when it is set, and is transparent otherwise. */
  lemma UserBubbleFallback(c: Colors, isLight: bool)
    ensures Truthy(c.userBubble) ==> HasRule(GenerateStyles(c, isLight),
              Rule(".font-claude-message.user", [Important("background-color", c.userBubble.value)]))
    ensures !Truthy(c.userBubble) ==> HasRule(GenerateStyles(c, isLight),
              Rule(".font-claude-message.user", [Important("background-color", "transparent")]))
  {
    RenderContainsRule(Sheet(c, isLight), 6);
  }
}
